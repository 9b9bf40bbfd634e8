# VoltHub CSMS: a verified model

This project models the parts of the charging-station management system whose promises are easy to state and hard to keep,
and proves those promises for all inputs, all runs and all interleavings.

**The charging planner.** `Charging` holds the vocabulary: the CC-CV acceptance curve, the slot grid, vehicles and planning
problems. `Allocator` says what each loop of the three-pass allocator computes; `Planner` is the allocator as it runs, one
mutable schedule matrix updated in place, proved to refine those functions. `Invariants` proves what every write keeps and
what a price move gains, `PriceTurns` what pass 2 and each turn of the price pass leave behind, `EdfOptimality` that the deadline fill serves everybody whenever anything could, `Equivalence` that
the acceptance-aware and the power-based allocator coincide below the taper knee. `Certifier` is the worst-case certificate,
`Controller` the certification run over a site, `Reuse` what it
does for each session, `Promise` and `TaperFloor` the theory of honoured floors, with and without
taper. `PlanCycle` joins certification and planning, `EndToEnd` is what a newly admitted vehicle can rely on when the cycle
ends, `Shortfall` and `TaperServed` the exact conditions for being served in full, with the sites that leave it short
otherwise. `Offline`, `OfflinePlan` and `OfflineExact` are the experiment's overlap-aware admission, the schedule after it and
exactly when that pays a floor in full; `Baselines`, `Twin` and `Honesty` the cost bound, the price-blind baseline and the
physics a plan is held to; `Shifting` and `Valley` when the price pass keeps a plan absorbable, and prices at which it does
not. `Profiles` and `InForce` follow a plan down to commanded watts and back.

**The store.** `Outbox` is the relay queue with its in-place retention; `Locks` the promise-chain mutex; `Settlement` the
signed top-ups that suspend between credit and mark, `Entitlement` what entitles to their credits; `Connectors` reservations
and sessions under interleaved two-step methods, `Bookings` what each of those methods answers; `Billing` wallets, invoices
and payments; `Readings` the lazy index and caches beside the meter log, `Meters` what ticks and stops answer.

**The relay.** `Relay` classifies events and writes them with row-by-row isolation of poison; `Delivery` is the whole
at-least-once protocol with several workers, crashes at every point and messages that arrive late, never or twice; `Rekeying`
is what happens when a key is emitted again, `Routing` where events end up by kind and payload.

`Reals` and `Ordering` are the arithmetic and sorting they share.

Conventions. Energy, power and money are exact reals; the energy cut-offs (`1e-9` and `1e-12`) are parameters `eps` and
`tiny` with `0 <= tiny <= eps`; an infinite cap is `None`. Rounding is modelled where a promise crosses it: floors to three
decimals, published schedules to four, limits to whole watts, money to two decimals. A class carries the fields the code
updates; its methods are proved against functions on values, and the theorems are about those functions. What each main
operation does is also stated without those functions, in the terms of its inputs (`Charging.WindowIsStay`,
`Planner.SolveSchedule`, `Certifier.CertificateIs`, `Reuse.CertifySiteIs`, `Relay.ToRows`, `Entitlement.CheckIs`,
`Billing.BillIs`, `Outbox.StaysIff`, `Bookings`, `Meters`, `InForce.ScheduledIs`, `Twin.FlowIs`). Products of
quantities are kept behind named functions (`Tariff`, `Cell`, `Times`, `Charge`, `Kwh`, `TaperedTo`) so that proofs stay
linear.

Where the code falls short of what its comments say, the model keeps the code and states exactly when the promise holds:

- Floors can oversubscribe the usable cap, because a floor is rounded to three decimals: on a site this cannot happen if and
  only if three decimals do not round the cap up (`Controller.CapKeptIff`), and with overlap-aware admission if and only if
  the same holds (`Offline.PromisesFitIff`). The offline schedule pays every granted floor short of at most half a watt under
  any cap (`OfflinePlan.AdmittedServed`), and always in full if and only if three decimals round neither the guest's nameplate
  nor the cap up (`OfflineExact.AdmittedServedIff`, with `OfflineExact.RoundedPlateFails` as an input).
- An admission without battery state is served in full on every site that makes it if and only if the rounded floor, limited
  to the nameplate and to what the others left, covers the need before the deadline (`Shortfall.PromiseKeptIff`). A margin
  that absorbs the rounding is enough (`EndToEnd.PromiseByMargin`; the default of 2 kWh does for every certificate of up to
  16000 intervals), a margin of zero is not (`Shortfall.ZeroMarginFails`). Caps that round up make no difference to this.
- With a known battery the flat floor is paid in full in the slots the certificate counted if and only if the tapered
  nameplate still covers it in the last of them (`TaperFloor.FlatFloorIff`, `EndToEnd.TaperPromiseKept`). A certificate's
  floor always does so unless three decimals rounded its rate up; then it can fail (`EndToEnd.RoundedUpFloorFails`). Such an
  admission, its floor left by the others, is served in full on every site that makes it if and only if what the battery takes
  of the floor, slot by slot, covers the need (`TaperServed.KnownServedIff`).
- Without floors the acceptance-aware plan asks no slot for more than the battery takes after pass 2; after pass 3 that holds
  at prices without a valley (`Shifting.PricesKeepAbsorbable`) and can fail at others (`Valley.ValleyOverfills`), because a
  move into an earlier slot raises every state of charge up to where the energy came from.
- "Below the knee the two allocators are identical" is true of passes 1 and 2 and, because pass 3 of the power-based
  allocator checks only the caps, of the whole plan if and only if no charge point can push more than the nameplate
  (`Equivalence.BelowTheKneeIff`). The plan cycle gives every charge point the whole site cap.
- A promised floor whose slot energy is at or below the allocator's cut-off is never paid; the promises say so.
- A compiled profile can fail its own envelope check when the cap is not a whole number of watts (`Profiles.EnvelopeIff`).
- A balance is the sum of its ledger only while top-ups are whole paise, because the ledger keeps the amount as given
  (`Billing.ConservedIff`); an invoice is the sum of its lines only while fees are (`Billing.TotalsIff`).
- A stop with an explicit register below readings that were not appended through the store can lower the cached peak
  (`Readings.StopKeepsIff`).
- Between a terminal transition and its deferred release a connector can show as available although a window on it is
  booked; the hold and ownership guarantees start once no release is waiting (`Connectors.ConnectorOk`).
- Readings pushed onto the log directly keep caches and log sound only under the condition of `Readings.AppendAgreesIff`.
- The sink's conflict target is each table's primary key, not the dedupe key, and an acknowledgement also matches by key. One
  row per dedupe key, and a row of its own for every processed event, are therefore promises about keys: they hold in every
  run if and only if no key is emitted for two different rows, or for two destinations, and no row belongs to two keys
  (`Rekeying.OneRowPerKeyIff`, `Rekeying.OwnRowsIff`). The store's key formats meet the last of these
  (`Rekeying.StoreRowsIff`); the release of a connector's hold, emitted under a key that names the connector only, breaks the
  first (`Rekeying.ReleaseComesBack`).

## Model

| member | source | states |
|---|---|---|
| `Charging.AcceptanceNonIncreasing` | apps/api/src/control/model.js:117-123 | The acceptance factor never rises with the state of charge and stays between the taper floor and 1. |
| `Charging.BatteryLaw` | apps/api/src/control/model.js:117-123 | The CC-CV battery meets every physical fact the planning proofs use: full power up to the knee, acceptance non-increasing, charging additive and monotone, stored energy comes off the headroom. |
| `Charging.TaperIs` | apps/api/src/control/model.js:117-123 | The curve itself: full power up to 80 %, 15 % from a full battery on, and a straight line in between. |
| `Charging.BatteryIs` | apps/api/src/control/model.js:117-123 | The battery in its own terms: nameplate energy below the knee, 15 % of it when full, straight in between; energy raises the state of charge by its share of the capacity. |
| `Charging.ClampHorizon` | apps/api/src/control/model.js:17-20 | Exactly the horizons 1 to 168 survive; anything else becomes 24. |
| `Charging.ClampDtMin` | apps/api/src/control/model.js:21-24 | Exactly the cadences 5, 10, 15, 30 and 60 survive; anything else becomes 15. |
| `Charging.DeadlineSlot` | apps/api/src/control/model.js:243-245 | No vehicle's window reaches past the horizon, whatever its deadline; which slots a window holds is `Charging.WindowIsStay`. |
| `Charging.StartIs` | apps/api/src/control/model.js:43-47 | The grid starts at the one multiple of the cadence whose slot holds the present instant. |
| `Charging.WindowIsStay` | apps/api/src/control/model.js:240-252 | A vehicle's window is exactly the slots of the horizon that begin before its deadline and end after its arrival, for all instants on or off the grid. |
| `Charging.LoadIs` | apps/api/src/control/model.js:225-298 | Each vehicle in slots: nameplate and floor energy of a slot of dtMin minutes, the floor limited to the nameplate, its need, and its battery at the nearest legal state of charge to the reference, the conservative one first. |
| `Charging.CapsAre` | apps/api/src/control/model.js:292-293 | Site and charge-point caps become the energy of one slot; an absent cap stays absent. |
| `Charging.PrepareValid` | apps/api/src/control/model.js:225-298 | Every well-formed request becomes a well-formed planning problem whose batteries obey the physics. |
| `Planner.Plan.constructor` | apps/api/src/control/model.js:253-254 | The planner starts from an empty schedule and every vehicle's full need. |
| `Planner.Plan.SiteTotal` | apps/api/src/control/model.js:300-304 | The loop over all rows returns the energy already planned on the site in a slot. |
| `Planner.Plan.PointTotal` | apps/api/src/control/model.js:305-309 | The loop over the vehicles of one charge point returns what is planned there in a slot. |
| `Planner.Plan.Room` | apps/api/src/control/model.js:311-315 | Headroom is the tighter of the site and the charge-point caps, never negative, and absent only when neither caps. |
| `Planner.Plan.SocBefore` | apps/api/src/control/model.js:270-281 | Replaying the committed row gives the state of charge just before a slot. |
| `Planner.Plan.Accepts` | apps/api/src/control/model.js:286-291 | A slot accepts the nameplate energy of a vehicle without battery state, and what the replayed battery takes otherwise. |
| `Planner.Plan.Offer` | apps/api/src/control/model.js:318-322 | The amount a give writes: the ask, limited by acceptance, need and headroom. |
| `Planner.Plan.Give` | apps/api/src/control/model.js:318-326 | The single writer of passes 1 and 2, in place: outside the window or under the cut-off nothing changes, otherwise one cell and one need move by the same amount. |
| `Planner.Plan.HonourFloor` | apps/api/src/control/model.js:328-337 | A vehicle's pass-1 loop, which stops as soon as its need is met, equals asking in every slot of its window. |
| `Planner.Plan.FloorsFirst` | apps/api/src/control/model.js:328-337 | Pass 1 on the mutable schedule refines the floor pass. |
| `Planner.Plan.FillByDeadline` | apps/api/src/control/model.js:339-346 | Pass 2 on the mutable schedule refines the slot-by-slot deadline-ordered fill. |
| `Planner.Plan.MoveOne` | apps/api/src/control/model.js:373-387 | One price move takes the same amount out of one slot and into another and returns what is left to move. |
| `Planner.Plan.ShiftOut` | apps/api/src/control/model.js:363-388 | The loop over the cheaper slots, which breaks when nothing is left to move, equals trying every cheaper slot. |
| `Planner.Plan.FindHolders` | apps/api/src/control/model.js:356-360 | The vehicles collected for a dear slot are those with energy above the cut-off in it, in session order. |
| `Planner.Plan.ShiftByPrice` | apps/api/src/control/model.js:348-389 | Pass 3 on the mutable schedule refines the price shift. |
| `Planner.Plan.Run` | apps/api/src/control/model.js:328-389 | The three passes in order leave exactly the state the allocator's functions describe. |
| `Planner.SolveSchedule` | apps/api/src/control/model.js:213-389 | For any requested cadence and horizon the planner returns that state and its schedule in four decimals; for a well-formed site, in the request's own terms, no slot draws more than the site cap or a charge point's cap allows, nobody is charged in a slot outside its stay, and planned and owed energy add up to the need. |
| `Planner.GoodFeasible` | apps/api/src/control/model.js:240-389 | Every state that keeps the allocator's invariant is feasible for the request: caps by charge point, stays by instant, needs by vehicle. |
| `Planner.FloorRowDone` | apps/api/src/control/model.js:337 | Once a vehicle's need is met the rest of its floor loop changes nothing. |
| `Planner.ShiftRowDone` | apps/api/src/control/model.js:369-371 | Once nothing is movable the remaining cheaper slots change nothing. |
| `Invariants.GiveGood` | apps/api/src/control/model.js:318-326 | Every give keeps all caps, keeps entries non-negative and inside the window, and keeps need plus row sum equal to the initial need; other vehicles are untouched. |
| `Invariants.MoveGood` | apps/api/src/control/model.js:373-387 | Every pass-3 move keeps the same invariant and nobody's need changes. |
| `Invariants.MoveGain` | apps/api/src/control/model.js:373-387 | Every pass-3 move that happens strictly lowers the score-weighted cost. |
| `Invariants.FloorPassGood` | apps/api/src/control/model.js:328-337 | Pass 1 keeps the invariant and never raises a need. |
| `Invariants.FillPassGood` | apps/api/src/control/model.js:339-346 | Pass 2 keeps the invariant and never raises a need. |
| `Invariants.ShiftPassGood` | apps/api/src/control/model.js:348-389 | Pass 3 keeps the invariant and gives every vehicle exactly the energy it had. |
| `Invariants.ShiftPassCost` | apps/api/src/control/model.js:348-389 | Pass 3 leaves the plan alone or makes it strictly cheaper, for every tariff that orders slots by score. |
| `Invariants.ShiftExhausts` | apps/api/src/control/model.js:363-388 | With nameplate acceptance a vehicle keeps energy in a dear slot only if every cheaper slot of its window is full when its turn ends. |
| `Invariants.SolveGood` | apps/api/src/control/model.js:300-389 | The finished plan satisfies the invariant; passes 2 and 3 never take energy back; pass 3 changes nobody's energy and lowers the cost whenever it changes the plan. |
| `PriceTurns.ByIdIs` | apps/api/src/control/model.js:329 | Pass 1 and each price turn visit every vehicle once, in session order. |
| `PriceTurns.EdfIs` | apps/api/src/control/model.js:340 | Pass 2 visits every vehicle once, the earlier deadline first and the lower session id among equals. |
| `PriceTurns.PriceOrderIs` | apps/api/src/control/model.js:352-354 | Pass 3 visits every slot once, dearest first. |
| `PriceTurns.CheaperIs` | apps/api/src/control/model.js:363-368 | A vehicle's cheaper slots are all slots of its window that cost strictly less, cheapest first. |
| `PriceTurns.PricePassTurns` | apps/api/src/control/model.js:348-389 | The power-based pass 3 is a chain of turns, dearest slot first, from the plan of pass 2 to the finished plan: in a turn only that slot loses energy, only to strictly cheaper slots of the vehicle's window; at its end every vehicle has left the slot or finds all of those full; and a slot gained energy only if every cheaper one of the window was full. |
| `PriceTurns.TurnSettles` | apps/api/src/control/model.js:348-389 | From its own turn on a slot keeps what it holds to the end. |
| `PriceTurns.LeftOnlyWhenFull` | apps/api/src/control/model.js:348-389 | Energy the finished plan leaves in a slot found every slot of the vehicle's stay that the price series makes cheaper full when that slot's turn was over. |
| `PriceTurns.FullIs` | apps/api/src/control/model.js:311-315 | A slot is full when what is planned leaves no more than a cut-off of the site's or the charge point's budget. |
| `PriceTurns.CostIs` | apps/api/src/control/model.js:348-389 | The cost that pass 3 lowers is what the site draws in each slot at that slot's price; slots past the end of the series cost nothing. |
| `PriceTurns.OwedUsedItsStay` | apps/api/src/control/model.js:318-346 | Nothing is wasted: a vehicle the finished plan still owes energy had, when pass 2 was over, taken from every slot that overlaps its stay all it could (nameplate, or what its battery accepts) but for a cut-off, or the slot was full. |
| `EdfOptimality.DemandFits` | apps/api/src/control/model.js:339-346 | Any feasible allocation bounds the demand that arrives and falls due between two slots by the site energy between them. |
| `EdfOptimality.HungrySlot` | apps/api/src/control/model.js:339-346 | If a vehicle due by d leaves a slot hungry, the whole slot (to within the cut-off) went to demand due by d. |
| `EdfOptimality.EdfServes` | apps/api/src/control/model.js:318-346 | With a positive cut-off: whenever any allocation within the site cap serves everybody, pass 2 leaves each vehicle at most one cut-off per slot and per vehicle. |
| `EdfOptimality.EdfOptimal` | apps/api/src/control/model.js:318-346 | With exact arithmetic: pass 2 serves every vehicle in full inside its window if and only if some allocation within the site cap does, and the whole plan does too. |
| `Equivalence.CalmAccepts` | apps/api/src/control/model.js:270-291 | A vehicle that cannot reach the knee accepts its nameplate energy in every slot of every legal plan. |
| `Equivalence.BelowTheKneeFill` | apps/api/src/control/model.js:178-187 | If nobody can charge past the knee, passes 1 and 2 of the acceptance-aware and the power-based allocator leave the same state, whatever the charge points allow. |
| `Equivalence.BelowTheKneeIdentical` | apps/api/src/control/model.js:178-187 | If moreover no charge point can push more than a vehicle's nameplate, the two allocators return the same plan. |
| `Equivalence.BelowTheKneeIff` | apps/api/src/control/model.js:178-187 | Exact condition: for nameplate slot energy c and charge-point allowance K, the two allocators agree on every problem below the knee (all fleets, needs, windows, floors, site caps and prices) if and only if there is a K and it is at most c; otherwise one vehicle with a cheaper second slot is planned differently. |
| `Promise.FittingLeaves` | apps/api/src/control/model.js:311-337 | If all floors fit under the caps together, earlier sessions leave every vehicle its own floor in each slot of its window. |
| `Promise.FloorHonoured` | apps/api/src/control/model.js:328-389 | If earlier sessions leave a vehicle its floor and its battery takes it in its first k slots, pass 1 pays the full floor in each of them until the need is met, and the later passes leave the vehicle at least that. |
| `Promise.FloorAtLeast` | apps/api/src/control/model.js:328-389 | Even when floors oversubscribe the caps: a vehicle to which earlier sessions leave g (more than a cut-off) in each of its first k slots ends with its need met or k times g paid off. |
| `Promise.LeftIsPaid` | apps/api/src/control/model.js:318-389 | The same for every g, where a g at or below the cut-off counts as nothing. |
| `Promise.NeedAccounts` | apps/api/src/control/model.js:318-389 | In the finished plan what a vehicle still needs is its initial need less what its row delivers. |
| `Promise.NameplateDeliverable` | apps/api/src/control/model.js:286-291 | With nameplate acceptance every slot of the window takes the whole floor. |
| `Certifier.RunIntervals` | apps/api/src/control/model.js:147-158 | The worst-case loop, with its early exit, returns the guaranteed energy and the last rate of the simulated intervals. |
| `Certifier.CertifyVehicle` | apps/api/src/control/model.js:136-174 | The whole certificate, in the three decimals it is stored with. |
| `Certifier.SimulatedIs` | apps/api/src/control/model.js:147-158 | The simulation stops at the first interval that covers the target, or after the last one. |
| `Certifier.RateNonIncreasing` | apps/api/src/control/model.js:147-163 | The guaranteed rate never rises, so the last simulated rate bounds all earlier ones from below. |
| `Certifier.SocMonotone` | apps/api/src/control/model.js:147-158 | The simulated state of charge never falls. |
| `Certifier.AdmittedIff` | apps/api/src/control/model.js:147-164 | A vehicle is admitted if and only if the guarantee over all its intervals covers need plus margin (the early exit never changes the verdict). |
| `Certifier.FlatGuarantee` | apps/api/src/control/model.js:147-158 | Without battery state the guarantee is k intervals at one flat rate. |
| `Certifier.GrantFits` | apps/api/src/control/model.js:140-166 | A granted (rounded) floor is whole watts and fits into what whole-watt floors leave of a cap that does not round up. |
| `Certifier.GrantNonneg` | apps/api/src/control/model.js:140-166 | Under any cap a granted floor is whole watts and not negative. |
| `Certifier.JudgedMeans` | apps/api/src/control/model.js:147-168 | Behind every verdict are k simulated intervals, and its floor is the last of their rates in three decimals. |
| `Certifier.IntervalsAre` | apps/api/src/control/model.js:139-141 | The certificate counts the quarter-hours that fit before the deadline, at least one, and 24 without a deadline. |
| `Certifier.CertificateIs` | apps/api/src/control/model.js:136-174 | A certificate, from the vehicle's own record: it follows the vehicle quarter-hour by quarter-hour at the lesser of what it takes and what the others leave, up to the first that covers need and margin; it is admitted exactly when the energy does, and the last rate is its floor, in three decimals. |
| `TaperFloor.FlatBehindCertificate` | apps/api/src/control/model.js:147-163 | Charging flat at no more than the last simulated rate never gets ahead of the certificate's simulated state of charge. |
| `TaperFloor.CertifiedStillTakes` | apps/api/src/control/model.js:147-163 | So after k - 1 slots of such a floor the battery still takes another one. |
| `TaperFloor.TakesAll` | apps/api/src/control/model.js:270-291 | If the battery takes the floor after k - 1 slots of it, every one of the first k slots takes it, for any row within the floor. |
| `TaperFloor.TurnAccepted` | apps/api/src/control/model.js:318-337 | The acceptance-aware pass 1 never plans more into a slot than the battery takes there. |
| `TaperFloor.FlatExact` | apps/api/src/control/model.js:270-281 | Full floors that were all taken bring the replayed state of charge exactly to that of flat charging. |
| `TaperFloor.FloorHonouredUnderTaper` | apps/api/src/control/model.js:328-337 | For any floor that earlier sessions leave, certified or not: if the battery still takes it after k - 1 slots of it, the acceptance-aware pass 1 pays it in full in each of the first k slots until the need is met, and the finished plan leaves the vehicle at least that. |
| `TaperFloor.FlatFloorIff` | apps/api/src/control/model.js:328-337 | Exact condition: with enough need, the first k slots all carry the full floor that earlier sessions leave if and only if the battery still takes the floor after k - 1 slots of it. |
| `TaperFloor.TaperLeavesIff` | apps/api/src/control/model.js:261-291 | In the vehicle's own record that condition reads: the nameplate, tapered at the state of charge that k - 1 quarter-hours of the floor lead to, covers the floor. |
| `TaperFloor.IssuedFloorTakes` | apps/api/src/control/model.js:147-168 | Every floor of at most the last simulated rate meets it. |
| `Controller.ControlStore.LatestCertFor` | apps/api/src/control/controller.js:107-114 | The latest certificate is the one of the session with the highest id. |
| `Controller.ControlStore.OthersFloor` | apps/api/src/control/controller.js:134-136 | The other vehicles' floors, summed by the loop. |
| `Controller.ControlStore.CertifyTurn` | apps/api/src/control/controller.js:128-183 | One vehicle's turn in place refines the turn function: reuse, repeated refusal, or a new row and, if admitted, the floor written back; which of these happens is `Reuse.CertifySiteIs`. |
| `Controller.ControlStore.CertifyVehicles` | apps/api/src/control/controller.js:125-186 | The whole in-place run refines the certification function that `Reuse.CertifySiteIs` describes. |
| `Controller.CertifierPrudent` | apps/api/src/control/controller.js:137-144 | The certifier only grants floors that fit into what is left of the cap. |
| `Controller.CertifyKeepsCap` | apps/api/src/control/controller.js:125-186 | At every point of a run the floors sum to at most the usable cap, and nothing but floors changes on the vehicles. |
| `Controller.CapKeptIff` | apps/api/src/control/controller.js:125-186 | Exact condition: certification can never oversubscribe a cap if and only if three decimals of a kW do not round the cap up; one vehicle breaks every other cap. |
| `Controller.ReserveHeldBack` | apps/api/src/control/controller.js:251-254 | The usable cap and the reserved share of the site's cap add up to the cap. |
| `Controller.RequestIs` | apps/api/src/control/controller.js:249-290 | What the cycle asks the allocator for: the vehicles as certification leaves them, under the reserved cap, each of their charge points up to the whole unreserved one, on the settings' grid and prices. |
| `Reuse.CertifySiteIs` | apps/api/src/control/controller.js:125-186 | What a run does for one session, from the log it starts with: a latest certificate that is ACTIVE or ERODED leaves its rows and its floor alone and is reported once, reused, with that status; any other session is judged once, on its own record and the floors the others hold then (new for lower ids, old for higher ones), and gains exactly one row, ACTIVE with the verdict's floor if and only if it is admitted, or none if and only if it had FAILED and is refused again. |
| `Reuse.TurnsPass` | apps/api/src/control/controller.js:128-183 | A session's rows, report line and vehicle are touched by no turn but its own. |
| `PlanCycle.AdmittedAtTurn` | apps/api/src/control/controller.js:125-186 | A vehicle reported as newly admitted was admitted by its own turn, and its floor at the end of the run is the one that turn granted. |
| `PlanCycle.FlatFloor` | apps/api/src/control/model.js:147-168 | Without battery state a verdict's floor is the flat rate (nameplate or residual) in three decimals, and k quarter-hours of the rate cover need and margin if it admits. |
| `PlanCycle.OthersLeave` | apps/api/src/control/controller.js:125-186 | In the finished request, the floors of earlier sessions leave a vehicle whatever of the cap the others had not been promised on its turn. |
| `PlanCycle.FloorsFitRequest` | apps/api/src/control/controller.js:256-259 | Floors under the reserved cap fit into every slot of the request the cycle builds. |
| `PlanCycle.CycleFloorsFit` | apps/api/src/control/controller.js:225-290 | Under a cap that three decimals do not round up the cycle's own floors do. |
| `PlanCycle.CycleRequest` | apps/api/src/control/controller.js:249-290 | Whatever the cap is, certification hands the allocator a well-formed request with no negative floor and no charge point tighter than the site. |
| `PlanCycle.SlotsForAre` | apps/api/src/control/model.js:243-245 | The slots the promises count are those of the horizon that begin before the deadline. |
| `EndToEnd.HasTurn` | apps/api/src/control/controller.js:125-139 | Every vehicle has a turn in the certification run, on which the others hold some promise. |
| `EndToEnd.VerdictInPlan` | apps/api/src/control/controller.js:125-186 | A newly admitted vehicle enters the plan with the floor of its own verdict, given what the others held on its turn. |
| `EndToEnd.TurnLeaves` | apps/api/src/control/controller.js:125-259 | And the plan's earlier sessions leave it, in every slot, whatever of the cap they did not hold then, even when floors oversubscribe the cap. |
| `EndToEnd.PromiseKept` | apps/api/src/control/controller.js:225-290 | End to end, under any cap: a vehicle without battery state that the cycle newly admits is served in full (to within the cut-off) inside its window by the finished plan, whichever allocator runs and whatever the prices and earlier promises are, as soon as the power secured for it covers its need in its slots. |
| `EndToEnd.EveryAdmission` | apps/api/src/control/controller.js:225-290 | So every new admission without battery state comes with what the others held on its turn, and is served once the power secured beside it covers its need. |
| `EndToEnd.MarginSecures` | apps/api/src/control/model.js:136-174 | An admission secures the need whenever its margin absorbs the rounding of the floor, or the site is uncapped, or nameplate, cap and promises are whole watts. |
| `EndToEnd.PromiseByMargin` | apps/api/src/control/controller.js:225-290 | So with such a margin every new admission without battery state is served in full. |
| `EndToEnd.WholeFloorLeft` | apps/api/src/control/controller.js:125-186 | On top of whole-watt promises under a cap that three decimals do not round up, the others always leave an issued floor. |
| `EndToEnd.TaperPromiseKept` | apps/api/src/control/controller.js:225-290 | End to end for a known battery, if the others leave it the floor it is issued: the cycle's own certificate gives k and the floor; within those k slots the first j carry the full floor, need permitting, if and only if the battery still takes it after j - 1 floors (the tapered nameplate covers it); the finished plan gives the vehicle at least k floors or its need when that holds for k, and it does unless three decimals rounded the last simulated rate up. |
| `EndToEnd.RoundedUpFloorFails` | apps/api/src/control/model.js:163-168 | A full battery on 7.437 kW is certified at 1.116 kW for a rate of 1.11555 kW, and its first slot already falls short of the floor. |
| `Shortfall.CrowdedOut` | apps/api/src/control/model.js:328-346 | Beside an earlier session with the same window that never has enough, a vehicle gets at most what that session's floor leaves of its own. |
| `Shortfall.LeftShort` | apps/api/src/control/controller.js:225-290 | If the secured power does not cover the need, there is a site on which the cycle admits the vehicle on these terms and leaves it short. |
| `Shortfall.PromiseKeptIff` | apps/api/src/control/controller.js:225-290 | Exact condition for a capped site: an admission is served in full on every site that makes it on these terms if and only if the secured power (the rounded floor, at most the nameplate and the residual) times the slots before the deadline covers the need. |
| `Shortfall.ZeroMarginFails` | apps/api/src/control/model.js:140-168 | With a margin of zero a vehicle on 1.1114 kW is promised 1.111 kW and left short, although nothing else was promised on the site. |
| `TaperServed.FloorsFollow` | apps/api/src/control/model.js:270-337 | A vehicle of known battery whose floor earlier sessions leave comes out of the acceptance-aware pass 1 exactly where the course of its floor ends: slot by slot what the battery takes of the floor. |
| `TaperServed.KnownServed` | apps/api/src/control/controller.js:225-290 | End to end for a known battery: a new admission whose floor the others leave is served in full inside its window, whatever the prices and earlier promises are, as soon as that course covers its need. |
| `TaperServed.KnownLeftShort` | apps/api/src/control/controller.js:225-290 | If the course does not cover the need, there is a site on which the cycle admits the vehicle on these terms and leaves it short. |
| `TaperServed.KnownServedIff` | apps/api/src/control/controller.js:225-290 | Exact condition for a capped site: such an admission is served in full on every site that makes it on these terms if and only if the course of the granted floor covers the need before the deadline. |
| `Offline.Contention` | apps/simulator/src/offline.js:37-43 | The loop sums exactly the positive floors of other guests whose windows overlap. |
| `Offline.GrantFloors` | apps/simulator/src/offline.js:33-57 | The admission loop refines the admission function. |
| `Offline.GrantIs` | apps/simulator/src/offline.js:33-57 | Every guest is judged once, on its own record and on what the guests of lower id whose windows meet its own were granted, and gets that verdict's floor or nothing. |
| `Offline.OverlapShares` | apps/simulator/src/offline.js:37-43 | Two windows count as overlapping exactly when they share a slot. |
| `Offline.AdmitOne` | apps/simulator/src/offline.js:37-53 | One admission keeps every slot within the cap, because whoever covers a slot together with the new guest overlaps it. |
| `Offline.PromisesFitEverySlot` | apps/simulator/src/offline.js:33-57 | At every slot the floors of the guests plugged in sum to at most a usable cap that three decimals do not round up. |
| `Offline.PromisesFitIff` | apps/simulator/src/offline.js:33-57 | Exact condition: they do in every scenario if and only if three decimals do not round the usable cap up; one guest oversubscribes every other cap. |
| `OfflinePlan.AdmittedServed` | apps/simulator/src/offline.js:30-70 | Under any cap the power-based schedule keeps every constraint and gives every guest its need, or the floor it was granted less at most half a watt in every slot of its window, whichever is less; the whole granted floor if three decimals round neither its nameplate nor the cap up. |
| `OfflineExact.AdmittedServedIff` | apps/simulator/src/offline.js:30-82 | Exact condition on cap and nameplate: a guest on this nameplate is given its need or its whole granted floor in every scenario under this cap, whoever else is there, if and only if three decimals round up neither the cap (unless the nameplate is below half a watt) nor the nameplate (unless the cap is smaller). |
| `OfflineExact.LoneGuestShort` | apps/simulator/src/offline.js:30-82 | A guest alone on the site whose power three decimals round up is left short of its floor. |
| `OfflineExact.PairShort` | apps/simulator/src/offline.js:30-82 | Beside a guest that is promised whole watts, so is a guest whose nameplate does not round up but whose part of the cap does. |
| `OfflineExact.RoundedPlateFails` | apps/simulator/src/offline.js:30-82 | Under a cap of 10 kW a guest on 7.4375 kW is promised 7.438 kW and given at most 1.859375 kWh in its quarter-hour. |
| `Baselines.FillCheapest` | apps/simulator/src/baselines.js:86-96 | A vehicle's loop with its early exit refines the greedy fill. |
| `Baselines.CostLowerBound` | apps/simulator/src/baselines.js:82-101 | The bound schedule holds every vehicle's greedy row. |
| `Baselines.BillIs` | apps/simulator/src/baselines.js:97-101 | A row is billed slot by slot, its energy at that slot's price. |
| `Baselines.GreedyServes` | apps/simulator/src/baselines.js:86-96 | A greedy row serves the whole need up to the cut-off, or runs at nameplate in every slot of the window; never outside it. |
| `Baselines.GreedyOptimal` | apps/simulator/src/baselines.js:86-96 | For arbitrary prices no row with the same energy, window and nameplate costs less than the greedy row. |
| `Baselines.BoundIsLower` | apps/simulator/src/baselines.js:70-101 | The whole bound costs no more than any schedule serving the same per-vehicle energy in the same windows, with or without a site cap. |
| `Baselines.EdfSlot` | apps/simulator/src/baselines.js:60-67 | One slot of the price-blind baseline gives what the controller's pass 2 gives. |
| `Baselines.PriceGreedyEdf` | apps/simulator/src/baselines.js:54-69 | The price-blind baseline is exactly the controller's plan before its price pass. |
| `Baselines.SavingIsPricing` | apps/simulator/src/baselines.js:50-53 | So the controller serves every vehicle the same energy as this baseline and is the same plan or strictly cheaper. |
| `Twin.AbsorbedByVehicle` | apps/api/src/control/model.js:475-488 | The loop adds up what a battery absorbs from a row; with no battery state every ask counts. |
| `Twin.AbsorbedIs` | apps/api/src/control/model.js:475-488 | What a vehicle absorbs is, slot by slot, the most that ask and acceptance allow while the battery fills by it; every ask as it is when no battery state is known. |
| `Twin.ApplyActuatorReality` | apps/simulator/src/twin.js:194-220 | Slot by slot, what a compliant or non-compliant charger delivers, published in four decimals. |
| `Twin.FlowIs` | apps/simulator/src/twin.js:196-216 | An obedient charger delivers the most that ask, acceptance and headroom allow; a disobedient one ignores the ask while it is plugged in and delivers nothing otherwise. |
| `Twin.DeliveredIs` | apps/simulator/src/twin.js:194-216 | So an obedient charger delivers in each slot the most of its row's entry that acceptance and headroom allow, and nothing past the row's end. |
| `Twin.PublishedDelivery` | apps/simulator/src/twin.js:194-220 | What is published over t slots is within t times 0.00005 kWh of what was delivered, and the battery follows the unrounded energy. |
| `Twin.HeadroomTracksEnergy` | apps/simulator/src/twin.js:201-216 | Whatever the charger does, delivered energy is what came off the battery's headroom, so no battery is overfilled. |
| `Twin.ActualMatchesPlanner` | apps/simulator/src/twin.js:201-216 | A compliant charger whose row fits into the battery delivers exactly what the planner says is absorbed. |
| `Honesty.PlanIsHonest` | apps/api/src/control/model.js:339-346 | Without floors, what the acceptance-aware plan gives a vehicle after pass 2 is what it absorbs. |
| `Honesty.PlanIsDelivered` | apps/simulator/src/twin.js:194-220 | And a compliant charger starting from the assumed state of charge delivers exactly the planned energy whenever it fits into the battery. |
| `Shifting.LessTakesMore` | apps/api/src/control/model.js:270-291 | The less energy came before a slot, the more of it the battery takes there. |
| `Shifting.FillSettled` | apps/api/src/control/model.js:339-346 | Without floors, pass 2 leaves no earlier slot of a window that could still be given anything: nothing fits, or nothing more is needed. |
| `Shifting.MoveSettled` | apps/api/src/control/model.js:363-388 | While no slot before a cheaper one is as dear as a later source, every price move goes to a later slot and leaves every row within what the batteries take. |
| `Shifting.PricesKeepAbsorbable` | apps/api/src/control/model.js:348-389 | So at prices without a valley no slot of the finished acceptance-aware plan without floors asks for more than the battery then takes, for all fleets, needs, windows and caps. |
| `Shifting.FinishedPlanIsHonest` | apps/api/src/control/model.js:475-488 | And with an exact replay every vehicle of known battery absorbs its whole row. |
| `Valley.ValleyOverfills` | apps/api/src/control/model.js:363-388 | At every four prices that dip (dearest first, then the two cheapest, the second cheaper, then one in between) there is a vehicle whose plan is absorbable after pass 2 and asks one slot for more than the battery takes after pass 3. |
| `Profiles.Collect` | apps/api/src/control/controller.js:391-399 | The accumulation loop yields one line per charge point in first-seen order; rows of unknown sessions are skipped. |
| `Profiles.LinesAre` | apps/api/src/control/controller.js:391-399 | Each charge point has exactly one line, and it carries exactly the rows of that charge point. |
| `Profiles.LinesConserve` | apps/api/src/control/controller.js:391-399 | No energy is lost or invented on the way to the charge points. |
| `Profiles.CompileLine` | apps/api/src/control/controller.js:401-421 | One charge point's profile: periods every interval, limits in watts, clamped to the cap, with the clamp reported. |
| `Profiles.CompileToProfiles` | apps/api/src/control/controller.js:384-432 | The compiler returns one such profile per line. |
| `Profiles.ClampedIs` | apps/api/src/control/controller.js:404-414 | A profile is reported as clamped exactly when some slot was planned above the cap. |
| `Profiles.LimitBound` | apps/api/src/control/controller.js:404-410 | A commanded limit is within half a watt of the planned power, or of the cap where that is lower. |
| `Profiles.PublishedSlot` | apps/api/src/control/model.js:431 | Publishing a plan in four decimals adds at most 0.00005 kWh per vehicle and slot. |
| `Profiles.CommandedBound` | apps/api/src/control/controller.js:384-432 | In every period the limits of all charge points sum to at most 1000 times the usable cap, plus half a watt per charge point and 0.05/dtH watts per vehicle. |
| `Profiles.EnvelopeCheck` | apps/api/src/control/controller.js:439-457 | The cap check accepts exactly the profiles with no limit above the cap (plus its tolerance); an uncapped site accepts all. |
| `Profiles.EnvelopeIff` | apps/api/src/control/controller.js:439-457 | Exact condition: every compiled profile passes the check if and only if the cap's watts round within the tolerance. |
| `Profiles.WholeCapRounds` | apps/api/src/control/controller.js:439-457 | Every cap in whole watts meets that condition. |
| `Reals.ToFixedIs` | apps/api/src/control/model.js:163-170 | Rounding to two, three or four decimals gives the nearest such number, ties away from zero. |
| `InForce.PushLog.RecordProfilePush` | apps/api/src/db/store.js:1763-1790 | A push is recorded at most once per charge point and decision; a retry changes nothing and returns the existing row. |
| `InForce.RecordIdempotent` | apps/api/src/db/store.js:1763-1790 | The log keeps one row per charge point and decision, and retrying is idempotent. |
| `InForce.PushLog.SetPushAck` | apps/api/src/db/store.js:1791-1795 | Only the addressed row's answer changes. |
| `InForce.PushLog.MarkPushSent` | apps/api/src/db/store.js:1799-1803 | Only the addressed row is marked sent. |
| `InForce.PushLog.ActiveProfileFor` | apps/api/src/db/store.js:1807-1816 | The profile in force is the newest row that was sent and not answered otherwise than Accepted. |
| `InForce.PushLog.ScheduledKwAt` | apps/api/src/db/store.js:1821-1839 | The scheduled power at an instant, with the fallbacks for a missing or unreadable instant, start, profile and period, and its sort and filter. |
| `InForce.CurrentIs` | apps/api/src/db/store.js:1832-1837 | The period in force has begun and starts no earlier than any other that has; there is none only before all of them. |
| `InForce.ScheduledIs` | apps/api/src/db/store.js:1821-1839 | From the rows alone: the power at an instant is the limit of the latest begun period (the last listed among equals) of the newest row that was sent and is unanswered or accepted, counted from where its profile says it starts; nothing if that row does not parse, is in amperes or has not begun. |
| `InForce.ActiveIs` | apps/api/src/db/store.js:1807-1816 | The followed row is the last in the log that was sent to this charge point and is unanswered or accepted. |
| `InForce.RecordedIs` | apps/api/src/db/store.js:1763-1790 | A push is written down once per charge point and decision, unsent and unanswered. |
| `InForce.AckKept` | apps/api/src/db/store.js:1791-1795 | Answers are kept to twenty characters, an empty one as unknown. |
| `InForce.CompileReadsBack` | apps/api/src/db/store.js:1821-1839 | Round trip: at every instant the scheduled power read back from a compiled profile in force is exactly the compiled limit of the slot the instant falls into (the last slot past the horizon). |
| `InForce.InsideSlot` | apps/api/src/control/controller.js:404-416 | An instant inside slot i of the horizon falls into slot i. |
| `Outbox.Queue.Emit` | apps/api/src/db/store.js:285-298 | An event whose key is queued is not queued again; otherwise it is appended, followed by retention when due. |
| `Outbox.Queue.ShedSet` | apps/api/src/db/store.js:319-321 | The filter, sort and slice select exactly the oldest acked events, as many as overflow the hard cap. |
| `Outbox.Queue.PruneOutbox` | apps/api/src/db/store.js:313-339 | The in-place compaction leaves exactly the events that do not drop, keeps the key index equal to the queue's keys, and returns exactly what left. |
| `Outbox.Queue.PruneIfDue` | apps/api/src/db/store.js:302-306 | Nothing happens before the next due time unless the hard cap is exceeded. |
| `Outbox.Queue.Ack` | apps/api/src/routes.js:1245-1269 | The acknowledgement marks exactly the pending events named by id or key, then prunes when due. |
| `Outbox.Queue.Quarantine` | apps/api/src/db/store.js:367-392 | Quarantine marks exactly the pending events named by id or key and reports them. |
| `Outbox.PrunedIs` | apps/api/src/db/store.js:313-339 | Pruning keeps order and contents, removes exactly the events that drop, and never a pending one. |
| `Outbox.RemovedIs` | apps/api/src/db/store.js:326-338 | What is reported as removed is exactly what left. |
| `Outbox.PrunedFits` | apps/api/src/db/store.js:316-321 | After a pruning the queue is within the hard cap or holds nothing but pending events. |
| `Outbox.StaysIff` | apps/api/src/db/store.js:313-339 | From the events' own fields: an event stays exactly when it is unprocessed, or young enough while the queue is within its hard cap or as many processed events as the queue is over it come before it. |
| `Outbox.ReportedIff` | apps/api/src/db/store.js:326-338 | An event is reported exactly when it no longer stays. |
| `Outbox.MarkedIs` | apps/api/src/routes.js:1245-1263 | Marking processes every unprocessed event named by id or key at that instant and changes nothing else. |
| `Relay.ToRows` | apps/worker/src/relay-timescale.js:86-183 | From kind and payload alone: a tick with session and instant has exactly one row in the tick list, under its session, number and whole second, if its register is finite, and is refused without a row if not; enforcement ticks, connector states and session events likewise in theirs; every other event is in no list; all in queue order. |
| `Relay.SplitHolds` | apps/worker/src/relay-timescale.js:86-183 | The same for every batch, and no event belongs to two lists. |
| `Relay.SplitIs` | apps/worker/src/relay-timescale.js:86-183 | In terms of routes: the lists hold a row of exactly the table an event's route names, and the refused list exactly the refused events. |
| `Relay.InsertedAllIs` | apps/worker/src/relay-timescale.js:189-204 | Inserting with conflicts ignored leaves every primary key of the batch in the sink, at most once, and removes or changes nothing that was there. |
| `Relay.Sink.WriteOneByOne` | apps/worker/src/relay-timescale.js:249-287 | Row-by-row isolation: if it returns, every row is in the sink or set aside, and exactly the rows that did not commit are set aside; it throws exactly on a transport error or when no row of the batch commits. |
| `Relay.Sink.WriteSpecs` | apps/worker/src/relay-timescale.js:227-247 | Batch first: a committed batch sets nothing aside, transport and schema errors are handed back, a data-shaped failure is isolated row by row. |
| `Relay.Mirror.LoadSeen` | apps/worker/src/index.js:17-32 | The cached set is the set of keys in the mirror file. |
| `Relay.Mirror.Append` | apps/worker/src/index.js:90-116 | The local mirror appends exactly the new keys; a replayed batch adds nothing and no key is written twice. |
| `Delivery.PollKeeps` | apps/api/src/routes.js:1202-1221 | Polling hands a worker pending events with distinct keys and keeps the invariant. |
| `Delivery.PollsOldest` | apps/api/src/routes.js:1202-1221 | A poll hands out the oldest unprocessed events, in queue order, up to the limit. |
| `Delivery.HandledKeeps` | apps/api/src/routes.js:1245-1291 | A sound acknowledgement or quarantine, however late and however often it arrives, keeps the invariant and leaves none of its events pending. |
| `Delivery.GoodSettled` | apps/worker/src/relay-timescale.js:358-392 | Every polled event that was not set aside has itself a row under its primary key in the sink, or is itself one no table takes. |
| `Delivery.StepKeeps` | apps/worker/src/relay-timescale.js:330-402 | Every step of the protocol, including crashes with or without the write having landed, keeps the invariant. |
| `Delivery.EffectivelyOnce` | apps/worker/src/relay-timescale.js:330-402 | In every state of every run: a processed event was quarantined, or an event with its key has a row or is one no table takes; the sink has at most one row per primary key and only rows of emitted events, each under its event's primary key; no event is lost; a cycle that returned normally leaves none of its events pending. |
| `Delivery.LandedHasKey` | apps/worker/src/relay-timescale.js:189-204 | While no primary key belongs to events with different dedupe keys, the row a landed event has in the sink carries the event's own key. |
| `Routing.OnlyFiniteStored` | apps/worker/src/relay-timescale.js:86-204 | In no state of any run does the sink hold a row of a reading that is not a finite number; every row carries, field by field, the event it names. |
| `Routing.ProcessedRecorded` | apps/worker/src/relay-timescale.js:86-402 | When keys name destinations, in every state of every run each processed event that was not quarantined and belongs to a table is recorded there with its own fields, and each processed reading that is not finite was quarantined. |
| `Routing.OutageIsNotPoison` | apps/worker/src/relay-timescale.js:249-287 | In every run a worker sends events to quarantine only if they are readings that are not finite, or some row of its batch is in the sink: a sink that refuses everything does not empty the queue. |
| `Rekeying.OneRowPerKeyIff` | apps/worker/src/relay-timescale.js:86-204 | Exact condition: the sink keeps at most one row per dedupe key in every run if and only if no key is emitted for two different primary keys. |
| `Rekeying.OwnRowsIff` | apps/worker/src/relay-timescale.js:330-402 | Exact condition: every processed event has a row under its primary key that carries its own dedupe key, was quarantined or is one no table takes, in every run, if and only if no key is emitted for two different destinations and no row belongs to two keys. |
| `Rekeying.StoreKeysNameRows` | apps/api/src/db/store.js:1118 | With ticks keyed by session and number and enforcement ticks by charge point, time and power, whatever the text form, no row belongs to two keys. |
| `Rekeying.StoreRowsIff` | apps/api/src/db/store.js:1870 | So for the store's own keys every processed event has its own row in every run if and only if no key is emitted for two different destinations. |
| `Rekeying.RowOfAnother` | apps/worker/src/relay-timescale.js:189-204 | The run in which an event whose row is already there under another key is acknowledged without a row of its own. |
| `Rekeying.ReleaseComesBack` | apps/api/src/db/store.js:779-803 | The release of a connector's hold is such a key: it names the connector only, and two releases that fall into different seconds can both be stored once retention has dropped the first. |
| `Rekeying.StoredTwice` | apps/worker/src/relay-timescale.js:330-402 | The run that does it: emit, write, acknowledge, prune, emit again, write. |
| `Rekeying.SettledUnwritten` | apps/worker/src/relay-timescale.js:330-402 | And the run in which an event is settled by the earlier event of its key, although nothing of its own was written. |
| `Locks.Mutex.Enter` | apps/api/src/db/store.js:47-54 | Joining a key chains the caller behind everybody already there. |
| `Locks.Mutex.Release` | apps/api/src/db/store.js:58-61 | Releasing forgets the key unless somebody joined after the caller. |
| `Locks.MutualExclusion` | apps/api/src/db/store.js:43-64 | At most one task per key runs. |
| `Locks.ArrivalOrder` | apps/api/src/db/store.js:43-64 | Turns are taken in arrival order. |
| `Locks.ForgetsIdle` | apps/api/src/db/store.js:48-61 | A key is in the map if and only if it has an unfinished task. |
| `Locks.NoDeadlock` | apps/api/src/db/store.js:43-64 | The first unfinished task of a key runs or may run. |
| `Locks.LockRunKeeps` | apps/api/src/db/store.js:43-64 | The invariant behind these holds in every state of every run. |
| `Settlement.BeginPaying` | apps/api/src/db/store.js:720-729 | A pending intent whose lock is held has not been credited. |
| `Settlement.StepKeeps` | apps/api/src/db/store.js:720-765 | Every step, with top-ups that suspend or fail and prunes by anyone in between, keeps the invariant. |
| `Settlement.CreditedOnce` | apps/api/src/db/store.js:720-765 | In every run every intent is credited at most once, to its own user and amount, and while its lock is free it is settled exactly when it was credited; what entitles to the credit is `Entitlement.EveryCreditEntitled`. |
| `Settlement.SecondSettleRefused` | apps/api/src/db/store.js:725-726 | A second settle of a settled intent ends without a credit. |
| `Entitlement.CheckIs` | apps/api/src/db/store.js:720-729 | A check lets a call through exactly when the signature is good and the intent is known, the caller's own, pending and not past its expiry; any other check ends the call; it expires exactly the pending intents past their time. |
| `Entitlement.EveryCreditEntitled` | apps/api/src/db/store.js:720-735 | In every run each credit follows an earlier check, with a good signature, of a call by the intent's own user, no later than the intent's expiry and while it was pending; and it is of that intent's amount. |
| `Entitlement.RefusedNeverPays` | apps/api/src/db/store.js:720-729 | A check without a good signature, or late, foreign or of an unknown or closed intent, ends its call for good: no credit ever follows from it. |
| `Entitlement.EveryIntentCreated` | apps/api/src/db/store.js:677-710 | Every intent of every run keeps the user, amount and expiry it was created with. |
| `Entitlement.EveryCallMade` | apps/api/src/db/store.js:720-721 | Every settle call of every run is for the intent and of the user it was made with. |
| `Connectors.Store.CreateReservation` | apps/api/src/db/store.js:806-878 | Window, connector, status and overlap checks in order; success books the window and reserves the connector. |
| `Connectors.Store.SyncConnectorHold` | apps/api/src/db/store.js:772-803 | The hold is derived from the booked windows, on available or reserved connectors only. |
| `Connectors.Store.BeginCancel` | apps/api/src/db/store.js:879-899 | First half of a cancellation, with its four refusals. |
| `Connectors.Store.FinishRelease` | apps/api/src/db/store.js:900-901 | A waiting release derives the hold once it has the connector lock. |
| `Connectors.Store.ExpireOne` | apps/api/src/db/store.js:905-920 | The sweep expires a stale booked window and derives the hold under the connector lock. |
| `Connectors.Store.StartSession` | apps/api/src/db/store.js:926-1014 | Who may start on a reserved connector, which window is converted, and the new session. |
| `Connectors.Store.BeginTransition` | apps/api/src/db/store.js:1020-1046 | First half of a session transition: the table of legal moves, the connector status, the waiting release. |
| `Connectors.Store.Tick` | apps/api/src/db/store.js:1117 | The first numbered tick starts a prepared session. |
| `Connectors.CreateSafe` | apps/api/src/db/store.js:806-878 | Booking keeps windows disjoint and holds consistent. |
| `Connectors.StartSafe` | apps/api/src/db/store.js:926-1014 | Starting keeps at most one active session per connector and converts a window at most once. |
| `Connectors.TransitionSafe` | apps/api/src/db/store.js:1020-1046 | Every legal transition keeps the connector occupied exactly while a session is active on it. |
| `Connectors.StepSafe` | apps/api/src/db/store.js:772-1052 | Every step of every method keeps the safety invariant. |
| `Connectors.RunSafe` | apps/api/src/db/store.js:772-1052 | Under every interleaving: live windows of a connector never overlap; a connector is occupied exactly while one session is active on it; with no release waiting, an available or reserved connector is reserved exactly when a window on it is booked; no window serves two sessions. |
| `Connectors.StartOwnsWindow` | apps/api/src/db/store.js:938-965 | With no release waiting, a session starts on a booked connector only by converting a window of its own driver. |
| `Bookings.CreateIs` | apps/api/src/db/store.js:806-878 | A booking of 15 to 120 minutes, begun at most a minute ago, on an open connector with no live window in its way is always granted, any other refused with the first reason that applies; what it adds. |
| `Bookings.StartAnswers` | apps/api/src/db/store.js:926-965 | Who may start: with a booked window of its own that it names, without one on an available connector, on a reserved one if it owns any. |
| `Bookings.StartDoes` | apps/api/src/db/store.js:966-1014 | A start occupies the connector with a new session and converts exactly one window: the one named, or on a reserved connector the driver's first booked one. |
| `Bookings.TransitionIs` | packages/shared/src/index.js:50-58 | The legal moves, what the connector shows after each, and the release an ending leaves waiting. |
| `Bookings.CancelIs` | apps/api/src/db/store.js:879-901 | Who may cancel what, and the one more release it leaves waiting. |
| `Bookings.ReleaseIs` | apps/api/src/db/store.js:772-803 | A release sets an open connector to reserved exactly while a window on it is booked, and changes nothing else. |
| `Bookings.SweepIs` | apps/api/src/db/store.js:905-920 | The sweep expires exactly a booked window whose start lies before the cutoff. |
| `Bookings.RunFollows` | apps/api/src/db/store.js:806-1046 | Throughout a run a window keeps its hours, driver and connector and changes its status at most once, and an ended session stays as it ended. |
| `Bookings.EveryWindowBooked` | apps/api/src/db/store.js:806-878 | Every window of every run is 15 to 120 minutes long and was booked by a step of its own when no live window was in its way. |
| `Billing.Accounts.Topup` | apps/api/src/db/store.js:546-567 | Accepted exactly above nothing and up to 10000; the rounded balance and the ledger entry with the user's next number. |
| `Billing.Accounts.BillSession` | apps/api/src/db/store.js:1204-1265 | Accepted exactly for a completed, unbilled session with a price; the invoice, its lines and the billed mark, as `Billing.BillIs` reads them. |
| `Billing.Accounts.PayInvoice` | apps/api/src/db/store.js:1266-1324 | Accepted exactly for a due invoice the balance covers; moves the money and marks the invoice paid, or records a failed payment and leaves the invoice due. |
| `Billing.RunKeeps` | apps/api/src/db/store.js:1204-1324 | In every run: numbers 1 to n per user, balances never negative, at most one invoice per session, and an invoice is paid exactly when it has one successful payment, which is one ledger debit of its total. |
| `Billing.TopupConserves` | apps/api/src/db/store.js:546-567 | A top-up keeps balance and ledger in agreement if and only if its amount is a whole number of paise. |
| `Billing.ConservedIff` | apps/api/src/db/store.js:546-567 | Exact condition: every balance is the sum of its ledger, and every recorded balance its prefix sum, throughout a run if and only if every top-up was a whole number of paise. |
| `Billing.BillTotals` | apps/api/src/db/store.js:1224-1252 | An invoice equals the sum of its lines if and only if the session fee is a whole number of paise. |
| `Billing.TotalsIff` | apps/api/src/db/store.js:1224-1252 | Exact condition over runs for all invoices to equal their lines. |
| `Billing.InvoiceFair` | apps/api/src/db/store.js:1222-1228 | An invoice is within one paisa of the energy between the two registers (nothing if the end is not above the start) times the price, plus the fee. |
| `Billing.RegistersShift` | apps/api/src/db/store.js:1222-1228 | Only the difference of the registers counts: shifting both leaves the invoice unchanged. |
| `Billing.EveryInvoiceFair` | apps/api/src/db/store.js:1204-1265 | In every run every invoice was issued by one earlier billing of its session, and is within a paisa of the energy between that session's registers at the price it was billed with, plus the fee. |
| `Billing.BillIs` | apps/api/src/db/store.js:1222-1258 | Billing issues one due invoice, a line for the energy to half a paisa and one for a positive fee, and marks the session. |
| `Billing.RefusalsAre` | apps/api/src/db/store.js:1204-1300 | A billing and a payment are refused with the first reason that applies, and go through exactly when none does. |
| `Billing.PayIs` | apps/api/src/db/store.js:1266-1324 | A payment that goes through moves exactly the total out of one wallet, as one ledger entry; one that does not is recorded as failed and moves nothing. |
| `Billing.TopupIs` | apps/api/src/db/store.js:546-567 | A top-up adds its amount, to half a paisa, to one wallet, and one entry of the amount as given. |
| `Billing.NumbersRun` | apps/api/src/db/store.js:546-567 | A user's ledger entries are numbered 1, 2, 3, ... in the order they were written. |
| `Billing.NothingDeliveredNothingCharged` | apps/api/src/db/store.js:1222-1228 | A session that delivered nothing pays only the fee. |
| `Readings.Log.ReadingsFor` | apps/api/src/db/store.js:414-430 | However the log grew, the lazy index answers what filtering the whole log would. |
| `Readings.Log.RecordTick` | apps/api/src/db/store.js:1055-1137 | A tick is refused, deduplicated, rejected as a regression or appended, with the caches it built. |
| `Readings.Log.StopSession` | apps/api/src/db/store.js:1142-1166 | The stop register, its refusal and its effect on the cached peak. |
| `Readings.TickAgrees` | apps/api/src/db/store.js:1084-1116 | Ticks keep the sequence numbers exact, the peak a bound, and the log free of duplicates and regressions. |
| `Readings.StopKeepsIff` | apps/api/src/db/store.js:1142-1166 | Exact condition: a stop keeps the cached peak a bound if and only if a peak was cached, the stop is refused, or the recorded register covers the session's readings. |
| `Readings.UnsentStopCovers` | apps/api/src/db/store.js:1145-1151 | Without a register from the charger a stop always covers. |
| `Readings.AppendKeepsSeenIff` | apps/api/src/db/store.js:1084-1089 | A row pushed onto the log directly leaves the built sequence numbers exact if and only if they knew its number. |
| `Readings.AppendAgreesIff` | apps/api/src/db/store.js:1055-1116 | Exact condition: a row pushed onto the log directly keeps numbers, peak and log sound if and only if the session's numbers are not built yet, its peak (if built) covers the row, and the row repeats no number and falls at most 0.001 below any earlier register. |
| `Readings.AgreesIff` | apps/api/src/db/store.js:1055-1166 | Caches and log stay sound throughout a run of ticks, stops and rows pushed directly, in any order, if and only if every stop and every such row met its condition. |
| `Readings.OwnReadingsSound` | apps/api/src/db/store.js:1055-1166 | A store that grew only through its own methods never accepts a duplicate, or a reading more than 0.001 below an earlier one. |
| `Meters.FilterSelects` | apps/api/src/db/store.js:414-430 | The filter the index answers returns every reading of the session once, in log order, and nothing else. |
| `Meters.TickIs` | apps/api/src/db/store.js:1055-1116 | A tick is a repeat exactly when the log has its number, a regression exactly when it falls more than 0.001 below the register it is held against (the remembered one, else the highest of its readings), and otherwise appended as it is. |
| `Meters.StopIs` | apps/api/src/db/store.js:1142-1160 | A stop records the register sent, unless missing or negative, else the remembered one, else the highest reading, never below nothing; it is refused exactly when that lies more than 0.001 below the start. |
| `Meters.PeakReported` | apps/api/src/db/store.js:1055-1160 | In every run the register remembered for a session is one of its readings or one a stop was sent, unless it is the value for no reading at all. |

## Left out

- Delivery.EffectivelyOnce: a processed event may owe its mark to another event with its key; what that takes is `Rekeying.OwnRowsIff`.
- Settlement.CreditedOnce: a top-up that fails is assumed to fail before it credits, as in the in-process store; an adapter that fails after its commit is not modelled.
- EndToEnd.TaperPromiseKept: takes an issued floor that the others leave, which `EndToEnd.WholeFloorLeft` gives for every cap that three decimals do not round up; a floor rounded up past what was left is paid down to what is left (`EndToEnd.TurnLeaves`).
- TaperServed.KnownServedIff: the same, for acceptance-aware cycles; under a cap that rounds up, a floor rounded up past what the others left has no exact statement.
- Shifting.PricesKeepAbsorbable: the condition on prices is sufficient, and a valley does not harm every plan (`Valley.ValleyOverfills` is one it harms); plans with floors are not covered, as pass 2 may then ask a slot for more than it takes.
- Shifting.FinishedPlanIsHonest: the replay counts every entry (no `1e-12` cut-off); with the cut-off the plan is within what the planner says is taken.
- Shortfall.PromiseKeptIff: the others hold between nothing and the usable cap when the vehicle is judged; on a site that is already oversubscribed the guarantee is zero.
- PriceTurns.PricePassTurns: the power-based allocator; with acceptance a move also stops at what the battery takes in the cheaper slot, which later moves change, so what holds there is `Invariants.MoveGain` and `Shifting.PricesKeepAbsorbable`.
- Reuse.CertifySiteIs: session ids are distinct, as the estimator lists each session once.
- Routing.ProcessedRecorded: keys name destinations and rows name keys; what happens otherwise is `Rekeying.OwnRowsIff`.
- Meters.TickIs: the numbers remembered for the session, if any, are those of its readings; when that is so is `Readings.AgreesIff`.
- Equivalence.BelowTheKneeIff: one nameplate and one charge-point allowance for all vehicles, with a slot energy above two cut-offs; mixed fleets are covered in one direction by `Equivalence.BelowTheKneeIdentical`.
- OfflineExact.AdmittedServedIff: the cut-off is below 0.000125 kWh, one slot of half a watt (the code's is `1e-9`); charge points serve one guest each and windows lie on the grid, as the scenario generator makes them.
- Rekeying.OwnRowsIff: keys are not empty (an acknowledgement skips empty keys).
- Relay.RowOf: a session row without a connector is placed under the session itself, not under the text `sess:<id>`, so a connector of that name is told apart; columns outside the primary key are left out.
- EndToEnd.PromiseKept: vehicles are present when the cycle runs, as the estimator lists only active sessions; future arrivals are covered by `OfflinePlan.AdmittedServed`.
- Planner.SolveSchedule: the metrics bundle (cost, peak, absorbable energy, carbon accounting) is not modelled, and tariff and carbon enter as one arbitrary score per slot.
- Profiles.CompileToProfiles: the payload hash, the fixed profile fields and the order in which charge points are pushed are not modelled.
- Certification of a single session on demand: it passes a one-vehicle list, so the floor-sum invariant is stated for the full-list path only.
- The other experiments of the simulator (uncontrolled and static-cap baselines, scenario generation, scoring, calibration totals): easier members.
- Dead letters, notifications, audit rows and outbox events emitted as side effects of store methods; quarantine is the event's own mark.
- Durable mirrors of the store (Oracle undo and id remapping, durable outbox rows), station-map synchronisation, SQL and drivers.
- HTTP routing, authentication, signatures and hashing: a signature check is a boolean input of a settle step.
- Connector faults and maintenance outside the store's methods; certificate erosion and replanning triggers.
