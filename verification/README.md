# Reset permission protocol: model and proofs

Vehicles that are sent back to their start poses may move only with a permission of a central
station. The station reserves the swept route of every vehicle it lets go, grants it piece by piece,
takes the rear back as the vehicle moves on, and releases the whole only on a certified stop. The
vehicle moves under a lease, and every permission of its own is the last step of a handshake: Brake,
published zero, certified stop, Go. This project models that protocol and proves what its runs keep.

The project has seven parts, one module to a file.

- **The vehicle.** `ExecutorModel` holds the executor as functions on its state, `Executor` the
  object whose methods change it in place and are proved equal to them. `ExecutorRuns`,
  `ExecutorStop`, `ExecutorLease`, `ExecutorLimits`, `ExecutorArrival` and `ExecutorResults` prove what
  any sequence of its operations keeps; `ExecutorHandshake` proves that the handshake succeeds.
  `Velocity` is the sliding window behind the stop certificate, `Braking` the speed profile.
  `ControllerModel`, `Controller`, `ControllerRuns` and `ControllerMotion` add the owner of the
  executor: the four-mode machine of the unicycle controller.
- **Distances.** `Geometry` holds the clearance tests. `Hulls`, `Separation` and `SeparatingAxis` (with
  products of reals in `Arithmetic`) prove what they mean: the squared distance of any two points of
  the bodies. `Clearance` states it for the answers of the sweep verifier.
- **The planner.** `Sweep` and `SweepVerifier` are the fast sweep verifier, proved to answer what the
  check of every sample would. `PlannerModel` and `Reservations` give every act of the planner and the
  invariant they keep; `ReservationLife` follows one reservation from admission to release. `Planner`
  is the object itself; `PlannerTurn`, `PlannerOut`, `PlannerCurrent` and `PlannerRuns` prove that one
  update of it is a run of those acts; `ReportEffects` and `SceneChanges` say what an update does with
  the reports and with a changed world. `Deadlock` is the set the deadlock report refuses.
- **Routes.** `RouteModel` gives a route, its samples and its sweep as functions, `Route` and
  `RouteSweeps` the loops that compute them and what they promise. Every reservation of the planner
  is the sweep of its own route. `Escape`, `EscapeMotion` and `RouteEscapes` follow a route that
  starts too close to a parked body, in continuous time, from the verifier's answer to the gap.
- **The coordinator.** `CoordinatorModel`, `CoordinatorWire` and `Coordinator`: session fence,
  decisions, local holds, heartbeat. `StalledExtension` and `StalledRun` say when it stands by a Go.
- **The fleet.** `Link`, `LinkVehicle` and `LinkStation` relate one vehicle to its seat at the
  station over a network that loses, repeats and reorders everything that was ever sent; `Fleet`
  composes any number of them, and `FleetSafety`, `FleetReleases` and `FleetBudget` state the
  results. `FleetCoordinator` puts the coordinator, its entries and its letters into the system and
  shows that the system so composed implements the fleet (`StationOutbox` is a step of that proof);
  `SystemSafety` restates the results for it, and follows the scope and the scene over its runs.
- **Components of their own.** `VisibilityPath` (shortest paths between obstacles), `PeriodicGate`
  and `ReferenceRuntime` (the deadline-driven reference runtime).

Doubles are real numbers. `hypot` is compared through squares, headings are unit vectors; sine,
cosine, square root and norm are parameters with the laws that are used of them. Counters are
unbounded naturals with the 32-bit limits written out where the source checks them: at the limit the
executor faults and the station halts (its exception).

Taken as given of a configuration: the hold margin is above the 1e-9 by which a prefix may be
exceeded (its default is 0.45), every footprint has at least three corners and only that of an
omnidirectional vehicle is not turned, the sampling steps are positive, and lengths are not negative;
`StalledRun.KitIsGood` gives such a configuration. The results that speak of distances also take as
given that footprints and obstacles are convex, that a rectangle lies within its radius, that margins
are not negative, and that sine and cosine make unit vectors (`FleetSafety.SolidKit`); every declared
rectangle is such a footprint (`SeparatingAxis.RectangleIsStrict`).
The starting states are a station that has sent nothing and executors that have done nothing. A
vehicle numbers its sessions on; its controller does (`ControllerRuns.SessionsNumberOn`).

## What the proofs found

- An extension turn can tell a vehicle to go on and refuse it in the same turn, because the stall
  check follows the extensions. Both decisions leave, the Go first. For every Go that a step of the
  coordinator sends, `LettersStandUnlessStruck` states exactly when the planner holds the live
  reservation it speaks of: unless the extension turn is due, somebody holds a route, the last
  progress is too long ago, and the vehicle itself waits on a live reservation when the turn begins.
  `StalledExtensionHappens` gives a run from an empty station to such a turn. The refusal is the
  newer decision, so the vehicle ends with it.
- A route segment shorter than 1e-9 is skipped by the sampler, and the next segment is driven from its
  own start. `SamplesContinue` states exactly when the samples stay continuous, `GapHappens` gives a
  route with a gap. Accordingly the samples end at the summed length of the driven segments, not at
  the length of the route (`SkippedIsLittle` bounds the difference).
- A request that is refused, and whose receipt time lies before the last update, sets the clock of the
  reference runtime back, and its next deadline is then already past: it is woken once for nothing.
  `WakingIsNotInVain` states exactly when a wake-up does something, `RefusedRequestWakesInVain` gives
  the exception.
- A vehicle that cannot be heard may still be admitted: an update brakes the permission it has, but the
  admission of the same update does not ask for its availability. `UpdateShows` states that this is the
  only way for it to have a permission after an update.
- The loss of health is noticed once. If a command to track is applied in that very turn, the
  self-check is not entered, and the controller goes on tracking an unhealthy vehicle
  (`UnhealthyTrackingHappens`); `UnhealthyTurn` states that this is the only exception.
- With a hold time of zero a final move ends as arrived wherever the vehicle is. `ControlStepEnds` states
  the exact ending for every hold time, `ArrivedIsAtTarget` the place for every positive one.
- The polygon around an omnidirectional vehicle is larger than the radius by which two bodies are first
  compared, so there the test may pass with polygons closer than the margin. What it promises is the
  distance of the discs inside (`ClearIsFar`); between two rectangles it is exact (`SampleClearIsExact`).
- A vehicle whose very first Session is not healthy is passed to the planner with a default body at
  the origin (ugv_reset_safety/src/reset_coordinator.cpp:151-153); the model does the same.

## Model

| member | source | states |
|---|---|---|
| `Velocity.AddedWindow` | ugv_reset_client/include/ugv_reset_client/reset_tracker.h:48-63 | after a fresh pose the window ends with it and holds nothing that was not there before |
| `Velocity.AddKeepsWindow` | ugv_reset_client/include/ugv_reset_client/reset_tracker.h:41-66 | a valid estimate is always over a window of at least the minimum span, although `valid` is never cleared by `add`; speed times span is then the distance of the two end poses, and yaw rate times span their difference in yaw, in coordinates |
| `Braking.StopSpeedIsLargest` | ugv_reset_client/include/ugv_reset_client/reset_tracker.h:441-448 | the profile speed is the largest from which lag plus braking fit in the distance: a speed stops in time if and only if it is not above it |
| `Braking.SlewArrives` | ugv_reset_client/include/ugv_reset_client/reset_tracker.h:452-454 | n slewed periods close exactly n steps of the gap, never past the command |
| `ExecutorRuns.OpForward` | ugv_reset_client/include/ugv_reset_client/reset_executor.h:309-506 | inside one generation a permission only moves forward: brake, zero, stop, go, then executing or complete; only a new generation or the exhausted counter takes it back |
| `ExecutorRuns.RunForward` | ugv_reset_client/include/ugv_reset_client/reset_executor.h:696-706 | the same between any two moments of any run: generations, decision ids and permissions never go back, routes stay frozen |
| `ExecutorRuns.AcceptedInOrder` | ugv_reset_client/include/ugv_reset_client/reset_executor.h:309-343 | under any delivery the accepted grants are in strict publication order, their ids never fall, and a repeated id repeats its decision |
| `ExecutorLimits.LimitOverRun` | ugv_reset_client/include/ugv_reset_client/reset_executor.h:345-369 | over any run inside a generation the route is frozen and the limit has fallen by at most one tolerance for each accepted Go |
| `ExecutorArrival.ControlStepEnds` | ugv_reset_client/include/ugv_reset_client/reset_executor.h:769-811 | in any run, the exact ending of every control step, over an observer of the operations: deviation exactly when out of the tube, stalled exactly when free to move for too long without getting on, arrived exactly when on the final move and at target and at rest for the whole hold time, and otherwise the run goes on |
| `ExecutorArrival.ArrivedIsAtTarget` | ugv_reset_client/include/ugv_reset_client/reset_executor.h:795-811 | a run that ends as arrived was on its final move and stood at its target for the whole hold time; with a positive one the pose is within both tolerances of the target and the estimate within both stop limits |
| `ExecutorStop.CertifiedStopIsCausal` | ugv_reset_client/include/ugv_reset_client/reset_executor.h:299-307 | whenever a stop is certified, a zero was published after the Brake of this generation, every pose of the window is trusted and newer than that zero, the window spans at least 0.2 s and ends now, and the vehicle stood still in it: the coordinates of its end poses differ by at most the stop speed times the span, their yaw by at most the stop yaw rate times the span |
| `ExecutorHandshake.StandingIsCertified` | ugv_reset_client/include/ugv_reset_client/reset_executor.h:388-400 | Brake, published zero and two trusted poses at rest 0.2 s apart certify the stop: what the certificate asks for is enough |
| `ExecutorHandshake.HandshakeMoves` | ugv_reset_client/include/ugv_reset_client/reset_executor.h:299-410 | a valid Go after that starts motion on its route, up to its limit, until its time to live has passed |
| `ExecutorLease.MotionIsLeased` | ugv_reset_client/include/ugv_reset_client/reset_executor.h:412-506 | in any run a nonzero command has behind it a Go of this session and generation not older than its time to live, after a stop certified in the same generation, with both clocks inside the timeout |
| `ExecutorResults.OneResultPerSession` | ugv_reset_client/include/ugv_reset_client/reset_executor.h:550-570 | delivered and waiting results are exactly the recorded ones; these are those of the installed sessions, one each, in order, and nothing undelivered is overwritten |
| `ExecutorResults.DeliveredInSessionOrder` | ugv_reset_client/include/ugv_reset_client/reset_executor.h:813-831 | the i-th delivered result is that of the i-th session |
| `Executor.ResetExecutor.DoOnGrant` | ugv_reset_client/include/ugv_reset_client/reset_executor.h:309-386 | the method changes the object as the accepting function says, and nothing when a fence refuses |
| `Executor.ResetExecutor.DoStep` | ugv_reset_client/include/ugv_reset_client/reset_executor.h:412-506 | the control step, every ending and every withdrawal, equals the function the run theorems are about; when it may say Arrived is `ExecutorArrival.ControlStepEnds` |
| `Executor.ResetExecutor.DoInstall` | ugv_reset_client/include/ugv_reset_client/reset_executor.h:277-284 | a new Reset ends, finishes and replaces the old one in this order |
| `Controller.UnicycleUgvController.TakeTurn` | unicycle_ugv_controller/src/unicycle_ugv_controller.cpp:68-124 | one turn of the object equals the function: observe, tick, operator, health, finish, completions, with the first mode change winning |
| `Controller.UnicycleUgvController.DoApply` | unicycle_ugv_controller/src/unicycle_ugv_controller.cpp:127-141 | a transition exits the old mode before it enters the new one |
| `ControllerRuns.TurnRests` | unicycle_ugv_controller/src/unicycle_ugv_controller.cpp:68-124 | after every turn the controller is in Reset exactly when a run is active |
| `ControllerRuns.EnterStarts` | unicycle_ugv_controller/src/unicycle_ugv_controller.cpp:152-183 | an admitted Reset starts a session under the next id, on the credit admission saw, without exhausting the generation counter |
| `ControllerRuns.OneResultPerReset` | unicycle_ugv_controller/src/unicycle_ugv_controller.cpp:384-397 | over any run every Reset that was left has exactly one result under its own id, in order; only the active one has none; what was delivered is a beginning of them |
| `ControllerRuns.SessionsNumberOn` | unicycle_ugv_controller/src/unicycle_ugv_controller.cpp:152-183 | over any run the controller calls its executor only as it may be called and installs every Reset under a later id than the one before |
| `ControllerRuns.ReplacedInOneTurn` | unicycle_ugv_controller/src/unicycle_ugv_controller.cpp:127-183 | a Reset that replaces an active one in the same turn ends exactly that one with a result of its own |
| `ControllerRuns.PublishedMotionIsLeased` | unicycle_ugv_controller/src/unicycle_ugv_controller.cpp:285-306 | in Reset a nonzero published velocity is covered by a Go of the active session, certified in its generation, within its time to live |
| `ControllerMotion.MotionHasACause` | unicycle_ugv_controller/src/unicycle_ugv_controller.cpp:285-306 | in any run a nonzero published velocity means no fault and no clock gone back, and either an active Reset that executes, or tracking with no permission asked for, held or waited for |
| `ControllerMotion.UnhealthyTurn` | unicycle_ugv_controller/src/unicycle_ugv_controller.cpp:68-124 | a turn that finds the vehicle not healthy ends in the self-check if and only if no command is applied in it |
| `ControllerMotion.UnhealthyTrackingHappens` | unicycle_ugv_controller/src/unicycle_ugv_controller.cpp:68-124 | a run in which the command to track hides the loss of health, and tracking goes on for as long as health is lost |
| `Geometry.SampleClearSymmetric` | ugv_reset_safety/src/reset_planner.cpp:596-608 | clearance of two placed bodies does not depend on who asks |
| `Separation.ClearIsFar` | ugv_reset_safety/src/reset_planner.cpp:56-138 | two placed bodies that are clear by m: any point the one covers (its rectangle, or the disc of an omnidirectional vehicle) is at least m from any point the other covers, as squared distance of coordinates |
| `SeparatingAxis.ExactClearIsExact` | ugv_reset_safety/src/reset_planner.cpp:127-138 | the exact test misses nothing either: strictly convex polygons pass it if and only if any two points of their hulls are at least m apart |
| `SeparatingAxis.SampleClearIsExact` | ugv_reset_safety/src/reset_planner.cpp:596-608 | the same with both prefilters, for placed footprints: two rectangles are clear by m if and only if they are m apart |
| `Sweep.NaiveAnswerUnique` | ugv_reset_safety/src/reset_planner.cpp:661-863 | flag and arc length of the sample-by-sample check are determined by the question |
| `Sweep.ClearBelow` | ugv_reset_safety/src/reset_planner.cpp:661-863 | without a hard violation every sample short of the returned arc length is clear of world, parked bodies and movers |
| `Clearance.ClearBelowIsFar` | ugv_reset_safety/src/reset_planner.cpp:661-863 | in coordinates, short of the returned arc length: inside the fence by its margin, every obstacle and every parked body (unless still escaped from) and every mover, where it is and wherever its reservation is kept, at least its margin away from any point of the vehicle |
| `SweepVerifier.FirstViolation` | ugv_reset_safety/src/reset_planner.cpp:661-863 | the chunked, box-filtered verifier gives the flag and arc length of the sample-by-sample check, and names a body or the world that is to blame; what the answer means as distances is `Clearance.ClearBelowIsFar` |
| `Bodies.UpdateHi` | ugv_reset_safety/src/reset_planner.cpp:1177-1193 | the binary search finds exactly the samples with s at most the limit plus 1e-9 |
| `Bodies.PrefixMonotone` | ugv_reset_safety/src/reset_planner.cpp:1177-1193 | the granted prefix grows with the limit and is determined by it |
| `Reservations.ActKeepsDisjoint` | ugv_reset_safety/src/reset_planner.cpp:1158-1193 | admission, extension, cursor, brake, reject, hold, every report and every change of the world keep reservations pairwise disjoint over [cursor, hi) in all sweep variants |
| `Reservations.VerifiedMakesRoom` | ugv_reset_safety/src/reset_planner.cpp:1118-1138 | a prefix that ends the hold margin before the first conflict is disjoint from every other reservation |
| `Planner.ResetPlanner.MakePlan` | ugv_reset_safety/src/reset_planner.cpp:940-1142 | a candidate consists of the sweeps of its own route, one for each estimate of the rotation centre, and of the certificates against the parked bodies it starts too close to |
| `PlannerTurn.CandidateIsGood` | ugv_reset_safety/src/reset_planner.cpp:1074-1100 | whatever route is tried, its candidate is one that the reservation invariant allows: swept along its own route from the pose of the body, with the estimate of the route among the variants |
| `ReservationLife.ReservationsEvolve` | ugv_reset_safety/src/reset_planner.cpp:1427-1538 | between admission and release a reservation only evolves: cursors rise and only after a received Go, limits rise, a retiring one is frozen |
| `ReservationLife.OnlyReportsRelease` | ugv_reset_safety/src/reset_planner.cpp:1310-1417 | no act but a report ends a reservation or changes the request of a body |
| `ReservationLife.SyncReleasesExactly` | ugv_reset_safety/src/reset_planner.cpp:1363-1409 | a report ends a reservation exactly as the certificate of the outstanding Brake of the current request |
| `ReservationLife.RunStaysDisjoint` | ugv_reset_safety/src/reset_planner.cpp:1983-2051 | disjointness over any run of acts |
| `Planner.ResetPlanner.SyncOne` | ugv_reset_safety/src/reset_planner.cpp:1310-1417 | one report changes the object as the function says: request fence, certificate, release, receipt, body |
| `Planner.ResetPlanner.AdvanceMovers` | ugv_reset_safety/src/reset_planner.cpp:1427-1487 | the cursors of all movers with a received Go, and whether any vehicle left its last place |
| `PlannerTurn.BestIsNearest` | ugv_reset_safety/src/reset_planner.cpp:1427-1456 | the cursor moves to the first of the nearest samples of its window |
| `Planner.ResetPlanner.UpdateMovers` | ugv_reset_safety/src/reset_planner.cpp:1458-1556 | cursors, extensions at their period, then the stall check, with right answers to all questions; what an extension turn leaves in force after a change of the world is `SceneChanges.UpdateHeeds` |
| `SceneChanges.UpdateHeeds` | ugv_reset_safety/src/reset_planner.cpp:1489-1556 | over every update: unless a change of the world still waits for the extension turn, no live permission has, from its cursor on, in any variant, a sample that hits an obstacle or leaves the fence; after an extension turn none has |
| `SceneChanges.BlockedIsBraked` | ugv_reset_safety/src/reset_planner.cpp:1489-1538 | when the extension turn finds the world changed, a live reservation whose remaining sweep is blocked is retiring after the update, and the last word to its vehicle is a Brake |
| `Planner.ResetPlanner.Update` | ugv_reset_safety/src/reset_planner.cpp:2087-2102 | one update equals the turn function on the reports, with answers that are right for every question asked |
| `PlannerTurn.NoGoWithoutAdmission` | ugv_reset_safety/src/reset_planner.cpp:1983-1995 | a step without admission decides no Go |
| `PlannerRuns.UpdateIsARun` | ugv_reset_safety/src/reset_planner.cpp:1983-2051 | one update is a run of enabled acts in which the only reports are those the update was given, so that all that every act keeps is kept by the object |
| `PlannerCurrent.UpdateIsCurrent` | ugv_reset_safety/src/reset_planner.cpp:1310-1417 | every decision of an update is about the request its vehicle was just reported with |
| `ReportEffects.UpdateShows` | ugv_reset_safety/src/reset_planner.cpp:1310-1417 | after an update every reported body shows its report; a new request and a vehicle that does not take part leave no permission in force; an unheard vehicle has only one that was admitted in this update |
| `ReportEffects.DriftIsNoticed` | ugv_reset_safety/src/reset_planner.cpp:1285-1308 | a body without a permission that has moved, and does not make the station look at all routes again, is clear of every sample of every live reservation |
| `PlannerOut.ActSpeaks` | ugv_reset_safety/src/reset_planner.cpp:1197-1275 | decision ids leave in strict order, and the last word to a vehicle is the permission it has |
| `StalledExtension.GoStandsUnlessStruck` | ugv_reset_safety/src/reset_planner.cpp:1458-1556 | for every Go of a whole update, from reports to admission: it is the permission held at the end if and only if the stall check did not strike its vehicle, a condition on the station before the turn |
| `StalledExtension.LettersStandUnlessStruck` | ugv_reset_safety/src/reset_coordinator.cpp:167-258 | the same for every Go a step of the coordinator puts on the wire, decided or repeated |
| `StalledRun.StalledExtensionHappens` | ugv_reset_safety/src/reset_planner.cpp:1489-1556 | a run from an empty station, by reports and admitted routes, to a turn with a Go whose vehicle is left without a permission |
| `Deadlock.DeferredSet` | ugv_reset_safety/src/reset_planner.cpp:1915-1965 | the growing loop ends with exactly the stuck bodies from which a chain of recorded blockers leads to a stop in flight |
| `Deadlock.Report` | ugv_reset_safety/src/reset_planner.cpp:1915-1979 | the report refuses exactly the stuck bodies outside that set, in order |
| `CoordinatorWire.DecideAllKeeps` | ugv_reset_safety/src/reset_coordinator.cpp:171-190 | publications to one vehicle strictly rise, ids never fall and equal ids carry equal decisions |
| `CoordinatorWire.RepeatsStand` | ugv_reset_safety/src/reset_coordinator.cpp:217-257 | a Go is repeated only where the planner stands by it |
| `Coordinator.SessionKeepsStation` | ugv_reset_safety/src/reset_coordinator.cpp:67-113 | a Session, fenced or not, disturbs nothing of the order of the wire and of the agreement with the planner |
| `Coordinator.ReportsCarrySessions` | ugv_reset_safety/src/reset_coordinator.cpp:135-165 | what the planner hears of a vehicle carries the receipt and the certificate of its last Session |
| `Coordinator.HeartbeatAgreement` | ugv_reset_safety/src/reset_coordinator.cpp:167-258 | after a step, and in all it repeats, a Go is said only where the planner holds a live reservation of that request with that very id |
| `Coordinator.ResetCoordinator.OnSessionFrom` | ugv_reset_safety/src/reset_coordinator.cpp:67-113 | publication, generation and session fences come before everything else |
| `Coordinator.ResetCoordinator.Step` | ugv_reset_safety/src/reset_coordinator.cpp:135-258 | decisions, holds and heartbeats of a step are those of the functions on the planner's update, and the wire only grows by them; a Go leaves only when the scene is there, the expected names are not none, and every one of them has an entry with a body |
| `LinkVehicle.GrantSteps` | ugv_reset_client/include/ugv_reset_client/reset_executor.h:309-386 | what a grant does to the executor is a step of the abstract vehicle of the link |
| `LinkStation.SyncKeeps` | ugv_reset_safety/src/reset_planner.cpp:1310-1417 | what a report does to a body keeps the link between vehicle and station |
| `Fleet.EventKeeps` | ugv_reset_safety/src/reset_planner.cpp:1310-1556 | every operation of a vehicle, act of the planner and word of the coordinator keeps all links and all reservations disjoint |
| `FleetCoordinator.StepRefines` | ugv_reset_safety/src/reset_coordinator.cpp:135-258 | one step of the coordinator is a sequence of events of the fleet: every report carries a Session that was received, every hold or refusal of its own takes the next id, every letter is a decision that was made, and the fleet ends with the planner's new view |
| `FleetCoordinator.SystemIsAFleet` | ugv_reset_safety/src/reset_coordinator.cpp:67-258 | for every run of vehicles, network and coordinator there is a run of the fleet with the same vehicles, Sessions and planner, and the order of the wire and the agreement with the planner hold |
| `FleetSafety.PermissionContainment` | ugv_reset_safety/src/reset_planner.cpp:1310-1417 | while a vehicle executes, the station holds a reservation of its generation, with its route and footprint, at least as far as its limit |
| `FleetSafety.RearReleaseFollowsReceipt` | ugv_reset_safety/src/reset_planner.cpp:1410-1416 | once a receipt is recorded, an executing vehicle runs exactly the latest Go |
| `FleetSafety.ReservedIsDriven` | ugv_reset_safety/src/reset_planner.cpp:274-293 | every variant reserved behind an executing vehicle is the sweep of the route the vehicle itself drives |
| `FleetSafety.ExecutingVehiclesAreApart` | ugv_reset_safety/src/reset_planner.cpp:1458-1538 | any two executing vehicles: at every sample of the route one drives, from the planner's cursor to its own limit, and every such sample of the other, any two points of the two vehicles are at least the pair margin and both sampling errors apart, for every reserved estimate of the rotation centre, the one of the route included |
| `SystemSafety.SystemKeepsApart` | ugv_reset_safety/src/reset_coordinator.cpp:67-258 | the same in every state that vehicles, network and coordinator come to |
| `SystemSafety.SystemStandsByItsGo` | ugv_reset_safety/src/reset_coordinator.cpp:167-258 | in every step they can take, a Go is sent with a live reservation behind it if and only if the stall check does not strike |
| `SystemSafety.SystemGoesOnlyInScope` | ugv_reset_safety/src/reset_coordinator.cpp:30-41 | in every step the composed system can take, a Go is sent only when the scene is there, a scope is declared, and of every vehicle of it a healthy Session with a real footprint and limits has been received before |
| `SystemSafety.SystemHeedsTheWorld` | ugv_reset_safety/src/reset_planner.cpp:1489-1556 | in every state the composed system comes to, once the last change of the scene was answered by an extension turn: what remains of any live reservation stays inside the fence and away from every obstacle by its margin, anywhere on the footprint |
| `FleetReleases.ReleaseIsExact` | ugv_reset_safety/src/reset_planner.cpp:1363-1409 | a reservation ends only when the vehicle has published, in the request being answered, a certified stop that acknowledges the outstanding Brake |
| `FleetReleases.OnePlanPerRequest` | ugv_reset_safety/src/reset_planner.cpp:1158-1175 | at most one route is ever installed for one request of one vehicle |
| `FleetBudget.AtMostThreePerSession` | ugv_reset_safety/src/reset_planner.cpp:1158-1175 | in every reachable state at most three routes were ever installed for one session of one vehicle |
| `EscapeMotion.EscapeHoldsBetweenSamples` | ugv_reset_safety/src/reset_planner.cpp:329-406 | if every step passes the sample test, the halfspace holds at every intermediate place and heading, in the world frame, in the body frame, and for a footprint that is not turned |
| `EscapeMotion.GapIsKept` | ugv_reset_safety/src/reset_planner.cpp:995-1020 | where the halfspace of a constructed certificate holds, every corner of the vehicle keeps the gap it started with to every corner of the parked peer, in both frames |
| `EscapeMotion.FirstClearIsFirst` | ugv_reset_safety/src/reset_planner.cpp:1102-1115 | the escape index is the first sample that is clear by the full margin |
| `RouteEscapes.MadeStepIsPrimitive` | ugv_reset_client/include/ugv_reset_client/reset_route.h:105-145 | every step of a sampled unicycle route without a gap is a straight move or a turn about its vertex, as the continuous-time test takes it to be |
| `RouteEscapes.AdmittedRouteKeepsGap` | ugv_reset_safety/src/reset_planner.cpp:774-795 | from the verifier's answer to the gap: an admitted route that starts too close to a parked body keeps the starting gap at everything passed up to its escape index |
| `Route.Build` | ugv_reset_client/include/ugv_reset_client/reset_route.h:25-57 | each leg follows its segment forward or in reverse with a rotation of at most a quarter turn, or keeps its heading over a vanishing one |
| `Route.SmallerRotation` | ugv_reset_client/include/ugv_reset_client/reset_route.h:46-53 | of a bearing and its reverse the nearer one needs at most a quarter turn |
| `Route.SampleRoute` | ugv_reset_client/include/ugv_reset_client/reset_route.h:105-145 | the loops give the samples the sweeps and safety results are about |
| `Route.SamplesGrow` | ugv_reset_client/include/ugv_reset_client/reset_route.h:105-145 | samples start at the start with s = 0, s never falls and ends at the driven length |
| `Route.SamplesContinue` | ugv_reset_client/include/ugv_reset_client/reset_route.h:105-145 | for a unicycle all steps are bounded moves and bounded turns about a fixed centre if and only if the route has no gap; without gaps an omnidirectional vehicle moves so on all but the last |
| `Route.NoSliversNoGaps` | ugv_reset_client/include/ugv_reset_client/reset_route.h:121-138 | a route whose consecutive vertices coincide or are at least 1e-9 apart has no gap |
| `Route.GapHappens` | ugv_reset_client/include/ugv_reset_client/reset_route.h:121-138 | a concrete route with a gap |
| `Route.SkippedIsLittle` | ugv_reset_client/include/ugv_reset_client/reset_route.h:30-33 | driven length and route length differ by less than 1e-9 for each segment |
| `RouteSweeps.MakeSet` | ugv_reset_safety/src/reset_planner.cpp:274-293 | the loops compute the sweep that is reserved and driven |
| `RouteSweeps.MadeIsSweep` | ugv_reset_safety/src/reset_planner.cpp:274-293 | that sweep has a box for every footprint and a cover for every chunk, in order of arc length: all that the verifier asks of a sweep |
| `VisibilityPath.EntersInterior` | ugv_reset_safety/src/reset_path.cpp:116-141 | the clipping loop decides exactly whether a stretch of the segment longer than the tolerance lies inside |
| `VisibilityPath.EntersMeansInside` | ugv_reset_safety/src/reset_path.cpp:116-141 | a leg that does not enter an obstacle has no stretch longer than a sliver that is deeper inside all its sides than the tolerance; a leg that enters has a stretch inside up to the tolerance |
| `VisibilityPath.Backtrack` | ugv_reset_safety/src/reset_path.cpp:246-257 | the walk over `previous` ends at the start, by order of visits, and costs what was found |
| `VisibilityPath.ShortestWay` | ugv_reset_safety/src/reset_path.cpp:199-245 | the way found is a cheapest one of all walks, tie-break included; none is reported exactly when the goal is out of reach |
| `VisibilityPath.PlanVisibilityPath` | ugv_reset_safety/src/reset_path.cpp:177-259 | a path runs from start to goal, no leg enters an obstacle, it is a cheapest one of the graph of free corners; each refusal is given exactly when it applies |
| `PeriodicGate.RestsWithinAPeriod` | unicycle_reference_trajectory/include/unicycle_reference_trajectory/state_machine/periodic_gate.h:10-28 | after any call the gate rests less than a period behind the clock |
| `PeriodicGate.AtMostTenSteps` | unicycle_reference_trajectory/include/unicycle_reference_trajectory/state_machine/periodic_gate.h:10-28 | catching up takes at most ten steps and stays on the grid of the period |
| `PeriodicGate.PeriodicGateObject.DueAt` | unicycle_reference_trajectory/include/unicycle_reference_trajectory/state_machine/periodic_gate.h:10-28 | the loop in place, equal to the catch-up function |
| `ReferenceRuntime.UpdateRests` | unicycle_reference_trajectory/src/unicycle_reference_trajectory_runtime.cpp:208-258 | no update rests in Planning, and an active runtime has the reference it publishes |
| `ReferenceRuntime.FailedPlanChecksItself` | unicycle_reference_trajectory/src/unicycle_reference_trajectory_runtime.cpp:208-258 | a plan that fails is answered by the self-check in the same update, silently, and the next update is ready again |
| `ReferenceRuntime.ActiveUntilItsEnd` | unicycle_reference_trajectory/src/unicycle_reference_trajectory_runtime.cpp:208-258 | without a request an active runtime stays active exactly until its reference has ended and the timeout has passed |
| `ReferenceRuntime.AnswerBecomesReference` | unicycle_reference_trajectory/src/unicycle_reference_trajectory_runtime.cpp:208-258 | a request with an answer is the reference after the update that takes it: its id, its duration, and the earliest start that is not before now, the lead and what was asked |
| `ReferenceRuntime.SleepingRefinesPolling` | unicycle_reference_trajectory/src/unicycle_reference_trajectory_runtime.cpp:358-377 | an update before the deadline would have said nothing and changed nothing |
| `ReferenceRuntime.WakingIsNotInVain` | unicycle_reference_trajectory/src/unicycle_reference_trajectory_runtime.cpp:358-377 | an update after the deadline says or changes something if and only if the clock was not set back |
| `ReferenceRuntime.WakingAfterUpdate` | unicycle_reference_trajectory/src/unicycle_reference_trajectory_runtime.cpp:85-94 | after an update the clock is never behind, so the next wake-up always does something |
| `ReferenceRuntime.RefusedRequestWakesInVain` | unicycle_reference_trajectory/src/unicycle_reference_trajectory_runtime.cpp:128-139 | a concrete refused request that sets the clock back |
| `ReferenceRuntime.ReferenceTrajectoryRuntime.UpdateTo` | unicycle_reference_trajectory/src/unicycle_reference_trajectory_runtime.cpp:85-94 | the object's update equals the function, outputs included |

## Left out

- ROS nodes, message conversion, parameter loading, status and result text, logging and statistics: field copies.
- The route tracker's steering and the rotation-centre estimator: what one tracker step answers (command, cross-track, progress, end flags) and the estimated spread are parameters of the control step.
- Physical following of the route on a plant: the source states that it does not prove it either.
- The choice of candidates in admission and parking (order, scores, cycles, predicted durations, goals outside the scene): any candidate may be asked for at any time, and only what passes the sweep verifier is installed, so that no result depends on the choice.
- Normalisation and inflation of obstacle polygons, the projection of scene supports, and the routing obstacles of movers: obstacles are given as convex polygons with their boxes, and the path planner takes the expanded ones.
- Floating point: rounding, `nextafter` and non-finite values; equal doubles are equal reals, and validity tests of messages that only ask for finite numbers are always met.
- Deadline computation of planner, coordinator and executor (`nextDeadline`, `nextWake`); it is modelled for the reference runtime only.
- Process restart and reuse of a session id by a vehicle: the source excludes both.
- Liveness under lasting message loss: not claimed by the source.
- The flatness law, the NMPC solver and its tickets, and the idle publication gates of the controller: the tracking mode is any source of held commands, and whether a gate is due is an input of the turn.
- The mecanum controller: the same machine without the solver.
- RouteEscapes.AdmittedRouteKeepsGap: speaks of variants without a gap for a unicycle, and of certificates in the world frame for an omnidirectional vehicle, whose concurrent turn would swing a halfspace attached to its body; what is passed after the escape index is covered by the ordinary margin at the samples.
- ReferenceRuntime.WakingIsNotInVain: the deadlines are taken without the nudge of one unit in the last place, so it speaks of times strictly after them.
