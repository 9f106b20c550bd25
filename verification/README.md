# Verified model of the GPS HAL's coordinating logic

The GPS part of this device tree is a set of adapters between location clients and a modem. Each adapter
handles one message at a time and asks the modem for things that are answered later; many clients share one
modem session, one distance counter, one data connection or one set of maps. This project models the parts
where that sharing is decided and proves what they keep over whole runs of commands, replies and, outside the trip
counters, modem restarts.

`dafny verify dfyconfig.toml` checks all of it.

## Layout

| area | files |
|---|---|
| outdoor trips sharing one modem distance counter | `TripModel`, `TripRoad` (ghost odometer and whole runs), `TripOverlap` (where the counters fail), `TripCovers` and `TripTightest` (the modem's interval, and what was asked for), `TripTimely` (when trips are noticed), `TripHandlers` |
| time-based tracking sessions sharing one modem session | `TrackingModel`, `TrackingProofs`, `TrackingWishes` (what clients asked for), `TrackingPower` (the power mode), `TrackingHandlers` |
| subscription index and notification fan-out | `SetMap`, `ObserverModel`, `ObserverHandlers` |
| AGPS data connection | `AgpsModel`, `AgpsProofs`, `AgpsNotices` (who is told what), `AgpsHandlers` |
| satellite blacklist masks | `Mask64`, `SvCodec` |
| GPS lock and on-demand position injection | `GpsLock`, `Odcpi` |
| geofences | `GeofenceModel`, `GeofenceProofs`, `GeofenceHandlers` |
| status history, NMEA fields, adapter array | `StatusHistory`, `NmeaTokenizer`, `AdapterArray` |
| 32-bit arithmetic with wrap-around | `Word32` |

Each area has a specification on values (a state, a step function, runs), lemmas about runs of steps, and a
class whose methods change fields and arrays in place, with the loops of the original, and are proved to do
what the step functions say.

## Assumptions about the surroundings

- Trips: the answers to queries that succeed are correct and those to queries that fail are arbitrary, the
  replies of one transaction are handled before the next command, and the odometer stays below 2^32 metres. The
  counters themselves wrap as 32-bit words. Restarts may be refused, and an update's stop and start overlap as
  they do in the source.
- Distance reports, by file: in `TripRoad` a report may come at any time with any reading of the current batch
  measured after all live sessions joined (what a report with any other reading completes is proved as well).
  In `TripOverlap` a report that completes a trip too early is always one of what the modem shows when it is
  sent, and the results on the modem's own report take it at the distance it was started with. In `TripTimely`
  transactions may hold any report `TripRoad` admits, and being on time is about the modem's own report, at the
  distance it was last started with. Nothing is claimed about sessions whose modem has passed its distance
  without reporting.
- Tracking: the modem accepts what it is asked. Maps are walked in an arbitrary order, which covers the
  original's order.
- Geofences: the engine's reply to a command is handled before the next command, and hardware ids and
  session ids it hands out are not in use.
- Satellite ids: lists hold no id whose shift C++ leaves undefined; which ids those are is proved.
- GPS lock: session ids are never 0. The main result also covers commands processed late.

## Where the code departs from its documentation or its purpose

- `LocUnorderedSetMap::update` returns the values common to the old and the new set, while its comment and
  the caller's (gps/core/SystemStatusOsObserver.cpp:155-171) speak of the removed ones. The code is followed:
  updating an existing subscription breaks the inverse maps and stops notifications of the items kept.
- Updating a trip while others are live queries the modem twice before either reply is handled and can count
  the same metres twice; a refused restart of a joining session can do so too, and so can a stop whose query
  fails, because the error is ignored and the value that comes with it is used
  (gps/batching/BatchingAdapter.cpp:964-978). When exactly is proved, and that a trip is then completed before
  its distance is travelled.
- An update asks for the other sessions' settings first: going from a short interval to a longer one can leave
  the modem slower than the session asked for. After a refused restart, or two overlapping ones, the adapter
  and the modem may disagree on the modem's setting. A session that asks for the interval zero can be hidden
  from the minimum loop by a later one.
- Trips may go unnoticed, in either direction. A joining session's restart folds the recorded counts without
  the metres travelled since (gps/batching/BatchingAdapter.cpp:836-843) while the modem is given what is left of
  the old distance: it reports before anybody is complete, and after a report that completes nobody the adapter
  asks it for nothing more. Stopping the trip the modem counts for has the same effect when the modem's distance
  is not the one that trip first asked for. A stop compares recorded remaining distances with a newer reading,
  and a restart caused by the interval alone asks for the old distance in full: the modem then reports too late.
  Exact conditions are proved for every transaction.
- The range check for the second SBAS range admits ids whose shift count is 64 or more.
- NFW control issued before, and processed after, the configuration update that ends it locks mobile
  originated requests while location is enabled.
- Alternating emergency and other ODCPI requests bypass the throttle.
- The pause of a geofence is re-sent to the engine once after a restart but forgotten by the adapter, so a
  second restart resumes it. A fence whose removal the engine refused comes back as its former client's.
- Switching a time-based tracking session to distance-based on a modem without distance tracking leaves it filed
  as time-based without asking the modem for it: the modem has stopped if it was the only session, and may run
  slower than the session's new interval otherwise. The exact condition covers every session map.
- A tracking start that asks for a shorter interval, but for no higher power, restarts the modem at the power of
  the fastest session so far: a higher one that another session asks for is lost. An update in place can miss the
  highest power too. The exact conditions are proved.

## Model

| member | source | states |
|---|---|---|
| `TripRoad.CompletionIsTruthful` | gps/batching/BatchingAdapter.cpp:661-700 | over every run from start-up of starts, stops, updates and reports whose transactions are harmless: a trip in a completion report has really been travelled, by the odometer, since it started |
| `TripRoad.StepKeepsBooks` | gps/batching/BatchingAdapter.cpp:748-1028 | every transaction, updates and refused restarts included, keeps each session's counters equal to odometer differences minus what they miss, if and only if it is harmless; only those two kinds and stops whose query failed may not be |
| `TripRoad.UpdateKeepsBooks` | gps/batching/BatchingAdapter.cpp:431-450 | an update with other trips live, its queries answered, is harmless if and only if its stop restarts nothing, or both restart and the device moves at least the first reading before the last one, or only the stop restarts and both readings agree; a refused restart of the start needs a reading of zero; for each query that fails the condition is on what the counters then claim of the road |
| `TripRoad.StopKeepsBooks` | gps/batching/BatchingAdapter.cpp:964-1020 | a stop is harmless if and only if its query is answered, or it restarts nothing, or counting the other sessions up to the failed query's value claims no more than the device has travelled |
| `TripRoad.RefusedJoinKeepsBooks` | gps/batching/BatchingAdapter.cpp:832-851 | a refused restart of a joining session is harmless if and only if its reading was zero, or, when its query failed, if no session's counters claim metres of the current batch |
| `TripRoad.CompletedExactly` | gps/batching/BatchingAdapter.cpp:671-674 | a report of the current batch completes a session if and only if its distance plus what its counters miss fits into the metres travelled up to the reading |
| `TripRoad.CompletedByAnyReading` | gps/batching/BatchingAdapter.cpp:671-674 | what any report completes, wherever it was measured: its reading is taken for one of the current batch and wraps below the session's start |
| `TripRoad.PromptRunLosesNothing` | gps/batching/BatchingAdapter.cpp:1003-1020 | when the device stands still between a reading and the restart that uses it, no session's counters ever miss a metre |
| `TripRoad.PromptCompletionIsExact` | gps/batching/BatchingAdapter.cpp:661-700 | after such runs an up-to-date report completes exactly the trips whose distance has been travelled |
| `TripOverlap.HarmlessExactly` | gps/batching/BatchingAdapter.cpp:748-1028 | a transaction is harmless if and only if it leaves no session counting more than the device travels |
| `TripOverlap.HarmMisleads` | gps/batching/BatchingAdapter.cpp:748-1028 | a transaction that is not harmless overcounts a session; and of the sessions still under way, while no count wraps, it overcounts exactly those that some report of what the modem then shows completes before their distance is travelled |
| `TripOverlap.OwnReportMisleads` | gps/batching/BatchingAdapter.cpp:666-691 | after such a transaction the report the modem sends at its own distance completes a session too early if and only if that distance reaches what the session's counters leave of its trip but not what the road does |
| `TripOverlap.HarmfulUpdateMisleads` | gps/batching/BatchingAdapter.cpp:431-450 | an update that is not harmless although its queries are answered overcounts its own session: for any distance beyond what the device moves meanwhile a report of what the modem shows completes it too early |
| `TripOverlap.RefusedJoinMisleads` | gps/batching/BatchingAdapter.cpp:836-848 | after a refused joining restart the modem's own report completes the joined session too early if and only if it asked for no more than the modem's distance but for more than what was left of it |
| `TripOverlap.BlindStopMisleads` | gps/batching/BatchingAdapter.cpp:964-1020 | after a stop whose query failed, the modem's own report completes another session too early if and only if the new distance reaches what the count up to the failed query's value leaves of its trip but not what the road does |
| `TripOverlap.RefusedJoinCanReportUntravelled` | gps/batching/BatchingAdapter.cpp:836-848 | a concrete refused restart after which the modem's own report completes a 1000 metre trip after 400 metres |
| `TripOverlap.FailedStopCanReportUntravelled` | gps/batching/BatchingAdapter.cpp:964-1020 | a concrete stop whose query fails with the value zero, after which the modem's own report completes a 500 metre trip after 450 metres |
| `TripOverlap.HarmfulUpdatesExist` | gps/batching/BatchingAdapter.cpp:431-450 | a concrete pair of trips and an update of that kind |
| `TripCovers.TightestExactly` | gps/batching/BatchingAdapter.cpp:945-962 | for every list of sessions the loop finds, for distances and intervals alike, the minimum over what follows the last zero in key order, and zero if nothing does |
| `TripCovers.TightestIsMinimum` | gps/batching/BatchingAdapter.cpp:945-962 | so it finds the true minima when nothing is zero |
| `TripCovers.StepServes` | gps/batching/BatchingAdapter.cpp:748-1028 | for every transaction: the adapter knows the modem's setting and no session waits longer than it asked afterwards, if and only if the transaction's condition holds |
| `TripCovers.ServingRunServes` | gps/batching/BatchingAdapter.cpp:748-1028 | whole runs of such transactions serve every session |
| `TripCovers.RunCovers` | gps/batching/BatchingAdapter.cpp:748-1028 | over every run with positive requested intervals, accepted joins and no updates the modem's interval is never longer than any live session's |
| `TripCovers.UpdateLeavesUnserved` | gps/batching/BatchingAdapter.cpp:431-450 | a concrete update from interval 10 to 15 after which the modem reports at 20 |
| `TripTightest.FlagsTell` | gps/batching/BatchingAdapter.cpp:674-688 | for every transaction: the flag for the interval, and the one for the distance, is raised if and only if it was or a session leaves that had asked for the ongoing one |
| `TripTightest.StepTightens` | gps/batching/BatchingAdapter.cpp:748-1028 | for every transaction but updates, with positive intervals: the modem's interval, before it the shortest that a live session asks for, is so again afterwards if and only if sessions that leave leave one at that interval or the restart is accepted, and one that joins at a shorter interval gets its answers |
| `TripTightest.ReportTightens` | gps/batching/BatchingAdapter.cpp:679-699 | in particular a report that completes trips and leaves others, its restart accepted, leaves the modem at exactly the shortest interval of those left |
| `TripTightest.StopTightens` | gps/batching/BatchingAdapter.cpp:890-910 | and so does a stop |
| `TripTightest.UpdateAsksForOthers` | gps/batching/BatchingAdapter.cpp:884-905 | the stop of an update asks for exactly the shortest interval of the other sessions |
| `TripTightest.RunIsTight` | gps/batching/BatchingAdapter.cpp:748-1028 | over every run with positive intervals, answered joins, accepted restarts and no updates the modem batches exactly as often as the most demanding live session asks |
| `TripTightest.RunIsAsWished` | gps/batching/BatchingAdapter.cpp:748-857 | over every run each live session holds the distance and the interval that its id was last asked for with |
| `TripTightest.CompletedAsWished` | gps/batching/BatchingAdapter.cpp:661-700 | over every run from start-up: a trip is announced as completed only after the distance last asked for under its id has been travelled since it started |
| `TripTightest.RunMeetsWishes` | gps/batching/BatchingAdapter.cpp:748-1028 | and the modem's interval is the shortest that the live sessions were asked for with |
| `TripTimely.OnTimeExactly` | gps/batching/BatchingAdapter.cpp:661-700 | on time, the modem's distance being where the counters complete the first session, means that no session is complete one metre before the modem's own report and that this report completes one |
| `TripTimely.OwnReportCompletes` | gps/batching/BatchingAdapter.cpp:661-700 | while on time that report completes exactly the sessions that end there, at least one |
| `TripTimely.RebaseMeets` | gps/batching/BatchingAdapter.cpp:1003-1020 | after a restart the sessions are on time if and only if the modem was given exactly the least distance that the counts at the reading leave |
| `TripTimely.JoinAsksForLeast` | gps/batching/BatchingAdapter.cpp:793-829 | a joining session restarts the modem if and only if it wants less distance than is left, all of it when the query failed, or a shorter interval, with the smaller of each |
| `TripTimely.JoinStepIsOnTime` | gps/batching/BatchingAdapter.cpp:785-851 | a join leaves everybody on time if and only if: without a restart it completes no earlier than the modem reports; with one, accepted or refused, the modem's distance is the least that the recorded counts leave |
| `TripTimely.JoinIsOnTime` | gps/batching/BatchingAdapter.cpp:816-844 | an accepted joining restart, the query answered within a distance that the adapter knows, leaves everybody on time if and only if the joining session is the next to complete or the next one's count is up to date |
| `TripTimely.QuietJoinIsOnTime` | gps/batching/BatchingAdapter.cpp:816-829 | a join with an answered query that does not restart the modem always leaves everybody on time |
| `TripTimely.PromptJoinIsOnTime` | gps/batching/BatchingAdapter.cpp:816-844 | which holds whenever all counts are up to date and the device stands still |
| `TripTimely.StopIsOnTime` | gps/batching/BatchingAdapter.cpp:884-1028 | a stop leaves the others on time if and only if its restart chooses exactly the least distance that the counts at the new reading leave, or, without a restart, one of them ends where the modem reports |
| `TripTimely.ReportIsOnTime` | gps/batching/BatchingAdapter.cpp:666-699 | the same exact condition for the restart that follows a completion; a report that completes nobody changes nothing |
| `TripTimely.ReportPunctualExactly` | gps/batching/BatchingAdapter.cpp:976-1020 | after a completing report with sessions left they are on time if and only if the restart is accepted and asks for the tightest distance: the ongoing one's trip has gone, nothing or more than the tightest is left of it, or the interval changes and the ongoing one happens to be the tightest |
| `TripTimely.StopPunctualExactly` | gps/batching/BatchingAdapter.cpp:896-1020 | after a stop before the modem's distance, every count up to date, the others are on time if and only if: with an accepted restart, a trip with the ongoing distance has left or that distance happens to be the least that is left; without one, somebody left ends where the modem reports |
| `TripTimely.RetuneAsks` | gps/batching/BatchingAdapter.cpp:976-1001 | the ongoing distance stands while its trip is live and something is left of it that is no more than the tightest, or when the tightest is zero; the interval changes to a shorter one, or to a longer one when its trip has gone; nothing is asked for if and only if both stand |
| `TripTimely.OwnReportIsOnTime` | gps/batching/BatchingAdapter.cpp:693-699 | the modem's own report of a distance that the adapter knows leaves everybody on time when its restart is accepted |
| `TripTimely.UpdateIsOnTime` | gps/batching/BatchingAdapter.cpp:431-450 | an update leaves everybody on time if and only if the distance the modem is started with last is exactly the least that the counters leave, or, without a restart, the first session to complete is still the one the modem counts for |
| `TripTimely.StepIsOnTime` | gps/batching/BatchingAdapter.cpp:748-1028 | every transaction leaves everybody on time if and only if its condition holds |
| `TripTimely.PunctualRunIsOnTime` | gps/batching/BatchingAdapter.cpp:748-1028 | whole runs whose transactions meet their conditions leave everybody on time |
| `TripTimely.PunctualRunServes` | gps/batching/BatchingAdapter.cpp:661-700 | over every such run from start-up in which the device stands still around each restart: until the modem reaches its distance no live trip has been overrun, and its report there completes exactly the trips that have just been travelled, at least one |
| `TripTimely.StopMakesLate` | gps/batching/BatchingAdapter.cpp:947-955 | a concrete stop after which the modem counts 1000 more metres for a trip with 400 left, because its recorded count is stale |
| `TripTimely.StopMakesEarly` | gps/batching/BatchingAdapter.cpp:896-899 | a concrete stop of the trip the modem counts for, after which the modem reports where nobody completes |
| `TripTimely.JoinMakesEarly` | gps/batching/BatchingAdapter.cpp:824-844 | a concrete joining restart that forgets 600 travelled metres: when the modem reports, with the trip travelled, nobody is completed |
| `TripHandlers.BatchingAdapter.StartTripBatchingMultiplex` | gps/batching/BatchingAdapter.cpp:748-857 | state and modem request after a start: first session, or join with the query's answer |
| `TripHandlers.BatchingAdapter.FoldSessions` | gps/batching/BatchingAdapter.cpp:836-843 | every session's counters are folded, none is skipped or read twice |
| `TripHandlers.BatchingAdapter.StopTripBatchingMultiplex` | gps/batching/BatchingAdapter.cpp:859-920 | state after a stop, including the dropped flags and the restart it causes |
| `TripHandlers.BatchingAdapter.UpdateTripBatching` | gps/batching/BatchingAdapter.cpp:884-920 | state and both requests after an update with other trips live, its replies handled in the order they arrive |
| `TripHandlers.BatchingAdapter.DecideRestart` | gps/batching/BatchingAdapter.cpp:964-1001 | what the query reply asks of the modem, from the minima captured before the query |
| `TripHandlers.BatchingAdapter.RestartTripBatching` | gps/batching/BatchingAdapter.cpp:922-1028 | state after the decision to restart with tighter settings and the modem's answer |
| `TripHandlers.BatchingAdapter.TightestSetting` | gps/batching/BatchingAdapter.cpp:945-962 | the loop over the sessions in key order computes the tightest setting |
| `TripHandlers.BatchingAdapter.RebaseSessions` | gps/batching/BatchingAdapter.cpp:1009-1020 | every session is counted up to the reading and rebased |
| `TripHandlers.BatchingAdapter.ReportCompletedTrips` | gps/batching/BatchingAdapter.cpp:661-700 | the completed trips announced and the state left behind by a distance report |
| `TripHandlers.BatchingAdapter.CountSessions` | gps/batching/BatchingAdapter.cpp:666-691 | sessions counted, completed ones erased during the walk, dropped flags set |
| `TrackingProofs.RunIsSound` | gps/gnss/GnssAdapter.cpp:2916-3345 | over every run, on a modem with distance tracking or without it and only switches that fit: the modem's session runs if and only if a time-based session exists, at an interval no longer than any stored one, all stored intervals are at least 100 ms, and the highest-interval flag implies 100 ms |
| `TrackingProofs.StepIsSoundExactly` | gps/gnss/GnssAdapter.cpp:2916-3345 | every step keeps that if and only if it fits: only a switch without distance tracking may not |
| `TrackingProofs.UnsupportedSwitchIsSound` | gps/gnss/GnssAdapter.cpp:3096-3111 | for every session map: the switch of a time-based session on a modem without distance tracking keeps it if and only if other sessions remain and the interval the stop leaves the modem at is no longer than the session's new one |
| `TrackingProofs.SwitchIsExact` | gps/gnss/GnssAdapter.cpp:3096-3111 | the same condition decides whether the interval stays exactly the minimum |
| `TrackingProofs.SwitchOfOnlySession` | gps/gnss/GnssAdapter.cpp:3096-3111 | the only session never fits |
| `TrackingProofs.SwitchToShorterInterval` | gps/gnss/GnssAdapter.cpp:3096-3111 | a concrete switch among two sessions to a shorter interval than the modem runs at |
| `TrackingProofs.PlainRunIsExact` | gps/gnss/GnssAdapter.cpp:2609-3331 | with NHz off and no updates in place the interval is exactly the minimum of those stored |
| `TrackingProofs.RestartIsSound` | gps/gnss/GnssAdapter.cpp:2609-2641 | a restart re-establishes soundness, and the exact minimum without NHz, from any state |
| `TrackingProofs.SmallestIsMinimum` | gps/gnss/GnssAdapter.cpp:2936-2951 | the hand-written minimum loop, with its unset sentinel and its skipped session, finds the minimum in any walking order |
| `TrackingProofs.UpdateIsExactUnlessRelaxed` | gps/gnss/GnssAdapter.cpp:3166-3228 | an update in place stays exact unless it relaxes the only fastest session without lowering the power mode: if and only if |
| `TrackingProofs.LowestPowerIsMinimum` | gps/gnss/GnssAdapter.cpp:2936-2951 | when every session gives a power mode, the loop finds the smallest number |
| `TrackingProofs.RestartPower` | gps/gnss/GnssAdapter.cpp:2614-2633 | a restart asks for the highest power any session gives, unless the first session walked gives none: then for none |
| `TrackingWishes.RunAnswers` | gps/gnss/GnssAdapter.cpp:2883-3111 | over every run the live sessions are exactly those that clients started and did not stop, each stored once, by its kind, as it was last asked for, but for 100 ms in place of a shorter interval and mode 2 in place of mode 4 with more than 480000 ms between measurements |
| `TrackingWishes.RunServesWishes` | gps/gnss/GnssAdapter.cpp:2883-3345 | over every run from the start, against what clients asked for: the modem's session runs if and only if somebody wants a time-based one, at least as often as each asked and no faster than every 100 ms |
| `TrackingWishes.PlainRunMeetsWishes` | gps/gnss/GnssAdapter.cpp:2883-3331 | with NHz off and no updates in place exactly as often as the most demanding client asked |
| `TrackingWishes.RejectedChangesNothing` | gps/gnss/GnssAdapter.cpp:2877-2882 | which commands are turned away and with which answer, and that they change nothing |
| `TrackingWishes.QuietCommands` | gps/gnss/GnssAdapter.cpp:2886-2893 | commands on distance-based sessions, and an NHz requirement that does not change, leave the modem's session alone |
| `TrackingWishes.HighestIsLeftAlone` | gps/gnss/GnssAdapter.cpp:203-228 | once raised for an NHz engine, the modem's session is left alone by starts, updates in place and stops that leave a session |
| `TrackingWishes.NHzRaises` | gps/gnss/GnssAdapter.cpp:203-228 | an NHz engine runs the modem at 100 ms, marked as raised if and only if every client is content with less |
| `TrackingPower.StartTunes` | gps/gnss/GnssAdapter.cpp:2936-2972 | while every session gives a mode and the modem runs at the highest power and the shortest interval asked for, a start keeps that if and only if it does not ask for a shorter interval but no higher power while the fastest session asks for another power than the modem's |
| `TrackingPower.StartCanMiss` | gps/gnss/GnssAdapter.cpp:2936-2972 | a concrete such start: the modem leaves mode 1, which a session asks for, for mode 5 |
| `TrackingPower.StopTunes` | gps/gnss/GnssAdapter.cpp:3293-3331 | a stop always keeps it |
| `TrackingPower.UpdateTunes` | gps/gnss/GnssAdapter.cpp:3166-3228 | the exact condition for an update in place |
| `TrackingPower.StepTunes` | gps/gnss/GnssAdapter.cpp:2916-3345 | every command keeps it, on a modem with distance tracking, if and only if its condition holds |
| `TrackingPower.RunMeetsPower` | gps/gnss/GnssAdapter.cpp:2916-3345 | over every run of such commands the modem's power mode is the highest that a client wanting time-based tracking asked for |
| `TrackingPower.RestartIsTaken` | gps/gnss/GnssAdapter.cpp:2614-2633 | a restart takes interval and distance from one session, and power mode and time between measurements from one session |
| `TrackingPower.StartIsTaken` | gps/gnss/GnssAdapter.cpp:2936-2972 | what a start does not tighten is one live session's; alone, the session's own |
| `TrackingPower.StopIsTaken` | gps/gnss/GnssAdapter.cpp:3293-3331 | so is everything that a stop with others left restarts the modem with |
| `TrackingPower.UpdateIsTaken` | gps/gnss/GnssAdapter.cpp:3166-3228 | and what an update in place does not tighten |
| `TrackingHandlers.GnssTracking.Multiplex` | gps/gnss/GnssAdapter.cpp:2936-2951 | loop over the sessions: smallest interval and lowest power mode, skipping the given ones |
| `TrackingHandlers.GnssTracking.RestartOptions` | gps/gnss/GnssAdapter.cpp:2614-2633 | loop over all sessions: smallest interval and highest-accuracy power mode |
| `TrackingHandlers.GnssTracking.UpdateNHzRequirement` | gps/gnss/GnssAdapter.cpp:6215-6218 | a changed NHz requirement restarts the session, an unchanged one does nothing |
| `TrackingHandlers.GnssTracking.StopClientSessions` | gps/gnss/GnssAdapter.cpp:2421-2453 | exactly the client's sessions go, and soundness and exactness survive every removal in the loop |
| `ObserverModel.RunKeepsInverse` | gps/core/SystemStatusOsObserver.cpp:62-294 | in runs whose updates come from clients without a subscription, the two maps stay inverse without empty entries and the framework has been asked for exactly the items somebody wants |
| `ObserverModel.RunAgrees` | gps/core/SystemStatusOsObserver.cpp:62-294 | in every run the calls made to the framework, replayed, ask for exactly the keys of the item map |
| `ObserverModel.CallsAreExact` | gps/core/SystemStatusOsObserver.cpp:62-294 | call by call: a request asks the framework for the items that gain their first client and drops those that lose their last, a request for data names all it subscribes to, a new object is asked for everything, and empty calls are not made |
| `ObserverModel.SubscribeAddsExactly` | gps/core/SystemStatusOsObserver.cpp:94-140 | a subscription adds exactly the client's pairs and keeps the maps inverse |
| `ObserverModel.UnsubscribeRemovesExactly` | gps/core/SystemStatusOsObserver.cpp:214-253 | an unsubscription removes exactly the client's pairs and keeps the maps inverse |
| `ObserverModel.UnsubscribeAllRemovesExactly` | gps/core/SystemStatusOsObserver.cpp:255-294 | the client's pairs all go, nobody else's |
| `ObserverModel.UpdateFilesTheDifference` | gps/core/SystemStatusOsObserver.cpp:142-212 | after an update the item map files the client under the items that changed sides |
| `ObserverModel.UpdateKeepsInverse` | gps/core/SystemStatusOsObserver.cpp:142-212 | an update keeps the maps inverse if and only if the client had no subscription |
| `ObserverModel.UpdateSilences` | gps/core/SystemStatusOsObserver.cpp:142-212 | a client that updates its subscription is no longer notified of an item it keeps |
| `ObserverModel.TwoRequestsBreakInverse` | gps/core/SystemStatusOsObserver.cpp:142-212 | from the start, a subscription and an update that keeps its item break the inverse maps |
| `ObserverModel.FanOutInGeneral` | gps/core/SystemStatusOsObserver.cpp:311-344 | in any state a client is sent a changed item if and only if it subscribes to it and is filed under some changed item |
| `ObserverModel.FanOutIsExact` | gps/core/SystemStatusOsObserver.cpp:311-343 | with inverse maps a client is sent an item if and only if it subscribes to it and the item changed |
| `ObserverModel.ChangedExactly` | gps/core/SystemStatusOsObserver.cpp:311-319 | for every batch and cache: an item is to be sent if and only if some report of it that the status cache records differs from the value last recorded for it, in the batch or the cache, or is the first |
| `ObserverModel.CacheHolds` | gps/core/SystemStatusOsObserver.cpp:558-589 | the cache holds the value last recorded for each item |
| `ObserverModel.BatchIsDelivered` | gps/core/SystemStatusOsObserver.cpp:311-343 | from batch to deliveries, with inverse maps: a client is told of an item if and only if it subscribes to it and the batch brings news of it |
| `ObserverHandlers.SystemStatusOsObserver.SetSubscriptionObject` | gps/core/SystemStatusOsObserver.cpp:62-89 | a new subscription object is asked for every item with a client |
| `ObserverHandlers.SystemStatusOsObserver.HandleSubscribeReq` | gps/core/SystemStatusOsObserver.cpp:94-140 | both maps, the framework request and the cached items sent at once |
| `ObserverHandlers.SystemStatusOsObserver.HandleUpdateSubscriptionReq` | gps/core/SystemStatusOsObserver.cpp:142-212 | both maps, the framework requests and the cached items sent at once |
| `ObserverHandlers.SystemStatusOsObserver.HandleUnsubscribeReq` | gps/core/SystemStatusOsObserver.cpp:214-253 | both maps and the framework request |
| `ObserverHandlers.SystemStatusOsObserver.HandleUnsubscribeAllReq` | gps/core/SystemStatusOsObserver.cpp:255-294 | both maps and the framework request |
| `ObserverHandlers.SystemStatusOsObserver.SendCachedDataItems` | gps/core/SystemStatusOsObserver.cpp:530-556 | exactly the cached ones of the given items are sent |
| `ObserverHandlers.SystemStatusOsObserver.UpdateCache` | gps/core/SystemStatusOsObserver.cpp:558-589 | the cache entry and whether it changed |
| `ObserverHandlers.SystemStatusOsObserver.HandleNotify` | gps/core/SystemStatusOsObserver.cpp:311-344 | cache after the batch, and one delivery to each client with changed items |
| `ObserverHandlers.SystemStatusOsObserver.Deliver` | gps/core/SystemStatusOsObserver.cpp:330-343 | each client's changed items, in one call |
| `ObserverHandlers.SystemStatusOsObserver.UpdateCacheAll` | gps/core/SystemStatusOsObserver.cpp:312-319 | the items of the batch whose cache entry changed |
| `ObserverHandlers.SystemStatusOsObserver.ClientsOf` | gps/core/SystemStatusOsObserver.cpp:321-328 | the clients of any changed item |
| `ObserverHandlers.SystemStatusOsObserver.KeepOnly` | gps/core/SystemStatusOsObserver.cpp:331-340 | erasing while walking leaves the intersection |
| `SetMap.ExtendedVals` | gps/utils/LocUnorderedSetMap.h:150-181 | adding values to keys gives each of those keys the union and leaves the others |
| `SetMap.ReplacedVals` | gps/utils/LocUnorderedSetMap.h:183-196 | replacing gives the key exactly the new values and leaves the others |
| `SetMap.LocUnorderedSetMap.TrimSet` | gps/utils/LocUnorderedSetMap.h:48-58 | the values removed and the values left |
| `SetMap.LocUnorderedSetMap.RemoveAndReturnIntersect` | gps/utils/LocUnorderedSetMap.h:60-77 | the intersection leaves both sets and is returned |
| `SetMap.LocUnorderedSetMap.TrimEntry` | gps/utils/LocUnorderedSetMap.h:83-94 | one entry trimmed, and removed when left empty |
| `SetMap.LocUnorderedSetMap.TrimOrRemove` | gps/utils/LocUnorderedSetMap.h:131-148 | several entries trimmed, with the removed keys and values collected |
| `SetMap.LocUnorderedSetMap.Add` | gps/utils/LocUnorderedSetMap.h:150-164 | values added to one entry, and whether it is new |
| `SetMap.LocUnorderedSetMap.AddAll` | gps/utils/LocUnorderedSetMap.h:166-181 | values added to several entries, with the new keys collected |
| `SetMap.LocUnorderedSetMap.Update` | gps/utils/LocUnorderedSetMap.h:183-196 | the entry is replaced; what is returned is the intersection of old and new values |
| `AgpsProofs.RunIsOrderly` | gps/gnss/Agps.cpp:73-283 | over every run: handles are distinct, RELEASED means nobody is listed, and an active subscriber has been told GRANTED since joining if and only if the state is ACQUIRED |
| `AgpsProofs.RunIsServed` | gps/gnss/Agps.cpp:73-283 | until the first modem restart PENDING and ACQUIRED have an active subscriber and RELEASING has one at all |
| `AgpsProofs.RunIsBracketed` | gps/gnss/Agps.cpp:73-308 | from what the framework says and hears alone: a connection is requested only when none is wanted and released only when one is, and wanted means PENDING or ACQUIRED, modem restarts included |
| `AgpsProofs.RunIsAccounted` | gps/gnss/Agps.cpp:310-430 | whoever joined did so once, and is listed, or was dropped by a modem restart or told the end, exactly once |
| `AgpsNotices.EventTells` | gps/gnss/Agps.cpp:73-283 | on every event in every state exactly what is due is said, to subscribers and to the framework, notice by notice |
| `AgpsNotices.EventLeaves` | gps/gnss/Agps.cpp:310-430 | and exactly those who have heard their end leave the list |
| `AgpsNotices.DenialReachesAll` | gps/gnss/Agps.cpp:243-283 | a denial of a pending connection tells everybody listed that the open failed |
| `AgpsNotices.FailureMeansDenial` | gps/gnss/Agps.cpp:243-283 | over every run a subscriber hears that its open failed only when a pending connection is denied while it is listed |
| `AgpsNotices.ClosedMeansReleased` | gps/gnss/Agps.cpp:109-283 | over every run it hears that its connection is closed only when it lets go without waiting, when the framework takes an acquired connection away, or when the one it waits for is gone |
| `AgpsHandlers.AgpsStateMachine.GetSubscriber` | gps/gnss/Agps.cpp:465-478 | the first subscriber with the handle, if any |
| `AgpsHandlers.AgpsStateMachine.AnyActiveSubscribers` | gps/gnss/Agps.cpp:432-442 | whether anybody is active |
| `AgpsHandlers.AgpsStateMachine.AddSubscriber` | gps/gnss/Agps.cpp:392-411 | a clone joins unless the handle is listed |
| `AgpsHandlers.AgpsStateMachine.DeleteSubscriber` | gps/gnss/Agps.cpp:413-430 | erasing during the walk removes exactly the subscribers with the handle |
| `AgpsHandlers.AgpsStateMachine.NotifyAllSubscribers` | gps/gnss/Agps.cpp:310-343 | erasing during the walk: those meant are told once each in list order, and the others are left |
| `AgpsHandlers.AgpsStateMachine.ProcessSubscribe` | gps/gnss/Agps.cpp:73-107 | the whole new state of the machine |
| `AgpsHandlers.AgpsStateMachine.ProcessUnsubscribe` | gps/gnss/Agps.cpp:109-171 | the whole new state of the machine |
| `AgpsHandlers.AgpsStateMachine.ProcessGranted` | gps/gnss/Agps.cpp:173-194 | the whole new state of the machine |
| `AgpsHandlers.AgpsStateMachine.ProcessReleased` | gps/gnss/Agps.cpp:196-241 | the whole new state of the machine |
| `AgpsHandlers.AgpsStateMachine.ProcessDenied` | gps/gnss/Agps.cpp:243-283 | the whole new state of the machine |
| `AgpsHandlers.AgpsStateMachine.DropAllSubscribers` | gps/gnss/Agps.cpp:495-506 | everybody is dropped, the state stays |
| `AgpsHandlers.AgpsManager.constructor` | gps/gnss/Agps.cpp:514-535 | which machines exist |
| `AgpsHandlers.AgpsManager.RequestATL` | gps/gnss/Agps.cpp:563-597 | by type: requests for SUPL, emergency or not, and those of no type reach the AGNSS machine and all others the internet one, the other machine is left alone, and without its machine a request is refused |
| `AgpsHandlers.AgpsManager.ReleaseATL` | gps/gnss/Agps.cpp:599-625 | a release reaches the machine that lists the handle, the SUPL one first; unknown handles change nothing |
| `AgpsHandlers.AgpsManager.HandleModemSSR` | gps/gnss/Agps.cpp:664-675 | a modem restart empties both machines |
| `SvCodec.RoundTrip` | gps/gnss/GnssAdapter.cpp:1712-1902 | masks to list and back into a cleared configuration gives the same six masks, for all of them |
| `SvCodec.ListRoundTrip` | gps/gnss/GnssAdapter.cpp:1712-1902 | list to masks and back gives a list of exactly the same satellites |
| `SvCodec.EncodedAllMeaning` | gps/gnss/GnssAdapter.cpp:1730-1794 | a bit is set if and only if it was or some source of the list covers its satellite |
| `SvCodec.OrderDoesNotMatter` | gps/gnss/GnssAdapter.cpp:1730-1794 | lists with the same members give the same masks |
| `SvCodec.ListOfMembers` | gps/gnss/GnssAdapter.cpp:1816-1902 | the list of a constellation is id 0 for a full mask, else exactly the satellites of its bits, across the SBAS split |
| `SvCodec.DecodedIsDefined` | gps/gnss/GnssAdapter.cpp:1816-1902 | every id written can be read back without an undefined shift |
| `SvCodec.UndefinedShifts` | gps/gnss/GnssAdapter.cpp:1751-1791 | the range checks let shifts of 64 or more through for exactly the SBAS ids 208 to 246 |
| `SvCodec.BitOfId` | gps/gnss/GnssAdapter.cpp:1730-1794 | which satellite id each bit of the six masks stands for, in numbers, both SBAS ranges included |
| `SvCodec.ConvertToGnssSvIdConfig` | gps/gnss/GnssAdapter.cpp:1712-1814 | the masks after the loop over the list, and the return value |
| `SvCodec.AddToMask` | gps/gnss/GnssAdapter.cpp:1731-1793 | one source's effect on its mask, by the range checks and the shift |
| `SvCodec.ConvertGnssSvIdMaskToList` | gps/gnss/GnssAdapter.cpp:1864-1902 | the shifting loop writes the mask's list, bit by bit, and ends |
| `SvCodec.ConvertFromGnssSvIdConfig` | gps/gnss/GnssAdapter.cpp:1816-1862 | the six lists in the order written |
| `GpsLock.CoherentExactly` | gps/gnss/GnssAdapter.cpp:893-914 | for every sequence of commands: the lock at the modem is what an injection would send if and only if no late NFW control is unsettled |
| `GpsLock.RunIsCoherent` | gps/gnss/GnssAdapter.cpp:893-914 | with commands processed when issued the two locks agree in every run |
| `GpsLock.RestartChangesNothing` | gps/gnss/GnssAdapter.cpp:893-914 | so a modem restart never changes the lock |
| `GpsLock.EnabledIsUnlocked` | gps/gnss/GnssAdapter.cpp:3474-3493 | in both modes location enabled means the modem's lock spares mobile originated requests |
| `GpsLock.DisabledStaysLocked` | gps/gnss/GnssAdapter.cpp:3527-3543 | after a disable the modem locks mobile originated requests until the next enable, whatever else happens |
| `GpsLock.LateControlLocks` | gps/gnss/GnssAdapter.cpp:5508-5524 | a concrete run in which NFW control, issued before an update and processed after it, locks what is enabled |
| `GpsLock.LockFollowsHistory` | gps/gnss/GnssAdapter.cpp:3474-3543 | in every run of commands processed when issued, the modem's lock bit by bit from the history: nothing while location is enabled and NFW control given up; else the NI bit last asked for by NFW control, and MO while disabled if configured, after an update or after a disable |
| `GpsLock.ControlSetsNi` | gps/gnss/GnssAdapter.cpp:5508-5524 | allowing network-initiated location clears the NI bit at the modem, forbidding it sets it, and the other bits are as configured |
| `GpsLock.ControlHolds` | gps/gnss/GnssAdapter.cpp:5508-5524 | and the bit stays so, whatever is issued, until the next control or update |
| `GpsLock.OthersChangeNothing` | gps/gnss/GnssAdapter.cpp:3476-3480 | enabling changes nothing while somebody owns location or for another technology, nor does disabling by anybody but the owner |
| `GpsLock.EnableTakesOver` | gps/gnss/GnssAdapter.cpp:3481-3492 | enabling while nobody owns location makes the session its owner and spares mobile originated requests |
| `GpsLock.OwnedUntilDisabled` | gps/gnss/GnssAdapter.cpp:3474-3543 | location stays its owner's until the owner disables it |
| `Odcpi.RunIsThrottled` | gps/gnss/GnssAdapter.cpp:4554-4601 | over every run, stops and modem restarts included: an active request has a running timer and a listener, and between two starts there is a handled expiry unless the later one upgrades the stored request to emergency |
| `Odcpi.HeldRequestIsServed` | gps/gnss/GnssAdapter.cpp:4708-4721 | the latest START, sent at once or held back, is sent again by the next expiry until stopped |
| `Odcpi.AlternationIsNotThrottled` | gps/gnss/GnssAdapter.cpp:4572-4580 | alternating calm and emergency requests start the framework any number of times without an expiry |
| `Odcpi.AskedIsAnswered` | gps/gnss/GnssAdapter.cpp:4554-4601 | over every run: a START is passed on at once if and only if an expiry has followed every start, or it is an emergency and the latest START was not; a STOP always is; other requests, and those nobody listens to, never are |
| `Odcpi.StoppedIsQuiet` | gps/gnss/GnssAdapter.cpp:4708-4721 | after a STOP or a modem restart expiries send nothing until the next START |
| `Odcpi.HighestListens` | gps/gnss/GnssAdapter.cpp:4646-4656 | the callback in use is the latest registered at the highest priority registered so far |
| `GeofenceProofs.RunIsLinked` | gps/geofence/GeofenceAdapter.cpp:50-176 | over every run: each entry points to the fence with its key, keys are distinct, a fence without an entry is one whose client was removed, and the fences are those the engine monitors |
| `GeofenceProofs.RestartKeepsView` | gps/geofence/GeofenceAdapter.cpp:141-176 | when every re-add succeeds, a restart keeps the map from key to shape if and only if no fence is an orphan |
| `GeofenceProofs.RestartsKeepView` | gps/geofence/GeofenceAdapter.cpp:141-176 | any number of such restarts keeps it |
| `GeofenceProofs.ReaddedView` | gps/geofence/GeofenceAdapter.cpp:152-176 | with failures, exactly the fences whose re-adding was accepted are kept |
| `GeofenceProofs.RemoveUndoesAdd` | gps/geofence/GeofenceAdapter.cpp:644-686 | removing a fence just added restores the state |
| `GeofenceProofs.StoppedLeavesRefused` | gps/geofence/GeofenceAdapter.cpp:50-78 | a removed client leaves behind exactly the fences the engine refused to remove |
| `GeofenceProofs.RestartForgetsPauses` | gps/geofence/GeofenceAdapter.cpp:162-175 | after a restart the adapter's paused flags are all clear, and right if and only if nothing re-added was paused |
| `GeofenceProofs.RunKeepsPausedAlike` | gps/geofence/GeofenceAdapter.cpp:688-709 | over every run whose restarts re-add no paused fence the engine pauses exactly the fences the adapter holds as paused |
| `GeofenceProofs.WithoutRestarts` | gps/geofence/GeofenceAdapter.cpp:688-709 | in particular over every run without a restart |
| `GeofenceProofs.RunHoldsOrders` | gps/geofence/GeofenceAdapter.cpp:644-724 | over every run without a restart the two maps hold exactly what was ordered, fence by fence, the breach mask, responsiveness and dwell time of modifications included, and the engine pauses accordingly |
| `GeofenceProofs.SecondRestartResumesAll` | gps/geofence/GeofenceAdapter.cpp:162-175 | after two restarts the engine monitors every fence, paused or not |
| `GeofenceProofs.MineIsSubsequence` | gps/geofence/GeofenceAdapter.cpp:796-806 | a client's ids are the order-preserving subsequence of the report at exactly the positions it owns |
| `GeofenceProofs.DeliveriesPartition` | gps/geofence/GeofenceAdapter.cpp:786-818 | summed over clients with a callback, the ids delivered are as many as the reported ids those clients own |
| `GeofenceProofs.NoticesAreOwn` | gps/geofence/GeofenceAdapter.cpp:807-816 | a client is told if and only if it has a callback and owns a reported fence, and then of its own ids only |
| `GeofenceHandlers.GeofenceAdapter.GetHwIdFromClient` | gps/geofence/GeofenceAdapter.cpp:96-106 | lookup by key |
| `GeofenceHandlers.GeofenceAdapter.GetGeofenceKeyFromHwId` | gps/geofence/GeofenceAdapter.cpp:108-117 | lookup by hardware id |
| `GeofenceHandlers.GeofenceAdapter.SaveGeofenceItem` | gps/geofence/GeofenceAdapter.cpp:644-661 | both maps after saving |
| `GeofenceHandlers.GeofenceAdapter.RemoveGeofenceItem` | gps/geofence/GeofenceAdapter.cpp:663-686 | both maps after removing, or unchanged |
| `GeofenceHandlers.GeofenceAdapter.RemoveGeofence` | gps/geofence/GeofenceAdapter.cpp:346-360 | a removal by client id that the engine accepts |
| `GeofenceHandlers.GeofenceAdapter.PauseGeofence` | gps/geofence/GeofenceAdapter.cpp:421-436 | a pause or resumption that the engine accepts |
| `GeofenceHandlers.GeofenceAdapter.ModifyGeofence` | gps/geofence/GeofenceAdapter.cpp:712-724 | a modification leaves key, position, radius and pause |
| `GeofenceHandlers.GeofenceAdapter.StopClientSessions` | gps/geofence/GeofenceAdapter.cpp:50-78 | erasing during the walk removes exactly the client's entries, and the fences whose removal is accepted |
| `GeofenceHandlers.GeofenceAdapter.RestartGeofences` | gps/geofence/GeofenceAdapter.cpp:141-176 | both maps rebuilt from the replies |
| `GeofenceHandlers.GeofenceAdapter.GeofenceBreach` | gps/geofence/GeofenceAdapter.cpp:786-818 | one notice for each client with a callback and a fence reported, in client order |
| `GeofenceHandlers.GeofenceAdapter.FillClientIds` | gps/geofence/GeofenceAdapter.cpp:791-806 | the buffer filled by index holds the client's ids |
| `StatusHistory.HistoryIsNewest` | gps/core/SystemStatus.cpp:1346-1373 | for every stream of reports the vector is the newest five entries of the unbounded log with ignored items left out and repeats collapsed |
| `StatusHistory.LatestIsKept` | gps/core/SystemStatus.cpp:1346-1383 | the last entry tells what the latest counted report said and when |
| `StatusHistory.HistoryTells` | gps/core/SystemStatus.cpp:1346-1383 | for every stream, defaults and ignored reports included: the vector has an entry for each of the newest five reports that begin one, and each tells what its group of reports said and when |
| `StatusHistory.EntriesDiffer` | gps/core/SystemStatus.cpp:1346-1364 | without defaults neighbouring entries differ and none is ignored |
| `NmeaTokenizer.TokensRebuild` | gps/core/SystemStatus.cpp:66-83 | fields each followed by a comma, then the leftover, rebuild the sentence with its first asterisk replaced; no field holds a comma and there is one more than the sentence has commas |
| `NmeaTokenizer.SplitUndoesJoin` | gps/core/SystemStatus.cpp:73-83 | splitting what was joined from comma-free fields gives them back |
| `NmeaTokenizer.SentenceIsParsed` | gps/core/SystemStatus.cpp:56-84 | a well-formed sentence is cut into exactly its fields, its checksum dropped |
| `NmeaTokenizer.CutExactly` | gps/core/SystemStatus.cpp:56-64 | a sentence is cut if and only if it has 6 to 4096 characters, starts with $PQW and holds an asterisk |
| `NmeaTokenizer.SystemStatusNmeaBase.constructor` | gps/core/SystemStatus.cpp:56-84 | the loop ends with exactly the sentence's fields |
| `AdapterArray.RunIsSound` | gps/core/LocApiBase.cpp:230-275 | over any sequence of adds and removes the array has no holes and no repetitions and holds the same adapters as a set of at most ten |
| `AdapterArray.ClosedWhenEmpty` | gps/core/LocApiBase.cpp:265-272 | a close is sent if and only if the last adapter goes, and the last message is a close if and only if the array is empty |
| `AdapterArray.ChangesAreAnswered` | gps/core/LocApiBase.cpp:230-275 | every change of the set is answered by one message and nothing else is: an arrival opens the modem for the newcomer, the last departure closes it, any other one opens it again |
| `AdapterArray.EventMaskMeaning` | gps/core/LocApiBase.cpp:167-174 | the event mask has exactly the bits some adapter asks for and none is excluded |
| `AdapterArray.LocApiBase.AddAdapter` | gps/core/LocApiBase.cpp:230-239 | first free slot, unless present or full |
| `AdapterArray.LocApiBase.RemoveAdapter` | gps/core/LocApiBase.cpp:241-275 | the hole is closed by the last adapter, the right message is sent and the shared index ends both loops |
| `AdapterArray.LocApiBase.CloseHole` | gps/core/LocApiBase.cpp:247-264 | in place: the last adapter takes the hole |
| `AdapterArray.LocApiBase.GetEvtMask` | gps/core/LocApiBase.cpp:167-174 | the loop over the filled slots computes the union without the excluded bits |

## Left out

- Batching sessions that are not trips, the batch-full event mask and the responses to batching clients.
- Trips across a modem restart: the original resets copies of the counters (gps/batching/BatchingAdapter.cpp:216-233), so nothing is kept.
- A query that fails for a joining trip leaves the session out although the client is answered; the model follows this, and no property is claimed for that client.
- Use of a map element after its erasure (trip report loop, set-map trimming, set intersection): the model has value semantics.
- Positions batched are not counted; only distances are.
- Tracking requests that the modem refuses, the responses to tracking clients, and the choice of callbacks a client needs.
- The power mode over runs in which a session gives none, or while an NHz engine is served: what the loops find is proved, including that a mode that is not given can hide the others.
- The map handlers without loops in the tracking, lock, position-injection and history classes follow their step functions and have no row of their own.
- Distance-based sessions are filed and removed; what the modem does with them is not modelled.
- Commands put off until engine capabilities are known are modelled as arriving later.
- Data item contents are an integer compared for equality; whether the status cache records an item is an input; null items are not passed.
- The framework's turn-on, turn-off and backhaul requests in SystemStatusOsObserver.
- AGPS: APN, bearer, server and type data passed along, and `waitForClose`, which the manager always sets to false, is still covered by the machine.
- A data connection request that no machine can serve is only recorded as refused.
- GPS lock: the status passed to the XTRA observer, the modem power vote, and all other configuration values.
- ODCPI: the contents of a request beyond type, interval and emergency, and the positions injected.
- Geofences: status and dwell events, responses to clients, and floating point (positions are reals that are only copied).
- Geofence keys are compared for equality only; the walking order of the maps is an input.
- Status items whose `collate` is overridden, the fields of each status item, and the clock that stamps them; `equals` is equality of the fields it reads.
- A C string's terminating NUL: sentences are strings without it; converting fields to numbers is not modelled.
- The adapters' own event masks are inputs; what opening or closing the modem does is not modelled.
- Configuration updates: only their lock part.
- Threads, message queues, files, sockets, NMEA generation, position conversion and NI handling are not part of this model.
