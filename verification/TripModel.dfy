// Outdoor-trip multiplexing: the handlers of BatchingAdapter as functions of the adapter's fields,
// and the road the device travels while they run.
//
// Many trip sessions share one distance counter in the modem, and the adapter restarts that counter
// whenever a session needs a tighter setting.  Three counters per session rebase the shared one.
module TripModel {
  import opened Word32

  // TripSessionStatus
  datatype Trip = Trip(
    ongoingBatch: u32,   // accumulatedDistanceOngoingBatch
    thisTrip: u32,       // accumulatedDistanceThisTrip
    onRestart: u32,      // accumulatedDistanceOnTripRestart
    tripDistance: u32,
    tbf: u32)            // tripTBFInterval

  datatype Setting = Setting(distance: u32, tbf: u32)

  // What a reply handler asks of the modem, if anything.
  datatype Restart = NoRestart | RestartWith(setting: Setting)

  datatype Adapter = Adapter(
    trips: map<u32, Trip>,
    ongoing: Setting,        // mOngoingTripDistance, mOngoingTripTBFInterval
    tbfDropped: bool,        // mTripWithOngoingTBFDropped
    distanceDropped: bool)   // mTripWithOngoingTripDistanceDropped

  const IDLE := Setting(0, 0)
  const INITIAL := Adapter(map[], IDLE, false, false)

  // ---- the three ways a handler rewrites one session's counters ----

  function Counted(t: Trip, reading: u32): Trip {
    t.(thisTrip := Add(t.onRestart, Sub(reading, t.ongoingBatch)))
  }

  function Folded(t: Trip): Trip {
    t.(ongoingBatch := 0, onRestart := t.thisTrip)
  }

  function Rebased(t: Trip, reading: u32): Trip {
    Folded(Counted(t, reading))
  }

  function CountAll(trips: map<u32, Trip>, reading: u32): map<u32, Trip> {
    map k | k in trips :: Counted(trips[k], reading)
  }

  function FoldAll(trips: map<u32, Trip>): map<u32, Trip> {
    map k | k in trips :: Folded(trips[k])
  }

  function RebaseAll(trips: map<u32, Trip>, reading: u32): map<u32, Trip> {
    map k | k in trips :: Rebased(trips[k], reading)
  }

  // ---- startTripBatchingMultiplex ----

  function StartFirst(a: Adapter, id: u32, want: Setting, accepted: bool): Adapter {
    if accepted then a.(trips := a.trips[id := Trip(0, 0, 0, want.distance, want.tbf)], ongoing := want)
    else a.(trips := a.trips - {id})
  }

  // What the query reply decides for a session that joins others.
  function JoinRestart(ongoing: Setting, want: Setting, queryOk: bool, reading: u32): Restart {
    var tighter := want.tbf < ongoing.tbf;
    var tbf := if tighter then want.tbf else ongoing.tbf;
    if !queryOk then
      if want.distance < ongoing.distance then RestartWith(Setting(want.distance, tbf))
      else if tighter then RestartWith(Setting(ongoing.distance, tbf)) else NoRestart
    else
      var remaining := Sub(ongoing.distance, reading);
      if want.distance < remaining then RestartWith(Setting(want.distance, tbf))
      else if tighter then RestartWith(Setting(remaining, tbf)) else NoRestart
  }

  // The query reply of a session that joins others.  A failed query leaves the session out.
  function Join(a: Adapter, id: u32, want: Setting, queryOk: bool, reading: u32): Adapter {
    var trips := if queryOk then a.trips[id := Trip(reading, 0, 0, want.distance, want.tbf)] else a.trips;
    match JoinRestart(a.ongoing, want, queryOk, reading)
    case NoRestart => a.(trips := trips)
    case RestartWith(s) => a.(trips := FoldAll(trips), ongoing := s)
  }

  // ---- restartTripBatching ----

  ghost predicate IsLeast(k: u32, s: set<u32>) {
    k in s && forall j :: j in s ==> k <= j
  }

  lemma LeastExists(s: set<u32>)
    requires s != {}
    ensures exists k :: IsLeast(k, s)
  {
    var x :| x in s;
    if s == {x} {
      assert IsLeast(x, s);
    } else {
      LeastExists(s - {x});
      var k :| IsLeast(k, s - {x});
      var least := if k < x then k else x;
      assert forall j :: j in s ==> j == x || j in s - {x};
      assert IsLeast(least, s);
    }
  }

  // std::map is walked in ascending key order.
  ghost function Least(s: set<u32>): (k: u32)
    requires s != {}
    ensures IsLeast(k, s)
  {
    LeastExists(s);
    var k :| IsLeast(k, s);
    k
  }

  function Remaining(t: Trip): u32 {
    Sub(t.tripDistance, t.thisTrip)
  }

  // One iteration of the loop over the sessions; zero stands for "not set yet".
  function Tighten(best: Setting, t: Trip): Setting {
    Setting(
      if best.distance == 0 || Remaining(t) < best.distance then Remaining(t) else best.distance,
      if best.tbf == 0 || t.tbf < best.tbf then t.tbf else best.tbf)
  }

  ghost function TightestFrom(trips: map<u32, Trip>, todo: set<u32>, best: Setting): Setting
    requires todo <= trips.Keys
    decreases |todo|
  {
    if todo == {} then best
    else TightestFrom(trips, todo - {Least(todo)}, Tighten(best, trips[Least(todo)]))
  }

  ghost function Tightest(trips: map<u32, Trip>): Setting {
    TightestFrom(trips, trips.Keys, IDLE)
  }

  // The query reply of restartTripBatching shortens the distance: against what is left of the ongoing
  // one, or, when that is used up or its trip is gone, to whatever remains.
  predicate ByDistance(a: Adapter, tightest: Setting, reading: u32) {
    var left := Sub(a.ongoing.distance, reading);
    if !a.distanceDropped && left != 0 then tightest.distance < left else tightest.distance != 0
  }

  // It changes the interval: to a shorter one, or to another one when the trip that asked for it is gone.
  predicate ByInterval(a: Adapter, tightest: Setting) {
    tightest.tbf < a.ongoing.tbf || (tightest.tbf != a.ongoing.tbf && a.tbfDropped)
  }

  // What it asks of the modem, given the minima captured before the query.
  function Retune(a: Adapter, tightest: Setting, reading: u32): Restart {
    if ByDistance(a, tightest, reading) || ByInterval(a, tightest) then
      RestartWith(Setting(if ByDistance(a, tightest, reading) then tightest.distance else a.ongoing.distance,
                          if ByInterval(a, tightest) then tightest.tbf else a.ongoing.tbf))
    else NoRestart
  }

  // The reply to reStartOutdoorTripBatching inside restartTripBatching.
  function Retuned(a: Adapter, r: Restart, reading: u32, accepted: bool): Adapter {
    if r.RestartWith? && accepted then a.(trips := RebaseAll(a.trips, reading), ongoing := r.setting)
    else a
  }

  ghost function RestartTrips(a: Adapter, reading: u32, accepted: bool): Adapter {
    if a.trips == map[] then a.(ongoing := IDLE)
    else Retuned(a, Retune(a, Tightest(a.trips), reading), reading, accepted)
  }

  // ---- stopTripBatchingMultiplexCommon ----

  function Erase(a: Adapter, id: u32): Adapter
    requires id in a.trips
  {
    a.(trips := a.trips - {id},
       tbfDropped := a.tbfDropped || a.trips[id].tbf == a.ongoing.tbf,
       distanceDropped := a.distanceDropped || a.trips[id].tripDistance == a.ongoing.distance)
  }

  ghost function Stop(a: Adapter, id: u32, reading: u32, accepted: bool): Adapter
    requires id in a.trips
  {
    RestartTrips(Erase(a, id), reading, accepted)
  }

  // ---- an update of a session while others are live: its stop and its start overlap ----

  // The restart the stop asks for, when its query is answered with `first`.
  ghost function StopsRestart(a: Adapter, id: u32, first: u32): Restart
    requires id in a.trips
  {
    Retune(Erase(a, id), Tightest(Erase(a, id).trips), first)
  }

  // Both queries are answered before the stop's restart is: `first` for the stop, `second` for the start.
  ghost function UpdateTrip(a: Adapter, id: u32, want: Setting, first: u32, accepted: bool,
                            queryOk: bool, second: u32): Adapter
    requires id in a.trips
  {
    Retuned(Join(Erase(a, id), id, want, queryOk, second), StopsRestart(a, id, first), first, accepted)
  }

  // ---- MsgReportCompletedTrips::proc ----

  ghost function Completed(a: Adapter, reading: u32): set<u32> {
    set k | k in a.trips && a.trips[k].tripDistance <= Counted(a.trips[k], reading).thisTrip
  }

  ghost function Drop(a: Adapter, reading: u32): Adapter {
    var gone := Completed(a, reading);
    a.(trips := CountAll(a.trips, reading) - gone,
       tbfDropped := a.tbfDropped || exists k :: k in gone && a.trips[k].tbf == a.ongoing.tbf,
       distanceDropped := a.distanceDropped || exists k :: k in gone && a.trips[k].tripDistance == a.ongoing.distance)
  }

  ghost function Report(a: Adapter, reading: u32, accepted: bool): Adapter {
    if Completed(a, reading) == {} then Drop(a, reading)
    else RestartTrips(Drop(a, reading), reading, accepted)
  }
}
