// When trips are noticed.  The modem reports by itself once its counter reaches the distance it was
// started with; the sessions are served on time if that is exactly where the first of them completes.
module TripTimely {
  import opened Word32
  import opened TripModel
  import opened TripRoad
  import opened TripCovers

  // Where the modem's counter completes the session.
  function Ends(t: Trip): int {
    t.tripDistance + t.ongoingBatch - t.onRestart
  }

  // What the last recorded count leaves of the trip.
  function Remains(t: Trip): int {
    t.tripDistance - t.thisTrip
  }

  ghost predicate Upto(distance: u32, trips: map<u32, Trip>) {
    forall k :: k in trips ==> distance <= Ends(trips[k])
  }

  ghost predicate Attained(distance: u32, trips: map<u32, Trip>) {
    exists k :: k in trips && distance == Ends(trips[k])
  }

  // The distance is where the first of the sessions completes.
  ghost predicate Meets(distance: u32, trips: map<u32, Trip>) {
    Upto(distance, trips) && (trips != map[] ==> Attained(distance, trips))
  }

  ghost predicate OnTime(w: World) {
    Meets(w.modem.distance, w.a.trips)
  }

  // ---- what it means for the reports ----

  lemma CompletedFromEnds(w: World, reading: u32, k: u32)
    requires Books(w) && k in w.a.trips
    requires w.r.batchStart + reading <= w.r.odometer && w.a.trips[k].ongoingBatch <= reading
    ensures k in Completed(w.a, reading) <==> Ends(w.a.trips[k]) <= reading
  {
    CompletedExactly(w, reading, k);
    EndsOnTheRoad(w, k);
  }

  // The road's place where a session completes lies as far past its start as it asked for, plus what its
  // counters missed.
  lemma EndsOnTheRoad(w: World, k: u32)
    requires Books(w) && k in w.a.trips
    ensures w.r.batchStart + Ends(w.a.trips[k]) ==
            w.r.ledger[k].startedAt + w.r.ledger[k].lost + w.a.trips[k].tripDistance
  {
    assert Balanced(w.a.trips[k], w.r.ledger[k], w.r);
  }

  // On time means: one metre before the modem reports by itself no session is complete, and there one is.
  lemma OnTimeExactly(w: World)
    requires Books(w) && w.a.trips != map[] && 0 < w.modem.distance
    requires w.r.batchStart + w.modem.distance <= w.r.odometer
    requires forall k :: k in w.a.trips ==> w.a.trips[k].ongoingBatch < w.modem.distance
    ensures OnTime(w) <==> Completed(w.a, w.modem.distance - 1) == {} && Completed(w.a, w.modem.distance) != {}
  {
    var d := w.modem.distance;
    forall k | k in w.a.trips
      ensures k in Completed(w.a, d - 1) <==> Ends(w.a.trips[k]) <= d - 1
      ensures k in Completed(w.a, d) <==> Ends(w.a.trips[k]) <= d
    {
      CompletedFromEnds(w, d - 1, k);
      CompletedFromEnds(w, d, k);
    }
    assert forall k :: k in Completed(w.a, d - 1) || k in Completed(w.a, d) ==> k in w.a.trips;
  }

  // The report the modem sends by itself completes exactly the sessions that end there, at least one.
  lemma OwnReportCompletes(w: World)
    requires Books(w) && OnTime(w)
    requires w.r.batchStart + w.modem.distance <= w.r.odometer
    requires forall k :: k in w.a.trips ==> w.a.trips[k].ongoingBatch <= w.modem.distance
    ensures var gone := Completed(w.a, w.modem.distance);
            && (forall k :: k in gone <==> k in w.a.trips && Ends(w.a.trips[k]) == w.modem.distance)
            && (w.a.trips != map[] ==> gone != {})
  {
    forall k | k in w.a.trips
      ensures k in Completed(w.a, w.modem.distance) <==> Ends(w.a.trips[k]) == w.modem.distance
    {
      CompletedFromEnds(w, w.modem.distance, k);
    }
  }

  // ---- folding and counting ----

  // It is what the recorded count leaves of some trip.
  ghost predicate Recorded(distance: u32, trips: map<u32, Trip>) {
    exists k :: k in trips && distance == Remains(trips[k])
  }

  // The distance is the least that the recorded counts leave.
  ghost predicate LeastLeft(distance: u32, trips: map<u32, Trip>) {
    && (forall k :: k in trips ==> distance <= Remains(trips[k]))
    && (trips != map[] ==> Recorded(distance, trips))
  }

  lemma FoldedMeets(distance: u32, trips: map<u32, Trip>)
    requires forall k :: k in trips ==> trips[k].ongoingBatch == 0 && trips[k].onRestart == trips[k].thisTrip
    ensures Meets(distance, trips) <==> LeastLeft(distance, trips)
  {
    forall k | k in trips
      ensures Ends(trips[k]) == Remains(trips[k])
    {
    }
  }

  // After a restart the sessions are on time exactly when the modem was given the least recorded rest.
  lemma FoldMeets(distance: u32, trips: map<u32, Trip>)
    ensures Meets(distance, FoldAll(trips)) <==> LeastLeft(distance, trips)
  {
    FoldedMeets(distance, FoldAll(trips));
    assert trips.Keys == FoldAll(trips).Keys;
    forall k | k in trips
      ensures k in FoldAll(trips) && Remains(FoldAll(trips)[k]) == Remains(trips[k])
    {
    }
  }

  lemma RebaseMeets(distance: u32, trips: map<u32, Trip>, reading: u32)
    ensures Meets(distance, RebaseAll(trips, reading)) <==> LeastLeft(distance, CountAll(trips, reading))
  {
    FoldMeets(distance, CountAll(trips, reading));
    assert RebaseAll(trips, reading) == FoldAll(CountAll(trips, reading));
  }

  // Recording a reading moves no session's end.
  lemma CountMeets(distance: u32, trips: map<u32, Trip>, reading: u32)
    ensures Meets(distance, CountAll(trips, reading)) <==> Meets(distance, trips)
  {
    var counted := CountAll(trips, reading);
    assert trips.Keys == counted.Keys;
    forall k | k in trips
      ensures k in counted && Ends(counted[k]) == Ends(trips[k])
    {
    }
  }

  // Sessions that leave take their ends with them.
  lemma LeaveMeets(distance: u32, trips: map<u32, Trip>, ids: set<u32>)
    requires Upto(distance, trips)
    ensures Upto(distance, trips - ids)
  {
    forall k | k in trips - ids
      ensures distance <= Ends((trips - ids)[k])
    {
      assert k in trips;
    }
  }

  lemma EnterMeets(distance: u32, trips: map<u32, Trip>, id: u32, t: Trip)
    requires Upto(distance, trips) && id !in trips
    ensures Meets(distance, trips[id := t]) <==>
            distance <= Ends(t) && (Attained(distance, trips) || distance == Ends(t))
  {
    var all := trips[id := t];
    assert id in all && forall k :: k in trips ==> k in all && all[k] == trips[k];
  }

  // ---- joining ----

  // What the adapter takes the modem to have left to count: without an answer, all of it.
  function Left(ongoing: Setting, queryOk: bool, reading: u32): u32 {
    if queryOk then Sub(ongoing.distance, reading) else ongoing.distance
  }

  // A joining session restarts the modem exactly when it asks for less distance than is left or for a
  // shorter interval, and then with the smaller of either.
  lemma JoinAsksForLeast(ongoing: Setting, want: Setting, queryOk: bool, reading: u32)
    ensures var restart, left := JoinRestart(ongoing, want, queryOk, reading), Left(ongoing, queryOk, reading);
            && (restart.NoRestart? <==> left <= want.distance && ongoing.tbf <= want.tbf)
            && (restart.RestartWith? ==>
                  restart.setting == Setting(Min(left, want.distance), Min(ongoing.tbf, want.tbf)))
  {
  }

  function JoinDistance(a: Adapter, want: Setting, queryOk: bool, reading: u32): u32 {
    Min(Left(a.ongoing, queryOk, reading), want.distance)
  }

  // The session that joins without a restart completes no earlier than the modem reports.
  predicate JoinFits(distance: u32, want: Setting, queryOk: bool, reading: u32) {
    queryOk ==> distance <= reading + want.distance
  }

  ghost predicate JoinIsPunctual(w: World, e: Event)
    requires e.StartJoin?
  {
    if !Restarts(w, e) then JoinFits(w.modem.distance, e.want, e.queryOk, e.reading)
    else if e.accepted then LeastLeft(JoinDistance(w.a, e.want, e.queryOk, e.reading), TripsJoined(w, e))
    else LeastLeft(w.modem.distance, TripsJoined(w, e))
  }

  lemma JoinStepIsOnTime(w: World, e: Event)
    requires Books(w) && Possible(w, e) && e.StartJoin? && OnTime(w)
    ensures OnTime(Step(w, e)) <==> JoinIsPunctual(w, e)
  {
    JoinAsksForLeast(w.a.ongoing, e.want, e.queryOk, e.reading);
    FoldMeets(Step(w, e).modem.distance, TripsJoined(w, e));
    EnterMeets(w.modem.distance, w.a.trips, e.id, Trip(e.reading, 0, 0, e.want.distance, e.want.tbf));
  }

  // A recorded count may lag behind the modem's counter, never run ahead of it: what the modem has left
  // is no more than what the counts leave of any trip.
  lemma LeftIsWithin(w: World, reading: u32, before: nat)
    requires Books(w) && Upto(w.modem.distance, w.a.trips) && Shows(w, reading, before)
    ensures forall k :: k in w.a.trips ==> w.modem.distance - reading <= Remains(w.a.trips[k])
  {
    forall k | k in w.a.trips
      ensures w.modem.distance - reading <= Remains(w.a.trips[k])
    {
      assert Balanced(w.a.trips[k], w.r.ledger[k], w.r);
    }
  }

  lemma LeastOfJoined(trips: map<u32, Trip>, id: u32, t: Trip, left: u32)
    requires id !in trips && t.thisTrip == 0 && forall k :: k in trips ==> left <= Remains(trips[k])
    ensures LeastLeft(Min(left, t.tripDistance), trips[id := t]) <==>
            t.tripDistance <= left || Recorded(left, trips)
  {
    var all := trips[id := t];
    assert id in all && all[id] == t && forall k :: k in trips ==> k in all && all[k] == trips[k];
  }

  // A session that joins without restarting the modem leaves everybody on time.
  lemma QuietJoinIsOnTime(w: World, e: Event)
    requires Books(w) && Possible(w, e) && e.StartJoin? && OnTime(w) && w.a.ongoing == w.modem
    requires e.queryOk && e.reading <= w.modem.distance && !Restarts(w, e)
    ensures OnTime(Step(w, e))
  {
    JoinAsksForLeast(w.a.ongoing, e.want, true, e.reading);
    JoinStepIsOnTime(w, e);
  }

  // One that restarts it does so exactly when it is itself the next to complete, or when the session that
  // is next has nothing travelled that is not recorded.
  lemma JoinIsOnTime(w: World, e: Event)
    requires Books(w) && Possible(w, e) && e.StartJoin? && OnTime(w) && w.a.ongoing == w.modem
    requires e.queryOk && e.accepted && e.reading <= w.modem.distance && Restarts(w, e)
    ensures var left := w.modem.distance - e.reading;
            OnTime(Step(w, e)) <==> e.want.distance <= left || Recorded(left, w.a.trips)
  {
    JoinStepIsOnTime(w, e);
    JoinPunctualExactly(w, e, w.modem.distance - e.reading);
  }

  lemma JoinPunctualExactly(w: World, e: Event, left: u32)
    requires Books(w) && Upto(w.modem.distance, w.a.trips) && e.StartJoin? && e.id !in w.a.trips
    requires e.queryOk && e.accepted && Restarts(w, e) && Shows(w, e.reading, e.before)
    requires left == w.modem.distance - e.reading && w.a.ongoing == w.modem
    ensures JoinIsPunctual(w, e) <==> e.want.distance <= left || Recorded(left, w.a.trips)
  {
    assert Left(w.a.ongoing, true, e.reading) == left;
    LeftIsWithin(w, e.reading, e.before);
    LeastOfJoined(w.a.trips, e.id, Trip(e.reading, 0, 0, e.want.distance, e.want.tbf), left);
  }

  // So it always does while the device stands still and every session's count is up to date.
  lemma PromptJoinIsOnTime(w: World, e: Event)
    requires Books(w) && Legal(w, e) && e.StartJoin? && OnTime(w) && w.a.ongoing == w.modem
    requires e.queryOk && e.accepted && e.reading <= w.modem.distance && Restarts(w, e) && Prompt(w, e)
    ensures OnTime(Step(w, e))
  {
    UpToDateIsRecorded(w, e.reading);
    JoinIsOnTime(w, e);
  }

  lemma UpToDateIsRecorded(w: World, reading: u32)
    requires Books(w) && OnTime(w) && w.a.trips != map[] && UpToDate(w)
    requires w.r.batchStart + reading == w.r.odometer && reading <= w.modem.distance
    ensures Recorded(w.modem.distance - reading, w.a.trips)
  {
    var k :| k in w.a.trips && w.modem.distance == Ends(w.a.trips[k]);
    assert Balanced(w.a.trips[k], w.r.ledger[k], w.r) && w.r.ledger[k].seenAt == w.r.odometer;
    assert w.modem.distance - reading == Remains(w.a.trips[k]);
  }

  // ---- stopping and reporting ----

  // After restartTripBatching: the chosen distance is the least that the sessions have left at its
  // reading, or, without a restart, some remaining session ends where the modem reports.
  ghost predicate RetuneIsPunctual(a: Adapter, reading: u32, accepted: bool, distance: u32) {
    a.trips != map[] ==>
      var restart := Retune(a, Tightest(a.trips), reading);
      if restart.RestartWith? && accepted then LeastLeft(restart.setting.distance, CountAll(a.trips, reading))
      else Attained(distance, a.trips)
  }

  lemma RetuneMeets(a: Adapter, reading: u32, accepted: bool, modem: Setting)
    requires Upto(modem.distance, a.trips)
    ensures Meets(ModemRetuned(a, reading, accepted, modem).distance, RestartTrips(a, reading, accepted).trips) <==>
            RetuneIsPunctual(a, reading, accepted, modem.distance)
  {
    if a.trips != map[] {
      RebaseMeets(ModemRetuned(a, reading, accepted, modem).distance, a.trips, reading);
    }
  }

  lemma StopIsOnTime(w: World, e: Event)
    requires Books(w) && Possible(w, e) && e.StopTrip? && OnTime(w)
    ensures OnTime(Step(w, e)) <==> RetuneIsPunctual(Erase(w.a, e.id), e.reading, e.accepted, w.modem.distance)
  {
    LeaveMeets(w.modem.distance, w.a.trips, {e.id});
    RetuneMeets(Erase(w.a, e.id), e.reading, e.accepted, w.modem);
  }

  ghost predicate ReportIsPunctual(w: World, e: Event)
    requires e.Distance?
  {
    || Completed(w.a, e.reading) == {}
    || RetuneIsPunctual(Drop(w.a, e.reading), e.reading, e.accepted, w.modem.distance)
  }

  lemma ReportIsOnTime(w: World, e: Event)
    requires Books(w) && Possible(w, e) && e.Distance? && OnTime(w)
    ensures OnTime(Step(w, e)) <==> ReportIsPunctual(w, e)
  {
    var gone := Completed(w.a, e.reading);
    CountMeets(w.modem.distance, w.a.trips, e.reading);
    LeaveMeets(w.modem.distance, CountAll(w.a.trips, e.reading), gone);
    if gone == {} {
      assert CountAll(w.a.trips, e.reading) - gone == CountAll(w.a.trips, e.reading);
    } else {
      RetuneMeets(Drop(w.a, e.reading), e.reading, e.accepted, w.modem);
    }
  }

  // The restart asks for the tightest distance: the trip that asked for the ongoing one is gone, or nothing
  // or more than the tightest is left of it; or the interval changes and the ongoing one is the tightest.
  predicate RestartsExactly(a: Adapter, tightest: Setting, reading: u32) {
    var left := Sub(a.ongoing.distance, reading);
    || a.distanceDropped || left == 0 || tightest.distance < left
    || (IntervalChanges(a, tightest) && a.ongoing.distance == tightest.distance)
  }

  predicate IntervalChanges(a: Adapter, tightest: Setting) {
    tightest.tbf < a.ongoing.tbf || (a.ongoing.tbf < tightest.tbf && a.tbfDropped)
  }

  // What restartTripBatching asks of the modem.  The ongoing distance stands while the trip that asked for
  // it is live and no session needs less than what is left of it, and also when nothing is found to take
  // its place.  Nothing is asked for when both stand.
  lemma RetuneAsks(a: Adapter, tightest: Setting, reading: u32)
    ensures var restart, left := Retune(a, tightest, reading), Sub(a.ongoing.distance, reading);
            var stands := if a.distanceDropped || left == 0 then tightest.distance == 0
                          else left <= tightest.distance;
            && (restart.NoRestart? <==> stands && !IntervalChanges(a, tightest))
            && (restart.RestartWith? ==>
                  && restart.setting.distance == (if stands then a.ongoing.distance else tightest.distance)
                  && restart.setting.tbf == (if IntervalChanges(a, tightest) then tightest.tbf else a.ongoing.tbf))
  {
  }

  // After a report that completes somebody, the sessions that stay end beyond its reading, so the modem
  // has to be restarted; and their counts are up to date, so the tightest distance is always right.  What
  // fails are a refusal and a restart for the interval alone, unless the old distance happens to be the
  // tightest.
  lemma ReportPunctualExactly(w: World, e: Event)
    requires Books(w) && Possible(w, e) && e.Distance? && OnTime(w)
    ensures var a := Drop(w.a, e.reading);
            ReportIsPunctual(w, e) <==>
            || Completed(w.a, e.reading) == {} || a.trips == map[]
            || (e.accepted && RestartsExactly(a, Tightest(a.trips), e.reading))
  {
    if Completed(w.a, e.reading) != {} && Drop(w.a, e.reading).trips != map[] {
      DroppedIsCounted(w.a, e.reading);
      DroppedEndsBeyond(w, e);
      CountedRetune(Drop(w.a, e.reading), e.reading, e.accepted, w.modem.distance);
    }
  }

  lemma CountedRetune(a: Adapter, reading: u32, accepted: bool, distance: u32)
    requires a.trips != map[] && CountAll(a.trips, reading) == a.trips && !Attained(distance, a.trips)
    requires forall k :: k in a.trips ==> a.trips[k].thisTrip < a.trips[k].tripDistance && 0 < Remaining(a.trips[k])
    ensures RetuneIsPunctual(a, reading, accepted, distance) <==>
            accepted && RestartsExactly(a, Tightest(a.trips), reading)
  {
    var tightest := Tightest(a.trips);
    TightestIsMinimum(a.trips);
    MinimumIsLeast(a.trips, tightest.distance, tightest.distance);
    MinimumIsLeast(a.trips, tightest.distance, a.ongoing.distance);
  }

  // The device stands still and every count is up to date: a session has left what the road leaves.
  lemma UpToDateIsCounted(w: World, reading: u32, k: u32)
    requires Books(w) && Upto(w.modem.distance, w.a.trips) && UpToDate(w) && k in w.a.trips
    requires w.r.batchStart + reading == w.r.odometer && reading < w.modem.distance
    ensures Counted(w.a.trips[k], reading) == w.a.trips[k]
    ensures w.a.trips[k].thisTrip < w.a.trips[k].tripDistance && 0 < Remaining(w.a.trips[k])
  {
    var t, l := w.a.trips[k], w.r.ledger[k];
    assert Balanced(t, l, w.r) && l.seenAt == w.r.odometer;
    assert Sub(reading, t.ongoingBatch) == reading - t.ongoingBatch;
    assert w.modem.distance <= Ends(t);
  }

  // A stop before the modem reports, every count up to date, leaves everybody on time exactly when the
  // trip that leaves, or an earlier one, was asked for with the ongoing distance and the restart is
  // accepted; or the modem is not restarted and somebody left ends where it reports; or it is restarted
  // for the interval alone and the old distance is by chance the least that is left.
  lemma StopPunctualExactly(w: World, e: Event)
    requires Books(w) && Possible(w, e) && e.StopTrip? && OnTime(w) && w.a.ongoing == w.modem
    requires e.queryOk && e.before == 0 && UpToDate(w) && e.reading < w.modem.distance
    ensures var rest := Erase(w.a, e.id);
            var tightest := Tightest(rest.trips);
            OnTime(Step(w, e)) <==>
            || rest.trips == map[]
            || (if e.accepted && (rest.distanceDropped || IntervalChanges(rest, tightest))
                then rest.distanceDropped || w.modem.distance == tightest.distance
                else Attained(w.modem.distance, rest.trips))
  {
    StopIsOnTime(w, e);
    var rest := Erase(w.a, e.id);
    if rest.trips != map[] {
      forall k | k in rest.trips
        ensures Counted(rest.trips[k], e.reading) == rest.trips[k]
        ensures rest.trips[k].thisTrip < rest.trips[k].tripDistance && 0 < Remaining(rest.trips[k])
      {
        UpToDateIsCounted(w, e.reading, k);
      }
      assert CountAll(rest.trips, e.reading) == rest.trips;
      LeftIsWithin(w, e.reading, 0);
      StandingRetune(rest, e.reading, e.accepted);
    }
  }

  lemma StandingRetune(a: Adapter, reading: u32, accepted: bool)
    requires a.trips != map[] && CountAll(a.trips, reading) == a.trips && reading < a.ongoing.distance
    requires forall k :: k in a.trips ==> a.trips[k].thisTrip < a.trips[k].tripDistance && 0 < Remaining(a.trips[k])
    requires forall k :: k in a.trips ==> a.ongoing.distance - reading <= Remains(a.trips[k])
    ensures var tightest := Tightest(a.trips);
            RetuneIsPunctual(a, reading, accepted, a.ongoing.distance) <==>
            if accepted && (a.distanceDropped || IntervalChanges(a, tightest))
            then a.distanceDropped || a.ongoing.distance == tightest.distance
            else Attained(a.ongoing.distance, a.trips)
  {
    var tightest := Tightest(a.trips);
    StandingTightest(a.trips, a.ongoing.distance - reading);
    StandingAsks(a, tightest, reading);
    assert LeastLeft(tightest.distance, a.trips);
    assert LeastLeft(a.ongoing.distance, a.trips) <==> a.ongoing.distance == tightest.distance;
  }

  lemma StandingTightest(trips: map<u32, Trip>, left: u32)
    requires trips != map[]
    requires forall k :: k in trips ==> trips[k].thisTrip < trips[k].tripDistance && 0 < Remaining(trips[k])
    requires forall k :: k in trips ==> left <= Remains(trips[k])
    ensures var tightest := Tightest(trips).distance;
            0 < tightest && left <= tightest && forall d: u32 :: LeastLeft(d, trips) <==> d == tightest
  {
    var tightest := Tightest(trips).distance;
    TightestIsMinimum(trips);
    forall d: u32
      ensures LeastLeft(d, trips) <==> d == tightest
    {
      MinimumIsLeast(trips, tightest, d);
    }
    var k :| k in trips && tightest == Remainders(trips)[k];
    RemainingIs(trips[k]);
  }

  lemma StandingAsks(a: Adapter, tightest: Setting, reading: u32)
    requires reading < a.ongoing.distance && 0 < tightest.distance && a.ongoing.distance - reading <= tightest.distance
    ensures var restart := Retune(a, tightest, reading);
            && (restart.RestartWith? <==> a.distanceDropped || IntervalChanges(a, tightest))
            && (restart.RestartWith? ==>
                  restart.setting.distance == if a.distanceDropped then tightest.distance else a.ongoing.distance)
  {
    RetuneAsks(a, tightest, reading);
  }

  // The modem's own report, of a distance that the adapter knows, leaves everybody on time if its restart
  // is accepted.
  lemma OwnReportIsOnTime(w: World, e: Event)
    requires Books(w) && Possible(w, e) && e.Distance? && OnTime(w) && w.a.ongoing == w.modem
    requires e.reading == w.modem.distance && e.accepted
    ensures OnTime(Step(w, e))
  {
    ReportIsOnTime(w, e);
    if Completed(w.a, e.reading) != {} && Drop(w.a, e.reading).trips != map[] {
      ReportPunctualExactly(w, e);
      DroppedIsCounted(w.a, e.reading);
      TightestIsMinimum(Drop(w.a, e.reading).trips);
    }
  }

  lemma DroppedEndsBeyond(w: World, e: Event)
    requires Books(w) && Possible(w, e) && e.Distance? && OnTime(w) && Completed(w.a, e.reading) != {}
    ensures !Attained(w.modem.distance, Drop(w.a, e.reading).trips)
  {
    var gone :| gone in Completed(w.a, e.reading);
    CompletedFromEnds(w, e.reading, gone);
    assert w.modem.distance <= Ends(w.a.trips[gone]);
    var trips := Drop(w.a, e.reading).trips;
    forall k | k in trips
      ensures e.reading < Ends(trips[k])
    {
      CompletedFromEnds(w, e.reading, k);
    }
  }

  // After a report every session left is counted, and not complete.
  lemma DroppedIsCounted(a: Adapter, reading: u32)
    ensures var trips := Drop(a, reading).trips;
            && CountAll(trips, reading) == trips
            && (forall k :: k in trips ==> trips[k].thisTrip < trips[k].tripDistance && 0 < Remaining(trips[k]))
  {
    var trips := Drop(a, reading).trips;
    forall k | k in trips
      ensures Counted(trips[k], reading) == trips[k]
      ensures trips[k].thisTrip < trips[k].tripDistance && 0 < Remaining(trips[k])
    {
      DroppedTrip(a, reading, k);
    }
  }

  lemma DroppedTrip(a: Adapter, reading: u32, k: u32)
    requires k in Drop(a, reading).trips
    ensures var t := Drop(a, reading).trips[k];
            k in a.trips && t == Counted(a.trips[k], reading) == Counted(t, reading) &&
            t.thisTrip < t.tripDistance && 0 < Remaining(t)
  {
    assert k !in Completed(a, reading);
  }

  lemma MinimumIsLeast(trips: map<u32, Trip>, least: u32, distance: u32)
    requires trips != map[] && forall k :: k in trips ==> trips[k].thisTrip < trips[k].tripDistance
    requires IsMinimum(least, Remainders(trips), trips.Keys)
    ensures LeastLeft(distance, trips) <==> distance == least
  {
    forall k | k in trips
      ensures Remainders(trips)[k] == Remains(trips[k])
    {
      RemainingIs(trips[k]);
    }
  }

  lemma RemainingIs(t: Trip)
    requires t.thisTrip <= t.tripDistance
    ensures Remaining(t) == Remains(t)
  {
  }

  // ---- updating ----

  // The distance the modem is started with last.
  ghost function UpdateDistance(w: World, e: Event): u32
    requires e.Update? && e.id in w.a.trips
  {
    var rest := Erase(w.a, e.id);
    var tightest := Tightest(rest.trips);
    if Starts(w, e) && e.startAccepted then JoinDistance(w.a, e.want, e.queryOk, e.second)
    else if !Stops(w, e) then w.modem.distance
    else if ByDistance(rest, tightest, e.first) then tightest.distance
    else w.a.ongoing.distance
  }

  lemma UpdateDistanceIsAsked(w: World, e: Event)
    requires e.Update? && e.id in w.a.trips
    ensures ModemUpdated(w, e).distance == UpdateDistance(w, e)
  {
    JoinAsksForLeast(w.a.ongoing, e.want, e.queryOk, e.second);
  }

  ghost predicate UpdateIsPunctual(w: World, e: Event)
    requires e.Update? && e.id in w.a.trips
  {
    if Stops(w, e) || Starts(w, e) then LeastLeft(UpdateDistance(w, e), TripsUpdated(w, e))
    else
      && JoinFits(w.modem.distance, e.want, e.queryOk, e.second)
      && (|| Attained(w.modem.distance, w.a.trips - {e.id})
          || (e.queryOk && w.modem.distance == e.second + e.want.distance))
  }

  // An update leaves everybody on time exactly when the distance the modem is started with last is the
  // least that the sessions' counters leave, or, without a restart, when the first session to complete is
  // still the one the modem counts for.
  lemma UpdateIsOnTime(w: World, e: Event)
    requires Books(w) && Possible(w, e) && e.Update? && OnTime(w)
    ensures OnTime(Step(w, e)) <==> UpdateIsPunctual(w, e)
  {
    UpdateDistanceIsAsked(w, e);
    if Stops(w, e) || Starts(w, e) {
      UpdateLeaves(w, e);
      LeavesFolded(w, e, Stops(w, e), Starts(w, e), TripsUpdated(w, e), RoadRestarted(w, e));
      FoldedMeets(UpdateDistance(w, e), TripsUpdated(w, e));
    } else {
      QuietTrips(w, e);
      LeaveMeets(w.modem.distance, w.a.trips, {e.id});
      EnterMeets(w.modem.distance, w.a.trips - {e.id}, e.id, Trip(e.second, 0, 0, e.want.distance, e.want.tbf));
    }
  }

  // ---- whole runs ----

  // The exact condition under which a transaction leaves everybody on time.
  ghost predicate Punctual(w: World, e: Event)
    requires Books(w) && Possible(w, e)
  {
    match e
    case Travel(_) => true
    case StartFirst(_, _, _, _) => true
    case StartJoin(_, _, _, _, _, _, _) => JoinIsPunctual(w, e)
    case StopTrip(id, _, reading, accepted, _, _) =>
      RetuneIsPunctual(Erase(w.a, id), reading, accepted, w.modem.distance)
    case Distance(_, _, _) => ReportIsPunctual(w, e)
    case Update(_, _, _, _, _, _, _, _, _, _, _) => UpdateIsPunctual(w, e)
  }

  lemma StepIsOnTime(w: World, e: Event)
    requires Books(w) && Possible(w, e) && OnTime(w)
    ensures OnTime(Step(w, e)) <==> Punctual(w, e)
  {
    match e
    case Travel(_) =>
    case StartFirst(id, want, accepted, _) => FirstIsOnTime(w, e);
    case StartJoin(_, _, _, _, _, _, _) => JoinStepIsOnTime(w, e);
    case StopTrip(_, _, _, _, _, _) => StopIsOnTime(w, e);
    case Distance(_, _, _) => ReportIsOnTime(w, e);
    case Update(_, _, _, _, _, _, _, _, _, _, _) => UpdateIsOnTime(w, e);
  }

  lemma FirstIsOnTime(w: World, e: Event)
    requires Books(w) && Possible(w, e) && e.StartFirst?
    ensures OnTime(Step(w, e))
  {
    if e.accepted {
      var trips := Step(w, e).a.trips;
      assert e.id in trips && Ends(trips[e.id]) == e.want.distance;
    }
  }

  ghost predicate PunctualRun(w: World, es: seq<Event>)
    requires Books(w) && LegalRun(w, es)
    decreases |es|
  {
    es != [] ==> Punctual(w, es[0]) && (StepKeepsBooks(w, es[0]); PunctualRun(Step(w, es[0]), es[1..]))
  }

  lemma {:induction false} PunctualRunIsOnTime(w: World, es: seq<Event>)
    requires Books(w) && LegalRun(w, es) && PunctualRun(w, es) && OnTime(w)
    ensures OnTime(Run(w, es))
    decreases |es|
  {
    if es != [] {
      StepKeepsBooks(w, es[0]);
      StepIsOnTime(w, es[0]);
      PunctualRunIsOnTime(Step(w, es[0]), es[1..]);
    }
  }

  // Where nothing was lost, being on time can be told from the road: as long as the modem has not passed
  // its distance no live trip has been overrun, and the report it sends there completes exactly the trips
  // whose distance has just been travelled, at least one.
  lemma OnTimeOnTheRoad(w: World)
    requires Books(w) && NothingLost(w) && OnTime(w) && w.r.odometer <= w.r.batchStart + w.modem.distance
    ensures forall k :: k in w.a.trips ==> w.r.odometer - w.r.ledger[k].startedAt <= w.a.trips[k].tripDistance
    ensures w.r.odometer == w.r.batchStart + w.modem.distance && w.a.trips != map[] ==>
              var gone := Completed(w.a, w.modem.distance);
              && gone != {}
              && (forall k :: k in w.a.trips ==>
                    (k in gone <==> w.r.odometer - w.r.ledger[k].startedAt == w.a.trips[k].tripDistance))
  {
    forall k | k in w.a.trips
      ensures w.a.trips[k].ongoingBatch <= w.r.odometer - w.r.batchStart
      ensures w.r.batchStart + Ends(w.a.trips[k]) == w.r.ledger[k].startedAt + w.a.trips[k].tripDistance
      ensures w.modem.distance <= Ends(w.a.trips[k])
    {
      EndsOnTheRoad(w, k);
    }
    if w.r.odometer == w.r.batchStart + w.modem.distance {
      OwnReportCompletes(w);
    }
  }

  lemma PunctualRunReaches(es: seq<Event>, w: World)
    requires LegalRun(BOOT, es) && PunctualRun(BOOT, es) && PromptRun(BOOT, es) && w == Run(BOOT, es)
    ensures Books(w) && NothingLost(w) && OnTime(w)
  {
    PunctualRunIsOnTime(BOOT, es);
    PromptRunLosesNothing(BOOT, es);
  }

  // Over every run of such transactions from start-up, with the device standing still around each restart.
  lemma PunctualRunServes(es: seq<Event>, w: World)
    requires LegalRun(BOOT, es) && PunctualRun(BOOT, es) && PromptRun(BOOT, es) && w == Run(BOOT, es)
    requires w.r.odometer <= w.r.batchStart + w.modem.distance
    ensures forall k :: k in w.a.trips ==> w.r.odometer - w.r.ledger[k].startedAt <= w.a.trips[k].tripDistance
    ensures w.r.odometer == w.r.batchStart + w.modem.distance && w.a.trips != map[] ==>
              var gone := Completed(w.a, w.modem.distance);
              && gone != {}
              && (forall k :: k in w.a.trips ==>
                    (k in gone <==> w.r.odometer - w.r.ledger[k].startedAt == w.a.trips[k].tripDistance))
  {
    PunctualRunReaches(es, w);
    OnTimeOnTheRoad(w);
  }

  // ---- where it fails ----

  // Of two 1000 metre trips one is stopped 600 metres in, the other has nothing recorded yet, and the
  // modem is told to count another 1000 metres for a trip with 400 left.
  lemma StopMakesLate(w: World, e: Event)
    requires w == World(
      Adapter(map[1 := Trip(0, 0, 0, 1000, 10), 2 := Trip(0, 0, 0, 1000, 10)], Setting(1000, 10), false, false),
      Road(600, 0, map[1 := Ledger(0, 0, 0), 2 := Ledger(0, 0, 0)]), Setting(1000, 10))
    requires e == StopTrip(1, true, 600, true, 0, 0)
    ensures Books(w) && Legal(w, e) && OnTime(w)
    ensures !OnTime(Step(w, e)) && Step(w, e).r.batchStart == 600 && Step(w, e).modem.distance == 1000
  {
    var a := Erase(w.a, 1);
    assert 1 in w.a.trips && a.trips.Keys == {2} && 2 in a.trips && a.trips[2] == Trip(0, 0, 0, 1000, 10);
    assert Least({2}) == 2;
    assert Tightest(a.trips) == Setting(1000, 10);
    assert ByDistance(a, Tightest(a.trips), 600);
    StopIsOnTime(w, e);
    assert 2 in CountAll(a.trips, 600) && CountAll(a.trips, 600)[2].thisTrip == 600;
  }

  // The trip that the modem counts for is stopped, and nobody notices because it was first asked for with
  // another distance: the modem goes on to report where nobody completes.
  lemma StopMakesEarly(w: World, e: Event)
    requires w == World(
      Adapter(map[1 := Trip(0, 600, 600, 1000, 20), 2 := Trip(0, 0, 0, 2000, 10)], Setting(400, 10), false, false),
      Road(600, 600, map[1 := Ledger(0, 600, 0), 2 := Ledger(600, 600, 0)]), Setting(400, 10))
    requires e == StopTrip(1, true, 0, true, 0, 0)
    ensures Books(w) && Legal(w, e) && OnTime(w)
    ensures var end := Step(w, e);
            !OnTime(end) && end.modem.distance == 400 && end.a.trips != map[] && Completed(end.a, 400) == {}
  {
    var a := Erase(w.a, 1);
    assert 1 in w.a.trips && a.trips.Keys == {2} && 2 in a.trips && a.trips[2] == Trip(0, 0, 0, 2000, 10);
    assert Least({2}) == 2;
    assert Tightest(a.trips) == Setting(2000, 10);
    assert Retune(a, Tightest(a.trips), 0) == NoRestart;
    StopIsOnTime(w, e);
  }

  // Into a 1000 metre trip, 600 metres in, joins a session for 2000 at a shorter interval.  The modem is
  // restarted with the 400 metres left, and the counters forget the 600: its report, with trip 1
  // travelled, completes nobody.
  lemma JoinMakesEarly(w: World, e: Event)
    requires w == World(Adapter(map[1 := Trip(0, 0, 0, 1000, 20)], Setting(1000, 20), false, false),
                        Road(600, 0, map[1 := Ledger(0, 0, 0)]), Setting(1000, 20))
    requires e == StartJoin(2, Setting(2000, 10), true, 600, true, 0, 0)
    ensures Books(w) && Legal(w, e) && OnTime(w)
    ensures var end := Step(w, e);
            && !OnTime(end) && end.modem.distance == 400 && Completed(end.a, 400) == {}
            && 1 in end.a.trips && 1 in end.r.ledger
            && end.r.batchStart + 400 - end.r.ledger[1].startedAt == end.a.trips[1].tripDistance
  {
    assert 1 in w.a.trips;
    assert JoinRestart(w.a.ongoing, e.want, true, 600) == RestartWith(Setting(400, 10));
    assert TripsJoined(w, e) == w.a.trips[2 := Trip(600, 0, 0, 2000, 10)];
    JoinIsOnTime(w, e);
  }
}
