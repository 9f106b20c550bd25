// The transactions that are not harmless, and what they lead to: a session that counts more than the
// device travels, and a report that completes its trip too early.
module TripOverlap {
  import opened Word32
  import opened TripModel
  import opened TripRoad
  import opened TripCovers

  // The session's counters claim more than the road up to the start of the batch.
  ghost predicate Overcounted(w: World, k: u32)
    requires k in w.a.trips && k in w.r.ledger
  {
    w.r.batchStart + w.a.trips[k].ongoingBatch < w.a.trips[k].onRestart + w.r.ledger[k].startedAt
  }

  lemma BooksAreNotOvercounted(w: World)
    requires Books(w)
    ensures forall k :: k in w.a.trips ==> !Overcounted(w, k)
  {
    forall k | k in w.a.trips
      ensures !Overcounted(w, k)
    {
      assert Balanced(w.a.trips[k], w.r.ledger[k], w.r);
    }
  }

  // The counters of a transaction that is not harmless have all been folded just now, and its ledger
  // has been settled by them.
  ghost predicate JustFolded(trips: map<u32, Trip>, r: Road) {
    && trips.Keys == r.ledger.Keys
    && r.batchStart <= r.odometer < WORD
    && (forall k :: k in r.ledger ==> r.ledger[k].startedAt <= r.odometer)
    && (forall k :: k in trips ==> trips[k].ongoingBatch == 0 && trips[k].onRestart == trips[k].thisTrip)
  }

  lemma SettlingIsIdempotent(trips: map<u32, Trip>, r: Road)
    requires JustFolded(trips, r)
    ensures JustFolded(trips, Settle(r, trips)) && Settle(Settle(r, trips), trips) == Settle(r, trips)
  {
  }

  lemma FoldedBooks(w: World)
    requires JustFolded(w.a.trips, w.r) && w.r == Settle(w.r, w.a.trips)
    ensures Books(w) <==> forall k :: k in w.a.trips ==> !Overcounted(w, k)
  {
    SettleKeepsBooks(w.a.trips, w.r);
  }

  lemma HarmfulUpdateIsFolded(w: World, e: Event)
    requires Books(w) && Possible(w, e) && e.Update? && !Harmless(w, e)
    ensures var end := Step(w, e);
            JustFolded(end.a.trips, end.r) && end.r == Settle(end.r, end.a.trips)
  {
    UpdateLeaves(w, e);
    LeavesFolded(w, e, Stops(w, e), Starts(w, e), TripsUpdated(w, e), RoadRestarted(w, e));
    SettlingIsIdempotent(TripsUpdated(w, e), RoadRestarted(w, e));
  }

  lemma HarmfulJoinIsFolded(w: World, e: Event)
    requires Books(w) && Possible(w, e) && e.StartJoin? && !Harmless(w, e)
    ensures var end := Step(w, e);
            JustFolded(end.a.trips, end.r) && end.r == Settle(end.r, end.a.trips)
  {
    JoinedBalances(w, e);
    assert JustFolded(FoldAll(TripsJoined(w, e)), RoadJoined(w, e));
    SettlingIsIdempotent(FoldAll(TripsJoined(w, e)), RoadJoined(w, e));
  }

  lemma HarmfulStopIsFolded(w: World, e: Event)
    requires Books(w) && Possible(w, e) && e.StopTrip? && !Harmless(w, e)
    ensures var end := Step(w, e);
            JustFolded(end.a.trips, end.r) && end.r == Settle(end.r, end.a.trips)
  {
    var a, r := Erase(w.a, e.id), Forget(Advance(w.r, e.before), {e.id});
    AdvanceKeepsBooks(w.a.trips, w.r, e.before);
    ForgetKeepsBooks(w.a.trips, Advance(w.r, e.before), {e.id});
    var there := Advance(r, e.after);
    SettlingIsIdempotent(RebaseAll(a.trips, e.reading), there.(batchStart := there.odometer));
  }

  lemma HarmIsFolded(w: World, e: Event)
    requires Books(w) && Possible(w, e) && !Harmless(w, e)
    ensures var end := Step(w, e);
            JustFolded(end.a.trips, end.r) && end.r == Settle(end.r, end.a.trips)
  {
    if e.Update? {
      HarmfulUpdateIsFolded(w, e);
    } else if e.StopTrip? {
      HarmfulStopIsFolded(w, e);
    } else {
      HarmfulJoinIsFolded(w, e);
    }
  }

  // A transaction is harmless exactly when it leaves no session overcounted.
  lemma HarmlessExactly(w: World, e: Event)
    requires Books(w) && Possible(w, e)
    ensures var end := Step(w, e);
            && end.a.trips.Keys == end.r.ledger.Keys
            && (Harmless(w, e) <==> forall k :: k in end.a.trips ==> !Overcounted(end, k))
  {
    StepKeepsBooks(w, e);
    if Harmless(w, e) {
      BooksAreNotOvercounted(Step(w, e));
    } else {
      HarmIsFolded(w, e);
      FoldedBooks(Step(w, e));
    }
  }

  // ---- what an overcounted session leads to ----

  // After `metres` more the modem reports what it shows then, and session `k` is completed before the
  // device has travelled its distance.
  ghost predicate Misleads(w: World, k: u32, metres: nat, reading: u32)
    requires k in w.a.trips && k in w.r.ledger
  {
    var there := w.(r := Advance(w.r, metres));
    && Shows(w, reading, metres)
    && Moves(w, metres) && Possible(there, Distance(reading, false, 0))
    && k in Completed(there.a, reading)
    && there.r.odometer - w.r.ledger[k].startedAt < w.a.trips[k].tripDistance
  }

  ghost predicate UnderWay(w: World, k: u32)
    requires k in w.a.trips && k in w.r.ledger
  {
    w.r.odometer - w.r.ledger[k].startedAt < w.a.trips[k].tripDistance
  }

  // The trip ends before the odometer wraps, and a report sent now would not wrap the session's count.
  ghost predicate Unwrapped(w: World, k: u32)
    requires k in w.a.trips && k in w.r.ledger
  {
    && w.r.ledger[k].startedAt + w.a.trips[k].tripDistance <= WORD
    && w.a.trips[k].onRestart + w.r.odometer < WORD + w.r.batchStart
  }

  // A session overcounted by a transaction is completed too early by the report the modem would send as
  // soon as the session's count reaches its distance.
  lemma OvercountMisleads(w: World, k: u32) returns (metres: nat, reading: u32)
    requires JustFolded(w.a.trips, w.r) && k in w.a.trips && Overcounted(w, k)
    requires UnderWay(w, k) && Unwrapped(w, k)
    ensures Misleads(w, k, metres, reading)
  {
    var t, shown := w.a.trips[k], w.r.odometer - w.r.batchStart;
    reading := if t.tripDistance <= t.onRestart + shown then shown else t.tripDistance - t.onRestart;
    metres := reading - shown;
    CompletedFolded(w.a, k, reading);
  }

  // And only such a session.
  lemma MisledIsOvercounted(w: World, k: u32, metres: nat, reading: u32)
    requires JustFolded(w.a.trips, w.r) && k in w.a.trips && Misleads(w, k, metres, reading)
    ensures Overcounted(w, k) && UnderWay(w, k)
  {
    assert Counted(w.a.trips[k], reading).thisTrip <= w.a.trips[k].onRestart + reading;
  }

  // The report the modem sends by itself, at the distance it was started with, completes a session too
  // early exactly when that distance lies between what the session's counters leave of its trip and what
  // the road does.
  lemma OwnReportMisleads(w: World, k: u32)
    requires JustFolded(w.a.trips, w.r) && k in w.a.trips
    requires w.r.odometer <= w.r.batchStart + w.modem.distance < WORD
    requires w.a.trips[k].onRestart + w.modem.distance < WORD
    ensures var t, d, before := w.a.trips[k], w.modem.distance, w.r.batchStart - w.r.ledger[k].startedAt;
            Misleads(w, k, w.r.batchStart + d - w.r.odometer, d) <==>
            t.tripDistance - t.onRestart <= d < t.tripDistance - before
  {
    CompletedFolded(w.a, k, w.modem.distance);
  }

  lemma CompletedFolded(a: Adapter, k: u32, reading: u32)
    requires k in a.trips && a.trips[k].ongoingBatch == 0 && a.trips[k].onRestart + reading < WORD
    ensures k in Completed(a, reading) <==> a.trips[k].tripDistance <= a.trips[k].onRestart + reading
  {
    assert Counted(a.trips[k], reading).thisTrip == a.trips[k].onRestart + reading;
  }

  lemma MisledExactly(w: World, k: u32)
    requires JustFolded(w.a.trips, w.r) && k in w.a.trips && UnderWay(w, k) && Unwrapped(w, k)
    ensures Overcounted(w, k) <==> exists metres, reading :: Misleads(w, k, metres, reading)
  {
    if Overcounted(w, k) {
      var metres, reading := OvercountMisleads(w, k);
    } else if metres, reading :| Misleads(w, k, metres, reading) {
      MisledIsOvercounted(w, k, metres, reading);
    }
  }

  // So a transaction that is not harmless overcounts a session, and every session it overcounts is
  // completed too early by some report of what the modem shows.
  lemma HarmMisleads(w: World, e: Event)
    requires Books(w) && Possible(w, e) && !Harmless(w, e)
    ensures var end := Step(w, e);
            && end.a.trips.Keys == end.r.ledger.Keys
            && (exists k :: k in end.a.trips && Overcounted(end, k))
            && (forall k :: k in end.a.trips && UnderWay(end, k) && Unwrapped(end, k) ==>
                  (Overcounted(end, k) <==> exists metres, reading :: Misleads(end, k, metres, reading)))
  {
    HarmlessExactly(w, e);
    HarmIsFolded(w, e);
    var end := Step(w, e);
    forall k | k in end.a.trips && UnderWay(end, k) && Unwrapped(end, k)
      ensures Overcounted(end, k) <==> exists metres, reading :: Misleads(end, k, metres, reading)
    {
      MisledExactly(end, k);
    }
  }

  lemma OwnIsOvercounted(w: World, e: Event, stops: bool, starts: bool, trips: map<u32, Trip>, r: Road)
    requires Books(w) && Possible(w, e) && e.Update? && e.firstOk && e.queryOk
    requires !HarmlessUpdate(w, e, stops, starts)
    requires Leaves(w, e, stops, starts, trips, r)
    ensures r.batchStart < trips[e.id].thisTrip + r.ledger[e.id].startedAt
    ensures trips[e.id].tripDistance == e.want.distance && r.odometer - r.ledger[e.id].startedAt == e.after
    ensures trips[e.id].onRestart == 0 || r.odometer == r.batchStart
  {
    OwnClaim(w, e, stops, starts, trips, r);
    OwnOutcome(e.want, e.first, e.second, stops, starts);
  }

  lemma OwnEndsOvercounted(w: World, e: Event)
    requires Books(w) && Possible(w, e) && e.Update? && e.firstOk && e.queryOk && !Harmless(w, e)
    requires e.after < e.want.distance
    requires w.r.odometer + e.before + e.between + e.want.distance <= WORD
    ensures var end := Step(w, e);
            && e.id in end.a.trips && e.id in end.r.ledger
            && Overcounted(end, e.id) && UnderWay(end, e.id) && Unwrapped(end, e.id)
  {
    UpdateLeaves(w, e);
    OwnIsOvercounted(w, e, Stops(w, e), Starts(w, e), TripsUpdated(w, e), RoadRestarted(w, e));
  }

  // An update whose queries are answered and which is not harmless overcounts the updated session itself:
  // whatever distance it asks for beyond what the device moves meanwhile, some report of what the modem
  // shows completes it before that distance is travelled.
  lemma HarmfulUpdateMisleads(w: World, e: Event) returns (metres: nat, reading: u32)
    requires Books(w) && Possible(w, e) && e.Update? && e.firstOk && e.queryOk && !Harmless(w, e)
    requires e.after < e.want.distance
    requires w.r.odometer + e.before + e.between + e.want.distance <= WORD
    ensures var end := Step(w, e);
            e.id in end.a.trips && e.id in end.r.ledger && Misleads(end, e.id, metres, reading)
  {
    HarmfulUpdateIsFolded(w, e);
    OwnEndsOvercounted(w, e);
    metres, reading := OvercountMisleads(Step(w, e), e.id);
  }

  // What a stop asks of the modem.
  ghost function BlindRestart(w: World, e: Event): Restart
    requires e.StopTrip? && e.id in w.a.trips
  {
    StopsRestart(w.a, e.id, e.reading)
  }

  // What a stop leaves of another session when its query failed and its restart is accepted.
  lemma BlindStopLeaves(w: World, e: Event, k: u32)
    requires Books(w) && Possible(w, e) && e.StopTrip? && !e.queryOk && e.accepted && k in w.a.trips && k != e.id
    requires BlindRestart(w, e).RestartWith?
    ensures var end := Step(w, e);
            && k in end.a.trips && end.a.trips[k] == Rebased(w.a.trips[k], e.reading)
            && k in end.r.ledger && end.r.ledger[k].startedAt == w.r.ledger[k].startedAt
            && end.r.batchStart == end.r.odometer == w.r.odometer + e.before + e.after
            && end.modem == BlindRestart(w, e).setting
            && JustFolded(end.a.trips, end.r)
  {
    assert k in Erase(w.a, e.id).trips;
  }

  // Then the modem's own report completes the session too early exactly when its new distance lies
  // between what the count up to that value leaves of the trip and what the road does.
  lemma BlindStopMisleads(w: World, e: Event, k: u32, distance: u32)
    requires Books(w) && Possible(w, e) && e.StopTrip? && !e.queryOk && e.accepted && k in w.a.trips && k != e.id
    requires BlindRestart(w, e).RestartWith? && BlindRestart(w, e).setting.distance == distance
    requires w.r.odometer + e.before + e.after + distance < WORD
    requires Counted(w.a.trips[k], e.reading).thisTrip + distance < WORD
    ensures var t, end := w.a.trips[k], Step(w, e);
            var travelled := w.r.odometer + e.before + e.after - w.r.ledger[k].startedAt;
            && end.modem.distance == distance && k in end.a.trips && k in end.r.ledger
            && (Misleads(end, k, distance, distance) <==>
                  t.tripDistance - Counted(t, e.reading).thisTrip <= distance < t.tripDistance - travelled)
  {
    BlindStopLeaves(w, e, k);
    OwnReportMisleads(Step(w, e), k);
  }

  // The modem goes on to the distance it had, and its report completes a session that joined with a
  // refused restart exactly when it asked for no more than that, and for more than was left of it.
  lemma RefusedJoinMisleads(w: World, e: Event)
    requires Books(w) && Possible(w, e) && e.StartJoin? && e.queryOk && Restarts(w, e) && !e.accepted
    requires w.r.odometer + e.before + e.after <= w.r.batchStart + w.modem.distance < WORD
    ensures var end, d := Step(w, e), w.modem.distance;
            && end.modem == w.modem && e.id in end.a.trips && e.id in end.r.ledger
            && (Misleads(end, e.id, w.r.batchStart + d - (w.r.odometer + e.before + e.after), d) <==>
                  e.want.distance <= d < e.want.distance + e.reading)
  {
    RefusedJoinLeaves(w, e);
    OwnReportMisleads(Step(w, e), e.id);
  }

  lemma RefusedJoinLeaves(w: World, e: Event)
    requires Books(w) && Possible(w, e) && e.StartJoin? && e.queryOk && Restarts(w, e) && !e.accepted
    ensures var end := Step(w, e);
            && e.id in end.a.trips && end.a.trips[e.id] == Trip(0, 0, 0, e.want.distance, e.want.tbf)
            && e.id in end.r.ledger && end.r.ledger[e.id].startedAt == w.r.batchStart + e.reading
            && end.r.batchStart == w.r.batchStart && end.r.odometer == w.r.odometer + e.before + e.after
            && end.modem == w.modem && JustFolded(end.a.trips, end.r)
  {
    JoinedBalances(w, e);
  }

  // ---- concrete transactions ----

  // A 1000 metre trip, 600 metres in: a session joins for another 1000, its restart is refused, and the
  // modem's own report, due after 400 more, completes it.
  lemma RefusedJoinCanReportUntravelled(w: World, e: Event)
    requires w == World(Adapter(map[1 := Trip(0, 600, 0, 1000, 20)], Setting(1000, 20), false, false),
                        Road(600, 0, map[1 := Ledger(0, 600, 0)]), Setting(1000, 20))
    requires e == StartJoin(2, Setting(1000, 10), true, 600, false, 0, 0)
    ensures Books(w) && Possible(w, e)
    ensures var end := Step(w, e);
            end.modem.distance == 1000 && 2 in end.a.trips && 2 in end.r.ledger && Misleads(end, 2, 400, 1000)
  {
    assert JoinRestart(w.a.ongoing, e.want, true, 600) == RestartWith(Setting(400, 10));
    assert 1 in w.a.trips;
    RefusedJoinMisleads(w, e);
  }

  // Two sessions join the trips there are after 600 metres, for 500 and 450 more.
  function TwoJoin(trips: map<u32, Trip>, r: Road): World {
    World(Adapter(trips[2 := Trip(600, 0, 0, 500, 20)][3 := Trip(600, 0, 0, 450, 20)], Setting(1000, 20), false, false),
          Enter(Enter(r, 2), 3), Setting(1000, 20))
  }

  ghost predicate OneTrip(trips: map<u32, Trip>, r: Road) {
    trips == map[1 := Trip(0, 0, 0, 1000, 20)] && r == Road(600, 0, map[1 := Ledger(0, 0, 0)])
  }

  lemma OneTripBalances(trips: map<u32, Trip>, r: Road)
    requires OneTrip(trips, r)
    ensures Balance(trips, r)
  {
  }

  lemma TwoJoinBalances(trips: map<u32, Trip>, r: Road)
    requires Balance(trips, r) && r.batchStart == 0 && r.odometer == 600
    ensures Books(TwoJoin(trips, r))
  {
    EnterKeepsBooks(trips, r, 2, Trip(600, 0, 0, 500, 20));
    EnterKeepsBooks(trips[2 := Trip(600, 0, 0, 500, 20)], Enter(r, 2), 3, Trip(600, 0, 0, 450, 20));
  }

  lemma RestOfStop(a: Adapter)
    requires 2 in a.trips && 3 in a.trips && forall k :: k in a.trips ==> k == 2 || k == 3
    requires a.trips[2] == Trip(600, 0, 0, 500, 20) && a.trips[3] == Trip(600, 0, 0, 450, 20)
    requires a.ongoing == Setting(1000, 20) && a.distanceDropped
    ensures Retune(a, Tightest(a.trips), 0) == RestartWith(Setting(450, 20))
  {
    TightestIsMinimum(a.trips);
  }

  lemma FailedStopRestarts(trips: map<u32, Trip>, r: Road, w: World, e: Event)
    requires OneTrip(trips, r) && w == TwoJoin(trips, r) && e == StopTrip(1, false, 0, true, 0, 0)
    ensures 1 in w.a.trips && BlindRestart(w, e) == RestartWith(Setting(450, 20))
    ensures 2 in w.a.trips && w.a.trips[2].tripDistance == 500 && Counted(w.a.trips[2], 0).thisTrip == WORD - 600
  {
    RestOfStop(Erase(w.a, 1));
  }

  lemma FailedStopAfter(trips: map<u32, Trip>, r: Road) returns (w: World, e: Event)
    requires OneTrip(trips, r)
    ensures Books(w) && Possible(w, e) && e == StopTrip(1, false, 0, true, 0, 0) && w.r.odometer == 600
    ensures 1 in w.a.trips && BlindRestart(w, e) == RestartWith(Setting(450, 20))
    ensures 2 in w.a.trips && w.a.trips[2].tripDistance == 500 && w.r.ledger[2].startedAt == 600
    ensures Counted(w.a.trips[2], 0).thisTrip == WORD - 600
  {
    w, e := TwoJoin(trips, r), StopTrip(1, false, 0, true, 0, 0);
    OneTripBalances(trips, r);
    TwoJoinBalances(trips, r);
    FailedStopRestarts(trips, r, w, e);
  }

  // Two sessions join a 1000 metre trip after 600 metres, for 500 and 450 more, and the trip is stopped
  // there.  The query fails with the value 0: the counts wrap below it, and the modem's own report, due
  // after 450 metres, completes the trip of 500.
  lemma FailedStopCanReportUntravelled() returns (w: World, e: Event)
    ensures Books(w) && Possible(w, e) && e == StopTrip(1, false, 0, true, 0, 0)
    ensures 2 in w.a.trips && w.a.trips[2].tripDistance == 500 && w.r.ledger[2].startedAt == w.r.odometer
    ensures var end := Step(w, e);
            end.modem.distance == 450 && 2 in end.a.trips && 2 in end.r.ledger && Misleads(end, 2, 450, 450)
  {
    w, e := FailedStopAfter(map[1 := Trip(0, 0, 0, 1000, 20)], Road(600, 0, map[1 := Ledger(0, 0, 0)]));
    BlindStopMisleads(w, e, 2, 450);
  }

  // Two trips, 600 metres in, the faster one asking for more speed: both restarts happen.
  lemma HarmfulUpdatesExist(w: World, e: Event)
    requires e == Update(1, Setting(700, 5), true, 600, true, true, 600, true, 0, 0, 0)
    requires w == World(
      Adapter(map[1 := Trip(0, 0, 0, 900, 10), 2 := Trip(0, 0, 0, 2000, 20)], Setting(900, 10), false, false),
      Road(600, 0, map[1 := Ledger(0, 0, 0), 2 := Ledger(0, 0, 0)]), Setting(900, 10))
    ensures Books(w) && Possible(w, e) && Stops(w, e) && Starts(w, e) && !Harmless(w, e)
  {
    var rest := Erase(w.a, 1).trips;
    assert 2 in rest && rest.Keys == {2} && rest[2].tbf == 20;
    assert Least({2}) == 2;
    assert Tightest(rest) == TightestFrom(rest, {2} - {Least({2})}, Tighten(IDLE, rest[2])) == Setting(2000, 20);
  }
}
