// Nothing faster than asked: what the sessions that leave tell the adapter, when the modem's interval is
// exactly the shortest that a live session asked for, and that sessions are stored as they were asked for.
module TripTightest {
  import opened Word32
  import opened TripModel
  import opened TripRoad
  import opened TripCovers

  // ---- the two flags ----

  // The sessions that a transaction takes away.  An update takes its own away before it joins again.
  ghost function Leavers(w: World, e: Event): set<u32>
    requires Books(w) && Possible(w, e)
  {
    if e.Update? then {e.id} else w.a.trips.Keys - Step(w, e).a.trips.Keys
  }

  // One of them had asked for the interval, or for the distance, that the adapter takes the modem to run at.
  ghost predicate IntervalLeaves(w: World, e: Event)
    requires Books(w) && Possible(w, e)
  {
    exists k :: k in Leavers(w, e) && k in w.a.trips && w.a.trips[k].tbf == w.a.ongoing.tbf
  }

  ghost predicate DistanceLeaves(w: World, e: Event)
    requires Books(w) && Possible(w, e)
  {
    exists k :: k in Leavers(w, e) && k in w.a.trips && w.a.trips[k].tripDistance == w.a.ongoing.distance
  }

  lemma ReportFlags(a: Adapter, reading: u32, accepted: bool)
    ensures var end := Report(a, reading, accepted);
            && end.trips.Keys == a.trips.Keys - Completed(a, reading)
            && end.tbfDropped == Drop(a, reading).tbfDropped && end.distanceDropped == Drop(a, reading).distanceDropped
  {
    var trips := Drop(a, reading).trips;
    assert trips.Keys == a.trips.Keys - Completed(a, reading);
    assert RebaseAll(trips, reading).Keys == trips.Keys;
  }

  lemma StopFlags(a: Adapter, id: u32, reading: u32, accepted: bool)
    requires id in a.trips
    ensures var end := Stop(a, id, reading, accepted);
            && end.trips.Keys == a.trips.Keys - {id}
            && end.tbfDropped == Erase(a, id).tbfDropped && end.distanceDropped == Erase(a, id).distanceDropped
  {
    var trips := Erase(a, id).trips;
    assert trips.Keys == a.trips.Keys - {id};
    assert RebaseAll(trips, reading).Keys == trips.Keys;
  }

  lemma JoinFlags(w: World, e: Event)
    requires Books(w) && Possible(w, e) && e.StartJoin?
    ensures w.a.trips.Keys <= Step(w, e).a.trips.Keys
    ensures Step(w, e).a.tbfDropped == w.a.tbfDropped && Step(w, e).a.distanceDropped == w.a.distanceDropped
  {
    assert FoldAll(TripsJoined(w, e)).Keys == TripsJoined(w, e).Keys;
  }

  // Each flag is raised exactly when such a session leaves, and never lowered.
  lemma FlagsTell(w: World, e: Event)
    requires Books(w) && Possible(w, e)
    ensures Step(w, e).a.tbfDropped <==> w.a.tbfDropped || IntervalLeaves(w, e)
    ensures Step(w, e).a.distanceDropped <==> w.a.distanceDropped || DistanceLeaves(w, e)
  {
    match e
    case Travel(_) =>
    case StartFirst(_, _, _, _) =>
    case StartJoin(_, _, _, _, _, _, _) => JoinFlags(w, e);
    case StopTrip(id, _, reading, accepted, _, _) =>
      StopFlags(w.a, id, reading, accepted);
      assert forall k :: k in Leavers(w, e) <==> k == id;
    case Distance(reading, accepted, _) =>
      ReportFlags(w.a, reading, accepted);
      assert forall k :: k in Leavers(w, e) <==> k in Completed(w.a, reading);
    case Update(id, _, _, _, _, _, _, _, _, _, _) =>
      assert forall k :: k in Leavers(w, e) <==> k == id;
  }

  // ---- the interval ----

  // The interval is the shortest that a session asks for.
  ghost predicate Tight(tbf: u32, trips: map<u32, Trip>) {
    AtMost(tbf, trips) && (trips != map[] ==> exists k :: k in trips && tbf == trips[k].tbf)
  }

  ghost predicate SameIntervals(a: map<u32, Trip>, b: map<u32, Trip>) {
    a.Keys == b.Keys && forall k :: k in a ==> a[k].tbf == b[k].tbf
  }

  lemma SameIsTight(tbf: u32, a: map<u32, Trip>, b: map<u32, Trip>)
    requires SameIntervals(a, b)
    ensures Tight(tbf, a) <==> Tight(tbf, b)
  {
    assert forall k :: k in a <==> k in b;
    assert a == map[] <==> b == map[] by {
      assert a == map[] <==> a.Keys == {};
      assert b == map[] <==> b.Keys == {};
    }
  }

  lemma ShortestIsTight(trips: map<u32, Trip>)
    requires trips != map[] && AtMost(1, trips)
    ensures Tight(Tightest(trips).tbf, trips)
  {
    TightestIsMinimum(trips);
    var values := Intervals(trips);
    assert forall k :: k in trips ==> k in values && values[k] == trips[k].tbf;
    var k :| k in trips && Tightest(trips).tbf == values[k];
  }

  // Whoever leaves: either the flag is raised, or the interval is still somebody's.
  lemma LeavingIsFlagged(tbf: u32, trips: map<u32, Trip>, ids: set<u32>)
    requires Tight(tbf, trips) && trips - ids != map[]
    ensures AtMost(tbf, trips - ids)
    ensures Tight(tbf, trips - ids) || exists k :: k in ids && k in trips && trips[k].tbf == tbf
  {
    var k :| k in trips && tbf == trips[k].tbf;
    if k !in ids {
      assert k in trips - ids && (trips - ids)[k].tbf == tbf;
    }
  }

  // What restartTripBatching asks for, its flag raised unless the interval is still somebody's.
  lemma RetuneTightens(a: Adapter, reading: u32)
    requires a.trips != map[] && AtMost(1, a.trips) && AtMost(a.ongoing.tbf, a.trips)
    requires a.tbfDropped || Tight(a.ongoing.tbf, a.trips)
    ensures var restart := Retune(a, Tightest(a.trips), reading);
            if restart.RestartWith? then Tight(restart.setting.tbf, a.trips) else Tight(a.ongoing.tbf, a.trips)
  {
    ShortestIsTight(a.trips);
  }

  lemma RestartTightens(a: Adapter, reading: u32, accepted: bool, modem: Setting)
    requires a.ongoing == modem && AtMost(1, a.trips) && AtMost(modem.tbf, a.trips)
    requires a.tbfDropped || Tight(modem.tbf, a.trips)
    ensures var end := RestartTrips(a, reading, accepted);
            && end.ongoing == ModemRetuned(a, reading, accepted, modem)
            && (Tight(end.ongoing.tbf, end.trips) <==> accepted || Tight(modem.tbf, a.trips))
  {
    var end := RestartTrips(a, reading, accepted);
    if a.trips != map[] {
      RetuneTightens(a, reading);
      RebasedAlike(a.trips, reading);
      SameIsTight(end.ongoing.tbf, a.trips, RebaseAll(a.trips, reading));
    }
  }

  lemma RebasedAlike(trips: map<u32, Trip>, reading: u32)
    ensures SameIntervals(trips, RebaseAll(trips, reading))
  {
    assert trips.Keys == RebaseAll(trips, reading).Keys;
  }

  lemma CountedAlike(trips: map<u32, Trip>, reading: u32, gone: set<u32>)
    ensures SameIntervals(trips - gone, CountAll(trips, reading) - gone)
  {
    assert (trips - gone).Keys == (CountAll(trips, reading) - gone).Keys;
  }

  // The adapter knows the modem's setting, and its interval is the shortest that a live session asks for.
  ghost predicate Tuned(w: World) {
    w.a.ongoing == w.modem && Tight(w.modem.tbf, w.a.trips)
  }

  // The exact condition, updates apart.  When sessions leave, the restart has to be accepted unless the
  // interval is still somebody's; a session that joins at a shorter interval has to get its answers.
  ghost predicate KeepsTuned(w: World, e: Event)
    requires Possible(w, e) && !e.Update?
  {
    match e
    case Travel(_) => true
    case StartFirst(_, _, _, _) => true
    case StartJoin(_, want, queryOk, reading, accepted, _, _) =>
      Restarts(w, e) ==>
        if accepted then queryOk || w.modem.tbf <= want.tbf
        else JoinRestart(w.a.ongoing, want, queryOk, reading).setting == w.a.ongoing
    case StopTrip(id, _, _, accepted, _, _) => accepted || Tight(w.modem.tbf, w.a.trips - {id})
    case Distance(reading, accepted, _) => accepted || Tight(w.modem.tbf, w.a.trips - Completed(w.a, reading))
  }

  lemma JoinedTight(tbf: u32, trips: map<u32, Trip>, id: u32, t: Trip)
    requires Tight(tbf, trips) && trips != map[] && id !in trips
    ensures Tight(Min(tbf, t.tbf), trips[id := t])
  {
    var all := trips[id := t];
    var k :| k in trips && tbf == trips[k].tbf;
    assert k in all && all[k].tbf == tbf && id in all && all[id].tbf == t.tbf;
  }

  lemma FoldedAlike(trips: map<u32, Trip>)
    ensures SameIntervals(trips, FoldAll(trips))
  {
    assert trips.Keys == FoldAll(trips).Keys;
  }

  lemma UniqueTight(a: u32, b: u32, trips: map<u32, Trip>)
    requires trips != map[] && Tight(a, trips)
    ensures Tight(b, trips) <==> a == b
  {
  }

  lemma JoinTightens(w: World, e: Event)
    requires Books(w) && Possible(w, e) && e.StartJoin? && Tuned(w)
    ensures Tuned(Step(w, e)) <==> KeepsTuned(w, e)
  {
    var trips, end := TripsJoined(w, e), Step(w, e);
    FoldedAlike(trips);
    SameIsTight(end.modem.tbf, trips, FoldAll(trips));
    if e.queryOk {
      JoinedTight(w.modem.tbf, w.a.trips, e.id, Trip(e.reading, 0, 0, e.want.distance, e.want.tbf));
      UniqueTight(Min(w.modem.tbf, e.want.tbf), end.modem.tbf, trips);
    } else {
      UniqueTight(w.modem.tbf, end.modem.tbf, trips);
    }
  }

  lemma FirstTightens(w: World, e: Event)
    requires Books(w) && Possible(w, e) && e.StartFirst? && Tuned(w)
    ensures Tuned(Step(w, e))
  {
    if e.accepted {
      var trips := Step(w, e).a.trips;
      assert e.id in trips && trips[e.id].tbf == e.want.tbf;
    }
  }

  lemma StopTightens(w: World, e: Event)
    requires Books(w) && Possible(w, e) && e.StopTrip? && Tuned(w) && Positive(w)
    ensures Tuned(Step(w, e)) <==> KeepsTuned(w, e)
  {
    var a := Erase(w.a, e.id);
    if a.trips != map[] {
      LeavingIsFlagged(w.modem.tbf, w.a.trips, {e.id});
    }
    RestartTightens(a, e.reading, e.accepted, w.modem);
  }

  lemma ReportTightens(w: World, e: Event)
    requires Books(w) && Possible(w, e) && e.Distance? && Tuned(w) && Positive(w)
    ensures Tuned(Step(w, e)) <==> KeepsTuned(w, e)
  {
    var gone, a := Completed(w.a, e.reading), Drop(w.a, e.reading);
    CountedAlike(w.a.trips, e.reading, gone);
    SameIsTight(w.modem.tbf, w.a.trips - gone, a.trips);
    if gone == {} {
      assert w.a.trips - gone == w.a.trips;
    } else {
      if w.a.trips - gone != map[] {
        LeavingIsFlagged(w.modem.tbf, w.a.trips, gone);
      }
      RestartTightens(a, e.reading, e.accepted, w.modem);
    }
  }

  // For every transaction but updates: with positive intervals the modem's is the shortest asked for
  // afterwards exactly when the condition holds.
  lemma StepTightens(w: World, e: Event)
    requires Books(w) && Possible(w, e) && !e.Update? && Tuned(w) && Positive(w)
    ensures Tuned(Step(w, e)) <==> KeepsTuned(w, e)
  {
    match e
    case Travel(_) =>
    case StartFirst(_, _, _, _) => FirstTightens(w, e);
    case StartJoin(_, _, _, _, _, _, _) => JoinTightens(w, e);
    case StopTrip(_, _, _, _, _, _) => StopTightens(w, e);
    case Distance(_, _, _) => ReportTightens(w, e);
  }

  // The stop of an update asks for the shortest interval of the other sessions.
  lemma UpdateAsksForOthers(a: Adapter, id: u32, first: u32)
    requires id in a.trips && a.trips - {id} != map[] && AtMost(1, a.trips) && Tight(a.ongoing.tbf, a.trips)
    ensures var restart := StopsRestart(a, id, first);
            Tight(if restart.RestartWith? then restart.setting.tbf else a.ongoing.tbf, a.trips - {id})
  {
    LeavingIsFlagged(a.ongoing.tbf, a.trips, {id});
    RetuneTightens(Erase(a, id), first);
  }

  // Every restart is accepted, and joining sessions get their queries answered.
  ghost predicate Answered(e: Event) {
    match e
    case StartJoin(_, _, queryOk, _, accepted, _, _) => queryOk && accepted
    case StopTrip(_, _, _, accepted, _, _) => accepted
    case Distance(_, accepted, _) => accepted
    case _ => true
  }

  // Over every such run of sessions with positive intervals the modem batches exactly as often as the
  // most demanding live session asks.
  lemma {:induction false} RunIsTight(w: World, es: seq<Event>)
    requires Books(w) && LegalRun(w, es) && Tuned(w) && Positive(w)
    requires forall e :: e in es ==> Plain(e) && Answered(e)
    ensures Tuned(Run(w, es))
    decreases |es|
  {
    if es != [] {
      assert Plain(es[0]) && Answered(es[0]);
      StepKeepsBooks(w, es[0]);
      StepTightens(w, es[0]);
      PlainStepIsPositive(w, es[0]);
      RunIsTight(Step(w, es[0]), es[1..]);
    }
  }

  // ---- sessions are as they were asked for ----

  // What was last asked for under each session id that came to be live.
  function Wished(wishes: map<u32, Setting>, e: Event): map<u32, Setting> {
    match e
    case StartFirst(id, want, accepted, _) => if accepted then wishes[id := want] else wishes
    case StartJoin(id, want, queryOk, _, _, _, _) => if queryOk then wishes[id := want] else wishes
    case Update(id, want, _, _, _, queryOk, _, _, _, _, _) => if queryOk then wishes[id := want] else wishes
    case _ => wishes
  }

  function WishesAfter(wishes: map<u32, Setting>, es: seq<Event>): map<u32, Setting>
    decreases |es|
  {
    if es == [] then wishes else WishesAfter(Wished(wishes, es[0]), es[1..])
  }

  ghost predicate AsWished(trips: map<u32, Trip>, wishes: map<u32, Setting>) {
    forall k :: k in trips ==> k in wishes && Setting(trips[k].tripDistance, trips[k].tbf) == wishes[k]
  }

  lemma RestartIsAsWished(a: Adapter, reading: u32, accepted: bool, wishes: map<u32, Setting>)
    requires AsWished(a.trips, wishes)
    ensures AsWished(RestartTrips(a, reading, accepted).trips, wishes)
  {
  }

  lemma JoinIsAsWished(w: World, e: Event, wishes: map<u32, Setting>)
    requires Books(w) && Possible(w, e) && e.StartJoin? && AsWished(w.a.trips, wishes)
    ensures AsWished(Step(w, e).a.trips, Wished(wishes, e))
  {
    assert AsWished(TripsJoined(w, e), Wished(wishes, e));
    assert AsWished(FoldAll(TripsJoined(w, e)), Wished(wishes, e));
  }

  lemma UpdateIsAsWished(w: World, e: Event, wishes: map<u32, Setting>)
    requires Books(w) && Possible(w, e) && e.Update? && AsWished(w.a.trips, wishes)
    ensures AsWished(Step(w, e).a.trips, Wished(wishes, e))
  {
    CountersLeft(w, e);
  }

  lemma StepIsAsWished(w: World, e: Event, wishes: map<u32, Setting>)
    requires Books(w) && Possible(w, e) && AsWished(w.a.trips, wishes)
    ensures AsWished(Step(w, e).a.trips, Wished(wishes, e))
  {
    match e
    case Travel(_) =>
    case StartFirst(_, _, _, _) =>
    case StartJoin(_, _, _, _, _, _, _) => JoinIsAsWished(w, e, wishes);
    case StopTrip(id, _, reading, accepted, _, _) => RestartIsAsWished(Erase(w.a, id), reading, accepted, wishes);
    case Distance(reading, accepted, _) => RestartIsAsWished(Drop(w.a, reading), reading, accepted, wishes);
    case Update(_, _, _, _, _, _, _, _, _, _, _) => UpdateIsAsWished(w, e, wishes);
  }

  lemma {:induction false} RunIsAsWished(w: World, es: seq<Event>, wishes: map<u32, Setting>)
    requires Books(w) && LegalRun(w, es) && AsWished(w.a.trips, wishes)
    ensures AsWished(Run(w, es).a.trips, WishesAfter(wishes, es))
    decreases |es|
  {
    if es != [] {
      StepKeepsBooks(w, es[0]);
      StepIsAsWished(w, es[0], wishes);
      RunIsAsWished(Step(w, es[0]), es[1..], Wished(wishes, es[0]));
    }
  }

  // Over every run from start-up: a trip is announced as completed only after the distance it asked for
  // has been travelled since it started.
  lemma CompletedAsWished(es: seq<Event>, w: World, report: Event, k: u32)
    requires LegalRun(BOOT, es) && w == Run(BOOT, es)
    requires report.Distance? && Possible(w, report) && k in w.a.trips && k !in Step(w, report).a.trips
    ensures k in WishesAfter(map[], es)
    ensures WishesAfter(map[], es)[k].distance <= w.r.odometer - w.r.ledger[k].startedAt
  {
    RunIsAsWished(BOOT, es, map[]);
    ReportFlags(w.a, report.reading, report.accepted);
    CompletionIsTruthful(es, w, report, k);
  }

  // The most demanding live session, in terms of what was asked for.
  ghost predicate ShortestWished(tbf: u32, live: set<u32>, wishes: map<u32, Setting>)
    requires live <= wishes.Keys
  {
    (forall k :: k in live ==> tbf <= wishes[k].tbf) && (live != {} ==> exists k :: k in live && tbf == wishes[k].tbf)
  }

  lemma RunMeetsWishes(es: seq<Event>, w: World)
    requires LegalRun(BOOT, es) && w == Run(BOOT, es) && forall e :: e in es ==> Plain(e) && Answered(e)
    ensures w.a.trips.Keys <= WishesAfter(map[], es).Keys
    ensures ShortestWished(w.modem.tbf, w.a.trips.Keys, WishesAfter(map[], es))
  {
    RunIsAsWished(BOOT, es, map[]);
    RunIsTight(BOOT, es);
    if w.a.trips.Keys != {} {
      assert w.a.trips != map[];
    }
  }
}
