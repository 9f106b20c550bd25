// The modem's reporting interval: what the loop with its zero sentinel finds, and when every live session
// is reported to as often as it asked.
module TripCovers {
  import opened Word32
  import opened TripModel
  import opened TripRoad

  // ---- the loop over the sessions ----

  // One component of the loop: zero means "not set yet", and also "zero was found".
  ghost function Sentinel(values: map<u32, u32>, todo: set<u32>, best: u32): u32
    requires todo <= values.Keys
    decreases |todo|
  {
    if todo == {} then best
    else
      var v := values[Least(todo)];
      Sentinel(values, todo - {Least(todo)}, if best == 0 || v < best then v else best)
  }

  function Intervals(trips: map<u32, Trip>): map<u32, u32> {
    map k | k in trips :: trips[k].tbf
  }

  function Remainders(trips: map<u32, Trip>): map<u32, u32> {
    map k | k in trips :: Remaining(trips[k])
  }

  lemma {:induction false} TightestIsSentinel(trips: map<u32, Trip>, todo: set<u32>, best: Setting)
    requires todo <= trips.Keys
    ensures TightestFrom(trips, todo, best) ==
            Setting(Sentinel(Remainders(trips), todo, best.distance), Sentinel(Intervals(trips), todo, best.tbf))
    decreases |todo|
  {
    if todo != {} {
      TightestIsSentinel(trips, todo - {Least(todo)}, Tighten(best, trips[Least(todo)]));
    }
  }

  ghost predicate IsMinimum(m: u32, values: map<u32, u32>, keys: set<u32>)
    requires keys <= values.Keys
  {
    (forall k :: k in keys ==> m <= values[k]) && exists k :: k in keys && m == values[k]
  }

  function Later(values: map<u32, u32>, z: u32): set<u32> {
    set k | k in values && z < k
  }

  predicate IsLastZero(z: u32, values: map<u32, u32>) {
    z in values && values[z] == 0 && forall k :: k in values && z < k ==> values[k] != 0
  }

  // Without zeros the loop finds the minimum, `best` included unless it is unset.
  lemma {:induction false} SentinelWithoutZeros(values: map<u32, u32>, todo: set<u32>, best: u32)
    requires todo <= values.Keys && forall k :: k in todo ==> values[k] != 0
    ensures var m := Sentinel(values, todo, best);
            && (forall k :: k in todo ==> m <= values[k])
            && (best != 0 ==> m <= best)
            && (m == best || exists k :: k in todo && m == values[k])
            && (todo != {} ==> m != 0)
    decreases |todo|
  {
    if todo != {} {
      var k := Least(todo);
      var better := if best == 0 || values[k] < best then values[k] else best;
      SentinelWithoutZeros(values, todo - {k}, better);
      assert forall j :: j in todo ==> j == k || j in todo - {k};
    }
  }

  // With zeros it forgets everything up to the last of them.
  lemma {:induction false} SentinelWithZeros(values: map<u32, u32>, todo: set<u32>, best: u32, z: u32)
    requires todo <= values.Keys && z in todo && IsLastZero(z, values) && Later(values, z) <= todo
    ensures Sentinel(values, todo, best) == Sentinel(values, Later(values, z), 0)
    decreases |todo|
  {
    var k := Least(todo);
    if k == z {
      assert todo - {k} == Later(values, z);
    } else {
      SentinelWithZeros(values, todo - {k}, if best == 0 || values[k] < best then values[k] else best, z);
    }
  }

  lemma LastZeroExists(values: map<u32, u32>, zeros: set<u32>) returns (z: u32)
    requires zeros != {} && forall k :: k in zeros <==> k in values && values[k] == 0
    ensures IsLastZero(z, values)
  {
    z := Greatest(zeros);
  }

  lemma Greatest(s: set<u32>) returns (g: u32)
    requires s != {}
    ensures g in s && forall k :: k in s ==> k <= g
    decreases |s|
  {
    var x :| x in s;
    g := x;
    if s != {x} {
      var h := Greatest(s - {x});
      assert forall k :: k in s ==> k == x || k in s - {x};
      g := if x < h then h else x;
    }
  }

  // What the loop finds: the minimum of the values after the last zero, in key order.
  ghost predicate Found(m: u32, values: map<u32, u32>) {
    if forall k :: k in values ==> values[k] != 0 then IsMinimum(m, values, values.Keys)
    else exists z :: IsLastZero(z, values) && FoundAfter(m, values, z)
  }

  ghost predicate FoundAfter(m: u32, values: map<u32, u32>, z: u32) {
    if Later(values, z) == {} then m == 0 else m != 0 && IsMinimum(m, values, Later(values, z))
  }

  lemma SentinelFinds(values: map<u32, u32>)
    requires values != map[]
    ensures Found(Sentinel(values, values.Keys, 0), values)
  {
    var zeros := set k | k in values && values[k] == 0;
    if zeros == {} {
      assert forall k :: k in values ==> k !in zeros;
      var k := Least(values.Keys);
      SentinelWithoutZeros(values, values.Keys, 0);
    } else {
      var z := LastZeroExists(values, zeros);
      SentinelWithZeros(values, values.Keys, 0, z);
      SentinelWithoutZeros(values, Later(values, z), 0);
      assert FoundAfter(Sentinel(values, values.Keys, 0), values, z);
      assert values[z] == 0;
    }
  }

  // Both minima, for every list of sessions: exact when nothing is zero; otherwise what comes before the
  // last zero, in key order, is not seen.
  lemma TightestExactly(trips: map<u32, Trip>)
    requires trips != map[]
    ensures Found(Tightest(trips).distance, Remainders(trips)) && Found(Tightest(trips).tbf, Intervals(trips))
  {
    TightestIsSentinel(trips, trips.Keys, IDLE);
    var k := Least(trips.Keys);
    assert k in Remainders(trips) && k in Intervals(trips);
    assert Remainders(trips).Keys == trips.Keys == Intervals(trips).Keys;
    SentinelFinds(Remainders(trips));
    SentinelFinds(Intervals(trips));
  }

  // The loop finds the true minima: of the intervals when they are positive, of the remaining distances
  // when none of them is used up.
  lemma TightestIsMinimum(trips: map<u32, Trip>)
    requires trips != map[]
    ensures (forall k :: k in trips ==> 0 < trips[k].tbf) ==>
            IsMinimum(Tightest(trips).tbf, Intervals(trips), trips.Keys)
    ensures (forall k :: k in trips ==> 0 < Remaining(trips[k])) ==>
            IsMinimum(Tightest(trips).distance, Remainders(trips), trips.Keys)
  {
    TightestExactly(trips);
  }

  // ---- the interval the modem runs at ----

  ghost predicate AtMost(tbf: u32, trips: map<u32, Trip>) {
    forall k :: k in trips ==> tbf <= trips[k].tbf
  }

  // The adapter knows what the modem was started with, and it is often enough for every live session.
  ghost predicate Serves(w: World) {
    w.a.ongoing == w.modem && AtMost(w.modem.tbf, w.a.trips)
  }

  // A session that asks for the interval zero, hidden from the loop by a later one that does not.
  ghost predicate ZeroHidden(trips: map<u32, Trip>) {
    exists z, last :: z in trips && trips[z].tbf == 0 && last in trips && trips[last].tbf != 0 && IsLast(last, trips)
  }

  ghost predicate IsLast(last: u32, trips: map<u32, Trip>) {
    forall k :: k in trips ==> k <= last
  }

  lemma HiddenExactly(trips: map<u32, Trip>)
    requires trips != map[]
    ensures AtMost(Tightest(trips).tbf, trips) <==> !ZeroHidden(trips)
    ensures ZeroHidden(trips) ==> Tightest(trips).tbf != 0
  {
    TightestExactly(trips);
    var values, m := Intervals(trips), Tightest(trips).tbf;
    var k := Least(trips.Keys);
    var last := Greatest(trips.Keys);
    assert forall j :: j in trips ==> j in values && values[j] == trips[j].tbf;
    if forall j :: j in values ==> values[j] != 0 {
      assert AtMost(m, trips);
    } else {
      var z :| IsLastZero(z, values) && FoundAfter(m, values, z);
      HiddenBehind(trips, z, last);
    }
  }

  lemma HiddenBehind(trips: map<u32, Trip>, z: u32, last: u32)
    requires last in trips && IsLast(last, trips) && IsLastZero(z, Intervals(trips))
    ensures ZeroHidden(trips) <==> Later(Intervals(trips), z) != {}
  {
    var later := Later(Intervals(trips), z);
    assert last in later <==> z < last;
    assert z <= last;
    if later != {} {
      var j :| j in later;
      assert z < j <= last && last in later;
      assert trips[z].tbf == 0 && trips[last].tbf != 0 && IsLast(last, trips);
    }
  }

  // The restart of restartTripBatching changes to an interval that misses a hidden session.
  ghost predicate Masked(a: Adapter, accepted: bool) {
    accepted && a.trips != map[] && a.tbfDropped && ZeroHidden(a.trips)
  }

  lemma RestartServes(a: Adapter, reading: u32, accepted: bool, modem: Setting)
    requires a.ongoing == modem && AtMost(modem.tbf, a.trips)
    ensures RestartTrips(a, reading, accepted).ongoing == ModemRetuned(a, reading, accepted, modem)
    ensures AtMost(ModemRetuned(a, reading, accepted, modem).tbf, RestartTrips(a, reading, accepted).trips) <==>
            !Masked(a, accepted)
  {
    if a.trips != map[] {
      RetunedInterval(a, reading);
      RebasedAtMost(ModemRetuned(a, reading, accepted, modem).tbf, a.trips, reading);
    }
  }

  lemma RebasedAtMost(tbf: u32, trips: map<u32, Trip>, reading: u32)
    ensures AtMost(tbf, RebaseAll(trips, reading)) <==> AtMost(tbf, trips)
  {
    forall k | k in trips
      ensures RebaseAll(trips, reading)[k].tbf == trips[k].tbf
    {
    }
  }

  lemma RetunedInterval(a: Adapter, reading: u32)
    requires a.trips != map[] && AtMost(a.ongoing.tbf, a.trips)
    ensures var restart := Retune(a, Tightest(a.trips), reading);
            && (a.tbfDropped && ZeroHidden(a.trips) ==> restart.RestartWith?)
            && (restart.RestartWith? ==>
                  (AtMost(restart.setting.tbf, a.trips) <==> !(a.tbfDropped && ZeroHidden(a.trips))))
  {
    HiddenExactly(a.trips);
    if ZeroHidden(a.trips) {
      var z, last :| z in a.trips && a.trips[z].tbf == 0 &&
                     last in a.trips && a.trips[last].tbf != 0 && IsLast(last, a.trips);
      assert a.ongoing.tbf == 0;
    }
  }

  // ---- when the modem goes on serving everybody ----

  // The interval the stop of an update asks for.
  ghost function StopsInterval(a: Adapter, id: u32): u32
    requires id in a.trips
  {
    var rest := Erase(a, id);
    if ByInterval(rest, Tightest(rest.trips)) then Tightest(rest.trips).tbf else rest.ongoing.tbf
  }

  // The exact condition, transaction by transaction.  An update asks on behalf of the other sessions
  // first, without its own wish; and the adapter remembers the restart answered last, not the one the
  // modem acted on last.
  ghost predicate KeepsServing(w: World, e: Event)
    requires Possible(w, e)
  {
    match e
    case Travel(_) => true
    case StartFirst(_, _, _, _) => true
    case StartJoin(_, want, queryOk, reading, accepted, _, _) =>
      Restarts(w, e) && !accepted ==> JoinRestart(w.a.ongoing, want, queryOk, reading).setting == w.a.ongoing
    case StopTrip(id, _, _, accepted, _, _) => !Masked(Erase(w.a, id), accepted)
    case Distance(reading, accepted, _) => Completed(w.a, reading) == {} || !Masked(Drop(w.a, reading), accepted)
    case Update(id, want, _, first, accepted, queryOk, second, startAccepted, _, _, _) =>
      if Stops(w, e) then
        && !Masked(Erase(w.a, id), accepted)
        && (queryOk ==> StopsInterval(w.a, id) <= want.tbf)
        && (Starts(w, e) && startAccepted ==>
              StopsRestart(w.a, id, first).setting == JoinRestart(w.a.ongoing, want, queryOk, second).setting)
      else Starts(w, e) && !startAccepted ==>
        JoinRestart(w.a.ongoing, want, queryOk, second).setting == w.a.ongoing
  }

  lemma JoinedAtMost(tbf: u32, a: Adapter, id: u32, want: Setting, queryOk: bool, reading: u32)
    requires id !in a.trips
    ensures AtMost(tbf, Join(a, id, want, queryOk, reading).trips) <==>
            AtMost(tbf, a.trips) && (queryOk ==> tbf <= want.tbf)
  {
    var trips := Join(a, id, want, queryOk, reading).trips;
    forall k | k in trips
      ensures trips[k].tbf == if k == id then want.tbf else a.trips[k].tbf
    {
    }
    assert forall k :: k in a.trips ==> k in trips;
    assert queryOk ==> id in trips;
  }

  lemma JoinServes(w: World, e: Event)
    requires Books(w) && Possible(w, e) && Serves(w) && e.StartJoin?
    ensures Serves(Step(w, e)) <==> KeepsServing(w, e)
  {
    JoinedAtMost(Step(w, e).modem.tbf, w.a, e.id, e.want, e.queryOk, e.reading);
  }

  lemma StopServes(w: World, e: Event)
    requires Books(w) && Possible(w, e) && Serves(w) && e.StopTrip?
    ensures Serves(Step(w, e)) <==> KeepsServing(w, e)
  {
    RestartServes(Erase(w.a, e.id), e.reading, e.accepted, w.modem);
  }

  lemma ReportServes(w: World, e: Event)
    requires Books(w) && Possible(w, e) && Serves(w) && e.Distance?
    ensures Serves(Step(w, e)) <==> KeepsServing(w, e)
  {
    var a := Drop(w.a, e.reading);
    assert AtMost(w.modem.tbf, a.trips);
    RestartServes(a, e.reading, e.accepted, w.modem);
  }

  lemma UpdatedAtMost(tbf: u32, w: World, e: Event)
    requires e.Update? && e.id in w.a.trips
    ensures AtMost(tbf, TripsUpdated(w, e)) <==>
            AtMost(tbf, Erase(w.a, e.id).trips) && (e.queryOk ==> tbf <= e.want.tbf)
  {
    CountersLeft(w, e);
    var trips, rest := TripsUpdated(w, e), Erase(w.a, e.id).trips;
    assert forall k :: k in rest ==> k in trips && trips[k].tbf == rest[k].tbf;
    assert e.queryOk ==> e.id in trips && trips[e.id].tbf == e.want.tbf;
    assert forall k :: k in trips ==> k in rest || (k == e.id && e.queryOk);
  }

  lemma UpdateServes(w: World, e: Event)
    requires Books(w) && Possible(w, e) && Serves(w) && e.Update?
    ensures Serves(Step(w, e)) <==> KeepsServing(w, e)
  {
    var rest := Erase(w.a, e.id);
    UpdatedAtMost(ModemUpdated(w, e).tbf, w, e);
    RetunedInterval(rest, e.first);
    assert AtMost(w.modem.tbf, rest.trips);
  }

  // For every transaction: the adapter knows the modem's setting and everybody is served afterwards
  // exactly when its condition holds.
  lemma StepServes(w: World, e: Event)
    requires Books(w) && Possible(w, e) && Serves(w)
    ensures Serves(Step(w, e)) <==> KeepsServing(w, e)
  {
    match e
    case Travel(_) =>
    case StartFirst(_, _, _, _) =>
    case StartJoin(_, _, _, _, _, _, _) => JoinServes(w, e);
    case StopTrip(_, _, _, _, _, _) => StopServes(w, e);
    case Distance(_, _, _) => ReportServes(w, e);
    case Update(_, _, _, _, _, _, _, _, _, _, _) => UpdateServes(w, e);
  }

  ghost predicate ServingRun(w: World, es: seq<Event>)
    requires Books(w) && LegalRun(w, es)
    decreases |es|
  {
    es != [] ==> KeepsServing(w, es[0]) && (StepKeepsBooks(w, es[0]); ServingRun(Step(w, es[0]), es[1..]))
  }

  lemma {:induction false} ServingRunServes(w: World, es: seq<Event>)
    requires Books(w) && LegalRun(w, es) && Serves(w) && ServingRun(w, es)
    ensures Serves(Run(w, es))
    decreases |es|
  {
    if es != [] {
      StepKeepsBooks(w, es[0]);
      StepServes(w, es[0]);
      ServingRunServes(Step(w, es[0]), es[1..]);
    }
  }

  // ---- positive intervals, joins accepted, no updates ----

  // Every live session asked for an interval of at least one.
  ghost predicate Positive(w: World) {
    AtMost(1, w.a.trips)
  }

  ghost predicate Plain(e: Event) {
    match e
    case StartFirst(_, want, _, _) => 0 < want.tbf
    case StartJoin(_, want, _, _, accepted, _, _) => 0 < want.tbf && accepted
    case Update(_, _, _, _, _, _, _, _, _, _, _) => false
    case _ => true
  }

  lemma PlainStepIsPositive(w: World, e: Event)
    requires Books(w) && Possible(w, e) && Positive(w) && Plain(e)
    ensures Positive(Step(w, e))
  {
    match e
    case Travel(_) =>
    case StartFirst(_, _, _, _) =>
    case StartJoin(id, want, queryOk, reading, _, _, _) => JoinedAtMost(1, w.a, id, want, queryOk, reading);
    case StopTrip(id, _, reading, _, _, _) => RebasedAtMost(1, Erase(w.a, id).trips, reading);
    case Distance(reading, _, _) => DroppedIsPositive(w.a, reading);
  }

  lemma DroppedIsPositive(a: Adapter, reading: u32)
    requires AtMost(1, a.trips)
    ensures AtMost(1, Drop(a, reading).trips) && AtMost(1, RebaseAll(Drop(a, reading).trips, reading))
  {
    RebasedAtMost(1, Drop(a, reading).trips, reading);
  }

  lemma PlainStepServes(w: World, e: Event)
    requires Books(w) && Legal(w, e) && Serves(w) && Positive(w) && Plain(e)
    ensures Serves(Step(w, e)) && Positive(Step(w, e))
  {
    StepServes(w, e);
    PlainStepIsPositive(w, e);
    if e.Distance? {
      DroppedIsPositive(w.a, e.reading);
    }
  }

  // Over every such run the modem never batches less often than any live session asked for.
  lemma {:induction false} RunCovers(w: World, es: seq<Event>)
    requires Books(w) && LegalRun(w, es) && Serves(w) && Positive(w)
    requires forall e :: e in es ==> Plain(e)
    ensures Serves(Run(w, es))
    decreases |es|
  {
    if es != [] {
      StepKeepsBooks(w, es[0]);
      PlainStepServes(w, es[0]);
      RunCovers(Step(w, es[0]), es[1..]);
    }
  }

  // An update to a longer interval can leave its own session unserved: of two trips at intervals 10 and
  // 20 the first asks for 15, and the modem is restarted at 20.
  lemma UpdateLeavesUnserved(w: World, e: Event)
    requires w == World(
      Adapter(map[1 := Trip(0, 0, 0, 5000, 10), 2 := Trip(0, 0, 0, 9000, 20)], Setting(5000, 10), false, false),
      Road(0, 0, map[1 := Ledger(0, 0, 0), 2 := Ledger(0, 0, 0)]), Setting(5000, 10))
    requires e == Update(1, Setting(5000, 15), true, 0, true, true, 0, true, 0, 0, 0)
    ensures Books(w) && Legal(w, e) && Serves(w)
    ensures !Serves(Step(w, e)) && Step(w, e).modem.tbf == 20
  {
    var rest := Erase(w.a, 1);
    assert 1 in w.a.trips && 2 in rest.trips && rest.trips.Keys == {2} && rest.trips[2] == Trip(0, 0, 0, 9000, 20);
    assert Least({2}) == 2;
    assert Tightest(rest.trips) == Setting(9000, 20);
    assert StopsRestart(w.a, 1, 0) == RestartWith(Setting(9000, 20));
    assert JoinRestart(w.a.ongoing, e.want, true, 0) == NoRestart;
    UpdatedAtMost(20, w, e);
    assert Stops(w, e) && !Starts(w, e);
  }
}
