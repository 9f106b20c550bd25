// The road behind the trip counters: a ghost odometer, and for every session what the adapter can
// know about the distance travelled.  A session is reported complete only after its distance has
// really been travelled, and exactly when its counters missed nothing.
module TripRoad {
  import opened Word32
  import opened TripModel

  // startedAt: odometer when the session's first metre counts.
  // seenAt:    odometer of the latest reading recorded in the session's counters.
  // lost:      metres travelled since then that the counters miss.
  datatype Ledger = Ledger(startedAt: nat, seenAt: nat, lost: nat)

  datatype Road = Road(odometer: nat, batchStart: nat, ledger: map<u32, Ledger>)

  function Advance(r: Road, metres: nat): Road {
    r.(odometer := r.odometer + metres)
  }

  function Enter(r: Road, id: u32): Road {
    r.(ledger := r.ledger[id := Ledger(r.odometer, r.odometer, 0)])
  }

  // A reading of the modem's counter reaches every session.
  function ReadAll(r: Road, reading: nat): Road {
    r.(ledger := map k | k in r.ledger :: r.ledger[k].(seenAt := r.batchStart + reading))
  }

  // The modem accepts a restart: its counter is zero here and now.
  ghost function ModemRestart(r: Road): Road
    requires Ordered(r)
  {
    Road(r.odometer, r.odometer,
         map k | k in r.ledger ::
           r.ledger[k].(seenAt := r.odometer, lost := r.ledger[k].lost + (r.odometer - r.ledger[k].seenAt)))
  }

  // The ledger of counters folded without a restart, or by two overlapping ones: whatever the batch's
  // start is ahead of the counter has been missed.
  function Settled(t: Trip, startedAt: nat, r: Road): Ledger {
    var claimed := startedAt + t.thisTrip;
    Ledger(startedAt, r.batchStart, if claimed <= r.batchStart then r.batchStart - claimed else 0)
  }

  function Settle(r: Road, trips: map<u32, Trip>): Road {
    r.(ledger := map k | k in r.ledger ::
         if k in trips then Settled(trips[k], r.ledger[k].startedAt, r) else r.ledger[k])
  }

  ghost predicate Ordered(r: Road) {
    && r.batchStart <= r.odometer < WORD
    && forall k :: k in r.ledger ==>
         r.ledger[k].startedAt <= r.odometer && r.batchStart <= r.ledger[k].seenAt <= r.odometer
  }

  // `modem` is what the modem was last started with.
  datatype World = World(a: Adapter, r: Road, modem: Setting)

  // The books of one session balance: its counters say where it started and what was lost.
  ghost predicate Balanced(t: Trip, l: Ledger, r: Road) {
    && t.ongoingBatch <= r.odometer - r.batchStart
    && t.onRestart + l.lost + l.startedAt == r.batchStart + t.ongoingBatch
    && t.thisTrip + l.lost + l.startedAt == l.seenAt
  }

  ghost predicate Balance(trips: map<u32, Trip>, r: Road) {
    && Ordered(r)
    && trips.Keys == r.ledger.Keys
    && forall k :: k in trips ==> Balanced(trips[k], r.ledger[k], r)
  }

  ghost predicate Books(w: World) {
    Balance(w.a.trips, w.r)
  }

  // One transaction with all its replies.  `before` metres pass until the modem answers the query,
  // `after` more until it acts on the last restart.  An update sends two queries, answered `between`
  // metres apart.
  datatype Event =
    | Travel(metres: nat)
    | StartFirst(id: u32, want: Setting, accepted: bool, after: nat)
    | StartJoin(id: u32, want: Setting, queryOk: bool, reading: u32, accepted: bool, before: nat, after: nat)
    | StopTrip(id: u32, queryOk: bool, reading: u32, accepted: bool, before: nat, after: nat)
    | Distance(reading: u32, accepted: bool, after: nat)
    | Update(id: u32, want: Setting, firstOk: bool, first: u32, accepted: bool,
             queryOk: bool, second: u32, startAccepted: bool, before: nat, between: nat, after: nat)

  ghost predicate Moves(w: World, metres: nat) {
    w.r.odometer + metres < WORD
  }

  // The counter the modem shows after `before` more metres.
  ghost predicate Shows(w: World, reading: u32, before: nat) {
    w.r.batchStart + reading == w.r.odometer + before
  }

  // The environment: no 32-bit wrap of the odometer, correct answers to queries that succeed, any value
  // from those that fail, and reports measured in the current batch after every live session joined.
  // Updating the only trip is a stop and then a first start.
  ghost predicate Possible(w: World, e: Event) {
    match e
    case Travel(m) => Moves(w, m)
    case StartFirst(id, want, accepted, after) => w.a.trips == map[] && Moves(w, after)
    case StartJoin(id, want, queryOk, reading, accepted, before, after) =>
      && w.a.trips != map[] && id !in w.a.trips
      && Moves(w, before + after)
      && (queryOk ==> Shows(w, reading, before))
    case StopTrip(id, queryOk, reading, accepted, before, after) =>
      id in w.a.trips && Moves(w, before + after) && (queryOk ==> Shows(w, reading, before))
    case Distance(reading, accepted, after) =>
      && Moves(w, after)
      && w.r.batchStart + reading <= w.r.odometer
      && forall k :: k in w.a.trips ==> w.a.trips[k].ongoingBatch <= reading
    case Update(id, want, firstOk, first, _, queryOk, second, _, before, between, after) =>
      && id in w.a.trips && Erase(w.a, id).trips != map[]
      && Moves(w, before + between + after)
      && (firstOk ==> Shows(w, first, before))
      && (queryOk ==> Shows(w, second, before + between))
  }

  // The stop of an update restarts the modem; its start folds the counters for a restart.
  ghost predicate Stops(w: World, e: Event)
    requires e.Update? && e.id in w.a.trips
  {
    StopsRestart(w.a, e.id, e.first).RestartWith? && e.accepted
  }

  predicate Starts(w: World, e: Event)
    requires e.Update?
  {
    JoinRestart(w.a.ongoing, e.want, e.queryOk, e.second).RestartWith?
  }

  predicate Restarts(w: World, e: Event)
    requires e.StartJoin?
  {
    JoinRestart(w.a.ongoing, e.want, e.queryOk, e.reading).RestartWith?
  }

  ghost function Forget(r: Road, ids: set<u32>): Road {
    r.(ledger := r.ledger - ids)
  }

  // The road of the restart inside restartTripBatching.
  ghost function RoadRetuned(a: Adapter, r: Road, reading: u32, accepted: bool, after: nat): Road
    requires a.trips != map[]
    requires Ordered(r) && r.odometer + after < WORD && r.batchStart + reading <= r.odometer
  {
    if Retune(a, Tightest(a.trips), reading).RestartWith? && accepted
    then ModemRestart(Advance(ReadAll(r, reading), after))
    else Advance(r, after)
  }

  // The same when the query failed: the handler uses whatever value came with the error.
  ghost function RoadRetunedBlind(a: Adapter, r: Road, reading: u32, accepted: bool, after: nat): Road
    requires a.trips != map[]
  {
    var there := Advance(r, after);
    if Retune(a, Tightest(a.trips), reading).RestartWith? && accepted
    then Settle(there.(batchStart := there.odometer), RebaseAll(a.trips, reading))
    else there
  }

  ghost function RoadStopped(w: World, e: Event): Road
    requires Books(w) && Possible(w, e) && e.StopTrip?
  {
    var a, r := Erase(w.a, e.id), Forget(Advance(w.r, e.before), {e.id});
    if a.trips == map[] then Advance(r, e.after)
    else if e.queryOk then RoadRetuned(a, r, e.reading, e.accepted, e.after)
    else RoadRetunedBlind(a, r, e.reading, e.accepted, e.after)
  }

  ghost function ModemRetuned(a: Adapter, reading: u32, accepted: bool, modem: Setting): Setting {
    if a.trips == map[] then IDLE
    else
      var restart := Retune(a, Tightest(a.trips), reading);
      if restart.RestartWith? && accepted then restart.setting else modem
  }

  ghost function Joined(w: World, e: Event): World
    requires Books(w) && Possible(w, e) && e.StartJoin?
  {
    var asked := Advance(w.r, e.before);
    var r := Advance(if e.queryOk then Enter(asked, e.id) else asked, e.after);
    var a := Join(w.a, e.id, e.want, e.queryOk, e.reading);
    if !Restarts(w, e) then World(a, r, w.modem)
    else if e.accepted then
      World(a, ModemRestart(r), JoinRestart(w.a.ongoing, e.want, e.queryOk, e.reading).setting)
    else World(a, Settle(r, a.trips), w.modem)
  }

  // Where the device is when the second query is answered and the session starts over.
  ghost function RoadEntered(w: World, e: Event): Road
    requires e.Update?
  {
    Reentered(Advance(w.r, e.before + e.between), e.id, e.queryOk, e.after)
  }

  ghost function Reentered(r: Road, id: u32, enters: bool, after: nat): Road {
    Advance(if enters then Enter(Forget(r, {id}), id) else Forget(r, {id}), after)
  }

  ghost function RoadUpdated(w: World, e: Event): Road
    requires e.Update? && e.id in w.a.trips
  {
    if Stops(w, e) || Starts(w, e) then Settle(RoadRestarted(w, e), TripsUpdated(w, e)) else RoadEntered(w, e)
  }

  ghost function RoadRestarted(w: World, e: Event): Road
    requires e.Update? && e.id in w.a.trips
  {
    var r := RoadEntered(w, e);
    if Stops(w, e) || e.startAccepted then r.(batchStart := r.odometer) else r
  }

  ghost function TripsUpdated(w: World, e: Event): map<u32, Trip>
    requires e.Update? && e.id in w.a.trips
  {
    UpdateTrip(w.a, e.id, e.want, e.first, e.accepted, e.queryOk, e.second).trips
  }

  // The start's restart reaches the modem last.
  ghost function ModemUpdated(w: World, e: Event): Setting
    requires e.Update? && e.id in w.a.trips
  {
    if Starts(w, e) && e.startAccepted then JoinRestart(w.a.ongoing, e.want, e.queryOk, e.second).setting
    else if Stops(w, e) then StopsRestart(w.a, e.id, e.first).setting
    else w.modem
  }

  ghost function Step(w: World, e: Event): World
    requires Books(w) && Possible(w, e)
  {
    match e
    case Travel(m) => w.(r := Advance(w.r, m))
    case StartFirst(id, want, accepted, after) =>
      var r := Advance(w.r, after);
      World(TripModel.StartFirst(w.a, id, want, accepted),
            if accepted then Enter(Road(r.odometer, r.odometer, map[]), id) else r,
            if accepted then want else w.modem)
    case StartJoin(_, _, _, _, _, _, _) => Joined(w, e)
    case StopTrip(id, _, reading, accepted, _, _) =>
      World(Stop(w.a, id, reading, accepted), RoadStopped(w, e),
            ModemRetuned(Erase(w.a, id), reading, accepted, w.modem))
    case Distance(reading, accepted, after) =>
      var a := Drop(w.a, reading);
      var gone := Completed(w.a, reading);
      var r := Forget(ReadAll(w.r, reading), gone);
      World(Report(w.a, reading, accepted),
            if gone == {} || a.trips == map[] then Advance(r, after)
            else RoadRetuned(a, r, reading, accepted, after),
            if gone == {} then w.modem else ModemRetuned(a, reading, accepted, w.modem))
    case Update(id, want, _, first, accepted, queryOk, second, _, _, _, _) =>
      World(UpdateTrip(w.a, id, want, first, accepted, queryOk, second), RoadUpdated(w, e), ModemUpdated(w, e))
  }

  // ---- the transactions that can count metres twice, and when they do not ----

  // Folding a session's counters while the modem counts on is harmless if they claim nothing of the
  // current batch.
  ghost predicate Unclaimed(w: World, ids: set<u32>) {
    forall k :: k in w.a.trips && k in w.r.ledger && k !in ids ==>
      w.a.trips[k].thisTrip + w.r.ledger[k].startedAt <= w.r.batchStart
  }

  // A refused restart of a joining session, an update whose restarts overlap, and a stop whose query
  // failed need a condition: on the readings, unless a query failed.
  ghost predicate Harmless(w: World, e: Event)
    requires Possible(w, e)
  {
    match e
    case StartJoin(_, _, queryOk, reading, accepted, _, _) =>
      Restarts(w, e) && !accepted ==> if queryOk then reading == 0 else Unclaimed(w, {})
    case StopTrip(id, queryOk, reading, accepted, before, after) =>
      var a := Erase(w.a, id);
      a.trips != map[] && Retune(a, Tightest(a.trips), reading).RestartWith? && accepted && !queryOk ==>
        Countable(w, id, reading, before + after)
    case Update(_, _, _, _, _, _, _, _, _, _, _) => HarmlessUpdate(w, e, Stops(w, e), Starts(w, e))
    case _ => true
  }

  // With both restarts the old batch's reading is counted again, and the road must make up for it; with
  // the stop's alone the session starts from the difference of the two readings, wrapped.
  ghost predicate HarmlessUpdate(w: World, e: Event, stops: bool, starts: bool)
    requires e.Update?
  {
    if stops && starts then
      if e.queryOk then e.first <= e.after else Affordable(w, e.id, e.first, e.before + e.between + e.after)
    else if stops then
      && (e.queryOk ==> if e.firstOk then e.first == e.second else Sub(e.first, e.second) <= e.after)
      && (e.firstOk || Countable(w, e.id, e.first, e.before + e.between + e.after))
    else starts && !e.startAccepted ==> if e.queryOk then e.second == 0 else Unclaimed(w, {e.id})
  }

  // The sessions are counted up to a value that the modem need not have shown.
  ghost predicate Countable(w: World, id: u32, reading: u32, metres: nat) {
    forall k :: k in w.a.trips && k in w.r.ledger && k != id ==>
      Counted(w.a.trips[k], reading).thisTrip + w.r.ledger[k].startedAt <= w.r.odometer + metres
  }

  // The old batch's reading is added to counters that hold it already; the road must cover both.
  ghost predicate Affordable(w: World, id: u32, first: u32, metres: nat) {
    forall k :: k in w.a.trips && k in w.r.ledger && k != id ==>
      Add(w.a.trips[k].thisTrip, first) + w.r.ledger[k].startedAt <= w.r.odometer + metres
  }

  ghost predicate Legal(w: World, e: Event) {
    Possible(w, e) && Harmless(w, e)
  }

  // ---- one session at a time ----

  lemma CountedBalances(t: Trip, l: Ledger, r: Road, reading: u32)
    requires Ordered(r) && Balanced(t, l, r)
    requires t.ongoingBatch <= reading && r.batchStart + reading <= r.odometer
    ensures Balanced(Counted(t, reading), l.(seenAt := r.batchStart + reading), r)
  {
    assert Sub(reading, t.ongoingBatch) == reading - t.ongoingBatch;
  }

  lemma FoldedBalances(t: Trip, l: Ledger, r: Road)
    requires Ordered(r) && Balanced(t, l, r) && l.seenAt <= r.odometer
    ensures Balanced(Folded(t), l.(seenAt := r.odometer, lost := l.lost + (r.odometer - l.seenAt)),
                     r.(batchStart := r.odometer))
  {
  }

  // Counters that have just been folded balance exactly when they claim no more than the batch's start.
  lemma FoldedSettles(t: Trip, startedAt: nat, r: Road)
    requires t.ongoingBatch == 0 && t.onRestart == t.thisTrip && r.batchStart <= r.odometer
    ensures Balanced(t, Settled(t, startedAt, r), r) <==> t.thisTrip + startedAt <= r.batchStart
  {
  }

  // ---- every step keeps the books ----

  lemma ReadKeepsBooks(trips: map<u32, Trip>, r: Road, reading: u32)
    requires Balance(trips, r) && r.batchStart + reading <= r.odometer
    requires forall k :: k in trips ==> trips[k].ongoingBatch <= reading
    ensures Balance(CountAll(trips, reading), ReadAll(r, reading))
  {
    forall k | k in trips
      ensures Balanced(Counted(trips[k], reading), ReadAll(r, reading).ledger[k], ReadAll(r, reading))
    {
      CountedBalances(trips[k], r.ledger[k], r, reading);
    }
  }

  lemma RestartKeepsBooks(trips: map<u32, Trip>, r: Road)
    requires Balance(trips, r)
    ensures Balance(FoldAll(trips), ModemRestart(r))
  {
    forall k | k in trips
      ensures Balanced(Folded(trips[k]), ModemRestart(r).ledger[k], ModemRestart(r))
    {
      FoldedBalances(trips[k], r.ledger[k], r);
    }
  }

  lemma RetuneKeepsBooks(a: Adapter, r: Road, reading: u32, accepted: bool, after: nat)
    requires Balance(a.trips, r) && a.trips != map[]
    requires r.odometer + after < WORD && r.batchStart + reading <= r.odometer
    requires forall k :: k in a.trips ==> a.trips[k].ongoingBatch <= reading
    ensures Balance(RestartTrips(a, reading, accepted).trips, RoadRetuned(a, r, reading, accepted, after))
  {
    if Retune(a, Tightest(a.trips), reading).RestartWith? && accepted {
      ReadKeepsBooks(a.trips, r, reading);
      var read := CountAll(a.trips, reading);
      var there := Advance(ReadAll(r, reading), after);
      AdvanceKeepsBooks(read, ReadAll(r, reading), after);
      RestartKeepsBooks(read, there);
      assert FoldAll(read) == RebaseAll(a.trips, reading);
    }
  }

  lemma EnterKeepsBooks(trips: map<u32, Trip>, r: Road, id: u32, t: Trip)
    requires Balance(trips, r) && Balanced(t, Ledger(r.odometer, r.odometer, 0), r)
    ensures Balance(trips[id := t], Enter(r, id))
  {
  }

  lemma AdvanceKeepsBooks(trips: map<u32, Trip>, r: Road, metres: nat)
    requires Balance(trips, r) && r.odometer + metres < WORD
    ensures Balance(trips, Advance(r, metres))
  {
  }

  lemma ForgetKeepsBooks(trips: map<u32, Trip>, r: Road, ids: set<u32>)
    requires Balance(trips, r)
    ensures Balance(trips - ids, Forget(r, ids))
  {
  }

  // Settling folded counters keeps the books exactly when none of them claims too much.
  lemma SettleKeepsBooks(trips: map<u32, Trip>, r: Road)
    requires trips.Keys == r.ledger.Keys && r.batchStart <= r.odometer < WORD
    requires forall k :: k in r.ledger ==> r.ledger[k].startedAt <= r.odometer
    requires forall k :: k in trips ==> trips[k].ongoingBatch == 0 && trips[k].onRestart == trips[k].thisTrip
    ensures Balance(trips, Settle(r, trips)) <==>
            forall k :: k in trips ==> trips[k].thisTrip + r.ledger[k].startedAt <= r.batchStart
  {
    var settled := Settle(r, trips);
    forall k | k in trips
      ensures Balanced(trips[k], settled.ledger[k], settled) <==>
              trips[k].thisTrip + r.ledger[k].startedAt <= r.batchStart
    {
      FoldedSettles(trips[k], r.ledger[k].startedAt, r);
    }
  }

  // ---- joining ----

  ghost function TripsJoined(w: World, e: Event): map<u32, Trip>
    requires e.StartJoin?
  {
    if e.queryOk then w.a.trips[e.id := Trip(e.reading, 0, 0, e.want.distance, e.want.tbf)] else w.a.trips
  }

  ghost function RoadJoined(w: World, e: Event): Road
    requires e.StartJoin?
  {
    var asked := Advance(w.r, e.before);
    Advance(if e.queryOk then Enter(asked, e.id) else asked, e.after)
  }

  lemma JoinedBalances(w: World, e: Event)
    requires Books(w) && Possible(w, e) && e.StartJoin?
    ensures Balance(TripsJoined(w, e), RoadJoined(w, e))
  {
    AdvanceKeepsBooks(w.a.trips, w.r, e.before);
    var asked := Advance(w.r, e.before);
    if e.queryOk {
      EnterKeepsBooks(w.a.trips, asked, e.id, Trip(e.reading, 0, 0, e.want.distance, e.want.tbf));
    }
    AdvanceKeepsBooks(TripsJoined(w, e), if e.queryOk then Enter(asked, e.id) else asked, e.after);
  }

  lemma JoinKeepsBooks(w: World, e: Event)
    requires Books(w) && Possible(w, e) && e.StartJoin?
    ensures Books(Step(w, e)) <==> Harmless(w, e)
  {
    JoinedBalances(w, e);
    if Restarts(w, e) {
      if e.accepted {
        RestartKeepsBooks(TripsJoined(w, e), RoadJoined(w, e));
      } else {
        RefusedJoinKeepsBooks(w, e);
      }
    }
  }

  // What the sessions' folded counters claim after a join.
  lemma JoinedClaims(w: World, e: Event)
    requires Books(w) && Possible(w, e) && e.StartJoin?
    requires TripsJoined(w, e).Keys == RoadJoined(w, e).ledger.Keys
    ensures var trips, r := TripsJoined(w, e), RoadJoined(w, e);
            (forall k :: k in trips ==> trips[k].thisTrip + r.ledger[k].startedAt <= r.batchStart) <==>
            if e.queryOk then e.reading == 0 else Unclaimed(w, {})
  {
    forall k | k in TripsJoined(w, e)
      ensures var t, r := TripsJoined(w, e)[k], RoadJoined(w, e);
              && (k == e.id ==> e.queryOk) && (k != e.id ==> k in w.a.trips && k in w.r.ledger)
              && (t.thisTrip + r.ledger[k].startedAt <= r.batchStart <==>
                    if k == e.id then e.reading == 0
                    else w.a.trips[k].thisTrip + w.r.ledger[k].startedAt <= w.r.batchStart)
    {
    }
    assert forall k :: k in w.a.trips ==> k in TripsJoined(w, e);
    assert e.queryOk ==> e.id in TripsJoined(w, e);
    if e.queryOk && e.reading == 0 {
      UnmovedIsUnclaimed(w);
    }
  }

  lemma RefusedJoinKeepsBooks(w: World, e: Event)
    requires Books(w) && Possible(w, e) && e.StartJoin?
    ensures var folded := FoldAll(TripsJoined(w, e));
            Balance(folded, Settle(RoadJoined(w, e), folded)) <==>
            if e.queryOk then e.reading == 0 else Unclaimed(w, {})
  {
    JoinedBalances(w, e);
    JoinedClaims(w, e);
    FoldedSettle(TripsJoined(w, e), RoadJoined(w, e));
  }

  lemma FoldedSettle(trips: map<u32, Trip>, r: Road)
    requires trips.Keys == r.ledger.Keys && r.batchStart <= r.odometer < WORD
    requires forall k :: k in r.ledger ==> r.ledger[k].startedAt <= r.odometer
    ensures Balance(FoldAll(trips), Settle(r, FoldAll(trips))) <==>
            forall k :: k in trips ==> trips[k].thisTrip + r.ledger[k].startedAt <= r.batchStart
  {
    SettleKeepsBooks(FoldAll(trips), r);
    forall k | k in trips
      ensures k in FoldAll(trips) && FoldAll(trips)[k].thisTrip == trips[k].thisTrip
    {
    }
  }

  // Where the modem has not counted anything yet, no session's counters claim anything of the batch.
  lemma UnmovedIsUnclaimed(w: World)
    requires Books(w) && w.r.odometer == w.r.batchStart
    ensures Unclaimed(w, {})
  {
    forall k | k in w.a.trips
      ensures w.a.trips[k].thisTrip + w.r.ledger[k].startedAt <= w.r.batchStart
    {
      assert Balanced(w.a.trips[k], w.r.ledger[k], w.r);
    }
  }

  // ---- updating ----

  // A session's counters after an update that folds or rebases them.
  function Outcome(t: Trip, stops: bool, starts: bool, first: u32): Trip {
    var folded := if starts then Folded(t) else t;
    if stops then Rebased(folded, first) else folded
  }

  // What an update with a restart leaves behind, before the ledger is settled.
  ghost predicate Leaves(w: World, e: Event, stops: bool, starts: bool, trips: map<u32, Trip>, r: Road)
    requires e.Update?
  {
    && trips.Keys == r.ledger.Keys
    && r.odometer == w.r.odometer + e.before + e.between + e.after
    && r.batchStart == (if stops || e.startAccepted then r.odometer else w.r.batchStart)
    && (forall k :: k in trips <==> if k == e.id then e.queryOk else k in w.a.trips)
    && (forall k :: k in trips && k != e.id ==>
          k in w.r.ledger && trips[k] == Outcome(w.a.trips[k], stops, starts, e.first) &&
          r.ledger[k].startedAt == w.r.ledger[k].startedAt)
    && (e.queryOk ==>
          trips[e.id] == Outcome(Trip(e.second, 0, 0, e.want.distance, e.want.tbf), stops, starts, e.first) &&
          r.ledger[e.id].startedAt == w.r.odometer + e.before + e.between)
  }

  lemma UpdateLeaves(w: World, e: Event)
    requires Books(w) && Possible(w, e) && e.Update?
    ensures Leaves(w, e, Stops(w, e), Starts(w, e), TripsUpdated(w, e), RoadRestarted(w, e))
  {
    RoadLeft(w, e);
    CountersLeft(w, e);
  }

  lemma RoadLeft(w: World, e: Event)
    requires Books(w) && Possible(w, e) && e.Update?
    ensures var r := RoadEntered(w, e);
            && r.odometer == w.r.odometer + e.before + e.between + e.after && r.batchStart == w.r.batchStart
            && (forall k :: k in r.ledger <==> if k == e.id then e.queryOk else k in w.a.trips)
            && (forall k :: k in r.ledger && k != e.id ==>
                  k in w.r.ledger && r.ledger[k].startedAt == w.r.ledger[k].startedAt)
            && (e.queryOk ==> r.ledger[e.id].startedAt == w.r.odometer + e.before + e.between)
  {
  }

  lemma CountersLeft(w: World, e: Event)
    requires e.Update? && e.id in w.a.trips
    ensures var trips, stops, starts := TripsUpdated(w, e), Stops(w, e), Starts(w, e);
            && (forall k :: k in trips <==> if k == e.id then e.queryOk else k in w.a.trips)
            && (forall k :: k in trips && k != e.id ==> trips[k] == Outcome(w.a.trips[k], stops, starts, e.first))
            && (e.queryOk ==>
                  trips[e.id] == Outcome(Trip(e.second, 0, 0, e.want.distance, e.want.tbf), stops, starts, e.first))
  {
  }

  // The other sessions: what their counters come to claim.
  lemma OtherOutcome(t: Trip, l: Ledger, r: Road, stops: bool, starts: bool, first: u32)
    requires Ordered(r) && Balanced(t, l, r) && l.seenAt <= r.odometer
    ensures var out := Outcome(t, stops, starts, first);
            && (stops && starts ==> out.thisTrip == Add(t.thisTrip, first))
            && (stops && !starts ==> out.thisTrip == Counted(t, first).thisTrip)
            && (!stops ==> out.thisTrip == t.thisTrip && out.thisTrip + l.startedAt <= r.odometer)
  {
  }

  // A reading that the modem showed is counted without wrapping.
  lemma ShownIsCounted(t: Trip, l: Ledger, r: Road, reading: u32)
    requires Ordered(r) && Balanced(t, l, r) && r.odometer <= r.batchStart + reading < WORD
    ensures Counted(t, reading).thisTrip + l.startedAt + l.lost == r.batchStart + reading
  {
    assert Sub(reading, t.ongoingBatch) == reading - t.ongoingBatch;
  }

  // The updated session: its count starts from the old batch's reading, or from what the two readings
  // differ by, wrapped.
  lemma OwnOutcome(want: Setting, first: u32, second: u32, stops: bool, starts: bool)
    ensures var t := Outcome(Trip(second, 0, 0, want.distance, want.tbf), stops, starts, first);
            && (stops && starts ==> t.thisTrip == first)
            && (stops && !starts ==> t.thisTrip == Sub(first, second))
            && (!stops ==> t.thisTrip == 0)
  {
  }

  lemma SubOfLater(first: u32, second: u32)
    requires first <= second
    ensures Sub(first, second) == if first == second then 0 else WORD - (second - first)
  {
  }

  predicate OwnFits(e: Event, stops: bool, starts: bool)
    requires e.Update?
  {
    if stops && starts then e.first <= e.after
    else if stops then if e.firstOk then e.first == e.second else Sub(e.first, e.second) <= e.after
    else e.startAccepted || e.second == 0
  }

  ghost predicate OtherFits(w: World, e: Event, stops: bool, starts: bool, k: u32)
    requires e.Update? && k in w.a.trips && k in w.r.ledger
  {
    var t, startedAt := w.a.trips[k], w.r.ledger[k].startedAt;
    var end := w.r.odometer + (e.before + e.between + e.after);
    if stops && starts then Add(t.thisTrip, e.first) + startedAt <= end
    else if stops then e.firstOk || Counted(t, e.first).thisTrip + startedAt <= end
    else e.startAccepted || t.thisTrip + startedAt <= w.r.batchStart
  }

  lemma OwnClaim(w: World, e: Event, stops: bool, starts: bool, trips: map<u32, Trip>, r: Road)
    requires Books(w) && Possible(w, e) && e.Update? && e.queryOk && (stops || starts)
    requires Leaves(w, e, stops, starts, trips, r)
    ensures trips[e.id].thisTrip + r.ledger[e.id].startedAt <= r.batchStart <==> OwnFits(e, stops, starts)
  {
    OwnOutcome(e.want, e.first, e.second, stops, starts);
    if e.firstOk {
      SubOfLater(e.first, e.second);
    }
  }

  lemma OtherClaim(w: World, e: Event, stops: bool, starts: bool, trips: map<u32, Trip>, r: Road, k: u32)
    requires Books(w) && Possible(w, e) && e.Update? && (stops || starts)
    requires Leaves(w, e, stops, starts, trips, r) && k in trips && k != e.id
    ensures trips[k].thisTrip + r.ledger[k].startedAt <= r.batchStart <==> OtherFits(w, e, stops, starts, k)
  {
    OtherOutcome(w.a.trips[k], w.r.ledger[k], w.r, stops, starts, e.first);
    if e.firstOk {
      ShownIsCounted(w.a.trips[k], w.r.ledger[k], w.r, e.first);
    }
  }

  // The updated session alone decides, if both queries are answered.
  lemma FitsAreHarmless(w: World, e: Event, stops: bool, starts: bool)
    requires Books(w) && Possible(w, e) && e.Update? && (stops || starts)
    ensures HarmlessUpdate(w, e, stops, starts) <==>
            && (e.queryOk ==> OwnFits(e, stops, starts))
            && (forall k :: k in w.a.trips && k != e.id ==> OtherFits(w, e, stops, starts, k))
  {
    if e.queryOk && stops && starts && e.first <= e.after {
      CoveredByOwn(w, e);
    }
    if e.queryOk && e.second == 0 {
      UnmovedIsUnclaimed(w);
    }
  }

  // No counter claims too much exactly when the update is harmless.
  lemma ClaimsAreHarmless(w: World, e: Event, stops: bool, starts: bool, trips: map<u32, Trip>, r: Road)
    requires Books(w) && Possible(w, e) && e.Update? && (stops || starts)
    requires Leaves(w, e, stops, starts, trips, r)
    ensures (forall k :: k in trips ==> trips[k].thisTrip + r.ledger[k].startedAt <= r.batchStart) <==>
            HarmlessUpdate(w, e, stops, starts)
  {
    FitsAreHarmless(w, e, stops, starts);
    forall k | k in trips && k != e.id
      ensures k in w.a.trips
      ensures trips[k].thisTrip + r.ledger[k].startedAt <= r.batchStart <==> OtherFits(w, e, stops, starts, k)
    {
      OtherClaim(w, e, stops, starts, trips, r, k);
    }
    assert forall k :: k in w.a.trips && k != e.id ==> k in trips;
    if e.queryOk {
      OwnClaim(w, e, stops, starts, trips, r);
    }
  }

  lemma CoveredByOwn(w: World, e: Event)
    requires Books(w) && Possible(w, e) && e.Update? && e.first <= e.after
    ensures Affordable(w, e.id, e.first, e.before + e.between + e.after)
  {
    forall k | k in w.a.trips && k in w.r.ledger && k != e.id
      ensures Add(w.a.trips[k].thisTrip, e.first) + w.r.ledger[k].startedAt <=
              w.r.odometer + (e.before + e.between + e.after)
    {
      assert Balanced(w.a.trips[k], w.r.ledger[k], w.r);
    }
  }

  lemma ReenterKeepsBooks(trips: map<u32, Trip>, r: Road, id: u32, t: Trip, after: nat)
    requires Balance(trips, r) && r.odometer + after < WORD
    requires Balanced(t, Ledger(r.odometer, r.odometer, 0), r)
    ensures Balance((trips - {id})[id := t], Reentered(r, id, true, after))
  {
    var left := Forget(r, {id});
    ForgetKeepsBooks(trips, r, {id});
    EnterKeepsBooks(trips - {id}, left, id, t);
    AdvanceKeepsBooks((trips - {id})[id := t], Enter(left, id), after);
  }

  lemma LeaveKeepsBooks(trips: map<u32, Trip>, r: Road, id: u32, after: nat)
    requires Balance(trips, r) && r.odometer + after < WORD
    ensures Balance(trips - {id}, Reentered(r, id, false, after))
  {
    ForgetKeepsBooks(trips, r, {id});
    AdvanceKeepsBooks(trips - {id}, Forget(r, {id}), after);
  }

  lemma QuietTrips(w: World, e: Event)
    requires e.Update? && e.id in w.a.trips && !Stops(w, e) && !Starts(w, e)
    ensures TripsUpdated(w, e) ==
            if e.queryOk then (w.a.trips - {e.id})[e.id := Trip(e.second, 0, 0, e.want.distance, e.want.tbf)]
            else w.a.trips - {e.id}
  {
  }

  // Without a restart the updated session leaves and joins again, or only leaves.
  lemma QuietKeepsBooks(trips: map<u32, Trip>, r: Road, id: u32, t: Trip, enters: bool, metres: nat, after: nat)
    requires Balance(trips, r) && r.odometer + metres + after < WORD
    requires enters ==> t.ongoingBatch + r.batchStart == r.odometer + metres && t.onRestart == t.thisTrip == 0
    ensures Balance(if enters then (trips - {id})[id := t] else trips - {id},
                    Reentered(Advance(r, metres), id, enters, after))
  {
    AdvanceKeepsBooks(trips, r, metres);
    if enters {
      ReenterKeepsBooks(trips, Advance(r, metres), id, t, after);
    } else {
      LeaveKeepsBooks(trips, Advance(r, metres), id, after);
    }
  }

  lemma QuietUpdateKeepsBooks(w: World, e: Event, trips: map<u32, Trip>)
    requires Books(w) && e.Update?
    requires Moves(w, e.before + e.between + e.after) && (e.queryOk ==> Shows(w, e.second, e.before + e.between))
    requires var t := Trip(e.second, 0, 0, e.want.distance, e.want.tbf);
             trips == if e.queryOk then (w.a.trips - {e.id})[e.id := t] else w.a.trips - {e.id}
    ensures Balance(trips, RoadEntered(w, e))
  {
    var t := Trip(e.second, 0, 0, e.want.distance, e.want.tbf);
    QuietKeepsBooks(w.a.trips, w.r, e.id, t, e.queryOk, e.before + e.between, e.after);
  }

  lemma LeavesFolded(w: World, e: Event, stops: bool, starts: bool, trips: map<u32, Trip>, r: Road)
    requires Books(w) && Possible(w, e) && e.Update? && (stops || starts)
    requires Leaves(w, e, stops, starts, trips, r)
    ensures r.batchStart <= r.odometer < WORD && forall k :: k in r.ledger ==> r.ledger[k].startedAt <= r.odometer
    ensures forall k :: k in trips ==> trips[k].ongoingBatch == 0 && trips[k].onRestart == trips[k].thisTrip
  {
  }

  lemma UpdateKeepsBooks(w: World, e: Event)
    requires Books(w) && Possible(w, e) && e.Update?
    ensures Balance(TripsUpdated(w, e), RoadUpdated(w, e)) <==> Harmless(w, e)
  {
    var stops, starts := Stops(w, e), Starts(w, e);
    if stops || starts {
      UpdateLeaves(w, e);
      LeavesFolded(w, e, stops, starts, TripsUpdated(w, e), RoadRestarted(w, e));
      ClaimsAreHarmless(w, e, stops, starts, TripsUpdated(w, e), RoadRestarted(w, e));
      SettleKeepsBooks(TripsUpdated(w, e), RoadRestarted(w, e));
    } else {
      QuietTrips(w, e);
      QuietUpdateKeepsBooks(w, e, TripsUpdated(w, e));
    }
  }

  // ---- stopping and reporting ----

  lemma StopKeepsBooks(w: World, e: Event)
    requires Books(w) && Possible(w, e) && e.StopTrip?
    ensures Books(Step(w, e)) <==> Harmless(w, e)
  {
    var a := Erase(w.a, e.id);
    var there := Advance(w.r, e.before);
    AdvanceKeepsBooks(w.a.trips, w.r, e.before);
    ForgetKeepsBooks(w.a.trips, there, {e.id});
    if a.trips == map[] {
      AdvanceKeepsBooks(a.trips, Forget(there, {e.id}), e.after);
    } else if e.queryOk {
      RetuneKeepsBooks(a, Forget(there, {e.id}), e.reading, e.accepted, e.after);
    } else {
      BlindRetuneKeepsBooks(a, Forget(there, {e.id}), e.reading, e.accepted, e.after);
      CountableWithout(w, e);
    }
  }

  ghost predicate CountableBy(trips: map<u32, Trip>, r: Road, reading: u32, place: nat) {
    forall k :: k in trips && k in r.ledger ==> Counted(trips[k], reading).thisTrip + r.ledger[k].startedAt <= place
  }

  lemma CountableWithout(w: World, e: Event)
    requires Books(w) && e.StopTrip? && e.id in w.a.trips
    ensures CountableBy(Erase(w.a, e.id).trips, Forget(Advance(w.r, e.before), {e.id}), e.reading,
                        w.r.odometer + e.before + e.after)
            <==> Countable(w, e.id, e.reading, e.before + e.after)
  {
    var rest, r := Erase(w.a, e.id).trips, Forget(Advance(w.r, e.before), {e.id});
    assert forall k :: k in rest <==> k in w.a.trips && k != e.id;
    assert forall k :: k in r.ledger <==> k in w.r.ledger && k != e.id;
  }

  lemma BlindRetuneKeepsBooks(a: Adapter, r: Road, reading: u32, accepted: bool, after: nat)
    requires Balance(a.trips, r) && a.trips != map[] && r.odometer + after < WORD
    ensures Balance(RestartTrips(a, reading, accepted).trips, RoadRetunedBlind(a, r, reading, accepted, after)) <==>
            (Retune(a, Tightest(a.trips), reading).RestartWith? && accepted ==>
               CountableBy(a.trips, r, reading, r.odometer + after))
  {
    if Retune(a, Tightest(a.trips), reading).RestartWith? && accepted {
      var there := Advance(r, after);
      SettleKeepsBooks(RebaseAll(a.trips, reading), there.(batchStart := there.odometer));
      forall k | k in a.trips
        ensures RebaseAll(a.trips, reading)[k].thisTrip == Counted(a.trips[k], reading).thisTrip
      {
      }
    } else {
      AdvanceKeepsBooks(a.trips, r, after);
    }
  }

  lemma DistanceKeepsBooks(w: World, e: Event)
    requires Books(w) && Possible(w, e) && e.Distance?
    ensures Books(Step(w, e))
  {
    ReadKeepsBooks(w.a.trips, w.r, e.reading);
    var a := Drop(w.a, e.reading);
    var gone := Completed(w.a, e.reading);
    var r := Forget(ReadAll(w.r, e.reading), gone);
    ForgetKeepsBooks(CountAll(w.a.trips, e.reading), ReadAll(w.r, e.reading), gone);
    AdvanceKeepsBooks(a.trips, r, e.after);
    if gone != {} && a.trips != map[] {
      RetuneKeepsBooks(a, r, e.reading, e.accepted, e.after);
    }
  }

  // Every transaction keeps the books exactly when it is harmless, and most of them always are.
  lemma StepKeepsBooks(w: World, e: Event)
    requires Books(w) && Possible(w, e)
    ensures Books(Step(w, e)) <==> Harmless(w, e)
  {
    match e
    case Travel(_) =>
    case StartFirst(_, _, _, _) =>
    case StartJoin(_, _, _, _, _, _, _) => JoinKeepsBooks(w, e);
    case StopTrip(_, _, _, _, _, _) => StopKeepsBooks(w, e);
    case Distance(_, _, _) => DistanceKeepsBooks(w, e);
    case Update(_, _, _, _, _, _, _, _, _, _, _) => UpdateKeepsBooks(w, e);
  }

  // What a distance report says about one session, in metres really travelled up to the reading.
  lemma CompletedExactly(w: World, reading: u32, k: u32)
    requires Books(w) && k in w.a.trips
    requires w.r.batchStart + reading <= w.r.odometer && w.a.trips[k].ongoingBatch <= reading
    ensures k in Completed(w.a, reading) <==>
            w.a.trips[k].tripDistance + w.r.ledger[k].lost <= w.r.batchStart + reading - w.r.ledger[k].startedAt
  {
    CountedBalances(w.a.trips[k], w.r.ledger[k], w.r, reading);
  }

  // What any report says about one session, wherever and in whichever batch it was measured: the reading
  // is taken for one of the current batch, and wraps below the session's start.
  lemma CompletedByAnyReading(w: World, reading: u32, k: u32)
    requires Books(w) && k in w.a.trips
    ensures var l := w.r.ledger[k];
            k in Completed(w.a, reading) <==>
            w.a.trips[k].tripDistance <= (w.r.batchStart + reading - l.startedAt - l.lost) % WORD
  {
    var t, l := w.a.trips[k], w.r.ledger[k];
    assert Balanced(t, l, w.r);
    CountedWraps(t, reading);
    assert t.onRestart + reading - t.ongoingBatch == w.r.batchStart + reading - l.startedAt - l.lost;
  }

  lemma CountedWraps(t: Trip, reading: u32)
    ensures Counted(t, reading).thisTrip == (t.onRestart + reading - t.ongoingBatch) % WORD
  {
    var apart := reading - t.ongoingBatch;
    assert Sub(reading, t.ongoingBatch) == if apart < 0 then apart + WORD else apart;
    SumWraps(t.onRestart, apart);
  }

  lemma SumWraps(a: u32, d: int)
    requires -WORD < d < WORD
    ensures Add(a, if d < 0 then d + WORD else d) == (a + d) % WORD
  {
  }

  // ---- whole runs ----

  ghost predicate LegalRun(w: World, es: seq<Event>)
    requires Books(w)
    decreases |es|
  {
    es != [] ==>
      && Legal(w, es[0])
      && (StepKeepsBooks(w, es[0]); LegalRun(Step(w, es[0]), es[1..]))
  }

  ghost function Run(w: World, es: seq<Event>): (end: World)
    requires Books(w) && LegalRun(w, es)
    ensures Books(end)
    decreases |es|
  {
    if es == [] then w
    else
      StepKeepsBooks(w, es[0]);
      Run(Step(w, es[0]), es[1..])
  }

  const BOOT := World(INITIAL, Road(0, 0, map[]), IDLE)

  // Over every run of starts, stops, updates and reports whose transactions are harmless: a trip is
  // reported complete only after the device has really travelled its distance since the trip started.
  lemma CompletionIsTruthful(es: seq<Event>, w: World, report: Event, k: u32)
    requires LegalRun(BOOT, es) && w == Run(BOOT, es)
    requires report.Distance? && Possible(w, report) && k in Completed(w.a, report.reading)
    ensures k in w.a.trips && w.a.trips[k].tripDistance <= w.r.odometer - w.r.ledger[k].startedAt
  {
    CompletedExactly(w, report.reading, k);
  }

  // ---- the converse: when completion is also timely ----

  // The device stands still between a reading and the modem restart that uses it, and a session that
  // joins with a restart finds every other session's counters up to date.
  ghost predicate Prompt(w: World, e: Event)
    requires Books(w) && Legal(w, e)
  {
    match e
    case Travel(_) => true
    case StartFirst(_, _, _, _) => true
    case StartJoin(_, _, _, _, accepted, before, after) =>
      !Restarts(w, e) || !accepted || (before == after == 0 && UpToDate(w))
    case StopTrip(_, queryOk, _, _, _, after) => queryOk && after == 0
    case Distance(reading, _, after) => w.r.batchStart + reading == w.r.odometer && after == 0
    case Update(_, _, _, _, _, _, _, _, _, _, _) => PromptUpdate(w, e, Stops(w, e), Starts(w, e))
  }

  ghost predicate PromptUpdate(w: World, e: Event, stops: bool, starts: bool)
    requires e.Update?
  {
    if stops && starts then e.before == e.between == 0 && e.after == e.first && UpToDate(w)
    else if stops then e.firstOk && e.between == e.after == 0
    else !starts || !e.startAccepted || (e.before == e.between == e.after == 0 && UpToDate(w))
  }

  ghost predicate UpToDate(w: World) {
    forall k :: k in w.r.ledger ==> w.r.ledger[k].seenAt == w.r.odometer
  }

  ghost predicate NothingLost(w: World) {
    forall k :: k in w.r.ledger ==> w.r.ledger[k].lost == 0
  }

  lemma PromptStepLosesNothing(w: World, e: Event)
    requires Books(w) && Legal(w, e) && Prompt(w, e) && NothingLost(w)
    ensures NothingLost(Step(w, e))
  {
    if e.Update? {
      PromptUpdateLosesNothing(w, e);
    } else if e.StartJoin? && Restarts(w, e) && !e.accepted {
      JoinedBalances(w, e);
    }
  }

  lemma PromptUpdateLosesNothing(w: World, e: Event)
    requires Books(w) && Legal(w, e) && Prompt(w, e) && NothingLost(w) && e.Update?
    ensures NothingLost(Step(w, e))
  {
    if Stops(w, e) || Starts(w, e) {
      UpdateLeaves(w, e);
      PromptClaims(w, e, Stops(w, e), Starts(w, e), TripsUpdated(w, e), RoadRestarted(w, e));
    } else {
      QuietUpdateLosesNothing(w, e);
    }
  }

  lemma QuietUpdateLosesNothing(w: World, e: Event)
    requires NothingLost(w) && e.Update?
    ensures forall k :: k in RoadEntered(w, e).ledger ==> RoadEntered(w, e).ledger[k].lost == 0
  {
  }

  // A prompt update's counters claim all of the road.
  lemma PromptClaims(w: World, e: Event, stops: bool, starts: bool, trips: map<u32, Trip>, r: Road)
    requires Books(w) && Possible(w, e) && e.Update? && NothingLost(w) && (stops || starts)
    requires HarmlessUpdate(w, e, stops, starts) && PromptUpdate(w, e, stops, starts)
    requires Leaves(w, e, stops, starts, trips, r)
    ensures forall k :: k in Settle(r, trips).ledger ==> Settle(r, trips).ledger[k].lost == 0
  {
    forall k | k in trips
      ensures r.batchStart <= trips[k].thisTrip + r.ledger[k].startedAt
    {
      if k == e.id {
        OwnOutcome(e.want, e.first, e.second, stops, starts);
      } else {
        PromptOther(w, e, stops, starts, k, r.batchStart);
      }
    }
  }

  lemma PromptOther(w: World, e: Event, stops: bool, starts: bool, k: u32, start: nat)
    requires Books(w) && Possible(w, e) && e.Update? && NothingLost(w) && (stops || starts)
    requires PromptUpdate(w, e, stops, starts) && k in w.a.trips
    requires start == if stops || e.startAccepted then w.r.odometer + e.before + e.between + e.after else w.r.batchStart
    ensures start <= Outcome(w.a.trips[k], stops, starts, e.first).thisTrip + w.r.ledger[k].startedAt
  {
    var t, l := w.a.trips[k], w.r.ledger[k];
    assert Balanced(t, l, w.r) && w.r.batchStart <= l.seenAt <= w.r.odometer && l.lost == 0;
    OtherOutcome(t, l, w.r, stops, starts, e.first);
    if stops && !starts {
      ShownIsCounted(t, l, w.r, e.first);
    }
  }

  ghost predicate PromptRun(w: World, es: seq<Event>)
    requires Books(w) && LegalRun(w, es)
    decreases |es|
  {
    es != [] ==> Prompt(w, es[0]) && (StepKeepsBooks(w, es[0]); PromptRun(Step(w, es[0]), es[1..]))
  }

  lemma {:induction false} PromptRunLosesNothing(w: World, es: seq<Event>)
    requires Books(w) && LegalRun(w, es) && PromptRun(w, es) && NothingLost(w)
    ensures NothingLost(Run(w, es))
    decreases |es|
  {
    if es != [] {
      StepKeepsBooks(w, es[0]);
      PromptStepLosesNothing(w, es[0]);
      PromptRunLosesNothing(Step(w, es[0]), es[1..]);
    }
  }

  // An up-to-date report then completes exactly the trips that have been travelled.
  lemma NothingLostIsExact(w: World, reading: u32, k: u32)
    requires Books(w) && NothingLost(w) && k in w.a.trips
    requires w.r.batchStart + reading == w.r.odometer && w.a.trips[k].ongoingBatch <= reading
    ensures k in Completed(w.a, reading) <==> w.a.trips[k].tripDistance <= w.r.odometer - w.r.ledger[k].startedAt
  {
    CompletedExactly(w, reading, k);
  }

  lemma PromptCompletionIsExact(es: seq<Event>, w: World, reading: u32, k: u32)
    requires LegalRun(BOOT, es) && PromptRun(BOOT, es) && w == Run(BOOT, es)
    requires w.r.batchStart + reading == w.r.odometer
    requires k in w.a.trips && w.a.trips[k].ongoingBatch <= reading
    ensures k in Completed(w.a, reading) <==> w.a.trips[k].tripDistance <= w.r.odometer - w.r.ledger[k].startedAt
  {
    PromptRunLosesNothing(BOOT, es);
    NothingLostIsExact(w, reading, k);
  }
}
