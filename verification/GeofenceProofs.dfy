// What the two geofence maps keep over every run, what clients see across engine restarts, and who is
// told of a breach.
module GeofenceProofs {
  import opened GeofenceModel

  // ---- the two maps belong together ----

  // Every entry points to the fence with its key, no two fences share a key, a fence without an entry
  // is one whose client went away, and the fences are those the engine monitors.
  predicate Linked(s: State, gone: set<Client>) {
    && Pointing(s)
    && Separate(s.fences)
    && (forall h :: h in s.fences ==> s.fences[h].key in s.ids || s.fences[h].key.client in gone)
    && s.engine.Keys == s.fences.Keys
  }

  predicate Pointing(s: State) {
    forall k :: k in s.ids ==> s.ids[k] in s.fences && s.fences[s.ids[k]].key == k
  }

  predicate Orphan(s: State, h: HwId) {
    h in s.fences && s.fences[h].key !in s.ids
  }

  function Gone(e: Event): set<Client> {
    if e.StopClient? then {e.client} else {}
  }

  lemma StoppedIsLinked(s: State, client: Client, accepted: set<HwId>, gone: set<Client>)
    requires Linked(s, gone)
    ensures Linked(Stopped(s, client, accepted), gone + {client})
  {
    var t := Stopped(s, client, accepted);
    forall k | k in t.ids
      ensures t.ids[k] in t.fences
    {
      assert t.ids[k] !in Owned(s.ids, client);
    }
  }

  lemma EntryHasFence(s: State, key: Key)
    requires Pointing(s)
    ensures key in s.ids ==> exists h :: h in s.fences && s.fences[h].key == key
  {
    if key in s.ids {
      assert s.fences[s.ids[key]].key == key;
    }
  }

  lemma AddedIsLinked(s: State, key: Key, hwId: HwId, shape: Shape, paused: bool, gone: set<Client>)
    requires Linked(s, gone) && hwId !in s.fences && key !in s.ids
    requires forall h :: h in s.fences ==> s.fences[h].key != key
    ensures Linked(Saved(s, key, hwId, shape).(engine := s.engine[hwId := paused]), gone)
  {
    var t := Saved(s, key, hwId, shape).(engine := s.engine[hwId := paused]);
    forall k | k in t.ids
      ensures t.ids[k] in t.fences && t.fences[t.ids[k]].key == k
    {
      if k != key {
        assert s.ids[k] in s.fences;
      }
    }
  }

  lemma RemovedIsLinked(s: State, key: Key, gone: set<Client>)
    requires Linked(s, gone)
    ensures Linked(Removed(s, key), gone)
  {
    var t := Removed(s, key);
    forall k | k in t.ids
      ensures t.ids[k] in t.fences && t.fences[t.ids[k]].key == k
    {
      assert s.ids[k] in s.fences;
    }
  }

  // Changing a fence without changing its key.
  lemma ChangedIsLinked(s: State, key: Key, f: Fence, paused: bool, gone: set<Client>)
    requires Linked(s, gone) && key in s.ids && f.key == key
    ensures Linked(State(s.fences[s.ids[key] := f], s.ids, s.engine[s.ids[key] := paused]), gone)
  {
    assert s.ids[key] in s.fences;
  }

  // ---- a restart, fence by fence ----

  predicate Separate(was: map<HwId, Fence>) {
    forall h, g :: h in was && g in was && was[h].key == was[g].key ==> h == g
  }

  // `order` and `replies` could be those of a restart.
  predicate Walk(was: map<HwId, Fence>, order: seq<HwId>, replies: seq<Reply>) {
    && |replies| == |order| && Distinct(replies)
    && (forall h :: h in order ==> h in was)
    && (forall i, j :: 0 <= i < j < |order| ==> order[i] != order[j])
  }

  lemma WalkFront(was: map<HwId, Fence>, order: seq<HwId>, replies: seq<Reply>)
    requires Walk(was, order, replies) && order != []
    ensures var n := |order| - 1;
            && Walk(was, order[..n], replies[..n])
            && order == order[..n] + [order[n]] && replies == replies[..n] + [replies[n]]
            && order[n] !in order[..n] && (replies[n].Accepted? ==> replies[n] !in replies[..n])
  {
  }

  lemma {:induction false} ReaddedIds(was: map<HwId, Fence>, order: seq<HwId>, replies: seq<Reply>)
    requires Walk(was, order, replies)
    ensures var t := ReaddAll(was, order, replies);
            && (forall h :: h in t.fences <==> Accepted(h) in replies)
            && (forall h :: h in t.fences ==> !t.fences[h].paused)
    decreases |order|
  {
    if order != [] {
      var n := |order| - 1;
      WalkFront(was, order, replies);
      ReaddedIds(was, order[..n], replies[..n]);
    }
  }

  lemma {:induction false} ReaddedKeys(was: map<HwId, Fence>, order: seq<HwId>, replies: seq<Reply>, key: Key)
    requires Walk(was, order, replies)
    requires forall h :: h in order ==> was[h].key != key
    ensures var t := ReaddAll(was, order, replies);
            key !in t.ids && forall h :: h in t.fences ==> t.fences[h].key != key
    decreases |order|
  {
    if order != [] {
      var n := |order| - 1;
      WalkFront(was, order, replies);
      ReaddedKeys(was, order[..n], replies[..n], key);
    }
  }

  // The id and the key of the last fence added are new.
  lemma LastIsFresh(was: map<HwId, Fence>, order: seq<HwId>, replies: seq<Reply>)
    requires Walk(was, order, replies) && Separate(was) && order != [] && replies[|order| - 1].Accepted?
    ensures var n := |order| - 1;
            var before, key := ReaddAll(was, order[..n], replies[..n]), was[order[n]].key;
            && replies[n].hwId !in before.fences && key !in before.ids
            && (forall h :: h in before.fences ==> before.fences[h].key != key)
  {
    var n := |order| - 1;
    WalkFront(was, order, replies);
    ReaddedIds(was, order[..n], replies[..n]);
    ReaddedKeys(was, order[..n], replies[..n], was[order[n]].key);
  }

  lemma {:induction false} ReaddAllIsLinked(was: map<HwId, Fence>, order: seq<HwId>, replies: seq<Reply>)
    requires Walk(was, order, replies) && Separate(was)
    ensures Linked(ReaddAll(was, order, replies), {})
    decreases |order|
  {
    if order != [] {
      var n := |order| - 1;
      WalkFront(was, order, replies);
      ReaddAllIsLinked(was, order[..n], replies[..n]);
      if replies[n].Accepted? {
        LastIsFresh(was, order, replies);
        var f := was[order[n]];
        AddedIsLinked(ReaddAll(was, order[..n], replies[..n]), f.key, replies[n].hwId, f.shape, f.paused, {});
      }
    }
  }

  // The shapes of the fences whose re-adding was accepted.
  function Kept(was: map<HwId, Fence>, order: seq<HwId>, replies: seq<Reply>): map<Key, Shape>
    requires |replies| == |order| && forall h :: h in order ==> h in was
    decreases |order|
  {
    if order == [] then map[]
    else
      var n := |order| - 1;
      var rest := Kept(was, order[..n], replies[..n]);
      if replies[n].Accepted? then rest[was[order[n]].key := was[order[n]].shape] else rest
  }

  lemma {:induction false} ReaddedView(was: map<HwId, Fence>, order: seq<HwId>, replies: seq<Reply>)
    requires Walk(was, order, replies) && Separate(was)
    ensures Pointing(ReaddAll(was, order, replies)) && View(ReaddAll(was, order, replies)) == Kept(was, order, replies)
    decreases |order|
  {
    ReaddAllIsLinked(was, order, replies);
    if order != [] {
      var n := |order| - 1;
      WalkFront(was, order, replies);
      ReaddedView(was, order[..n], replies[..n]);
      if replies[n].Accepted? {
        LastIsFresh(was, order, replies);
        SavedView(ReaddAll(was, order[..n], replies[..n]), was[order[n]], replies[n].hwId);
      }
    }
  }

  lemma SavedView(s: State, f: Fence, h: HwId)
    requires Pointing(s) && h !in s.fences
    ensures Pointing(Saved(s, f.key, h, f.shape))
    ensures View(Saved(s, f.key, h, f.shape)) == View(s)[f.key := f.shape]
  {
  }

  lemma {:induction false} KeptAll(was: map<HwId, Fence>, order: seq<HwId>, replies: seq<Reply>)
    requires Walk(was, order, replies) && Separate(was) && AllAccepted(replies)
    ensures var kept := Kept(was, order, replies);
            && (forall h :: h in order ==> was[h].key in kept && kept[was[h].key] == was[h].shape)
            && (forall k :: k in kept ==> exists h :: h in order && was[h].key == k)
    decreases |order|
  {
    if order != [] {
      var n := |order| - 1;
      WalkFront(was, order, replies);
      KeptAll(was, order[..n], replies[..n]);
      assert order[n] in order;
    }
  }

  lemma RestartedIsLinked(s: State, order: seq<HwId>, replies: seq<Reply>, gone: set<Client>)
    requires Linked(s, gone) && Legal(s, Restart(order, replies))
    ensures Linked(Restarted(s, order, replies), {})
  {
    if s.fences != map[] {
      ReaddAllIsLinked(s.fences, order, replies);
    }
  }

  lemma StepIsLinked(s: State, e: Event, gone: set<Client>)
    requires Linked(s, gone) && Legal(s, e)
    ensures Linked(Step(s, e), gone + Gone(e))
  {
    match e
    case Add(key, hwId, shape) =>
      EntryHasFence(s, key);
      AddedIsLinked(s, key, hwId, shape, false, gone);
    case Remove(key) => RemovedIsLinked(s, key, gone);
    case Pause(key) => PausedIsLinked(s, key, true, gone);
    case Resume(key) => PausedIsLinked(s, key, false, gone);
    case Modify(key, breachMask, responsiveness, dwellTime) =>
      if key in s.ids {
        var h := s.ids[key];
        ChangedIsLinked(s, key, Reshaped(s.fences[h], breachMask, responsiveness, dwellTime), s.engine[h], gone);
        assert s.engine[h := s.engine[h]] == s.engine;
      }
    case StopClient(client, accepted) => StoppedIsLinked(s, client, accepted, gone);
    case Restart(order, replies) =>
      RestartedIsLinked(s, order, replies, gone);
  }

  lemma PausedIsLinked(s: State, key: Key, paused: bool, gone: set<Client>)
    requires Linked(s, gone)
    ensures Linked(Paused(s, key, paused), gone)
  {
    if key in s.ids {
      ChangedIsLinked(s, key, s.fences[s.ids[key]].(paused := paused), paused, gone);
    }
  }

  // ---- runs ----

  function Run(events: seq<Event>): State
    requires LegalRun(events)
    decreases |events|, 2
  {
    if events == [] then INITIAL else Step(Run(events[..|events| - 1]), events[|events| - 1])
  }

  predicate LegalRun(events: seq<Event>)
    decreases |events|, 1
  {
    events != [] ==> LegalRun(events[..|events| - 1]) && Legal(Run(events[..|events| - 1]), events[|events| - 1])
  }

  function GoneIn(events: seq<Event>): set<Client> {
    set i | 0 <= i < |events| && events[i].StopClient? :: events[i].client
  }

  // Over every run, failed removals and engine restarts included.
  lemma {:induction false} RunIsLinked(events: seq<Event>)
    requires LegalRun(events)
    ensures Linked(Run(events), GoneIn(events))
    decreases |events|
  {
    if events != [] {
      var front, last := events[..|events| - 1], events[|events| - 1];
      RunIsLinked(front);
      StepIsLinked(Run(front), last, GoneIn(front));
      assert forall c :: c in GoneIn(front) + Gone(last) ==> c in GoneIn(events) by {
        assert events[|events| - 1] == last;
        forall i | 0 <= i < |front|
          ensures front[i] == events[i]
        {
        }
      }
    }
  }

  // ---- what clients see ----

  function View(s: State): map<Key, Shape>
    requires Pointing(s)
  {
    map k | k in s.ids :: s.fences[s.ids[k]].shape
  }

  // Adding a fence and removing it leaves everything as it was.
  lemma RemoveUndoesAdd(s: State, key: Key, hwId: HwId, shape: Shape, gone: set<Client>)
    requires Linked(s, gone) && Legal(s, Add(key, hwId, shape))
    ensures Pointing(Added(s, key, hwId, shape)) && View(Added(s, key, hwId, shape)) == View(s)[key := shape]
    ensures Removed(Added(s, key, hwId, shape), key) == s
  {
    EntryHasFence(s, key);
    SavedView(s, Fence(key, shape, false), hwId);
    PutAndDrop(s.fences, hwId, Fence(key, shape, false));
    PutAndDrop(s.ids, key, hwId);
    PutAndDrop(s.engine, hwId, false);
  }

  lemma PutAndDrop<K, V>(m: map<K, V>, k: K, v: V)
    requires k !in m
    ensures m[k := v] - {k} == m
  {
  }

  // ---- what clients ordered ----

  // A fence as its client ordered it.
  datatype Ordered = Ordered(shape: Shape, paused: bool)

  // The plain register of orders: one entry for each key, and no hardware ids.
  function Order(orders: map<Key, Ordered>, e: Event): map<Key, Ordered> {
    match e
    case Add(key, _, shape) => orders[key := Ordered(shape, false)]
    case Remove(key) => orders - {key}
    case Pause(key) => if key in orders then orders[key := Ordered(orders[key].shape, true)] else orders
    case Resume(key) => if key in orders then orders[key := Ordered(orders[key].shape, false)] else orders
    case Modify(key, breachMask, responsiveness, dwellTime) =>
      if key !in orders then orders
      else
        var was := orders[key].shape;
        orders[key := Ordered(
          Shape(breachMask, responsiveness, dwellTime, was.latitude, was.longitude, was.radius), orders[key].paused)]
    case StopClient(client, _) => map k | k in orders && k.client != client :: orders[k]
    case Restart(_, _) => orders
  }

  function Orders(events: seq<Event>): map<Key, Ordered>
    decreases |events|
  {
    if events == [] then map[] else Order(Orders(events[..|events| - 1]), events[|events| - 1])
  }

  // The same, read off the two maps.
  function Held(s: State): map<Key, Ordered>
    requires Pointing(s)
  {
    map k | k in s.ids :: Ordered(s.fences[s.ids[k]].shape, s.fences[s.ids[k]].paused)
  }

  lemma AddHolds(s: State, key: Key, hwId: HwId, shape: Shape)
    requires Pointing(s) && hwId !in s.fences
    ensures var end := Added(s, key, hwId, shape);
            Pointing(end) && Held(end) == Held(s)[key := Ordered(shape, false)]
  {
  }

  lemma RemoveHolds(s: State, key: Key)
    requires Pointing(s)
    ensures Pointing(Removed(s, key)) && Held(Removed(s, key)) == Held(s) - {key}
  {
    forall k | k in s.ids && k != key && key in s.ids
      ensures s.ids[k] != s.ids[key]
    {
      assert s.fences[s.ids[k]].key == k;
    }
  }

  lemma ChangeHolds(s: State, key: Key, f: Fence, engine: map<HwId, bool>)
    requires Pointing(s) && key in s.ids && f.key == key
    ensures var end := State(s.fences[s.ids[key] := f], s.ids, engine);
            Pointing(end) && Held(end) == Held(s)[key := Ordered(f.shape, f.paused)]
  {
    forall k | k in s.ids && k != key
      ensures s.ids[k] != s.ids[key]
    {
      assert s.fences[s.ids[k]].key == k;
    }
  }

  lemma StopHolds(s: State, client: Client, accepted: set<HwId>)
    requires Pointing(s)
    ensures var end := Stopped(s, client, accepted);
            && Pointing(end)
            && Held(end) == map k | k in Held(s) && k.client != client :: Held(s)[k]
  {
    var end := Stopped(s, client, accepted);
    forall k | k in end.ids
      ensures s.ids[k] !in Owned(s.ids, client)
    {
      assert s.fences[s.ids[k]].key == k;
    }
  }

  lemma StepHoldsOrders(s: State, e: Event)
    requires Pointing(s) && Legal(s, e) && !e.Restart?
    ensures Pointing(Step(s, e)) && Held(Step(s, e)) == Order(Held(s), e)
  {
    match e
    case Add(key, hwId, shape) => AddHolds(s, key, hwId, shape);
    case Remove(key) => RemoveHolds(s, key);
    case Pause(key) =>
      if key in s.ids {
        var h := s.ids[key];
        ChangeHolds(s, key, s.fences[h].(paused := true), s.engine[h := true]);
      }
    case Resume(key) =>
      if key in s.ids {
        var h := s.ids[key];
        ChangeHolds(s, key, s.fences[h].(paused := false), s.engine[h := false]);
      }
    case Modify(key, breachMask, responsiveness, dwellTime) =>
      if key in s.ids {
        var f := s.fences[s.ids[key]];
        ChangeHolds(s, key, Reshaped(f, breachMask, responsiveness, dwellTime), s.engine);
      }
    case StopClient(client, accepted) => StopHolds(s, client, accepted);
  }

  // Over every run without a restart the two maps hold exactly what was ordered, fence by fence: additions,
  // removals, pauses and the three values that a modification sets; and the engine pauses accordingly.
  lemma {:induction false} RunHoldsOrders(events: seq<Event>)
    requires LegalRun(events) && forall e :: e in events ==> !e.Restart?
    ensures var s := Run(events);
            && Pointing(s) && Held(s) == Orders(events)
            && (forall k :: k in s.ids ==> s.ids[k] in s.engine && s.engine[s.ids[k]] == Orders(events)[k].paused)
    decreases |events|
  {
    RunIsLinked(events);
    WithoutRestarts(events);
    if events != [] {
      var front, last := events[..|events| - 1], events[|events| - 1];
      RunHoldsOrders(front);
      RunIsLinked(front);
      assert last in events;
      StepHoldsOrders(Run(front), last);
    }
    forall k | k in Run(events).ids
      ensures Run(events).ids[k] in Run(events).engine
      ensures Run(events).engine[Run(events).ids[k]] == Held(Run(events))[k].paused
    {
      assert Run(events).ids[k] in Run(events).fences;
    }
  }

  predicate AllAccepted(replies: seq<Reply>) {
    forall r :: r in replies ==> r.Accepted?
  }

  // When every fence is added again, a restart keeps what clients see exactly when no fence is an
  // orphan; an orphan comes back as a fence of its former client.
  lemma RestartKeepsView(s: State, order: seq<HwId>, replies: seq<Reply>, gone: set<Client>)
    requires Linked(s, gone) && Legal(s, Restart(order, replies)) && AllAccepted(replies)
    ensures Linked(Restarted(s, order, replies), {}) && (forall h :: !Orphan(Restarted(s, order, replies), h))
    ensures View(Restarted(s, order, replies)) == View(s) <==> forall h :: !Orphan(s, h)
  {
    RestartedIsLinked(s, order, replies, gone);
    if s.fences == map[] {
      assert s.ids == map[];
    } else {
      ReaddedView(s.fences, order, replies);
      KeptAll(s.fences, order, replies);
      KeptIsView(s, Kept(s.fences, order, replies), order);
    }
  }

  lemma KeptIsView(s: State, kept: map<Key, Shape>, order: seq<HwId>)
    requires Pointing(s) && Listing(order, s.fences.Keys)
    requires forall h :: h in order ==> s.fences[h].key in kept && kept[s.fences[h].key] == s.fences[h].shape
    requires forall k :: k in kept ==> exists h :: h in order && s.fences[h].key == k
    ensures kept == View(s) <==> forall h :: !Orphan(s, h)
  {
    forall k | k in s.ids
      ensures k in kept && kept[k] == View(s)[k]
    {
      assert s.ids[k] in order;
    }
    if h :| Orphan(s, h) {
      assert h in order && s.fences[h].key in kept && s.fences[h].key !in View(s);
    } else {
      forall k | k in kept
        ensures k in s.ids
      {
        var h :| h in order && s.fences[h].key == k;
        assert !Orphan(s, h);
      }
      assert kept.Keys == View(s).Keys;
    }
  }

  predicate Restarts(events: seq<Event>) {
    forall e :: e in events ==> e.Restart? && AllAccepted(e.replies)
  }

  // Any number of restarts: nothing a client sees changes, if there is no orphan to begin with.
  lemma {:induction false} RestartsKeepView(before: seq<Event>, restarts: seq<Event>)
    requires LegalRun(before) && LegalRun(before + restarts) && Restarts(restarts)
    requires forall h :: !Orphan(Run(before), h)
    ensures Pointing(Run(before)) && Pointing(Run(before + restarts))
    ensures View(Run(before + restarts)) == View(Run(before)) && forall h :: !Orphan(Run(before + restarts), h)
    decreases |restarts|
  {
    RunIsLinked(before);
    RunIsLinked(before + restarts);
    if restarts == [] {
      assert before + restarts == before;
    } else {
      var front, last := restarts[..|restarts| - 1], restarts[|restarts| - 1];
      var events := before + restarts;
      assert events[..|events| - 1] == before + front && events[|events| - 1] == last;
      RestartsKeepView(before, front);
      RunIsLinked(before + front);
      assert last in restarts;
      RestartKeepsView(Run(before + front), last.order, last.replies, GoneIn(before + front));
    }
  }

  // ---- paused fences ----

  // The engine pauses exactly the fences that the adapter holds as paused.
  predicate PausedAlike(s: State) {
    forall h :: h in s.fences && h in s.engine ==> s.engine[h] == s.fences[h].paused
  }

  // A restart that re-adds a paused fence.
  predicate ReaddsPaused(s: State, e: Event)
    requires Legal(s, e)
  {
    e.Restart? && exists i :: 0 <= i < |e.order| && e.replies[i].Accepted? && s.fences[e.order[i]].paused
  }

  lemma StepKeepsPausedAlike(s: State, e: Event, gone: set<Client>)
    requires Linked(s, gone) && PausedAlike(s) && Legal(s, e)
    ensures PausedAlike(Step(s, e)) <==> !ReaddsPaused(s, e)
  {
    if e.Restart? {
      RestartForgetsPauses(s, e.order, e.replies, gone);
    } else {
      OtherStepKeepsPausedAlike(s, e, gone);
    }
  }

  lemma OtherStepKeepsPausedAlike(s: State, e: Event, gone: set<Client>)
    requires Linked(s, gone) && PausedAlike(s) && Legal(s, e) && !e.Restart?
    ensures PausedAlike(Step(s, e))
  {
  }

  predicate ReaddsNoPaused(events: seq<Event>)
    requires LegalRun(events)
    decreases |events|
  {
    events != [] ==>
      ReaddsNoPaused(events[..|events| - 1]) && !ReaddsPaused(Run(events[..|events| - 1]), events[|events| - 1])
  }

  // Over every run whose restarts re-add no paused fence, and so over every run without a restart, the
  // engine pauses exactly the fences that the adapter holds as paused.
  lemma {:induction false} RunKeepsPausedAlike(events: seq<Event>)
    requires LegalRun(events) && ReaddsNoPaused(events)
    ensures PausedAlike(Run(events))
    decreases |events|
  {
    if events != [] {
      var front := events[..|events| - 1];
      RunKeepsPausedAlike(front);
      RunIsLinked(front);
      StepKeepsPausedAlike(Run(front), events[|events| - 1], GoneIn(front));
    }
  }

  lemma {:induction false} WithoutRestarts(events: seq<Event>)
    requires LegalRun(events) && forall e :: e in events ==> !e.Restart?
    ensures ReaddsNoPaused(events) && PausedAlike(Run(events))
    decreases |events|
  {
    if events != [] {
      WithoutRestarts(events[..|events| - 1]);
      assert events[|events| - 1] in events;
    }
    RunKeepsPausedAlike(events);
  }

  lemma {:induction false} ReaddedPauses(was: map<HwId, Fence>, order: seq<HwId>, replies: seq<Reply>)
    requires Walk(was, order, replies) && Separate(was)
    ensures PausedAlike(ReaddAll(was, order, replies)) <==>
            forall i :: 0 <= i < |order| && replies[i].Accepted? ==> !was[order[i]].paused
    decreases |order|
  {
    if order != [] {
      var n := |order| - 1;
      WalkFront(was, order, replies);
      var front, answers := order[..n], replies[..n];
      ReaddedPauses(was, front, answers);
      assert forall i :: 0 <= i < n ==> front[i] == order[i] && answers[i] == replies[i];
      if replies[n].Accepted? {
        LastIsFresh(was, order, replies);
        ReaddAllIsLinked(was, front, answers);
        PausedAlikeAfter(ReaddAll(was, front, answers), was[order[n]], replies[n].hwId);
      }
    }
  }

  lemma PausedAlikeAfter(s: State, f: Fence, h: HwId)
    requires h !in s.fences && s.engine.Keys == s.fences.Keys
    ensures PausedAlike(Readded(s, f, Accepted(h))) <==> PausedAlike(s) && !f.paused
  {
    var t := Readded(s, f, Accepted(h));
    assert t.engine[h] == f.paused && !t.fences[h].paused;
    assert forall g :: g in s.fences ==> t.fences[g] == s.fences[g] && t.engine[g] == s.engine[g];
  }

  lemma FirstIsListed(order: seq<HwId>, all: set<HwId>)
    requires Listing(order, all)
    ensures order == [] || order[0] in all
  {
  }

  // A restart re-creates the pauses in the engine but not in the adapter, so the adapter is right
  // afterwards exactly when no re-added fence was paused, and the next restart pauses nothing.
  lemma RestartForgetsPauses(s: State, order: seq<HwId>, replies: seq<Reply>, gone: set<Client>)
    requires Linked(s, gone) && Legal(s, Restart(order, replies))
    ensures var t := Restarted(s, order, replies);
            && (forall h :: h in t.fences ==> !t.fences[h].paused)
            && (PausedAlike(t) <==> forall i :: 0 <= i < |order| && replies[i].Accepted? ==> !s.fences[order[i]].paused)
  {
    if s.fences != map[] {
      ReaddedIds(s.fences, order, replies);
      ReaddedPauses(s.fences, order, replies);
    } else {
      FirstIsListed(order, s.fences.Keys);
    }
  }

  predicate NonePaused(engine: map<HwId, bool>) {
    forall h :: h in engine ==> !engine[h]
  }

  lemma {:induction false} UnpausedStaysSo(was: map<HwId, Fence>, order: seq<HwId>, replies: seq<Reply>)
    requires |replies| == |order| && forall h :: h in order ==> h in was && !was[h].paused
    ensures NonePaused(ReaddAll(was, order, replies).engine)
    decreases |order|
  {
    if order != [] {
      var n := |order| - 1;
      UnpausedStaysSo(was, order[..n], replies[..n]);
      assert order[n] in order;
    }
  }

  // After two restarts the engine monitors every fence, paused by a client or not.
  lemma SecondRestartResumesAll(s: State, first: Event, second: Event, gone: set<Client>)
    requires Linked(s, gone) && first.Restart? && second.Restart? && Legal(s, first) && Legal(Step(s, first), second)
    ensures NonePaused(Step(Step(s, first), second).engine)
  {
    var once := Step(s, first);
    RestartForgetsPauses(s, first.order, first.replies, gone);
    RestartedIsLinked(s, first.order, first.replies, gone);
    if once.fences != map[] {
      assert Legal(once, Restart(second.order, second.replies));
      UnpausedStaysSo(once.fences, second.order, second.replies);
    }
    assert Step(once, second) == Restarted(once, second.order, second.replies);
  }

  // A client that goes away leaves behind exactly the fences the engine refused to remove.
  lemma StoppedLeavesRefused(s: State, client: Client, accepted: set<HwId>, gone: set<Client>, h: HwId)
    requires Linked(s, gone)
    ensures Orphan(Stopped(s, client, accepted), h) <==>
            || Orphan(s, h)
            || (h in s.fences && s.fences[h].key.client == client && s.fences[h].key in s.ids && h !in accepted)
  {
    if h in s.fences && s.fences[h].key in s.ids {
      assert s.ids[s.fences[h].key] == h;
      assert s.fences[h].key.client == client ==> h in Owned(s.ids, client);
    }
    if h in Owned(s.ids, client) {
      var k :| k in s.ids && k.client == client && s.ids[k] == h;
      assert s.fences[h].key == k;
    }
  }

  // ---- breach reports ----

  predicate Increasing(positions: seq<nat>) {
    forall a, b :: 0 <= a < b < |positions| ==> positions[a] < positions[b]
  }

  // What a client gets is the subsequence of the report at exactly the positions it owns.
  lemma {:induction false} MineIsSubsequence(s: State, hwIds: seq<HwId>, client: Client) returns (positions: seq<nat>)
    ensures Increasing(positions) && |positions| == |Mine(s, hwIds, client)|
    ensures forall i :: i in positions <==> 0 <= i < |hwIds| && OwnedBy(s, hwIds[i], client)
    ensures forall a :: 0 <= a < |positions| ==>
              positions[a] < |hwIds| && hwIds[positions[a]] in s.fences &&
              Mine(s, hwIds, client)[a] == s.fences[hwIds[positions[a]]].key.id
    decreases |hwIds|
  {
    positions := [];
    if hwIds != [] {
      var n := |hwIds| - 1;
      positions := MineIsSubsequence(s, hwIds[..n], client);
      assert forall a :: 0 <= a < |positions| ==> positions[a] in positions;
      if OwnedBy(s, hwIds[n], client) {
        ExtendSubsequence(positions, n);
        positions := positions + [n];
      }
    }
  }

  lemma ExtendSubsequence(positions: seq<nat>, n: nat)
    requires Increasing(positions) && forall i :: i in positions ==> i < n
    ensures Increasing(positions + [n]) && forall i :: i in positions + [n] <==> i in positions || i == n
  {
    assert forall a :: 0 <= a < |positions| ==> positions[a] in positions;
  }

  function Delivered(notices: seq<Notice>): nat {
    if notices == [] then 0 else Delivered(notices[..|notices| - 1]) + |notices[|notices| - 1].ids|
  }

  // How many of the reported ids belong to clients in `audience`.
  function OwnedCount(s: State, hwIds: seq<HwId>, audience: set<Client>): nat
    decreases |hwIds|
  {
    if hwIds == [] then 0
    else
      var n := |hwIds| - 1;
      OwnedCount(s, hwIds[..n], audience) +
      if hwIds[n] in s.fences && s.fences[hwIds[n]].key.client in audience then 1 else 0
  }

  lemma {:induction false} CountOne(s: State, hwIds: seq<HwId>, audience: set<Client>, c: Client)
    requires c !in audience
    ensures OwnedCount(s, hwIds, audience + {c}) == OwnedCount(s, hwIds, audience) + |Mine(s, hwIds, c)|
    decreases |hwIds|
  {
    if hwIds != [] {
      CountOne(s, hwIds[..|hwIds| - 1], audience, c);
    }
  }

  lemma {:induction false} CountNone(s: State, hwIds: seq<HwId>)
    ensures OwnedCount(s, hwIds, {}) == 0
    decreases |hwIds|
  {
    if hwIds != [] {
      CountNone(s, hwIds[..|hwIds| - 1]);
    }
  }

  function Audience(clients: map<Client, bool>, order: seq<Client>): set<Client>
    requires forall c :: c in order ==> c in clients
  {
    set c | c in order && clients[c]
  }

  // The deliveries partition the report: summed over the clients with a callback they are as many as
  // the reported ids those clients own.
  lemma {:induction false} DeliveriesPartition(
      s: State, hwIds: seq<HwId>, clients: map<Client, bool>, order: seq<Client>)
    requires forall c :: c in order ==> c in clients
    requires forall i, j :: 0 <= i < j < |order| ==> order[i] != order[j]
    ensures Delivered(Notices(s, hwIds, clients, order)) == OwnedCount(s, hwIds, Audience(clients, order))
    decreases |order|
  {
    if order == [] {
      CountNone(s, hwIds);
      assert Audience(clients, order) == {};
    } else {
      var n := |order| - 1;
      DeliveriesPartition(s, hwIds, clients, order[..n]);
      var before := Audience(clients, order[..n]);
      assert order == order[..n] + [order[n]];
      if clients[order[n]] {
        assert Audience(clients, order) == before + {order[n]};
        CountOne(s, hwIds, before, order[n]);
      } else {
        assert Audience(clients, order) == before;
      }
    }
  }

  // A client is told of a breach exactly when it has a callback and owns a reported fence, and then
  // of its own ids only.
  lemma {:induction false} NoticesAreOwn(
      s: State, hwIds: seq<HwId>, clients: map<Client, bool>, order: seq<Client>, c: Client)
    requires forall c :: c in order ==> c in clients
    ensures forall ids :: Notice(c, ids) in Notices(s, hwIds, clients, order) <==>
              c in order && clients[c] && ids == Mine(s, hwIds, c) && ids != []
    decreases |order|
  {
    if order != [] {
      var n := |order| - 1;
      NoticesAreOwn(s, hwIds, clients, order[..n], c);
      assert order == order[..n] + [order[n]];
    }
  }
}
