// The subscription index of SystemStatusOsObserver: who wants which data items, kept in two maps, and
// what the framework has been asked for.
module ObserverModel {
  import opened SetMap

  type Client = nat
  type Item = nat

  datatype Index = Index(
    items: map<Client, set<Item>>,     // mClientToDataItems
    clients: map<Item, set<Client>>,   // mDataItemToClients
    connected: bool,                   // mSubscriptionObj is set
    calls: seq<Call>)                  // what that object was called with

  const INITIAL := Index(map[], map[], false, [])

  // The framework's subscription object: subscribe, requestData and unsubscribe.
  datatype Call = Ask(items: set<Item>) | Request(items: set<Item>) | Leave(items: set<Item>)

  // ---- the handlers ----

  // Calls are made while the object is set, and not for nothing.
  function Calling(ix: Index, call: Call): Index {
    if ix.connected && call.items != {} then ix.(calls := ix.calls + [call]) else ix
  }

  ghost function Subscribe(ix: Index, c: Client, l: set<Item>, request: bool): Index {
    var added := l - ix.clients.Keys;
    Calling(ix.(clients := Extended(ix.clients, l, {c}), items := Extended(ix.items, {c}, l)),
            if request then Request(l) else Ask(added))
  }

  ghost function Unsubscribe(ix: Index, c: Client, l: set<Item>): Index {
    var unused := GoneVals(ix.items, {c}, l);
    Calling(ix.(items := Trimmed(ix.items, {c}, l), clients := Trimmed(ix.clients, unused, {c})),
            Leave(GoneKeys(ix.clients, unused, {c})))
  }

  ghost function UnsubscribeAll(ix: Index, c: Client): Index {
    var all := Vals(ix.items, c);
    if all == {} then ix
    else Calling(ix.(items := ix.items - {c}, clients := Trimmed(ix.clients, all, {c})),
                 Leave(GoneKeys(ix.clients, all, {c})))
  }

  // updateSubscription: what LocUnorderedSetMap::update returns as gone is what the old and the new
  // subscription have in common.
  ghost function UpdateSubscription(ix: Index, c: Client, l: set<Item>): Index {
    var kept := Vals(ix.items, c) * l;
    var rest := l - Vals(ix.items, c);
    var trimmed := Trimmed(ix.clients, kept, {c});
    Calling(Calling(ix.(items := Replaced(ix.items, c, l), clients := Extended(trimmed, rest, {c})),
                    Ask(rest - trimmed.Keys)),
            Leave(GoneKeys(ix.clients, kept, {c})))
  }

  ghost function SetSubscriptionObj(ix: Index): Index {
    Calling(ix.(connected := true, calls := []), Ask(ix.clients.Keys))
  }

  datatype Event =
    | SubscribeReq(c: Client, l: set<Item>, request: bool)
    | UnsubscribeReq(c: Client, l: set<Item>)
    | UnsubscribeAllReq(c: Client)
    | UpdateReq(c: Client, l: set<Item>)
    | SetSubsObj

  // Requests with an empty list are turned away before they reach the queue.
  ghost function Step(ix: Index, e: Event): Index {
    match e
    case SubscribeReq(c, l, request) => if l == {} then ix else Subscribe(ix, c, l, request)
    case UnsubscribeReq(c, l) => if l == {} then ix else Unsubscribe(ix, c, l)
    case UnsubscribeAllReq(c) => UnsubscribeAll(ix, c)
    case UpdateReq(c, l) => if l == {} then ix else UpdateSubscription(ix, c, l)
    case SetSubsObj => SetSubscriptionObj(ix)
  }

  ghost function Run(ix: Index, es: seq<Event>): Index
    decreases |es|
  {
    if es == [] then ix else Run(Step(ix, es[0]), es[1..])
  }

  // ---- invariants ----

  predicate Wants(ix: Index, c: Client, i: Item) {
    i in Vals(ix.items, c)
  }

  // The two maps are inverse to each other and hold no empty entries.
  ghost predicate Inverse(ix: Index) {
    && NoEmptySets(ix.items) && NoEmptySets(ix.clients)
    && forall c, i :: i in Vals(ix.items, c) <==> c in Vals(ix.clients, i)
  }

  // What the framework has been asked for and not told to drop.
  function Asked(calls: seq<Call>): set<Item>
    decreases |calls|
  {
    if calls == [] then {}
    else
      var before := Asked(calls[..|calls| - 1]);
      match calls[|calls| - 1]
      case Ask(items) => before + items
      case Request(items) => before + items
      case Leave(items) => before - items
  }

  // The framework has been asked for exactly the items somebody is filed under.
  ghost predicate Agreed(ix: Index) {
    ix.connected ==> Asked(ix.calls) == ix.clients.Keys
  }

  lemma SubscribeAddsExactly(ix: Index, c: Client, l: set<Item>, request: bool)
    requires Inverse(ix) && l != {}
    ensures var end := Subscribe(ix, c, l, request);
            Inverse(end) && forall d, i :: Wants(end, d, i) <==> Wants(ix, d, i) || (d == c && i in l)
  {
    var end := Subscribe(ix, c, l, request);
    assert c in {c};
    forall d, i
      ensures i in Vals(end.items, d) <==> i in Vals(ix.items, d) || (d == c && i in l)
      ensures d in Vals(end.clients, i) <==> d in Vals(ix.clients, i) || (d == c && i in l)
    {
    }
    forall d | d in end.items
      ensures end.items[d] != {}
    {
      if d == c {
        var i :| i in l;
        assert i in end.items[d];
      }
    }
    forall i | i in end.clients
      ensures end.clients[i] != {}
    {
      if i in l {
        assert c in end.clients[i];
      }
    }
  }

  // What trimming leaves of one entry.
  lemma TrimmedVals<K, V>(m: map<K, set<V>>, keys: set<K>, vals: set<V>, k: K)
    ensures Vals(Trimmed(m, keys, vals), k) == if k in keys then Vals(m, k) - vals else Vals(m, k)
    ensures NoEmptySets(m) ==> NoEmptySets(Trimmed(m, keys, vals))
  {
    forall j | j in Trimmed(m, keys, vals) && NoEmptySets(m)
      ensures Trimmed(m, keys, vals)[j] != {}
    {
      if j in keys {
        var v :| v in m[j] && v !in vals;
        assert v in m[j] - vals;
      }
    }
  }

  lemma UnsubscribeRemovesExactly(ix: Index, c: Client, l: set<Item>)
    requires Inverse(ix)
    ensures var end := Unsubscribe(ix, c, l);
            Inverse(end) && forall d, i :: Wants(end, d, i) <==> Wants(ix, d, i) && !(d == c && i in l)
  {
    var end := Unsubscribe(ix, c, l);
    var unused := GoneVals(ix.items, {c}, l);
    assert unused == Vals(ix.items, c) * l by {
      if c in ix.items {
        assert c in {c};
        assert forall i :: i in ix.items[c] && i in l ==> i in unused;
      }
    }
    forall d, i
      ensures i in Vals(end.items, d) <==> i in Vals(ix.items, d) && !(d == c && i in l)
      ensures d in Vals(end.clients, i) <==> d in Vals(ix.clients, i) && !(d == c && i in l)
    {
      TrimmedVals(ix.items, {c}, l, d);
      TrimmedVals(ix.clients, unused, {c}, i);
    }
    TrimmedVals(ix.items, {c}, l, c);
    TrimmedVals(ix.clients, unused, {c}, 0);
  }

  lemma UnsubscribeAllRemovesExactly(ix: Index, c: Client)
    requires Inverse(ix)
    ensures var end := UnsubscribeAll(ix, c);
            Inverse(end) && forall d, i :: Wants(end, d, i) <==> Wants(ix, d, i) && d != c
  {
    var end := UnsubscribeAll(ix, c);
    var all := Vals(ix.items, c);
    if all != {} {
      forall d, i
        ensures i in Vals(end.items, d) <==> i in Vals(ix.items, d) && d != c
        ensures d in Vals(end.clients, i) <==> d in Vals(ix.clients, i) && d != c
      {
        TrimmedVals(ix.clients, all, {c}, i);
      }
      TrimmedVals(ix.clients, all, {c}, 0);
    }
  }

  lemma UpdatedVals(ix: Index, c: Client, l: set<Item>, i: Item)
    requires Inverse(ix) && l != {}
    ensures var end := UpdateSubscription(ix, c, l);
            && (c in Vals(end.clients, i) <==> (i in l) != Wants(ix, c, i))
            && (forall d :: d != c ==> (d in Vals(end.clients, i) <==> d in Vals(ix.clients, i)))
  {
    var end := UpdateSubscription(ix, c, l);
    var kept, rest := Vals(ix.items, c) * l, l - Vals(ix.items, c);
    var trimmed := Trimmed(ix.clients, kept, {c});
    TrimmedVals(ix.clients, kept, {c}, i);
    if i in rest {
      assert Vals(end.clients, i) == Vals(trimmed, i) + {c};
    } else {
      assert Vals(end.clients, i) == Vals(trimmed, i);
    }
  }

  // An update files the client under the items that changed sides, in either direction.
  lemma UpdateFilesTheDifference(ix: Index, c: Client, l: set<Item>)
    requires Inverse(ix) && l != {}
    ensures var end := UpdateSubscription(ix, c, l);
            && Vals(end.items, c) == l
            && (forall i :: c in Vals(end.clients, i) <==> (i in l) != Wants(ix, c, i))
            && (forall d, i :: d != c ==> (Wants(end, d, i) <==> Wants(ix, d, i)) &&
                                          (d in Vals(end.clients, i) <==> Wants(ix, d, i)))
            && NoEmptySets(end.items) && NoEmptySets(end.clients)
  {
    forall i
      ensures c in Vals(UpdateSubscription(ix, c, l).clients, i) <==> (i in l) != Wants(ix, c, i)
      ensures forall d :: d != c ==> (d in Vals(UpdateSubscription(ix, c, l).clients, i) <==> Wants(ix, d, i))
    {
      UpdatedVals(ix, c, l, i);
    }
    UpdateLeavesNoEmptySets(ix, c, l);
  }

  lemma UpdateLeavesNoEmptySets(ix: Index, c: Client, l: set<Item>)
    requires Inverse(ix) && l != {}
    ensures NoEmptySets(UpdateSubscription(ix, c, l).items) && NoEmptySets(UpdateSubscription(ix, c, l).clients)
  {
    var end := UpdateSubscription(ix, c, l);
    var kept, rest := Vals(ix.items, c) * l, l - Vals(ix.items, c);
    TrimmedVals(ix.clients, kept, {c}, 0);
    forall i | i in end.clients
      ensures end.clients[i] != {}
    {
      if i in rest {
        assert c in end.clients[i];
      }
    }
  }

  // The maps stay inverse exactly when the client had no subscription to update.
  lemma UpdateKeepsInverse(ix: Index, c: Client, l: set<Item>)
    requires Inverse(ix) && l != {}
    ensures Inverse(UpdateSubscription(ix, c, l)) <==> c !in ix.items
  {
    var end := UpdateSubscription(ix, c, l);
    UpdateFilesTheDifference(ix, c, l);
    if c in ix.items {
      assert ix.items[c] != {};
      var i :| i in ix.items[c];
      assert Wants(ix, c, i);
      assert c in Vals(end.clients, i) <==> i !in Vals(end.items, c);
    } else {
      forall d, i
        ensures i in Vals(end.items, d) <==> d in Vals(end.clients, i)
      {
        assert Wants(end, d, i) || !Wants(end, d, i);
      }
    }
  }

  // One call, or none.
  function If(call: Call): seq<Call> {
    if call.items == {} then [] else [call]
  }

  // What a request makes of the framework: it is asked for the items that gain their first client, then
  // told to drop those that lose their last one; or it is asked for the data of all that a subscription
  // names.  A new object is asked for everything.
  lemma CallsAreExact(ix: Index, e: Event)
    ensures var end := Step(ix, e);
            var gained, lost := end.clients.Keys - ix.clients.Keys, ix.clients.Keys - end.clients.Keys;
            && end.connected == (ix.connected || e.SetSubsObj?)
            && end.calls ==
               if e.SetSubsObj? then If(Ask(end.clients.Keys))
               else if !ix.connected then ix.calls
               else if e.SubscribeReq? && e.request then ix.calls + If(Request(e.l))
               else ix.calls + If(Ask(gained)) + If(Leave(lost))
  {
    var calls := ix.calls;
    assert calls + [] == calls && forall call: Call :: calls + [] + If(call) == calls + If(call);
    match e
    case SubscribeReq(c, l, request) => SubscribeKeys(ix, c, l, request);
    case UnsubscribeReq(c, l) =>
      if l != {} {
        TrimmedKeys(ix.clients, GoneVals(ix.items, {c}, l), {c});
      }
    case UnsubscribeAllReq(c) => TrimmedKeys(ix.clients, Vals(ix.items, c), {c});
    case UpdateReq(c, l) =>
      if l != {} {
        UpdateKeys(ix, c, l);
      }
    case SetSubsObj =>
  }

  lemma SubscribeKeys(ix: Index, c: Client, l: set<Item>, request: bool)
    ensures var end := Subscribe(ix, c, l, request);
            end.clients.Keys - ix.clients.Keys == l - ix.clients.Keys && ix.clients.Keys - end.clients.Keys == {}
  {
    assert Subscribe(ix, c, l, request).clients.Keys == ix.clients.Keys + l;
  }

  lemma UpdateKeys(ix: Index, c: Client, l: set<Item>)
    ensures var kept, rest, end := Vals(ix.items, c) * l, l - Vals(ix.items, c), UpdateSubscription(ix, c, l);
            && end.clients.Keys - ix.clients.Keys == rest - Trimmed(ix.clients, kept, {c}).Keys
            && ix.clients.Keys - end.clients.Keys == GoneKeys(ix.clients, kept, {c})
  {
    var kept, rest := Vals(ix.items, c) * l, l - Vals(ix.items, c);
    var trimmed := Trimmed(ix.clients, kept, {c});
    TrimmedKeys(ix.clients, kept, {c});
    assert UpdateSubscription(ix, c, l).clients.Keys == trimmed.Keys + rest;
    assert GoneKeys(ix.clients, kept, {c}) !! rest;
  }

  lemma TrimmedKeys<K, V>(m: map<K, set<V>>, keys: set<K>, vals: set<V>)
    ensures Trimmed(m, keys, vals).Keys == m.Keys - GoneKeys(m, keys, vals)
    ensures GoneKeys(m, keys, vals) == m.Keys - Trimmed(m, keys, vals).Keys
  {
  }

  lemma AskedAfter(calls: seq<Call>, call: Call)
    ensures Asked(calls + If(call)) == if call.Leave? then Asked(calls) - call.items else Asked(calls) + call.items
  {
    if call.items == {} {
      assert calls + [] == calls;
    } else {
      assert (calls + [call])[..|calls|] == calls;
    }
  }

  lemma CallsKeepUp(calls: seq<Call>, before: set<Item>, after: set<Item>)
    requires Asked(calls) == before
    ensures Asked(calls + If(Ask(after - before)) + If(Leave(before - after))) == after
  {
    AskedAfter(calls, Ask(after - before));
    AskedAfter(calls + If(Ask(after - before)), Leave(before - after));
  }

  lemma StepAgrees(ix: Index, e: Event)
    requires Agreed(ix)
    ensures Agreed(Step(ix, e))
  {
    CallsAreExact(ix, e);
    var keys := Step(ix, e).clients.Keys;
    if e.SetSubsObj? {
      AskedAfter([], Ask(keys));
      assert [] + If(Ask(keys)) == If(Ask(keys));
    } else if e.SubscribeReq? {
      AskedAfter(ix.calls, Request(e.l));
      SubscribeKeys(ix, e.c, e.l, e.request);
      if ix.connected {
        CallsKeepUp(ix.calls, ix.clients.Keys, keys);
      }
    } else if ix.connected {
      CallsKeepUp(ix.calls, ix.clients.Keys, keys);
    }
  }

  // Whatever the requests, the framework is asked for exactly the items filed under some client.
  lemma {:induction false} RunAgrees(ix: Index, es: seq<Event>)
    requires Agreed(ix)
    ensures Agreed(Run(ix, es))
    decreases |es|
  {
    if es != [] {
      StepAgrees(ix, es[0]);
      RunAgrees(Step(ix, es[0]), es[1..]);
    }
  }

  // Updates only by clients without a subscription.
  ghost predicate UpdatesAreFirst(ix: Index, es: seq<Event>)
    decreases |es|
  {
    es != [] ==>
      && (es[0].UpdateReq? ==> es[0].c !in ix.items)
      && UpdatesAreFirst(Step(ix, es[0]), es[1..])
  }

  // In such runs the maps are inverse, and the framework is asked for exactly what somebody wants.
  lemma {:induction false} RunKeepsInverse(ix: Index, es: seq<Event>)
    requires Inverse(ix) && Agreed(ix) && UpdatesAreFirst(ix, es)
    ensures var end := Run(ix, es);
            Inverse(end) && (end.connected ==> forall i :: i in Asked(end.calls) <==> exists c :: Wants(end, c, i))
    decreases |es|
  {
    if es != [] {
      match es[0]
      case SubscribeReq(c, l, request) => if l != {} { SubscribeAddsExactly(ix, c, l, request); }
      case UnsubscribeReq(c, l) => UnsubscribeRemovesExactly(ix, c, l);
      case UnsubscribeAllReq(c) => UnsubscribeAllRemovesExactly(ix, c);
      case UpdateReq(c, l) => if l != {} { UpdateKeepsInverse(ix, c, l); }
      case SetSubsObj =>
    }
    if es == [] {
      WantedIsKeyed(ix);
    } else {
      StepAgrees(ix, es[0]);
      RunKeepsInverse(Step(ix, es[0]), es[1..]);
    }
  }

  lemma WantedIsKeyed(ix: Index)
    requires Inverse(ix)
    ensures forall i :: i in ix.clients.Keys <==> exists c :: Wants(ix, c, i)
  {
    forall i
      ensures i in ix.clients.Keys <==> exists c :: Wants(ix, c, i)
    {
      if i in ix.clients {
        var c :| c in ix.clients[i];
        assert c in Vals(ix.clients, i);
        assert Wants(ix, c, i);
      }
      if c :| Wants(ix, c, i) {
        assert c in Vals(ix.clients, i);
      }
    }
  }

  // ---- notification ----

  // One data item of a batch; `handled` is SystemStatus's answer that it records this item.
  datatype DataItem = DataItem(id: Item, value: int, handled: bool)

  function Cached(cache: map<Item, int>, d: DataItem): map<Item, int> {
    if d.handled then cache[d.id := d.value] else cache
  }

  predicate Changes(cache: map<Item, int>, d: DataItem) {
    d.handled && (d.id !in cache || cache[d.id] != d.value)
  }

  function CacheAfter(cache: map<Item, int>, batch: seq<DataItem>): map<Item, int>
    decreases |batch|
  {
    if batch == [] then cache
    else Cached(CacheAfter(cache, batch[..|batch| - 1]), batch[|batch| - 1])
  }

  ghost function Changed(cache: map<Item, int>, batch: seq<DataItem>): set<Item> {
    set n | 0 <= n < |batch| && Changes(CacheAfter(cache, batch[..n]), batch[n]) :: batch[n].id
  }

  // ---- what has changed, by the values alone ----

  // The report at `m` is the latest recorded one about item `i` before `n`.
  predicate RecordedAt(batch: seq<DataItem>, m: int, n: int, i: Item) {
    && 0 <= m < n <= |batch| && batch[m].handled && batch[m].id == i
    && forall j :: m < j < n ==> !(batch[j].handled && batch[j].id == i)
  }

  predicate Unrecorded(batch: seq<DataItem>, n: int, i: Item) {
    forall j :: 0 <= j < n <= |batch| ==> !(batch[j].handled && batch[j].id == i)
  }

  // `v` is the value last recorded for item `i` before `n`, in the batch or in the cache.
  ghost predicate Holds(cache: map<Item, int>, batch: seq<DataItem>, n: int, i: Item, v: int) {
    || (exists m :: RecordedAt(batch, m, n, i) && batch[m].value == v)
    || (Unrecorded(batch, n, i) && i in cache && cache[i] == v)
  }

  // The report at `n` is recorded, and is the first about its item or differs from the value last recorded.
  ghost predicate News(cache: map<Item, int>, batch: seq<DataItem>, n: int) {
    && 0 <= n < |batch| && batch[n].handled
    && !Holds(cache, batch, n, batch[n].id, batch[n].value)
  }

  // The cache holds the value last recorded for each item.
  lemma {:induction false} CacheHolds(cache: map<Item, int>, batch: seq<DataItem>, n: nat, i: Item)
    requires n <= |batch|
    ensures var after := CacheAfter(cache, batch[..n]);
            && (i in after ==> Holds(cache, batch, n, i, after[i]))
            && (i !in after ==> i !in cache && Unrecorded(batch, n, i))
            && (forall v :: Holds(cache, batch, n, i, v) ==> i in after && after[i] == v)
    decreases n
  {
    if n != 0 {
      assert batch[..n][..n - 1] == batch[..n - 1];
      CacheHolds(cache, batch, n - 1, i);
      forall m
        ensures var recorded := batch[n - 1].handled && batch[n - 1].id == i;
                && (Unrecorded(batch, n, i) <==> !recorded && Unrecorded(batch, n - 1, i))
                && (RecordedAt(batch, m, n, i) <==> if recorded then m == n - 1 else RecordedAt(batch, m, n - 1, i))
      {
        RecordedNext(batch, n - 1, i, m);
      }
    }
  }

  lemma RecordedNext(batch: seq<DataItem>, n: nat, i: Item, m: int)
    requires n < |batch|
    ensures var recorded := batch[n].handled && batch[n].id == i;
            && (Unrecorded(batch, n + 1, i) <==> !recorded && Unrecorded(batch, n, i))
            && (RecordedAt(batch, m, n + 1, i) <==> if recorded then m == n else RecordedAt(batch, m, n, i))
  {
  }

  // For every batch: an item is among those to be sent exactly when some report of it is news.
  lemma ChangedExactly(cache: map<Item, int>, batch: seq<DataItem>, i: Item)
    ensures i in Changed(cache, batch) <==> exists n :: News(cache, batch, n) && batch[n].id == i
  {
    forall n | 0 <= n < |batch|
      ensures Changes(CacheAfter(cache, batch[..n]), batch[n]) <==> News(cache, batch, n)
    {
      CacheHolds(cache, batch, n, batch[n].id);
    }
  }

  // From batch to deliveries: with inverse maps a client is told of an item exactly when it wants it and
  // the batch brings news of it.
  lemma BatchIsDelivered(ix: Index, cache: map<Item, int>, batch: seq<DataItem>)
    requires Inverse(ix)
    ensures forall c, i :: i in Vals(Deliveries(ix, Changed(cache, batch)), c) <==>
              Wants(ix, c, i) && exists n :: News(cache, batch, n) && batch[n].id == i
  {
    FanOutIsExact(ix, Changed(cache, batch));
    forall i
      ensures i in Changed(cache, batch) <==> exists n :: News(cache, batch, n) && batch[n].id == i
    {
      ChangedExactly(cache, batch, i);
    }
  }

  ghost function Audience(ix: Index, changed: set<Item>): set<Client> {
    set i, c | i in changed && c in Vals(ix.clients, i) :: c
  }

  // What each client is sent: the items it subscribes to among the changed ones.
  ghost function Deliveries(ix: Index, changed: set<Item>): map<Client, set<Item>> {
    map c | c in Audience(ix, changed) && Vals(ix.items, c) * changed != {} :: Vals(ix.items, c) * changed
  }

  predicate FiledUnder(ix: Index, c: Client, changed: set<Item>) {
    exists j :: j in changed && c in Vals(ix.clients, j)
  }

  lemma DeliveredItem(ix: Index, changed: set<Item>, c: Client, i: Item)
    ensures i in Vals(Deliveries(ix, changed), c) <==> Wants(ix, c, i) && i in changed && FiledUnder(ix, c, changed)
  {
    assert c in Audience(ix, changed) <==> FiledUnder(ix, c, changed);
    assert Wants(ix, c, i) && i in changed <==> i in Vals(ix.items, c) * changed;
  }

  // In any state: a client is sent a changed item exactly when it subscribes to it and is filed under some
  // changed item, perhaps another one.
  lemma FanOutInGeneral(ix: Index, changed: set<Item>)
    ensures forall c, i :: i in Vals(Deliveries(ix, changed), c) <==>
              Wants(ix, c, i) && i in changed && FiledUnder(ix, c, changed)
  {
    forall c, i
      ensures i in Vals(Deliveries(ix, changed), c) <==> Wants(ix, c, i) && i in changed && FiledUnder(ix, c, changed)
    {
      DeliveredItem(ix, changed, c, i);
    }
  }

  // Fan-out is exact: a client is sent an item exactly when it wants it and the item changed.
  lemma FanOutIsExact(ix: Index, changed: set<Item>)
    requires Inverse(ix)
    ensures forall c, i :: i in Vals(Deliveries(ix, changed), c) <==> Wants(ix, c, i) && i in changed
  {
    forall c, i
      ensures i in Vals(Deliveries(ix, changed), c) <==> Wants(ix, c, i) && i in changed
    {
      if Wants(ix, c, i) && i in changed {
        assert c in Vals(ix.clients, i);
        assert c in Audience(ix, changed);
        assert i in Vals(ix.items, c) * changed;
      }
    }
  }

  // A client that updates its subscription is no longer told of an item it keeps.
  lemma UpdateSilences(ix: Index, c: Client, l: set<Item>, i: Item)
    requires Inverse(ix) && i in l && Wants(ix, c, i)
    ensures var end := UpdateSubscription(ix, c, l);
            Wants(end, c, i) && c !in Deliveries(end, {i})
  {
    UpdateFilesTheDifference(ix, c, l);
    var end := UpdateSubscription(ix, c, l);
    assert c !in Vals(end.clients, i);
  }

  // Two requests are enough: a client subscribes to an item and then updates to it and another one.
  lemma TwoRequestsBreakInverse(c: Client, kept: Item, more: Item, es: seq<Event>)
    requires kept != more && es == [SubscribeReq(c, {kept}, false), UpdateReq(c, {kept, more})]
    ensures Inverse(INITIAL) && !Inverse(Run(INITIAL, es))
    ensures kept in Vals(Run(INITIAL, es).items, c) && c !in Vals(Run(INITIAL, es).clients, kept)
  {
    var once := Subscribe(INITIAL, c, {kept}, false);
    SubscribeAddsExactly(INITIAL, c, {kept}, false);
    assert Wants(once, c, kept) && c in once.items;
    UpdateKeepsInverse(once, c, {kept, more});
    UpdateFilesTheDifference(once, c, {kept, more});
    assert es[1..] == [UpdateReq(c, {kept, more})] && es[1..][1..] == [];
    assert Run(INITIAL, es) == Run(Step(once, es[1]), []) == UpdateSubscription(once, c, {kept, more});
  }
}
