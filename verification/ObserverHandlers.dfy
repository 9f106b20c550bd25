// SystemStatusOsObserver's message handlers as they run: two set-maps, the item cache, and what the
// framework has been asked for.
module ObserverHandlers {
  import opened SetMap
  import opened ObserverModel

  class SystemStatusOsObserver {
    const mClientToDataItems: LocUnorderedSetMap<Client, Item>
    const mDataItemToClients: LocUnorderedSetMap<Item, Client>
    var mSubscriptionObj: bool
    var mDataItemCache: map<Item, int>
    ghost var calls: seq<Call>   // made on the framework's object

    ghost predicate Valid() {
      mClientToDataItems as object != mDataItemToClients as object
    }

    ghost function State(): Index
      reads this, mClientToDataItems, mDataItemToClients
    {
      Index(mClientToDataItems.mMap, mDataItemToClients.mMap, mSubscriptionObj, calls)
    }

    constructor ()
      ensures Valid() && fresh(mClientToDataItems) && fresh(mDataItemToClients)
      ensures State() == INITIAL && mDataItemCache == map[]
    {
      mClientToDataItems := new LocUnorderedSetMap();
      mDataItemToClients := new LocUnorderedSetMap();
      mSubscriptionObj := false;
      mDataItemCache := map[];
      calls := [];
    }

    // ---- calls on the subscription object ----

    method FrameworkSubscribe(l: set<Item>)
      requires mSubscriptionObj
      modifies this`calls
      ensures calls == old(calls) + [Ask(l)]
    {
      calls := calls + [Ask(l)];
    }

    method FrameworkRequestData(l: set<Item>)
      requires mSubscriptionObj
      modifies this`calls
      ensures calls == old(calls) + [Request(l)]
    {
      calls := calls + [Request(l)];
    }

    method FrameworkUnsubscribe(l: set<Item>)
      requires mSubscriptionObj
      modifies this`calls
      ensures calls == old(calls) + [Leave(l)]
    {
      calls := calls + [Leave(l)];
    }

    method SetSubscriptionObject()
      requires Valid()
      modifies this`mSubscriptionObj, this`calls
      ensures State() == SetSubscriptionObj(old(State()))
    {
      mSubscriptionObj := true;
      calls := [];
      if mDataItemToClients.mMap != map[] {
        FrameworkSubscribe(mDataItemToClients.mMap.Keys);
      }
    }

    // ---- requests; `sent` are the cached items the client is told at once ----

    method HandleSubscribeReq(c: Client, l: set<Item>, requestData: bool) returns (sent: set<Item>)
      requires Valid()
      modifies this`calls, mClientToDataItems, mDataItemToClients
      ensures State() == Step(old(State()), SubscribeReq(c, l, requestData))
      ensures sent == l * mDataItemCache.Keys
    {
      sent := {};
      if l == {} {
        return;
      }
      var dataItemsToSubscribe := mDataItemToClients.AddAll(l, {c});
      var isNew := mClientToDataItems.Add(c, l);
      sent := SendCachedDataItems(l);
      if mSubscriptionObj {
        if requestData {
          FrameworkRequestData(l);
        } else if dataItemsToSubscribe != {} {
          FrameworkSubscribe(dataItemsToSubscribe);
        }
      }
    }

    method HandleUpdateSubscriptionReq(c: Client, l: set<Item>) returns (sent: set<Item>)
      requires Valid()
      modifies this`calls, mClientToDataItems, mDataItemToClients
      ensures State() == Step(old(State()), UpdateReq(c, l))
      ensures sent == (l - Vals(old(mClientToDataItems.mMap), c)) * mDataItemCache.Keys
    {
      sent := {};
      if l == {} {
        return;
      }
      var gone, rest := mClientToDataItems.Update(c, l);
      var dataItemsToUnsubscribe, ignored := mDataItemToClients.TrimOrRemove(gone, {c});
      var dataItemsToSubscribe := mDataItemToClients.AddAll(rest, {c});
      sent := SendCachedDataItems(rest);
      if mSubscriptionObj {
        if dataItemsToSubscribe != {} {
          FrameworkSubscribe(dataItemsToSubscribe);
        }
        if dataItemsToUnsubscribe != {} {
          FrameworkUnsubscribe(dataItemsToUnsubscribe);
        }
      }
    }

    method HandleUnsubscribeReq(c: Client, l: set<Item>)
      requires Valid()
      modifies this`calls, mClientToDataItems, mDataItemToClients
      ensures State() == Step(old(State()), UnsubscribeReq(c, l))
    {
      if l == {} {
        return;
      }
      var clientToRemove, dataItemsUnused := mClientToDataItems.TrimOrRemove({c}, l);
      var dataItemsToUnsubscribe, ignored := mDataItemToClients.TrimOrRemove(dataItemsUnused, {c});
      if mSubscriptionObj && dataItemsToUnsubscribe != {} {
        FrameworkUnsubscribe(dataItemsToUnsubscribe);
      }
    }

    method HandleUnsubscribeAllReq(c: Client)
      requires Valid()
      modifies this`calls, mClientToDataItems, mDataItemToClients
      ensures State() == Step(old(State()), UnsubscribeAllReq(c))
    {
      var diByClient := if c in mClientToDataItems.mMap then mClientToDataItems.mMap[c] else {};
      if diByClient != {} {
        mClientToDataItems.Remove(c);
        var dataItemsToUnsubscribe, ignored := mDataItemToClients.TrimOrRemove(diByClient, {c});
        if mSubscriptionObj && dataItemsToUnsubscribe != {} {
          FrameworkUnsubscribe(dataItemsToUnsubscribe);
        }
      }
    }

    // ---- notification ----

    method SendCachedDataItems(l: set<Item>) returns (sent: set<Item>)
      ensures sent == l * mDataItemCache.Keys
    {
      sent := {};
      var todo := l;
      while todo != {}
        invariant todo <= l && sent == (l - todo) * mDataItemCache.Keys
      {
        var i :| i in todo;
        if i in mDataItemCache {
          sent := sent + {i};
        }
        todo := todo - {i};
      }
    }

    method UpdateCache(d: DataItem) returns (updated: bool)
      modifies this`mDataItemCache
      ensures mDataItemCache == Cached(old(mDataItemCache), d)
      ensures updated == Changes(old(mDataItemCache), d)
    {
      updated := false;
      if d.handled {
        if d.id !in mDataItemCache {
          mDataItemCache := mDataItemCache[d.id := d.value];
          updated := true;
        } else if mDataItemCache[d.id] != d.value {
          mDataItemCache := mDataItemCache[d.id := d.value];
          updated := true;
        } else {
          assert mDataItemCache[d.id := d.value] == mDataItemCache;
        }
      }
    }

    // Every client hears of the changed items it subscribes to, in one call each.
    method HandleNotify(batch: seq<DataItem>) returns (deliveries: map<Client, set<Item>>)
      requires Valid()
      modifies this`mDataItemCache
      ensures mDataItemCache == CacheAfter(old(mDataItemCache), batch)
      ensures deliveries == Deliveries(State(), Changed(old(mDataItemCache), batch))
    {
      var toBeSent := UpdateCacheAll(batch);
      var clientSet := ClientsOf(toBeSent);
      deliveries := Deliver(clientSet, toBeSent);
    }

    method Deliver(clientSet: set<Client>, toBeSent: set<Item>) returns (deliveries: map<Client, set<Item>>)
      requires toBeSent <= mDataItemCache.Keys
      ensures deliveries == map c | c in clientSet && Vals(mClientToDataItems.mMap, c) * toBeSent != {}
                              :: Vals(mClientToDataItems.mMap, c) * toBeSent
    {
      deliveries := map[];
      var todo := clientSet;
      while todo != {}
        invariant todo <= clientSet
        invariant deliveries == map c | c in clientSet - todo && Vals(mClientToDataItems.mMap, c) * toBeSent != {}
                                  :: Vals(mClientToDataItems.mMap, c) * toBeSent
      {
        var client :| client in todo;
        var forThisClient := Vals(mClientToDataItems.mMap, client);
        var kept := KeepOnly(forThisClient, toBeSent);
        var sent := SendCachedDataItems(kept);
        assert sent == kept;
        if sent != {} {
          deliveries := deliveries[client := sent];
        }
        todo := todo - {client};
      }
      assert clientSet - todo == clientSet;
    }

    method UpdateCacheAll(batch: seq<DataItem>) returns (toBeSent: set<Item>)
      modifies this`mDataItemCache
      ensures mDataItemCache == CacheAfter(old(mDataItemCache), batch)
      ensures toBeSent == Changed(old(mDataItemCache), batch) && toBeSent <= mDataItemCache.Keys
    {
      toBeSent := {};
      for n := 0 to |batch|
        invariant mDataItemCache == CacheAfter(old(mDataItemCache), batch[..n])
        invariant toBeSent == Changed(old(mDataItemCache), batch[..n]) && toBeSent <= mDataItemCache.Keys
      {
        assert batch[..n + 1][..n] == batch[..n];
        ChangedExtends(mDataItemCache, old(mDataItemCache), batch[..n], batch[n]);
        assert batch[..n] + [batch[n]] == batch[..n + 1];
        var updated := UpdateCache(batch[n]);
        if updated {
          toBeSent := toBeSent + {batch[n].id};
        }
      }
      assert batch[..|batch|] == batch;
    }

    method ClientsOf(changed: set<Item>) returns (clientSet: set<Client>)
      ensures clientSet == Audience(State(), changed)
    {
      clientSet := {};
      var todo := changed;
      ghost var done := {};
      while todo != {}
        invariant todo !! done && todo + done == changed
        invariant clientSet == Audience(State(), done)
        decreases todo
      {
        var i :| i in todo;
        if i in mDataItemToClients.mMap {
          clientSet := clientSet + mDataItemToClients.mMap[i];
        }
        assert Audience(State(), done + {i}) == Audience(State(), done) + Vals(mDataItemToClients.mMap, i) by {
          assert i in done + {i};
        }
        done := done + {i};
        todo := todo - {i};
      }
      assert done == changed;
    }

    // Erases from `s` while walking it.
    method KeepOnly(s: set<Item>, wanted: set<Item>) returns (kept: set<Item>)
      ensures kept == s * wanted
    {
      kept := s;
      var todo := s;
      while todo != {}
        invariant todo <= s && kept == s * wanted + todo
      {
        var i :| i in todo;
        if i !in wanted {
          kept := kept - {i};
        }
        todo := todo - {i};
      }
    }
  }

  lemma CacheExtends(start: map<Item, int>, batch: seq<DataItem>, d: DataItem)
    ensures CacheAfter(start, batch + [d]) == Cached(CacheAfter(start, batch), d)
  {
    var longer := batch + [d];
    assert longer[..|longer| - 1] == batch;
  }

  lemma ChangedExtends(cache: map<Item, int>, start: map<Item, int>, batch: seq<DataItem>, d: DataItem)
    requires cache == CacheAfter(start, batch)
    ensures CacheAfter(start, batch + [d]) == Cached(cache, d)
    ensures Changed(start, batch + [d]) == Changed(start, batch) + if Changes(cache, d) then {d.id} else {}
  {
    CacheExtends(start, batch, d);
    var longer := batch + [d];
    assert longer[..|batch|] == batch;
    forall n | 0 <= n < |batch|
      ensures longer[..n] == batch[..n] && longer[n] == batch[n]
    {
    }
  }
}
