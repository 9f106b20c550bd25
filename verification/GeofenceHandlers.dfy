// GeofenceAdapter as it runs: both maps updated in place, entries erased while they are walked, a
// buffer filled by index for each client told of a breach.
module GeofenceHandlers {
  import opened GeofenceModel

  datatype LocationError = Success | IdUnknown

  // The entries of a map, in the order in which it is walked.
  predicate Entries(order: seq<Key>, ids: map<Key, HwId>) {
    && (forall k :: k in order ==> k in ids)
    && (forall k :: k in ids ==> k in order)
    && (forall i, j :: 0 <= i < j < |order| ==> order[i] != order[j])
  }

  class GeofenceAdapter {
    var mGeofences: map<HwId, Fence>
    var mGeofenceIds: map<Key, HwId>
    var engine: map<HwId, bool>      // the fences in the engine, and whether each is paused
    var told: seq<Notice>            // breach callbacks made

    ghost function State(): State
      reads this
    {
      GeofenceModel.State(mGeofences, mGeofenceIds, engine)
    }

    constructor ()
      ensures State() == INITIAL && told == []
    {
      mGeofences, mGeofenceIds, engine, told := map[], map[], map[], [];
    }

    // ---- lookups ----

    method GetHwIdFromClient(key: Key) returns (err: LocationError, hwId: HwId)
      ensures err == Success <==> key in mGeofenceIds
      ensures err == Success ==> hwId == mGeofenceIds[key]
    {
      err, hwId := IdUnknown, 0;
      if key in mGeofenceIds {
        err, hwId := Success, mGeofenceIds[key];
      }
    }

    method GetGeofenceKeyFromHwId(hwId: HwId) returns (err: LocationError, key: Key)
      ensures err == Success <==> hwId in mGeofences
      ensures err == Success ==> key == mGeofences[hwId].key
    {
      err, key := IdUnknown, Key(0, 0);
      if hwId in mGeofences {
        err, key := Success, mGeofences[hwId].key;
      }
    }

    // ---- single fences ----

    method SaveGeofenceItem(key: Key, hwId: HwId, shape: Shape)
      modifies this`mGeofences, this`mGeofenceIds
      ensures State() == Saved(old(State()), key, hwId, shape)
    {
      var fence := Fence(key, shape, false);
      mGeofences := mGeofences[hwId := fence];
      mGeofenceIds := mGeofenceIds[key := hwId];
    }

    method AddGeofence(key: Key, hwId: HwId, shape: Shape)
      modifies this`mGeofences, this`mGeofenceIds, this`engine
      ensures State() == Added(old(State()), key, hwId, shape)
    {
      engine := engine[hwId := false];
      SaveGeofenceItem(key, hwId, shape);
    }

    method RemoveGeofenceItem(hwId: HwId)
      modifies this`mGeofences, this`mGeofenceIds
      ensures if hwId in old(mGeofences) && old(mGeofences)[hwId].key in old(mGeofenceIds)
              then mGeofences == old(mGeofences) - {hwId} &&
                   mGeofenceIds == old(mGeofenceIds) - {old(mGeofences)[hwId].key}
              else mGeofences == old(mGeofences) && mGeofenceIds == old(mGeofenceIds)
    {
      var err, key := GetGeofenceKeyFromHwId(hwId);
      if err == Success {
        if key in mGeofenceIds {
          mGeofenceIds := mGeofenceIds - {key};
          if hwId in mGeofences {
            mGeofences := mGeofences - {hwId};
          }
        }
      }
    }

    // A removal that the engine accepts.
    method RemoveGeofence(key: Key) returns (err: LocationError)
      requires key in mGeofenceIds ==> mGeofenceIds[key] in mGeofences && mGeofences[mGeofenceIds[key]].key == key
      modifies this`mGeofences, this`mGeofenceIds, this`engine
      ensures State() == Removed(old(State()), key)
      ensures err == Success <==> key in old(mGeofenceIds)
    {
      var hwId: HwId;
      err, hwId := GetHwIdFromClient(key);
      if err == Success {
        engine := engine - {hwId};
        RemoveGeofenceItem(hwId);
      }
    }

    // A pause or resumption that the engine accepts.
    method PauseGeofence(key: Key, paused: bool) returns (err: LocationError)
      requires key in mGeofenceIds ==> mGeofenceIds[key] in mGeofences
      modifies this`mGeofences, this`engine
      ensures State() == Paused(old(State()), key, paused)
      ensures err == Success <==> key in mGeofenceIds
    {
      var hwId: HwId;
      err, hwId := GetHwIdFromClient(key);
      if err == Success {
        engine := engine[hwId := paused];
        mGeofences := mGeofences[hwId := mGeofences[hwId].(paused := paused)];
      }
    }

    // A modification that the engine accepts.
    method ModifyGeofence(key: Key, breachMask: nat, responsiveness: nat, dwellTime: nat) returns (err: LocationError)
      modifies this`mGeofences
      ensures State() == Modified(old(State()), key, breachMask, responsiveness, dwellTime)
      ensures err == Success <==> key in mGeofenceIds
    {
      var hwId: HwId;
      err, hwId := GetHwIdFromClient(key);
      if err == Success {
        if hwId in mGeofences {
          var fence := mGeofences[hwId];
          var shape := fence.shape.(breachMask := breachMask, responsiveness := responsiveness, dwellTime := dwellTime);
          mGeofences := mGeofences[hwId := fence.(shape := shape)];
        }
      }
    }

    // ---- clients and restarts ----

    method StopClientSessions(client: Client, order: seq<Key>, accepted: set<HwId>)
      requires Entries(order, mGeofenceIds)
      modifies this`mGeofences, this`mGeofenceIds, this`engine
      ensures State() == Stopped(old(State()), client, accepted)
    {
      ghost var was := State();
      StoppedNone(was, client, accepted);
      for i := 0 to |order|
        invariant State() == StoppedAfter(was, client, accepted, order[..i])
      {
        var key := order[i];
        assert key !in order[..i] && order[..i + 1] == order[..i] + [key];
        StoppedNext(was, client, accepted, order[..i], key);
        EraseEntry(key, client, accepted);
      }
      assert order[..|order|] == order;
      StoppedAll(was, client, accepted, order);
    }

    method EraseEntry(key: Key, client: Client, accepted: set<HwId>)
      requires key in mGeofenceIds
      modifies this`mGeofences, this`mGeofenceIds, this`engine
      ensures State() == Erased(old(State()), client, accepted, key)
    {
      var hwId := mGeofenceIds[key];
      if client == key.client {
        mGeofenceIds := mGeofenceIds - {key};
        if hwId in accepted {
          engine := engine - {hwId};
          if hwId in mGeofences {
            mGeofences := mGeofences - {hwId};
          }
        }
      }
    }

    // The engine has restarted and forgotten its fences.
    method RestartGeofences(order: seq<HwId>, replies: seq<Reply>)
      requires Listing(order, mGeofences.Keys) && |replies| == |order|
      modifies this`mGeofences, this`mGeofenceIds, this`engine
      ensures State() == Restarted(old(State()), order, replies)
    {
      engine := map[];
      if mGeofences == map[] {
        return;
      }
      var oldGeofences := mGeofences;
      mGeofences := map[];
      mGeofenceIds := map[];
      for i := 0 to |order|
        invariant State() == ReaddAll(oldGeofences, order[..i], replies[..i])
      {
        assert order[..i + 1][..i] == order[..i] && replies[..i + 1][..i] == replies[..i];
        var fence := oldGeofences[order[i]];
        match replies[i]
        case Refused =>
        case Accepted(hwId) =>
          engine := engine[hwId := fence.paused];
          SaveGeofenceItem(fence.key, hwId, fence.shape);
      }
      assert order[..|order|] == order && replies[..|replies|] == replies;
    }

    // ---- breach reports ----

    // `clients` are the registered clients, walked in `order`, and whether each has a breach callback.
    method GeofenceBreach(hwIds: seq<HwId>, clients: map<Client, bool>, order: seq<Client>)
      requires forall c :: c in order ==> c in clients
      modifies this`told
      ensures told == old(told) + Notices(State(), hwIds, clients, order)
    {
      for n := 0 to |order|
        invariant told == old(told) + Notices(State(), hwIds, clients, order[..n])
      {
        assert order[..n + 1][..n] == order[..n];
        var clientIds, index := FillClientIds(hwIds, order[n]);
        if index > 0 && clients[order[n]] {
          told := told + [Notice(order[n], clientIds[..index])];
        }
      }
      assert order[..|order|] == order;
    }

    method FillClientIds(hwIds: seq<HwId>, client: Client) returns (clientIds: array<nat>, index: nat)
      ensures fresh(clientIds) && clientIds.Length == |hwIds|
      ensures index <= clientIds.Length && clientIds[..index] == Mine(State(), hwIds, client)
    {
      clientIds := new nat[|hwIds|];
      index := 0;
      for i := 0 to |hwIds|
        invariant index <= i && clientIds[..index] == Mine(State(), hwIds[..i], client)
      {
        assert hwIds[..i + 1][..i] == hwIds[..i];
        var err, key := GetGeofenceKeyFromHwId(hwIds[i]);
        if err == Success {
          if key.client == client {
            clientIds[index] := key.id;
            index := index + 1;
            assert clientIds[..index] == clientIds[..index - 1] + [key.id];
          }
        }
      }
      assert hwIds[..|hwIds|] == hwIds;
    }
  }

  function OwnedIn(ids: map<Key, HwId>, client: Client, walked: seq<Key>): set<HwId> {
    set k | k in walked && k in ids && k.client == client :: ids[k]
  }

  // The state once the entries in `walked` have been visited.
  function StoppedAfter(s: State, client: Client, accepted: set<HwId>, walked: seq<Key>): State {
    var gone := OwnedIn(s.ids, client, walked) * accepted;
    GeofenceModel.State(s.fences - gone, map k | k in s.ids && !(k in walked && k.client == client) :: s.ids[k],
                        s.engine - gone)
  }

  lemma StoppedNone(s: State, client: Client, accepted: set<HwId>)
    ensures StoppedAfter(s, client, accepted, []) == s
  {
    assert OwnedIn(s.ids, client, []) == {};
    assert StoppedAfter(s, client, accepted, []).ids == s.ids;
  }

  // What one visit does.
  function Erased(s: State, client: Client, accepted: set<HwId>, key: Key): State
    requires key in s.ids
  {
    var h := s.ids[key];
    if client != key.client then s
    else if h !in accepted then s.(ids := s.ids - {key})
    else GeofenceModel.State(s.fences - {h}, s.ids - {key}, s.engine - {h})
  }

  lemma StoppedNext(s: State, client: Client, accepted: set<HwId>, walked: seq<Key>, key: Key)
    requires key in s.ids && key !in walked
    ensures var before := StoppedAfter(s, client, accepted, walked);
            && key in before.ids && before.ids[key] == s.ids[key]
            && StoppedAfter(s, client, accepted, walked + [key]) == Erased(before, client, accepted, key)
  {
    var owned := OwnedIn(s.ids, client, walked);
    var before, after := StoppedAfter(s, client, accepted, walked), StoppedAfter(s, client, accepted, walked + [key]);
    if key.client == client {
      assert OwnedIn(s.ids, client, walked + [key]) == owned + {s.ids[key]};
      assert after.ids == before.ids - {key};
      if s.ids[key] in accepted {
        assert after.fences == before.fences - {s.ids[key]} && after.engine == before.engine - {s.ids[key]};
      } else {
        assert after.fences == before.fences && after.engine == before.engine;
      }
    } else {
      assert OwnedIn(s.ids, client, walked + [key]) == owned;
      assert after.ids == before.ids;
    }
  }

  lemma StoppedAll(s: State, client: Client, accepted: set<HwId>, order: seq<Key>)
    requires Entries(order, s.ids)
    ensures StoppedAfter(s, client, accepted, order) == Stopped(s, client, accepted)
  {
    assert OwnedIn(s.ids, client, order) == Owned(s.ids, client);
    assert StoppedAfter(s, client, accepted, order).ids == Stopped(s, client, accepted).ids;
  }
}
