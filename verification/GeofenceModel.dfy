// Geofences: one map from the engine's hardware ids to fences, one from the clients' keys to hardware
// ids.  The engine forgets every fence when it restarts, and each is added again under a new id.
module GeofenceModel {

  type HwId = nat
  type Client = nat

  datatype Key = Key(client: Client, id: nat)

  // The part of a fence that describes it.
  datatype Shape = Shape(breachMask: nat, responsiveness: nat, dwellTime: nat,
                         latitude: real, longitude: real, radius: real)

  datatype Fence = Fence(key: Key, shape: Shape, paused: bool)

  // `engine` holds the fences the engine monitors, and whether each is paused there.
  datatype State = State(fences: map<HwId, Fence>, ids: map<Key, HwId>, engine: map<HwId, bool>)

  const INITIAL := State(map[], map[], map[])

  function Saved(s: State, key: Key, hwId: HwId, shape: Shape): State {
    s.(fences := s.fences[hwId := Fence(key, shape, false)], ids := s.ids[key := hwId])
  }

  function Added(s: State, key: Key, hwId: HwId, shape: Shape): State {
    Saved(s, key, hwId, shape).(engine := s.engine[hwId := false])
  }

  function Removed(s: State, key: Key): State {
    if key in s.ids then State(s.fences - {s.ids[key]}, s.ids - {key}, s.engine - {s.ids[key]}) else s
  }

  function Paused(s: State, key: Key, paused: bool): State {
    if key in s.ids && s.ids[key] in s.fences then
      var h := s.ids[key];
      s.(fences := s.fences[h := s.fences[h].(paused := paused)], engine := s.engine[h := paused])
    else s
  }

  // Modifying leaves the position and the radius.
  function Reshaped(f: Fence, breachMask: nat, responsiveness: nat, dwellTime: nat): Fence {
    f.(shape := f.shape.(breachMask := breachMask, responsiveness := responsiveness, dwellTime := dwellTime))
  }

  function Modified(s: State, key: Key, breachMask: nat, responsiveness: nat, dwellTime: nat): State {
    if key in s.ids && s.ids[key] in s.fences then
      var h := s.ids[key];
      s.(fences := s.fences[h := Reshaped(s.fences[h], breachMask, responsiveness, dwellTime)])
    else s
  }

  // The fences of a client that goes away; the engine removes those in `accepted`.
  function Owned(ids: map<Key, HwId>, client: Client): set<HwId> {
    set k | k in ids && k.client == client :: ids[k]
  }

  function Stopped(s: State, client: Client, accepted: set<HwId>): State {
    var gone := Owned(s.ids, client) * accepted;
    State(s.fences - gone, map k | k in s.ids && k.client != client :: s.ids[k], s.engine - gone)
  }

  // ---- engine restart ----

  datatype Reply = Refused | Accepted(hwId: HwId)

  function Readded(s: State, f: Fence, reply: Reply): State {
    match reply
    case Refused => s
    case Accepted(h) => Saved(s, f.key, h, f.shape).(engine := s.engine[h := f.paused])
  }

  // `order` lists the old hardware ids as the restart walks them.
  function ReaddAll(was: map<HwId, Fence>, order: seq<HwId>, replies: seq<Reply>): State
    requires |replies| == |order| && forall h :: h in order ==> h in was
    decreases |order|
  {
    if order == [] then INITIAL
    else
      var n := |order| - 1;
      Readded(ReaddAll(was, order[..n], replies[..n]), was[order[n]], replies[n])
  }

  predicate Listing(order: seq<HwId>, all: set<HwId>) {
    && (forall h :: h in order ==> h in all)
    && (forall h :: h in all ==> h in order)
    && (forall i, j :: 0 <= i < j < |order| ==> order[i] != order[j])
  }

  // The engine never hands out an id that is in use.
  predicate Distinct(replies: seq<Reply>) {
    forall i, j :: 0 <= i < j < |replies| && replies[i].Accepted? ==> replies[i] != replies[j]
  }

  function Restarted(s: State, order: seq<HwId>, replies: seq<Reply>): State
    requires Listing(order, s.fences.Keys) && |replies| == |order|
  {
    if s.fences == map[] then s.(engine := map[]) else ReaddAll(s.fences, order, replies)
  }

  // ---- runs ----

  datatype Event =
    | Add(key: Key, hwId: HwId, shape: Shape)
    | Remove(key: Key)
    | Pause(key: Key)
    | Resume(key: Key)
    | Modify(key: Key, breachMask: nat, responsiveness: nat, dwellTime: nat)
    | StopClient(client: Client, accepted: set<HwId>)
    | Restart(order: seq<HwId>, replies: seq<Reply>)

  // Ids that are handed out are new ones.
  predicate Legal(s: State, e: Event) {
    match e
    case Add(key, hwId, _) => hwId !in s.fences && forall h :: h in s.fences ==> s.fences[h].key != key
    case Restart(order, replies) => Listing(order, s.fences.Keys) && |replies| == |order| && Distinct(replies)
    case _ => true
  }

  function Step(s: State, e: Event): State
    requires Legal(s, e)
  {
    match e
    case Add(key, hwId, shape) => Added(s, key, hwId, shape)
    case Remove(key) => Removed(s, key)
    case Pause(key) => Paused(s, key, true)
    case Resume(key) => Paused(s, key, false)
    case Modify(key, breachMask, responsiveness, dwellTime) => Modified(s, key, breachMask, responsiveness, dwellTime)
    case StopClient(client, accepted) => Stopped(s, client, accepted)
    case Restart(order, replies) => Restarted(s, order, replies)
  }

  // ---- breach reports ----

  predicate OwnedBy(s: State, hwId: HwId, client: Client) {
    hwId in s.fences && s.fences[hwId].key.client == client
  }

  // A client's own ids among the reported ones, in the order reported.
  function Mine(s: State, hwIds: seq<HwId>, client: Client): seq<nat>
    decreases |hwIds|
  {
    if hwIds == [] then []
    else
      var n := |hwIds| - 1;
      Mine(s, hwIds[..n], client) + if OwnedBy(s, hwIds[n], client) then [s.fences[hwIds[n]].key.id] else []
  }

  datatype Notice = Notice(client: Client, ids: seq<nat>)

  // `clients` says of each registered client whether it has a breach callback.
  function Notices(s: State, hwIds: seq<HwId>, clients: map<Client, bool>, order: seq<Client>): seq<Notice>
    requires forall c :: c in order ==> c in clients
    decreases |order|
  {
    if order == [] then []
    else
      var n := |order| - 1;
      var rest := Notices(s, hwIds, clients, order[..n]);
      var ids := Mine(s, hwIds, order[n]);
      if ids != [] && clients[order[n]] then rest + [Notice(order[n], ids)] else rest
  }
}
