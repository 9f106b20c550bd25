// Time-based tracking: many client sessions multiplexed onto the one session the modem offers.
// The handlers of GnssAdapter as functions of the fields they update, the modem accepting requests.
module TrackingModel {
  import opened Word32

  datatype Key = Key(client: nat, id: u32)

  // TrackingOptions; `sized` is false while the C++ struct has size zero.
  datatype Options = Options(sized: bool, minInterval: u32, minDistance: u32, powerMode: nat, tbm: u32)

  const UNSET := Options(false, 0, 0, 0, 0)

  const MIN_TRACKING_INTERVAL := 100
  const TBM_THRESHOLD := 480000
  const POWER_INVALID := 0
  const POWER_M2 := 2
  const POWER_M4 := 4

  // The modem's single tracking session.
  datatype Spe = Stopped | Running(options: Options)

  datatype Tracker = Tracker(
    timeBased: map<Key, Options>,
    distanceBased: map<Key, Options>,
    nHzNeeded: bool,
    atHighest: bool,      // mSPEAlreadyRunningAtHighestInterval
    spe: Spe)

  const INITIAL := Tracker(map[], map[], false, false, Stopped)

  // The order in which the session map is walked.
  ghost predicate IsOrder(order: seq<Key>, sessions: map<Key, Options>) {
    && (forall k :: k in order <==> k in sessions)
    && forall i, j :: 0 <= i < j < |order| ==> order[i] != order[j]
  }

  // ---- choosing the multiplexed options ----

  // Smallest interval over `order`, leaving out `skip`; the first of equals wins.
  function Smallest(order: seq<Key>, sessions: map<Key, Options>, skip: set<Key>, best: Options): Options
    requires forall k :: k in order ==> k in sessions
  {
    if order == [] then best
    else
      var o := sessions[order[0]];
      var better := order[0] !in skip && (!best.sized || o.minInterval < best.minInterval);
      Smallest(order[1..], sessions, skip, if better then o else best)
  }

  // Smallest power mode over `order`, leaving out `skip`; an invalid mode counts as not set.
  function LowestPower(order: seq<Key>, sessions: map<Key, Options>, skip: set<Key>, best: nat): nat
    requires forall k :: k in order ==> k in sessions
  {
    if order == [] then best
    else
      var p := sessions[order[0]].powerMode;
      var better := order[0] !in skip && (best == POWER_INVALID || p < best);
      LowestPower(order[1..], sessions, skip, if better then p else best)
  }

  // The options whose power mode a restart uses.
  function HighestPower(order: seq<Key>, sessions: map<Key, Options>, best: Options): Options
    requires forall k :: k in order ==> k in sessions
  {
    if order == [] then best
    else
      var o := sessions[order[0]];
      var better := !best.sized || (o.powerMode != POWER_INVALID && o.powerMode < best.powerMode);
      HighestPower(order[1..], sessions, if better then o else best)
  }

  // ---- starting the modem's session, with the NHz override ----

  function StartSpe(t: Tracker, o: Options): Tracker {
    if !t.nHzNeeded then t.(spe := Running(o))
    else if t.atHighest then t
    else if o.minInterval > MIN_TRACKING_INTERVAL then
      t.(spe := Running(o.(minInterval := MIN_TRACKING_INTERVAL)), atHighest := true)
    else t.(spe := Running(o))
  }

  function Clamp(o: Options): Options {
    if o.minInterval < MIN_TRACKING_INTERVAL then o.(minInterval := MIN_TRACKING_INTERVAL) else o
  }

  function PowerFallback(o: Options): Options {
    if o.powerMode == POWER_M4 && o.tbm > TBM_THRESHOLD then o.(powerMode := POWER_M2) else o
  }

  function SaveSession(t: Tracker, key: Key, o: Options, supported: bool): Tracker {
    if o.minDistance > 0 && supported then t.(distanceBased := t.distanceBased[key := o])
    else t.(timeBased := t.timeBased[key := o])
  }

  function EraseSession(t: Tracker, key: Key): Tracker {
    if key in t.timeBased then t.(timeBased := t.timeBased - {key})
    else t.(distanceBased := t.distanceBased - {key})
  }

  // `base` tightened by `o` where it asks for less than the others.
  function Tightened(base: Options, o: Options, power: nat): Options {
    var b := if o.minInterval < base.minInterval then base.(minInterval := o.minInterval) else base;
    if o.powerMode < power then b.(powerMode := o.powerMode) else b
  }

  function StartMultiplex(t: Tracker, o: Options, order: seq<Key>): Tracker
    requires forall k :: k in order ==> k in t.timeBased
  {
    if t.timeBased == map[] then StartSpe(t, o)
    else
      var base := Smallest(order, t.timeBased, {}, UNSET);
      var power := LowestPower(order, t.timeBased, {}, POWER_INVALID);
      if o.minInterval < base.minInterval || o.powerMode < power then StartSpe(t, Tightened(base, o, power)) else t
  }

  function StopMultiplex(t: Tracker, key: Key, order: seq<Key>): Tracker
    requires forall k :: k in order ==> k in t.timeBased
  {
    if |t.timeBased| == 1 then t.(spe := Stopped, atHighest := false)
    else if key !in t.timeBased then t
    else
      var base := Smallest(order, t.timeBased, {key}, UNSET);
      var power := LowestPower(order, t.timeBased, {key}, POWER_INVALID);
      if t.timeBased[key].minInterval < base.minInterval || t.timeBased[key].powerMode < power
      then StartSpe(t, base.(powerMode := power)) else t
  }

  function UpdateMultiplex(t: Tracker, key: Key, o: Options, order: seq<Key>): Tracker
    requires key in t.timeBased && forall k :: k in order ==> k in t.timeBased
  {
    var was := t.timeBased[key];
    if was.minInterval == o.minInterval && was.powerMode == o.powerMode then t
    else if |t.timeBased| == 1 then StartSpe(t, o)
    else
      var base := Smallest(order, t.timeBased, {key}, UNSET);
      var power := LowestPower(order, t.timeBased, {key}, POWER_INVALID);
      if o.minInterval < base.minInterval || o.powerMode < power then StartSpe(t, Tightened(base, o, power)) else t
  }

  // ---- the commands ----

  datatype Verdict = Accepted | CallbackMissing | InvalidParameter | IdUnknown

  function Start(t: Tracker, key: Key, options: Options, callbacks: bool, supported: bool, order: seq<Key>)
    : (Tracker, Verdict)
    requires forall k :: k in order ==> k in t.timeBased
  {
    if !callbacks then (t, CallbackMissing)
    else if !options.sized then (t, InvalidParameter)
    else
      var o := Clamp(options);
      if o.minDistance > 0 && supported then (SaveSession(t, key, o, supported), Accepted)
      else
        var p := PowerFallback(o);
        (SaveSession(StartMultiplex(t, p, order), key, p, supported), Accepted)
  }

  function Update(t: Tracker, key: Key, options: Options, supported: bool, order: seq<Key>): (Tracker, Verdict)
    requires forall k :: k in order ==> k in t.timeBased
  {
    if key !in t.timeBased && key !in t.distanceBased then (t, IdUnknown)
    else if !options.sized then (t, InvalidParameter)
    else
      var o := Clamp(PowerFallback(options));
      if key in t.timeBased && o.minDistance > 0 then
        (SaveSession(EraseSession(StopMultiplex(t, key, order), key), key, o, supported), Accepted)
      else if key in t.distanceBased && o.minDistance == 0 then
        var e := EraseSession(t, key);
        var rest := if key in t.timeBased then Without(order, key) else order;
        (SaveSession(StartMultiplex(e, o, rest), key, o, supported), Accepted)
      else if key in t.timeBased then
        (SaveSession(UpdateMultiplex(t, key, o, order), key, o, supported), Accepted)
      else
        (SaveSession(t, key, o, supported), Accepted)
  }

  function Without(order: seq<Key>, key: Key): (rest: seq<Key>)
    ensures forall k :: k in rest <==> k in order && k != key
  {
    if order == [] then []
    else if order[0] == key then Without(order[1..], key) else [order[0]] + Without(order[1..], key)
  }

  function Stop(t: Tracker, key: Key, order: seq<Key>): (Tracker, Verdict)
    requires forall k :: k in order ==> k in t.timeBased
  {
    if key in t.timeBased then (EraseSession(StopMultiplex(t, key, order), key), Accepted)
    else if key in t.distanceBased then (EraseSession(t, key), Accepted)
    else (t, IdUnknown)
  }

  // checkAndRestartSPESession
  function Restart(t: Tracker, order: seq<Key>): Tracker
    requires forall k :: k in order ==> k in t.timeBased
  {
    var cleared := t.(atHighest := false);
    if t.timeBased == map[] then cleared
    else
      var smallest := Smallest(order, t.timeBased, {}, UNSET);
      var power := HighestPower(order, t.timeBased, UNSET);
      StartSpe(cleared, Options(true, smallest.minInterval, smallest.minDistance, power.powerMode, power.tbm))
  }

  function SetNHz(t: Tracker, needed: bool, order: seq<Key>): Tracker
    requires forall k :: k in order ==> k in t.timeBased
  {
    if t.nHzNeeded == needed then t else Restart(t.(nHzNeeded := needed), order)
  }

  function Suspend(t: Tracker): Tracker {
    if t.timeBased == map[] then t else t.(spe := Stopped, atHighest := false)
  }

  function SuspendResume(t: Tracker, order: seq<Key>): Tracker
    requires forall k :: k in order ==> k in t.timeBased
  {
    Restart(Suspend(t), order)
  }

  // The modem has crashed and come up again.
  function EngineUp(t: Tracker, order: seq<Key>): Tracker
    requires forall k :: k in order ==> k in t.timeBased
  {
    Restart(t.(spe := Stopped), order)
  }

  datatype Event =
    | StartCmd(key: Key, options: Options, callbacks: bool, order: seq<Key>)
    | UpdateCmd(key: Key, options: Options, order: seq<Key>)
    | StopCmd(key: Key, order: seq<Key>)
    | NHz(needed: bool, order: seq<Key>)
    | Reconfigure(order: seq<Key>)
    | ModemRestart(order: seq<Key>)

  // Walks visit every session; session ids are cleared.
  ghost predicate Legal(t: Tracker, e: Event) {
    IsOrder(e.order, t.timeBased) && (e.StartCmd? ==> e.key !in t.timeBased && e.key !in t.distanceBased)
  }

  ghost function Step(t: Tracker, e: Event, supported: bool): Tracker
    requires Legal(t, e)
  {
    match e
    case StartCmd(key, o, callbacks, order) => Start(t, key, o, callbacks, supported, order).0
    case UpdateCmd(key, o, order) => Update(t, key, o, supported, order).0
    case StopCmd(key, order) => Stop(t, key, order).0
    case NHz(needed, order) => SetNHz(t, needed, order)
    case Reconfigure(order) => SuspendResume(t, order)
    case ModemRestart(order) => EngineUp(t, order)
  }
}
