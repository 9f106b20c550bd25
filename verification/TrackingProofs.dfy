// What the tracking multiplexer keeps over every run, and when it is exact.
module TrackingProofs {
  import opened Word32
  import opened TrackingModel

  ghost predicate Stored(sessions: map<Key, Options>) {
    forall k :: k in sessions ==> sessions[k].sized && MIN_TRACKING_INTERVAL <= sessions[k].minInterval
  }

  // `interval` is the smallest one asked for.
  ghost predicate IsMinimum(interval: u32, sessions: map<Key, Options>) {
    && (forall k :: k in sessions ==> interval <= sessions[k].minInterval)
    && exists k :: k in sessions && interval == sessions[k].minInterval
  }

  // The modem's session runs exactly when some client wants it, and fast enough for all of them; while
  // an NHz engine needs it, it runs at the highest rate, and the flag claims no more than that.
  ghost predicate Sound(t: Tracker) {
    && Stored(t.timeBased) && Stored(t.distanceBased)
    && t.timeBased.Keys !! t.distanceBased.Keys
    && (t.spe.Running? <==> t.timeBased != map[])
    && (t.atHighest ==> t.nHzNeeded && t.spe.Running? && t.spe.options.minInterval == MIN_TRACKING_INTERVAL)
    && (t.spe.Running? ==>
          && MIN_TRACKING_INTERVAL <= t.spe.options.minInterval
          && (forall k :: k in t.timeBased ==> t.spe.options.minInterval <= t.timeBased[k].minInterval)
          && (t.nHzNeeded ==> t.spe.options.minInterval == MIN_TRACKING_INTERVAL))
  }

  // No NHz engine, and the modem runs at exactly the smallest interval asked for.
  ghost predicate Exact(t: Tracker) {
    && Sound(t) && !t.nHzNeeded
    && (t.spe.Running? ==> IsMinimum(t.spe.options.minInterval, t.timeBased))
  }

  // The hand-written loop finds the minimum over everything it does not skip, in any order.
  lemma {:induction false} SmallestIsMinimum(
      order: seq<Key>, sessions: map<Key, Options>, skip: set<Key>, best: Options)
    requires forall k :: k in order ==> k in sessions
    requires Stored(sessions)
    ensures var s := Smallest(order, sessions, skip, best);
            && (best.sized ==> s.sized && s.minInterval <= best.minInterval)
            && (forall k :: k in order && k !in skip ==> s.sized && s.minInterval <= sessions[k].minInterval)
            && (s == best || exists k :: k in order && k !in skip && s == sessions[k])
  {
    if order != [] {
      var o := sessions[order[0]];
      var better := order[0] !in skip && (!best.sized || o.minInterval < best.minInterval);
      SmallestIsMinimum(order[1..], sessions, skip, if better then o else best);
      assert forall k :: k in order ==> k == order[0] || k in order[1..];
    }
  }

  lemma SmallestOfAll(order: seq<Key>, sessions: map<Key, Options>)
    requires IsOrder(order, sessions) && Stored(sessions) && sessions != map[]
    ensures IsMinimum(Smallest(order, sessions, {}, UNSET).minInterval, sessions)
  {
    SmallestIsMinimum(order, sessions, {}, UNSET);
    var k :| k in sessions;
    assert k in order;
  }

  lemma SmallestOfOthers(order: seq<Key>, sessions: map<Key, Options>, key: Key)
    requires IsOrder(order, sessions) && Stored(sessions) && key in sessions && |sessions| != 1
    ensures sessions - {key} != map[]
    ensures IsMinimum(Smallest(order, sessions, {key}, UNSET).minInterval, sessions - {key})
  {
    SmallestIsMinimum(order, sessions, {key}, UNSET);
    assert |sessions.Keys - {key}| == |sessions| - 1;
    var k :| k in sessions.Keys - {key};
    assert k in sessions - {key} && k in order;
    var s := Smallest(order, sessions, {key}, UNSET);
    var j :| j in order && j != key && s == sessions[j];
    assert j in sessions - {key} && (sessions - {key})[j] == s;
  }

  // Adding one session to a map whose minimum is known.
  lemma MinimumWith(interval: u32, sessions: map<Key, Options>, key: Key, o: Options)
    requires IsMinimum(interval, sessions - {key})
    ensures IsMinimum(Min(interval, o.minInterval), sessions[key := o])
  {
    var all := sessions[key := o];
    var k :| k in sessions - {key} && interval == (sessions - {key})[k].minInterval;
    assert k in all && all[k] == sessions[k] && key in all;
    assert forall j :: j in all ==> j == key || j in sessions - {key};
  }

  lemma OnlySession(sessions: map<Key, Options>, key: Key)
    requires key in sessions && |sessions| == 1
    ensures sessions.Keys == {key} && sessions - {key} == map[]
  {
    assert |sessions.Keys - {key}| == 0;
  }

  // ---- power modes: a smaller number is a higher power, zero is "not given" ----

  predicate AllGiven(order: seq<Key>, sessions: map<Key, Options>, skip: set<Key>)
    requires forall k :: k in order ==> k in sessions
  {
    forall k :: k in order && k !in skip ==> sessions[k].powerMode != POWER_INVALID
  }

  // When every session gives a mode, the loop that starts and stops use finds the smallest.
  lemma {:induction false} LowestPowerIsMinimum(order: seq<Key>, sessions: map<Key, Options>, skip: set<Key>, best: nat)
    requires forall k :: k in order ==> k in sessions
    requires AllGiven(order, sessions, skip)
    ensures var p := LowestPower(order, sessions, skip, best);
            && (best != POWER_INVALID ==> p != POWER_INVALID && p <= best)
            && (forall k :: k in order && k !in skip ==> p <= sessions[k].powerMode)
            && (p == best || exists k :: k in order && k !in skip && p == sessions[k].powerMode)
            && (p == POWER_INVALID ==> forall k :: k in order ==> k in skip)
    decreases |order|
  {
    if order != [] {
      var p := sessions[order[0]].powerMode;
      var better := order[0] !in skip && (best == POWER_INVALID || p < best);
      assert order[0] in order;
      LowestPowerIsMinimum(order[1..], sessions, skip, if better then p else best);
      assert forall k :: k in order <==> k == order[0] || k in order[1..];
    }
  }

  lemma {:induction false} HighestPowerFrom(order: seq<Key>, sessions: map<Key, Options>, best: Options)
    requires forall k :: k in order ==> k in sessions
    requires best.sized && Stored(sessions)
    ensures var h := HighestPower(order, sessions, best);
            && h.sized && h.powerMode <= best.powerMode
            && (best.powerMode == POWER_INVALID ==> h == best)
            && (best.powerMode != POWER_INVALID ==> h.powerMode != POWER_INVALID)
            && (forall k :: k in order && sessions[k].powerMode != POWER_INVALID && best.powerMode != POWER_INVALID ==>
                  h.powerMode <= sessions[k].powerMode)
            && (h == best || exists k :: k in order && h == sessions[k])
    decreases |order|
  {
    if order != [] {
      var o := sessions[order[0]];
      assert order[0] in order;
      var better := o.powerMode != POWER_INVALID && o.powerMode < best.powerMode;
      HighestPowerFrom(order[1..], sessions, if better then o else best);
      assert forall k :: k in order <==> k == order[0] || k in order[1..];
    }
  }

  // A restart asks for the highest power any session gives, unless the first session walked gives
  // none: then it asks for none.
  lemma RestartPower(order: seq<Key>, sessions: map<Key, Options>)
    requires order != [] && (forall k :: k in order ==> k in sessions) && Stored(sessions)
    ensures var p := HighestPower(order, sessions, UNSET).powerMode;
            if sessions[order[0]].powerMode == POWER_INVALID then p == POWER_INVALID
            else
              && (exists k :: k in order && p == sessions[k].powerMode != POWER_INVALID)
              && (forall k :: k in order && sessions[k].powerMode != POWER_INVALID ==> p <= sessions[k].powerMode)
  {
    assert order[0] in order;
    HighestPowerFrom(order[1..], sessions, sessions[order[0]]);
    assert forall k :: k in order <==> k == order[0] || k in order[1..];
  }

  // ---- every step keeps the modem sound ----

  // Whatever starts the modem's session for `sessions` with their smallest interval makes it exact,
  // or runs it at the NHz rate.
  lemma StartSpeIsSound(t: Tracker, o: Options, sessions: map<Key, Options>)
    requires Stored(sessions) && Stored(t.distanceBased) && sessions.Keys !! t.distanceBased.Keys
    requires t.atHighest ==> t.nHzNeeded && t.spe.Running? && t.spe.options.minInterval == MIN_TRACKING_INTERVAL
    requires IsMinimum(o.minInterval, sessions)
    ensures var end := StartSpe(t, o).(timeBased := sessions);
            && Sound(end) && (!t.nHzNeeded ==> Exact(end) && end.spe == Running(o))
  {
  }

  // Without a restart the session goes on serving any sessions it is fast enough for.
  lemma KeepIsSound(t: Tracker, sessions: map<Key, Options>)
    requires Sound(t) && t.spe.Running? && sessions != map[]
    requires Stored(sessions) && sessions.Keys !! t.distanceBased.Keys
    requires forall k :: k in sessions ==> t.spe.options.minInterval <= sessions[k].minInterval
    ensures Sound(t.(timeBased := sessions))
  {
  }

  lemma RestartIsSound(t: Tracker, order: seq<Key>)
    requires IsOrder(order, t.timeBased)
    requires Stored(t.timeBased) && Stored(t.distanceBased) && t.timeBased.Keys !! t.distanceBased.Keys
    requires t.timeBased == map[] ==> t.spe.Stopped?
    ensures Sound(Restart(t, order))
    ensures !t.nHzNeeded ==> Exact(Restart(t, order))
  {
    if t.timeBased != map[] {
      SmallestOfAll(order, t.timeBased);
      var smallest := Smallest(order, t.timeBased, {}, UNSET);
      var power := HighestPower(order, t.timeBased, UNSET);
      StartSpeIsSound(t.(atHighest := false),
                      Options(true, smallest.minInterval, smallest.minDistance, power.powerMode, power.tbm),
                      t.timeBased);
    }
  }

  lemma StartIsSound(t: Tracker, key: Key, o: Options, order: seq<Key>)
    requires Sound(t) && IsOrder(order, t.timeBased)
    requires o.sized && MIN_TRACKING_INTERVAL <= o.minInterval
    requires key !in t.timeBased && key !in t.distanceBased
    ensures var t' := StartMultiplex(t, o, order);
            && Sound(t'.(timeBased := t'.timeBased[key := o]))
            && (Exact(t) ==> Exact(t'.(timeBased := t'.timeBased[key := o])))
  {
    if t.timeBased == map[] {
      var all := t.timeBased[key := o];
      assert key in all && forall k :: k in all ==> k == key;
      assert IsMinimum(o.minInterval, all);
      StartSpeIsSound(t, o, all);
    } else {
      StartAmongOthersIsSound(t, key, o, order);
    }
  }

  lemma StartAmongOthersIsSound(t: Tracker, key: Key, o: Options, order: seq<Key>)
    requires Sound(t) && IsOrder(order, t.timeBased) && t.timeBased != map[]
    requires o.sized && MIN_TRACKING_INTERVAL <= o.minInterval
    requires key !in t.timeBased && key !in t.distanceBased
    ensures var t' := StartMultiplex(t, o, order);
            && Sound(t'.(timeBased := t'.timeBased[key := o]))
            && (Exact(t) ==> Exact(t'.(timeBased := t'.timeBased[key := o])))
  {
    SmallestOfAll(order, t.timeBased);
    assert t.timeBased - {key} == t.timeBased;
    var base := Smallest(order, t.timeBased, {}, UNSET);
    var power := LowestPower(order, t.timeBased, {}, POWER_INVALID);
    MinimumWith(base.minInterval, t.timeBased, key, o);
    if o.minInterval < base.minInterval || o.powerMode < power {
      StartSpeIsSound(t, Tightened(base, o, power), t.timeBased[key := o]);
    } else {
      KeptStartIsSound(t, key, o, base.minInterval);
    }
  }

  // A session that asks for no less than the others is served without a restart.
  lemma KeptStartIsSound(t: Tracker, key: Key, o: Options, others: u32)
    requires Sound(t) && t.timeBased != map[] && o.sized && key !in t.timeBased && key !in t.distanceBased
    requires MIN_TRACKING_INTERVAL <= others <= o.minInterval && IsMinimum(others, t.timeBased)
    ensures var end := t.(timeBased := t.timeBased[key := o]);
            Sound(end) && (Exact(t) ==> Exact(end))
  {
    KeepIsSound(t, t.timeBased[key := o]);
    assert t.timeBased - {key} == t.timeBased;
    if Exact(t) {
      MinimumWith(t.spe.options.minInterval, t.timeBased, key, o);
    }
  }

  lemma StopIsSound(t: Tracker, key: Key, order: seq<Key>)
    requires Sound(t) && IsOrder(order, t.timeBased) && key in t.timeBased
    ensures Sound(EraseSession(StopMultiplex(t, key, order), key))
    ensures Exact(t) ==> Exact(EraseSession(StopMultiplex(t, key, order), key))
  {
    if |t.timeBased| == 1 {
      OnlySession(t.timeBased, key);
    } else {
      SmallestOfOthers(order, t.timeBased, key);
      var base := Smallest(order, t.timeBased, {key}, UNSET);
      var power := LowestPower(order, t.timeBased, {key}, POWER_INVALID);
      if t.timeBased[key].minInterval < base.minInterval || t.timeBased[key].powerMode < power {
        StartSpeIsSound(t, base.(powerMode := power), t.timeBased - {key});
      } else if Exact(t) {
        SlowestLeavesMinimum(t.timeBased, key, t.spe.options.minInterval, base.minInterval);
      }
    }
  }

  lemma SlowestLeavesMinimum(sessions: map<Key, Options>, key: Key, all: u32, others: u32)
    requires key in sessions && IsMinimum(all, sessions) && IsMinimum(others, sessions - {key})
    requires others <= sessions[key].minInterval
    ensures all == others
  {
    MinimumWith(others, sessions, key, sessions[key]);
    assert sessions[key := sessions[key]] == sessions;
  }

  lemma UpdateMultiplexIsSound(t: Tracker, key: Key, o: Options, order: seq<Key>)
    requires Sound(t) && IsOrder(order, t.timeBased) && key in t.timeBased
    requires o.sized && MIN_TRACKING_INTERVAL <= o.minInterval
    ensures var t' := UpdateMultiplex(t, key, o, order);
            Sound(t'.(timeBased := t'.timeBased[key := o]))
  {
    var was := t.timeBased[key];
    var all := t.timeBased[key := o];
    assert all.Keys == t.timeBased.Keys;
    if was.minInterval == o.minInterval && was.powerMode == o.powerMode {
      KeepIsSound(t, all);
    } else if |t.timeBased| == 1 {
      UpdateAloneIsSound(t, key, o);
    } else {
      UpdateAmongOthersIsSound(t, key, o, order);
    }
  }

  lemma UpdateAmongOthersIsSound(t: Tracker, key: Key, o: Options, order: seq<Key>)
    requires Sound(t) && IsOrder(order, t.timeBased) && key in t.timeBased && |t.timeBased| != 1
    requires o.sized && MIN_TRACKING_INTERVAL <= o.minInterval
    ensures var base := Smallest(order, t.timeBased, {key}, UNSET);
            var power := LowestPower(order, t.timeBased, {key}, POWER_INVALID);
            && (o.minInterval < base.minInterval || o.powerMode < power ==>
                  Sound(StartSpe(t, Tightened(base, o, power)).(timeBased := t.timeBased[key := o])))
            && (base.minInterval <= o.minInterval ==> Sound(t.(timeBased := t.timeBased[key := o])))
  {
    SmallestOfOthers(order, t.timeBased, key);
    var base := Smallest(order, t.timeBased, {key}, UNSET);
    var power := LowestPower(order, t.timeBased, {key}, POWER_INVALID);
    MinimumWith(base.minInterval, t.timeBased, key, o);
    assert t.timeBased[key := o].Keys == t.timeBased.Keys;
    if o.minInterval < base.minInterval || o.powerMode < power {
      StartSpeIsSound(t, Tightened(base, o, power), t.timeBased[key := o]);
    }
    if base.minInterval <= o.minInterval {
      RelaxedKeeps(t, key, o, base.minInterval);
    }
  }

  lemma RelaxedKeeps(t: Tracker, key: Key, o: Options, others: u32)
    requires Sound(t) && key in t.timeBased && IsMinimum(others, t.timeBased - {key})
    requires o.sized && MIN_TRACKING_INTERVAL <= others <= o.minInterval
    ensures Sound(t.(timeBased := t.timeBased[key := o]))
  {
    var k :| k in t.timeBased - {key} && others == (t.timeBased - {key})[k].minInterval;
    assert t.timeBased[k].minInterval == others;
    KeepIsSound(t, t.timeBased[key := o]);
  }

  lemma UpdateAloneIsSound(t: Tracker, key: Key, o: Options)
    requires Sound(t) && key in t.timeBased && |t.timeBased| == 1
    requires o.sized && MIN_TRACKING_INTERVAL <= o.minInterval
    ensures Sound(StartSpe(t, o).(timeBased := t.timeBased[key := o]))
  {
    OnlySession(t.timeBased, key);
    var all := t.timeBased[key := o];
    assert all.Keys == {key} && key in all;
    assert IsMinimum(o.minInterval, all);
    StartSpeIsSound(t, o, all);
  }

  // Without distance tracking no session is filed as distance-based.
  ghost predicate Filed(t: Tracker, supported: bool) {
    !supported ==> t.distanceBased == map[]
  }

  // The update asks to turn a time-based session into a distance-based one.
  predicate Switches(t: Tracker, key: Key, options: Options) {
    key in t.timeBased && options.sized && options.minDistance > 0
  }

  // The stop of one session of several restarts the modem's.
  predicate StopRestarts(t: Tracker, key: Key, order: seq<Key>)
    requires key in t.timeBased && forall k :: k in order ==> k in t.timeBased
  {
    || t.timeBased[key].minInterval < Smallest(order, t.timeBased, {key}, UNSET).minInterval
    || t.timeBased[key].powerMode < LowestPower(order, t.timeBased, {key}, POWER_INVALID)
  }

  // The interval the modem runs at after the stop, without NHz.
  function IntervalLeft(t: Tracker, key: Key, order: seq<Key>): u32
    requires key in t.timeBased && forall k :: k in order ==> k in t.timeBased
  {
    if StopRestarts(t, key, order) then Smallest(order, t.timeBased, {key}, UNSET).minInterval
    else if t.spe.Running? then t.spe.options.minInterval
    else 0
  }

  // A switch on a modem without distance tracking leaves the session time-based, and the modem as the
  // stop left it: it must still run, and fast enough for the session's new interval.
  predicate SwitchFits(t: Tracker, key: Key, options: Options, order: seq<Key>)
    requires key in t.timeBased && forall k :: k in order ==> k in t.timeBased
  {
    && |t.timeBased| != 1
    && (t.nHzNeeded || IntervalLeft(t, key, order) <= Clamp(options).minInterval)
  }

  lemma StopLeavesInterval(t: Tracker, key: Key, order: seq<Key>)
    requires Sound(t) && IsOrder(order, t.timeBased) && key in t.timeBased && |t.timeBased| != 1
    ensures var end := StopMultiplex(t, key, order);
            && end.spe.Running? && Sound(EraseSession(end, key)) && EraseSession(end, key).timeBased != map[]
            && (t.nHzNeeded ==> end.spe.options.minInterval == MIN_TRACKING_INTERVAL)
            && (!t.nHzNeeded ==> end.spe.options.minInterval == IntervalLeft(t, key, order))
  {
    StopIsSound(t, key, order);
    SmallestOfOthers(order, t.timeBased, key);
  }

  // For every session map: the switch of a time-based session on a modem without distance tracking keeps
  // the modem sound exactly when it fits.
  lemma UnsupportedSwitchIsSound(t: Tracker, key: Key, options: Options, order: seq<Key>)
    requires Sound(t) && IsOrder(order, t.timeBased) && Filed(t, false) && Switches(t, key, options)
    ensures Sound(Update(t, key, options, false, order).0) <==> SwitchFits(t, key, options, order)
  {
    var o := Clamp(PowerFallback(options));
    var end := Update(t, key, options, false, order).0;
    var left := EraseSession(StopMultiplex(t, key, order), key);
    assert end == left.(timeBased := left.timeBased[key := o]);
    assert key in end.timeBased && end.timeBased[key] == o;
    if |t.timeBased| == 1 {
      assert end.spe.Stopped?;
    } else {
      StopLeavesInterval(t, key, order);
      AddedIsServed(left, key, o);
    }
  }

  // A session filed without asking the modem is served exactly when the modem is fast enough.
  lemma AddedIsServed(t: Tracker, key: Key, o: Options)
    requires Sound(t) && t.spe.Running? && key !in t.timeBased && key !in t.distanceBased
    requires o.sized && MIN_TRACKING_INTERVAL <= o.minInterval
    ensures Sound(t.(timeBased := t.timeBased[key := o])) <==> t.spe.options.minInterval <= o.minInterval
  {
    var end := t.(timeBased := t.timeBased[key := o]);
    assert key in end.timeBased && end.timeBased[key] == o;
    if t.spe.options.minInterval <= o.minInterval {
      KeepIsSound(t, end.timeBased);
    }
  }

  lemma UpdateIsSound(t: Tracker, key: Key, options: Options, supported: bool, order: seq<Key>)
    requires Sound(t) && IsOrder(order, t.timeBased) && Filed(t, supported)
    requires !supported && Switches(t, key, options) ==> SwitchFits(t, key, options, order)
    ensures Sound(Update(t, key, options, supported, order).0)
    ensures Filed(Update(t, key, options, supported, order).0, supported)
  {
    if (key in t.timeBased || key in t.distanceBased) && options.sized {
      var o := Clamp(PowerFallback(options));
      if key in t.timeBased && o.minDistance > 0 {
        SwitchIsSound(t, key, options, supported, order);
      } else if key in t.distanceBased && o.minDistance == 0 {
        StartIsSound(EraseSession(t, key), key, o, order);
      } else if key in t.timeBased {
        UpdateMultiplexIsSound(t, key, o, order);
      }
    }
  }

  lemma SwitchIsSound(t: Tracker, key: Key, options: Options, supported: bool, order: seq<Key>)
    requires Sound(t) && IsOrder(order, t.timeBased) && Filed(t, supported) && Switches(t, key, options)
    ensures Sound(Update(t, key, options, supported, order).0) <==> supported || SwitchFits(t, key, options, order)
  {
    if supported {
      SupportedSwitchIsSound(t, key, options, order);
    } else {
      UnsupportedSwitchIsSound(t, key, options, order);
    }
  }

  lemma SupportedSwitchIsSound(t: Tracker, key: Key, options: Options, order: seq<Key>)
    requires Sound(t) && IsOrder(order, t.timeBased) && Switches(t, key, options)
    ensures Sound(Update(t, key, options, true, order).0)
  {
    StopIsSound(t, key, order);
    FiledIsSound(EraseSession(StopMultiplex(t, key, order), key), key, Clamp(PowerFallback(options)));
  }

  lemma FiledIsSound(t: Tracker, key: Key, o: Options)
    requires Sound(t) && key !in t.timeBased && o.sized && MIN_TRACKING_INTERVAL <= o.minInterval
    ensures Sound(t.(distanceBased := t.distanceBased[key := o]))
  {
  }

  lemma StartCmdIsSound(t: Tracker, key: Key, options: Options, callbacks: bool, supported: bool, order: seq<Key>)
    requires Sound(t) && IsOrder(order, t.timeBased) && key !in t.timeBased && key !in t.distanceBased
    ensures var end := Start(t, key, options, callbacks, supported, order).0;
            && Sound(end) && (Exact(t) ==> Exact(end))
            && (Filed(t, supported) ==> Filed(end, supported))
  {
    if callbacks && options.sized && !(options.minDistance > 0 && supported) {
      StartIsSound(t, key, PowerFallback(Clamp(options)), order);
    }
  }

  lemma StopCmdIsSound(t: Tracker, key: Key, supported: bool, order: seq<Key>)
    requires Sound(t) && IsOrder(order, t.timeBased)
    ensures var end := Stop(t, key, order).0;
            && Sound(end) && (Exact(t) ==> Exact(end))
            && (Filed(t, supported) ==> Filed(end, supported))
  {
    if key in t.timeBased {
      StopIsSound(t, key, order);
    }
  }

  // What a run may hold: on a modem without distance tracking, only switches that fit.
  ghost predicate Fits(t: Tracker, e: Event, supported: bool)
    requires Legal(t, e)
  {
    !supported && e.UpdateCmd? && Switches(t, e.key, e.options) ==> SwitchFits(t, e.key, e.options, e.order)
  }

  lemma StepIsSound(t: Tracker, e: Event, supported: bool)
    requires Sound(t) && Filed(t, supported) && Legal(t, e) && Fits(t, e, supported)
    ensures Sound(Step(t, e, supported)) && Filed(Step(t, e, supported), supported)
  {
    match e
    case StartCmd(key, o, callbacks, order) => StartCmdIsSound(t, key, o, callbacks, supported, order);
    case UpdateCmd(key, o, order) => UpdateIsSound(t, key, o, supported, order);
    case StopCmd(key, order) => StopCmdIsSound(t, key, supported, order);
    case NHz(needed, order) => RestartIsSound(t.(nHzNeeded := needed), order);
    case Reconfigure(order) => RestartIsSound(Suspend(t), order);
    case ModemRestart(order) => RestartIsSound(t.(spe := Stopped), order);
  }

  // One step keeps the modem sound exactly when it fits: the switch is the only one that may not.
  lemma StepIsSoundExactly(t: Tracker, e: Event, supported: bool)
    requires Sound(t) && Filed(t, supported) && Legal(t, e)
    ensures Sound(Step(t, e, supported)) <==> Fits(t, e, supported)
  {
    if Fits(t, e, supported) {
      StepIsSound(t, e, supported);
    } else {
      UnsupportedSwitchIsSound(t, e.key, e.options, e.order);
    }
  }

  // ---- whole runs ----

  ghost predicate LegalRun(t: Tracker, es: seq<Event>, supported: bool)
    decreases |es|
  {
    es != [] ==> Legal(t, es[0]) && Fits(t, es[0], supported) && LegalRun(Step(t, es[0], supported), es[1..], supported)
  }

  ghost function Run(t: Tracker, es: seq<Event>, supported: bool): Tracker
    requires LegalRun(t, es, supported)
    decreases |es|
  {
    if es == [] then t else Run(Step(t, es[0], supported), es[1..], supported)
  }

  // With distance tracking, or without it and only switches that fit, the modem stays sound.
  lemma {:induction false} RunIsSound(t: Tracker, es: seq<Event>, supported: bool)
    requires Sound(t) && Filed(t, supported) && LegalRun(t, es, supported)
    ensures Sound(Run(t, es, supported))
    decreases |es|
  {
    if es != [] {
      StepIsSound(t, es[0], supported);
      RunIsSound(Step(t, es[0], supported), es[1..], supported);
    }
  }

  // Starts, stops and restarts, and updates that move a session between the two kinds.
  ghost predicate Plain(t: Tracker, e: Event) {
    match e
    case UpdateCmd(key, o, _) => key in t.timeBased ==> o.minDistance > 0
    case NHz(needed, _) => !needed
    case _ => true
  }

  // The same condition decides whether such a switch leaves the interval exact.
  lemma SwitchIsExact(t: Tracker, key: Key, options: Options, order: seq<Key>)
    requires Exact(t) && IsOrder(order, t.timeBased) && Filed(t, false) && Switches(t, key, options)
    ensures Exact(Update(t, key, options, false, order).0) <==> SwitchFits(t, key, options, order)
  {
    UnsupportedSwitchIsSound(t, key, options, order);
    if SwitchFits(t, key, options, order) {
      StopIsSound(t, key, order);
      var o := Clamp(PowerFallback(options));
      var left := EraseSession(StopMultiplex(t, key, order), key);
      StopLeavesInterval(t, key, order);
      assert left.timeBased - {key} == left.timeBased;
      MinimumWith(left.spe.options.minInterval, left.timeBased, key, o);
      assert Update(t, key, options, false, order).0 == left.(timeBased := left.timeBased[key := o]);
    }
  }

  lemma PlainUpdateIsExact(t: Tracker, key: Key, options: Options, supported: bool, order: seq<Key>)
    requires Exact(t) && Filed(t, supported) && IsOrder(order, t.timeBased)
    requires key in t.timeBased ==> options.minDistance > 0
    requires !supported && Switches(t, key, options) ==> SwitchFits(t, key, options, order)
    ensures Exact(Update(t, key, options, supported, order).0)
  {
    if (key in t.timeBased || key in t.distanceBased) && options.sized {
      if key in t.timeBased && !supported {
        SwitchIsExact(t, key, options, order);
      } else if key in t.timeBased {
        StopIsSound(t, key, order);
      } else if options.minDistance == 0 {
        StartIsSound(EraseSession(t, key), key, Clamp(PowerFallback(options)), order);
      }
    }
  }

  lemma StepIsExact(t: Tracker, e: Event, supported: bool)
    requires Exact(t) && Filed(t, supported) && Legal(t, e) && Fits(t, e, supported) && Plain(t, e)
    ensures Exact(Step(t, e, supported))
  {
    match e
    case StartCmd(key, o, callbacks, order) => StartCmdIsSound(t, key, o, callbacks, supported, order);
    case UpdateCmd(key, options, order) => PlainUpdateIsExact(t, key, options, supported, order);
    case StopCmd(key, order) => StopCmdIsSound(t, key, supported, order);
    case NHz(needed, order) =>
    case Reconfigure(order) => RestartIsSound(Suspend(t), order);
    case ModemRestart(order) => RestartIsSound(t.(spe := Stopped), order);
  }

  ghost predicate PlainRun(t: Tracker, es: seq<Event>, supported: bool)
    requires LegalRun(t, es, supported)
    decreases |es|
  {
    es != [] ==> Plain(t, es[0]) && PlainRun(Step(t, es[0], supported), es[1..], supported)
  }

  // In such runs the modem's interval is exactly the minimum over the live sessions.
  lemma {:induction false} PlainRunIsExact(t: Tracker, es: seq<Event>, supported: bool)
    requires Exact(t) && Filed(t, supported) && LegalRun(t, es, supported) && PlainRun(t, es, supported)
    ensures Exact(Run(t, es, supported))
    decreases |es|
  {
    if es != [] {
      StepIsSound(t, es[0], supported);
      StepIsExact(t, es[0], supported);
      PlainRunIsExact(Step(t, es[0], supported), es[1..], supported);
    }
  }

  // ---- where exactness and soundness end ----

  // An update in place leaves the interval exact, except when it relaxes the only fastest session to
  // no less than the others while asking for no lower power mode than they have.
  lemma UpdateIsExactUnlessRelaxed(t: Tracker, key: Key, options: Options, supported: bool, order: seq<Key>)
    requires Exact(t) && IsOrder(order, t.timeBased) && Filed(t, supported)
    requires key in t.timeBased && options.sized && options.minDistance == 0
    ensures var o := Clamp(PowerFallback(options));
            var others := Smallest(order, t.timeBased, {key}, UNSET).minInterval;
            var power := LowestPower(order, t.timeBased, {key}, POWER_INVALID);
            Exact(Update(t, key, options, supported, order).0) <==>
            !(&& |t.timeBased| != 1
              && t.timeBased[key].minInterval < others <= o.minInterval
              && power <= o.powerMode)
  {
    var o := Clamp(PowerFallback(options));
    UpdateInPlace(t, key, options, supported, order);
    if |t.timeBased| == 1 {
      UpdateOfOnlySession(t, key, o, order);
    } else {
      UpdateAmongOthers(t, key, o, order);
    }
  }

  lemma UpdateInPlace(t: Tracker, key: Key, options: Options, supported: bool, order: seq<Key>)
    requires Sound(t) && IsOrder(order, t.timeBased)
    requires key in t.timeBased && options.sized && options.minDistance == 0
    ensures var o := Clamp(PowerFallback(options));
            var t' := UpdateMultiplex(t, key, o, order);
            Update(t, key, options, supported, order).0 == t'.(timeBased := t'.timeBased[key := o])
  {
  }

  lemma UpdateOfOnlySession(t: Tracker, key: Key, o: Options, order: seq<Key>)
    requires Exact(t) && IsOrder(order, t.timeBased) && key in t.timeBased && |t.timeBased| == 1
    requires o.sized && MIN_TRACKING_INTERVAL <= o.minInterval
    ensures var t' := UpdateMultiplex(t, key, o, order);
            Exact(t'.(timeBased := t'.timeBased[key := o]))
  {
    UpdateMultiplexIsSound(t, key, o, order);
    OnlySession(t.timeBased, key);
    var all := t.timeBased[key := o];
    assert key in all && all[key] == o;
  }

  lemma UpdateAmongOthers(t: Tracker, key: Key, o: Options, order: seq<Key>)
    requires Exact(t) && IsOrder(order, t.timeBased) && key in t.timeBased && |t.timeBased| != 1
    requires o.sized && MIN_TRACKING_INTERVAL <= o.minInterval
    ensures var others := Smallest(order, t.timeBased, {key}, UNSET).minInterval;
            var power := LowestPower(order, t.timeBased, {key}, POWER_INVALID);
            var t' := UpdateMultiplex(t, key, o, order);
            Exact(t'.(timeBased := t'.timeBased[key := o])) <==>
            !(t.timeBased[key].minInterval < others <= o.minInterval && power <= o.powerMode)
  {
    SmallestOfOthers(order, t.timeBased, key);
    UpdateMultiplexIsSound(t, key, o, order);
    var base := Smallest(order, t.timeBased, {key}, UNSET);
    var power := LowestPower(order, t.timeBased, {key}, POWER_INVALID);
    var was := t.timeBased[key];
    MinimumWith(base.minInterval, t.timeBased, key, was);
    assert t.timeBased[key := was] == t.timeBased;
    assert t.spe.options.minInterval == Min(base.minInterval, was.minInterval);
    MinimumWith(base.minInterval, t.timeBased, key, o);
    if o.minInterval < base.minInterval || o.powerMode < power {
      StartSpeIsSound(t, Tightened(base, o, power), t.timeBased[key := o]);
    }
  }

  // Switches that do not fit: the only session, and one that asks for a shorter interval than the modem
  // runs at.
  lemma SwitchOfOnlySession(t: Tracker, key: Key, options: Options, order: seq<Key>)
    requires Sound(t) && IsOrder(order, t.timeBased) && Filed(t, false) && Switches(t, key, options)
    requires t.timeBased.Keys == {key}
    ensures !Sound(Update(t, key, options, false, order).0)
  {
    assert |t.timeBased| == |t.timeBased.Keys| == 1;
    UnsupportedSwitchIsSound(t, key, options, order);
  }

  lemma SwitchToShorterInterval(t: Tracker, slow: Key, fast: Key, options: Options, order: seq<Key>)
    requires slow != fast && IsOrder(order, t.timeBased)
    requires t == Tracker(map[slow := Options(true, 2000, 0, 1, 0), fast := Options(true, 1000, 0, 1, 0)], map[],
                          false, false, Running(Options(true, 1000, 0, 1, 0)))
    requires options == Options(true, 200, 5, 1, 0)
    ensures Exact(t) && !Sound(Update(t, slow, options, false, order).0)
  {
    var one := Options(true, 1000, 0, 1, 0);
    assert slow in t.timeBased && fast in t.timeBased && t.timeBased[fast] == one;
    assert t.timeBased.Keys == {slow, fast} && |t.timeBased| == |t.timeBased.Keys| == 2;
    OthersOfTwo(t, slow, fast, order);
    UnsupportedSwitchIsSound(t, slow, options, order);
  }

  lemma OthersOfTwo(t: Tracker, slow: Key, fast: Key, order: seq<Key>)
    requires slow != fast && IsOrder(order, t.timeBased) && t.timeBased.Keys == {slow, fast} && |t.timeBased| == 2
    requires Stored(t.timeBased) && t.timeBased[slow].powerMode == t.timeBased[fast].powerMode == 1
    ensures Smallest(order, t.timeBased, {slow}, UNSET).minInterval == t.timeBased[fast].minInterval
    ensures LowestPower(order, t.timeBased, {slow}, POWER_INVALID) == 1
  {
    assert slow in t.timeBased && fast in t.timeBased;
    SmallestIsMinimum(order, t.timeBased, {slow}, UNSET);
    LowestPowerIsMinimum(order, t.timeBased, {slow}, POWER_INVALID);
    assert fast in order && forall k :: k in order && k !in {slow} ==> k == fast;
  }
}
