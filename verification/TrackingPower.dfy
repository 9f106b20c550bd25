// The power mode of the modem's one session: a smaller number is a higher power.  When it is the highest
// that any session gives, and how a start can miss it.
module TrackingPower {
  import opened Word32
  import opened TrackingModel
  import opened TrackingProofs
  import opened TrackingWishes

  ghost predicate Given(sessions: map<Key, Options>) {
    forall k :: k in sessions ==> sessions[k].powerMode != POWER_INVALID
  }

  ghost predicate IsHighest(power: nat, sessions: map<Key, Options>) {
    && (forall k :: k in sessions ==> power <= sessions[k].powerMode)
    && exists k :: k in sessions && power == sessions[k].powerMode
  }

  // The modem runs at the interval and at the power that the sessions ask for, every one of them giving
  // a mode.
  ghost predicate Tuned(t: Tracker) {
    && Exact(t) && Given(t.timeBased)
    && (t.spe.Running? ==> IsHighest(t.spe.options.powerMode, t.timeBased))
  }

  // The power asked for by the first of the fastest sessions.
  function FastestPower(t: Tracker, skip: set<Key>, order: seq<Key>): nat
    requires forall k :: k in order ==> k in t.timeBased
  {
    Smallest(order, t.timeBased, skip, UNSET).powerMode
  }

  lemma LowestOfOthers(order: seq<Key>, sessions: map<Key, Options>, skip: set<Key>)
    requires IsOrder(order, sessions) && Given(sessions) && sessions - skip != map[]
    ensures IsHighest(LowestPower(order, sessions, skip, POWER_INVALID), sessions - skip)
  {
    LowestPowerIsMinimum(order, sessions, skip, POWER_INVALID);
    var k :| k in sessions - skip;
    assert k in order;
    var p := LowestPower(order, sessions, skip, POWER_INVALID);
    var j :| j in order && j !in skip && p == sessions[j].powerMode;
    assert j in sessions - skip && (sessions - skip)[j].powerMode == p;
  }

  lemma HighestIsUnique(a: nat, b: nat, sessions: map<Key, Options>)
    requires IsHighest(a, sessions) && IsHighest(b, sessions)
    ensures a == b
  {
  }

  // Adding one session to others whose highest power is known.
  lemma HighestWith(power: nat, sessions: map<Key, Options>, key: Key, o: Options, modem: nat)
    requires IsHighest(power, sessions - {key})
    ensures IsHighest(modem, sessions[key := o]) <==> modem == if o.powerMode < power then o.powerMode else power
  {
    var all := sessions[key := o];
    var k :| k in sessions - {key} && power == (sessions - {key})[k].powerMode;
    assert k in all && all[k] == sessions[k] && key in all;
    assert forall j :: j in all ==> j == key || j in sessions - {key};
    var least := if o.powerMode < power then o.powerMode else power;
    assert IsHighest(least, all) by {
      assert forall j :: j in sessions - {key} ==> (sessions - {key})[j] == all[j];
    }
    if IsHighest(modem, all) {
      HighestIsUnique(modem, least, all);
    }
  }

  // ---- starts ----

  // A start misses the power when it asks for a shorter interval than the modem runs at but for no higher
  // power, and the fastest session so far does not ask for the power the modem runs at.
  predicate StartMisses(t: Tracker, o: Options, order: seq<Key>)
    requires forall k :: k in order ==> k in t.timeBased
  {
    && t.spe.Running? && o.minInterval < t.spe.options.minInterval && t.spe.options.powerMode <= o.powerMode
    && FastestPower(t, {}, order) != t.spe.options.powerMode
  }

  lemma StartTunes(t: Tracker, key: Key, o: Options, order: seq<Key>)
    requires Tuned(t) && IsOrder(order, t.timeBased) && key !in t.timeBased && key !in t.distanceBased
    requires o.sized && MIN_TRACKING_INTERVAL <= o.minInterval && o.powerMode != POWER_INVALID
    ensures var t' := StartMultiplex(t, o, order);
            Tuned(t'.(timeBased := t'.timeBased[key := o])) <==> !StartMisses(t, o, order)
  {
    StartIsSound(t, key, o, order);
    if t.timeBased == map[] {
      var all := t.timeBased[key := o];
      assert key in all && IsHighest(o.powerMode, all);
    } else {
      SmallestOfAll(order, t.timeBased);
      assert t.timeBased - {} == t.timeBased && t.timeBased - {key} == t.timeBased;
      LowestOfOthers(order, t.timeBased, {});
      HighestIsUnique(LowestPower(order, t.timeBased, {}, POWER_INVALID), t.spe.options.powerMode, t.timeBased);
      var t' := StartMultiplex(t, o, order);
      HighestWith(t.spe.options.powerMode, t.timeBased, key, o, t'.spe.options.powerMode);
    }
  }

  // Two live sessions, the slow one at the highest power.  A third asks for an interval shorter than
  // either at low power, and the modem leaves the power of the second for that of the first.
  lemma StartCanMiss(t: Tracker, low: Key, high: Key, key: Key, o: Options, order: seq<Key>)
    requires low != high && key != low && key != high && order == [low, high]
    requires t == Tracker(map[low := Options(true, 1000, 0, 5, 0), high := Options(true, 2000, 0, 1, 0)], map[],
                          false, false, Running(Options(true, 1000, 0, 1, 0)))
    requires o == Options(true, 500, 0, 3, 0)
    ensures Tuned(t) && IsOrder(order, t.timeBased)
    ensures StartMultiplex(t, o, order).spe == Running(Options(true, 500, 0, 5, 0))
  {
    assert low in t.timeBased && high in t.timeBased;
    assert t.timeBased[low] == Options(true, 1000, 0, 5, 0) && t.timeBased[high] == Options(true, 2000, 0, 1, 0);
    SmallestIsMinimum(order, t.timeBased, {}, UNSET);
    LowestPowerIsMinimum(order, t.timeBased, {}, POWER_INVALID);
    assert low in order && high in order;
  }

  // ---- stops ----

  // The highest power of all but one session, and what the modem's power has to do with it.
  lemma PowerOfOthers(t: Tracker, key: Key, order: seq<Key>)
    requires Tuned(t) && IsOrder(order, t.timeBased) && key in t.timeBased && |t.timeBased| != 1
    ensures var power := LowestPower(order, t.timeBased, {key}, POWER_INVALID);
            && IsHighest(power, t.timeBased - {key})
            && t.spe.options.powerMode ==
               if t.timeBased[key].powerMode < power then t.timeBased[key].powerMode else power
  {
    SmallestOfOthers(order, t.timeBased, key);
    LowestOfOthers(order, t.timeBased, {key});
    var power := LowestPower(order, t.timeBased, {key}, POWER_INVALID);
    HighestWith(power, t.timeBased, key, t.timeBased[key], t.spe.options.powerMode);
    assert t.timeBased[key := t.timeBased[key]] == t.timeBased;
  }

  // A stop never misses it.
  lemma StopTunes(t: Tracker, key: Key, order: seq<Key>)
    requires Tuned(t) && IsOrder(order, t.timeBased) && key in t.timeBased
    ensures Tuned(EraseSession(StopMultiplex(t, key, order), key))
  {
    StopIsSound(t, key, order);
    if |t.timeBased| != 1 {
      PowerOfOthers(t, key, order);
    }
  }

  // ---- updates in place ----

  // Among others, an update that restarts the modem misses the power as a start does; one that does not
  // restart it leaves the modem at what the session asked for before.
  predicate UpdateMisses(t: Tracker, key: Key, o: Options, order: seq<Key>)
    requires key in t.timeBased && forall k :: k in order ==> k in t.timeBased
  {
    var was, others := t.timeBased[key], Smallest(order, t.timeBased, {key}, UNSET);
    var power := LowestPower(order, t.timeBased, {key}, POWER_INVALID);
    && |t.timeBased| != 1 && (was.minInterval != o.minInterval || was.powerMode != o.powerMode)
    && if o.minInterval < others.minInterval || o.powerMode < power
       then power <= o.powerMode && others.powerMode != power
       else was.minInterval < others.minInterval || was.powerMode < power
  }

  lemma UpdateTunes(t: Tracker, key: Key, o: Options, order: seq<Key>)
    requires Tuned(t) && IsOrder(order, t.timeBased) && key in t.timeBased
    requires o.sized && MIN_TRACKING_INTERVAL <= o.minInterval && o.powerMode != POWER_INVALID
    ensures var t' := UpdateMultiplex(t, key, o, order);
            Tuned(t'.(timeBased := t'.timeBased[key := o])) <==> !UpdateMisses(t, key, o, order)
  {
    if |t.timeBased| == 1 {
      UpdateOfOnlySession(t, key, o, order);
      OnlySession(t.timeBased, key);
      var all := t.timeBased[key := o];
      assert key in all && all[key] == o;
    } else {
      UpdateAmongOthers(t, key, o, order);
      PowerOfOthers(t, key, order);
      HighestWith(LowestPower(order, t.timeBased, {key}, POWER_INVALID), t.timeBased, key, o,
                  UpdateMultiplex(t, key, o, order).spe.options.powerMode);
    }
  }

  // ---- restarts ----

  lemma RestartTunes(t: Tracker, order: seq<Key>)
    requires IsOrder(order, t.timeBased) && Given(t.timeBased) && !t.nHzNeeded
    requires Stored(t.timeBased) && Stored(t.distanceBased) && t.timeBased.Keys !! t.distanceBased.Keys
    requires t.timeBased == map[] ==> t.spe.Stopped?
    ensures Tuned(Restart(t, order))
  {
    RestartIsSound(t, order);
    if t.timeBased != map[] {
      var k :| k in t.timeBased;
      assert k in order && order[0] in order;
      RestartPower(order, t.timeBased);
    }
  }

  // What a restart asks for: interval and distance of one session, power and time between measurements
  // of one session.
  lemma RestartIsTaken(t: Tracker, order: seq<Key>)
    requires IsOrder(order, t.timeBased) && Stored(t.timeBased) && t.timeBased != map[] && !t.nHzNeeded
    ensures Restart(t, order).spe.Running?
    ensures var o := Restart(t, order).spe.options;
            && (exists k :: k in t.timeBased && o.minInterval == t.timeBased[k].minInterval &&
                            o.minDistance == t.timeBased[k].minDistance)
            && (exists k :: k in t.timeBased && o.powerMode == t.timeBased[k].powerMode && o.tbm == t.timeBased[k].tbm)
  {
    var k :| k in t.timeBased;
    assert k in order && order[0] in order;
    SmallestIsMinimum(order, t.timeBased, {}, UNSET);
    HighestPowerFrom(order[1..], t.timeBased, t.timeBased[order[0]]);
  }

  // Distance and time between measurements are those of one session.
  ghost predicate Taken(o: Options, sessions: map<Key, Options>) {
    exists k :: k in sessions && o.minDistance == sessions[k].minDistance && o.tbm == sessions[k].tbm
  }

  // What a start or an update in place does not tighten is one session's; alone, the session's own.
  lemma StartIsTaken(t: Tracker, o: Options, order: seq<Key>)
    requires Stored(t.timeBased) && IsOrder(order, t.timeBased) && !t.nHzNeeded
    ensures var spe := StartMultiplex(t, o, order).spe;
            if t.timeBased == map[] then spe == Running(o)
            else spe == t.spe || (spe.Running? && Taken(spe.options, t.timeBased))
  {
    if t.timeBased != map[] {
      SmallestIsMinimum(order, t.timeBased, {}, UNSET);
      SmallestOfAll(order, t.timeBased);
    }
  }

  lemma FastestOfOthers(sessions: map<Key, Options>, key: Key, order: seq<Key>)
    requires Stored(sessions) && IsOrder(order, sessions) && key in sessions && |sessions| != 1
    ensures Taken(Smallest(order, sessions, {key}, UNSET), sessions - {key})
  {
    SmallestOfOthers(order, sessions, key);
    SmallestIsMinimum(order, sessions, {key}, UNSET);
    var k :| k in order && k != key && Smallest(order, sessions, {key}, UNSET) == sessions[k];
    assert k in sessions - {key} && (sessions - {key})[k] == sessions[k];
  }

  lemma StopIsTaken(t: Tracker, key: Key, order: seq<Key>)
    requires Stored(t.timeBased) && IsOrder(order, t.timeBased) && !t.nHzNeeded && key in t.timeBased
    ensures var spe := StopMultiplex(t, key, order).spe;
            if |t.timeBased| == 1 then spe == Stopped
            else spe == t.spe || (spe.Running? && Taken(spe.options, t.timeBased - {key}))
  {
    if |t.timeBased| != 1 {
      FastestOfOthers(t.timeBased, key, order);
    }
  }

  lemma UpdateIsTaken(t: Tracker, key: Key, o: Options, order: seq<Key>)
    requires Stored(t.timeBased) && IsOrder(order, t.timeBased) && !t.nHzNeeded && key in t.timeBased
    ensures var spe := UpdateMultiplex(t, key, o, order).spe;
            || spe == t.spe
            || (spe.Running? &&
                if |t.timeBased| == 1 then spe.options == o else Taken(spe.options, t.timeBased - {key}))
  {
    if |t.timeBased| != 1 {
      FastestOfOthers(t.timeBased, key, order);
    }
  }

  // ---- every command ----

  // The exact condition under which a command leaves the modem tuned, on a modem with distance tracking.
  ghost predicate Tunes(t: Tracker, e: Event)
    requires Legal(t, e)
  {
    match e
    case StartCmd(_, o, callbacks, order) => callbacks && o.sized && o.minDistance == 0 ==> StartFits(t, o, order)
    case UpdateCmd(key, o, order) =>
      o.sized && o.minDistance == 0 ==>
        && (key in t.distanceBased ==> StartFits(t, o, order))
        && (key in t.timeBased ==>
              o.powerMode != POWER_INVALID && !UpdateMisses(t, key, Clamp(PowerFallback(o)), order))
    case NHz(needed, _) => !needed
    case _ => true
  }

  predicate StartFits(t: Tracker, o: Options, order: seq<Key>)
    requires forall k :: k in order ==> k in t.timeBased
  {
    o.powerMode != POWER_INVALID && !StartMisses(t, Clamp(PowerFallback(o)), order)
  }

  lemma StartTunesExactly(t: Tracker, key: Key, o: Options, order: seq<Key>)
    requires Tuned(t) && IsOrder(order, t.timeBased) && key !in t.timeBased && key !in t.distanceBased && o.sized
    ensures var p := Clamp(PowerFallback(o));
            var t' := StartMultiplex(t, p, order);
            Tuned(t'.(timeBased := t'.timeBased[key := p])) <==> StartFits(t, o, order)
  {
    var p := Clamp(PowerFallback(o));
    var end := StartMultiplex(t, p, order);
    assert key in end.timeBased[key := p] && end.timeBased[key := p][key] == p;
    if o.powerMode != POWER_INVALID {
      StartTunes(t, key, p, order);
    }
  }

  // A distance-based session that becomes time-based starts anew.
  lemma RejoinTunes(t: Tracker, key: Key, o: Options, order: seq<Key>)
    requires Tuned(t) && IsOrder(order, t.timeBased) && o.sized && key in t.distanceBased
    ensures Tuned(Update(t, key, o, true, order).0) <==> (o.minDistance == 0 ==> StartFits(t, o, order))
  {
    if o.minDistance == 0 {
      StartTunesExactly(EraseSession(t, key), key, o, order);
    }
  }

  lemma InPlaceTunes(t: Tracker, key: Key, o: Options, order: seq<Key>)
    requires Tuned(t) && IsOrder(order, t.timeBased) && o.sized && o.minDistance == 0 && key in t.timeBased
    ensures Tuned(Update(t, key, o, true, order).0) <==>
            o.powerMode != POWER_INVALID && !UpdateMisses(t, key, Clamp(PowerFallback(o)), order)
  {
    var p, end := Clamp(PowerFallback(o)), Update(t, key, o, true, order).0;
    UpdateInPlace(t, key, o, true, order);
    if o.powerMode != POWER_INVALID {
      UpdateTunes(t, key, p, order);
    } else {
      assert key in end.timeBased && end.timeBased[key] == p;
    }
  }

  // A time-based session that becomes distance-based stops.
  lemma SwitchTunes(t: Tracker, key: Key, o: Options, order: seq<Key>)
    requires Tuned(t) && IsOrder(order, t.timeBased) && o.sized && o.minDistance > 0 && key in t.timeBased
    ensures Tuned(Update(t, key, o, true, order).0)
  {
    StopTunes(t, key, order);
    FiledIsSound(EraseSession(StopMultiplex(t, key, order), key), key, Clamp(PowerFallback(o)));
  }

  lemma UpdateTunesExactly(t: Tracker, key: Key, o: Options, order: seq<Key>)
    requires Tuned(t) && IsOrder(order, t.timeBased) && o.sized && (key in t.timeBased || key in t.distanceBased)
    ensures Tuned(Update(t, key, o, true, order).0) <==> Tunes(t, UpdateCmd(key, o, order))
  {
    if key in t.distanceBased {
      RejoinTunes(t, key, o, order);
    } else if o.minDistance == 0 {
      InPlaceTunes(t, key, o, order);
    } else {
      SwitchTunes(t, key, o, order);
    }
  }

  lemma StepTunes(t: Tracker, e: Event)
    requires Tuned(t) && Legal(t, e)
    ensures Tuned(Step(t, e, true)) <==> Tunes(t, e)
  {
    match e
    case StartCmd(key, o, callbacks, order) =>
      if callbacks && o.sized && o.minDistance == 0 { StartTunesExactly(t, key, o, order); }
    case UpdateCmd(key, o, order) =>
      if o.sized && (key in t.timeBased || key in t.distanceBased) { UpdateTunesExactly(t, key, o, order); }
    case StopCmd(key, order) => if key in t.timeBased { StopTunes(t, key, order); }
    case NHz(_, _) =>
    case Reconfigure(order) => RestartTunes(Suspend(t), order);
    case ModemRestart(order) => RestartTunes(t.(spe := Stopped), order);
  }

  ghost predicate TuningRun(t: Tracker, es: seq<Event>)
    decreases |es|
  {
    es != [] ==> Legal(t, es[0]) && Tunes(t, es[0]) && TuningRun(Step(t, es[0], true), es[1..])
  }

  // Over every run of such commands the modem runs at the smallest interval and at the highest power that
  // the live sessions ask for.
  lemma {:induction false} RunTunes(t: Tracker, es: seq<Event>)
    requires Tuned(t) && TuningRun(t, es)
    ensures LegalRun(t, es, true) && Tuned(Run(t, es, true))
    decreases |es|
  {
    if es != [] {
      StepTunes(t, es[0]);
      RunTunes(Step(t, es[0], true), es[1..]);
    }
  }

  // From the start, in terms of what the clients asked for.
  lemma RunMeetsPower(es: seq<Event>)
    requires TuningRun(INITIAL, es)
    ensures LegalRun(INITIAL, es, true)
    ensures var spe, wishes := Run(INITIAL, es, true).spe, WishesAfter(map[], es);
            spe.Running? ==> HighestAsked(spe.options.powerMode, wishes)
  {
    RunTunes(INITIAL, es);
    RunAnswers(INITIAL, map[], es, true);
    var t, wishes := Run(INITIAL, es, true), WishesAfter(map[], es);
    if t.spe.Running? {
      var k :| k in t.timeBased && t.spe.options.powerMode == t.timeBased[k].powerMode;
      assert k in wishes;
      assert forall j :: j in wishes && TimeBased(wishes[j], true) ==> j in t.timeBased;
    }
  }

  ghost predicate HighestAsked(power: nat, wishes: map<Key, Options>) {
    && (forall k :: k in wishes && TimeBased(wishes[k], true) ==> power <= Mode(wishes[k]))
    && (exists k :: k in wishes && TimeBased(wishes[k], true) && power == Mode(wishes[k]))
  }
}
