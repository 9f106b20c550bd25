// What clients asked for: the options each live session was last started or updated with, and how the
// stored sessions and the modem's one session answer them.
module TrackingWishes {
  import opened Word32
  import opened TrackingModel
  import opened TrackingProofs

  // The register of wishes.  A start without the callbacks it needs, a start or an update with options
  // of size zero and an update of an unknown session are turned away.
  function Wished(wishes: map<Key, Options>, e: Event): map<Key, Options> {
    match e
    case StartCmd(key, o, callbacks, _) => if callbacks && o.sized then wishes[key := o] else wishes
    case UpdateCmd(key, o, _) => if key in wishes && o.sized then wishes[key := o] else wishes
    case StopCmd(key, _) => wishes - {key}
    case _ => wishes
  }

  function WishesAfter(wishes: map<Key, Options>, es: seq<Event>): map<Key, Options>
    decreases |es|
  {
    if es == [] then wishes else WishesAfter(Wished(wishes, es[0]), es[1..])
  }

  // No session is reported to more often than every 100 ms.
  function Floor(interval: u32): u32 {
    if interval < 100 then 100 else interval
  }

  // Mode 4 with more than 480000 ms between measurements falls back to mode 2.
  function Mode(o: Options): nat {
    if o.powerMode == 4 && o.tbm > 480000 then 2 else o.powerMode
  }

  predicate Answers(stored: Options, wish: Options) {
    && stored.sized && stored.minInterval == Floor(wish.minInterval)
    && stored.minDistance == wish.minDistance && stored.tbm == wish.tbm
  }

  // The session is one the modem multiplexes.
  predicate TimeBased(wish: Options, supported: bool) {
    !supported || wish.minDistance == 0
  }

  // Each wish is stored once, in the map of its kind, as asked but for the floor and the fallback.
  ghost predicate Answered(timeBased: map<Key, Options>, distanceBased: map<Key, Options>,
                           wishes: map<Key, Options>, supported: bool)
  {
    && (forall k :: k in timeBased <==> k in wishes && TimeBased(wishes[k], supported))
    && (forall k :: k in distanceBased <==> k in wishes && !TimeBased(wishes[k], supported))
    && (forall k :: k in timeBased ==> Answers(timeBased[k], wishes[k]) && timeBased[k].powerMode == Mode(wishes[k]))
    && (forall k :: k in distanceBased ==>
          Answers(distanceBased[k], wishes[k]) && distanceBased[k].powerMode in {Mode(wishes[k]), wishes[k].powerMode})
  }

  ghost predicate Answering(t: Tracker, wishes: map<Key, Options>, supported: bool) {
    Answered(t.timeBased, t.distanceBased, wishes, supported)
  }

  lemma ErasedIsAnswered(
      timeBased: map<Key, Options>, distanceBased: map<Key, Options>,
      wishes: map<Key, Options>, supported: bool, key: Key)
    requires Answered(timeBased, distanceBased, wishes, supported)
    ensures Answered(timeBased - {key}, distanceBased - {key}, wishes - {key}, supported)
  {
  }

  lemma TimeBasedIsAnswered(t: Tracker, wishes: map<Key, Options>, supported: bool, key: Key, wish: Options, o: Options)
    requires Answering(t, wishes, supported) && key !in wishes && TimeBased(wish, supported)
    requires Answers(o, wish) && o.powerMode == Mode(wish)
    ensures Answered(t.timeBased[key := o], t.distanceBased, wishes[key := wish], supported)
  {
  }

  lemma DistanceBasedIsAnswered(
      t: Tracker, wishes: map<Key, Options>, supported: bool, key: Key, wish: Options, o: Options)
    requires Answering(t, wishes, supported) && key !in wishes && !TimeBased(wish, supported)
    requires Answers(o, wish) && o.powerMode in {Mode(wish), wish.powerMode}
    ensures Answered(t.timeBased, t.distanceBased[key := o], wishes[key := wish], supported)
  {
  }

  lemma SavedIsAnswered(t: Tracker, wishes: map<Key, Options>, supported: bool, key: Key, wish: Options, o: Options)
    requires Answering(t, wishes, supported) && key !in wishes && Answers(o, wish)
    requires o.powerMode == Mode(wish) || (!TimeBased(wish, supported) && o.powerMode == wish.powerMode)
    ensures Answering(SaveSession(t, key, o, supported), wishes[key := wish], supported)
  {
    if TimeBased(wish, supported) {
      TimeBasedIsAnswered(t, wishes, supported, key, wish, o);
    } else {
      DistanceBasedIsAnswered(t, wishes, supported, key, wish, o);
    }
  }

  predicate SameSessions(a: Tracker, b: Tracker) {
    a.timeBased == b.timeBased && a.distanceBased == b.distanceBased
  }

  // Only the modem's session is touched when sessions are multiplexed.
  lemma MultiplexKeepsSessions(t: Tracker, key: Key, o: Options, order: seq<Key>)
    requires IsOrder(order, t.timeBased)
    ensures SameSessions(StartMultiplex(t, o, order), t) && SameSessions(StopMultiplex(t, key, order), t)
    ensures key in t.timeBased ==> SameSessions(UpdateMultiplex(t, key, o, order), t)
  {
  }

  lemma StartAnswers(t: Tracker, wishes: map<Key, Options>, e: Event, supported: bool)
    requires Answering(t, wishes, supported) && Legal(t, e) && e.StartCmd? && e.callbacks && e.options.sized
    ensures Answering(Step(t, e, supported), wishes[e.key := e.options], supported)
  {
    var o := Clamp(e.options);
    if o.minDistance > 0 && supported {
      SavedIsAnswered(t, wishes, supported, e.key, e.options, o);
    } else {
      var p := PowerFallback(o);
      MultiplexKeepsSessions(t, e.key, p, e.order);
      SavedIsAnswered(StartMultiplex(t, p, e.order), wishes, supported, e.key, e.options, p);
    }
  }

  // An update replaces the session, in whichever map it was.
  lemma UpdateSaves(t: Tracker, key: Key, options: Options, supported: bool, order: seq<Key>)
    requires IsOrder(order, t.timeBased) && options.sized && (key in t.timeBased || key in t.distanceBased)
    requires (key in t.timeBased ==> key !in t.distanceBased) && (!supported ==> t.distanceBased == map[])
    ensures var o := Clamp(PowerFallback(options));
            var rest := t.(timeBased := t.timeBased - {key}, distanceBased := t.distanceBased - {key});
            SameSessions(Update(t, key, options, supported, order).0, SaveSession(rest, key, o, supported))
  {
    if key in t.timeBased {
      TimeBasedUpdateSaves(t, key, options, supported, order);
    } else {
      DistanceBasedUpdateSaves(t, key, options, order);
    }
  }

  lemma TimeBasedUpdateSaves(t: Tracker, key: Key, options: Options, supported: bool, order: seq<Key>)
    requires IsOrder(order, t.timeBased) && options.sized && key in t.timeBased && key !in t.distanceBased
    ensures var o := Clamp(PowerFallback(options));
            var rest := t.(timeBased := t.timeBased - {key}, distanceBased := t.distanceBased - {key});
            SameSessions(Update(t, key, options, supported, order).0, SaveSession(rest, key, o, supported))
  {
    var o := Clamp(PowerFallback(options));
    MultiplexKeepsSessions(t, key, o, order);
    assert (t.timeBased - {key})[key := o] == t.timeBased[key := o];
    assert t.distanceBased - {key} == t.distanceBased;
  }

  lemma DistanceBasedUpdateSaves(t: Tracker, key: Key, options: Options, order: seq<Key>)
    requires IsOrder(order, t.timeBased) && options.sized && key !in t.timeBased && key in t.distanceBased
    ensures var o := Clamp(PowerFallback(options));
            var rest := t.(timeBased := t.timeBased - {key}, distanceBased := t.distanceBased - {key});
            SameSessions(Update(t, key, options, true, order).0, SaveSession(rest, key, o, true))
  {
    var o := Clamp(PowerFallback(options));
    assert (t.distanceBased - {key})[key := o] == t.distanceBased[key := o];
    assert t.timeBased - {key} == t.timeBased;
    MultiplexKeepsSessions(EraseSession(t, key), key, o, order);
  }

  lemma UpdateAnswers(t: Tracker, wishes: map<Key, Options>, e: Event, supported: bool)
    requires Answering(t, wishes, supported) && Legal(t, e) && e.UpdateCmd? && e.key in wishes && e.options.sized
    ensures Answering(Step(t, e, supported), wishes[e.key := e.options], supported)
  {
    var o, key := Clamp(PowerFallback(e.options)), e.key;
    var rest := t.(timeBased := t.timeBased - {key}, distanceBased := t.distanceBased - {key});
    ErasedIsAnswered(t.timeBased, t.distanceBased, wishes, supported, key);
    SavedIsAnswered(rest, wishes - {key}, supported, key, e.options, o);
    assert (wishes - {key})[key := e.options] == wishes[key := e.options];
    UpdateSaves(t, key, e.options, supported, e.order);
  }

  lemma StopErases(t: Tracker, key: Key, order: seq<Key>)
    requires IsOrder(order, t.timeBased) && (key in t.timeBased ==> key !in t.distanceBased)
    ensures SameSessions(Stop(t, key, order).0,
                         t.(timeBased := t.timeBased - {key}, distanceBased := t.distanceBased - {key}))
  {
    MultiplexKeepsSessions(t, key, UNSET, order);
    if key !in t.timeBased {
      assert t.timeBased - {key} == t.timeBased;
    }
    if key !in t.distanceBased {
      assert t.distanceBased - {key} == t.distanceBased;
    }
  }

  lemma StopAnswers(t: Tracker, wishes: map<Key, Options>, key: Key, order: seq<Key>, supported: bool)
    requires Answering(t, wishes, supported) && IsOrder(order, t.timeBased)
    ensures Answering(Stop(t, key, order).0, wishes - {key}, supported)
  {
    ErasedIsAnswered(t.timeBased, t.distanceBased, wishes, supported, key);
    StopErases(t, key, order);
  }

  lemma RestartKeepsSessions(t: Tracker, e: Event, supported: bool)
    requires Legal(t, e) && (e.NHz? || e.Reconfigure? || e.ModemRestart?)
    ensures SameSessions(Step(t, e, supported), t)
  {
  }

  lemma StepAnswers(t: Tracker, wishes: map<Key, Options>, e: Event, supported: bool)
    requires Answering(t, wishes, supported) && Legal(t, e)
    ensures Answering(Step(t, e, supported), Wished(wishes, e), supported)
  {
    match e
    case StartCmd(_, o, callbacks, _) => if callbacks && o.sized { StartAnswers(t, wishes, e, supported); }
    case UpdateCmd(key, o, _) => if key in wishes && o.sized { UpdateAnswers(t, wishes, e, supported); }
    case StopCmd(key, order) => StopAnswers(t, wishes, key, order, supported);
    case _ => RestartKeepsSessions(t, e, supported);
  }

  lemma {:induction false} RunAnswers(t: Tracker, wishes: map<Key, Options>, es: seq<Event>, supported: bool)
    requires Answering(t, wishes, supported) && LegalRun(t, es, supported)
    ensures Answering(Run(t, es, supported), WishesAfter(wishes, es), supported)
    decreases |es|
  {
    if es != [] {
      StepAnswers(t, wishes, es[0], supported);
      RunAnswers(Step(t, es[0], supported), Wished(wishes, es[0]), es[1..], supported);
    }
  }

  ghost predicate SomeTimeBased(wishes: map<Key, Options>, supported: bool) {
    exists k :: k in wishes && TimeBased(wishes[k], supported)
  }

  // Over every run from the start: the modem's session runs exactly when some client wants one, never
  // faster than every 100 ms, and at least as often as every client asked for, 100 ms being the limit.
  lemma RunServesWishes(es: seq<Event>, supported: bool)
    requires LegalRun(INITIAL, es, supported)
    ensures var spe, wishes := Run(INITIAL, es, supported).spe, WishesAfter(map[], es);
            && (spe.Running? <==> SomeTimeBased(wishes, supported))
            && (spe.Running? ==> 100 <= spe.options.minInterval)
            && (forall k :: k in wishes && TimeBased(wishes[k], supported) ==>
                  spe.Running? && spe.options.minInterval <= Floor(wishes[k].minInterval))
  {
    RunAnswers(INITIAL, map[], es, supported);
    RunIsSound(INITIAL, es, supported);
    var t, wishes := Run(INITIAL, es, supported), WishesAfter(map[], es);
    if k :| k in wishes && TimeBased(wishes[k], supported) {
      assert k in t.timeBased;
    }
    if k :| k in t.timeBased {
      assert k in wishes && TimeBased(wishes[k], supported);
    }
  }

  ghost predicate SomebodyDemands(wishes: map<Key, Options>, supported: bool, interval: u32) {
    exists k :: k in wishes && TimeBased(wishes[k], supported) && interval == Floor(wishes[k].minInterval)
  }

  // Without NHz and without updates in place it runs exactly as often as the most demanding client asked.
  lemma PlainRunMeetsWishes(es: seq<Event>, supported: bool)
    requires LegalRun(INITIAL, es, supported) && PlainRun(INITIAL, es, supported)
    ensures var spe := Run(INITIAL, es, supported).spe;
            spe.Running? ==> SomebodyDemands(WishesAfter(map[], es), supported, spe.options.minInterval)
  {
    RunAnswers(INITIAL, map[], es, supported);
    PlainRunIsExact(INITIAL, es, supported);
    var t := Run(INITIAL, es, supported);
    if t.spe.Running? {
      var k :| k in t.timeBased && t.spe.options.minInterval == t.timeBased[k].minInterval;
      assert k in WishesAfter(map[], es);
    }
  }

  // ---- what is turned away, and what does not reach the modem ----

  // The answer to each command, and that a command turned away changes nothing.
  lemma RejectedChangesNothing(t: Tracker, key: Key, o: Options, callbacks: bool, supported: bool, order: seq<Key>)
    requires IsOrder(order, t.timeBased)
    ensures Start(t, key, o, callbacks, supported, order).1 ==
            if !callbacks then CallbackMissing else if !o.sized then InvalidParameter else Accepted
    ensures Update(t, key, o, supported, order).1 ==
            if key !in t.timeBased && key !in t.distanceBased then IdUnknown
            else if !o.sized then InvalidParameter
            else Accepted
    ensures Stop(t, key, order).1 ==
            if key in t.timeBased || key in t.distanceBased then Accepted else IdUnknown
    ensures Start(t, key, o, callbacks, supported, order).1 != Accepted ==>
            Start(t, key, o, callbacks, supported, order).0 == t
    ensures Update(t, key, o, supported, order).1 != Accepted ==> Update(t, key, o, supported, order).0 == t
    ensures Stop(t, key, order).1 != Accepted ==> Stop(t, key, order).0 == t
  {
  }

  // Sessions that stay distance-based and an NHz requirement that does not change leave the modem's
  // time-based session alone.
  lemma QuietCommands(t: Tracker, key: Key, o: Options, callbacks: bool, order: seq<Key>)
    requires IsOrder(order, t.timeBased) && key !in t.timeBased && o.minDistance > 0
    ensures Start(t, key, o, callbacks, true, order).0.spe == t.spe
    ensures Update(t, key, o, true, order).0.spe == t.spe
    ensures Stop(t, key, order).0.spe == t.spe
    ensures SetNHz(t, t.nHzNeeded, order) == t
  {
  }

  // Once raised to the highest rate for an NHz engine, the modem's session is left alone by every start,
  // by every update in place and by every stop that leaves a session.
  lemma HighestIsLeftAlone(t: Tracker, key: Key, o: Options, supported: bool, order: seq<Key>)
    requires Sound(t) && t.atHighest && IsOrder(order, t.timeBased)
    ensures Start(t, key, o, true, supported, order).0.spe == t.spe
    ensures o.minDistance == 0 ==> Update(t, key, o, supported, order).0.spe == t.spe
    ensures |t.timeBased| > 1 ==> Stop(t, key, order).0.spe == t.spe
  {
  }

  // It is raised, and marked so, exactly when an NHz engine appears while every client is content with
  // less than the highest rate.
  lemma NHzRaises(t: Tracker, order: seq<Key>)
    requires Sound(t) && !t.nHzNeeded && IsOrder(order, t.timeBased) && t.timeBased != map[]
    ensures var end := SetNHz(t, true, order);
            && end.spe.Running? && end.spe.options.minInterval == 100
            && (end.atHighest <==> forall k :: k in t.timeBased ==> 100 < t.timeBased[k].minInterval)
  {
    RestartIsSound(t.(nHzNeeded := true), order);
    SmallestOfAll(order, t.timeBased);
  }
}
