// GnssAdapter's tracking handlers as they run: session maps and flags updated in place, loops over the
// session map.  `spe` is the modem's session; the modem accepts what it is asked.
module TrackingHandlers {
  import opened Word32
  import opened TrackingModel
  import opened TrackingProofs

  function OwnedBy(client: nat, keys: set<Key>): set<Key> {
    set k | k in keys && k.client == client
  }

  class GnssTracking {
    var mTimeBasedTrackingSessions: map<Key, Options>
    var mDistanceBasedTrackingSessions: map<Key, Options>
    var mNHzNeeded: bool
    var mSPEAlreadyRunningAtHighestInterval: bool
    var spe: Spe
    const distanceSupported: bool

    ghost function State(): Tracker
      reads this
    {
      Tracker(mTimeBasedTrackingSessions, mDistanceBasedTrackingSessions, mNHzNeeded,
              mSPEAlreadyRunningAtHighestInterval, spe)
    }

    constructor (distanceSupported: bool)
      ensures State() == INITIAL && Exact(State())
      ensures this.distanceSupported == distanceSupported
    {
      mTimeBasedTrackingSessions, mDistanceBasedTrackingSessions := map[], map[];
      mNHzNeeded, mSPEAlreadyRunningAtHighestInterval := false, false;
      spe := Stopped;
      this.distanceSupported := distanceSupported;
    }

    // ---- the loops over the session map ----

    method Multiplex(skip: set<Key>, order: seq<Key>) returns (best: Options, power: nat)
      requires forall k :: k in order ==> k in mTimeBasedTrackingSessions
      ensures best == Smallest(order, mTimeBasedTrackingSessions, skip, UNSET)
      ensures power == LowestPower(order, mTimeBasedTrackingSessions, skip, POWER_INVALID)
    {
      best, power := UNSET, POWER_INVALID;
      for i := 0 to |order|
        invariant Smallest(order[i..], mTimeBasedTrackingSessions, skip, best)
               == Smallest(order, mTimeBasedTrackingSessions, skip, UNSET)
        invariant LowestPower(order[i..], mTimeBasedTrackingSessions, skip, power)
               == LowestPower(order, mTimeBasedTrackingSessions, skip, POWER_INVALID)
      {
        var o := mTimeBasedTrackingSessions[order[i]];
        assert order[i..][1..] == order[i + 1..];
        if order[i] !in skip && (!best.sized || o.minInterval < best.minInterval) {
          best := o;
        }
        if order[i] !in skip && (power == POWER_INVALID || o.powerMode < power) {
          power := o.powerMode;
        }
      }
    }

    method RestartOptions(order: seq<Key>) returns (smallest: Options, highest: Options)
      requires forall k :: k in order ==> k in mTimeBasedTrackingSessions
      ensures smallest == Smallest(order, mTimeBasedTrackingSessions, {}, UNSET)
      ensures highest == HighestPower(order, mTimeBasedTrackingSessions, UNSET)
    {
      smallest, highest := UNSET, UNSET;
      for i := 0 to |order|
        invariant Smallest(order[i..], mTimeBasedTrackingSessions, {}, smallest)
               == Smallest(order, mTimeBasedTrackingSessions, {}, UNSET)
        invariant HighestPower(order[i..], mTimeBasedTrackingSessions, highest)
               == HighestPower(order, mTimeBasedTrackingSessions, UNSET)
      {
        var o := mTimeBasedTrackingSessions[order[i]];
        assert order[i..][1..] == order[i + 1..];
        if !smallest.sized || o.minInterval < smallest.minInterval {
          smallest := o;
        }
        if !highest.sized || (o.powerMode != POWER_INVALID && o.powerMode < highest.powerMode) {
          highest := o;
        }
      }
    }

    // ---- the modem's session ----

    method StartTimeBasedTracking(options: Options)
      modifies this`spe, this`mSPEAlreadyRunningAtHighestInterval
      ensures State() == StartSpe(old(State()), options)
    {
      var temp := options;
      if mNHzNeeded {
        if mSPEAlreadyRunningAtHighestInterval {
          return;
        }
        if temp.minInterval > MIN_TRACKING_INTERVAL {
          temp := temp.(minInterval := MIN_TRACKING_INTERVAL);
          mSPEAlreadyRunningAtHighestInterval := true;
        }
      }
      spe := Running(temp);
    }

    method StartTimeBasedTrackingMultiplex(options: Options, order: seq<Key>)
      requires forall k :: k in order ==> k in mTimeBasedTrackingSessions
      modifies this`spe, this`mSPEAlreadyRunningAtHighestInterval
      ensures State() == StartMultiplex(old(State()), options, order)
    {
      if mTimeBasedTrackingSessions == map[] {
        StartTimeBasedTracking(options);
        return;
      }
      var multiplexed, power := Multiplex({}, order);
      var updateOptions := false;
      if options.minInterval < multiplexed.minInterval {
        multiplexed, updateOptions := multiplexed.(minInterval := options.minInterval), true;
      }
      if options.powerMode < power {
        multiplexed, updateOptions := multiplexed.(powerMode := options.powerMode), true;
      }
      if updateOptions {
        StartTimeBasedTracking(multiplexed);
      }
    }

    method StopTimeBasedTrackingMultiplex(key: Key, order: seq<Key>)
      requires forall k :: k in order ==> k in mTimeBasedTrackingSessions
      modifies this`spe, this`mSPEAlreadyRunningAtHighestInterval
      ensures State() == StopMultiplex(old(State()), key, order)
    {
      if |mTimeBasedTrackingSessions| == 1 {
        spe, mSPEAlreadyRunningAtHighestInterval := Stopped, false;
      } else if key in mTimeBasedTrackingSessions {
        var multiplexed, power := Multiplex({key}, order);
        var stopping := mTimeBasedTrackingSessions[key];
        if stopping.minInterval < multiplexed.minInterval || stopping.powerMode < power {
          StartTimeBasedTracking(multiplexed.(powerMode := power));
        }
      }
    }

    method UpdateTrackingMultiplex(key: Key, options: Options, order: seq<Key>)
      requires key in mTimeBasedTrackingSessions
      requires forall k :: k in order ==> k in mTimeBasedTrackingSessions
      modifies this`spe, this`mSPEAlreadyRunningAtHighestInterval
      ensures State() == UpdateMultiplex(old(State()), key, options, order)
    {
      var was := mTimeBasedTrackingSessions[key];
      if was.minInterval != options.minInterval || was.powerMode != options.powerMode {
        var multiplexed, power := Multiplex({key}, order);
        var updateOptions := false;
        if options.minInterval < multiplexed.minInterval {
          multiplexed, updateOptions := multiplexed.(minInterval := options.minInterval), true;
        }
        if options.powerMode < power {
          multiplexed, updateOptions := multiplexed.(powerMode := options.powerMode), true;
        }
        if |mTimeBasedTrackingSessions| == 1 {
          multiplexed, updateOptions := options, true;
        }
        if updateOptions {
          StartTimeBasedTracking(multiplexed);
        }
      }
    }

    method SaveTrackingSession(key: Key, options: Options)
      modifies this`mTimeBasedTrackingSessions, this`mDistanceBasedTrackingSessions
      ensures State() == SaveSession(old(State()), key, options, distanceSupported)
    {
      if options.minDistance > 0 && distanceSupported {
        mDistanceBasedTrackingSessions := mDistanceBasedTrackingSessions[key := options];
      } else {
        mTimeBasedTrackingSessions := mTimeBasedTrackingSessions[key := options];
      }
    }

    method EraseTrackingSession(key: Key)
      modifies this`mTimeBasedTrackingSessions, this`mDistanceBasedTrackingSessions
      ensures State() == EraseSession(old(State()), key)
    {
      if key in mTimeBasedTrackingSessions {
        mTimeBasedTrackingSessions := mTimeBasedTrackingSessions - {key};
      } else if key in mDistanceBasedTrackingSessions {
        mDistanceBasedTrackingSessions := mDistanceBasedTrackingSessions - {key};
      } else {
        assert mDistanceBasedTrackingSessions - {key} == mDistanceBasedTrackingSessions;
      }
    }

    // ---- the commands ----

    method StartTracking(key: Key, options: Options, callbacks: bool, order: seq<Key>) returns (v: Verdict)
      requires forall k :: k in order ==> k in mTimeBasedTrackingSessions
      modifies this
      ensures (State(), v) == Start(old(State()), key, options, callbacks, distanceSupported, order)
    {
      if !callbacks {
        return CallbackMissing;
      }
      if !options.sized {
        return InvalidParameter;
      }
      var o := options;
      if o.minInterval < MIN_TRACKING_INTERVAL {
        o := o.(minInterval := MIN_TRACKING_INTERVAL);
      }
      if o.minDistance > 0 && distanceSupported {
        SaveTrackingSession(key, o);
      } else {
        if o.powerMode == POWER_M4 && o.tbm > TBM_THRESHOLD {
          o := o.(powerMode := POWER_M2);
        }
        StartTimeBasedTrackingMultiplex(o, order);
        SaveTrackingSession(key, o);
      }
      v := Accepted;
    }

    method UpdateTrackingOptions(key: Key, options: Options, order: seq<Key>) returns (v: Verdict)
      requires forall k :: k in order ==> k in mTimeBasedTrackingSessions
      modifies this
      ensures (State(), v) == Update(old(State()), key, options, distanceSupported, order)
    {
      var isTimeBased := key in mTimeBasedTrackingSessions;
      var isDistanceBased := key in mDistanceBasedTrackingSessions;
      if !isTimeBased && !isDistanceBased {
        return IdUnknown;
      }
      if !options.sized {
        return InvalidParameter;
      }
      var o := options;
      if o.powerMode == POWER_M4 && o.tbm > TBM_THRESHOLD {
        o := o.(powerMode := POWER_M2);
      }
      if o.minInterval < MIN_TRACKING_INTERVAL {
        o := o.(minInterval := MIN_TRACKING_INTERVAL);
      }
      if isTimeBased && o.minDistance > 0 {
        StopTimeBasedTrackingMultiplex(key, order);
        EraseTrackingSession(key);
        SaveTrackingSession(key, o);
      } else if isDistanceBased && o.minDistance == 0 {
        var rest := if isTimeBased then Without(order, key) else order;
        EraseTrackingSession(key);
        StartTimeBasedTrackingMultiplex(o, rest);
        SaveTrackingSession(key, o);
      } else if isTimeBased {
        UpdateTrackingMultiplex(key, o, order);
        SaveTrackingSession(key, o);
      } else {
        SaveTrackingSession(key, o);
      }
      v := Accepted;
    }

    method StopTracking(key: Key, order: seq<Key>) returns (v: Verdict)
      requires forall k :: k in order ==> k in mTimeBasedTrackingSessions
      modifies this
      ensures (State(), v) == Stop(old(State()), key, order)
    {
      if key in mTimeBasedTrackingSessions {
        StopTimeBasedTrackingMultiplex(key, order);
        EraseTrackingSession(key);
        v := Accepted;
      } else if key in mDistanceBasedTrackingSessions {
        EraseTrackingSession(key);
        v := Accepted;
      } else {
        v := IdUnknown;
      }
    }

    method CheckAndRestartSPESession(order: seq<Key>)
      requires forall k :: k in order ==> k in mTimeBasedTrackingSessions
      modifies this`spe, this`mSPEAlreadyRunningAtHighestInterval
      ensures State() == Restart(old(State()), order)
    {
      mSPEAlreadyRunningAtHighestInterval := false;
      if mTimeBasedTrackingSessions != map[] {
        var smallest, highest := RestartOptions(order);
        StartTimeBasedTracking(
          Options(true, smallest.minInterval, smallest.minDistance, highest.powerMode, highest.tbm));
      }
    }

    method SuspendSessions()
      modifies this`spe, this`mSPEAlreadyRunningAtHighestInterval
      ensures State() == Suspend(old(State()))
    {
      if mTimeBasedTrackingSessions != map[] {
        spe, mSPEAlreadyRunningAtHighestInterval := Stopped, false;
      }
    }

    method UpdateNHzRequirement(needed: bool, order: seq<Key>)
      requires forall k :: k in order ==> k in mTimeBasedTrackingSessions
      modifies this`spe, this`mSPEAlreadyRunningAtHighestInterval, this`mNHzNeeded
      ensures State() == SetNHz(old(State()), needed, order)
    {
      if mNHzNeeded != needed {
        mNHzNeeded := needed;
        CheckAndRestartSPESession(order);
      }
    }

    // A removed client takes exactly its own sessions along, and the modem keeps serving the others.
    method StopClientSessions(client: nat)
      requires Sound(State())
      modifies this
      ensures Sound(State())
      ensures old(Exact(State())) ==> Exact(State())
      ensures mTimeBasedTrackingSessions ==
              old(mTimeBasedTrackingSessions) - OwnedBy(client, old(mTimeBasedTrackingSessions).Keys)
      ensures mDistanceBasedTrackingSessions ==
              old(mDistanceBasedTrackingSessions) - OwnedBy(client, old(mDistanceBasedTrackingSessions).Keys)
    {
      ghost var sessions, exact := mTimeBasedTrackingSessions, Exact(State());
      var leaving := OwnedBy(client, mTimeBasedTrackingSessions.Keys);
      var todo := leaving;
      while todo != {}
        invariant todo <= leaving && Sound(State()) && (exact ==> Exact(State()))
        invariant mTimeBasedTrackingSessions == sessions - (leaving - todo)
        invariant mDistanceBasedTrackingSessions == old(mDistanceBasedTrackingSessions)
      {
        var key :| key in todo;
        StopClientSession(key);
        todo := todo - {key};
      }
      DropDistanceSessions(OwnedBy(client, mDistanceBasedTrackingSessions.Keys));
    }

    method StopClientSession(key: Key)
      requires Sound(State()) && key in mTimeBasedTrackingSessions
      modifies this
      ensures Sound(State()) && (old(Exact(State())) ==> Exact(State()))
      ensures mTimeBasedTrackingSessions == old(mTimeBasedTrackingSessions) - {key}
      ensures mDistanceBasedTrackingSessions == old(mDistanceBasedTrackingSessions)
    {
      var order := SessionOrder();
      StopIsSound(State(), key, order);
      StopTimeBasedTrackingMultiplex(key, order);
      EraseTrackingSession(key);
    }

    method DropDistanceSessions(keys: set<Key>)
      requires Sound(State())
      modifies this`mDistanceBasedTrackingSessions
      ensures Sound(State()) && (old(Exact(State())) ==> Exact(State()))
      ensures mDistanceBasedTrackingSessions == old(mDistanceBasedTrackingSessions) - keys
    {
      mDistanceBasedTrackingSessions := mDistanceBasedTrackingSessions - keys;
    }

    // Some order in which the session map may be walked.
    method SessionOrder() returns (order: seq<Key>)
      ensures IsOrder(order, mTimeBasedTrackingSessions)
    {
      order := [];
      var todo := mTimeBasedTrackingSessions.Keys;
      while todo != {}
        invariant todo <= mTimeBasedTrackingSessions.Keys
        invariant forall k :: k in order <==> k in mTimeBasedTrackingSessions && k !in todo
        invariant forall i, j :: 0 <= i < j < |order| ==> order[i] != order[j]
      {
        var k :| k in todo;
        order := order + [k];
        todo := todo - {k};
      }
    }
  }
}
