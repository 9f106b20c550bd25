// BatchingAdapter's trip handlers as they run: fields updated in place, loops over the session map.
// The modem's answers arrive as arguments.
module TripHandlers {
  import opened Word32
  import opened TripModel

  class BatchingAdapter {
    var mTripSessions: map<u32, Trip>
    var mOngoingTripDistance: u32
    var mOngoingTripTBFInterval: u32
    var mTripWithOngoingTBFDropped: bool
    var mTripWithOngoingTripDistanceDropped: bool

    ghost function State(): Adapter
      reads this
    {
      Adapter(mTripSessions, Setting(mOngoingTripDistance, mOngoingTripTBFInterval),
              mTripWithOngoingTBFDropped, mTripWithOngoingTripDistanceDropped)
    }

    constructor ()
      ensures State() == INITIAL
    {
      mTripSessions := map[];
      mOngoingTripDistance, mOngoingTripTBFInterval := 0, 0;
      mTripWithOngoingTBFDropped, mTripWithOngoingTripDistanceDropped := false, false;
    }

    // `startOk` answers startOutdoorTripBatching; `queryOk` and `reading` answer the query.
    method StartTripBatchingMultiplex(sessionId: u32, want: Setting, startOk: bool, queryOk: bool, reading: u32)
      returns (restart: Restart)
      modifies this
      ensures old(mTripSessions) == map[] ==>
                State() == StartFirst(old(State()), sessionId, want, startOk) && restart == NoRestart
      ensures old(mTripSessions) != map[] ==>
                && State() == Join(old(State()), sessionId, want, queryOk, reading)
                && restart == JoinRestart(old(State()).ongoing, want, queryOk, reading)
    {
      restart := NoRestart;
      if mTripSessions == map[] {
        mTripSessions := mTripSessions[sessionId := Trip(0, 0, 0, want.distance, want.tbf)];
        if startOk {
          mOngoingTripDistance, mOngoingTripTBFInterval := want.distance, want.tbf;
        } else {
          mTripSessions := mTripSessions - {sessionId};
        }
      } else {
        restart := JoinTripBatching(sessionId, want, queryOk, reading);
      }
    }

    // The query reply of a session that joins others.
    method JoinTripBatching(sessionId: u32, want: Setting, queryOk: bool, reading: u32) returns (restart: Restart)
      modifies this
      ensures State() == Join(old(State()), sessionId, want, queryOk, reading)
      ensures restart == JoinRestart(old(State()).ongoing, want, queryOk, reading)
    {
      restart := NoRestart;
      var ongoingTripDistance, ongoingTripInterval := mOngoingTripDistance, mOngoingTripTBFInterval;
      var needsRestart := false;
      if ongoingTripInterval > want.tbf {
        ongoingTripInterval, needsRestart := want.tbf, true;
      }
      if !queryOk {
        if want.distance < ongoingTripDistance {
          ongoingTripDistance, needsRestart := want.distance, true;
        }
      } else {
        var remaining := Sub(ongoingTripDistance, reading);
        if want.distance < remaining {
          ongoingTripDistance, needsRestart := want.distance, true;
        } else if needsRestart {
          ongoingTripDistance := remaining;
        }
        mTripSessions := mTripSessions[sessionId := Trip(reading, 0, 0, want.distance, want.tbf)];
      }
      if needsRestart {
        mOngoingTripDistance, mOngoingTripTBFInterval := ongoingTripDistance, ongoingTripInterval;
        FoldSessions();
        restart := RestartWith(Setting(ongoingTripDistance, ongoingTripInterval));
      }
    }

    // Counters of every session are folded before the modem restarts.
    method FoldSessions()
      modifies this`mTripSessions
      ensures mTripSessions == FoldAll(old(mTripSessions))
    {
      var todo := mTripSessions.Keys;
      while todo != {}
        invariant todo <= mTripSessions.Keys == old(mTripSessions).Keys
        invariant forall k :: k in mTripSessions ==>
          mTripSessions[k] == if k in todo then old(mTripSessions)[k] else Folded(old(mTripSessions)[k])
      {
        var k :| k in todo;
        var t := mTripSessions[k];
        mTripSessions := mTripSessions[k := t.(ongoingBatch := 0, onRestart := t.thisTrip)];
        todo := todo - {k};
      }
    }

    method StopTripBatchingMultiplex(sessionId: u32, reading: u32, accepted: bool)
      requires sessionId in mTripSessions
      modifies this
      ensures State() == Stop(old(State()), sessionId, reading, accepted)
    {
      EraseTripSession(sessionId);
      if mTripSessions == map[] {
        mOngoingTripDistance, mOngoingTripTBFInterval := 0, 0;
      } else {
        RestartTripBatching(reading, accepted);
      }
    }

    method EraseTripSession(sessionId: u32)
      requires sessionId in mTripSessions
      modifies this
      ensures State() == Erase(old(State()), sessionId)
    {
      var tripSess := mTripSessions[sessionId];
      if tripSess.tbf == mOngoingTripTBFInterval {
        mTripWithOngoingTBFDropped := true;
      }
      if tripSess.tripDistance == mOngoingTripDistance {
        mTripWithOngoingTripDistanceDropped := true;
      }
      mTripSessions := mTripSessions - {sessionId};
    }

    // A stop followed by a start of the same session: each sends its query before either is answered, so
    // the start's reply is handled between the stop's reply and the answer to the stop's restart.
    method UpdateTripBatching(sessionId: u32, want: Setting, first: u32, accepted: bool, queryOk: bool, second: u32)
      returns (stopsRestart: Restart, startsRestart: Restart)
      requires sessionId in mTripSessions && mTripSessions - {sessionId} != map[]
      modifies this
      ensures State() == UpdateTrip(old(State()), sessionId, want, first, accepted, queryOk, second)
      ensures stopsRestart == StopsRestart(old(State()), sessionId, first)
      ensures startsRestart == JoinRestart(old(State()).ongoing, want, queryOk, second)
    {
      EraseTripSession(sessionId);
      var best := TightestSetting();
      stopsRestart := DecideRestart(best, first);
      startsRestart := JoinTripBatching(sessionId, want, queryOk, second);
      HandleRestartReply(stopsRestart, first, accepted);
    }

    // `reading` is the modem's answer after a stop, and the reported distance after a report.
    method RestartTripBatching(reading: u32, accepted: bool)
      modifies this
      ensures State() == RestartTrips(old(State()), reading, accepted)
    {
      if mTripSessions == map[] {
        mOngoingTripDistance, mOngoingTripTBFInterval := 0, 0;
        return;
      }
      var best := TightestSetting();
      var restart := DecideRestart(best, reading);
      HandleRestartReply(restart, reading, accepted);
    }

    // The query reply.
    method DecideRestart(best: Setting, reading: u32) returns (restart: Restart)
      ensures restart == Retune(State(), best, reading)
    {
      var ongoingTripDistance, ongoingTripInterval := mOngoingTripDistance, mOngoingTripTBFInterval;
      var needsRestart := false;
      var left := Sub(ongoingTripDistance, reading);
      if !mTripWithOngoingTripDistanceDropped && left != 0 {
        if best.distance < left {
          ongoingTripDistance, needsRestart := best.distance, true;
        }
      } else if best.distance != 0 {
        ongoingTripDistance, needsRestart := best.distance, true;
      }
      if best.tbf < ongoingTripInterval || (best.tbf != ongoingTripInterval && mTripWithOngoingTBFDropped) {
        ongoingTripInterval, needsRestart := best.tbf, true;
      }
      restart := if needsRestart then RestartWith(Setting(ongoingTripDistance, ongoingTripInterval)) else NoRestart;
    }

    // The modem's answer to the restart asked for.
    method HandleRestartReply(restart: Restart, reading: u32, accepted: bool)
      modifies this
      ensures State() == Retuned(old(State()), restart, reading, accepted)
    {
      if restart.RestartWith? && accepted {
        RebaseSessions(reading);
        mOngoingTripDistance, mOngoingTripTBFInterval := restart.setting.distance, restart.setting.tbf;
      }
    }

    // The minima over all sessions, in the order std::map visits them.
    method TightestSetting() returns (best: Setting)
      ensures best == Tightest(mTripSessions)
    {
      best := Setting(0, 0);
      var todo := mTripSessions.Keys;
      while todo != {}
        invariant todo <= mTripSessions.Keys
        invariant TightestFrom(mTripSessions, todo, best) == Tightest(mTripSessions)
      {
        LeastExists(todo);
        var k :| k in todo && forall j :: j in todo ==> k <= j;
        assert k == Least(todo);
        best := Tighten(best, mTripSessions[k]);
        todo := todo - {k};
      }
    }

    method RebaseSessions(reading: u32)
      modifies this`mTripSessions
      ensures mTripSessions == RebaseAll(old(mTripSessions), reading)
    {
      var todo := mTripSessions.Keys;
      while todo != {}
        invariant todo <= mTripSessions.Keys == old(mTripSessions).Keys
        invariant forall k :: k in mTripSessions ==>
          mTripSessions[k] == if k in todo then old(mTripSessions)[k] else Rebased(old(mTripSessions)[k], reading)
      {
        var k :| k in todo;
        var t := mTripSessions[k];
        var total := Add(t.onRestart, Sub(reading, t.ongoingBatch));
        mTripSessions := mTripSessions[k := t.(thisTrip := total, ongoingBatch := 0, onRestart := total)];
        todo := todo - {k};
      }
    }

    // Handles one distance report; `done` lists the trips announced as completed.
    method ReportCompletedTrips(accumulatedDistance: u32, accepted: bool) returns (done: set<u32>)
      modifies this
      ensures done == Completed(old(State()), accumulatedDistance)
      ensures State() == Report(old(State()), accumulatedDistance, accepted)
    {
      done := CountSessions(accumulatedDistance);
      if done != {} {
        RestartTripBatching(accumulatedDistance, accepted);
      }
    }

    method CountSessions(reading: u32) returns (done: set<u32>)
      modifies this
      ensures done == Completed(old(State()), reading)
      ensures State() == Drop(old(State()), reading)
    {
      done := {};
      ghost var was := State();
      var todo := mTripSessions.Keys;
      while todo != {}
        invariant todo !! done && todo <= mTripSessions.Keys && todo + done <= was.trips.Keys
        invariant mTripSessions.Keys == was.trips.Keys - done
        invariant done == Completed(was, reading) - todo
        invariant forall k :: k in mTripSessions ==>
          mTripSessions[k] == if k in todo then was.trips[k] else Counted(was.trips[k], reading)
        invariant State().ongoing == was.ongoing
        invariant mTripWithOngoingTBFDropped ==
          (was.tbfDropped || exists k :: k in done && was.trips[k].tbf == was.ongoing.tbf)
        invariant mTripWithOngoingTripDistanceDropped ==
          (was.distanceDropped || exists k :: k in done && was.trips[k].tripDistance == was.ongoing.distance)
      {
        var k :| k in todo;
        var t := mTripSessions[k];
        t := t.(thisTrip := Add(t.onRestart, Sub(reading, t.ongoingBatch)));
        if t.tripDistance <= t.thisTrip {
          done := done + {k};
          mTripSessions := mTripSessions - {k};
          if t.tbf == mOngoingTripTBFInterval {
            mTripWithOngoingTBFDropped := true;
          }
          if t.tripDistance == mOngoingTripDistance {
            mTripWithOngoingTripDistanceDropped := true;
          }
        } else {
          mTripSessions := mTripSessions[k := t];
        }
        todo := todo - {k};
      }
      assert mTripSessions == CountAll(was.trips, reading) - done;
    }
  }
}
