// On-demand position injection: the modem's START and STOP requests are passed to the framework, and a
// timer keeps quick successions of them from flooding it.
module Odcpi {

  datatype Kind = Start | Stop | Other

  datatype Request = Request(kind: Kind, tbfMillis: nat, emergency: bool)

  // What the framework hears, and the timer expiries handled.  A start carries the request that was
  // stored when it was sent.
  datatype Entry = Started(request: Request, stored: Request) | Stopped | Expired

  // `callback` is 0 while no framework callback is registered.
  datatype Session = Session(callback: nat, priority: nat, active: bool, timer: bool, stored: Request, log: seq<Entry>)

  datatype Event =
    | Init(callback: nat, priority: nat)
    | Ask(request: Request)
    | Expire
    | ModemRestart

  const INITIAL := Session(0, 0, false, false, Request(Start, 0, false), [])

  predicate Upgrade(stored: Request, request: Request) {
    !stored.emergency && request.emergency
  }

  function Asked(s: Session, r: Request): Session {
    match r.kind
    case Start =>
      var idle := !s.active && !s.timer;
      var sends := idle || Upgrade(s.stored, r);
      s.(active := s.active || sends || s.timer,
         timer := s.timer || sends,
         stored := r,
         log := if sends then s.log + [Started(r, s.stored)] else s.log)
    case Stop => s.(active := false, log := s.log + [Stopped])
    case Other => s
  }

  function Step(s: Session, e: Event): Session {
    match e
    case Init(callback, priority) =>
      if priority >= s.priority then s.(callback := callback, priority := priority) else s
    case Ask(r) => if s.callback == 0 then s else Asked(s, r)
    case Expire =>
      s.(timer := s.active, log := s.log + if s.active then [Expired, Started(s.stored, s.stored)] else [Expired])
    case ModemRestart => s.(active := false)
  }

  // Callbacks registered are real ones.
  predicate Legal(events: seq<Event>) {
    forall e :: e in events && e.Init? ==> e.callback != 0
  }

  function Run(s: Session, events: seq<Event>): Session
    decreases |events|
  {
    if events == [] then s else Step(Run(s, events[..|events| - 1]), events[|events| - 1])
  }

  // ---- throttling ----

  predicate ExpiredBetween(log: seq<Entry>, i: int, j: int)
    requires 0 <= i <= j <= |log|
  {
    exists k :: i <= k < j && log[k].Expired?
  }

  // Every start before `j` is followed by an expiry before `j`.
  predicate Rested(log: seq<Entry>, j: nat)
    requires j <= |log|
  {
    forall i :: 0 <= i < j && log[i].Started? ==> ExpiredBetween(log, i, j)
  }

  // Between two starts there is an expiry, unless the later one upgrades the stored request.
  predicate Throttled(log: seq<Entry>) {
    forall j :: 0 <= j < |log| && log[j].Started? && !Upgrade(log[j].stored, log[j].request) ==> Rested(log, j)
  }

  // An active request has a running timer and a listener; with the timer stopped the last start has
  // been followed by an expiry.
  predicate Sane(s: Session) {
    && (s.active ==> s.timer && s.callback != 0)
    && (!s.timer ==> Rested(s.log, |s.log|))
  }

  lemma Extended(log: seq<Entry>, more: seq<Entry>, j: nat)
    requires j <= |log|
    ensures Rested(log + more, j) == Rested(log, j)
  {
    var all := log + more;
    forall i | 0 <= i < j && log[i].Started?
      ensures ExpiredBetween(all, i, j) == ExpiredBetween(log, i, j)
    {
      if k :| i <= k < j && log[k].Expired? {
        assert all[k].Expired?;
      }
      if k :| i <= k < j && all[k].Expired? {
        assert log[k].Expired?;
      }
    }
    assert forall i :: 0 <= i < j ==> all[i] == log[i];
  }

  lemma AppendKeepsThrottled(log: seq<Entry>, entry: Entry)
    requires Throttled(log)
    requires entry.Started? ==> Upgrade(entry.stored, entry.request) || Rested(log, |log|)
    ensures Throttled(log + [entry])
    ensures entry.Stopped? && Rested(log, |log|) ==> Rested(log + [entry], |log| + 1)
    ensures entry.Expired? ==> Rested(log + [entry], |log| + 1)
  {
    var all := log + [entry];
    forall j | 0 <= j < |all| && all[j].Started? && !Upgrade(all[j].stored, all[j].request)
      ensures Rested(all, j)
    {
      Extended(log, [entry], j);
    }
    if entry.Expired? {
      assert all[|log|].Expired?;
    }
    if entry.Stopped? && Rested(log, |log|) {
      Extended(log, [entry], |log|);
      forall i | 0 <= i < |log| + 1 && all[i].Started?
        ensures ExpiredBetween(all, i, |log| + 1)
      {
        assert ExpiredBetween(all, i, |log|);
        var k :| i <= k < |log| && all[k].Expired?;
      }
    }
  }

  lemma StepIsThrottled(s: Session, e: Event)
    requires Sane(s) && Throttled(s.log) && Legal([e])
    ensures Sane(Step(s, e)) && Throttled(Step(s, e).log)
  {
    match e
    case Init(_, _) =>
      assert e in [e];
    case ModemRestart =>
    case Ask(r) =>
      if s.callback != 0 && r.kind == Stop {
        AppendKeepsThrottled(s.log, Stopped);
      } else if Step(s, e).log != s.log {
        AppendKeepsThrottled(s.log, Started(r, s.stored));
      }
    case Expire =>
      AppendKeepsThrottled(s.log, Expired);
      if s.active {
        AppendKeepsThrottled(s.log + [Expired], Started(s.stored, s.stored));
        assert s.log + [Expired, Started(s.stored, s.stored)] == s.log + [Expired] + [Started(s.stored, s.stored)];
      }
  }

  // Over every run, modem restarts included.
  lemma {:induction false} RunIsThrottled(events: seq<Event>)
    requires Legal(events)
    ensures Sane(Run(INITIAL, events)) && Throttled(Run(INITIAL, events).log)
    decreases |events|
  {
    if events != [] {
      var front, last := events[..|events| - 1], events[|events| - 1];
      RunIsThrottled(front);
      StepIsThrottled(Run(INITIAL, front), last);
    }
  }

  // ---- no request is lost to the throttle ----

  // The request an expiry will re-send after further requests.
  function Latest(r: Request, later: seq<Event>): Request
    decreases |later|
  {
    if later == [] then r
    else
      var last := later[|later| - 1];
      if last.Ask? && last.request.kind == Start then last.request else Latest(r, later[..|later| - 1])
  }

  // A START request, sent at once or held back, is sent again by every expiry until it is stopped, the
  // modem restarts or another START takes its place.
  lemma {:induction false} HeldRequestIsServed(before: seq<Event>, r: Request, later: seq<Event>)
    requires Legal(before) && Run(INITIAL, before).callback != 0 && r.kind == Start
    requires forall e :: e in later ==>
               !e.ModemRestart? && (e.Ask? ==> e.request.kind != Stop) && (e.Init? ==> e.callback != 0)
    ensures var s := Run(Step(Run(INITIAL, before), Ask(r)), later);
            s.active && s.callback != 0 && s.stored == Latest(r, later) &&
            Step(s, Expire).timer &&
            Step(s, Expire).log == s.log + [Expired, Started(Latest(r, later), Latest(r, later))]
    decreases |later|
  {
    if later == [] {
      RunIsThrottled(before);
    } else {
      HeldRequestIsServed(before, r, later[..|later| - 1]);
    }
  }

  // The timer runs exactly while some start has not been followed by an expiry.
  lemma StepKeepsTimer(s: Session, e: Event)
    requires Sane(s) && (s.timer <==> !Rested(s.log, |s.log|))
    ensures var end := Step(s, e);
            end.timer <==> !Rested(end.log, |end.log|)
  {
    match e
    case Init(_, _) =>
    case ModemRestart =>
    case Ask(r) =>
      if Step(s, e).log != s.log {
        RestedAfter(s.log, if r.kind == Stop then Stopped else Started(r, s.stored));
      }
    case Expire =>
      RestedAfter(s.log, Expired);
      if s.active {
        RestedAfter(s.log + [Expired], Started(s.stored, s.stored));
        assert s.log + [Expired, Started(s.stored, s.stored)] == s.log + [Expired] + [Started(s.stored, s.stored)];
      }
  }

  lemma RestedAfter(log: seq<Entry>, entry: Entry)
    ensures Rested(log + [entry], |log| + 1) <==> entry.Expired? || (entry.Stopped? && Rested(log, |log|))
  {
    var all := log + [entry];
    match entry
    case Expired =>
      assert all[|log|].Expired?;
    case Started(_, _) =>
      assert all[|log|].Started? && !ExpiredBetween(all, |log|, |log| + 1);
    case Stopped =>
      Extended(log, [entry], |log|);
      forall i | 0 <= i < |log|
        ensures ExpiredBetween(all, i, |log| + 1) <==> ExpiredBetween(all, i, |log|)
      {
        if k :| i <= k < |log| && all[k].Expired? {
          assert ExpiredBetween(all, i, |log| + 1);
        }
      }
  }

  lemma {:induction false} TimerIsUnrested(events: seq<Event>)
    requires Legal(events)
    ensures var s := Run(INITIAL, events);
            s.timer <==> !Rested(s.log, |s.log|)
    decreases |events|
  {
    if events != [] {
      var front, last := events[..|events| - 1], events[|events| - 1];
      TimerIsUnrested(front);
      RunIsThrottled(front);
      StepKeepsTimer(Run(INITIAL, front), last);
    }
  }

  // The latest START that somebody listened to.
  function LastStart(events: seq<Event>): Request
    decreases |events|
  {
    if events == [] then INITIAL.stored
    else
      var front, last := events[..|events| - 1], events[|events| - 1];
      if last.Ask? && last.request.kind == Start && Run(INITIAL, front).callback != 0 then last.request
      else LastStart(front)
  }

  lemma {:induction false} StoredIsLast(events: seq<Event>)
    ensures Run(INITIAL, events).stored == LastStart(events)
    decreases |events|
  {
    if events != [] {
      StoredIsLast(events[..|events| - 1]);
    }
  }

  // A START is passed on at once exactly when every earlier start has been followed by an expiry, or when
  // it is an emergency and the latest one was not; a STOP always is; other requests, and any request that
  // nobody listens to, never are.
  lemma AskedIsAnswered(events: seq<Event>, r: Request)
    requires Legal(events)
    ensures var s := Run(INITIAL, events);
            Step(s, Ask(r)).log ==
            if s.callback == 0 || r.kind == Other then s.log
            else if r.kind == Stop then s.log + [Stopped]
            else if Rested(s.log, |s.log|) || (r.emergency && !LastStart(events).emergency)
            then s.log + [Started(r, LastStart(events))]
            else s.log
  {
    RunIsThrottled(events);
    TimerIsUnrested(events);
    StoredIsLast(events);
  }

  // After a STOP or a modem restart the timer expires without sending anything, until the next START.
  lemma {:induction false} StoppedIsQuiet(before: seq<Event>, stop: Event, later: seq<Event>)
    requires Run(INITIAL, before).callback != 0
    requires stop.ModemRestart? || (stop.Ask? && stop.request.kind == Stop)
    requires forall e :: e in later && e.Ask? ==> e.request.kind != Start
    ensures var s := Run(Step(Run(INITIAL, before), stop), later);
            !s.active && Step(s, Expire).log == s.log + [Expired] && !Step(s, Expire).timer
    decreases |later|
  {
    if later != [] {
      StoppedIsQuiet(before, stop, later[..|later| - 1]);
      assert later[|later| - 1] in later;
    }
  }

  // ---- who listens ----

  // The listener is the latest of those registered with the highest priority.
  ghost predicate Listens(s: Session, events: seq<Event>) {
    && (forall e :: e in events && e.Init? ==> e.priority <= s.priority)
    && if forall e :: e in events ==> !e.Init? then s.callback == 0 && s.priority == 0
       else exists k :: LastOfPriority(events, k, s.callback, s.priority)
  }

  predicate LastOfPriority(events: seq<Event>, k: int, callback: nat, priority: nat) {
    && 0 <= k < |events| && events[k] == Init(callback, priority)
    && forall j :: k < j < |events| && events[j].Init? ==> events[j].priority < priority
  }

  lemma {:induction false} HighestListens(events: seq<Event>)
    ensures Listens(Run(INITIAL, events), events)
    decreases |events|
  {
    if events != [] {
      var front, last := events[..|events| - 1], events[|events| - 1];
      HighestListens(front);
      var s, end := Run(INITIAL, front), Run(INITIAL, events);
      assert forall e :: e in events <==> e in front || e == last;
      if last.Init? && last.priority >= s.priority {
        assert LastOfPriority(events, |front|, end.callback, end.priority);
      } else if exists e :: e in front && e.Init? {
        var k :| LastOfPriority(front, k, s.callback, s.priority);
        assert LastOfPriority(events, k, end.callback, end.priority);
      }
    }
  }

  // ---- what the throttle does not hold back ----

  function Alternating(n: nat, calm: Request, urgent: Request): seq<Event> {
    if n == 0 then [] else Alternating(n - 1, calm, urgent) + [Ask(calm), Ask(urgent)]
  }

  lemma RunAppend(s: Session, events: seq<Event>, a: Event, b: Event)
    ensures Run(s, events + [a, b]) == Step(Step(Run(s, events), a), b)
  {
    var all := events + [a, b];
    assert all[..|all| - 1] == events + [a];
    assert (events + [a])[..|events|] == events;
  }

  // Without any expiry the framework is started as often as an emergency request follows another one.
  lemma {:induction false} AlternationIsNotThrottled(s: Session, n: nat, calm: Request, urgent: Request)
    requires s.callback != 0 && calm.kind == Start && urgent.kind == Start && !calm.emergency && urgent.emergency
    requires s.timer && s.active && s.stored.emergency
    ensures var t := Run(s, Alternating(n, calm, urgent));
            t.callback != 0 && t.timer && t.active && t.stored.emergency &&
            t.log == s.log + seq(n, _ => Started(urgent, calm))
  {
    if n == 0 {
      assert s.log + seq(n, _ => Started(urgent, calm)) == s.log;
    } else {
      AlternationIsNotThrottled(s, n - 1, calm, urgent);
      RunAppend(s, Alternating(n - 1, calm, urgent), Ask(calm), Ask(urgent));
      assert seq(n, _ => Started(urgent, calm)) == seq(n - 1, _ => Started(urgent, calm)) + [Started(urgent, calm)];
    }
  }

  // ---- the adapter as it runs ----

  class OdcpiTimer {
    var mActive: bool

    constructor ()
      ensures !mActive
    {
      mActive := false;
    }

    method Start()
      modifies this
      ensures mActive
    {
      mActive := true;
    }

    method Stop()
      modifies this
      ensures !mActive
    {
      mActive := false;
    }

    method Restart()
      modifies this
      ensures mActive
    {
      Stop();
      Start();
    }
  }

  class GnssAdapter {
    var mOdcpiRequestCb: nat
    var mCallbackPriority: nat
    var mOdcpiRequestActive: bool
    const mOdcpiTimer: OdcpiTimer
    var mOdcpiRequest: Request
    var log: seq<Entry>    // callbacks made and expiries handled

    ghost function State(): Session
      reads this, mOdcpiTimer
    {
      Session(mOdcpiRequestCb, mCallbackPriority, mOdcpiRequestActive, mOdcpiTimer.mActive, mOdcpiRequest, log)
    }

    constructor ()
      ensures State() == INITIAL && Sane(State()) && fresh(mOdcpiTimer)
    {
      mOdcpiRequestCb, mCallbackPriority, mOdcpiRequestActive := 0, 0, false;
      mOdcpiRequest, log := Request(Start, 0, false), [];
      mOdcpiTimer := new OdcpiTimer();
    }

    method InitOdcpi(callback: nat, priority: nat)
      modifies this
      ensures State() == Step(old(State()), Init(callback, priority))
    {
      if priority >= mCallbackPriority {
        mOdcpiRequestCb := callback;
        mCallbackPriority := priority;
      }
    }

    method RequestOdcpi(request: Request)
      modifies this, mOdcpiTimer
      ensures State() == Step(old(State()), Ask(request))
    {
      if mOdcpiRequestCb != 0 {
        if request.kind == Start {
          if !mOdcpiRequestActive && !mOdcpiTimer.mActive {
            log := log + [Started(request, mOdcpiRequest)];
            mOdcpiRequestActive := true;
            mOdcpiTimer.Start();
          } else if !mOdcpiRequest.emergency && request.emergency {
            log := log + [Started(request, mOdcpiRequest)];
            mOdcpiRequestActive := true;
            if mOdcpiTimer.mActive {
              mOdcpiTimer.Restart();
            } else {
              mOdcpiTimer.Start();
            }
          } else if !mOdcpiRequestActive && mOdcpiTimer.mActive {
            mOdcpiRequestActive := true;
          }
          mOdcpiRequest := request;
        } else if request.kind == Stop {
          log := log + [Stopped];
          mOdcpiRequestActive := false;
        }
      }
    }

    method OdcpiTimerExpire()
      modifies this`log, mOdcpiTimer
      ensures State() == Step(old(State()), Expire)
    {
      log := log + [Expired];
      if mOdcpiRequestActive {
        log := log + [Started(mOdcpiRequest, mOdcpiRequest)];
        mOdcpiTimer.Restart();
      } else {
        mOdcpiTimer.Stop();
      }
    }

    // What a modem restart does to the session.
    method RestartSessions(modemSSR: bool)
      modifies this`mOdcpiRequestActive
      ensures State() == if modemSSR then Step(old(State()), ModemRestart) else old(State())
    {
      if modemSSR {
        mOdcpiRequestActive := false;
      }
    }
  }
}
