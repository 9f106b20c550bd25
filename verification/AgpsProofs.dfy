// What every run of the AGPS state machine keeps.
module AgpsProofs {
  import opened AgpsModel

  // ---- facts about the list operations ----

  ghost predicate Distinct(subs: seq<Subscriber>) {
    forall i, j :: 0 <= i < j < |subs| ==> subs[i].ticket.handle != subs[j].ticket.handle
  }

  lemma DistinctWith(subs: seq<Subscriber>, last: Subscriber)
    requires Distinct(subs) && forall s :: s in subs ==> s.ticket.handle != last.ticket.handle
    ensures Distinct(subs + [last])
  {
    assert forall i :: 0 <= i < |subs| ==> subs[i] in subs;
  }

  lemma DistinctLast(subs: seq<Subscriber>)
    requires Distinct(subs) && subs != []
    ensures forall s :: s in subs[..|subs| - 1] ==> s.ticket.handle != subs[|subs| - 1].ticket.handle
  {
  }

  lemma {:induction false} SparedMembers(subs: seq<Subscriber>, which: Which)
    ensures forall s :: s in Spared(subs, which) <==> s in subs && !Meant(which, s)
    ensures Distinct(subs) ==> Distinct(Spared(subs, which))
    ensures which == All ==> Spared(subs, which) == []
    ensures which == Inactive && !AnyActive(Spared(subs, which)) ==> Spared(subs, which) == []
    decreases |subs|
  {
    if subs != [] {
      var front, last := subs[..|subs| - 1], subs[|subs| - 1];
      SparedMembers(front, which);
      assert forall s :: s in subs <==> s in front || s == last;
      if Distinct(subs) {
        DistinctLast(subs);
        DistinctWith(Spared(front, which), last);
      }
      if !Meant(which, last) {
        assert last in Spared(subs, which);
      }
    }
  }

  lemma {:induction false} OthersMembers(subs: seq<Subscriber>, handle: int)
    ensures forall s :: s in Others(subs, handle) <==> s in subs && s.ticket.handle != handle
    ensures Distinct(subs) ==> Distinct(Others(subs, handle))
    decreases |subs|
  {
    if subs != [] {
      var front, last := subs[..|subs| - 1], subs[|subs| - 1];
      OthersMembers(front, handle);
      assert forall s :: s in subs <==> s in front || s == last;
      if Distinct(subs) {
        DistinctLast(subs);
        DistinctWith(Others(front, handle), last);
      }
    }
  }

  lemma {:induction false} DeactivatedMembers(subs: seq<Subscriber>, handle: int)
    requires Distinct(subs) && Listed(subs, handle)
    ensures |Deactivated(subs, handle)| == |subs| && First(subs, handle) in subs
    ensures First(subs, handle).ticket.handle == handle
    ensures forall i :: 0 <= i < |subs| ==>
              Deactivated(subs, handle)[i] ==
              if subs[i].ticket.handle == handle then subs[i].(inactive := true) else subs[i]
  {
    if subs[0].ticket.handle != handle {
      var rest := subs[1..];
      DeactivatedMembers(rest, handle);
      forall i | 0 < i < |subs|
        ensures subs[i] == rest[i - 1] && Deactivated(subs, handle)[i] == Deactivated(rest, handle)[i - 1]
      {
      }
    }
  }

  lemma {:induction false} NoticesMembers(subs: seq<Subscriber>, notice: Notice, which: Which)
    ensures forall e :: e in Notices(subs, notice, which) <==>
              exists s :: s in subs && Meant(which, s) && e == Entered(notice, s)
    decreases |subs|
  {
    if subs != [] {
      NoticesMembers(subs[..|subs| - 1], notice, which);
      var last := subs[|subs| - 1];
      assert forall s :: s in subs <==> s in subs[..|subs| - 1] || s == last;
    }
  }

  // ---- who is in the list, and what they have been told ----

  // A GRANTED notice has reached the subscriber since the request that made it join.
  ghost predicate Told(log: seq<Entry>, s: Subscriber) {
    exists n :: s.since <= n < |log| && log[n] == Granted(s.ticket.handle)
  }

  ghost predicate Orderly(m: Machine) {
    && Distinct(m.subs)
    && (m.state == Released ==> m.subs == [])
    && (forall s :: s in m.subs ==> s.since <= |m.log|)
    && (forall s :: s in m.subs && !s.inactive ==> (Told(m.log, s) <==> m.state == Acquired))
  }

  lemma ToldLater(log: seq<Entry>, more: seq<Entry>, s: Subscriber)
    requires s.since <= |log|
    ensures Told(log + more, s) <==> Told(log, s) || Granted(s.ticket.handle) in more
  {
    var all := log + more;
    if Granted(s.ticket.handle) in more {
      var n :| 0 <= n < |more| && more[n] == Granted(s.ticket.handle);
      assert all[|log| + n] == Granted(s.ticket.handle);
    }
    if n :| s.since <= n < |log| && log[n] == Granted(s.ticket.handle) {
      assert all[n] == log[n];
    }
    if n :| s.since <= n < |all| && all[n] == Granted(s.ticket.handle) {
      assert if n < |log| then log[n] == all[n] else more[n - |log|] == all[n];
    }
  }

  // Entries that grant nothing leave everybody as well informed as before.
  lemma SayIsOrderly(m: Machine, entries: seq<Entry>)
    requires Orderly(m) && forall e :: e in entries ==> !e.Granted?
    ensures Orderly(Say(m, entries))
  {
    forall s | s in m.subs
      ensures Told(m.log + entries, s) <==> Told(m.log, s)
    {
      ToldLater(m.log, entries, s);
    }
  }

  lemma AddIsOrderly(m: Machine, handle: int, waitForClose: bool, since: nat)
    requires Orderly(m) && m.state != Released && since <= |m.log|
    requires if m.state == Acquired then since < |m.log| && m.log[since] == Granted(handle) else since == |m.log|
    ensures Orderly(AddSubscriber(m, handle, waitForClose, since))
  {
    var end := AddSubscriber(m, handle, waitForClose, since);
    if !Listed(m.subs, handle) {
      var s := end.subs[|m.subs|];
      SayIsOrderly(m, [Joined(s.ticket)]);
      DistinctWith(m.subs, s);
      assert end.log[since] == if m.state == Acquired then Granted(handle) else Joined(s.ticket);
      assert forall x :: x in end.subs ==> x in m.subs || x == s;
    }
  }

  lemma SubscribeIsOrderly(m: Machine, handle: int, waitForClose: bool)
    requires Orderly(m)
    ensures Orderly(Subscribe(m, handle, waitForClose))
  {
    match m.state
    case Released =>
      AddIsOrderly(m.(state := Pending), handle, waitForClose, |m.log|);
      SayIsOrderly(AddSubscriber(m, handle, waitForClose, |m.log|).(state := Pending), [Request]);
    case Pending => AddIsOrderly(m, handle, waitForClose, |m.log|);
    case Acquired =>
      var told := Say(m, [Granted(handle)]);
      forall s | s in m.subs
        ensures Told(m.log, s) ==> Told(told.log, s)
      {
        ToldLater(m.log, [Granted(handle)], s);
      }
      AddIsOrderly(told, handle, waitForClose, |m.log|);
    case Releasing => AddIsOrderly(m, handle, waitForClose, |m.log|);
  }

  lemma LeaveIsOrderly(m: Machine, handle: int)
    requires Orderly(m) && Listed(m.subs, handle)
    ensures Orderly(Leave(m, handle))
  {
    DeactivatedMembers(m.subs, handle);
    OthersMembers(m.subs, handle);
    SayIsOrderly(m, [Closed(First(m.subs, handle).ticket)]);
  }

  lemma NotifyIsOrderly(m: Machine, notice: Notice, which: Which)
    requires Orderly(m) && notice != GrantedNotice
    ensures Orderly(NotifyAll(m, notice, true, which))
  {
    NoticesMembers(m.subs, notice, which);
    SayIsOrderly(m, Notices(m.subs, notice, which));
    SparedMembers(m.subs, which);
  }

  lemma AfterReleaseIsOrderly(m: Machine)
    requires Orderly(m) && m.state == Releasing
    ensures Orderly(AfterRelease(m))
  {
    NotifyIsOrderly(m, ReleasedNotice, Inactive);
    var told := NotifyAll(m, ReleasedNotice, true, Inactive);
    SparedMembers(m.subs, Inactive);
    if AnyActive(told.subs) {
      SayIsOrderly(told.(state := Pending), [Request]);
    }
  }

  lemma GrantIsOrderly(m: Machine)
    requires Orderly(m)
    ensures Orderly(OnGranted(m))
  {
    SayIsOrderly(m, [FwGranted]);
    if m.state == Pending {
      var heard := Say(m, [FwGranted]);
      NoticesMembers(m.subs, GrantedNotice, Active);
      forall s | s in m.subs && !s.inactive
        ensures Told(OnGranted(m).log, s)
      {
        assert Entered(GrantedNotice, s) in Notices(m.subs, GrantedNotice, Active);
        ToldLater(heard.log, Notices(m.subs, GrantedNotice, Active), s);
      }
    }
  }

  lemma EndIsOrderly(m: Machine, notice: Notice, entry: Entry)
    requires Orderly(m) && notice != GrantedNotice && !entry.Granted?
    ensures Orderly(NotifyAll(Say(m, [entry]).(state := Released), notice, true, All))
  {
    SparedMembers(m.subs, All);
  }

  lemma StepIsOrderly(m: Machine, e: Event)
    requires Orderly(m)
    ensures Orderly(Step(m, e))
  {
    match e
    case SubscribeEv(h, w) => SubscribeIsOrderly(m, h, w);
    case UnsubscribeEv(h) =>
      if Listed(m.subs, h) && m.state != Released {
        LeaveIsOrderly(m, h);
        var left := Leave(m, h);
        if !AnyActive(left.subs) && m.state != Releasing {
          SayIsOrderly(left.(state := if left.subs == [] then Released else Releasing), [Release]);
        }
      } else {
        SayIsOrderly(m, [ClosedUnknown(h)]);
      }
    case GrantedEv => GrantIsOrderly(m);
    case ReleasedEv =>
      SayIsOrderly(m, [FwReleased]);
      if m.state == Acquired { EndIsOrderly(m, ReleasedNotice, FwReleased); }
      if m.state == Releasing { AfterReleaseIsOrderly(Say(m, [FwReleased])); }
    case DeniedEv =>
      SayIsOrderly(m, [FwDenied]);
      if m.state == Pending { EndIsOrderly(m, DeniedNotice, FwDenied); }
      if m.state == Releasing { AfterReleaseIsOrderly(Say(m, [FwDenied])); }
    case ModemRestart =>
  }

  lemma {:induction false} RunIsOrderly(m: Machine, es: seq<Event>)
    requires Orderly(m)
    ensures Orderly(Run(m, es))
    decreases |es|
  {
    if es != [] {
      StepIsOrderly(m, es[0]);
      RunIsOrderly(Step(m, es[0]), es[1..]);
    }
  }

  // ---- until the modem restarts ----

  // The connection is wanted by somebody, or being closed for somebody.
  ghost predicate Served(m: Machine) {
    && (m.state == Pending || m.state == Acquired ==> AnyActive(m.subs))
    && (m.state == Releasing ==> m.subs != [])
  }

  lemma StepIsServed(m: Machine, e: Event)
    requires Orderly(m) && Served(m) && e != ModemRestart
    ensures Served(Step(m, e))
  {
    StepIsOrderly(m, e);
    match e
    case SubscribeEv(h, w) =>
      var s := Subscriber(Ticket(h, m.next), w, false, |m.log|);
      if m.state == Released {
        assert s in Step(m, e).subs;
      } else if x :| x in m.subs && !x.inactive {
        assert x in Step(m, e).subs;
      }
    case UnsubscribeEv(h) =>
    case GrantedEv =>
    case ReleasedEv => SparedMembers(m.subs, Inactive);
    case DeniedEv => SparedMembers(m.subs, Inactive);
  }

  lemma {:induction false} RunIsServed(m: Machine, es: seq<Event>)
    requires Orderly(m) && Served(m) && ModemRestart !in es
    ensures Served(Run(m, es))
    decreases |es|
  {
    if es != [] {
      StepIsOrderly(m, es[0]);
      StepIsServed(m, es[0]);
      RunIsServed(Step(m, es[0]), es[1..]);
    }
  }

  // ---- the connection commands, as the framework sees them ----

  // The framework's end of the line, from what it says and hears alone.
  datatype Line = Broken | Idle | Wanted(up: bool)

  function Hear(line: Line, e: Entry): Line {
    match e
    case Request => if line == Idle then Wanted(false) else Broken
    case Release => if line.Wanted? then Idle else Broken
    case FwGranted => if line == Wanted(false) then Wanted(true) else line
    case FwDenied => if line == Wanted(false) then Idle else line
    case FwReleased => if line == Wanted(true) then Idle else line
    case _ => line
  }

  function Watch(line: Line, log: seq<Entry>): Line
    decreases |log|
  {
    if log == [] then line else Hear(Watch(line, log[..|log| - 1]), log[|log| - 1])
  }

  function LineOf(state: State): Line {
    match state
    case Released => Idle
    case Pending => Wanted(false)
    case Acquired => Wanted(true)
    case Releasing => Idle
  }

  lemma {:induction false} WatchMore(line: Line, log: seq<Entry>, more: seq<Entry>)
    ensures Watch(line, log + more) == Watch(Watch(line, log), more)
    decreases |more|
  {
    var all := log + more;
    if more == [] {
      assert all == log;
    } else {
      WatchMore(line, log, more[..|more| - 1]);
      assert all[..|all| - 1] == log + more[..|more| - 1];
    }
  }

  ghost predicate Quiet(entries: seq<Entry>) {
    forall e, line :: e in entries ==> Hear(line, e) == line
  }

  lemma {:induction false} QuietIsUnheard(line: Line, entries: seq<Entry>)
    requires Quiet(entries)
    ensures Watch(line, entries) == line
    decreases |entries|
  {
    if entries != [] {
      QuietIsUnheard(line, entries[..|entries| - 1]);
      assert entries[|entries| - 1] in entries;
    }
  }

  lemma {:induction false} DropsMembers(subs: seq<Subscriber>)
    ensures forall e :: e in Drops(subs) ==> e.Dropped?
    decreases |subs|
  {
    if subs != [] {
      DropsMembers(subs[..|subs| - 1]);
    }
  }

  ghost predicate Bracketed(m: Machine) {
    Watch(Idle, m.log) == LineOf(m.state)
  }

  lemma HeardOne(log: seq<Entry>, e: Entry)
    ensures Watch(Idle, log + [e]) == Hear(Watch(Idle, log), e)
  {
    assert (log + [e])[..|log|] == log;
  }

  lemma SayHeard(m: Machine, entry: Entry)
    ensures Watch(Idle, Say(m, [entry]).log) == Hear(Watch(Idle, m.log), entry)
  {
    HeardOne(m.log, entry);
  }

  lemma SayQuiet(m: Machine, entries: seq<Entry>)
    requires Quiet(entries)
    ensures Watch(Idle, Say(m, entries).log) == Watch(Idle, m.log)
  {
    WatchMore(Idle, m.log, entries);
    QuietIsUnheard(Watch(Idle, m.log), entries);
  }

  lemma NotifyQuiet(m: Machine, notice: Notice, delete: bool, which: Which)
    ensures Watch(Idle, NotifyAll(m, notice, delete, which).log) == Watch(Idle, m.log)
  {
    NoticesMembers(m.subs, notice, which);
    SayQuiet(m, Notices(m.subs, notice, which));
  }

  lemma AddQuiet(m: Machine, handle: int, waitForClose: bool, since: nat)
    ensures Watch(Idle, AddSubscriber(m, handle, waitForClose, since).log) == Watch(Idle, m.log)
  {
    HeardOne(m.log, Joined(Ticket(handle, m.next)));
  }

  lemma AfterReleaseIsBracketed(m: Machine)
    requires Watch(Idle, m.log) == Idle
    ensures Bracketed(AfterRelease(m))
  {
    NotifyQuiet(m, ReleasedNotice, true, Inactive);
    SayHeard(NotifyAll(m, ReleasedNotice, true, Inactive), Request);
  }

  lemma LeaveQuiet(m: Machine, h: int)
    requires Listed(m.subs, h)
    ensures Watch(Idle, Leave(m, h).log) == Watch(Idle, m.log)
  {
    SayHeard(m, Closed(First(m.subs, h).ticket));
  }

  lemma AfterLeaveIsBracketed(left: Machine)
    requires Bracketed(left) && left.state != Released
    ensures Bracketed(AfterLeave(left))
  {
    SayHeard(left, Release);
  }

  lemma UnsubscribeIsBracketed(m: Machine, h: int)
    requires Bracketed(m)
    ensures Bracketed(Unsubscribe(m, h))
  {
    if Listed(m.subs, h) {
      if m.state == Released {
        SayHeard(m, ClosedUnknown(h));
      } else {
        LeaveQuiet(m, h);
        AfterLeaveIsBracketed(Leave(m, h));
      }
    }
  }

  lemma SubscribeIsBracketed(m: Machine, h: int, w: bool)
    requires Bracketed(m)
    ensures Bracketed(Subscribe(m, h, w))
  {
    if m.state == Acquired {
      SayHeard(m, Granted(h));
      AddQuiet(Say(m, [Granted(h)]), h, w, |m.log|);
    } else {
      AddQuiet(m, h, w, |m.log|);
      RequestIsBracketed(AddSubscriber(m, h, w, |m.log|));
    }
  }

  lemma RequestIsBracketed(m: Machine)
    requires Bracketed(m)
    ensures m.state == Released ==> Bracketed(Say(m, [Request]).(state := Pending))
  {
    SayHeard(m, Request);
  }

  lemma StepIsBracketed(m: Machine, e: Event)
    requires Bracketed(m)
    ensures Bracketed(Step(m, e))
  {
    match e
    case SubscribeEv(h, w) => SubscribeIsBracketed(m, h, w);
    case UnsubscribeEv(h) => UnsubscribeIsBracketed(m, h);
    case GrantedEv =>
      SayHeard(m, FwGranted);
      NotifyQuiet(Say(m, [FwGranted]).(state := Acquired), GrantedNotice, false, Active);
    case ReleasedEv =>
      SayHeard(m, FwReleased);
      var heard := Say(m, [FwReleased]);
      if m.state == Acquired { NotifyQuiet(heard.(state := Released), ReleasedNotice, true, All); }
      if m.state == Releasing { AfterReleaseIsBracketed(heard); }
    case DeniedEv =>
      SayHeard(m, FwDenied);
      var heard := Say(m, [FwDenied]);
      if m.state == Pending { NotifyQuiet(heard.(state := Released), DeniedNotice, true, All); }
      if m.state == Releasing { AfterReleaseIsBracketed(heard); }
    case ModemRestart =>
      DropsMembers(m.subs);
      SayQuiet(m, Drops(m.subs));
  }

  // A connection is requested only when none is wanted and released only when one is, modem restarts
  // included; and it is wanted exactly in states PENDING and ACQUIRED.
  lemma {:induction false} RunIsBracketed(m: Machine, es: seq<Event>)
    requires Bracketed(m)
    ensures Bracketed(Run(m, es)) && Watch(Idle, Run(m, es).log) != Broken
    decreases |es|
  {
    if es != [] {
      StepIsBracketed(m, es[0]);
      RunIsBracketed(Step(m, es[0]), es[1..]);
    }
  }

  // ---- nobody is lost, nobody is told twice ----

  function Came(e: Entry, t: Ticket): nat {
    if e == Joined(t) then 1 else 0
  }

  // A terminal notice, or being dropped by a modem restart.
  function Went(e: Entry, t: Ticket): nat {
    if e == OpenFailed(t) || e == Closed(t) || e == Dropped(t) then 1 else 0
  }

  function Arrivals(log: seq<Entry>, t: Ticket): nat
    decreases |log|
  {
    if log == [] then 0 else Arrivals(log[..|log| - 1], t) + Came(log[|log| - 1], t)
  }

  function Departures(log: seq<Entry>, t: Ticket): nat
    decreases |log|
  {
    if log == [] then 0 else Departures(log[..|log| - 1], t) + Went(log[|log| - 1], t)
  }

  function Present(subs: seq<Subscriber>, t: Ticket): nat
    decreases |subs|
  {
    if subs == [] then 0
    else Present(subs[..|subs| - 1], t) + if subs[|subs| - 1].ticket == t then 1 else 0
  }

  // Who ever joined did so once, and is in the list or has left exactly once.
  ghost predicate Accounted(m: Machine, t: Ticket) {
    && Arrivals(m.log, t) == Departures(m.log, t) + Present(m.subs, t) <= 1
    && (m.next <= t.serial ==> Arrivals(m.log, t) == 0)
  }

  lemma {:induction false} LogMore(log: seq<Entry>, more: seq<Entry>, t: Ticket)
    ensures Arrivals(log + more, t) == Arrivals(log, t) + Arrivals(more, t)
    ensures Departures(log + more, t) == Departures(log, t) + Departures(more, t)
    decreases |more|
  {
    var all := log + more;
    if more == [] {
      assert all == log;
    } else {
      LogMore(log, more[..|more| - 1], t);
      assert all[..|all| - 1] == log + more[..|more| - 1];
    }
  }

  lemma EntryCounts(log: seq<Entry>, e: Entry, t: Ticket)
    ensures Arrivals(log + [e], t) == Arrivals(log, t) + Came(e, t)
    ensures Departures(log + [e], t) == Departures(log, t) + Went(e, t)
  {
    var all := log + [e];
    assert all[..|all| - 1] == log;
  }

  lemma SayOne(m: Machine, e: Entry, t: Ticket)
    ensures Arrivals(Say(m, [e]).log, t) == Arrivals(m.log, t) + Came(e, t)
    ensures Departures(Say(m, [e]).log, t) == Departures(m.log, t) + Went(e, t)
  {
    EntryCounts(m.log, e, t);
  }

  lemma PresentOne(subs: seq<Subscriber>, s: Subscriber, t: Ticket)
    ensures Present(subs + [s], t) == Present(subs, t) + if s.ticket == t then 1 else 0
  {
    var all := subs + [s];
    assert all[..|all| - 1] == subs;
  }

  // The last subscriber is told, or spared.
  lemma LastNotice(subs: seq<Subscriber>, notice: Notice, which: Which)
    requires subs != []
    ensures var front, last := subs[..|subs| - 1], subs[|subs| - 1];
            if Meant(which, last) then
              && Notices(subs, notice, which) == Notices(front, notice, which) + [Entered(notice, last)]
              && Spared(subs, which) == Spared(front, which)
            else
              && Notices(subs, notice, which) == Notices(front, notice, which)
              && Spared(subs, which) == Spared(front, which) + [last]
  {
  }

  lemma {:induction false} NoticesDepart(subs: seq<Subscriber>, notice: Notice, which: Which, t: Ticket)
    ensures Arrivals(Notices(subs, notice, which), t) == 0
    ensures Departures(Notices(subs, notice, which), t) ==
            if notice == GrantedNotice then 0 else Present(subs, t) - Present(Spared(subs, which), t)
    decreases |subs|
  {
    if subs != [] {
      var front, last := subs[..|subs| - 1], subs[|subs| - 1];
      NoticesDepart(front, notice, which, t);
      LastNotice(subs, notice, which);
      if Meant(which, last) {
        EntryCounts(Notices(front, notice, which), Entered(notice, last), t);
      } else {
        PresentOne(Spared(front, which), last, t);
      }
    }
  }

  lemma {:induction false} OthersPresent(subs: seq<Subscriber>, handle: int, t: Ticket)
    ensures Present(Others(subs, handle), t) == if t.handle == handle then 0 else Present(subs, t)
    decreases |subs|
  {
    if subs != [] {
      var front, last := subs[..|subs| - 1], subs[|subs| - 1];
      OthersPresent(front, handle, t);
      if last.ticket.handle == handle {
        assert Others(subs, handle) == Others(front, handle);
      } else {
        PresentOne(Others(front, handle), last, t);
      }
    }
  }

  // With distinct handles, the only ticket present under a handle is the first one's.
  lemma {:induction false} PresentIsFirst(subs: seq<Subscriber>, handle: int, t: Ticket)
    requires Distinct(subs) && Listed(subs, handle) && t.handle == handle
    ensures Present(subs, t) == if First(subs, handle).ticket == t then 1 else 0
  {
    DeactivatedMembers(subs, handle);
    var n :| 0 <= n < |subs| && subs[n] == First(subs, handle);
    PresentOnlyAt(subs, n, t);
  }

  lemma {:induction false} PresentOnlyAt(subs: seq<Subscriber>, n: nat, t: Ticket)
    requires Distinct(subs) && n < |subs| && subs[n].ticket.handle == t.handle
    ensures Present(subs, t) == if subs[n].ticket == t then 1 else 0
    decreases |subs|
  {
    var front, last := subs[..|subs| - 1], subs[|subs| - 1];
    if n < |front| {
      PresentOnlyAt(front, n, t);
    } else {
      DistinctLast(subs);
      AbsentWithout(front, t);
    }
  }

  lemma {:induction false} AbsentWithout(subs: seq<Subscriber>, t: Ticket)
    requires forall s :: s in subs ==> s.ticket.handle != t.handle
    ensures Present(subs, t) == 0
    decreases |subs|
  {
    if subs != [] {
      AbsentWithout(subs[..|subs| - 1], t);
    }
  }

  lemma {:induction false} SameTickets(a: seq<Subscriber>, b: seq<Subscriber>, t: Ticket)
    requires |a| == |b| && forall i :: 0 <= i < |a| ==> a[i].ticket == b[i].ticket
    ensures Present(a, t) == Present(b, t)
    decreases |a|
  {
    if a != [] {
      SameTickets(a[..|a| - 1], b[..|b| - 1], t);
    }
  }

  lemma {:induction false} DropsDepart(subs: seq<Subscriber>, t: Ticket)
    ensures Arrivals(Drops(subs), t) == 0 && Departures(Drops(subs), t) == Present(subs, t)
    decreases |subs|
  {
    if subs != [] {
      var front, last := subs[..|subs| - 1], subs[|subs| - 1];
      DropsDepart(front, t);
      SayOne(INITIAL.(log := Drops(front)), Dropped(last.ticket), t);
    }
  }

  lemma AddIsAccounted(m: Machine, handle: int, waitForClose: bool, since: nat, t: Ticket)
    requires Accounted(m, t)
    ensures Accounted(AddSubscriber(m, handle, waitForClose, since), t)
  {
    if !Listed(m.subs, handle) {
      var ticket := Ticket(handle, m.next);
      SayOne(m, Joined(ticket), t);
      PresentOne(m.subs, Subscriber(ticket, waitForClose, false, since), t);
    }
  }

  lemma NotifyIsAccounted(m: Machine, notice: Notice, which: Which, t: Ticket)
    requires Accounted(m, t)
    ensures Accounted(NotifyAll(m, notice, notice != GrantedNotice, which), t)
  {
    NoticesDepart(m.subs, notice, which, t);
    LogMore(m.log, Notices(m.subs, notice, which), t);
  }

  lemma LeaveIsAccounted(m: Machine, handle: int, t: Ticket)
    requires Accounted(m, t) && Distinct(m.subs) && Listed(m.subs, handle)
    ensures Accounted(Leave(m, handle), t)
  {
    DeactivatedMembers(m.subs, handle);
    if First(m.subs, handle).waitForClose {
      SameTickets(m.subs, Deactivated(m.subs, handle), t);
    } else {
      SayOne(m, Closed(First(m.subs, handle).ticket), t);
      OthersPresent(m.subs, handle, t);
      if t.handle == handle {
        PresentIsFirst(m.subs, handle, t);
      }
    }
  }

  lemma AfterReleaseIsAccounted(m: Machine, t: Ticket)
    requires Accounted(m, t)
    ensures Accounted(AfterRelease(m), t)
  {
    NotifyIsAccounted(m, ReleasedNotice, Inactive, t);
    SayOne(NotifyAll(m, ReleasedNotice, true, Inactive), Request, t);
  }

  lemma SubscribeIsAccounted(m: Machine, h: int, w: bool, t: Ticket)
    requires Accounted(m, t)
    ensures Accounted(Subscribe(m, h, w), t)
  {
    if m.state == Acquired {
      SayOne(m, Granted(h), t);
      AddIsAccounted(Say(m, [Granted(h)]), h, w, |m.log|, t);
    } else {
      AddIsAccounted(m, h, w, |m.log|, t);
      RequestIsAccounted(AddSubscriber(m, h, w, |m.log|), t);
    }
  }

  lemma RequestIsAccounted(m: Machine, t: Ticket)
    requires Accounted(m, t)
    ensures Accounted(Say(m, [Request]).(state := Pending), t)
  {
    SayOne(m, Request, t);
  }

  lemma AfterLeaveIsAccounted(left: Machine, t: Ticket)
    requires Accounted(left, t)
    ensures Accounted(AfterLeave(left), t)
  {
    SayOne(left, Release, t);
  }

  lemma UnsubscribeIsAccounted(m: Machine, h: int, t: Ticket)
    requires Accounted(m, t) && Distinct(m.subs)
    ensures Accounted(Unsubscribe(m, h), t)
  {
    if Listed(m.subs, h) {
      if m.state == Released {
        SayOne(m, ClosedUnknown(h), t);
      } else {
        LeaveIsAccounted(m, h, t);
        AfterLeaveIsAccounted(Leave(m, h), t);
      }
    }
  }

  lemma GrantIsAccounted(m: Machine, t: Ticket)
    requires Accounted(m, t)
    ensures Accounted(OnGranted(m), t)
  {
    SayOne(m, FwGranted, t);
    NotifyIsAccounted(Say(m, [FwGranted]).(state := Acquired), GrantedNotice, Active, t);
  }

  lemma ReleaseIsAccounted(m: Machine, t: Ticket)
    requires Accounted(m, t)
    ensures Accounted(OnReleased(m), t)
  {
    SayOne(m, FwReleased, t);
    var heard := Say(m, [FwReleased]);
    if m.state == Acquired { NotifyIsAccounted(heard.(state := Released), ReleasedNotice, All, t); }
    if m.state == Releasing { AfterReleaseIsAccounted(heard, t); }
  }

  lemma DenyIsAccounted(m: Machine, t: Ticket)
    requires Accounted(m, t)
    ensures Accounted(OnDenied(m), t)
  {
    SayOne(m, FwDenied, t);
    var heard := Say(m, [FwDenied]);
    if m.state == Pending { NotifyIsAccounted(heard.(state := Released), DeniedNotice, All, t); }
    if m.state == Releasing { AfterReleaseIsAccounted(heard, t); }
  }

  lemma StepIsAccounted(m: Machine, e: Event, t: Ticket)
    requires Accounted(m, t) && Distinct(m.subs)
    ensures Accounted(Step(m, e), t)
  {
    match e
    case SubscribeEv(h, w) => SubscribeIsAccounted(m, h, w, t);
    case UnsubscribeEv(h) => UnsubscribeIsAccounted(m, h, t);
    case GrantedEv => GrantIsAccounted(m, t);
    case ReleasedEv => ReleaseIsAccounted(m, t);
    case DeniedEv => DenyIsAccounted(m, t);
    case ModemRestart =>
      DropsDepart(m.subs, t);
      LogMore(m.log, Drops(m.subs), t);
  }

  // Over every run, a subscriber that ever joined did so once, and is still listed, or was dropped by a
  // modem restart or told the end of its connection, exactly once.
  lemma {:induction false} RunIsAccounted(m: Machine, es: seq<Event>, t: Ticket)
    requires Orderly(m) && Accounted(m, t)
    ensures Accounted(Run(m, es), t)
    decreases |es|
  {
    if es != [] {
      StepIsOrderly(m, es[0]);
      StepIsAccounted(m, es[0], t);
      RunIsAccounted(Step(m, es[0]), es[1..], t);
    }
  }
}
