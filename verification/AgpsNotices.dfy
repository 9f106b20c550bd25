// What the AGPS state machine says, to whom and on what event: exactly what is due.
module AgpsNotices {
  import opened AgpsModel
  import opened AgpsProofs

  ghost predicate Lists(m: Machine, t: Ticket) {
    exists s :: s in m.subs && s.ticket == t
  }

  ghost predicate ListsActive(m: Machine, handle: int) {
    exists s :: s in m.subs && !s.inactive && s.ticket.handle == handle
  }

  ghost predicate ListsInactive(m: Machine, t: Ticket) {
    exists s :: s in m.subs && s.inactive && s.ticket == t
  }

  // The subscriber does not wait for the connection to be closed.
  ghost predicate ListsHasty(m: Machine, t: Ticket) {
    exists s :: s in m.subs && !s.waitForClose && s.ticket == t
  }

  // The connection that is being released is gone, or its release is denied.
  predicate Closes(m: Machine, e: Event) {
    m.state == Releasing && (e == ReleasedEv || e == DeniedEv)
  }

  // What has to be said when an event arrives, entry by entry.
  ghost predicate Due(m: Machine, e: Event, entry: Entry) {
    match entry
    case FwGranted => e == GrantedEv
    case FwDenied => e == DeniedEv
    case FwReleased => e == ReleasedEv
    case Request => (e.SubscribeEv? && m.state == Released) || (Closes(m, e) && AnyActive(m.subs))
    case Release =>
      && e.UnsubscribeEv? && (m.state == Pending || m.state == Acquired) && Listed(m.subs, e.handle)
      && forall s :: s in m.subs && s.ticket.handle != e.handle ==> s.inactive
    case Granted(h) =>
      || (e.SubscribeEv? && e.handle == h && m.state == Acquired)
      || (e == GrantedEv && m.state == Pending && ListsActive(m, h))
    case OpenFailed(t) => e == DeniedEv && m.state == Pending && Lists(m, t)
    case Closed(t) =>
      || (e == UnsubscribeEv(t.handle) && m.state != Released && ListsHasty(m, t))
      || (e == ReleasedEv && m.state == Acquired && Lists(m, t))
      || (Closes(m, e) && ListsInactive(m, t))
    case ClosedUnknown(h) => e == UnsubscribeEv(h) && m.state == Released && Listed(m.subs, h)
    case Joined(t) => e.SubscribeEv? && !Listed(m.subs, e.handle) && t == Ticket(e.handle, m.next)
    case Dropped(t) => e == ModemRestart && Lists(m, t)
  }

  // The log goes on with exactly what is due.
  ghost predicate Tells(m: Machine, e: Event, end: Machine) {
    && |m.log| <= |end.log| && end.log[..|m.log|] == m.log
    && forall entry :: entry in end.log[|m.log|..] <==> Due(m, e, entry)
  }

  lemma TellsBy(m: Machine, e: Event, end: Machine, more: seq<Entry>)
    requires end.log == m.log + more && forall entry :: entry in more <==> Due(m, e, entry)
    ensures Tells(m, e, end)
  {
    assert end.log[|m.log|..] == more;
  }

  lemma SubscribeTells(m: Machine, h: int, w: bool)
    requires Orderly(m)
    ensures Tells(m, SubscribeEv(h, w), Subscribe(m, h, w))
  {
    var joined := if Listed(m.subs, h) then [] else [Joined(Ticket(h, m.next))];
    var more := match m.state
      case Released => joined + [Request]
      case Acquired => [Granted(h)] + joined
      case Pending => joined
      case Releasing => joined;
    TellsBy(m, SubscribeEv(h, w), Subscribe(m, h, w), more);
  }

  lemma FirstMember(subs: seq<Subscriber>, handle: int)
    requires Distinct(subs) && Listed(subs, handle)
    ensures First(subs, handle) in subs && First(subs, handle).ticket.handle == handle
    ensures forall s :: s in subs && s.ticket.handle == handle ==> s == First(subs, handle)
  {
    DeactivatedMembers(subs, handle);
  }

  lemma LeaveMembers(m: Machine, h: int)
    requires Distinct(m.subs) && Listed(m.subs, h)
    ensures var first := First(m.subs, h);
            forall s :: s in Leave(m, h).subs <==>
              (s in m.subs && s.ticket.handle != h) || (first.waitForClose && s == first.(inactive := true))
  {
    FirstMember(m.subs, h);
    OthersMembers(m.subs, h);
    DeactivatedMembers(m.subs, h);
    var first, end := First(m.subs, h), Deactivated(m.subs, h);
    var n :| 0 <= n < |m.subs| && m.subs[n] == first;
    assert end[n] == first.(inactive := true);
    forall s
      ensures s in end <==> (s in m.subs && s.ticket.handle != h) || s == first.(inactive := true)
    {
      if s in m.subs && s.ticket.handle != h {
        var i :| 0 <= i < |m.subs| && m.subs[i] == s;
        assert end[i] == s;
      }
    }
  }

  lemma UnsubscribeTells(m: Machine, h: int)
    requires Orderly(m)
    ensures Tells(m, UnsubscribeEv(h), Unsubscribe(m, h))
  {
    var e, end := UnsubscribeEv(h), Unsubscribe(m, h);
    if !Listed(m.subs, h) {
      TellsBy(m, e, end, []);
    } else {
      FirstMember(m.subs, h);
      OthersActive(m, h);
      var first := First(m.subs, h);
      var closed := if first.waitForClose then [] else [Closed(first.ticket)];
      var release := if m.state == Releasing || AnyActive(Leave(m, h).subs) then [] else [Release];
      forall entry
        ensures entry in closed + release <==> Due(m, e, entry)
      {
        LeaveDue(m, h, first, entry);
      }
      TellsBy(m, e, end, closed + release);
    }
  }

  lemma OthersActive(m: Machine, h: int)
    requires Orderly(m) && Listed(m.subs, h) && m.state != Released
    ensures AnyActive(Leave(m, h).subs) <==> exists s :: s in m.subs && s.ticket.handle != h && !s.inactive
  {
    LeaveMembers(m, h);
  }

  lemma LeaveDue(m: Machine, h: int, first: Subscriber, entry: Entry)
    requires m.state != Released && first in m.subs && first.ticket.handle == h && Listed(m.subs, h)
    requires forall s :: s in m.subs && s.ticket.handle == h ==> s == first
    ensures Due(m, UnsubscribeEv(h), entry) <==>
            || (entry == Closed(first.ticket) && !first.waitForClose)
            || (entry == Release && m.state != Releasing &&
                !exists s :: s in m.subs && s.ticket.handle != h && !s.inactive)
  {
  }

  ghost predicate Noticed(m: Machine, notice: Notice, which: Which, entry: Entry) {
    exists s :: s in m.subs && Meant(which, s) && entry == Entered(notice, s)
  }

  lemma EndTells(m: Machine, e: Event, notice: Notice, end: Machine, heard: Entry, which: Which, more: seq<Entry>)
    requires end.log == m.log + [heard] + Notices(m.subs, notice, which) + more
    requires forall entry ::
               entry == heard || entry in more || Noticed(m, notice, which, entry) <==> Due(m, e, entry)
    ensures Tells(m, e, end)
  {
    NoticesMembers(m.subs, notice, which);
    assert end.log == m.log + ([heard] + Notices(m.subs, notice, which) + more);
    TellsBy(m, e, end, [heard] + Notices(m.subs, notice, which) + more);
  }

  lemma GrantedTells(m: Machine)
    requires Orderly(m)
    ensures Tells(m, GrantedEv, OnGranted(m))
  {
    if m.state == Pending {
      EndTells(m, GrantedEv, GrantedNotice, OnGranted(m), FwGranted, Active, []);
    } else {
      TellsBy(m, GrantedEv, OnGranted(m), [FwGranted]);
    }
  }

  lemma ClosingDue(m: Machine, e: Event, entry: Entry)
    requires Closes(m, e)
    ensures Due(m, e, entry) <==>
            || entry == (if e == ReleasedEv then FwReleased else FwDenied)
            || (entry == Request && AnyActive(m.subs)) || Noticed(m, ReleasedNotice, Inactive, entry)
  {
  }

  lemma ClosingTells(m: Machine, e: Event, heard: Entry)
    requires Orderly(m) && Closes(m, e) && heard == if e == ReleasedEv then FwReleased else FwDenied
    ensures Tells(m, e, AfterRelease(Say(m, [heard])))
  {
    SparedMembers(m.subs, Inactive);
    assert AnyActive(Spared(m.subs, Inactive)) <==> AnyActive(m.subs);
    var more := if AnyActive(m.subs) then [Request] else [];
    forall entry
      ensures entry == heard || entry in more || Noticed(m, ReleasedNotice, Inactive, entry) <==> Due(m, e, entry)
    {
      ClosingDue(m, e, entry);
    }
    EndTells(m, e, ReleasedNotice, AfterRelease(Say(m, [heard])), heard, Inactive, more);
  }

  lemma ReleasedTells(m: Machine)
    requires Orderly(m)
    ensures Tells(m, ReleasedEv, OnReleased(m))
  {
    match m.state
    case Acquired => EndTells(m, ReleasedEv, ReleasedNotice, OnReleased(m), FwReleased, All, []);
    case Releasing => ClosingTells(m, ReleasedEv, FwReleased);
    case _ => TellsBy(m, ReleasedEv, OnReleased(m), [FwReleased]);
  }

  lemma DeniedTells(m: Machine)
    requires Orderly(m)
    ensures Tells(m, DeniedEv, OnDenied(m))
  {
    match m.state
    case Pending => EndTells(m, DeniedEv, DeniedNotice, OnDenied(m), FwDenied, All, []);
    case Releasing => ClosingTells(m, DeniedEv, FwDenied);
    case _ => TellsBy(m, DeniedEv, OnDenied(m), [FwDenied]);
  }

  lemma {:induction false} DropsTell(subs: seq<Subscriber>)
    ensures forall e :: e in Drops(subs) <==> exists s :: s in subs && e == Dropped(s.ticket)
    decreases |subs|
  {
    if subs != [] {
      DropsTell(subs[..|subs| - 1]);
      var last := subs[|subs| - 1];
      assert forall s :: s in subs <==> s in subs[..|subs| - 1] || s == last;
    }
  }

  // On every event, in every state: exactly what is due is said.
  lemma EventTells(m: Machine, e: Event)
    requires Orderly(m)
    ensures Tells(m, e, Step(m, e))
  {
    match e
    case SubscribeEv(h, w) => SubscribeTells(m, h, w);
    case UnsubscribeEv(h) => UnsubscribeTells(m, h);
    case GrantedEv => GrantedTells(m);
    case ReleasedEv => ReleasedTells(m);
    case DeniedEv => DeniedTells(m);
    case ModemRestart =>
      DropsTell(m.subs);
      TellsBy(m, ModemRestart, DropAll(m), Drops(m.subs));
  }

  // In particular a denial of a pending connection tells everybody listed that the open failed.
  lemma DenialReachesAll(m: Machine, s: Subscriber)
    requires Orderly(m) && m.state == Pending && s in m.subs
    ensures OpenFailed(s.ticket) in Step(m, DeniedEv).log[|m.log|..] && s !in Step(m, DeniedEv).subs
  {
    EventTells(m, DeniedEv);
    EventLeaves(m, DeniedEv);
    assert Lists(m, s.ticket);
  }

  // ---- who is left in the list ----

  // The list after an event, subscriber by subscriber.
  ghost predicate Remains(m: Machine, e: Event, s: Subscriber) {
    match e
    case SubscribeEv(h, w) =>
      s in m.subs || (!Listed(m.subs, h) && s == Subscriber(Ticket(h, m.next), w, false, |m.log|))
    case UnsubscribeEv(h) => (s in m.subs && s.ticket.handle != h) || Waits(m, h, s)
    case GrantedEv => s in m.subs
    case ReleasedEv => s in m.subs && m.state != Acquired && (m.state == Releasing ==> !s.inactive)
    case DeniedEv => s in m.subs && m.state != Pending && (m.state == Releasing ==> !s.inactive)
    case ModemRestart => false
  }

  // It has asked to leave and waits for the connection to be closed.
  ghost predicate Waits(m: Machine, h: int, s: Subscriber) {
    exists t :: t in m.subs && t.ticket.handle == h && t.waitForClose && s == t.(inactive := true)
  }

  lemma EventLeaves(m: Machine, e: Event)
    requires Orderly(m)
    ensures forall s :: s in Step(m, e).subs <==> Remains(m, e, s)
  {
    match e
    case SubscribeEv(h, w) =>
    case UnsubscribeEv(h) =>
      if Listed(m.subs, h) {
        FirstMember(m.subs, h);
        LeaveMembers(m, h);
      }
    case GrantedEv =>
    case ReleasedEv =>
      SparedMembers(m.subs, All);
      SparedMembers(m.subs, Inactive);
    case DeniedEv =>
      SparedMembers(m.subs, All);
      SparedMembers(m.subs, Inactive);
    case ModemRestart =>
  }

  // ---- whole runs ----

  // Entry `n` of the log was said in the step of event `k`, when it was due.
  ghost predicate SaidAt(m: Machine, es: seq<Event>, n: nat, k: nat)
    requires n < |Run(m, es).log|
  {
    && k < |es|
    && var before := Run(m, es[..k]);
       |before.log| <= n < |Step(before, es[k]).log| && Due(before, es[k], Run(m, es).log[n])
  }

  lemma {:induction false} RunExtends(m: Machine, es: seq<Event>)
    requires Orderly(m)
    ensures |m.log| <= |Run(m, es).log| && Run(m, es).log[..|m.log|] == m.log && Orderly(Run(m, es))
    decreases |es|
  {
    if es != [] {
      StepIsOrderly(m, es[0]);
      EventTells(m, es[0]);
      RunExtends(Step(m, es[0]), es[1..]);
    }
  }

  // Over every run: whatever stands in the log was due when it was said.
  lemma {:induction false} RunTells(m: Machine, es: seq<Event>, n: nat) returns (k: nat)
    requires Orderly(m) && |m.log| <= n < |Run(m, es).log|
    ensures SaidAt(m, es, n, k)
    decreases |es|
  {
    var next := Step(m, es[0]);
    StepIsOrderly(m, es[0]);
    EventTells(m, es[0]);
    RunExtends(next, es[1..]);
    if n < |next.log| {
      k := 0;
      assert es[..0] == [];
      assert next.log[|m.log|..][n - |m.log|] == Run(m, es).log[n];
    } else {
      var j := RunTells(next, es[1..], n);
      k := j + 1;
      assert es[..k][0] == es[0] && es[..k][1..] == es[1..][..j];
    }
  }

  // A subscriber hears that its connection failed to open only when the framework denies one that is
  // still pending, and every subscriber listed then hears it.
  lemma FailureMeansDenial(es: seq<Event>, n: nat, t: Ticket) returns (k: nat)
    requires n < |Run(INITIAL, es).log| && Run(INITIAL, es).log[n] == OpenFailed(t)
    ensures k < |es| && es[k] == DeniedEv
    ensures Run(INITIAL, es[..k]).state == Pending && Lists(Run(INITIAL, es[..k]), t)
  {
    k := RunTells(INITIAL, es, n);
  }

  // It hears that the connection is closed only when it lets go of it without waiting, when the
  // framework takes an acquired connection away, or when the one it waits to see closed is gone.
  lemma ClosedMeansReleased(es: seq<Event>, n: nat, t: Ticket) returns (k: nat)
    requires n < |Run(INITIAL, es).log| && Run(INITIAL, es).log[n] == Closed(t)
    ensures k < |es| &&
            var before := Run(INITIAL, es[..k]);
            && Lists(before, t)
            && (|| (es[k] == UnsubscribeEv(t.handle) && ListsHasty(before, t))
                || (es[k] == ReleasedEv && before.state == Acquired)
                || (Closes(before, es[k]) && ListsInactive(before, t)))
  {
    k := RunTells(INITIAL, es, n);
  }

  // Only those who wait for the close are ever inactive.
  lemma {:induction false} InactiveWaits(m: Machine, es: seq<Event>)
    requires Orderly(m) && forall s :: s in m.subs && s.inactive ==> s.waitForClose
    ensures forall s :: s in Run(m, es).subs && s.inactive ==> s.waitForClose
    decreases |es|
  {
    if es != [] {
      EventLeaves(m, es[0]);
      StepIsOrderly(m, es[0]);
      InactiveWaits(Step(m, es[0]), es[1..]);
    }
  }
}
