// AgpsStateMachine and AgpsManager as they run: state and subscriber list updated in place, list nodes
// erased while the list is walked.
module AgpsHandlers {
  import opened AgpsModel
  import opened AgpsProofs

  class AgpsStateMachine {
    var mState: State
    var mSubscriberList: seq<Subscriber>
    var log: seq<Entry>    // callbacks made and framework events heard
    var next: nat          // identity of the next cloned subscriber

    ghost function Machine(): Machine
      reads this
    {
      AgpsModel.Machine(mState, mSubscriberList, log, next)
    }

    constructor ()
      ensures Machine() == INITIAL && Orderly(Machine()) && Served(Machine()) && Bracketed(Machine())
    {
      mState, mSubscriberList, log, next := Released, [], [], 0;
    }

    // ---- the subscriber list ----

    method GetSubscriber(handle: int) returns (found: bool, subscriber: Subscriber)
      ensures found == Listed(mSubscriberList, handle)
      ensures found ==> subscriber == First(mSubscriberList, handle)
    {
      found, subscriber := false, Subscriber(Ticket(handle, 0), false, false, 0);
      for i := 0 to |mSubscriberList|
        invariant Listed(mSubscriberList, handle) == Listed(mSubscriberList[i..], handle)
        invariant Listed(mSubscriberList, handle) ==>
          First(mSubscriberList, handle) == First(mSubscriberList[i..], handle)
      {
        var rest := mSubscriberList[i..];
        assert forall s :: s in rest <==> s == rest[0] || s in rest[1..];
        if mSubscriberList[i].ticket.handle == handle {
          assert rest[0] in rest;
          return true, mSubscriberList[i];
        }
      }
    }

    method AnyActiveSubscribers() returns (any: bool)
      ensures any == AnyActive(mSubscriberList)
    {
      for i := 0 to |mSubscriberList|
        invariant forall j :: 0 <= j < i ==> mSubscriberList[j].inactive
      {
        if !mSubscriberList[i].inactive {
          return true;
        }
      }
      any := false;
    }

    method AddSubscriber(handle: int, waitForClose: bool, since: nat)
      modifies this
      ensures Machine() == AgpsModel.AddSubscriber(old(Machine()), handle, waitForClose, since)
    {
      var found, ignored := GetSubscriber(handle);
      if !found {
        var cloned := Subscriber(Ticket(handle, next), waitForClose, false, since);
        mSubscriberList := mSubscriberList + [cloned];
        log := log + [Joined(cloned.ticket)];
        next := next + 1;
      }
    }

    method DeleteSubscriber(handle: int)
      modifies this`mSubscriberList
      ensures mSubscriberList == Others(old(mSubscriberList), handle)
    {
      var it := 0;
      ghost var k := 0;
      ghost var was := mSubscriberList;
      while it < |mSubscriberList|
        invariant 0 <= k <= |was| && 0 <= it <= |mSubscriberList|
        invariant mSubscriberList[..it] == Others(was[..k], handle)
        invariant mSubscriberList[it..] == was[k..]
        decreases |was| - k
      {
        assert was[..k + 1][..k] == was[..k];
        assert mSubscriberList[it] == mSubscriberList[it..][0] == was[k];
        assert mSubscriberList[it..][1..] == was[k + 1..];
        if mSubscriberList[it].ticket.handle == handle {
          mSubscriberList := mSubscriberList[..it] + mSubscriberList[it + 1..];
        } else {
          it := it + 1;
        }
        k := k + 1;
      }
      assert was[..k] == was && mSubscriberList[..it] == mSubscriberList;
    }

    method DeactivateSubscriber(handle: int)
      modifies this`mSubscriberList
      ensures mSubscriberList == Deactivated(old(mSubscriberList), handle)
    {
      for i := 0 to |mSubscriberList|
        invariant mSubscriberList == old(mSubscriberList)
        invariant forall j :: 0 <= j < i ==> mSubscriberList[j].ticket.handle != handle
      {
        if mSubscriberList[i].ticket.handle == handle {
          DeactivatedAt(mSubscriberList, handle, i);
          mSubscriberList := mSubscriberList[i := mSubscriberList[i].(inactive := true)];
          return;
        }
      }
      DeactivatedAt(mSubscriberList, handle, |mSubscriberList|);
    }

    // Notifies those meant, in list order, deleting them on the way if asked to.
    method NotifyAllSubscribers(notice: Notice, deletePostNotify: bool, which: Which)
      modifies this`mSubscriberList, this`log
      ensures Machine() == NotifyAll(old(Machine()), notice, deletePostNotify, which)
    {
      var it := 0;
      WalkedIsNotified(mSubscriberList, log, deletePostNotify, notice, which);
      while it < |mSubscriberList|
        invariant it <= |mSubscriberList|
        invariant Walked(mSubscriberList, it, log, deletePostNotify, notice, which) ==
                  Walked(old(mSubscriberList), 0, old(log), deletePostNotify, notice, which)
        decreases |mSubscriberList| - it
      {
        var subscriber := mSubscriberList[it];
        if Meant(which, subscriber) {
          log := log + [Entered(notice, subscriber)];
          if deletePostNotify {
            mSubscriberList := mSubscriberList[..it] + mSubscriberList[it + 1..];
          } else {
            it := it + 1;
          }
        } else {
          it := it + 1;
        }
      }
    }

    method RequestOrReleaseDataConn(request: bool)
      modifies this`log
      ensures log == old(log) + [if request then Request else Release]
    {
      log := log + [if request then Request else Release];
    }

    // ---- the event handlers ----

    method ProcessSubscribe(handle: int, waitForClose: bool)
      modifies this
      ensures Machine() == Step(old(Machine()), SubscribeEv(handle, waitForClose))
    {
      var now := |log|;
      match mState
      case Released =>
        AddSubscriber(handle, waitForClose, now);
        RequestOrReleaseDataConn(true);
        mState := Pending;
      case Pending =>
        AddSubscriber(handle, waitForClose, now);
      case Acquired =>
        log := log + [Granted(handle)];
        AddSubscriber(handle, waitForClose, now);
      case Releasing =>
        AddSubscriber(handle, waitForClose, now);
    }

    // `current` is the listed subscriber that releaseATL found.
    method ProcessUnsubscribe(current: Subscriber)
      requires Listed(mSubscriberList, current.ticket.handle)
      requires current == First(mSubscriberList, current.ticket.handle)
      modifies this
      ensures Machine() == Step(old(Machine()), UnsubscribeEv(current.ticket.handle))
    {
      if mState == Released {
        log := log + [ClosedUnknown(current.ticket.handle)];
        return;
      }
      if current.waitForClose {
        DeactivateSubscriber(current.ticket.handle);
      } else {
        log := log + [Closed(current.ticket)];
        DeleteSubscriber(current.ticket.handle);
      }
      if mState == Releasing {
        if mSubscriberList == [] {
          mState := Released;
        }
        return;
      }
      var anyActive := AnyActiveSubscribers();
      if mSubscriberList == [] {
        mState := Released;
        RequestOrReleaseDataConn(false);
      } else if !anyActive {
        mState := Releasing;
        RequestOrReleaseDataConn(false);
      }
    }

    method ProcessGranted()
      modifies this
      ensures Machine() == Step(old(Machine()), GrantedEv)
    {
      log := log + [FwGranted];
      if mState == Pending {
        mState := Acquired;
        NotifyAllSubscribers(GrantedNotice, false, Active);
      }
    }

    method CloseFinished()
      modifies this
      ensures Machine() == AfterRelease(old(Machine()))
    {
      NotifyAllSubscribers(ReleasedNotice, true, Inactive);
      var anyActive := AnyActiveSubscribers();
      if anyActive {
        mState := Pending;
        RequestOrReleaseDataConn(true);
      } else {
        mState := Released;
      }
    }

    method ProcessReleased()
      modifies this
      ensures Machine() == Step(old(Machine()), ReleasedEv)
    {
      log := log + [FwReleased];
      match mState
      case Released =>
      case Pending =>
      case Acquired =>
        mState := Released;
        NotifyAllSubscribers(ReleasedNotice, true, All);
      case Releasing =>
        CloseFinished();
    }

    method ProcessDenied()
      modifies this
      ensures Machine() == Step(old(Machine()), DeniedEv)
    {
      log := log + [FwDenied];
      match mState
      case Released =>
      case Acquired =>
      case Releasing =>
        CloseFinished();
      case Pending =>
        mState := Released;
        NotifyAllSubscribers(DeniedNotice, true, All);
    }

    method DropAllSubscribers()
      modifies this
      ensures Machine() == Step(old(Machine()), ModemRestart)
    {
      ghost var was, said := mSubscriberList, log;
      ghost var k := 0;
      while mSubscriberList != []
        invariant 0 <= k <= |was| && mSubscriberList == was[k..]
        invariant log == said + Drops(was[..k])
        invariant mState == old(mState) && next == old(next)
        decreases |mSubscriberList|
      {
        assert was[..k + 1][..k] == was[..k];
        log := log + [Dropped(mSubscriberList[0].ticket)];
        mSubscriberList := mSubscriberList[1..];
        k := k + 1;
      }
      assert was[..k] == was;
    }
  }

  // Who is in the list once the walk has passed `subs`.
  function KeptOf(subs: seq<Subscriber>, delete: bool, which: Which): seq<Subscriber> {
    if delete then Spared(subs, which) else subs
  }

  // The first subscriber with the handle is at `i`; there is none if that is the list's end.
  lemma {:induction false} DeactivatedAt(subs: seq<Subscriber>, handle: int, i: nat)
    requires i <= |subs| && forall j :: 0 <= j < i ==> subs[j].ticket.handle != handle
    requires i < |subs| ==> subs[i].ticket.handle == handle
    ensures Deactivated(subs, handle) == if i < |subs| then subs[i := subs[i].(inactive := true)] else subs
    decreases i
  {
    if i != 0 {
      DeactivatedAt(subs[1..], handle, i - 1);
    }
  }

  // A walk of NotifyAllSubscribers: `k` of the subscribers are behind it, `heard` has been said to them.
  ghost predicate Walking(was: seq<Subscriber>, k: nat, subs: seq<Subscriber>, it: nat, heard: seq<Entry>,
                          delete: bool, notice: Notice, which: Which)
  {
    && k <= |was| && it <= |subs| && subs[it..] == was[k..]
    && subs[..it] == KeptOf(was[..k], delete, which) && heard == Notices(was[..k], notice, which)
  }

  lemma WalkStarts(was: seq<Subscriber>, delete: bool, notice: Notice, which: Which)
    ensures Walking(was, 0, was, 0, [], delete, notice, which)
  {
  }

  lemma WalkOn(was: seq<Subscriber>, k: nat, subs: seq<Subscriber>, it: nat, heard: seq<Entry>,
               delete: bool, notice: Notice, which: Which)
    requires Walking(was, k, subs, it, heard, delete, notice, which) && it < |subs|
    ensures var now := if Meant(which, subs[it]) then heard + [Entered(notice, subs[it])] else heard;
            k < |was| &&
            if delete && Meant(which, subs[it])
            then Walking(was, k + 1, subs[..it] + subs[it + 1..], it, now, delete, notice, which)
            else Walking(was, k + 1, subs, it + 1, now, delete, notice, which)
  {
    assert subs[it] == subs[it..][0] == was[k..][0] == was[k];
    assert subs[it + 1..] == subs[it..][1..] == was[k..][1..] == was[k + 1..];
    assert was[..k + 1] == was[..k] + [was[k]];
    KeptOne(was[..k], was[k], delete, notice, which);
    assert subs[..it + 1] == subs[..it] + [was[k]];
    var erased := subs[..it] + subs[it + 1..];
    assert erased[..it] == subs[..it] && erased[it..] == subs[it + 1..];
  }

  // What such a walk makes of the list and the log from where it stands.
  function Walked(subs: seq<Subscriber>, it: nat, log: seq<Entry>, delete: bool, notice: Notice, which: Which)
    : (seq<Subscriber>, seq<Entry>)
    requires it <= |subs|
    decreases |subs| - it
  {
    if it == |subs| then (subs, log)
    else if !Meant(which, subs[it]) then Walked(subs, it + 1, log, delete, notice, which)
    else
      var told := log + [Entered(notice, subs[it])];
      if delete then Walked(subs[..it] + subs[it + 1..], it, told, delete, notice, which)
      else Walked(subs, it + 1, told, delete, notice, which)
  }

  lemma {:induction false} WalkFinishes(was: seq<Subscriber>, k: nat, subs: seq<Subscriber>, it: nat,
                                        heard: seq<Entry>, log: seq<Entry>,
                                        delete: bool, notice: Notice, which: Which)
    requires Walking(was, k, subs, it, heard, delete, notice, which)
    ensures Walked(subs, it, log + heard, delete, notice, which) ==
            (KeptOf(was, delete, which), log + Notices(was, notice, which))
    decreases |subs| - it
  {
    if it == |subs| {
      WalkEnds(was, k, subs, it, heard, delete, notice, which);
    } else {
      WalkOn(was, k, subs, it, heard, delete, notice, which);
      var told := heard + [Entered(notice, subs[it])];
      Regroup(log, heard, [Entered(notice, subs[it])]);
      if !Meant(which, subs[it]) {
        WalkFinishes(was, k + 1, subs, it + 1, heard, log, delete, notice, which);
      } else if delete {
        WalkFinishes(was, k + 1, subs[..it] + subs[it + 1..], it, told, log, delete, notice, which);
      } else {
        WalkFinishes(was, k + 1, subs, it + 1, told, log, delete, notice, which);
      }
    }
  }

  lemma WalkedIsNotified(subs: seq<Subscriber>, log: seq<Entry>, delete: bool, notice: Notice, which: Which)
    ensures Walked(subs, 0, log, delete, notice, which) ==
            (KeptOf(subs, delete, which), log + Notices(subs, notice, which))
  {
    WalkStarts(subs, delete, notice, which);
    WalkFinishes(subs, 0, subs, 0, [], log, delete, notice, which);
    assert log + [] == log;
  }

  lemma WalkEnds(was: seq<Subscriber>, k: nat, subs: seq<Subscriber>, it: nat, heard: seq<Entry>,
                 delete: bool, notice: Notice, which: Which)
    requires Walking(was, k, subs, it, heard, delete, notice, which) && it == |subs|
    ensures subs == KeptOf(was, delete, which) && heard == Notices(was, notice, which)
  {
    assert |was[k..]| == 0;
    assert was[..k] == was && subs[..it] == subs;
  }

  lemma Regroup<T>(a: seq<T>, b: seq<T>, c: seq<T>)
    ensures (a + b) + c == a + (b + c)
  {
  }

  lemma KeptOne(subs: seq<Subscriber>, s: Subscriber, delete: bool, notice: Notice, which: Which)
    ensures KeptOf(subs + [s], delete, which) ==
            if delete && Meant(which, s) then KeptOf(subs, delete, which) else KeptOf(subs, delete, which) + [s]
    ensures Notices(subs + [s], notice, which) ==
            if Meant(which, s) then Notices(subs, notice, which) + [Entered(notice, s)]
            else Notices(subs, notice, which)
  {
    var all := subs + [s];
    assert all[..|all| - 1] == subs;
  }

  // ---- the manager ----

  datatype AgpsType = TypeInvalid | TypeSupl | TypeSuplEs | TypeWwanAny | TypeOther

  class AgpsManager {
    var mAgnssNif: AgpsStateMachine?
    var mInternetNif: AgpsStateMachine?
    const useEmergencyPdn: bool
    var refused: seq<int>    // handles told at once that the open failed

    ghost predicate Valid()
      reads this
    {
      mAgnssNif != null && mInternetNif != null ==> mAgnssNif != mInternetNif
    }

    // createAgpsStateMachines with the interfaces the framework and the configuration offer.
    constructor (wwan: bool, supl: bool, useEmergencyPdn: bool)
      ensures Valid() && refused == []
      ensures mInternetNif != null <==> wwan
      ensures mAgnssNif != null <==> supl
      ensures mInternetNif != null ==> fresh(mInternetNif) && mInternetNif.Machine() == INITIAL
      ensures mAgnssNif != null ==> fresh(mAgnssNif) && mAgnssNif.Machine() == INITIAL
    {
      this.useEmergencyPdn := useEmergencyPdn;
      refused := [];
      mAgnssNif, mInternetNif := null, null;
      new;
      if wwan {
        mInternetNif := new AgpsStateMachine();
      }
      if supl {
        mAgnssNif := new AgpsStateMachine();
      }
    }

    function Machines(): set<object>
      reads this
    {
      (if mAgnssNif == null then {} else {mAgnssNif}) + (if mInternetNif == null then {} else {mInternetNif})
    }

    function Route(agpsType: AgpsType): AgpsStateMachine?
      reads this
    {
      match agpsType
      case TypeInvalid => mAgnssNif
      case TypeSupl => mAgnssNif
      case TypeSuplEs => mAgnssNif
      case TypeWwanAny => mInternetNif
      case TypeOther => mInternetNif
    }

    // SUPL requests, emergency or not, and those of no type join the AGNSS machine, all others the
    // internet one; without their machine they are refused, and the other machine is left alone.
    method RequestATL(handle: int, agpsType: AgpsType)
      requires Valid()
      modifies this`refused, Machines()
      ensures var sm := if agpsType in {TypeInvalid, TypeSupl, TypeSuplEs} then mAgnssNif else mInternetNif;
              if sm == null then
                refused == old(refused) + [handle] && forall o :: o in Machines() ==> unchanged(o)
              else
                && refused == old(refused)
                && sm.Machine() == Step(old(sm.Machine()), SubscribeEv(handle, false))
                && (forall o :: o in Machines() - {sm} ==> unchanged(o))
    {
      var t := if !useEmergencyPdn && agpsType == TypeSuplEs then TypeSupl else agpsType;
      var sm := Route(t);
      if sm == null {
        refused := refused + [handle];
      } else {
        sm.ProcessSubscribe(handle, false);
      }
    }

    // The handle is looked up in the AGNSS machine first; an unknown handle changes nothing.
    method ReleaseATL(handle: int)
      requires Valid()
      modifies Machines()
      ensures mAgnssNif != null ==> mAgnssNif.Machine() == Step(old(mAgnssNif.Machine()), UnsubscribeEv(handle))
      ensures mInternetNif != null ==>
              mInternetNif.Machine() ==
              if mAgnssNif != null && Listed(old(mAgnssNif.mSubscriberList), handle) then old(mInternetNif.Machine())
              else Step(old(mInternetNif.Machine()), UnsubscribeEv(handle))
    {
      if mAgnssNif != null {
        var found, subscriber := mAgnssNif.GetSubscriber(handle);
        if found {
          FirstHasHandle(mAgnssNif.mSubscriberList, handle);
          mAgnssNif.ProcessUnsubscribe(subscriber);
          return;
        }
      }
      if mInternetNif != null {
        var found, subscriber := mInternetNif.GetSubscriber(handle);
        if found {
          FirstHasHandle(mInternetNif.mSubscriberList, handle);
          mInternetNif.ProcessUnsubscribe(subscriber);
        }
      }
    }

    method HandleModemSSR()
      requires Valid()
      modifies Machines()
      ensures mAgnssNif != null ==> mAgnssNif.Machine() == Step(old(mAgnssNif.Machine()), ModemRestart)
      ensures mInternetNif != null ==> mInternetNif.Machine() == Step(old(mInternetNif.Machine()), ModemRestart)
    {
      if mAgnssNif != null {
        mAgnssNif.DropAllSubscribers();
      }
      if mInternetNif != null {
        mInternetNif.DropAllSubscribers();
      }
    }
  }

  lemma {:induction false} FirstHasHandle(subs: seq<Subscriber>, handle: int)
    requires Listed(subs, handle)
    ensures First(subs, handle).ticket.handle == handle
  {
    if subs[0].ticket.handle != handle {
      assert forall s :: s in subs ==> s == subs[0] || s in subs[1..];
      FirstHasHandle(subs[1..], handle);
    }
  }
}
