// The AGPS state machine: one data connection shared by many subscribers.  Every callback it makes and
// every framework event it hears is an entry of a log, so that whole runs can be spoken about.
module AgpsModel {
  datatype State = Released | Pending | Acquired | Releasing

  // A subscriber object: its connection handle, and a number no other object ever has.
  datatype Ticket = Ticket(handle: int, serial: nat)

  datatype Subscriber = Subscriber(ticket: Ticket, waitForClose: bool, inactive: bool, since: nat)

  datatype Entry =
    // heard from the framework
    | FwGranted | FwDenied | FwReleased
    // told to the framework
    | Request | Release
    // told to subscribers
    | Granted(handle: int)
    | OpenFailed(ticket: Ticket)
    | Closed(ticket: Ticket)
    | ClosedUnknown(handle: int)
    // membership of the list
    | Joined(ticket: Ticket)
    | Dropped(ticket: Ticket)

  datatype Which = All | Active | Inactive
  datatype Notice = GrantedNotice | DeniedNotice | ReleasedNotice

  datatype Machine = Machine(state: State, subs: seq<Subscriber>, log: seq<Entry>, next: nat)

  const INITIAL := Machine(Released, [], [], 0)

  // ---- the subscriber list ----

  predicate Listed(subs: seq<Subscriber>, handle: int) {
    exists s :: s in subs && s.ticket.handle == handle
  }

  predicate AnyActive(subs: seq<Subscriber>) {
    exists s :: s in subs && !s.inactive
  }

  predicate Meant(which: Which, s: Subscriber) {
    match which
    case All => true
    case Active => !s.inactive
    case Inactive => s.inactive
  }

  function Entered(notice: Notice, s: Subscriber): Entry {
    match notice
    case GrantedNotice => Granted(s.ticket.handle)
    case DeniedNotice => OpenFailed(s.ticket)
    case ReleasedNotice => Closed(s.ticket)
  }

  // What notifyAllSubscribers says, in list order, and whom it leaves in the list.
  function Notices(subs: seq<Subscriber>, notice: Notice, which: Which): seq<Entry>
    decreases |subs|
  {
    if subs == [] then []
    else
      Notices(subs[..|subs| - 1], notice, which) +
      if Meant(which, subs[|subs| - 1]) then [Entered(notice, subs[|subs| - 1])] else []
  }

  function Spared(subs: seq<Subscriber>, which: Which): seq<Subscriber>
    decreases |subs|
  {
    if subs == [] then []
    else
      Spared(subs[..|subs| - 1], which) +
      if Meant(which, subs[|subs| - 1]) then [] else [subs[|subs| - 1]]
  }

  // deleteSubscriber removes every subscriber with the handle.
  function Others(subs: seq<Subscriber>, handle: int): seq<Subscriber>
    decreases |subs|
  {
    if subs == [] then []
    else
      Others(subs[..|subs| - 1], handle) +
      if subs[|subs| - 1].ticket.handle == handle then [] else [subs[|subs| - 1]]
  }

  // The first subscriber with the handle becomes inactive.
  function Deactivated(subs: seq<Subscriber>, handle: int): seq<Subscriber> {
    if subs == [] then []
    else if subs[0].ticket.handle == handle then [subs[0].(inactive := true)] + subs[1..]
    else [subs[0]] + Deactivated(subs[1..], handle)
  }

  function First(subs: seq<Subscriber>, handle: int): Subscriber
    requires Listed(subs, handle)
  {
    if subs[0].ticket.handle == handle then subs[0] else First(subs[1..], handle)
  }

  function Say(m: Machine, entries: seq<Entry>): Machine {
    m.(log := m.log + entries)
  }

  function NotifyAll(m: Machine, notice: Notice, delete: bool, which: Which): Machine {
    Say(m, Notices(m.subs, notice, which)).(subs := if delete then Spared(m.subs, which) else m.subs)
  }

  function AddSubscriber(m: Machine, handle: int, waitForClose: bool, since: nat): Machine {
    if Listed(m.subs, handle) then m
    else
      var t := Ticket(handle, m.next);
      m.(subs := m.subs + [Subscriber(t, waitForClose, false, since)], log := m.log + [Joined(t)], next := m.next + 1)
  }

  // ---- the event handlers ----

  function Subscribe(m: Machine, handle: int, waitForClose: bool): Machine {
    var now := |m.log|;
    match m.state
    case Released => Say(AddSubscriber(m, handle, waitForClose, now), [Request]).(state := Pending)
    case Pending => AddSubscriber(m, handle, waitForClose, now)
    case Acquired => AddSubscriber(Say(m, [Granted(handle)]), handle, waitForClose, now)
    case Releasing => AddSubscriber(m, handle, waitForClose, now)
  }

  // The subscriber goes inactive if it waits for the close, and is told and removed otherwise.
  function Leave(m: Machine, handle: int): Machine
    requires Listed(m.subs, handle)
  {
    var s := First(m.subs, handle);
    if s.waitForClose then m.(subs := Deactivated(m.subs, handle))
    else Say(m, [Closed(s.ticket)]).(subs := Others(m.subs, handle))
  }

  // With nobody active left, a wanted connection is released; with nobody left at all, it is done with.
  function AfterLeave(left: Machine): Machine {
    if left.subs == [] then
      (if left.state == Releasing then left else Say(left, [Release])).(state := Released)
    else if left.state != Releasing && !AnyActive(left.subs) then Say(left, [Release]).(state := Releasing)
    else left
  }

  // releaseATL turns away handles that are in no list.
  function Unsubscribe(m: Machine, handle: int): Machine {
    if !Listed(m.subs, handle) then m
    else if m.state == Released then Say(m, [ClosedUnknown(handle)])
    else AfterLeave(Leave(m, handle))
  }

  function OnGranted(m: Machine): Machine {
    var heard := Say(m, [FwGranted]);
    if m.state == Pending then NotifyAll(heard.(state := Acquired), GrantedNotice, false, Active) else heard
  }

  // The connection is gone: those who waited for that leave, those who came meanwhile ask again.
  function AfterRelease(m: Machine): Machine {
    var told := NotifyAll(m, ReleasedNotice, true, Inactive);
    if AnyActive(told.subs) then Say(told, [Request]).(state := Pending) else told.(state := Released)
  }

  function OnReleased(m: Machine): Machine {
    var heard := Say(m, [FwReleased]);
    match m.state
    case Released => heard
    case Pending => heard
    case Acquired => NotifyAll(heard.(state := Released), ReleasedNotice, true, All)
    case Releasing => AfterRelease(heard)
  }

  function OnDenied(m: Machine): Machine {
    var heard := Say(m, [FwDenied]);
    match m.state
    case Released => heard
    case Acquired => heard
    case Releasing => AfterRelease(heard)
    case Pending => NotifyAll(heard.(state := Released), DeniedNotice, true, All)
  }

  function Drops(subs: seq<Subscriber>): seq<Entry>
    decreases |subs|
  {
    if subs == [] then [] else Drops(subs[..|subs| - 1]) + [Dropped(subs[|subs| - 1].ticket)]
  }

  // Modem restart: the list is emptied, the state stays.
  function DropAll(m: Machine): Machine {
    Say(m, Drops(m.subs)).(subs := [])
  }

  datatype Event =
    | SubscribeEv(handle: int, waitForClose: bool)
    | UnsubscribeEv(handle: int)
    | GrantedEv
    | ReleasedEv
    | DeniedEv
    | ModemRestart

  function Step(m: Machine, e: Event): Machine {
    match e
    case SubscribeEv(h, w) => Subscribe(m, h, w)
    case UnsubscribeEv(h) => Unsubscribe(m, h)
    case GrantedEv => OnGranted(m)
    case ReleasedEv => OnReleased(m)
    case DeniedEv => OnDenied(m)
    case ModemRestart => DropAll(m)
  }

  function Run(m: Machine, es: seq<Event>): Machine
    decreases |es|
  {
    if es == [] then m else Run(Step(m, es[0]), es[1..])
  }
}
