// The GPS lock: which requests the modem refuses while location is switched off.  Three kinds of
// command and every modem restart send a lock; the meaning of the configured one depends on whether
// the framework still uses NFW control.
module GpsLock {

  // A lock mask: its MO bit (mobile originated requests are locked), its NI bit (network initiated
  // requests are locked) and its other bits.
  datatype Mask = Mask(mo: bool, ni: bool, others: nat)

  const NONE := Mask(false, false, 0)
  const NI := Mask(false, true, 0)

  // mask & GNSS_CONFIG_GPS_LOCK_NI
  function OnlyNi(mask: Mask): Mask {
    Mask(false, mask.ni, 0)
  }

  // mask | GNSS_CONFIG_GPS_LOCK_MO
  function WithMo(mask: Mask): Mask {
    mask.(mo := true)
  }

  // mask | GNSS_CONFIG_GPS_LOCK_NI
  function WithNi(mask: Mask): Mask {
    mask.(ni := true)
  }

  // mask & ~GNSS_CONFIG_GPS_LOCK_NI
  function WithoutNi(mask: Mask): Mask {
    mask.(ni := false)
  }

  datatype Sent = Nothing | Sent(lock: Mask)

  datatype LocationError = Success | InvalidParameter | AlreadyStarted | IdUnknown

  // `owner` is the session that enabled location, 0 while it is disabled; `sent` is the lock last
  // sent to the modem.
  datatype Lock = Lock(configured: Mask, owner: nat, nfwControl: bool, sent: Sent)

  datatype Event =
    | Inject                       // at start and after every modem restart
    | Enable(id: nat, gnss: bool)
    | Disable(id: nat)
    | Update(mask: Mask)           // configuration update that carries a lock
    | ControlNfw(allow: bool)

  // What an injection sends.
  function Reinjected(s: Lock): Mask {
    if s.nfwControl || s.owner == 0 then s.configured else NONE
  }

  function Enabled(s: Lock, id: nat): Lock {
    if s.nfwControl then s.(owner := id, configured := OnlyNi(s.configured), sent := Sent(OnlyNi(s.configured)))
    else s.(owner := id, sent := Sent(NONE))
  }

  function Disabled(s: Lock): Lock {
    var mask := if s.nfwControl then WithMo(s.configured) else s.configured;
    s.(owner := 0, configured := mask, sent := Sent(mask))
  }

  function Updated(s: Lock, mask: Mask): Lock {
    var sent :=
      if s.owner == 0 then Sent(WithMo(mask))
      else if s.nfwControl then Sent(NONE)
      else s.sent;
    Lock(WithMo(mask), s.owner, false, sent)
  }

  function Controlled(s: Lock, allow: bool): Lock {
    var mask := if allow then WithoutNi(s.configured) else WithNi(s.configured);
    s.(configured := mask, sent := Sent(mask))
  }

  function Step(s: Lock, e: Event): Lock {
    match e
    case Inject => s.(sent := Sent(Reinjected(s)))
    case Enable(id, gnss) => if gnss && s.owner == 0 then Enabled(s, id) else s
    case Disable(id) => if id == s.owner then Disabled(s) else s
    case Update(mask) => Updated(s, mask)
    case ControlNfw(allow) => Controlled(s, allow)
  }

  function Run(s: Lock, events: seq<Event>): Lock
    decreases |events|
  {
    if events == [] then s else Step(Run(s, events[..|events| - 1]), events[|events| - 1])
  }

  // Session ids are never 0, and NFW control is only issued while it is supported.
  predicate Possible(s: Lock, e: Event) {
    match e
    case Enable(id, _) => id != 0
    case ControlNfw(_) => s.nfwControl
    case _ => true
  }

  predicate LegalRun(s: Lock, events: seq<Event>)
    decreases |events|
  {
    events != [] ==>
      LegalRun(s, events[..|events| - 1]) && Possible(Run(s, events[..|events| - 1]), events[|events| - 1])
  }

  function Fresh(configured: Mask): Lock {
    Lock(configured, 0, true, Nothing)
  }

  // The lock at the modem is the one an injection would send.
  predicate Coherent(s: Lock) {
    if s.sent == Nothing then s.owner == 0 else s.sent == Sent(Reinjected(s))
  }

  // Without NFW control the configured lock is the one for disabled location, so it locks MO; with it
  // the configured lock is the lock in force, so it spares MO while location is enabled.
  predicate Sound(s: Lock) {
    && (!s.nfwControl ==> s.configured.mo)
    && (s.nfwControl && s.owner != 0 ==> s.configured == NONE || s.configured == NI)
  }

  // NFW control processed after it was given up and while location is enabled.
  predicate Late(s: Lock, e: Event) {
    e.ControlNfw? && !s.nfwControl && s.owner != 0
  }

  // The events that send a lock from such a state: an injection, or the owner's disable.
  predicate Settles(s: Lock, e: Event) {
    e.Inject? || (e.Disable? && e.id == s.owner)
  }

  // Some late control has not been settled since.
  predicate Unsettled(s: Lock, events: seq<Event>)
    decreases |events|
  {
    events != [] &&
    var front, last := events[..|events| - 1], events[|events| - 1];
    Late(Run(s, front), last) || (Unsettled(s, front) && !Settles(Run(s, front), last))
  }

  predicate NonzeroIds(events: seq<Event>) {
    forall e :: e in events && e.Enable? ==> e.id != 0
  }

  // What an unsettled late control leaves behind: location enabled, MO locked at the modem.
  predicate Wrong(s: Lock) {
    !s.nfwControl && s.owner != 0 && s.sent.Sent? && s.sent.lock.mo
  }

  lemma StepIsCoherent(s: Lock, e: Event)
    requires Sound(s) && (Wrong(s) || Coherent(s)) && (e.Enable? ==> e.id != 0)
    ensures Sound(Step(s, e))
    ensures if Late(s, e) || (Wrong(s) && !Settles(s, e)) then Wrong(Step(s, e)) else Coherent(Step(s, e))
    ensures Wrong(Step(s, e)) ==> !Coherent(Step(s, e))
  {
  }

  // For every sequence of events: the modem's lock is what a restart would re-inject exactly when no
  // late control is unsettled.
  lemma {:induction false} CoherentExactly(configured: Mask, events: seq<Event>)
    requires NonzeroIds(events)
    ensures var s := Run(Fresh(configured), events);
            Sound(s) && (if Unsettled(Fresh(configured), events) then Wrong(s) && !Coherent(s) else Coherent(s))
    decreases |events|
  {
    if events != [] {
      var front, last := events[..|events| - 1], events[|events| - 1];
      CoherentExactly(configured, front);
      StepIsCoherent(Run(Fresh(configured), front), last);
    }
  }

  lemma {:induction false} LegalIsSettled(s: Lock, events: seq<Event>)
    requires LegalRun(s, events)
    ensures !Unsettled(s, events) && NonzeroIds(events)
    decreases |events|
  {
    if events != [] {
      var front, last := events[..|events| - 1], events[|events| - 1];
      LegalIsSettled(s, front);
      assert forall e :: e in events <==> e in front || e == last;
    }
  }

  // With each command processed when issued, the modem's lock is always what a restart would re-inject.
  lemma RunIsCoherent(configured: Mask, events: seq<Event>)
    requires LegalRun(Fresh(configured), events)
    ensures Coherent(Run(Fresh(configured), events)) && Sound(Run(Fresh(configured), events))
  {
    LegalIsSettled(Fresh(configured), events);
    CoherentExactly(configured, events);
  }

  // So a modem restart never changes the lock.
  lemma RestartChangesNothing(configured: Mask, events: seq<Event>)
    requires LegalRun(Fresh(configured), events) && Run(Fresh(configured), events).sent != Nothing
    ensures Run(Fresh(configured), events + [Inject]) == Run(Fresh(configured), events)
  {
    RunIsCoherent(configured, events);
    assert (events + [Inject])[..|events|] == events;
  }

  // In both modes, location enabled means the modem does not lock mobile originated requests.
  lemma EnabledIsUnlocked(configured: Mask, events: seq<Event>)
    requires LegalRun(Fresh(configured), events) && Run(Fresh(configured), events).owner != 0
    ensures Run(Fresh(configured), events).sent in {Sent(NONE), Sent(NI)}
  {
    RunIsCoherent(configured, events);
  }

  predicate Locked(s: Lock) {
    s.owner == 0 && s.configured.mo && s.sent == Sent(s.configured)
  }

  lemma StepKeepsLocked(s: Lock, e: Event)
    requires Locked(s) && !e.Enable?
    ensures Locked(Step(s, e))
  {
  }

  // Once location is disabled the modem locks mobile originated requests until the next enable,
  // whatever else happens, late NFW control included.
  lemma {:induction false} DisabledStaysLocked(s: Lock, later: seq<Event>)
    requires Sound(s) && forall e :: e in later ==> !e.Enable?
    ensures Locked(Run(Disabled(s), later))
    decreases |later|
  {
    if later != [] {
      var front, last := later[..|later| - 1], later[|later| - 1];
      DisabledStaysLocked(s, front);
      StepKeepsLocked(Run(Disabled(s), front), last);
    }
  }

  // ---- the modem's lock, bit by bit, from the history ----

  // NI is locked as the last NFW control or configuration update asked.
  function NiAsked(configured: Mask, events: seq<Event>): bool
    decreases |events|
  {
    if events == [] then configured.ni
    else
      match events[|events| - 1]
      case ControlNfw(allow) => !allow
      case Update(mask) => mask.ni
      case _ => NiAsked(configured, events[..|events| - 1])
  }

  predicate AnyUpdate(events: seq<Event>) {
    exists e :: e in events && e.Update?
  }

  function HolderAfter(configured: Mask, events: seq<Event>): nat {
    Run(Fresh(configured), events).owner
  }

  // Some command of the history found location disabled and enabled it, or was its owner's disable.
  predicate AnyEnable(configured: Mask, events: seq<Event>)
    decreases |events|
  {
    events != [] &&
    var front, last := events[..|events| - 1], events[|events| - 1];
    AnyEnable(configured, front) || (last.Enable? && last.gnss && HolderAfter(configured, front) == 0)
  }

  predicate AnyDisable(configured: Mask, events: seq<Event>)
    decreases |events|
  {
    events != [] &&
    var front, last := events[..|events| - 1], events[|events| - 1];
    AnyDisable(configured, front) || (last.Disable? && last.id == HolderAfter(configured, front))
  }

  // The other bits are those configured, or the last update's; enabling location under NFW control
  // clears them.
  function OthersAsked(configured: Mask, events: seq<Event>): nat
    decreases |events|
  {
    if events == [] then configured.others
    else
      var front, last := events[..|events| - 1], events[|events| - 1];
      if last.Update? then last.mask.others
      else if AnyEnable(configured, events) && !AnyUpdate(events) then 0
      else OthersAsked(configured, front)
  }

  // While NFW control is in use, location enabled spares MO and location disabled locks it; an update
  // makes the configured lock the one for disabled location.
  lemma {:induction false} ConfiguredFollowsHistory(configured: Mask, events: seq<Event>)
    requires NonzeroIds(events)
    ensures var s := Run(Fresh(configured), events);
            && (s.nfwControl <==> !AnyUpdate(events))
            && s.configured.ni == NiAsked(configured, events)
            && s.configured.others == OthersAsked(configured, events)
            && (s.configured.mo <==>
                  AnyUpdate(events) || (s.owner == 0 && (configured.mo || AnyDisable(configured, events))))
    decreases |events|
  {
    if events != [] {
      var front, last := events[..|events| - 1], events[|events| - 1];
      ConfiguredFollowsHistory(configured, front);
      ClearedSinceEnable(configured, front);
      assert forall e :: e in events <==> e in front || e == last;
    }
  }

  lemma {:induction false} ClearedSinceEnable(configured: Mask, events: seq<Event>)
    ensures AnyEnable(configured, events) && !AnyUpdate(events) ==> OthersAsked(configured, events) == 0
    decreases |events|
  {
  }

  // In every run of commands processed when issued, the lock at the modem is the one for enabled location
  // once NFW control is given up, and otherwise what the history says of each bit.
  lemma LockFollowsHistory(configured: Mask, events: seq<Event>)
    requires LegalRun(Fresh(configured), events)
    ensures var s := Run(Fresh(configured), events);
            s.sent.Sent? ==>
              if s.owner != 0 && AnyUpdate(events) then s.sent.lock == NONE
              else
                && s.sent.lock.ni == NiAsked(configured, events)
                && s.sent.lock.others == OthersAsked(configured, events)
                && (s.sent.lock.mo <==>
                      s.owner == 0 && (configured.mo || AnyUpdate(events) || AnyDisable(configured, events)))
  {
    LegalIsSettled(Fresh(configured), events);
    ConfiguredFollowsHistory(configured, events);
    RunIsCoherent(configured, events);
  }

  // NFW control itself: allowing it clears the NI bit at the modem, forbidding it sets the bit, and the
  // others stay as configured.
  lemma ControlSetsNi(s: Lock, allow: bool)
    ensures Step(s, ControlNfw(allow)).sent == Sent(Mask(s.configured.mo, !allow, s.configured.others))
  {
  }

  // And so it stays at the modem, whatever else is issued, until the next control or update.
  lemma {:induction false} ControlHolds(configured: Mask, before: seq<Event>, allow: bool, later: seq<Event>)
    requires LegalRun(Fresh(configured), before + [ControlNfw(allow)] + later)
    requires forall e :: e in later ==> !e.Update? && !e.ControlNfw?
    ensures var s := Run(Fresh(configured), before + [ControlNfw(allow)] + later);
            s.sent.Sent? && s.sent.lock.ni == !allow
    decreases |later|
  {
    var events := before + [ControlNfw(allow)] + later;
    ControlIsLast(configured, before, allow, later);
    LockFollowsHistory(configured, events);
  }

  lemma {:induction false} ControlIsLast(configured: Mask, before: seq<Event>, allow: bool, later: seq<Event>)
    requires LegalRun(Fresh(configured), before + [ControlNfw(allow)] + later)
    requires forall e :: e in later ==> !e.Update? && !e.ControlNfw?
    ensures var events := before + [ControlNfw(allow)] + later;
            NiAsked(configured, events) == !allow && !AnyUpdate(events) && Run(Fresh(configured), events).sent.Sent?
    decreases |later|
  {
    var events := before + [ControlNfw(allow)] + later;
    var front := events[..|events| - 1];
    if later == [] {
      assert events == before + [ControlNfw(allow)] && front == before;
      LegalIsSettled(Fresh(configured), front);
      ConfiguredFollowsHistory(configured, before);
      assert forall e :: e in events <==> e in before || e == ControlNfw(allow);
    } else {
      assert front == before + [ControlNfw(allow)] + later[..|later| - 1];
      ControlIsLast(configured, before, allow, later[..|later| - 1]);
      assert forall e :: e in events <==> e in front || e == later[|later| - 1];
    }
  }

  // ---- who may switch location ----

  // Enabling takes effect only while location is disabled, and disabling only for its owner.
  lemma OthersChangeNothing(s: Lock, e: Event)
    requires (e.Enable? && (s.owner != 0 || !e.gnss)) || (e.Disable? && e.id != s.owner)
    ensures Step(s, e) == s
  {
  }

  lemma EnableTakesOver(s: Lock, id: nat)
    requires s.owner == 0
    ensures Step(s, Enable(id, true)).owner == id && !Step(s, Enable(id, true)).sent.lock.mo
  {
  }

  // Location stays its owner's until the owner disables it, and is nobody's then.
  lemma {:induction false} OwnedUntilDisabled(s: Lock, later: seq<Event>)
    requires s.owner != 0 && Disable(s.owner) !in later
    ensures Run(s, later).owner == s.owner && Step(Run(s, later), Disable(s.owner)).owner == 0
    decreases |later|
  {
    if later != [] {
      OwnedUntilDisabled(s, later[..|later| - 1]);
      assert later[|later| - 1] in later;
    }
  }

  // Where coherence fails: location is enabled, an update gives up NFW control, and a control command
  // issued before that update is processed after it.
  lemma LateControlLocks(allow: bool) returns (events: seq<Event>)
    ensures LegalRun(Fresh(NONE), events)
    ensures var late := Step(Run(Fresh(NONE), events), ControlNfw(allow));
            Wrong(late) && !Coherent(late)
  {
    var enable, update := Enable(1, true), Update(NONE);
    events := [enable, update];
    assert [enable][..0] == [] && events[..1] == [enable];
    var s := Run(Fresh(NONE), events);
    assert Run(Fresh(NONE), []) == Fresh(NONE);
    assert Run(Fresh(NONE), [enable]) == Enabled(Fresh(NONE), 1);
    assert LegalRun(Fresh(NONE), []) && LegalRun(Fresh(NONE), [enable]);
    assert s == Updated(Enabled(Fresh(NONE), 1), NONE);
  }

  // ---- the adapter's commands as they run ----

  class GnssAdapter {
    var GPS_LOCK: Mask            // ContextBase::mGps_conf.GPS_LOCK
    var mAfwControlId: nat
    var mSupportNfwControl: bool
    var modem: Sent       // argument of the last setGpsLockSync

    ghost function State(): Lock
      reads this
    {
      Lock(GPS_LOCK, mAfwControlId, mSupportNfwControl, modem)
    }

    constructor (configured: Mask)
      ensures State() == Fresh(configured) && Coherent(State()) && Sound(State())
    {
      GPS_LOCK, mAfwControlId, mSupportNfwControl, modem := configured, 0, true, Nothing;
    }

    method SetGpsLockSync(lock: Mask)
      modifies this`modem
      ensures modem == Sent(lock)
    {
      modem := Sent(lock);
    }

    method SetConfig()
      modifies this`modem
      ensures State() == Step(old(State()), Inject)
    {
      var gpsLock := NONE;
      if mSupportNfwControl || mAfwControlId == 0 {
        gpsLock := GPS_LOCK;
      }
      SetGpsLockSync(gpsLock);
    }

    method EnableCommand(sessionId: nat, isGnss: bool) returns (err: LocationError)
      modifies this
      ensures State() == Step(old(State()), Enable(sessionId, isGnss))
      ensures err == if !isGnss then InvalidParameter else if old(mAfwControlId) != 0 then AlreadyStarted else Success
    {
      err := Success;
      if !isGnss {
        err := InvalidParameter;
      } else if mAfwControlId > 0 {
        err := AlreadyStarted;
      } else {
        mAfwControlId := sessionId;
        var gpsLock := NONE;
        if mSupportNfwControl {
          GPS_LOCK := OnlyNi(GPS_LOCK);
          gpsLock := GPS_LOCK;
        }
        SetGpsLockSync(gpsLock);
      }
    }

    method DisableCommand(sessionId: nat) returns (err: LocationError)
      modifies this
      ensures State() == Step(old(State()), Disable(sessionId))
      ensures err == if sessionId == old(mAfwControlId) then Success else IdUnknown
    {
      err := Success;
      if mAfwControlId != sessionId {
        err := IdUnknown;
      } else {
        mAfwControlId := 0;
        if mSupportNfwControl {
          GPS_LOCK := WithMo(GPS_LOCK);
        }
        SetGpsLockSync(GPS_LOCK);
      }
    }

    // The lock part of a configuration update.
    method GnssUpdateConfig(requested: Mask)
      modifies this
      ensures State() == Step(old(State()), Update(requested))
    {
      var newGpsLock, needEngineUpdate := WithMo(requested), true;
      GPS_LOCK := newGpsLock;
      if mAfwControlId != 0 {
        if mSupportNfwControl {
          newGpsLock := NONE;
        } else {
          needEngineUpdate := false;
        }
      }
      mSupportNfwControl := false;
      if needEngineUpdate {
        SetGpsLockSync(newGpsLock);
      }
    }

    method NfwControlCommand(enable: bool)
      modifies this
      ensures State() == Step(old(State()), ControlNfw(enable))
    {
      var gpsLock := GPS_LOCK;
      if enable {
        gpsLock := WithoutNi(gpsLock);
      } else {
        gpsLock := WithNi(gpsLock);
      }
      GPS_LOCK := gpsLock;
      SetGpsLockSync(gpsLock);
    }
  }
}
