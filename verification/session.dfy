/** Close reasons, and the wake-up protocol of `SessionCore` (src/session.rs), one shared-memory
operation per step, for any number of closers, setters, waiters and senders.

A `Notify` is the set of waiters enqueued on it; `notify_waiters` marks all of them and empties the
set. A waiter is enqueued from `enable` until it is marked or returns. */
module Session {
  import opened Ack
  import opened Wrappers

  // -------------------------------------------------------------------------
  // Close reasons
  // -------------------------------------------------------------------------

  datatype CloseReason =
    | Terminated
    | AgentClosed
    | PeerUnresponsive
    | DeliveryFailed(sequence: int, attempts: nat)
    | Transport
    | Protocol
  {
    predicate IsRecoverable() { PeerUnresponsive? || DeliveryFailed? || Transport? }

    predicate IsResumable() { PeerUnresponsive? || Transport? }
  }

  // -------------------------------------------------------------------------
  // State
  // -------------------------------------------------------------------------

  /** What a task waits for: `closed`, `wait_sendable`, or buffer room in `send_payload`. */
  datatype Kind = OnClosed | OnSendable | OnRoom

  /** `SawNotSendable` is between the two loads of `wait_sendable`. A sender whose `track` was refused
      polls `closed()` first in its select: it enables that future (`Armed`) and loads the flag. */
  datatype WaiterPc = Unqueued | Enabled | SawNotSendable | Refused | Armed | Parked | Returned(woken: bool)

  /** `notified`: marked on the primary `Notify`; `closedNotified`: a sender marked on the closed one. */
  datatype Waiter = Waiter(kind: Kind, pc: WaiterPc, notified: bool, closedNotified: bool)

  datatype CloserPc =
    | Swapping | Publishing | ClosingFanout | NotifyingClosed | NotifyingSendable | NotifyingAck | Finished(won: bool)

  datatype Closer = Closer(reason: CloseReason, pc: CloserPc)

  datatype SetterPc = Flipping(value: bool) | Announcing | Set

  /** The reader, between `acknowledge` and `notify_ack` or elsewhere. */
  datatype ReaderPc = Reading | MustNotify

  datatype Core = Core(
    closed: bool,
    reason: Option<CloseReason>,
    sendable: bool,
    out: OutState<int>,
    sequence: nat,
    reader: ReaderPc,
    closers: map<nat, Closer>,
    setters: map<nat, SetterPc>,
    waiters: map<nat, Waiter>,
    winner: Option<nat>)

  const INITIAL := Core(false, None, false, OutState([], DEFAULT_RTT), 0, Reading, map[], map[], map[], None)

  // -------------------------------------------------------------------------
  // Notification
  // -------------------------------------------------------------------------

  function MarkClosed(w: Waiter): Waiter {
    if w.kind.OnClosed? && (w.pc.Enabled? || w.pc.Parked?) then w.(notified := true)
    else if w.kind.OnRoom? && (w.pc.Armed? || w.pc.Parked?) then w.(closedNotified := true)
    else w
  }

  function MarkSendable(w: Waiter): Waiter {
    if w.kind.OnSendable? && (w.pc.Enabled? || w.pc.SawNotSendable? || w.pc.Parked?) then w.(notified := true) else w
  }

  function MarkAck(w: Waiter): Waiter {
    if w.kind.OnRoom? && (w.pc.Enabled? || w.pc.Refused? || w.pc.Armed? || w.pc.Parked?) then w.(notified := true) else w
  }

  function NotifyClosed(c: Core): Core { c.(waiters := map i | i in c.waiters :: MarkClosed(c.waiters[i])) }
  function NotifySendable(c: Core): Core { c.(waiters := map i | i in c.waiters :: MarkSendable(c.waiters[i])) }
  function NotifyAck(c: Core): Core { c.(waiters := map i | i in c.waiters :: MarkAck(c.waiters[i])) }

  predicate HasRoom(c: Core, capacity: nat) { |c.out.pending| < capacity }

  // -------------------------------------------------------------------------
  // Steps
  // -------------------------------------------------------------------------

  datatype Label =
    | StartClose(p: nat, reason: CloseReason)
    | CloserStep(p: nat)
    | StartSet(p: nat, value: bool)
    | SetterStep(p: nat)
    | StartWait(w: nat, kind: Kind)
    | WaiterStep(w: nat, now: nat)
    | Cancel(w: nat)
    | AckArrives(s: int, now: nat)
    | ReaderNotifies

  function Advance(c: Core, p: nat, pc: CloserPc): Core
    requires p in c.closers
  {
    c.(closers := c.closers[p := c.closers[p].(pc := pc)])
  }

  /** One operation of `close`. */
  function CloserStepped(c: Core, p: nat): Core
    requires p in c.closers
  {
    match c.closers[p].pc
    case Swapping =>
      if c.closed then Advance(c, p, Finished(false))
      else Advance(c, p, Publishing).(closed := true, winner := Some(p))
    case Publishing => Advance(c, p, ClosingFanout).(reason := Some(c.closers[p].reason))
    case ClosingFanout => Advance(c, p, NotifyingClosed)
    case NotifyingClosed => NotifyClosed(Advance(c, p, NotifyingSendable))
    case NotifyingSendable => NotifySendable(Advance(c, p, NotifyingAck))
    case NotifyingAck => NotifyAck(Advance(c, p, Finished(true)))
    case Finished(_) => c
  }

  /** One operation of `set_sendable`. */
  function SetterStepped(c: Core, p: nat): Core
    requires p in c.setters
  {
    match c.setters[p]
    case Flipping(value) =>
      c.(sendable := value, setters := c.setters[p := if value && !c.sendable then Announcing else Set])
    case Announcing => NotifySendable(c.(setters := c.setters[p := Set]))
    case Set => c
  }

  /** One operation of a waiter, given what it loads from shared memory. */
  function WaiterNext(x: Waiter, closed: bool, sendable: bool, room: bool): Waiter {
    match x.pc
    case Unqueued => Waiter(x.kind, Enabled, false, false)
    case Enabled =>
      x.(pc := match x.kind
               case OnClosed => if closed then Returned(false) else Parked
               case OnSendable => if sendable then Returned(false) else SawNotSendable
               case OnRoom => if room then Returned(false) else Refused)
    case SawNotSendable => x.(pc := if closed then Returned(false) else Parked)
    case Refused => x.(pc := Armed, closedNotified := false)
    case Armed => x.(pc := if closed then Returned(false) else Parked)
    case Parked =>
      if x.closedNotified then x.(pc := Returned(true))
      else if x.notified then x.(pc := if x.kind.OnClosed? then Returned(true) else Unqueued)
      else x
    case Returned(_) => x
  }

  /** ... and what it does to shared memory: only a sender that finds room changes any. */
  function WaiterStepped(c: Core, w: nat, capacity: nat, now: nat): Core
    requires w in c.waiters
  {
    var x := c.waiters[w];
    var c' := c.(waiters := c.waiters[w := WaiterNext(x, c.closed, c.sendable, HasRoom(c, capacity))]);
    if x.kind.OnRoom? && x.pc.Enabled? && HasRoom(c, capacity) then
      c'.(out := Tracked(c.out, c.sequence, c.sequence, now), sequence := c.sequence + 1)
    else c'
  }

  function Step(c: Core, event: Label, capacity: nat): Core {
    match event
    case StartClose(p, reason) => if p in c.closers then c else c.(closers := c.closers[p := Closer(reason, Swapping)])
    case CloserStep(p) => if p in c.closers then CloserStepped(c, p) else c
    case StartSet(p, value) => if p in c.setters then c else c.(setters := c.setters[p := Flipping(value)])
    case SetterStep(p) => if p in c.setters then SetterStepped(c, p) else c
    case StartWait(w, kind) =>
      if w in c.waiters then c else c.(waiters := c.waiters[w := Waiter(kind, Unqueued, false, false)])
    case WaiterStep(w, now) => if w in c.waiters then WaiterStepped(c, w, capacity, now) else c
    case Cancel(w) => c.(waiters := c.waiters - {w})
    case AckArrives(s, now) =>
      if !c.reader.Reading? then c
      else
        c.(out := Acknowledged(c.out, s, now),
           reader := if IndexOf(c.out.pending, s) < |c.out.pending| then MustNotify else Reading)
    case ReaderNotifies => if c.reader.MustNotify? then NotifyAck(c.(reader := Reading)) else c
  }

  function Run(labels: seq<Label>, capacity: nat): Core {
    if labels == [] then INITIAL
    else Step(Run(labels[..|labels| - 1], capacity), labels[|labels| - 1], capacity)
  }

  // -------------------------------------------------------------------------
  // Invariant
  // -------------------------------------------------------------------------

  /** The winner has not yet passed the given notification. */
  predicate BeforeClosedNotify(pc: CloserPc) { pc.Publishing? || pc.ClosingFanout? || pc.NotifyingClosed? }

  predicate BeforeSendableNotify(pc: CloserPc) { BeforeClosedNotify(pc) || pc.NotifyingSendable? }

  predicate Won(pc: CloserPc) { !pc.Swapping? && pc != Finished(false) }

  /** Exactly one closer wins the swap, and the reason on record is its own from the moment it is
      published. */
  ghost predicate LatchInv(c: Core) {
    && (c.closed <==> c.winner.Some?)
    && (c.winner.Some? ==> c.winner.value in c.closers && Won(c.closers[c.winner.value].pc))
    && (forall p :: p in c.closers && Won(c.closers[p].pc) ==> c.winner == Some(p))
    && (c.reason.Some? <==> c.winner.Some? && !c.closers[c.winner.value].pc.Publishing?)
    && (c.reason.Some? ==> c.reason.value == c.closers[c.winner.value].reason)
  }

  /** What the waiters' invariant depends on: the flag, whether a reason is on record, whether the
      winner still has to notify the closed and the sendable waiters, readiness, whether a setter
      still has to announce it, room in the buffer, and whether the reader still has to notify. */
  datatype Outlook = Outlook(
    closed: bool, published: bool, closedDue: bool, sendableDue: bool,
    sendable: bool, announcing: bool, room: bool, ackDue: bool)

  ghost predicate Announced(c: Core) { exists p :: p in c.setters && c.setters[p] == Announcing }

  ghost function OutlookOf(c: Core, capacity: nat): Outlook {
    var won := c.winner.Some? && c.winner.value in c.closers;
    Outlook(
      c.closed, c.reason.Some?,
      won && BeforeClosedNotify(c.closers[c.winner.value].pc),
      won && BeforeSendableNotify(c.closers[c.winner.value].pc),
      c.sendable, Announced(c), HasRoom(c, capacity), c.reader.MustNotify?)
  }

  /** No waiter stays un-marked behind its condition unless the notifier is still on its way. */
  predicate WaiterInv(x: Waiter, o: Outlook) {
    && (x.kind.OnClosed? && x.pc.Parked? && !x.notified && o.closed ==> o.closedDue)
    && (x.kind.OnClosed? && x.notified ==> o.published)
    && (x.kind.OnClosed? && x.pc == Returned(true) ==> o.published)
    && (x.kind.OnClosed? && x.pc == Returned(false) ==> o.closed)
    && (x.kind.OnSendable? && (x.pc.SawNotSendable? || x.pc.Parked?) && !x.notified && o.sendable ==> o.announcing)
    && (x.kind.OnSendable? && x.pc.Parked? && !x.notified && o.closed ==> o.sendableDue)
    && (x.kind.OnRoom? && (x.pc.Refused? || x.pc.Armed? || x.pc.Parked?) && !x.notified && o.room ==> o.ackDue)
    && (x.kind.OnRoom? && x.pc.Parked? && !x.closedNotified && o.closed ==> o.closedDue)
    && (x.kind.OnClosed? ==> !x.pc.SawNotSendable? && !x.pc.Refused? && !x.pc.Armed?)
    && (x.kind.OnSendable? ==> !x.pc.Refused? && !x.pc.Armed?)
    && (x.kind.OnRoom? ==> !x.pc.SawNotSendable?)
    && (!x.kind.OnRoom? ==> !x.closedNotified)
    && (x.closedNotified ==> o.closed)
  }

  ghost predicate Inv(c: Core, capacity: nat) {
    LatchInv(c) && forall w :: w in c.waiters ==> WaiterInv(c.waiters[w], OutlookOf(c, capacity))
  }

  // -------------------------------------------------------------------------
  // Every step keeps it
  // -------------------------------------------------------------------------

  lemma CloserLatch(c: Core, p: nat)
    requires LatchInv(c) && p in c.closers
    ensures LatchInv(CloserStepped(c, p))
  {
  }

  /** What a closer's step does to the outlook. */
  lemma CloserOutlook(c: Core, p: nat, capacity: nat)
    requires LatchInv(c) && p in c.closers
    ensures var o, o' := OutlookOf(c, capacity), OutlookOf(CloserStepped(c, p), capacity);
            match c.closers[p].pc
            case Swapping => if c.closed then o' == o else o' == o.(closed := true, closedDue := true, sendableDue := true)
            case Publishing => o.closedDue && o.sendableDue && o' == o.(published := true)
            case ClosingFanout => o' == o
            case NotifyingClosed => o.closed && o.published && o.sendableDue && o' == o.(closedDue := false)
            case NotifyingSendable => o' == o.(sendableDue := false)
            case NotifyingAck => o' == o
            case Finished(_) => o' == o
  {
    var c' := CloserStepped(c, p);
    assert Announced(c') <==> Announced(c);
  }

  lemma CloserWaiters(c: Core, p: nat, w: nat)
    requires p in c.closers
    ensures CloserStepped(c, p).waiters.Keys == c.waiters.Keys
    ensures w in c.waiters ==>
              CloserStepped(c, p).waiters[w] ==
                match c.closers[p].pc
                case NotifyingClosed => MarkClosed(c.waiters[w])
                case NotifyingSendable => MarkSendable(c.waiters[w])
                case NotifyingAck => MarkAck(c.waiters[w])
                case _ => c.waiters[w]
  {
    hide MarkClosed, MarkSendable, MarkAck;
  }

  lemma CloserKeeps(c: Core, p: nat, capacity: nat)
    requires Inv(c, capacity) && p in c.closers
    ensures Inv(CloserStepped(c, p), capacity)
  {
    hide LatchInv, CloserStepped, OutlookOf;
    CloserLatch(c, p);
    CloserOutlook(c, p, capacity);
    var c' := CloserStepped(c, p);
    CloserWaiters(c, p, 0);
    forall w | w in c'.waiters ensures WaiterInv(c'.waiters[w], OutlookOf(c', capacity)) {
      CloserWaiters(c, p, w);
      assert WaiterInv(c.waiters[w], OutlookOf(c, capacity));
    }
  }

  lemma SetterOutlook(c: Core, p: nat, capacity: nat)
    requires p in c.setters
    ensures var c' := SetterStepped(c, p);
            var o, o' := OutlookOf(c, capacity), OutlookOf(c', capacity);
            && o' == o.(sendable := o'.sendable, announcing := o'.announcing)
            && (c.setters[p].Flipping? ==>
                && (o'.sendable && !o.sendable ==> o'.announcing)
                && (o.announcing ==> o'.announcing))
            && (!c.setters[p].Flipping? ==> o'.sendable == o.sendable)
            && (c.setters[p].Set? ==> o' == o)
  {
    hide MarkSendable, BeforeClosedNotify, BeforeSendableNotify, Announced;
    if c.setters[p].Flipping? {
      SetterAnnounces(c, p);
    }
  }

  lemma SetterAnnounces(c: Core, p: nat)
    requires p in c.setters && c.setters[p].Flipping?
    ensures var c' := SetterStepped(c, p);
            (c'.sendable && !c.sendable ==> Announced(c')) && (Announced(c) ==> Announced(c'))
  {
    var c' := SetterStepped(c, p);
    assert p in c'.setters;
    if Announced(c) {
      var q :| q in c.setters && c.setters[q] == Announcing;
      assert q in c'.setters && c'.setters[q] == Announcing;
    }
  }

  lemma SetterKeeps(c: Core, p: nat, capacity: nat)
    requires Inv(c, capacity) && p in c.setters
    ensures Inv(SetterStepped(c, p), capacity)
  {
    hide OutlookOf, LatchInv;
    SetterOutlook(c, p, capacity);
    var c' := SetterStepped(c, p);
    LatchFrame(c, c');
    assert c'.waiters.Keys == c.waiters.Keys;
    forall w | w in c'.waiters ensures WaiterInv(c'.waiters[w], OutlookOf(c', capacity)) {
      assert WaiterInv(c.waiters[w], OutlookOf(c, capacity));
    }
  }

  /** A waiter's step leaves the outlook alone, except that a sender that gets in uses up room. */
  lemma WaiterOutlook(c: Core, w: nat, capacity: nat, now: nat)
    requires w in c.waiters
    ensures var o, o' := OutlookOf(c, capacity), OutlookOf(WaiterStepped(c, w, capacity, now), capacity);
            o' == o.(room := o'.room) && (o'.room ==> o.room)
  {
    hide WaiterNext, BeforeClosedNotify, BeforeSendableNotify;
    var c' := WaiterStepped(c, w, capacity, now);
    assert Announced(c') <==> Announced(c);
  }

  lemma OwnStep(x: Waiter, o: Outlook)
    requires WaiterInv(x, o)
    ensures WaiterInv(WaiterNext(x, o.closed, o.sendable, o.room), o)
  {
  }

  lemma WaiterKeeps(c: Core, w: nat, capacity: nat, now: nat)
    requires Inv(c, capacity) && w in c.waiters
    ensures Inv(WaiterStepped(c, w, capacity, now), capacity)
  {
    hide OutlookOf, WaiterNext, LatchInv, HasRoom;
    WaiterOutlook(c, w, capacity, now);
    WaiterLatch(c, w, capacity, now);
    OutlookFields(c, capacity);
    OwnStep(c.waiters[w], OutlookOf(c, capacity));
    var c' := WaiterStepped(c, w, capacity, now);
    forall x | x in c'.waiters ensures WaiterInv(c'.waiters[x], OutlookOf(c', capacity)) {
      assert WaiterInv(c'.waiters[x], OutlookOf(c, capacity));
    }
  }

  lemma OutlookFields(c: Core, capacity: nat)
    ensures var o := OutlookOf(c, capacity);
            o.closed == c.closed && o.sendable == c.sendable && o.room == HasRoom(c, capacity)
  {
  }

  lemma WaiterLatch(c: Core, w: nat, capacity: nat, now: nat)
    requires LatchInv(c) && w in c.waiters
    ensures LatchInv(WaiterStepped(c, w, capacity, now))
  {
  }

  lemma AckKeeps(c: Core, s: int, now: nat, capacity: nat)
    requires Inv(c, capacity)
    ensures Inv(Step(c, AckArrives(s, now), capacity), capacity)
  {
    hide Recorded, Elapsed, IndexOf;
    var c' := Step(c, AckArrives(s, now), capacity);
    assert Announced(c') <==> Announced(c);
    forall w | w in c'.waiters ensures WaiterInv(c'.waiters[w], OutlookOf(c', capacity)) {
      assert WaiterInv(c.waiters[w], OutlookOf(c, capacity));
    }
  }

  lemma ReaderNotifyOutlook(c: Core, capacity: nat)
    requires c.reader.MustNotify?
    ensures var c' := Step(c, ReaderNotifies, capacity);
            OutlookOf(c', capacity) == OutlookOf(c, capacity).(ackDue := false)
  {
    hide MarkAck, BeforeClosedNotify, BeforeSendableNotify;
    var c' := Step(c, ReaderNotifies, capacity);
    assert Announced(c') <==> Announced(c);
  }

  lemma LatchFrame(c: Core, c': Core)
    requires LatchInv(c)
    requires c'.closed == c.closed && c'.reason == c.reason && c'.closers == c.closers && c'.winner == c.winner
    ensures LatchInv(c')
  {
  }

  lemma ReaderNotifyKeeps(c: Core, capacity: nat)
    requires Inv(c, capacity)
    ensures Inv(Step(c, ReaderNotifies, capacity), capacity)
  {
    hide OutlookOf, LatchInv;
    var c' := Step(c, ReaderNotifies, capacity);
    LatchFrame(c, c');
    if c.reader.MustNotify? {
      ReaderNotifyOutlook(c, capacity);
      forall w | w in c'.waiters ensures WaiterInv(c'.waiters[w], OutlookOf(c', capacity)) {
        assert WaiterInv(c.waiters[w], OutlookOf(c, capacity));
      }
    }
  }

  lemma StartCloseKeeps(c: Core, p: nat, reason: CloseReason, capacity: nat)
    requires Inv(c, capacity)
    ensures Inv(Step(c, StartClose(p, reason), capacity), capacity)
  {
    var c' := Step(c, StartClose(p, reason), capacity);
    assert OutlookOf(c', capacity) == OutlookOf(c, capacity) by {
      assert Announced(c') <==> Announced(c);
    }
  }

  lemma StartSetKeeps(c: Core, p: nat, value: bool, capacity: nat)
    requires Inv(c, capacity)
    ensures Inv(Step(c, StartSet(p, value), capacity), capacity)
  {
    var c' := Step(c, StartSet(p, value), capacity);
    assert forall q :: q in c.setters && c.setters[q] == Announcing ==> q in c'.setters && c'.setters[q] == Announcing;
    assert OutlookOf(c', capacity) == OutlookOf(c, capacity);
  }

  lemma StartWaitKeeps(c: Core, w: nat, kind: Kind, capacity: nat)
    requires Inv(c, capacity)
    ensures Inv(Step(c, StartWait(w, kind), capacity), capacity)
  {
    var c' := Step(c, StartWait(w, kind), capacity);
    assert Announced(c') <==> Announced(c);
    assert OutlookOf(c', capacity) == OutlookOf(c, capacity);
  }

  lemma CancelKeeps(c: Core, w: nat, capacity: nat)
    requires Inv(c, capacity)
    ensures Inv(Step(c, Cancel(w), capacity), capacity)
  {
    var c' := Step(c, Cancel(w), capacity);
    assert Announced(c') <==> Announced(c);
    assert OutlookOf(c', capacity) == OutlookOf(c, capacity);
  }

  lemma StepKeeps(c: Core, event: Label, capacity: nat)
    requires Inv(c, capacity)
    ensures Inv(Step(c, event, capacity), capacity)
  {
    hide WaiterStepped, CloserStepped, SetterStepped, Inv, Acknowledged;
    match event
    case StartClose(p, reason) => StartCloseKeeps(c, p, reason, capacity);
    case CloserStep(p) =>
      if p in c.closers {
        CloserKeeps(c, p, capacity);
      }
    case StartSet(p, value) => StartSetKeeps(c, p, value, capacity);
    case SetterStep(p) =>
      if p in c.setters {
        SetterKeeps(c, p, capacity);
      }
    case StartWait(w, kind) => StartWaitKeeps(c, w, kind, capacity);
    case WaiterStep(w, now) =>
      if w in c.waiters {
        WaiterKeeps(c, w, capacity, now);
      }
    case Cancel(w) => CancelKeeps(c, w, capacity);
    case AckArrives(s, now) => AckKeeps(c, s, now, capacity);
    case ReaderNotifies => ReaderNotifyKeeps(c, capacity);
  }

  lemma {:induction false} RunInv(labels: seq<Label>, capacity: nat)
    ensures Inv(Run(labels, capacity), capacity)
  {
    hide Step, Inv;
    if labels == [] {
      InitialInv(capacity);
    } else {
      RunInv(labels[..|labels| - 1], capacity);
      StepKeeps(Run(labels[..|labels| - 1], capacity), labels[|labels| - 1], capacity);
    }
  }

  lemma InitialInv(capacity: nat)
    ensures Inv(INITIAL, capacity)
  {
  }

  // -------------------------------------------------------------------------
  // Main results
  // -------------------------------------------------------------------------

  /** No call to `close` or `set_sendable` is past its swap and still has to notify. */
  predicate NotifiersDone(c: Core) {
    && (forall p :: p in c.closers ==> c.closers[p].pc.Finished? || c.closers[p].pc.Swapping?)
    && (forall p :: p in c.setters ==> !c.setters[p].Announcing?)
  }

  /** Parked with no wake-up on its way. */
  predicate Asleep(x: Waiter) { x.pc.Parked? && !x.notified && !x.closedNotified }

  /** No lost wake-up: once no notifier is in the middle of its call, nobody sleeps through the close,
      and nobody sleeps through readiness. */
  lemma {:induction false} NoLostWakeUp(labels: seq<Label>, capacity: nat, w: nat)
    requires w in Run(labels, capacity).waiters && NotifiersDone(Run(labels, capacity))
    ensures var c := Run(labels, capacity);
            var x := c.waiters[w];
            && (c.closed ==> !Asleep(x))
            && (x.kind.OnSendable? && c.sendable ==> !Asleep(x))
  {
    hide Run;
    RunInv(labels, capacity);
    var c := Run(labels, capacity);
    assert WaiterInv(c.waiters[w], OutlookOf(c, capacity));
  }

  /** Returning early is ruled out as well: step `k` is the waiter's own, and the one that lets it go on. */
  ghost predicate ReturnsAt(labels: seq<Label>, capacity: nat, w: nat, k: nat) {
    && k < |labels| && labels[k].WaiterStep? && labels[k].w == w
    && w in Run(labels[..k], capacity).waiters && !Run(labels[..k], capacity).waiters[w].pc.Returned?
  }

  /** What a waiter of each kind may find at that step: the session closed; readiness, or the session
      closed; room, which it takes by adding exactly one entry, or the session closed. */
  ghost predicate Justified(c: Core, c': Core, kind: Kind, capacity: nat) {
    match kind
    case OnClosed => c.closed
    case OnSendable => c.sendable || c.closed
    case OnRoom =>
      || (c.closed && c'.out == c.out)
      || (|c.out.pending| < capacity && |c'.out.pending| == |c.out.pending| + 1
          && c'.out.pending[..|c.out.pending|] == c.out.pending
          && c'.out.pending[|c.out.pending|].sequence == c.sequence && c'.sequence == c.sequence + 1)
  }

  ghost predicate ReturnedRightly(labels: seq<Label>, capacity: nat, w: nat, kind: Kind) {
    exists k: nat :: ReturnsAt(labels, capacity, w, k) &&
      Justified(Run(labels[..k], capacity), Step(Run(labels[..k], capacity), labels[k], capacity), kind, capacity)
  }

  lemma OwnReturn(c: Core, w: nat, capacity: nat, now: nat)
    requires Inv(c, capacity) && w in c.waiters && !c.waiters[w].pc.Returned?
    ensures var c' := WaiterStepped(c, w, capacity, now);
            && w in c'.waiters && c'.waiters[w].kind == c.waiters[w].kind
            && (c'.waiters[w].pc.Returned? ==> Justified(c, c', c.waiters[w].kind, capacity))
  {
    assert WaiterInv(c.waiters[w], OutlookOf(c, capacity));
    hide BeforeClosedNotify, BeforeSendableNotify, Announced;
  }

  /** Notifying marks waiters; it moves none. */
  lemma NotifyMovesNone(c: Core, w: nat)
    ensures w in NotifySendable(c).waiters ==> w in c.waiters && SamePlace(NotifySendable(c).waiters[w], c.waiters[w])
    ensures w in NotifyAck(c).waiters ==> w in c.waiters && SamePlace(NotifyAck(c).waiters[w], c.waiters[w])
    ensures w in NotifyClosed(c).waiters ==> w in c.waiters && SamePlace(NotifyClosed(c).waiters[w], c.waiters[w])
  {
  }

  predicate SamePlace(x: Waiter, y: Waiter) { x.pc == y.pc && x.kind == y.kind }

  /** No other step makes a waiter return. */
  lemma OnlyOwnReturns(c: Core, event: Label, capacity: nat, w: nat)
    requires w in Step(c, event, capacity).waiters && Step(c, event, capacity).waiters[w].pc.Returned?
    requires !(event.WaiterStep? && event.w == w)
    ensures w in c.waiters && SamePlace(c.waiters[w], Step(c, event, capacity).waiters[w])
  {
    hide Acknowledged, IndexOf, CloserStepped, SetterStepped, WaiterNext, NotifyAck, NotifyClosed, NotifySendable;
    match event
    case CloserStep(p) => if p in c.closers { CloserMovesNone(c, p, w); }
    case SetterStep(p) => if p in c.setters { SetterMovesNone(c, p, w); }
    case ReaderNotifies => NotifyMovesNone(c.(reader := Reading), w);
    case _ =>
  }

  lemma CloserMovesNone(c: Core, p: nat, w: nat)
    requires p in c.closers && w in CloserStepped(c, p).waiters
    ensures w in c.waiters && SamePlace(c.waiters[w], CloserStepped(c, p).waiters[w])
  {
    hide CloserStepped;
    CloserWaiters(c, p, w);
  }

  lemma SetterMovesNone(c: Core, p: nat, w: nat)
    requires p in c.setters && w in SetterStepped(c, p).waiters
    ensures w in c.waiters && SamePlace(c.waiters[w], SetterStepped(c, p).waiters[w])
  {
    hide NotifySendable;
    NotifyMovesNone(c.(setters := c.setters[p := Set]), w);
  }

  lemma ReturnedBefore(labels: seq<Label>, capacity: nat, w: nat, kind: Kind)
    requires labels != [] && ReturnedRightly(labels[..|labels| - 1], capacity, w, kind)
    ensures ReturnedRightly(labels, capacity, w, kind)
  {
    hide Run, Step, Justified;
    var before := labels[..|labels| - 1];
    var k: nat :| ReturnsAt(before, capacity, w, k) &&
      Justified(Run(before[..k], capacity), Step(Run(before[..k], capacity), before[k], capacity), kind, capacity);
    assert before[..k] == labels[..k] && before[k] == labels[k];
    assert ReturnsAt(labels, capacity, w, k);
  }

  /** In every run, a waiter that has returned did so at a step of its own that found what it was waiting
      for: `closed` a closed session, `wait_sendable` readiness or a closed session, and a sender room,
      which it took, or a closed session. */
  lemma {:induction false} NoEarlyReturn(labels: seq<Label>, capacity: nat, w: nat)
    requires w in Run(labels, capacity).waiters && Run(labels, capacity).waiters[w].pc.Returned?
    ensures ReturnedRightly(labels, capacity, w, Run(labels, capacity).waiters[w].kind)
  {
    hide Step, Inv, Justified, WaiterStepped;
    if labels != [] {
      var n := |labels| - 1;
      var before, event := labels[..n], labels[n];
      var c := Run(before, capacity);
      var kind := Run(labels, capacity).waiters[w].kind;
      RunInv(before, capacity);
      if event.WaiterStep? && event.w == w {
        OwnStepIs(c, event, capacity, w);
        if !c.waiters[w].pc.Returned? {
          OwnReturn(c, w, capacity, event.now);
          assert labels[..n] == before;
          assert ReturnsAt(labels, capacity, w, n);
        } else {
          ReturnedStays(c, w, capacity, event.now);
          NoEarlyReturn(before, capacity, w);
          ReturnedBefore(labels, capacity, w, kind);
        }
      } else {
        OnlyOwnReturns(c, event, capacity, w);
        NoEarlyReturn(before, capacity, w);
        ReturnedBefore(labels, capacity, w, kind);
      }
    }
  }

  lemma OwnStepIs(c: Core, event: Label, capacity: nat, w: nat)
    requires event.WaiterStep? && event.w == w && w in Step(c, event, capacity).waiters
    ensures w in c.waiters && Step(c, event, capacity) == WaiterStepped(c, w, capacity, event.now)
  {
  }

  lemma ReturnedStays(c: Core, w: nat, capacity: nat, now: nat)
    requires w in c.waiters && c.waiters[w].pc.Returned?
    ensures var c' := WaiterStepped(c, w, capacity, now);
            && w in c'.waiters && c'.waiters[w] == c.waiters[w]
            && c'.closed == c.closed && c'.sendable == c.sendable && c'.out == c.out
  {
  }

  // -------------------------------------------------------------------------
  // Waking up means going on
  // -------------------------------------------------------------------------

  /** `n` steps of a waiter while nobody else moves. */
  function OwnSteps(w: nat, now: nat, n: nat): seq<Label> {
    if n == 0 then [] else OwnSteps(w, now, n - 1) + [WaiterStep(w, now)]
  }

  function Iterated(x: Waiter, closed: bool, sendable: bool, room: bool, n: nat): Waiter {
    if n == 0 then x else WaiterNext(Iterated(x, closed, sendable, room, n - 1), closed, sendable, room)
  }

  /** What the waiter waits for is there: the end of the session, or readiness, or room. */
  predicate Ready(x: Waiter, closed: bool, sendable: bool, room: bool) {
    closed || (x.kind.OnSendable? && sendable) || (x.kind.OnRoom? && room)
  }

  /** From the check on, a ready waiter returns at once, or after one or two more checks for the close. */
  function FromCheck(kind: Kind, sendable: bool, room: bool): nat {
    if kind.OnSendable? && !sendable then 2 else if kind.OnRoom? && !room then 3 else 1
  }

  /** How many steps a ready waiter still has to make. */
  function Left(x: Waiter, closed: bool, sendable: bool, room: bool): nat {
    var n := FromCheck(x.kind, sendable, room);
    match x.pc
    case Returned(_) => 0
    case Enabled => n
    case Unqueued => n + 1
    case Parked => n + 2
    case SawNotSendable => if closed then 1 else n + 3
    case Armed => if closed then 1 else n + 3
    case Refused => if closed then 2 else n + 4
  }

  /** Ready, and if it is past the check or parked then it has been marked, or finds the close itself. */
  predicate Awake(x: Waiter, closed: bool, sendable: bool, room: bool) {
    && Ready(x, closed, sendable, room)
    && (x.pc.Parked? ==> x.notified || (closed && x.closedNotified))
    && (!closed && (x.pc.SawNotSendable? || x.pc.Refused? || x.pc.Armed? || x.pc.Parked?) ==> x.notified)
    && (x.kind.OnClosed? ==> !x.pc.SawNotSendable? && !x.pc.Refused? && !x.pc.Armed?)
    && (x.kind.OnSendable? ==> !x.pc.Refused? && !x.pc.Armed?)
    && (x.kind.OnRoom? ==> !x.pc.SawNotSendable?)
  }

  lemma AwakeAtFirst(x: Waiter, o: Outlook)
    requires WaiterInv(x, o) && Ready(x, o.closed, o.sendable, o.room)
    requires !o.closedDue && !o.sendableDue && !o.announcing && !o.ackDue
    ensures Awake(x, o.closed, o.sendable, o.room) && Left(x, o.closed, o.sendable, o.room) <= 5
  {
  }

  ghost predicate GetsOn(x: Waiter, closed: bool, sendable: bool, room: bool) {
    var x' := WaiterNext(x, closed, sendable, room);
    && Awake(x', closed, sendable, room)
    && (x.pc.Returned? ==> x'.pc.Returned?)
    && (!x.pc.Returned? ==> Left(x', closed, sendable, room) < Left(x, closed, sendable, room))
  }

  lemma BeforeCheck(x: Waiter, closed: bool, sendable: bool, room: bool)
    requires Awake(x, closed, sendable, room) && x.pc.Unqueued?
    ensures GetsOn(x, closed, sendable, room)
  {
    assert WaiterNext(x, closed, sendable, room) == Waiter(x.kind, Enabled, false, false);
    hide WaiterNext;
  }

  lemma AtCheck(x: Waiter, closed: bool, sendable: bool, room: bool)
    requires Awake(x, closed, sendable, room) && x.pc.Enabled?
    ensures GetsOn(x, closed, sendable, room)
  {
    var x' := WaiterNext(x, closed, sendable, room);
    assert x'.kind == x.kind;
    assert x.kind.OnClosed? ==> x'.pc.Returned?;
    assert x.kind.OnSendable? ==> x'.pc == if sendable then Returned(false) else SawNotSendable;
    assert x.kind.OnRoom? ==> x'.pc == if room then Returned(false) else Refused;
    hide WaiterNext;
  }

  lemma PastCheck(x: Waiter, closed: bool, sendable: bool, room: bool)
    requires Awake(x, closed, sendable, room) && (x.pc.SawNotSendable? || x.pc.Refused? || x.pc.Armed?)
    ensures GetsOn(x, closed, sendable, room)
  {
    var x' := WaiterNext(x, closed, sendable, room);
    assert x'.kind == x.kind && x'.notified == x.notified;
    assert x'.pc == if x.pc.Refused? then Armed else if closed then Returned(false) else Parked;
    hide WaiterNext;
  }

  lemma WhenParked(x: Waiter, closed: bool, sendable: bool, room: bool)
    requires Awake(x, closed, sendable, room) && x.pc.Parked?
    ensures GetsOn(x, closed, sendable, room)
  {
    var x' := WaiterNext(x, closed, sendable, room);
    assert x'.kind == x.kind && (x'.pc.Returned? || x'.pc.Unqueued?);
    hide WaiterNext;
  }

  lemma AwakeNext(x: Waiter, closed: bool, sendable: bool, room: bool)
    requires Awake(x, closed, sendable, room)
    ensures GetsOn(x, closed, sendable, room)
  {
    match x.pc
    case Unqueued => BeforeCheck(x, closed, sendable, room);
    case Enabled => AtCheck(x, closed, sendable, room);
    case Parked => WhenParked(x, closed, sendable, room);
    case Returned(_) => assert WaiterNext(x, closed, sendable, room) == x;
    case _ => PastCheck(x, closed, sendable, room);
  }

  lemma {:induction false} AwakeReturns(x: Waiter, closed: bool, sendable: bool, room: bool, n: nat)
    requires Awake(x, closed, sendable, room)
    ensures var x' := Iterated(x, closed, sendable, room, n);
            && Awake(x', closed, sendable, room)
            && (x'.pc.Returned? || Left(x', closed, sendable, room) + n <= Left(x, closed, sendable, room))
  {
    hide WaiterNext, Awake, Left;
    if n > 0 {
      AwakeReturns(x, closed, sendable, room, n - 1);
      AwakeNext(Iterated(x, closed, sendable, room, n - 1), closed, sendable, room);
    }
  }

  /** Until it returns, a waiter that runs alone sees the same shared memory all the time. */
  lemma {:induction false} RunsAlone(labels: seq<Label>, capacity: nat, w: nat, now: nat, n: nat)
    requires w in Run(labels, capacity).waiters
    ensures var c, c' := Run(labels, capacity), Run(labels + OwnSteps(w, now, n), capacity);
            var x := Iterated(c.waiters[w], c.closed, c.sendable, HasRoom(c, capacity), n);
            && w in c'.waiters && c'.waiters[w] == x
            && (x.pc.Returned? || (c'.closed == c.closed && c'.sendable == c.sendable && c'.out == c.out))
  {
    hide Run, WaiterNext, Tracked;
    if n == 0 {
      assert labels + [] == labels;
    } else {
      RunsAlone(labels, capacity, w, now, n - 1);
      var before := labels + OwnSteps(w, now, n - 1);
      assert labels + OwnSteps(w, now, n) == before + [WaiterStep(w, now)];
      RunSnoc(before, WaiterStep(w, now), capacity);
      AloneStep(Run(before, capacity), w, capacity, now);
      ReturnedNext(Run(before, capacity).waiters[w]);
    }
  }

  lemma RunSnoc(labels: seq<Label>, event: Label, capacity: nat)
    ensures Run(labels + [event], capacity) == Step(Run(labels, capacity), event, capacity)
  {
    assert (labels + [event])[..|labels|] == labels;
  }

  lemma AloneStep(c: Core, w: nat, capacity: nat, now: nat)
    requires w in c.waiters
    ensures var c' := Step(c, WaiterStep(w, now), capacity);
            var x := WaiterNext(c.waiters[w], c.closed, c.sendable, HasRoom(c, capacity));
            && w in c'.waiters && c'.waiters[w] == x
            && (x.pc.Returned? || (c'.closed == c.closed && c'.sendable == c.sendable && c'.out == c.out))
  {
    hide Tracked;
  }

  lemma ReturnedNext(x: Waiter)
    ensures x.pc.Returned? ==> forall c, s, r :: WaiterNext(x, c, s, r) == x
  {
  }

  lemma LeftNothing(x: Waiter, closed: bool, sendable: bool, room: bool)
    requires Left(x, closed, sendable, room) == 0
    ensures x.pc.Returned?
  {
  }

  /** No lost wake-up, as progress: in every run, once no notifier is in the middle of its call, a waiter
      that finds the session closed, or readiness or room if that is what it waits for, returns within
      five steps of its own. */
  lemma {:induction false} ReturnsSoon(labels: seq<Label>, capacity: nat, w: nat, now: nat)
    requires w in Run(labels, capacity).waiters && NotifiersDone(Run(labels, capacity)) && Run(labels, capacity).reader.Reading?
    requires var c := Run(labels, capacity); Ready(c.waiters[w], c.closed, c.sendable, |c.out.pending| < capacity)
    ensures var c' := Run(labels + OwnSteps(w, now, 5), capacity); w in c'.waiters && c'.waiters[w].pc.Returned?
  {
    hide Run, Iterated, OwnSteps, Awake;
    RunInv(labels, capacity);
    var c := Run(labels, capacity);
    assert WaiterInv(c.waiters[w], OutlookOf(c, capacity));
    var room := HasRoom(c, capacity);
    AwakeAtFirst(c.waiters[w], OutlookOf(c, capacity));
    AwakeReturns(c.waiters[w], c.closed, c.sendable, room, 5);
    LeftNothing(Iterated(c.waiters[w], c.closed, c.sendable, room, 5), c.closed, c.sendable, room);
    RunsAlone(labels, capacity, w, now, 5);
  }

  /** The calls do what they say: `set_sendable` sets the flag at its first step, and the first step of
      `close` closes the session and wins if nobody did before. */
  lemma {:induction false} CallsTakeEffect(labels: seq<Label>, capacity: nat, p: nat)
    ensures var c := Run(labels, capacity);
            && (p in c.setters && c.setters[p].Flipping? ==>
                var c' := Step(c, SetterStep(p), capacity);
                c'.sendable == c.setters[p].value && (c'.setters[p].Announcing? <==> c'.sendable && !c.sendable))
            && (p in c.closers && c.closers[p].pc.Swapping? ==>
                var c' := Step(c, CloserStep(p), capacity);
                c'.closed && c'.winner == if c.closed then c.winner else Some(p))
  {
    hide Run;
  }

  /** Backpressure never sleeps through room: a sender asleep while the buffer has room means that the
      reader stands between `acknowledge` and `notify_ack`. */
  lemma {:induction false} NeverSleepsThroughRoom(labels: seq<Label>, capacity: nat, w: nat)
    requires w in Run(labels, capacity).waiters && Run(labels, capacity).waiters[w].kind.OnRoom?
    requires Asleep(Run(labels, capacity).waiters[w]) && HasRoom(Run(labels, capacity), capacity)
    ensures Run(labels, capacity).reader.MustNotify?
    ensures !Asleep(Step(Run(labels, capacity), ReaderNotifies, capacity).waiters[w])
  {
    hide Run;
    RunInv(labels, capacity);
    var c := Run(labels, capacity);
    assert WaiterInv(c.waiters[w], OutlookOf(c, capacity));
  }

  /** The reason on record is that of the closer that won the swap; it is missing from a closed session
      exactly while that closer has not published it yet; and every waiter that a notification brought
      back from `closed` can read it. */
  lemma {:induction false} ReasonIsTheWinners(labels: seq<Label>, capacity: nat, w: nat)
    ensures var c := Run(labels, capacity);
            && (c.reason.Some? ==>
                && c.winner.Some? && c.winner.value in c.closers
                && c.reason.value == c.closers[c.winner.value].reason)
            && (c.closed ==>
                && c.winner.Some? && c.winner.value in c.closers
                && (c.reason.None? <==> c.closers[c.winner.value].pc.Publishing?))
            && (w in c.waiters && c.waiters[w].kind.OnClosed? && c.waiters[w].pc.Returned? ==> c.closed)
            && (w in c.waiters && c.waiters[w].kind.OnClosed? && c.waiters[w].pc == Returned(true) ==> c.reason.Some?)
            && (c.closed && NotifiersDone(c) ==> c.reason.Some?)
  {
    hide Run;
    RunInv(labels, capacity);
    var c := Run(labels, capacity);
    if w in c.waiters {
      assert WaiterInv(c.waiters[w], OutlookOf(c, capacity));
    }
  }

  /** First reason wins: once recorded, no step changes it, and the flag never goes back. */
  lemma {:induction false} FirstReasonLatches(labels: seq<Label>, event: Label, capacity: nat)
    ensures var c, c' := Run(labels, capacity), Step(Run(labels, capacity), event, capacity);
            && (c.closed ==> c'.closed && c'.winner == c.winner)
            && (c.reason.Some? ==> c'.reason == c.reason)
  {
    hide Run, WaiterInv, WaiterStepped, Acknowledged, NotifyAck, NotifyClosed, NotifySendable;
    RunInv(labels, capacity);
    var c := Run(labels, capacity);
    match event
    case CloserStep(p) => CloserLatches(c, p);
    case SetterStep(p) => SetterLatches(c, p);
    case WaiterStep(w, now) => WaiterLatches(c, w, capacity, now);
    case ReaderNotifies => NotifyLatches(c);
    case _ =>
  }

  lemma CloserLatches(c: Core, p: nat)
    requires LatchInv(c)
    ensures p in c.closers ==>
              var c' := CloserStepped(c, p);
              && (c.closed ==> c'.closed && c'.winner == c.winner)
              && (c.reason.Some? ==> c'.reason == c.reason)
  {
  }

  lemma SetterLatches(c: Core, p: nat)
    ensures p in c.setters ==>
              var c' := SetterStepped(c, p); c'.closed == c.closed && c'.winner == c.winner && c'.reason == c.reason
  {
  }

  lemma WaiterLatches(c: Core, w: nat, capacity: nat, now: nat)
    ensures w in c.waiters ==>
              var c' := WaiterStepped(c, w, capacity, now);
              c'.closed == c.closed && c'.winner == c.winner && c'.reason == c.reason
  {
  }

  lemma NotifyLatches(c: Core)
    ensures NotifyAck(c).closed == c.closed && NotifyAck(c).winner == c.winner && NotifyAck(c).reason == c.reason
    ensures NotifyAck(c.(reader := Reading)).reason == c.reason
    ensures NotifyAck(c.(reader := Reading)).closed == c.closed && NotifyAck(c.(reader := Reading)).winner == c.winner
  {
  }

  /** The fast path of `closed()` is weaker: it can return in the window between the swap and the
      publication, when there is no reason to read yet. */
  lemma FastPathWindow(reason: CloseReason, capacity: nat) returns (labels: seq<Label>)
    ensures var c := Run(labels, capacity);
            && 0 in c.waiters && c.waiters[0] == Waiter(OnClosed, Returned(false), false, false)
            && c.winner == Some(0) && 0 in c.closers && c.closers[0].reason == reason && c.reason.None?
  {
    labels := [StartClose(0, reason), CloserStep(0), StartWait(0, OnClosed), WaiterStep(0, 0), WaiterStep(0, 0)];
    var c1 := Step(INITIAL, labels[0], capacity);
    var c2 := Step(c1, labels[1], capacity);
    var c3 := Step(c2, labels[2], capacity);
    var c4 := Step(c3, labels[3], capacity);
    var c5 := Step(c4, labels[4], capacity);
    hide Step;
    assert Run(labels[..0], capacity) == INITIAL;
    assert labels[..1][..0] == labels[..0] && Run(labels[..1], capacity) == c1;
    assert labels[..2][..1] == labels[..1] && Run(labels[..2], capacity) == c2;
    assert labels[..3][..2] == labels[..2] && Run(labels[..3], capacity) == c3;
    assert labels[..4][..3] == labels[..3] && Run(labels[..4], capacity) == c4;
    assert labels[..5][..4] == labels[..4] && Run(labels[..5], capacity) == c5;
    assert labels[..5] == labels;
  }
}
