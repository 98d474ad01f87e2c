/** Whole runs of the outgoing buffer: Karn's rule, head-only resending, the retransmission
budget, and draining a backlog. */
module AckRuns {
  import opened Ack

  /** One operation on the buffer; `dt` is the time that passed since the previous one. */
  datatype Op<W> =
    | Track(wire: W, dt: nat)
    | Acknowledge(sequence: int, dt: nat)
    | Poll(dt: nat)

  /** What an observer of the channel sees. `Acked` is logged for every acknowledgement that
      arrives, whether or not it retires anything. */
  datatype Event<W> =
    | Sent(sequence: int, at: nat, wire: W)
    | Resent(sequence: int, at: nat, wire: W)
    | Acked(sequence: int, at: nat)
    | Abandoned(sequence: int, attempts: nat)

  /** The buffer, the counter that numbers its messages, the clock, and the log. */
  datatype Channel<W> = Channel(out: OutState<W>, next: nat, now: nat, log: seq<Event<W>>)

  function Initial<W>(): Channel<W> {
    Channel(OutState([], DEFAULT_RTT), 0, 0, [])
  }

  function Step<W>(c: Channel<W>, op: Op<W>, capacity: nat, maxAttempts: nat): Channel<W> {
    var now := c.now + op.dt;
    match op
    case Track(wire, _) =>
      if |c.out.pending| >= capacity then c.(now := now)
      else Channel(Tracked(c.out, wire, c.next, now), c.next + 1, now, c.log + [Sent(c.next, now, wire)])
    case Acknowledge(sequence, _) =>
      Channel(Acknowledged(c.out, sequence, now), c.next, now, c.log + [Acked(sequence, now)])
    case Poll(_) =>
      match PollAction(c.out, maxAttempts, now)
      case Idle => c.(now := now)
      case Resend(s, wire) =>
        Channel(Polled(c.out, maxAttempts, now), c.next, now, c.log + [Resent(s, now, wire)])
      case GaveUp(s, attempts) => c.(now := now, log := c.log + [Abandoned(s, attempts)])
  }

  function Run<W>(ops: seq<Op<W>>, capacity: nat, maxAttempts: nat): Channel<W> {
    if ops == [] then Initial()
    else Step(Run(ops[..|ops| - 1], capacity, maxAttempts), ops[|ops| - 1], capacity, maxAttempts)
  }

  // -------------------------------------------------------------------------
  // Reference definitions, on the log alone
  // -------------------------------------------------------------------------

  /** How often the message numbered `s` was put on the wire. */
  function Transmissions<W>(log: seq<Event<W>>, s: int): nat {
    if log == [] then 0
    else
      var e := log[|log| - 1];
      Transmissions(log[..|log| - 1], s) + if (e.Sent? || e.Resent?) && e.sequence == s then 1 else 0
  }

  /** Sent, and no acknowledgement for it has arrived since. */
  predicate Outstanding<W>(log: seq<Event<W>>, s: int) {
    if log == [] then false
    else
      var e := log[|log| - 1];
      if e.Sent? && e.sequence == s then true
      else if e.Acked? && e.sequence == s then false
      else Outstanding(log[..|log| - 1], s)
  }

  /** When the message numbered `s` was first sent (0 if it never was). */
  function SentAt<W>(log: seq<Event<W>>, s: int): nat {
    if log == [] then 0
    else
      var e := log[|log| - 1];
      if e.Sent? && e.sequence == s then e.at else SentAt(log[..|log| - 1], s)
  }

  /** When the message numbered `s` was last put on the wire (0 if it never was). */
  function LastTransmission<W>(log: seq<Event<W>>, s: int): nat {
    if log == [] then 0
    else
      var e := log[|log| - 1];
      if (e.Sent? || e.Resent?) && e.sequence == s then e.at else LastTransmission(log[..|log| - 1], s)
  }

  /** The time from `sent` to `at`. No run has an acknowledgement before its message (`ClockRuns`). */
  function Since(at: nat, sent: nat): (d: nat)
    ensures sent <= at ==> sent + d == at
    ensures at < sent ==> d == 0
  {
    if sent <= at then at - sent else 0
  }

  /** Karn's rule (section 3 of RFC 6298): an acknowledgement yields a sample exactly when its
      message is outstanding and was transmitted once; the sample is the time since it was sent. */
  function KarnSamples<W>(log: seq<Event<W>>): seq<nat> {
    if log == [] then []
    else
      var e, before := log[|log| - 1], log[..|log| - 1];
      if e.Acked? && Outstanding(before, e.sequence) && Transmissions(before, e.sequence) == 1 then
        KarnSamples(before) + [Since(e.at, SentAt(before, e.sequence))]
      else KarnSamples(before)
  }

  function Resends<W>(log: seq<Event<W>>): nat {
    if log == [] then 0 else Resends(log[..|log| - 1]) + if log[|log| - 1].Resent? then 1 else 0
  }

  /** The resends that the messages sent so far may use up in total. */
  function Granted<W>(log: seq<Event<W>>, maxAttempts: nat): nat {
    if log == [] then 0
    else Granted(log[..|log| - 1], maxAttempts) + if log[|log| - 1].Sent? then Allowance(maxAttempts) - 1 else 0
  }

  /** Transmissions a message may use up in total. */
  function Allowance(maxAttempts: nat): nat { if maxAttempts == 0 then 1 else maxAttempts }

  /** Resends the queue can still pay for. */
  function Budget<W>(pending: seq<Pending<W>>, maxAttempts: nat): nat {
    if pending == [] then 0
    else
      Budget(pending[..|pending| - 1], maxAttempts) +
      if pending[|pending| - 1].attempts < maxAttempts then maxAttempts - pending[|pending| - 1].attempts else 0
  }

  // -------------------------------------------------------------------------
  // The invariant
  // -------------------------------------------------------------------------

  ghost predicate Sorted<W>(pending: seq<Pending<W>>) {
    forall i, j :: 0 <= i < j < |pending| ==> pending[i].sequence < pending[j].sequence
  }

  /** The entry numbered `s`, if any, mirrors what the log says about `s`. */
  ghost predicate MirrorsAt<W>(pending: seq<Pending<W>>, log: seq<Event<W>>, next: nat, maxAttempts: nat, s: int) {
    var i := IndexOf(pending, s);
    && (Outstanding(log, s) <==> i < |pending|)
    && (Transmissions(log, s) > 0 ==> 0 <= s < next)
    && Transmissions(log, s) <= Allowance(maxAttempts)
    && (i < |pending| ==>
        && pending[i].attempts == Transmissions(log, s) >= 1
        && pending[i].lastSent == LastTransmission(log, s)
        && (pending[i].attempts == 1 ==> pending[i].lastSent == SentAt(log, s)))
  }

  ghost predicate Mirrors<W>(c: Channel<W>, maxAttempts: nat, s: int) {
    MirrorsAt(c.out.pending, c.log, c.next, maxAttempts, s)
  }

  ghost predicate Inv<W>(c: Channel<W>, capacity: nat, maxAttempts: nat) {
    && |c.out.pending| <= capacity
    && Sorted(c.out.pending)
    && (forall s :: Mirrors(c, maxAttempts, s))
    && c.out.rtt == RecordedAll(DEFAULT_RTT, KarnSamples(c.log))
    && WithinBudget(c, maxAttempts)
  }

  // -------------------------------------------------------------------------
  // Small facts
  // -------------------------------------------------------------------------

  /** What one more event does to the reference functions. */
  lemma LogGrowsAt<W>(log: seq<Event<W>>, e: Event<W>, s: int)
    ensures Transmissions(log + [e], s) ==
            Transmissions(log, s) + if (e.Sent? || e.Resent?) && e.sequence == s then 1 else 0
    ensures Outstanding(log + [e], s) <==>
            (e.Sent? && e.sequence == s) || (!(e.Acked? && e.sequence == s) && Outstanding(log, s))
    ensures SentAt(log + [e], s) == if e.Sent? && e.sequence == s then e.at else SentAt(log, s)
    ensures LastTransmission(log + [e], s) ==
            if (e.Sent? || e.Resent?) && e.sequence == s then e.at else LastTransmission(log, s)
  {
    assert (log + [e])[..|log|] == log;
  }

  lemma LogGrows<W>(log: seq<Event<W>>, e: Event<W>, maxAttempts: nat)
    ensures Granted(log + [e], maxAttempts) ==
            Granted(log, maxAttempts) + if e.Sent? then Allowance(maxAttempts) - 1 else 0
    ensures Resends(log + [e]) == Resends(log) + if e.Resent? then 1 else 0
    ensures KarnSamples(log + [e]) ==
            if e.Acked? && Outstanding(log, e.sequence) && Transmissions(log, e.sequence) == 1
            then KarnSamples(log) + [Since(e.at, SentAt(log, e.sequence))] else KarnSamples(log)
  {
    assert (log + [e])[..|log|] == log;
  }

  lemma IndexOfIs<W>(pending: seq<Pending<W>>, s: int, i: nat)
    requires i <= |pending| && (i < |pending| ==> pending[i].sequence == s)
    requires forall j :: 0 <= j < i ==> pending[j].sequence != s
    ensures IndexOf(pending, s) == i
  {
  }

  lemma IndexOfAppend<W>(pending: seq<Pending<W>>, p: Pending<W>, s: int)
    ensures var i := IndexOf(pending, s);
            IndexOf(pending + [p], s) == if i == |pending| && p.sequence != s then i + 1 else i
  {
    var i := IndexOf(pending, s);
    var i' := if i == |pending| && p.sequence != s then i + 1 else i;
    assert forall j :: 0 <= j < |pending| ==> (pending + [p])[j] == pending[j];
    IndexOfIs(pending + [p], s, i');
  }

  lemma IndexOfRemove<W>(pending: seq<Pending<W>>, i: nat, s: int)
    requires i < |pending| && Sorted(pending)
    ensures var j := IndexOf(pending, s);
            var shorter := pending[..i] + pending[i + 1..];
            && Sorted(shorter)
            && IndexOf(shorter, s) == (if s == pending[i].sequence then |shorter| else if j < i then j else j - 1)
            && (s == pending[i].sequence ==> j == i)
  {
    var j := IndexOf(pending, s);
    var shorter := pending[..i] + pending[i + 1..];
    assert forall k :: 0 <= k < |shorter| ==> shorter[k] == pending[if k < i then k else k + 1];
    if s == pending[i].sequence {
      IndexOfIs(pending, s, i);
      IndexOfIs(shorter, s, |shorter|);
    } else {
      IndexOfIs(shorter, s, if j < i then j else j - 1);
    }
  }

  lemma IndexOfUpdate<W>(pending: seq<Pending<W>>, p: Pending<W>, s: int)
    requires pending != [] && p.sequence == pending[0].sequence
    ensures IndexOf(pending[0 := p], s) == IndexOf(pending, s)
  {
    IndexOfIs(pending[0 := p], s, IndexOf(pending, s));
  }

  lemma {:induction false} BudgetRemove<W>(pending: seq<Pending<W>>, i: nat, maxAttempts: nat)
    requires i < |pending|
    ensures Budget(pending[..i] + pending[i + 1..], maxAttempts) <= Budget(pending, maxAttempts)
  {
    var last := |pending| - 1;
    var shorter := pending[..i] + pending[i + 1..];
    if i == last {
      assert shorter == pending[..last];
    } else {
      BudgetRemove(pending[..last], i, maxAttempts);
      assert shorter[..last - 1] == pending[..last][..i] + pending[..last][i + 1..];
    }
  }

  lemma {:induction false} BudgetSpend<W>(pending: seq<Pending<W>>, entry: Pending<W>, maxAttempts: nat)
    requires pending != [] && pending[0].attempts < maxAttempts
    requires entry.attempts == pending[0].attempts + 1
    ensures Budget(pending[0 := entry], maxAttempts) + 1 == Budget(pending, maxAttempts)
  {
    var last := |pending| - 1;
    var after := pending[0 := entry];
    if last == 0 {
      assert after[..last] == pending[..last];
    } else {
      BudgetSpend(pending[..last], entry, maxAttempts);
      assert after[..last] == pending[..last][0 := entry];
    }
  }

  lemma BudgetAppend<W>(pending: seq<Pending<W>>, p: Pending<W>, maxAttempts: nat)
    ensures Budget(pending + [p], maxAttempts) ==
            Budget(pending, maxAttempts) + if p.attempts < maxAttempts then maxAttempts - p.attempts else 0
  {
    assert (pending + [p])[..|pending|] == pending;
  }

  lemma SamplesGrow(samples: seq<nat>, x: nat)
    ensures RecordedAll(DEFAULT_RTT, samples + [x]) == Recorded(RecordedAll(DEFAULT_RTT, samples), x)
  {
    assert (samples + [x])[..|samples|] == samples;
  }

  // -------------------------------------------------------------------------
  // Every step keeps the invariant
  // -------------------------------------------------------------------------

  lemma TrackMirrors<W>(pending: seq<Pending<W>>, log: seq<Event<W>>, next: nat, maxAttempts: nat, wire: W, now: nat, s: int)
    requires MirrorsAt(pending, log, next, maxAttempts, s)
    ensures MirrorsAt(pending + [Pending(wire, next, now, 1)], log + [Sent(next, now, wire)], next + 1, maxAttempts, s)
  {
    hide Transmissions, Outstanding, LastTransmission, SentAt, IndexOf;
    LogGrowsAt(log, Sent(next, now, wire), s);
    IndexOfAppend(pending, Pending(wire, next, now, 1), s);
  }

  lemma RetireMirrors<W>(pending: seq<Pending<W>>, log: seq<Event<W>>, next: nat, maxAttempts: nat, i: nat, now: nat, s: int)
    requires i < |pending| && Sorted(pending) && MirrorsAt(pending, log, next, maxAttempts, s)
    ensures MirrorsAt(pending[..i] + pending[i + 1..], log + [Acked(pending[i].sequence, now)], next, maxAttempts, s)
  {
    hide Transmissions, Outstanding, LastTransmission, SentAt, IndexOf;
    LogGrowsAt(log, Acked(pending[i].sequence, now), s);
    IndexOfRemove(pending, i, s);
  }

  lemma StrayAckMirrors<W>(pending: seq<Pending<W>>, log: seq<Event<W>>, next: nat, maxAttempts: nat, x: int, now: nat, s: int)
    requires IndexOf(pending, x) == |pending| && MirrorsAt(pending, log, next, maxAttempts, s)
    ensures MirrorsAt(pending, log + [Acked(x, now)], next, maxAttempts, s)
  {
    hide Transmissions, Outstanding, LastTransmission, SentAt;
    LogGrowsAt(log, Acked(x, now), s);
  }

  lemma ResendMirrors<W>(pending: seq<Pending<W>>, log: seq<Event<W>>, next: nat, maxAttempts: nat, now: nat, s: int)
    requires pending != [] && pending[0].attempts < maxAttempts
    requires MirrorsAt(pending, log, next, maxAttempts, s)
    ensures MirrorsAt(pending[0 := pending[0].(lastSent := now, attempts := pending[0].attempts + 1)],
                      log + [Resent(pending[0].sequence, now, pending[0].wire)], next, maxAttempts, s)
  {
    hide Transmissions, Outstanding, LastTransmission, SentAt, IndexOf;
    LogGrowsAt(log, Resent(pending[0].sequence, now, pending[0].wire), s);
    IndexOfUpdate(pending, pending[0].(lastSent := now, attempts := pending[0].attempts + 1), s);
    if s == pending[0].sequence {
      IndexOfIs(pending, s, 0);
    }
  }

  lemma AcknowledgeMirrors<W>(c: Channel<W>, x: int, dt: nat, capacity: nat, maxAttempts: nat, s: int)
    requires Sorted(c.out.pending) && Mirrors(c, maxAttempts, s)
    ensures Mirrors(Step(c, Acknowledge(x, dt), capacity, maxAttempts), maxAttempts, s)
  {
    hide MirrorsAt, Recorded;
    var p := c.out.pending;
    if IndexOf(p, x) < |p| {
      RetireMirrors(p, c.log, c.next, maxAttempts, IndexOf(p, x), c.now + dt, s);
    } else {
      StrayAckMirrors(p, c.log, c.next, maxAttempts, x, c.now + dt, s);
    }
  }

  lemma PollMirrors<W>(c: Channel<W>, dt: nat, capacity: nat, maxAttempts: nat, s: int)
    requires Mirrors(c, maxAttempts, s)
    ensures Mirrors(Step(c, Poll(dt), capacity, maxAttempts), maxAttempts, s)
  {
    hide Transmissions, Outstanding, LastTransmission, SentAt, Elapsed;
    match PollAction(c.out, maxAttempts, c.now + dt)
    case Idle =>
    case GaveUp(x, attempts) => LogGrowsAt(c.log, Abandoned(x, attempts), s);
    case Resend(_, _) => ResendMirrors(c.out.pending, c.log, c.next, maxAttempts, c.now + dt, s);
  }

  /** The part of the invariant about one number. */
  lemma StepMirrors<W>(c: Channel<W>, op: Op<W>, capacity: nat, maxAttempts: nat, s: int)
    requires Sorted(c.out.pending) && Mirrors(c, maxAttempts, s)
    ensures Mirrors(Step(c, op, capacity, maxAttempts), maxAttempts, s)
  {
    hide MirrorsAt, Recorded, PollAction, Polled, Acknowledged, IndexOf;
    match op
    case Track(wire, dt) => TrackMirrors(c.out.pending, c.log, c.next, maxAttempts, wire, c.now + dt, s);
    case Acknowledge(x, dt) => AcknowledgeMirrors(c, x, dt, capacity, maxAttempts, s);
    case Poll(dt) => PollMirrors(c, dt, capacity, maxAttempts, s);
  }

  /** The part about order and capacity. */
  lemma StepSorted<W>(c: Channel<W>, op: Op<W>, capacity: nat, maxAttempts: nat)
    requires Inv(c, capacity, maxAttempts)
    ensures var c' := Step(c, op, capacity, maxAttempts);
            Sorted(c'.out.pending) && |c'.out.pending| <= capacity
  {
    var p := c.out.pending;
    match op
    case Track(_, _) =>
      forall i | 0 <= i < |p| ensures p[i].sequence < c.next {
        assert Mirrors(c, maxAttempts, p[i].sequence);
        assert IndexOf(p, p[i].sequence) <= i;
      }
    case Acknowledge(sequence, _) =>
      var i := IndexOf(p, sequence);
      if i < |p| {
        IndexOfRemove(p, i, sequence);
      }
    case Poll(_) =>
  }

  /** The part about the estimate. */
  lemma StepEstimate<W>(c: Channel<W>, op: Op<W>, capacity: nat, maxAttempts: nat)
    requires Inv(c, capacity, maxAttempts)
    ensures var c' := Step(c, op, capacity, maxAttempts);
            c'.out.rtt == RecordedAll(DEFAULT_RTT, KarnSamples(c'.log))
  {
    hide Recorded, RecordedAll, KarnSamples, Granted, Resends, Transmissions, Outstanding, LastTransmission, SentAt, Budget;
    var c' := Step(c, op, capacity, maxAttempts);
    match op
    case Track(wire, _) => LogGrows(c.log, Sent(c.next, c'.now, wire), maxAttempts);
    case Acknowledge(sequence, _) =>
      LogGrows(c.log, Acked(sequence, c'.now), maxAttempts);
      assert Mirrors(c, maxAttempts, sequence);
      SamplesGrow(KarnSamples(c.log), Since(c'.now, SentAt(c.log, sequence)));
    case Poll(_) =>
      match PollAction(c.out, maxAttempts, c'.now)
      case Idle =>
      case GaveUp(x, attempts) => LogGrows(c.log, Abandoned(x, attempts), maxAttempts);
      case Resend(x, wire) => LogGrows(c.log, Resent(x, c'.now, wire), maxAttempts);
  }

  ghost predicate WithinBudget<W>(c: Channel<W>, maxAttempts: nat) {
    Resends(c.log) + Budget(c.out.pending, maxAttempts) <= Granted(c.log, maxAttempts)
  }

  lemma TrackBudget<W>(c: Channel<W>, op: Op<W>, capacity: nat, maxAttempts: nat)
    requires op.Track? && WithinBudget(c, maxAttempts)
    ensures WithinBudget(Step(c, op, capacity, maxAttempts), maxAttempts)
  {
    hide Recorded, Resends, Granted, Budget, KarnSamples, Elapsed;
    var now := c.now + op.dt;
    LogGrows(c.log, Sent(c.next, now, op.wire), maxAttempts);
    BudgetAppend(c.out.pending, Pending(op.wire, c.next, now, 1), maxAttempts);
  }

  lemma AcknowledgeBudget<W>(c: Channel<W>, op: Op<W>, capacity: nat, maxAttempts: nat)
    requires op.Acknowledge? && WithinBudget(c, maxAttempts)
    ensures WithinBudget(Step(c, op, capacity, maxAttempts), maxAttempts)
  {
    hide Recorded, Resends, Granted, Budget, KarnSamples, Elapsed;
    LogGrows(c.log, Acked(op.sequence, c.now + op.dt), maxAttempts);
    var i := IndexOf(c.out.pending, op.sequence);
    if i < |c.out.pending| {
      BudgetRemove(c.out.pending, i, maxAttempts);
    }
  }

  lemma PollBudget<W>(c: Channel<W>, op: Op<W>, capacity: nat, maxAttempts: nat)
    requires op.Poll? && WithinBudget(c, maxAttempts)
    ensures WithinBudget(Step(c, op, capacity, maxAttempts), maxAttempts)
  {
    hide Recorded, Resends, Granted, Budget, KarnSamples, Elapsed;
    var c' := Step(c, op, capacity, maxAttempts);
    match PollAction(c.out, maxAttempts, c'.now)
    case Idle =>
    case GaveUp(x, attempts) => LogGrows(c.log, Abandoned(x, attempts), maxAttempts);
    case Resend(x, wire) =>
      LogGrows(c.log, Resent(x, c'.now, wire), maxAttempts);
      BudgetSpend(c.out.pending, c'.out.pending[0], maxAttempts);
  }

  /** The part about the budget. */
  lemma StepBudget<W>(c: Channel<W>, op: Op<W>, capacity: nat, maxAttempts: nat)
    requires WithinBudget(c, maxAttempts)
    ensures WithinBudget(Step(c, op, capacity, maxAttempts), maxAttempts)
  {
    hide WithinBudget, Step;
    match op
    case Track(_, _) => TrackBudget(c, op, capacity, maxAttempts);
    case Acknowledge(_, _) => AcknowledgeBudget(c, op, capacity, maxAttempts);
    case Poll(_) => PollBudget(c, op, capacity, maxAttempts);
  }

  lemma InitialInv<W>(capacity: nat, maxAttempts: nat)
    ensures Inv(Initial<W>(), capacity, maxAttempts)
  {
  }

  lemma {:induction false} RunInv<W>(ops: seq<Op<W>>, capacity: nat, maxAttempts: nat)
    ensures Inv(Run(ops, capacity, maxAttempts), capacity, maxAttempts)
  {
    hide Step, Mirrors, WithinBudget, Sorted;
    if ops == [] {
      InitialInv<W>(capacity, maxAttempts);
    } else {
      RunInv(ops[..|ops| - 1], capacity, maxAttempts);
      var c, op := Run(ops[..|ops| - 1], capacity, maxAttempts), ops[|ops| - 1];
      StepSorted(c, op, capacity, maxAttempts);
      StepEstimate(c, op, capacity, maxAttempts);
      StepBudget(c, op, capacity, maxAttempts);
      forall s ensures Mirrors(Step(c, op, capacity, maxAttempts), maxAttempts, s) {
        StepMirrors(c, op, capacity, maxAttempts, s);
      }
    }
  }

  // -------------------------------------------------------------------------
  // Main results
  // -------------------------------------------------------------------------

  /** The messages in the order of their first transmission. */
  function SentWires<W>(log: seq<Event<W>>): seq<W> {
    if log == [] then []
    else SentWires(log[..|log| - 1]) + if log[|log| - 1].Sent? then [log[|log| - 1].wire] else []
  }

  lemma WiresGrow<W>(log: seq<Event<W>>, e: Event<W>)
    ensures SentWires(log + [e]) == if e.Sent? then SentWires(log) + [e.wire] else SentWires(log)
  {
    assert (log + [e])[..|log|] == log;
    assert SentWires(log) + [] == SentWires(log);
  }

  /** Whatever carries a number, in the queue or on the wire, carries the message first sent under it, and
      the log is in the order of time. */
  ghost predicate WireInv<W>(c: Channel<W>) {
    var first := SentWires(c.log);
    && |first| == c.next
    && (forall i :: 0 <= i < |c.out.pending| ==>
        0 <= c.out.pending[i].sequence < c.next && c.out.pending[i].wire == first[c.out.pending[i].sequence])
    && (forall i :: 0 <= i < |c.log| && (c.log[i].Sent? || c.log[i].Resent?) ==>
        0 <= c.log[i].sequence < c.next && c.log[i].wire == first[c.log[i].sequence])
    && (forall i :: 0 <= i < |c.log| && !c.log[i].Abandoned? ==> c.log[i].at <= c.now)
    && (forall i, j :: 0 <= i < j < |c.log| && !c.log[i].Abandoned? && !c.log[j].Abandoned? ==> c.log[i].at <= c.log[j].at)
  }

  lemma StepWires<W>(c: Channel<W>, op: Op<W>, capacity: nat, maxAttempts: nat)
    requires WireInv(c)
    ensures WireInv(Step(c, op, capacity, maxAttempts))
  {
    hide Recorded, SentWires, IndexOf;
    var c' := Step(c, op, capacity, maxAttempts);
    if |c'.log| > |c.log| {
      WiresGrow(c.log, c'.log[|c.log|]);
      assert c'.log == c.log + [c'.log[|c.log|]];
    }
    match op
    case Track(_, _) =>
    case Acknowledge(sequence, _) =>
      var i := IndexOf(c.out.pending, sequence);
      assert forall k :: 0 <= k < |c'.out.pending| && i < |c.out.pending| ==>
          c'.out.pending[k] == c.out.pending[if k < i then k else k + 1];
    case Poll(_) =>
  }

  lemma {:induction false} RunWires<W>(ops: seq<Op<W>>, capacity: nat, maxAttempts: nat)
    ensures WireInv(Run(ops, capacity, maxAttempts))
  {
    hide Step;
    if ops != [] {
      RunWires(ops[..|ops| - 1], capacity, maxAttempts);
      StepWires(Run(ops[..|ops| - 1], capacity, maxAttempts), ops[|ops| - 1], capacity, maxAttempts);
    }
  }

  /** Every transmission of a number, first or again, carries the message first sent under it, and every
      number is sent first only once. */
  lemma {:induction false} ResendsAreTheOriginals<W>(ops: seq<Op<W>>, capacity: nat, maxAttempts: nat, i: nat)
    requires i < |Run(ops, capacity, maxAttempts).log|
    ensures var c, e := Run(ops, capacity, maxAttempts), Run(ops, capacity, maxAttempts).log[i];
            e.Sent? || e.Resent? ==>
              0 <= e.sequence < |SentWires(c.log)| == c.next && e.wire == SentWires(c.log)[e.sequence]
  {
    hide Run, SentWires;
    RunWires(ops, capacity, maxAttempts);
  }

  /** No event of a run is dated before an earlier one. */
  lemma {:induction false} ClockRuns<W>(ops: seq<Op<W>>, capacity: nat, maxAttempts: nat, i: nat, j: nat)
    requires i < j < |Run(ops, capacity, maxAttempts).log|
    ensures var log := Run(ops, capacity, maxAttempts).log;
            !log[i].Abandoned? && !log[j].Abandoned? ==> log[i].at <= log[j].at
  {
    hide Run, SentWires;
    RunWires(ops, capacity, maxAttempts);
  }

  /** Karn's rule over every run: the estimate is the fold of exactly the samples the rule allows,
      so resent, unknown and already retired numbers never move it. */
  lemma {:induction false} KarnsRule<W>(ops: seq<Op<W>>, capacity: nat, maxAttempts: nat)
    ensures var c := Run(ops, capacity, maxAttempts);
            && c.out.rtt == RecordedAll(DEFAULT_RTT, KarnSamples(c.log))
            && (KarnSamples(c.log) == [] ==> c.out.rtt.rto == 200_000_000)
  {
    RunInv(ops, capacity, maxAttempts);
  }

  /** Over every run the queue is exactly the outstanding messages, oldest first, within capacity;
      no message is transmitted more than max(1, max_attempts) times; and all resends together
      stay within the budget of the messages sent. */
  lemma {:induction false} RetransmissionBudget<W>(ops: seq<Op<W>>, capacity: nat, maxAttempts: nat, s: int)
    ensures var c := Run(ops, capacity, maxAttempts);
            && |c.out.pending| <= capacity && Sorted(c.out.pending)
            && (Outstanding(c.log, s) <==> exists p :: p in c.out.pending && p.sequence == s)
            && Transmissions(c.log, s) <= Allowance(maxAttempts)
            && Resends(c.log) + Budget(c.out.pending, maxAttempts) <= Granted(c.log, maxAttempts)
  {
    RunInv(ops, capacity, maxAttempts);
    var c := Run(ops, capacity, maxAttempts);
    assert Mirrors(c, maxAttempts, s);
    if Outstanding(c.log, s) {
      assert c.out.pending[IndexOf(c.out.pending, s)] in c.out.pending;
    }
  }

  /** The oldest message still outstanding. */
  ghost predicate IsOldest<W>(log: seq<Event<W>>, s: int) {
    Outstanding(log, s) && forall x :: x < s ==> !Outstanding(log, x)
  }

  lemma HeadIsOldest<W>(c: Channel<W>, capacity: nat, maxAttempts: nat)
    requires Inv(c, capacity, maxAttempts)
    ensures c.out.pending != [] ==>
              var head := c.out.pending[0];
              && IsOldest(c.log, head.sequence)
              && head.attempts == Transmissions(c.log, head.sequence)
              && head.lastSent == LastTransmission(c.log, head.sequence)
    ensures c.out.pending == [] ==> forall s :: !Outstanding(c.log, s)
  {
    var p := c.out.pending;
    forall x | p == [] || x < p[0].sequence ensures !Outstanding(c.log, x) {
      assert Mirrors(c, maxAttempts, x);
    }
    if p != [] {
      IndexOfIs(p, p[0].sequence, 0);
      assert Mirrors(c, maxAttempts, p[0].sequence);
    }
  }

  /** A poll acts only on the oldest outstanding message, and only when its last transmission is
      longer ago than the RTO. It resends the bytes it was first sent with, while the budget lasts,
      paying exactly one unit, and gives up exactly when that message has been transmitted max(1, max_attempts) times. */
  lemma {:induction false} PollIsHeadOnly<W>(ops: seq<Op<W>>, dt: nat, capacity: nat, maxAttempts: nat, s: int)
    ensures var c := Run(ops, capacity, maxAttempts);
            var c' := Step(c, Poll(dt), capacity, maxAttempts);
            && (IsOldest(c.log, s) ==>
                if c.now + dt <= LastTransmission(c.log, s) + c.out.rtt.rto then
                  c'.log == c.log && c'.out == c.out
                else if Transmissions(c.log, s) == Allowance(maxAttempts) then
                  c'.log == c.log + [Abandoned(s, Allowance(maxAttempts))] && c'.out == c.out
                else
                  && 0 <= s < |SentWires(c.log)| && c'.log == c.log + [Resent(s, c.now + dt, SentWires(c.log)[s])]
                  && Budget(c'.out.pending, maxAttempts) + 1 == Budget(c.out.pending, maxAttempts))
            && ((forall x :: !Outstanding(c.log, x)) ==> c'.log == c.log && c'.out == c.out)
  {
    hide Run, Budget, Transmissions, Outstanding, LastTransmission, SentAt, SentWires;
    RunInv(ops, capacity, maxAttempts);
    RunWires(ops, capacity, maxAttempts);
    var c := Run(ops, capacity, maxAttempts);
    var c' := Step(c, Poll(dt), capacity, maxAttempts);
    HeadIsOldest(c, capacity, maxAttempts);
    if c.out.pending != [] {
      var head := c.out.pending[0];
      assert Mirrors(c, maxAttempts, head.sequence);
      assert IsOldest(c.log, head.sequence);
      if HeadOverdue(c.out, c'.now) && head.attempts < maxAttempts {
        BudgetSpend(c.out.pending, c'.out.pending[0], maxAttempts);
      }
    }
  }

  // -------------------------------------------------------------------------
  // Draining a backlog
  // -------------------------------------------------------------------------

  /** One round with a cooperative agent: poll, then acknowledge whatever was resent. */
  function Round<W>(s: OutState<W>, maxAttempts: nat, now: nat): OutState<W> {
    match PollAction(s, maxAttempts, now)
    case Resend(sequence, _) => Acknowledged(Polled(s, maxAttempts, now), sequence, now)
    case _ => s
  }

  function Rounds<W>(s: OutState<W>, maxAttempts: nat, times: seq<nat>): OutState<W>
    decreases |times|
  {
    if times == [] then s else Rounds(Round(s, maxAttempts, times[0]), maxAttempts, times[1..])
  }

  /** An agent that acknowledges each resent head empties a backlog of n in n rounds, as long as
      each head is overdue at its round and has budget left; the estimate does not move. */
  lemma {:induction false} DrainsInOneRoundEach<W>(s: OutState<W>, maxAttempts: nat, times: seq<nat>)
    requires |times| == |s.pending|
    requires forall i :: 0 <= i < |times| ==>
                         times[i] > s.pending[i].lastSent + s.rtt.rto && 1 <= s.pending[i].attempts < maxAttempts
    ensures Rounds(s, maxAttempts, times) == OutState([], s.rtt)
    decreases |times|
  {
    if times != [] {
      var s' := Round(s, maxAttempts, times[0]);
      assert s'.pending == s.pending[1..];
      DrainsInOneRoundEach(s', maxAttempts, times[1..]);
    }
  }
}
