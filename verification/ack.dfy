/** The reliable-delivery buffers of src/ack.rs.

Time is a natural number of nanoseconds read from a clock that the caller
passes in; `Duration` division is an exact floor, as `/` is here. */
module Ack {

  const MILLISECOND: nat := 1_000_000
  const INITIAL_RTT: nat := 100 * MILLISECOND
  const INITIAL_RTO: nat := 200 * MILLISECOND
  const MIN_RTO: nat := 50 * MILLISECOND
  const MAX_RTO: nat := 30_000 * MILLISECOND
  const RTO_VARIANCE_FACTOR: nat := 4

  // -------------------------------------------------------------------------
  // RTT estimation
  // -------------------------------------------------------------------------

  datatype Rtt = Rtt(smoothed: nat, variance: nat, rto: nat, samples: nat)

  const DEFAULT_RTT := Rtt(INITIAL_RTT, INITIAL_RTT / 2, INITIAL_RTO, 0)

  function Clamp(x: nat, lo: nat, hi: nat): nat {
    if x < lo then lo else if x > hi then hi else x
  }

  function AbsDiff(a: nat, b: nat): nat {
    if a < b then b - a else a - b
  }

  /** The estimate after one more sample. */
  function Recorded(e: Rtt, sample: nat): Rtt {
    var smoothed := if e.samples == 0 then sample else (e.smoothed * 7 + sample) / 8;
    var variance :=
      if e.samples == 0 then sample / 2 else (e.variance * 3 + AbsDiff(e.smoothed, sample)) / 4;
    Rtt(smoothed, variance, Clamp(smoothed + variance * RTO_VARIANCE_FACTOR, MIN_RTO, MAX_RTO), e.samples + 1)
  }

  /** The estimate after a whole history of samples, oldest first. */
  function RecordedAll(e: Rtt, samples: seq<nat>): Rtt {
    if samples == [] then e
    else Recorded(RecordedAll(e, samples[..|samples| - 1]), samples[|samples| - 1])
  }

  class RttEstimate {
    var smoothed: nat
    var variance: nat
    var rto: nat
    var samples: nat

    function View(): Rtt reads this {
      Rtt(smoothed, variance, rto, samples)
    }

    constructor ()
      ensures View() == DEFAULT_RTT
    {
      smoothed, variance, rto, samples := INITIAL_RTT, INITIAL_RTT / 2, INITIAL_RTO, 0;
    }

    method Record(sample: nat)
      modifies this
      ensures View() == Recorded(old(View()), sample)
    {
      if samples == 0 {
        smoothed := sample;
        variance := sample / 2;
      } else {
        var deviation := AbsDiff(smoothed, sample);
        variance := (variance * 3 + deviation) / 4;
        smoothed := (smoothed * 7 + sample) / 8;
      }
      samples := samples + 1;
      rto := Clamp(smoothed + variance * RTO_VARIANCE_FACTOR, MIN_RTO, MAX_RTO);
    }
  }

  // -------------------------------------------------------------------------
  // Outgoing buffer
  // -------------------------------------------------------------------------

  datatype Pending<W> = Pending(wire: W, sequence: int, lastSent: nat, attempts: nat)

  datatype RetransmitAction<W> =
    | Idle
    | Resend(sequence: int, wire: W)
    | GaveUp(sequence: int, attempts: nat)

  /** What the mutex of `OutgoingBuffer` protects. */
  datatype OutState<W> = OutState(pending: seq<Pending<W>>, rtt: Rtt)

  /** `Instant::elapsed`, which saturates at zero. */
  function Elapsed(now: nat, since: nat): nat {
    if now < since then 0 else now - since
  }

  /** The first entry with this number at or after position `from`, or the queue's length. */
  function IndexFrom<W>(pending: seq<Pending<W>>, sequence: int, from: nat): (i: nat)
    requires from <= |pending|
    ensures from <= i <= |pending|
    ensures i < |pending| ==> pending[i].sequence == sequence
    ensures forall j :: from <= j < i ==> pending[j].sequence != sequence
    decreases |pending| - from
  {
    if from == |pending| || pending[from].sequence == sequence then from
    else IndexFrom(pending, sequence, from + 1)
  }

  /** `pending.iter().position(..)`: the first entry with this number, or the queue's length. */
  function IndexOf<W>(pending: seq<Pending<W>>, sequence: int): (i: nat)
    ensures i <= |pending|
    ensures i < |pending| ==> pending[i].sequence == sequence
    ensures forall j :: 0 <= j < i ==> pending[j].sequence != sequence
  {
    IndexFrom(pending, sequence, 0)
  }

  function Tracked<W>(s: OutState<W>, wire: W, sequence: int, now: nat): OutState<W> {
    s.(pending := s.pending + [Pending(wire, sequence, now, 1)])
  }

  function Acknowledged<W>(s: OutState<W>, sequence: int, now: nat): OutState<W> {
    var i := IndexOf(s.pending, sequence);
    if i == |s.pending| then s
    else
      var entry := s.pending[i];
      OutState(
        s.pending[..i] + s.pending[i + 1..],
        if entry.attempts == 1 then Recorded(s.rtt, Elapsed(now, entry.lastSent)) else s.rtt)
  }

  predicate HeadOverdue<W>(s: OutState<W>, now: nat) {
    s.pending != [] && Elapsed(now, s.pending[0].lastSent) > s.rtt.rto
  }

  function PollAction<W>(s: OutState<W>, maxAttempts: nat, now: nat): RetransmitAction<W> {
    if !HeadOverdue(s, now) then Idle
    else if s.pending[0].attempts >= maxAttempts then GaveUp(s.pending[0].sequence, s.pending[0].attempts)
    else Resend(s.pending[0].sequence, s.pending[0].wire)
  }

  function Polled<W>(s: OutState<W>, maxAttempts: nat, now: nat): OutState<W> {
    if PollAction(s, maxAttempts, now).Resend? then
      s.(pending := s.pending[0 := s.pending[0].(lastSent := now, attempts := s.pending[0].attempts + 1)])
    else s
  }

  class OutgoingBuffer<W> {
    var pending: seq<Pending<W>>
    const rtt: RttEstimate
    const capacity: nat
    const maxAttempts: nat

    function State(): OutState<W> reads this, rtt {
      OutState(pending, rtt.View())
    }

    constructor (capacity: nat, maxAttempts: nat)
      ensures State() == OutState([], DEFAULT_RTT) && fresh(rtt)
      ensures this.capacity == capacity && this.maxAttempts == maxAttempts
    {
      this.pending := [];
      this.rtt := new RttEstimate();
      this.capacity, this.maxAttempts := capacity, maxAttempts;
    }

    method Track(wire: W, sequence: int, now: nat) returns (ok: bool)
      modifies this`pending
      ensures ok == (|old(pending)| < capacity)
      ensures State() == if ok then Tracked(old(State()), wire, sequence, now) else old(State())
    {
      if |pending| >= capacity {
        return false;
      }
      pending := pending + [Pending(wire, sequence, now, 1)];
      return true;
    }

    method Acknowledge(sequence: int, now: nat) returns (found: bool)
      modifies this`pending, rtt
      ensures found <==> exists p :: p in old(pending) && p.sequence == sequence
      ensures State() == Acknowledged(old(State()), sequence, now)
    {
      var index := 0;
      while index < |pending| && pending[index].sequence != sequence
        invariant 0 <= index <= |pending|
        invariant forall j :: 0 <= j < index ==> pending[j].sequence != sequence
      {
        index := index + 1;
      }
      assert index == IndexOf(pending, sequence);
      if index == |pending| {
        return false;
      }
      var entry := pending[index];
      assert entry in old(pending);
      pending := pending[..index] + pending[index + 1..];
      if entry.attempts == 1 {
        rtt.Record(Elapsed(now, entry.lastSent));
      }
      return true;
    }

    method PollRetransmit(now: nat) returns (action: RetransmitAction<W>)
      modifies this`pending
      ensures action == PollAction(old(State()), maxAttempts, now)
      ensures State() == Polled(old(State()), maxAttempts, now)
    {
      var rto := rtt.rto;
      if pending == [] {
        return Idle;
      }
      var head := pending[0];
      if Elapsed(now, head.lastSent) <= rto {
        return Idle;
      }
      if head.attempts >= maxAttempts {
        return GaveUp(head.sequence, head.attempts);
      }
      pending := pending[0 := head.(attempts := head.attempts + 1, lastSent := now)];
      return Resend(head.sequence, head.wire);
    }
  }

  // -------------------------------------------------------------------------
  // Incoming buffer
  // -------------------------------------------------------------------------

  predicate HasRoom<M>(messages: map<int, M>, capacity: nat, sequence: int) {
    |messages| < capacity || sequence in messages
  }

  class IncomingBuffer<M> {
    var messages: map<int, M>
    const capacity: nat

    constructor (capacity: nat)
      ensures messages == map[] && this.capacity == capacity
    {
      this.messages, this.capacity := map[], capacity;
    }

    method Insert(sequence: int, message: M) returns (ok: bool)
      modifies this
      ensures ok == (|old(messages)| < capacity || sequence in old(messages))
      ensures messages == if ok then old(messages)[sequence := message] else old(messages)
      ensures |old(messages)| <= capacity ==> |messages| <= capacity
    {
      if |messages| >= capacity && sequence !in messages {
        return false;
      }
      ghost var before := messages;
      messages := messages[sequence := message];
      assert messages.Keys == before.Keys + {sequence};
      if sequence in before {
        assert messages.Keys == before.Keys;
      }
      return true;
    }

    method Take(sequence: int) returns (taken: bool, message: seq<M>)
      modifies this
      ensures taken <==> sequence in old(messages)
      ensures message == if taken then [old(messages)[sequence]] else []
      ensures messages == old(messages) - {sequence}
    {
      if sequence in messages {
        message := [messages[sequence]];
        messages := messages - {sequence};
        return true, message;
      }
      assert messages == messages - {sequence};
      return false, [];
    }
  }
}
