/** The inbound half of the data channel (src/connection.rs): in-order delivery over a network that
loses, duplicates and reorders, across any number of resumes. */
module Inbound {
  import opened Ack
  import opened Codec

  /** An acknowledgement the client built: what for, whether it claimed to be sequential, and what
      the client was expecting when it did. */
  datatype Receipt = Receipt(sequence: int, sequential: bool, expected: int)

  /** The inbound part of `Continuity`, and what the reader task did with it: the messages handed to
      `deliver`, the acknowledgements built, and whether a `deliver` failed. */
  datatype Reader = Reader(
    expected: nat,
    incoming: map<int, ClientMessage>,
    handed: seq<ClientMessage>,
    receipts: seq<Receipt>,
    failed: bool)

  /** `deliver` one message. An error leaves `expected` where it was and stops the reader. */
  function Delivered(r: Reader, m: ClientMessage, accepts: ClientMessage -> bool): Reader {
    var r' := r.(handed := r.handed + [m]);
    if accepts(m) then r'.(expected := r.expected + 1) else r'.(failed := true)
  }

  /** One turn of the drain loop: take the expected message and deliver it. */
  function DrainOnce(r: Reader, accepts: ClientMessage -> bool): (r': Reader)
    requires r.expected in r.incoming
    ensures |r'.incoming| < |r.incoming|
  {
    TakingShrinks(r.incoming, r.expected);
    Delivered(r.(incoming := r.incoming - {r.expected}), r.incoming[r.expected], accepts)
  }

  /** Hand over whatever the gap was holding back. */
  function Drained(r: Reader, accepts: ClientMessage -> bool): Reader
    decreases |r.incoming|
  {
    if r.failed || r.expected !in r.incoming then r else Drained(DrainOnce(r, accepts), accepts)
  }

  lemma TakingShrinks(m: map<int, ClientMessage>, k: int)
    requires k in m
    ensures |m - {k}| < |m|
  {
    assert (m - {k}).Keys == m.Keys - {k};
  }

  /** `route_stream_data`. */
  function Routed(r: Reader, m: ClientMessage, capacity: nat, accepts: ClientMessage -> bool): Reader {
    if r.failed || m.sequenceNumber < r.expected then r
    else
      var noted := r.(receipts := r.receipts + [Receipt(m.sequenceNumber, m.sequenceNumber == r.expected, r.expected)]);
      if m.sequenceNumber > r.expected then
        if HasRoom(r.incoming, capacity, m.sequenceNumber) then
          noted.(incoming := r.incoming[m.sequenceNumber := m])
        else r
      else Drained(Delivered(noted, m, accepts), accepts)
  }

  /** The reader task's view of the channel. */
  class ReaderTask {
    var expected: nat
    const incoming: IncomingBuffer<ClientMessage>
    var handed: seq<ClientMessage>
    var receipts: seq<Receipt>
    var failed: bool

    function View(): Reader reads this, incoming {
      Reader(expected, incoming.messages, handed, receipts, failed)
    }

    constructor (capacity: nat)
      ensures View() == Reader(0, map[], [], [], false)
      ensures incoming.capacity == capacity && fresh(incoming)
    {
      expected, handed, receipts, failed := 0, [], [], false;
      incoming := new IncomingBuffer(capacity);
    }

    method Deliver(m: ClientMessage, accepts: ClientMessage -> bool)
      modifies this
      ensures View() == Delivered(old(View()), m, accepts)
      ensures failed == (old(failed) || !accepts(m))
    {
      handed := handed + [m];
      if accepts(m) {
        expected := expected + 1;
      } else {
        failed := true;
      }
    }

    method RouteStreamData(m: ClientMessage, accepts: ClientMessage -> bool)
      requires !failed
      modifies this, incoming
      ensures View() == Routed(old(View()), m, incoming.capacity, accepts)
    {
      if m.sequenceNumber < expected {
        return;
      }
      if m.sequenceNumber > expected {
        var room := incoming.Insert(m.sequenceNumber, m);
        if room {
          receipts := receipts + [Receipt(m.sequenceNumber, false, expected)];
        }
        return;
      }
      receipts := receipts + [Receipt(m.sequenceNumber, true, expected)];
      Deliver(m, accepts);
      Drain(accepts);
    }

    /** The loop at the end of `route_stream_data`. */
    method Drain(accepts: ClientMessage -> bool)
      modifies this, incoming
      ensures View() == Drained(old(View()), accepts)
    {
      hide Delivered;
      while !failed
        invariant Drained(View(), accepts) == Drained(old(View()), accepts)
        decreases |incoming.messages|, !failed
      {
        ghost var before := View();
        var taken, buffered := incoming.Take(expected);
        if !taken {
          assert View() == before;
          return;
        }
        TakingShrinks(before.incoming, expected);
        Deliver(buffered[0], accepts);
        assert View() == DrainOnce(before, accepts);
      }
    }
  }

  // -------------------------------------------------------------------------
  // The system
  // -------------------------------------------------------------------------

  /** The reader, the agent's numbered log, and how many channels have carried the session. */
  datatype System = System(reader: Reader, sent: seq<ClientMessage>, channel: nat)

  /** `Arrives(s, ..)` hands the client log entry `s` at any time, any number of times or never:
      loss, duplication and reordering. A resume keeps `Continuity` and replaces the channel. */
  datatype Label =
    | AgentSends(message: ClientMessage)
    | Arrives(s: nat, accepts: ClientMessage -> bool)
    | Resume

  const INITIAL := System(Reader(0, map[], [], [], false), [], 0)

  function Step(y: System, event: Label, capacity: nat): System {
    match event
    case AgentSends(m) =>
      if |y.sent| < 0x8000_0000_0000_0000 then y.(sent := y.sent + [m.(sequenceNumber := |y.sent|)]) else y
    case Arrives(s, accepts) =>
      if s < |y.sent| then y.(reader := Routed(y.reader, y.sent[s], capacity, accepts)) else y
    case Resume =>
      if y.reader.failed then y else y.(channel := y.channel + 1)
  }

  function Run(labels: seq<Label>, capacity: nat): System {
    if labels == [] then INITIAL
    else Step(Run(labels[..|labels| - 1], capacity), labels[|labels| - 1], capacity)
  }

  // -------------------------------------------------------------------------
  // Invariant
  // -------------------------------------------------------------------------

  ghost predicate Numbered(sent: seq<ClientMessage>) {
    forall s :: 0 <= s < |sent| ==> sent[s].sequenceNumber == s
  }

  /** What was handed over is a prefix of the log; `lowest` is the least key the reorder map may hold. */
  ghost predicate InOrder(r: Reader, sent: seq<ClientMessage>, lowest: nat) {
    && r.expected + (if r.failed then 1 else 0) <= |sent|
    && r.handed == sent[..r.expected + (if r.failed then 1 else 0)]
    && forall k :: k in r.incoming ==> lowest <= k < |sent| && r.incoming[k] == sent[k]
  }

  /** The message `s` is in the client's hands: handed over, or in the reorder map. */
  ghost predicate Holds(r: Reader, s: int) {
    s < |r.handed| || s in r.incoming
  }

  ghost predicate Disciplined(r: Reader) {
    && (forall i :: 0 <= i < |r.receipts| ==>
        var a := r.receipts[i];
        0 <= a.expected <= a.sequence && (a.sequential <==> a.sequence == a.expected) && Holds(r, a.sequence))
    && (forall i :: 0 <= i < |r.receipts| && r.receipts[i].sequential ==> r.receipts[i].sequence < |r.handed|)
    && (forall i, j :: 0 <= i < j < |r.receipts| && r.receipts[i].sequential && r.receipts[j].sequential ==>
        r.receipts[i].sequence < r.receipts[j].sequence)
  }

  ghost predicate Inv(y: System, capacity: nat) {
    && Numbered(y.sent)
    && InOrder(y.reader, y.sent, y.reader.expected + 1)
    && |y.reader.incoming| <= capacity
    && Disciplined(y.reader)
  }

  // -------------------------------------------------------------------------
  // The drain loop
  // -------------------------------------------------------------------------

  lemma DrainOnceInOrder(r: Reader, accepts: ClientMessage -> bool, sent: seq<ClientMessage>)
    requires !r.failed && r.expected in r.incoming && InOrder(r, sent, r.expected)
    ensures var next := DrainOnce(r, accepts);
            InOrder(next, sent, if next.failed then next.expected + 1 else next.expected) && r.expected <= next.expected
  {
    var m := r.incoming[r.expected];
    assert sent[..r.expected + 1] == sent[..r.expected] + [m];
  }

  lemma {:induction false} DrainInOrder(r: Reader, accepts: ClientMessage -> bool, sent: seq<ClientMessage>)
    requires InOrder(r, sent, if r.failed then r.expected + 1 else r.expected)
    ensures var r' := Drained(r, accepts);
            && InOrder(r', sent, r'.expected + 1)
            && r.expected <= r'.expected
            && |r'.incoming| <= |r.incoming|
    decreases |r.incoming|
  {
    hide InOrder, DrainOnce;
    if !r.failed && r.expected in r.incoming {
      DrainOnceInOrder(r, accepts, sent);
      DrainInOrder(DrainOnce(r, accepts), accepts, sent);
    } else {
      Tighten(r, sent);
    }
  }

  lemma Tighten(r: Reader, sent: seq<ClientMessage>)
    requires InOrder(r, sent, if r.failed then r.expected + 1 else r.expected)
    requires r.failed || r.expected !in r.incoming
    ensures InOrder(r, sent, r.expected + 1)
  {
  }

  lemma DrainOnceHolds(r: Reader, accepts: ClientMessage -> bool, s: int)
    requires r.expected in r.incoming && |r.handed| == r.expected && Holds(r, s)
    ensures Holds(DrainOnce(r, accepts), s)
  {
  }

  /** Draining moves messages from the map to the consumer and drops none. */
  lemma {:induction false} DrainHolds(r: Reader, accepts: ClientMessage -> bool)
    requires |r.handed| == r.expected + (if r.failed then 1 else 0)
    ensures var r' := Drained(r, accepts);
            && r'.receipts == r.receipts
            && |r.handed| <= |r'.handed|
            && (forall s :: Holds(r, s) ==> Holds(r', s))
    decreases |r.incoming|
  {
    hide Holds;
    if !r.failed && r.expected in r.incoming {
      DrainHolds(DrainOnce(r, accepts), accepts);
      forall s | Holds(r, s) ensures Holds(DrainOnce(r, accepts), s) {
        DrainOnceHolds(r, accepts, s);
      }
    }
  }

  // -------------------------------------------------------------------------
  // Every step keeps the invariant
  // -------------------------------------------------------------------------

  lemma RouteInOrder(y: System, s: nat, capacity: nat, accepts: ClientMessage -> bool)
    requires Inv(y, capacity) && s < |y.sent|
    ensures var r' := Routed(y.reader, y.sent[s], capacity, accepts);
            InOrder(r', y.sent, r'.expected + 1) && |r'.incoming| <= capacity && y.reader.expected <= r'.expected
  {
    hide Drained;
    var r, m := y.reader, y.sent[s];
    if !r.failed && s == r.expected {
      var noted := r.(receipts := r.receipts + [Receipt(s, true, r.expected)]);
      var next := Delivered(noted, m, accepts);
      assert next.handed == y.sent[..s + 1];
      DrainInOrder(next, accepts, y.sent);
    } else if !r.failed && s > r.expected {
      assert r.incoming[s := m].Keys == r.incoming.Keys + {s};
      if s in r.incoming {
        assert r.incoming[s := m].Keys == r.incoming.Keys;
      }
    }
  }

  lemma RouteDisciplined(y: System, s: nat, capacity: nat, accepts: ClientMessage -> bool)
    requires Inv(y, capacity) && s < |y.sent|
    ensures Disciplined(Routed(y.reader, y.sent[s], capacity, accepts))
  {
    hide Drained;
    var r, m := y.reader, y.sent[s];
    if !r.failed && s == r.expected {
      var noted := r.(receipts := r.receipts + [Receipt(s, true, r.expected)]);
      var next := Delivered(noted, m, accepts);
      forall x | Holds(r, x) ensures Holds(next, x) {
      }
      assert Disciplined(next);
      DrainHolds(next, accepts);
    } else if !r.failed && s > r.expected && HasRoom(r.incoming, capacity, s) {
      var r' := Routed(r, m, capacity, accepts);
      forall x | Holds(r, x) ensures Holds(r', x) {
      }
      assert Holds(r', s);
    }
  }

  lemma SendKeeps(y: System, m: ClientMessage, capacity: nat)
    requires Inv(y, capacity)
    ensures Inv(Step(y, AgentSends(m), capacity), capacity)
  {
    hide Disciplined, Holds;
    var sent' := Step(y, AgentSends(m), capacity).sent;
    var n := |y.reader.handed|;
    assert sent'[..n] == y.sent[..n];
  }

  lemma {:induction false} RunInv(labels: seq<Label>, capacity: nat)
    ensures Inv(Run(labels, capacity), capacity)
  {
    hide Routed, Disciplined, InOrder;
    if labels == [] {
      InitialInv(capacity);
    } else {
      var y := Run(labels[..|labels| - 1], capacity);
      RunInv(labels[..|labels| - 1], capacity);
      match labels[|labels| - 1]
      case AgentSends(m) => SendKeeps(y, m, capacity);
      case Arrives(s, accepts) =>
        if s < |y.sent| {
          RouteInOrder(y, s, capacity, accepts);
          RouteDisciplined(y, s, capacity, accepts);
        }
      case Resume =>
    }
  }

  lemma InitialInv(capacity: nat)
    ensures Inv(INITIAL, capacity)
  {
  }

  // -------------------------------------------------------------------------
  // Main results
  // -------------------------------------------------------------------------

  /** Exactly once, in order: in every run the messages handed to `deliver` are the first entries of
      the agent's log, each once (entries 0..expected-1 while no `deliver` has failed), and every
      message held for later is a later log entry, within capacity. */
  lemma {:induction false} ExactlyOnceInOrder(labels: seq<Label>, capacity: nat)
    ensures var y := Run(labels, capacity);
            && y.reader.handed <= y.sent
            && |y.reader.handed| == y.reader.expected + (if y.reader.failed then 1 else 0)
            && (forall s :: 0 <= s < |y.reader.handed| ==> y.reader.handed[s].sequenceNumber == s)
            && (forall k :: k in y.reader.incoming ==>
                y.reader.expected < k < |y.sent| && y.reader.incoming[k] == y.sent[k])
            && |y.reader.incoming| <= capacity
  {
    RunInv(labels, capacity);
  }

  /** No step takes anything back: the agent's log grows, and `expected` never decreases. */
  lemma {:induction false} NothingTakenBack(labels: seq<Label>, event: Label, capacity: nat)
    ensures var y, y' := Run(labels, capacity), Step(Run(labels, capacity), event, capacity);
            y.sent <= y'.sent && y.reader.expected <= y'.reader.expected
  {
    hide Run, Routed;
    RunInv(labels, capacity);
    var y := Run(labels, capacity);
    if event.Arrives? && event.s < |y.sent| {
      RouteInOrder(y, event.s, capacity, event.accepts);
    }
  }

  /** Acknowledgement discipline: every acknowledgement ever built was for a number not below
      `expected` at that moment, is for a message the client still holds or has handed over, and no
      number gets two sequential ones. */
  lemma {:induction false} AcknowledgementDiscipline(labels: seq<Label>, capacity: nat)
    ensures var r := Run(labels, capacity).reader;
            && (forall i :: 0 <= i < |r.receipts| ==>
                && r.receipts[i].expected <= r.receipts[i].sequence
                && (r.receipts[i].sequential <==> r.receipts[i].sequence == r.receipts[i].expected)
                && (r.receipts[i].sequence < |r.handed| || r.receipts[i].sequence in r.incoming))
            && (forall i, j :: 0 <= i < j < |r.receipts| && r.receipts[i].sequential && r.receipts[j].sequential ==>
                r.receipts[i].sequence != r.receipts[j].sequence)
  {
    RunInv(labels, capacity);
    var r := Run(labels, capacity).reader;
    forall i | 0 <= i < |r.receipts| ensures r.receipts[i].sequence < |r.handed| || r.receipts[i].sequence in r.incoming {
      assert Holds(r, r.receipts[i].sequence);
    }
  }

  /** An arrival builds an acknowledgement exactly when the message is the expected one or a later
      one that fits; a full reorder map refuses other numbers but never the expected one, and
      nothing below `expected` is answered. */
  lemma {:induction false} ArrivalAnswered(labels: seq<Label>, s: nat, accepts: ClientMessage -> bool, capacity: nat)
    requires s < |Run(labels, capacity).sent| && !Run(labels, capacity).reader.failed
    ensures var r := Run(labels, capacity).reader;
            var r' := Step(Run(labels, capacity), Arrives(s, accepts), capacity).reader;
            && (s < r.expected ==> r' == r)
            && (s == r.expected ==> r'.receipts == r.receipts + [Receipt(s, true, s)] && s < |r'.handed|)
            && (s > r.expected ==>
                if |r.incoming| < capacity || s in r.incoming
                then r'.receipts == r.receipts + [Receipt(s, false, r.expected)] && s in r'.incoming
                else r' == r)
  {
    hide Drained, Disciplined;
    RunInv(labels, capacity);
    var y := Run(labels, capacity);
    if s == y.reader.expected {
      var noted := y.reader.(receipts := y.reader.receipts + [Receipt(s, true, s)]);
      DrainHolds(Delivered(noted, y.sent[s], accepts), accepts);
    }
  }

  /** What was handed over since `from` was accepted, except for the last message of a failed reader. */
  ghost predicate AcceptedSince(r: Reader, from: nat, accepts: ClientMessage -> bool) {
    && from <= |r.handed|
    && (forall k :: from <= k < |r.handed| - 1 ==> accepts(r.handed[k]))
    && (from < |r.handed| ==> (r.failed <==> !accepts(r.handed[|r.handed| - 1])))
    && (from == |r.handed| ==> !r.failed)
  }

  lemma {:induction false} DrainAccepted(r: Reader, from: nat, accepts: ClientMessage -> bool)
    requires AcceptedSince(r, from, accepts)
    ensures AcceptedSince(Drained(r, accepts), from, accepts)
    decreases |r.incoming|
  {
    if !r.failed && r.expected in r.incoming {
      DrainAccepted(DrainOnce(r, accepts), from, accepts);
    }
  }

  /** An arrival hands over messages up to the first one that `deliver` rejects, if any. That one fails the
      reader: `expected` stays at it, no later arrival does anything, and the session is not resumed. */
  lemma {:induction false} StopsAtTheFirstRejection(
    labels: seq<Label>, s: nat, accepts: ClientMessage -> bool, later: Label, capacity: nat)
    requires s < |Run(labels, capacity).sent| && !Run(labels, capacity).reader.failed
    ensures var r := Run(labels, capacity).reader;
            var y' := Step(Run(labels, capacity), Arrives(s, accepts), capacity);
            && |r.handed| <= |y'.reader.handed|
            && (forall k :: |r.handed| <= k < |y'.reader.handed| - 1 ==> accepts(y'.reader.handed[k]))
            && (y'.reader.failed <==>
                |r.handed| < |y'.reader.handed| && !accepts(y'.reader.handed[|y'.reader.handed| - 1]))
            && (y'.reader.failed ==>
                Step(y', later, capacity).reader == y'.reader && Step(y', later, capacity).channel == y'.channel)
  {
    hide Run, Drained;
    RunInv(labels, capacity);
    var y := Run(labels, capacity);
    var r := y.reader;
    if s == r.expected {
      var noted := r.(receipts := r.receipts + [Receipt(s, true, s)]);
      DrainAccepted(Delivered(noted, y.sent[s], accepts), |r.handed|, accepts);
    }
  }

  /** The agent resends, in order, everything from the client's gap on. */
  function Retransmission(from: nat, end: nat): seq<Label>
    requires from <= end
    decreases end
  {
    if from == end then [] else Retransmission(from, end - 1) + [Arrives(end - 1, _ => true)]
  }

  lemma AcceptedStepAdvances(y: System, s: nat, capacity: nat)
    requires Inv(y, capacity) && !y.reader.failed && s < |y.sent|
    ensures var r' := Routed(y.reader, y.sent[s], capacity, _ => true);
            && !r'.failed && r'.expected >= y.reader.expected
            && (s == y.reader.expected ==> r'.expected > s)
  {
    hide Drained, Disciplined;
    var r := y.reader;
    if s == r.expected {
      var next := Delivered(r.(receipts := r.receipts + [Receipt(s, true, s)]), y.sent[s], _ => true);
      assert next.handed == y.sent[..s + 1];
      DrainInOrder(next, _ => true, y.sent);
      DrainAccepts(next);
    }
  }

  lemma {:induction false} DrainAccepts(r: Reader)
    requires !r.failed
    ensures !Drained(r, _ => true).failed
    decreases |r.incoming|
  {
    if r.expected in r.incoming {
      DrainAccepts(DrainOnce(r, _ => true));
    }
  }

  lemma RunSnoc(labels: seq<Label>, event: Label, capacity: nat)
    ensures Run(labels + [event], capacity) == Step(Run(labels, capacity), event, capacity)
  {
    assert (labels + [event])[..|labels|] == labels;
  }

  lemma {:induction false} RetransmissionAdvances(labels: seq<Label>, end: nat, capacity: nat)
    requires var y := Run(labels, capacity);
             !y.reader.failed && y.reader.expected <= end <= |y.sent|
    ensures var y := Run(labels, capacity);
            var y' := Run(labels + Retransmission(y.reader.expected, end), capacity);
            !y'.reader.failed && y'.sent == y.sent && y'.reader.expected >= end
    decreases end
  {
    hide Routed, Inv, Run;
    var y := Run(labels, capacity);
    var from := y.reader.expected;
    if from == end {
      assert labels + [] == labels;
    } else {
      var before := labels + Retransmission(from, end - 1);
      RetransmissionAdvances(labels, end - 1, capacity);
      var all := labels + Retransmission(from, end);
      assert all == before + [Arrives(end - 1, _ => true)];
      RunSnoc(before, Arrives(end - 1, _ => true), capacity);
      RunInv(before, capacity);
      AcceptedStepAdvances(Run(before, capacity), end - 1, capacity);
    }
  }

  /** From every live state, whatever was lost before, one in-order retransmission from the gap on
      delivers the agent's whole log. */
  lemma {:induction false} CatchesUp(labels: seq<Label>, capacity: nat)
    requires !Run(labels, capacity).reader.failed
    ensures var y := Run(labels, capacity);
            && y.reader.expected <= |y.sent|
            && var y' := Run(labels + Retransmission(y.reader.expected, |y.sent|), capacity);
               y'.sent == y.sent && y'.reader.handed == y.sent
  {
    var y := Run(labels, capacity);
    RunInv(labels, capacity);
    RetransmissionAdvances(labels, |y.sent|, capacity);
    RunInv(labels + Retransmission(y.reader.expected, |y.sent|), capacity);
  }
}
