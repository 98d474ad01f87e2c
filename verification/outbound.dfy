/** The outbound half of the data channel (src/connection.rs): chunking, numbering, retransmission
and resumption, against an agent that consumes in order and acknowledges only what it accepted. */
module Outbound {
  import opened Bytes
  import opened Ack
  import AckRuns

  datatype Kind = Output | Other

  /** A serialized message. `stamp` stands for its creation date and message id. */
  datatype Wire = Wire(sequence: nat, kind: Kind, payload: seq<byte>, stamp: nat)

  // -------------------------------------------------------------------------
  // The sending methods
  // -------------------------------------------------------------------------

  function Payloads(wires: seq<Wire>): seq<seq<byte>> {
    if wires == [] then [] else Payloads(wires[..|wires| - 1]) + [wires[|wires| - 1].payload]
  }

  lemma PayloadsGrow(wires: seq<Wire>, w: Wire)
    ensures Concat(Payloads(wires + [w])) == Concat(Payloads(wires)) + w.payload
  {
    assert (wires + [w])[..|wires|] == wires;
    ConcatOne(Payloads(wires), w.payload);
  }

  lemma NothingSent()
    ensures Concat(Payloads([])) == []
  {
  }

  /** Chunks as `send_stream_data` cuts them: numbered consecutively, never empty, never above
      `chunkSize`, and full except possibly the one that ends the data. */
  ghost predicate ChunkedFrom(wires: seq<Wire>, first: nat, chunkSize: nat, ended: bool) {
    forall i :: 0 <= i < |wires| ==>
      && wires[i].sequence == first + i
      && wires[i].kind == Output
      && 0 < |wires[i].payload| <= chunkSize
      && (|wires[i].payload| < chunkSize ==> ended && i == |wires| - 1)
  }

  class Sender {
    var sequence: nat
    const outgoing: OutgoingBuffer<Wire>
    var queue: seq<Wire>
    const chunkSize: nat

    constructor (capacity: nat, maxAttempts: nat, chunkSize: nat)
      ensures sequence == 0 && queue == [] && outgoing.pending == [] && this.chunkSize == chunkSize
    {
      sequence, queue := 0, [];
      outgoing := new OutgoingBuffer(capacity, maxAttempts);
      this.chunkSize := chunkSize;
    }

    /** One turn of the critical section of `send_payload`: allocate, track and enqueue together, or
        change nothing because there is no room yet. */
    method SendPayload(kind: Kind, payload: seq<byte>, stamp: nat, now: nat) returns (ok: bool)
      modifies this, outgoing`pending
      ensures ok == (|old(outgoing.pending)| < outgoing.capacity)
      ensures var wire := Wire(old(sequence), kind, payload, stamp);
              if ok then
                && sequence == old(sequence) + 1
                && queue == old(queue) + [wire]
                && outgoing.State() == Tracked(old(outgoing.State()), wire, old(sequence), now)
              else sequence == old(sequence) && queue == old(queue) && outgoing.State() == old(outgoing.State())
    {
      var wire := Wire(sequence, kind, payload, stamp);
      ok := outgoing.Track(wire, sequence, now);
      if ok {
        sequence := sequence + 1;
        queue := queue + [wire];
      }
    }

    /** The shared part of the system's state, when the writer takes every frame. */
    ghost predicate Mirrors(y: System, c: Config) reads this, outgoing, outgoing.rtt {
      && y.link.Open? && y.sequence == sequence && y.out == outgoing.State() && y.queue == queue
      && c == Config(outgoing.capacity, outgoing.maxAttempts, chunkSize)
    }

    /** `send_payload` for the next chunk of the current command, `dt` after the last step: one `Chunk`
        step of the system, or nothing because there is no room yet. */
    method SendChunk(payload: seq<byte>, stamp: nat, dt: nat, now: nat, ghost y: System, ghost c: Config)
      returns (ok: bool)
      requires Mirrors(y, c) && y.now + dt == now && Remainder(y) != [] && payload == NextChunk(y, c)
      modifies this, outgoing`pending
      ensures ok == (|old(outgoing.pending)| < outgoing.capacity)
      ensures var y' := Step(Step(y, Tick(dt), c), Chunk(stamp, true), c);
              if ok then
                && Mirrors(y', c) && y'.now == now
                && Remainder(y') == Remainder(y)[|payload|..]
                && sequence == old(sequence) + 1
                && queue == old(queue) + [Wire(old(sequence), Output, payload, stamp)]
              else Mirrors(y, c) && sequence == old(sequence) && queue == old(queue) && outgoing.pending == old(outgoing.pending)
    {
      hide Step, Remainder, NextChunk, Tracked;
      ok := SendPayload(Output, payload, stamp, now);
      if ok {
        ChunkStep(y, dt, stamp, c);
      }
    }

    /** `send_stream_data`, up to the first chunk that has to wait for room: a run of `Chunk` steps of the
        system, `ticks(i)` apart, that ends when the data does or the buffer is full. */
    method SendStreamData(
      data: seq<byte>, stamps: nat -> nat, ticks: nat -> nat, start: nat, ghost y: System, ghost c: Config)
      returns (sent: nat)
      requires chunkSize >= 1
      requires Mirrors(y, c) && Remainder(y) == data && y.now == start
      modifies this, outgoing`pending
      ensures sent <= |data|
      ensures sent < |data| ==> |outgoing.pending| >= outgoing.capacity
      ensures old(queue) <= queue
      ensures ChunkedFrom(queue[|old(queue)|..], old(sequence), chunkSize, sent == |data|)
      ensures Concat(Payloads(queue[|old(queue)|..])) == data[..sent]
      ensures var y' := ChunkSteps(y, stamps, ticks, |queue| - |old(queue)|, c);
              Mirrors(y', c) && Remainder(y') == data[sent..]
    {
      hide Payloads, Concat, Step, Remainder, NextChunk, ChunkSteps, ChunkedFrom, Mirrors;
      NothingSent();
      NoSteps(y, stamps, ticks, c);
      sent := 0;
      var now, n := start, 0;
      ghost var first, y' := |queue|, y;
      NoChunks(queue[first..], sequence, chunkSize, sent == |data|);
      while sent < |data|
        invariant 0 <= sent <= |data|
        invariant first == |old(queue)| && old(queue) <= queue && n == |queue| - first
        invariant sequence == old(sequence) + n
        invariant ChunkedFrom(queue[first..], old(sequence), chunkSize, sent == |data|)
        invariant Concat(Payloads(queue[first..])) == data[..sent]
        invariant y' == ChunkSteps(y, stamps, ticks, n, c)
        invariant Mirrors(y', c) && y'.now == now && Remainder(y') == data[sent..]
        decreases |data| - sent
      {
        var end := if sent + chunkSize < |data| then sent + chunkSize else |data|;
        ghost var before := queue;
        MirrorsConfig(y', c);
        ChunkOfRest(y', data, sent, end, c);
        now := now + ticks(n);
        var ok := SendChunk(data[sent..end], stamps(n), ticks(n), now, y', c);
        if !ok {
          return;
        }
        NextSteps(y, stamps, ticks, n, c);
        y' := Step(Step(y', Tick(ticks(n)), c), Chunk(stamps(n), true), c);
        assert data[sent..][end - sent..] == data[end..];
        PayloadsGrow(before[first..], queue[|before|]);
        assert queue[first..] == before[first..] + [queue[|before|]];
        assert data[..sent] + data[sent..end] == data[..end];
        OneMoreChunk(before[first..], queue[|before|], old(sequence), chunkSize, end == |data|);
        sent := end;
        n := n + 1;
      }
    }

    lemma MirrorsConfig(y: System, c: Config)
      requires Mirrors(y, c)
      ensures c.chunkSize == chunkSize
    {
    }
  }

  lemma NoChunks(wires: seq<Wire>, first: nat, chunkSize: nat, ended: bool)
    requires wires == []
    ensures ChunkedFrom(wires, first, chunkSize, ended)
  {
  }

  lemma OneMoreChunk(wires: seq<Wire>, w: Wire, first: nat, chunkSize: nat, ended: bool)
    requires ChunkedFrom(wires, first, chunkSize, false)
    requires w.sequence == first + |wires| && w.kind == Output && 0 < |w.payload| <= chunkSize
    requires |w.payload| < chunkSize ==> ended
    ensures ChunkedFrom(wires + [w], first, chunkSize, ended)
  {
  }

  /** The next chunk of what is left of the data from `sent` on. */
  lemma ChunkOfRest(y: System, data: seq<byte>, sent: nat, end: nat, c: Config)
    requires sent < |data| && Remainder(y) == data[sent..]
    requires end == if sent + c.chunkSize < |data| then sent + c.chunkSize else |data|
    ensures Remainder(y) != [] && NextChunk(y, c) == data[sent..end]
  {
    hide Remainder;
  }

  lemma NoSteps(y: System, stamps: nat -> nat, ticks: nat -> nat, c: Config)
    ensures ChunkSteps(y, stamps, ticks, 0, c) == y
  {
  }

  lemma NextSteps(y: System, stamps: nat -> nat, ticks: nat -> nat, n: nat, c: Config)
    ensures ChunkSteps(y, stamps, ticks, n + 1, c) ==
            Step(Step(ChunkSteps(y, stamps, ticks, n, c), Tick(ticks(n)), c), Chunk(stamps(n), true), c)
  {
    hide Step;
  }

  /** `n` chunks of the current command, each `ticks(i)` after the one before it. */
  function ChunkSteps(y: System, stamps: nat -> nat, ticks: nat -> nat, n: nat, c: Config): System {
    if n == 0 then y
    else Step(Step(ChunkSteps(y, stamps, ticks, n - 1, c), Tick(ticks(n - 1)), c), Chunk(stamps(n - 1), true), c)
  }

  lemma ChunkStep(y: System, dt: nat, stamp: nat, c: Config)
    requires CanSend(y, c) && Remainder(y) != []
    ensures var y', w := Step(Step(y, Tick(dt), c), Chunk(stamp, true), c), Wire(y.sequence, Output, NextChunk(y, c), stamp);
            && y'.link == y.link && y'.sequence == y.sequence + 1 && y'.now == y.now + dt
            && y'.queue == y.queue + [w]
            && y'.out == Tracked(y.out, w, y.sequence, y.now + dt)
            && Remainder(y') == Remainder(y)[|NextChunk(y, c)|..]
  {
    hide Tracked, Remainder, NextChunk, AfterChunk;
    var later := Step(y, Tick(dt), c);
    SameRemainder(y, later);
    SameChunk(y, later, c);
    ChunkEffect(later, stamp, true, c);
  }

  // -------------------------------------------------------------------------
  // The system
  // -------------------------------------------------------------------------

  /** Open, closed for a reason that a resume can repair, or closed for good. */
  datatype Link = Open | Broken | Dead

  const COMMAND_QUEUE_DEPTH: nat := 256

  /** One `send` that the command task took up: its data, how much of it became messages, and the
      channel that carried it. */
  datatype Command = Command(data: seq<byte>, sent: nat, channel: nat)

  /** What the agent consumed in order, and what it accepted ahead of the gap. */
  datatype Agent = Agent(consumed: seq<Wire>, held: map<nat, Wire>)

  datatype Config = Config(capacity: nat, maxAttempts: nat, chunkSize: nat)

  datatype System = System(
    sequence: nat,            // Continuity
    out: OutState<Wire>,
    link: Link,               // the channel, replaced by a resume
    channel: nat,
    waiting: seq<seq<byte>>,  // accepted by `send`, not taken up by the command task yet
    queue: seq<Wire>,
    now: nat,                 // the environment
    network: set<Wire>,
    agent: Agent,
    acks: set<int>,
    log: seq<Wire>,           // history
    acked: set<int>,
    sends: seq<seq<byte>>,
    commands: seq<Command>,
    base: nat,
    firsts: seq<nat>)

  const INITIAL :=
    System(0, OutState([], DEFAULT_RTT), Open, 0, [], [], 0, {}, Agent([], map[]), {}, [], {}, [], [], 0, [])

  /** Frames in `network` may reach the agent at any time, any number of times, or never.
      `wrote` says whether the writer still took the frame; a writer that is gone breaks the link. */
  datatype Label =
    | Send(data: seq<byte>)
    | TakeCommand
    | Chunk(stamp: nat, wrote: bool)
    | SendOther(payload: seq<byte>, stamp: nat, wrote: bool)
    | Flush
    | Tick(dt: nat)
    | Poll(wrote: bool)
    | AgentAccepts(w: Wire)
    | AgentConsumes
    | AgentAcks(s: int)
    | AckArrives(s: int)
    | Break
    | Kill
    | Resume

  /** The part of the current command that has not become messages yet. */
  function Remainder(y: System): seq<byte> {
    if y.commands == [] then []
    else
      var c := y.commands[|y.commands| - 1];
      if c.channel == y.channel && c.sent <= |c.data| then c.data[c.sent..] else []
  }

  /** The critical section of `send_payload`, when there is room. */
  function Allocate(y: System, kind: Kind, payload: seq<byte>, stamp: nat, wrote: bool): System {
    var w := Wire(y.sequence, kind, payload, stamp);
    y.(sequence := y.sequence + 1,
       out := Tracked(y.out, w, y.sequence, y.now),
       log := y.log + [w],
       queue := if wrote then y.queue + [w] else y.queue,
       firsts := if wrote then y.firsts + [y.sequence] else y.firsts,
       link := if wrote then y.link else Broken)
  }

  predicate Accepted(a: Agent, s: int) { 0 <= s < |a.consumed| || (s >= 0 && s in a.held) }

  predicate CanSend(y: System, c: Config) { y.link.Open? && |y.out.pending| < c.capacity }

  function NextChunk(y: System, c: Config): seq<byte> {
    var rest := Remainder(y);
    if |rest| <= c.chunkSize then rest else rest[..c.chunkSize]
  }

  function AfterChunk(y: System, n: nat): seq<Command>
    requires y.commands != []
  {
    var last := |y.commands| - 1;
    y.commands[last := y.commands[last].(sent := y.commands[last].sent + n)]
  }

  function Step(y: System, event: Label, c: Config): System {
    match event
    case Send(data) =>
      if y.link.Open? && |y.waiting| < COMMAND_QUEUE_DEPTH then
        y.(waiting := y.waiting + [data], sends := y.sends + [data])
      else y
    case TakeCommand =>
      if y.link.Open? && Remainder(y) == [] && y.waiting != [] then
        y.(waiting := y.waiting[1..], commands := y.commands + [Command(y.waiting[0], 0, y.channel)])
      else y
    case Chunk(stamp, wrote) =>
      if CanSend(y, c) && Remainder(y) != [] then
        Allocate(y.(commands := AfterChunk(y, |NextChunk(y, c)|)), Output, NextChunk(y, c), stamp, wrote)
      else y
    case SendOther(payload, stamp, wrote) =>
      if CanSend(y, c) then Allocate(y, Other, payload, stamp, wrote) else y
    case Flush =>
      if y.link.Open? && y.queue != [] then y.(queue := y.queue[1..], network := y.network + {y.queue[0]}) else y
    case Tick(dt) => y.(now := y.now + dt)
    case Poll(wrote) =>
      if !y.link.Open? then y
      else
        var out := Polled(y.out, c.maxAttempts, y.now);
        (match PollAction(y.out, c.maxAttempts, y.now)
         case Idle => y
         case GaveUp(_, _) => y.(link := Dead)
         case Resend(_, w) =>
           if wrote then y.(out := out, queue := y.queue + [w]) else y.(out := out, link := Broken))
    case AgentAccepts(w) =>
      if w in y.network && w.sequence >= |y.agent.consumed| then
        y.(agent := y.agent.(held := y.agent.held[w.sequence := w]))
      else y
    case AgentConsumes =>
      var n := |y.agent.consumed|;
      if n in y.agent.held then
        y.(agent := Agent(y.agent.consumed + [y.agent.held[n]], y.agent.held - {n}))
      else y
    case AgentAcks(s) =>
      if Accepted(y.agent, s) then y.(acks := y.acks + {s}) else y
    case AckArrives(s) =>
      if y.link.Open? && s in y.acks then y.(out := Acknowledged(y.out, s, y.now), acked := y.acked + {s}) else y
    case Break => if y.link.Open? then y.(link := Broken) else y
    case Kill => if y.link.Open? then y.(link := Dead) else y
    case Resume =>
      if y.link.Broken? then
        y.(link := Open, channel := y.channel + 1, waiting := [], queue := [], base := y.sequence, firsts := [])
      else y
  }

  function Run(labels: seq<Label>, c: Config): System {
    if labels == [] then INITIAL
    else Step(Run(labels[..|labels| - 1], c), labels[|labels| - 1], c)
  }

  // -------------------------------------------------------------------------
  // Byte accounting
  // -------------------------------------------------------------------------

  /** The stream bytes a list of messages carries. */
  function OutputBytes(log: seq<Wire>): seq<byte> {
    if log == [] then []
    else
      var w := log[|log| - 1];
      OutputBytes(log[..|log| - 1]) + if w.kind.Output? then w.payload else []
  }

  /** The bytes of each command that became messages. */
  function SentBytes(commands: seq<Command>): seq<byte> {
    if commands == [] then []
    else
      var c := commands[|commands| - 1];
      SentBytes(commands[..|commands| - 1]) + if c.sent <= |c.data| then c.data[..c.sent] else c.data
  }

  /** What `send` accepted on this channel and no message carries yet: the rest of the current command,
      and the commands that wait behind it. */
  function Unsent(y: System): seq<byte> { Remainder(y) + Concat(y.waiting) }

  // -------------------------------------------------------------------------
  // Invariant
  // -------------------------------------------------------------------------

  predicate IsPending(y: System, s: int) { IndexOf(y.out.pending, s) < |y.out.pending| }

  ghost predicate Genuine(w: Wire, log: seq<Wire>) { w.sequence < |log| && w == log[w.sequence] }

  ghost predicate LogInv(y: System) {
    && y.sequence == |y.log|
    && (forall s :: 0 <= s < |y.log| ==> y.log[s].sequence == s)
    && (forall w :: w in y.queue ==> Genuine(w, y.log))
    && (forall w :: w in y.network ==> Genuine(w, y.log))
  }

  ghost predicate PendingInv(y: System, c: Config) {
    && |y.out.pending| <= c.capacity
    && AckRuns.Sorted(y.out.pending)
    && (forall i :: 0 <= i < |y.out.pending| ==>
        var p := y.out.pending[i];
        p.sequence == p.wire.sequence && Genuine(p.wire, y.log))
    && (forall s :: s in y.acked ==> 0 <= s < y.sequence)
    && (forall s :: 0 <= s < y.sequence ==> (IsPending(y, s) <==> s !in y.acked))
  }

  ghost predicate AgentInv(y: System) {
    && y.agent.consumed <= y.log
    && (forall k :: k in y.agent.held ==> |y.agent.consumed| <= k < |y.log| && y.agent.held[k] == y.log[k])
    && (forall s :: s in y.acks ==> Accepted(y.agent, s))
    && (forall s :: s in y.acked ==> s in y.acks)
  }

  ghost predicate FirstsInv(y: System) {
    && (forall i :: 0 <= i < |y.firsts| ==> y.firsts[i] == y.base + i)
    && y.base + |y.firsts| <= y.sequence
    && (y.link.Open? ==> y.base + |y.firsts| == y.sequence)
  }

  ghost predicate CommandInv(y: System, c: Config) {
    && OutputBytes(y.log) == SentBytes(y.commands)
    && (forall i :: 0 <= i < |y.commands| ==> y.commands[i].sent <= |y.commands[i].data| && y.commands[i].channel <= y.channel)
    && (forall i :: 0 <= i < |y.commands| - 1 ==>
        y.commands[i].sent == |y.commands[i].data| || y.commands[i].channel < y.commands[i + 1].channel)
    && (forall s :: 0 <= s < |y.log| && y.log[s].kind.Output? ==> 0 < |y.log[s].payload| <= c.chunkSize)
  }

  ghost predicate Inv(y: System, c: Config) {
    LogInv(y) && PendingInv(y, c) && AgentInv(y) && FirstsInv(y) && CommandInv(y, c)
  }

  // -------------------------------------------------------------------------
  // Every step keeps each part
  // -------------------------------------------------------------------------

  lemma StepLog(y: System, event: Label, c: Config)
    requires LogInv(y) && PendingInv(y, c)
    ensures LogInv(Step(y, event, c))
  {
    hide Acknowledged, Remainder, OutputBytes, SentBytes, Accepted, IndexOf;
    if event.Poll? {
      match PollAction(y.out, c.maxAttempts, y.now)
      case Resend(_, w) => assert w == y.out.pending[0].wire;
      case _ =>
    }
  }

  lemma AllocatePending(y: System, kind: Kind, payload: seq<byte>, stamp: nat, wrote: bool, c: Config)
    requires LogInv(y) && PendingInv(y, c) && |y.out.pending| < c.capacity
    ensures PendingInv(Allocate(y, kind, payload, stamp, wrote), c)
  {
    hide IndexOf;
    var y' := Allocate(y, kind, payload, stamp, wrote);
    var w := Wire(y.sequence, kind, payload, stamp);
    forall s ensures IsPending(y', s) <==> IsPending(y, s) || s == y.sequence {
      AckRuns.IndexOfAppend(y.out.pending, Pending(w, y.sequence, y.now, 1), s);
    }
    assert forall i :: 0 <= i < |y.out.pending| ==> y'.out.pending[i] == y.out.pending[i];
  }

  lemma RetirePending(y: System, s: int, c: Config)
    requires LogInv(y) && PendingInv(y, c) && 0 <= s < y.sequence
    ensures PendingInv(y.(out := Acknowledged(y.out, s, y.now), acked := y.acked + {s}), c)
  {
    hide IndexOf, Recorded, Elapsed;
    var y' := y.(out := Acknowledged(y.out, s, y.now), acked := y.acked + {s});
    var p, i := y.out.pending, IndexOf(y.out.pending, s);
    if i < |p| {
      AckRuns.IndexOfRemove(p, i, s);
      forall x | x != s ensures IsPending(y', x) <==> IsPending(y, x) {
        AckRuns.IndexOfRemove(p, i, x);
      }
      assert forall k :: 0 <= k < |y'.out.pending| ==> y'.out.pending[k] == p[if k < i then k else k + 1];
    }
  }

  lemma PollPending(y: System, wrote: bool, c: Config)
    requires LogInv(y) && PendingInv(y, c)
    ensures PendingInv(Step(y, Poll(wrote), c), c)
  {
    hide IndexOf, Elapsed;
    if y.link.Open? && PollAction(y.out, c.maxAttempts, y.now).Resend? {
      var y' := Step(y, Poll(wrote), c);
      forall s ensures IsPending(y', s) <==> IsPending(y, s) {
        AckRuns.IndexOfUpdate(y.out.pending, y'.out.pending[0], s);
      }
    }
  }

  lemma PendingFrame(y: System, y': System, c: Config)
    requires PendingInv(y, c)
    requires y'.out == y.out && y'.log == y.log && y'.sequence == y.sequence && y'.acked == y.acked
    ensures PendingInv(y', c)
  {
    hide IndexOf, Genuine;
    assert forall s :: IsPending(y', s) <==> IsPending(y, s);
  }

  lemma StepPending(y: System, event: Label, c: Config)
    requires LogInv(y) && PendingInv(y, c) && AgentInv(y)
    ensures PendingInv(Step(y, event, c), c)
  {
    hide Acknowledged, Tracked, Polled, PollAction, OutputBytes, SentBytes, IndexOf, NextChunk, IsPending, Genuine;
    match event
    case Chunk(stamp, wrote) =>
      if CanSend(y, c) && Remainder(y) != [] {
        PendingFrame(y, y.(commands := AfterChunk(y, |NextChunk(y, c)|)), c);
        AllocatePending(y.(commands := AfterChunk(y, |NextChunk(y, c)|)), Output, NextChunk(y, c), stamp, wrote, c);
      }
    case SendOther(payload, stamp, wrote) =>
      if CanSend(y, c) {
        AllocatePending(y, Other, payload, stamp, wrote, c);
      }
    case Poll(wrote) => PollPending(y, wrote, c);
    case AckArrives(s) =>
      if s in y.acks {
        assert Accepted(y.agent, s);
        RetirePending(y, s, c);
      }
    case Send(_) => PendingFrame(y, Step(y, event, c), c);
    case TakeCommand => PendingFrame(y, Step(y, event, c), c);
    case Flush => PendingFrame(y, Step(y, event, c), c);
    case Tick(_) => PendingFrame(y, Step(y, event, c), c);
    case AgentAccepts(_) => PendingFrame(y, Step(y, event, c), c);
    case AgentConsumes => PendingFrame(y, Step(y, event, c), c);
    case AgentAcks(_) => PendingFrame(y, Step(y, event, c), c);
    case Break => PendingFrame(y, Step(y, event, c), c);
    case Kill => PendingFrame(y, Step(y, event, c), c);
    case Resume => PendingFrame(y, Step(y, event, c), c);
  }

  /** The agent's part depends on the log only through what it already holds. */
  lemma AgentFrame(y: System, y': System)
    requires AgentInv(y)
    requires y'.agent == y.agent && y'.acks == y.acks && y'.acked == y.acked && y.log <= y'.log
    ensures AgentInv(y')
  {
  }

  lemma AgentActs(y: System, event: Label, c: Config)
    requires LogInv(y) && AgentInv(y) && (event.AgentAccepts? || event.AgentConsumes? || event.AgentAcks?)
    ensures AgentInv(Step(y, event, c))
  {
    match event
    case AgentAccepts(w) => assert w in y.network ==> Genuine(w, y.log);
    case AgentConsumes =>
    case AgentAcks(_) =>
  }

  lemma StepAgent(y: System, event: Label, c: Config)
    requires LogInv(y) && AgentInv(y)
    ensures AgentInv(Step(y, event, c))
  {
    hide Acknowledged, Tracked, Polled, PollAction, Remainder, NextChunk, AgentInv, LogInv;
    var y' := Step(y, event, c);
    match event
    case AgentAccepts(_) => AgentActs(y, event, c);
    case AgentConsumes => AgentActs(y, event, c);
    case AgentAcks(_) => AgentActs(y, event, c);
    case AckArrives(s) => AckNoted(y, s, c);
    case _ => AgentFrame(y, y');
  }

  lemma AckNoted(y: System, s: int, c: Config)
    requires AgentInv(y)
    ensures AgentInv(Step(y, AckArrives(s), c))
  {
    hide Acknowledged;
  }

  lemma StepFirsts(y: System, event: Label, c: Config)
    requires FirstsInv(y)
    ensures FirstsInv(Step(y, event, c))
  {
    hide Acknowledged, Tracked, Polled, PollAction, Remainder, NextChunk;
  }

  // -------------------------------------------------------------------------
  // Bytes
  // -------------------------------------------------------------------------

  lemma LogBytesGrow(log: seq<Wire>, w: Wire)
    ensures OutputBytes(log + [w]) == OutputBytes(log) + if w.kind.Output? then w.payload else []
  {
    assert (log + [w])[..|log|] == log;
  }

  lemma SentBytesGrow(commands: seq<Command>, x: Command)
    requires x.sent <= |x.data|
    ensures SentBytes(commands + [x]) == SentBytes(commands) + x.data[..x.sent]
  {
    assert (commands + [x])[..|commands|] == commands;
  }

  /** What is left belongs to the last command. */
  lemma LastCommand(y: System)
    requires Remainder(y) != []
    ensures y.commands != []
    ensures var x := y.commands[|y.commands| - 1];
            x.channel == y.channel && x.sent < |x.data| && Remainder(y) == x.data[x.sent..]
  {
  }

  lemma NextChunkIs(y: System, c: Config)
    ensures NextChunk(y, c) <= Remainder(y) && |NextChunk(y, c)| <= c.chunkSize
    ensures c.chunkSize >= 1 && Remainder(y) != [] ==> NextChunk(y, c) != []
  {
    hide Remainder;
  }

  lemma AdvancedRemainder(y: System, n: nat)
    requires Remainder(y) != [] && n <= |Remainder(y)|
    ensures y.commands != [] && Remainder(y.(commands := AfterChunk(y, n))) == Remainder(y)[n..]
  {
    LastCommand(y);
    var last := |y.commands| - 1;
    var x := y.commands[last];
    assert AfterChunk(y, n)[last] == x.(sent := x.sent + n);
    assert x.data[x.sent..][n..] == x.data[x.sent + n..];
  }

  lemma SameRemainder(y: System, y': System)
    requires y'.commands == y.commands && y'.channel == y.channel
    ensures Remainder(y') == Remainder(y)
  {
  }

  lemma SameChunk(y: System, y': System, c: Config)
    requires Remainder(y') == Remainder(y)
    ensures NextChunk(y', c) == NextChunk(y, c)
  {
    hide Remainder;
  }

  lemma AdvancedBytes(before: seq<Command>, x: Command, n: nat)
    requires x.sent + n <= |x.data|
    ensures SentBytes(before + [x.(sent := x.sent + n)]) == SentBytes(before + [x]) + x.data[x.sent..][..n]
  {
    hide SentBytes;
    SentBytesGrow(before, x);
    SentBytesGrow(before, x.(sent := x.sent + n));
    assert x.data[..x.sent + n] == x.data[..x.sent] + x.data[x.sent..][..n];
  }

  /** Taking the next chunk moves exactly its bytes from the remainder to the sent part. */
  lemma ChunkMovesBytes(y: System, c: Config)
    requires c.chunkSize >= 1 && Remainder(y) != []
    ensures y.commands != []
    ensures SentBytes(AfterChunk(y, |NextChunk(y, c)|)) == SentBytes(y.commands) + NextChunk(y, c)
    ensures 0 < |NextChunk(y, c)| <= c.chunkSize
    ensures var last := |y.commands| - 1;
            y.commands[last].sent + |NextChunk(y, c)| <= |y.commands[last].data|
  {
    hide SentBytes, NextChunk, Remainder;
    LastCommand(y);
    NextChunkIs(y, c);
    var last, n := |y.commands| - 1, |NextChunk(y, c)|;
    var x, before := y.commands[last], y.commands[..last];
    assert y.commands == before + [x];
    assert AfterChunk(y, n) == before + [x.(sent := x.sent + n)];
    AdvancedBytes(before, x, n);
  }

  lemma CommandFrame(y: System, y': System, c: Config)
    requires CommandInv(y, c)
    requires y'.commands == y.commands && y'.log == y.log && y.channel <= y'.channel
    ensures CommandInv(y', c)
  {
    hide OutputBytes, SentBytes;
  }

  lemma TakeCommands(y: System, c: Config)
    requires CommandInv(y, c) && y.link.Open? && Remainder(y) == [] && y.waiting != []
    ensures CommandInv(Step(y, TakeCommand, c), c)
  {
    hide OutputBytes, SentBytes;
    SentBytesGrow(y.commands, Command(y.waiting[0], 0, y.channel));
  }

  lemma ChunkCommands(y: System, stamp: nat, wrote: bool, c: Config)
    requires CommandInv(y, c) && c.chunkSize >= 1 && CanSend(y, c) && Remainder(y) != []
    ensures CommandInv(Step(y, Chunk(stamp, wrote), c), c)
  {
    hide Tracked, OutputBytes, SentBytes, NextChunk;
    ChunkMovesBytes(y, c);
    LogBytesGrow(y.log, Wire(y.sequence, Output, NextChunk(y, c), stamp));
  }

  lemma OtherCommands(y: System, payload: seq<byte>, stamp: nat, wrote: bool, c: Config)
    requires CommandInv(y, c)
    ensures CommandInv(Step(y, SendOther(payload, stamp, wrote), c), c)
  {
    hide Tracked, OutputBytes, SentBytes;
    LogBytesGrow(y.log, Wire(y.sequence, Other, payload, stamp));
  }

  lemma StepCommands(y: System, event: Label, c: Config)
    requires CommandInv(y, c) && c.chunkSize >= 1
    ensures CommandInv(Step(y, event, c), c)
  {
    hide Acknowledged, Tracked, Polled, PollAction, NextChunk, CommandInv;
    match event
    case TakeCommand =>
      if y.link.Open? && Remainder(y) == [] && y.waiting != [] {
        TakeCommands(y, c);
      }
    case Chunk(stamp, wrote) =>
      if CanSend(y, c) && Remainder(y) != [] {
        ChunkCommands(y, stamp, wrote, c);
      }
    case SendOther(payload, stamp, wrote) => OtherCommands(y, payload, stamp, wrote, c);
    case _ => CommandFrame(y, Step(y, event, c), c);
  }

  lemma InitialInv(c: Config)
    ensures Inv(INITIAL, c)
  {
  }

  lemma {:induction false} RunInv(labels: seq<Label>, c: Config)
    requires c.chunkSize >= 1
    ensures Inv(Run(labels, c), c)
  {
    hide LogInv, PendingInv, AgentInv, FirstsInv, CommandInv, Step;
    if labels == [] {
      InitialInv(c);
    } else {
      var y, event := Run(labels[..|labels| - 1], c), labels[|labels| - 1];
      RunInv(labels[..|labels| - 1], c);
      StepLog(y, event, c);
      StepPending(y, event, c);
      StepAgent(y, event, c);
      StepFirsts(y, event, c);
      StepCommands(y, event, c);
    }
  }

  // -------------------------------------------------------------------------
  // Main results
  // -------------------------------------------------------------------------

  /** Conservation across senders and resumes: every allocated number is either acknowledged or
      pending, never both; the queue is sorted and bounded; and every frame written with number `s`,
      first or again, on any channel, is the one message logged under `s`. */
  lemma {:induction false} OutboundConservation(labels: seq<Label>, c: Config)
    requires c.chunkSize >= 1
    ensures var y := Run(labels, c);
            && y.sequence == |y.log|
            && (forall s :: 0 <= s < y.sequence ==> ((s in y.acked) != exists p :: p in y.out.pending && p.sequence == s))
            && (forall i, j :: 0 <= i < j < |y.out.pending| ==> y.out.pending[i].sequence < y.out.pending[j].sequence)
            && |y.out.pending| <= c.capacity
            && (forall w :: w in y.queue || w in y.network ==> w.sequence < |y.log| && w == y.log[w.sequence])
            && (forall p :: p in y.out.pending ==> 0 <= p.sequence < |y.log| && p.wire == y.log[p.sequence])
  {
    hide IndexOf, CommandInv, FirstsInv, AgentInv;
    RunInv(labels, c);
    var y := Run(labels, c);
    forall s | 0 <= s < y.sequence ensures (s in y.acked) != exists p :: p in y.out.pending && p.sequence == s {
      if IsPending(y, s) {
        assert y.out.pending[IndexOf(y.out.pending, s)] in y.out.pending;
      }
    }
  }

  /** The oldest message that has not been acknowledged. */
  ghost predicate OldestPending(y: System, s: nat) {
    s < y.sequence && s !in y.acked && forall x :: 0 <= x < s ==> x in y.acked
  }

  lemma HeadIsOldest(y: System, s: nat, c: Config)
    requires LogInv(y) && PendingInv(y, c) && OldestPending(y, s)
    ensures y.out.pending != [] && y.out.pending[0].sequence == s && y.out.pending[0].wire == y.log[s]
  {
    assert IsPending(y, s);
    var i := IndexOf(y.out.pending, s);
    var head := y.out.pending[0];
    assert Genuine(head.wire, y.log);
    assert IndexOf(y.out.pending, head.sequence) == 0 by { AckRuns.IndexOfIs(y.out.pending, head.sequence, 0); }
    assert IsPending(y, head.sequence);
  }

  /** What a poll does to an open channel, over every run: nothing before the oldest unacknowledged message
      is overdue; then it queues that very message again, or, once its budget is spent, ends the session
      for good. */
  lemma {:induction false} PollOutcome(labels: seq<Label>, wrote: bool, s: nat, c: Config)
    requires c.chunkSize >= 1 && Run(labels, c).link.Open? && OldestPending(Run(labels, c), s)
    ensures var y, y' := Run(labels, c), Step(Run(labels, c), Poll(wrote), c);
            && y.out.pending != [] && s < |y.log|
            && var head := y.out.pending[0];
               if y.now <= head.lastSent + y.out.rtt.rto then y' == y
               else if head.attempts >= c.maxAttempts then y' == y.(link := Dead)
               else
                 && y'.queue == (if wrote then y.queue + [y.log[s]] else y.queue)
                 && y'.link == (if wrote then Open else Broken)
                 && y'.log == y.log && y'.acked == y.acked && y'.out.pending[1..] == y.out.pending[1..]
                 && y'.out.pending[0] == head.(lastSent := y.now, attempts := head.attempts + 1)
  {
    hide Run, IndexOf, CommandInv, FirstsInv, AgentInv, OldestPending;
    RunInv(labels, c);
    HeadIsOldest(Run(labels, c), s, c);
  }

  /** A session that gave up a message is never resumed. */
  lemma {:induction false} DeadIsFinal(labels: seq<Label>, more: seq<Label>, c: Config)
    requires Run(labels, c).link.Dead?
    ensures Run(labels + more, c).link.Dead? && Run(labels + more, c).log == Run(labels, c).log
  {
    hide Acknowledged, Tracked, Polled, PollAction, Remainder, NextChunk;
    if more == [] {
      assert labels + more == labels;
    } else {
      DeadIsFinal(labels, more[..|more| - 1], c);
      assert (labels + more)[..|labels + more| - 1] == labels + more[..|more| - 1];
    }
  }

  /** On each channel the messages first allocated there enter the writer queue in sequence order
      without a gap. */
  lemma {:induction false} FirstSendsInOrder(labels: seq<Label>, c: Config)
    requires c.chunkSize >= 1
    ensures var y := Run(labels, c);
            && (forall i :: 0 <= i < |y.firsts| ==> y.firsts[i] == y.base + i)
            && (y.link.Open? ==> y.base + |y.firsts| == y.sequence)
  {
    hide IndexOf, CommandInv, LogInv, PendingInv, AgentInv;
    RunInv(labels, c);
  }

  lemma {:induction false} OutputPrefix(a: seq<Wire>, b: seq<Wire>)
    requires a <= b
    ensures OutputBytes(a) <= OutputBytes(b)
  {
    if a != b {
      var shorter := b[..|b| - 1];
      assert a <= shorter && b == shorter + [b[|b| - 1]];
      OutputPrefix(a, shorter);
      LogBytesGrow(shorter, b[|b| - 1]);
    }
  }

  /** Prefix and no loss: what the agent consumed is a prefix of the sent parts of the commands, in
      order, and every later message is in the pending queue or held by the agent. */
  lemma {:induction false} ConsumedIsPrefix(labels: seq<Label>, c: Config)
    requires c.chunkSize >= 1
    ensures var y := Run(labels, c);
            && OutputBytes(y.agent.consumed) <= SentBytes(y.commands)
            && (forall s :: |y.agent.consumed| <= s < y.sequence ==> s in y.agent.held || IsPending(y, s))
            && (forall i :: 0 <= i < |y.commands| - 1 ==>
                y.commands[i].sent == |y.commands[i].data| || y.commands[i].channel < y.commands[i + 1].channel)
            && (forall s :: 0 <= s < |y.log| && y.log[s].kind.Output? ==> 0 < |y.log[s].payload| <= c.chunkSize)
  {
    hide IndexOf, OutputBytes, SentBytes, FirstsInv;
    RunInv(labels, c);
    var y := Run(labels, c);
    OutputPrefix(y.agent.consumed, y.log);
    forall s | |y.agent.consumed| <= s < y.sequence ensures s in y.agent.held || IsPending(y, s) {
      if !IsPending(y, s) {
        assert s in y.acked && s in y.acks;
        assert Accepted(y.agent, s);
      }
    }
  }

  // -------------------------------------------------------------------------
  // What `send` accepted
  // -------------------------------------------------------------------------

  /** Every byte that is in a message or can still become part of one. */
  function Kept(y: System): seq<byte> { OutputBytes(y.log) + Unsent(y) }

  /** The channel is replaced while bytes that `send` accepted are not in any message: the rest of a
      command, or commands still in the queue. */
  predicate ResumesWithUnsent(y: System, event: Label) {
    event.Resume? && y.link.Broken? && Unsent(y) != []
  }

  ghost predicate EverResumesWithUnsent(labels: seq<Label>, c: Config) {
    exists k :: 0 <= k < |labels| && ResumesWithUnsent(Run(labels[..k], c), labels[k])
  }

  lemma ChunkEffect(y: System, stamp: nat, wrote: bool, c: Config)
    requires CanSend(y, c) && Remainder(y) != []
    ensures var y', chunk := Step(y, Chunk(stamp, wrote), c), NextChunk(y, c);
            && y'.log == y.log + [Wire(y.sequence, Output, chunk, stamp)]
            && y'.waiting == y.waiting && y'.sends == y.sends
            && chunk <= Remainder(y) && Remainder(y') == Remainder(y)[|chunk|..]
  {
    hide Tracked, Remainder, NextChunk, AfterChunk;
    var chunk := NextChunk(y, c);
    NextChunkIs(y, c);
    LastCommand(y);
    AdvancedRemainder(y, |chunk|);
    SameRemainder(y.(commands := AfterChunk(y, |chunk|)), Step(y, Chunk(stamp, wrote), c));
  }

  lemma ChunkKeeps(y: System, stamp: nat, wrote: bool, c: Config)
    requires CanSend(y, c) && Remainder(y) != []
    ensures Kept(Step(y, Chunk(stamp, wrote), c)) == Kept(y)
    ensures Step(y, Chunk(stamp, wrote), c).sends == y.sends
  {
    hide OutputBytes, Concat, Step, Remainder, NextChunk;
    var chunk, rest := NextChunk(y, c), Concat(y.waiting);
    ChunkEffect(y, stamp, wrote, c);
    LogBytesGrow(y.log, Wire(y.sequence, Output, chunk, stamp));
    Regroup(OutputBytes(y.log), chunk, Remainder(y)[|chunk|..], rest);
    assert chunk + Remainder(y)[|chunk|..] == Remainder(y);
  }

  lemma Regroup(a: seq<byte>, b: seq<byte>, d: seq<byte>, e: seq<byte>)
    ensures (a + b) + (d + e) == a + ((b + d) + e)
  {
  }

  lemma TakeKeeps(y: System, c: Config)
    requires y.link.Open? && Remainder(y) == [] && y.waiting != []
    ensures Kept(Step(y, TakeCommand, c)) == Kept(y)
  {
    hide OutputBytes;
    var y' := Step(y, TakeCommand, c);
    assert Remainder(y') == y.waiting[0];
    assert Concat(y.waiting) == y.waiting[0] + Concat(y.waiting[1..]);
  }

  lemma SendKeeps(y: System, data: seq<byte>, c: Config)
    requires y.link.Open? && |y.waiting| < COMMAND_QUEUE_DEPTH
    ensures Kept(Step(y, Send(data), c)) == Kept(y) + data
    ensures Concat(Step(y, Send(data), c).sends) == Concat(y.sends) + data
  {
    ConcatOne(y.waiting, data);
    ConcatOne(y.sends, data);
    hide OutputBytes, Concat;
  }

  /** Only a resume with unsent bytes loses any; every other step keeps what was kept and adds what
      `send` accepts. */
  lemma StepKeeps(y: System, event: Label, c: Config)
    requires CommandInv(y, c)
    ensures var y' := Step(y, event, c);
            if ResumesWithUnsent(y, event) then y'.sends == y.sends && |Kept(y')| < |Kept(y)|
            else exists data :: Kept(y') == Kept(y) + data && Concat(y'.sends) == Concat(y.sends) + data
  {
    hide OutputBytes, SentBytes, Concat, Tracked, Polled, PollAction, Acknowledged, Kept, NextChunk;
    var y' := Step(y, event, c);
    match event
    case Send(data) =>
      if y.link.Open? && |y.waiting| < COMMAND_QUEUE_DEPTH {
        SendKeeps(y, data, c);
      } else {
        KeptSame(y, y');
      }
    case TakeCommand =>
      if y.link.Open? && Remainder(y) == [] && y.waiting != [] {
        TakeKeeps(y, c);
        AddsNothing(y, y');
      } else {
        KeptSame(y, y');
      }
    case Chunk(stamp, wrote) =>
      if CanSend(y, c) && Remainder(y) != [] {
        ChunkKeeps(y, stamp, wrote, c);
        AddsNothing(y, y');
      } else {
        KeptSame(y, y');
      }
    case SendOther(payload, stamp, wrote) =>
      LogBytesGrow(y.log, Wire(y.sequence, Other, payload, stamp));
      KeptSame(y, y');
    case Resume =>
      if y.link.Broken? {
        ResumeKeeps(y, c);
      } else {
        KeptSame(y, y');
      }
    case _ => KeptSame(y, y');
  }

  lemma AddsNothing(y: System, y': System)
    requires Kept(y') == Kept(y) && y'.sends == y.sends
    ensures exists data :: Kept(y') == Kept(y) + data && Concat(y'.sends) == Concat(y.sends) + data
  {
    hide Kept, Concat;
    assert Kept(y') == Kept(y) + [] && Concat(y'.sends) == Concat(y.sends) + [];
  }

  lemma KeptSame(y: System, y': System)
    requires OutputBytes(y'.log) == OutputBytes(y.log) && y'.sends == y.sends
    requires y'.commands == y.commands && y'.channel == y.channel && y'.waiting == y.waiting
    ensures exists data :: Kept(y') == Kept(y) + data && Concat(y'.sends) == Concat(y.sends) + data
  {
    assert Remainder(y') == Remainder(y);
    AddsNothing(y, y');
  }

  lemma ResumeKeeps(y: System, c: Config)
    requires CommandInv(y, c) && y.link.Broken?
    ensures var y' := Step(y, Resume, c);
            if ResumesWithUnsent(y, Resume) then y'.sends == y.sends && |Kept(y')| < |Kept(y)|
            else exists data :: Kept(y') == Kept(y) + data && Concat(y'.sends) == Concat(y.sends) + data
  {
    hide OutputBytes, SentBytes;
    var y' := Step(y, Resume, c);
    assert Unsent(y') == [];
    if Unsent(y) == [] {
      AddsNothing(y, y');
    }
  }

  lemma EverGrows(labels: seq<Label>, c: Config)
    requires labels != []
    ensures var n := |labels| - 1;
            EverResumesWithUnsent(labels, c) <==>
            EverResumesWithUnsent(labels[..n], c) || ResumesWithUnsent(Run(labels[..n], c), labels[n])
  {
    hide Run, ResumesWithUnsent;
    var n := |labels| - 1;
    var before := labels[..n];
    assert forall k :: 0 <= k < n ==> before[..k] == labels[..k] && before[k] == labels[k];
  }

  /** The accounts of a whole run. */
  lemma {:induction false} Balance(labels: seq<Label>, c: Config)
    requires c.chunkSize >= 1
    ensures var y := Run(labels, c);
            if EverResumesWithUnsent(labels, c) then |Kept(y)| < |Concat(y.sends)| else Kept(y) == Concat(y.sends)
  {
    hide Step, CommandInv, LogInv, PendingInv, AgentInv, FirstsInv, ResumesWithUnsent, Kept, EverResumesWithUnsent;
    if labels == [] {
      NothingKept(c);
    } else {
      var before := labels[..|labels| - 1];
      Balance(before, c);
      RunInv(before, c);
      StepKeeps(Run(before, c), labels[|labels| - 1], c);
      EverGrows(labels, c);
    }
  }

  lemma NothingKept(c: Config)
    ensures Kept(INITIAL) == [] && Concat(INITIAL.sends) == [] && !EverResumesWithUnsent([], c)
  {
  }

  /** Losslessness of `send`, exactly: over every run, all the bytes that `send` accepted are in messages,
      in the current remainder or in the queue if and only if no channel was ever replaced while some
      of them were not in a message yet. */
  lemma {:induction false} NothingLostIff(labels: seq<Label>, c: Config)
    requires c.chunkSize >= 1
    ensures var y := Run(labels, c);
            OutputBytes(y.log) + (Remainder(y) + Concat(y.waiting)) == Concat(y.sends)
            <==> !EverResumesWithUnsent(labels, c)
  {
    hide Run, EverResumesWithUnsent, OutputBytes, Concat;
    Balance(labels, c);
  }

  /** Under that condition the consumed bytes are a prefix of the concatenated `send` data. */
  lemma {:induction false} ConsumedIsPrefixOfSends(labels: seq<Label>, c: Config)
    requires c.chunkSize >= 1 && !EverResumesWithUnsent(labels, c)
    ensures var y := Run(labels, c);
            OutputBytes(y.agent.consumed) <= Concat(y.sends)
  {
    hide OutputBytes, SentBytes, Concat, PendingInv, FirstsInv, LogInv, EverResumesWithUnsent;
    RunInv(labels, c);
    NothingLostIff(labels, c);
    OutputPrefix(Run(labels, c).agent.consumed, Run(labels, c).log);
  }

  // -------------------------------------------------------------------------
  // A resume can lose bytes that `send` accepted
  // -------------------------------------------------------------------------

  lemma RunSnoc(labels: seq<Label>, event: Label, c: Config)
    ensures Run(labels + [event], c) == Step(Run(labels, c), event, c)
  {
    assert (labels + [event])[..|labels|] == labels;
  }

  /** Nothing is on its way anywhere, and there is room. */
  predicate Idle(y: System, c: Config) {
    && CanSend(y, c) && Unsent(y) == [] && y.waiting == [] && y.queue == []
    && |y.agent.consumed| == y.sequence && y.agent.held == map[]
  }

  /** A `send` whose first byte goes straight through: taken up, numbered, written, accepted, consumed. */
  function FirstByte(y: System, data: seq<byte>): seq<Label>
    requires data != []
  {
    [Send(data), TakeCommand, Chunk(0, true), Flush, AgentAccepts(Wire(y.sequence, Output, data[..1], 0)), AgentConsumes]
  }

  lemma FirstByteTaken(y: System, data: seq<byte>, c: Config)
    requires data != [] && c.chunkSize == 1 && Idle(y, c)
    ensures var w := Wire(y.sequence, Output, data[..1], 0);
            var y' := Step(Step(Step(y, Send(data), c), TakeCommand, c), Chunk(0, true), c);
            && y'.link.Open? && y'.channel == y.channel && y'.waiting == [] && y'.queue == [w]
            && y'.agent == y.agent && y'.sequence == y.sequence + 1 && |y'.out.pending| == |y.out.pending| + 1
            && Remainder(y') == data[1..] && y'.sends == y.sends + [data]
  {
    hide Concat;
    var y1 := Step(y, Send(data), c);
    assert y1.waiting == [data] && Remainder(y1) == [];
    var y2 := Step(y1, TakeCommand, c);
    assert Remainder(y2) == data && NextChunk(y2, c) == data[..1];
  }

  lemma FirstByteConsumed(y: System, w: Wire, c: Config)
    requires y.link.Open? && y.queue == [w] && w.kind.Output?
    requires |y.agent.consumed| == w.sequence && y.agent.held == map[]
    ensures var y' := Step(Step(Step(y, Flush, c), AgentAccepts(w), c), AgentConsumes, c);
            && y'.link == y.link && y'.channel == y.channel && y'.waiting == y.waiting && y'.queue == []
            && y'.sequence == y.sequence && y'.out == y.out && y'.sends == y.sends && y'.commands == y.commands
            && y'.agent == Agent(y.agent.consumed + [w], map[])
            && OutputBytes(y'.agent.consumed) == OutputBytes(y.agent.consumed) + w.payload
  {
    hide OutputBytes;
    LogBytesGrow(y.agent.consumed, w);
    assert map[w.sequence := w] - {w.sequence} == map[];
  }

  lemma RunThree(labels: seq<Label>, e1: Label, e2: Label, e3: Label, c: Config)
    ensures Run(labels + [e1, e2, e3], c) == Step(Step(Step(Run(labels, c), e1, c), e2, c), e3, c)
  {
    hide Run, Step;
    RunSnoc(labels, e1, c);
    RunSnoc(labels + [e1], e2, c);
    RunSnoc(labels + [e1] + [e2], e3, c);
    assert labels + [e1, e2, e3] == labels + [e1] + [e2] + [e3];
  }

  lemma FirstByteGoesThrough(labels: seq<Label>, data: seq<byte>, c: Config)
    requires data != [] && c.chunkSize == 1 && Idle(Run(labels, c), c)
    ensures var y := Run(labels, c);
            var y' := Run(labels + FirstByte(y, data), c);
            && y'.link.Open? && y'.channel == y.channel && y'.waiting == [] && y'.queue == []
            && |y'.agent.consumed| == y'.sequence && y'.agent.held == map[]
            && |y'.out.pending| == |y.out.pending| + 1
            && Remainder(y') == data[1..] && y'.sends == y.sends + [data]
            && OutputBytes(y'.agent.consumed) == OutputBytes(y.agent.consumed) + data[..1]
  {
    hide Run, OutputBytes, Concat, Step;
    var y := Run(labels, c);
    var w := Wire(y.sequence, Output, data[..1], 0);
    var sent := labels + [Send(data), TakeCommand, Chunk(0, true)];
    RunThree(labels, Send(data), TakeCommand, Chunk(0, true), c);
    FirstByteTaken(y, data, c);
    RunThree(sent, Flush, AgentAccepts(w), AgentConsumes, c);
    FirstByteConsumed(Run(sent, c), w, c);
    assert labels + FirstByte(y, data) == sent + [Flush, AgentAccepts(w), AgentConsumes];
    hide FirstByte;
    SameRemainder(Run(sent, c), Run(labels + FirstByte(y, data), c));
  }

  lemma ResumedAfresh(y: System, c: Config)
    requires CommandInv(y, c) && y.link.Open?
    ensures var y' := Step(Step(y, Break, c), Resume, c);
            && Step(y, Break, c) == y.(link := Broken)
            && y'.link.Open? && Unsent(y') == [] && y'.waiting == [] && y'.queue == []
            && y'.out == y.out && y'.agent == y.agent && y'.sequence == y.sequence && y'.sends == y.sends
  {
    hide OutputBytes, SentBytes;
  }

  lemma BreakAndResume(labels: seq<Label>, c: Config)
    requires c.chunkSize >= 1 && Run(labels, c).link.Open?
    ensures var y, y' := Run(labels, c), Run(labels + [Break] + [Resume], c);
            && Run(labels + [Break], c) == y.(link := Broken)
            && y'.link.Open? && Unsent(y') == [] && y'.waiting == [] && y'.queue == []
            && y'.out == y.out && y'.agent == y.agent && y'.sequence == y.sequence && y'.sends == y.sends
  {
    hide Run, Step, Unsent, LogInv, PendingInv, AgentInv, FirstsInv, CommandInv;
    RunInv(labels, c);
    RunSnoc(labels, Break, c);
    RunSnoc(labels + [Break], Resume, c);
    ResumedAfresh(Run(labels, c), c);
  }

  lemma InitialIdle(c: Config)
    requires c.capacity > 0
    ensures Idle(Run([], c), c) && Run([], c) == INITIAL && OutputBytes(INITIAL.agent.consumed) == []
  {
  }

  /** A link that breaks between two chunks of one command, followed by a resume and a second `send`,
      leaves the agent with bytes 1, 3 of the 1, 2, 3 that were accepted. */
  lemma CutCommandLosesBytes() returns (before: seq<Label>, after: seq<Label>, c: Config)
    ensures c.chunkSize >= 1 && Remainder(Run(before, c)) == [2] && Run(before, c).waiting == []
    ensures var y := Run(before + [Resume] + after, c);
            && y.link.Open? && Unsent(y) == []
            && y.sends == [[1, 2], [3]]
            && OutputBytes(y.agent.consumed) == [1, 3]
  {
    hide Run, OutputBytes, SentBytes, FirstByte;
    c := Config(10, 3, 1);
    InitialIdle(c);
    FirstByteGoesThrough([], [1, 2], c);
    before := [] + FirstByte(Run([], c), [1, 2]);
    BreakAndResume(before, c);
    before := before + [Break];
    assert Remainder(Run(before, c)) == [2];
    assert Idle(Run(before + [Resume], c), c);
    FirstByteGoesThrough(before + [Resume], [3], c);
    after := FirstByte(Run(before + [Resume], c), [3]);
  }

  /** The queue is lost as well: a first `send` is fully numbered, a second one waits in the queue when
      the link breaks, and after the resume a third one goes through. No command was cut, but the agent
      has 1, 3 of the 1, 2, 3 that were accepted. */
  lemma QueuedCommandIsLost() returns (before: seq<Label>, after: seq<Label>, c: Config)
    ensures c.chunkSize >= 1 && Remainder(Run(before, c)) == [] && Run(before, c).waiting == [[2]]
    ensures var y := Run(before + [Resume] + after, c);
            && y.link.Open? && Unsent(y) == []
            && y.sends == [[1], [2], [3]]
            && OutputBytes(y.agent.consumed) == [1, 3]
  {
    hide Run, OutputBytes, SentBytes, FirstByte;
    c := Config(10, 3, 1);
    InitialIdle(c);
    FirstByteGoesThrough([], [1], c);
    var sent := [] + FirstByte(Run([], c), [1]);
    RunSnoc(sent, Send([2]), c);
    before := sent + [Send([2])];
    assert Remainder(Run(before, c)) == [];
    BreakAndResume(before, c);
    before := before + [Break];
    assert Idle(Run(before + [Resume], c), c);
    FirstByteGoesThrough(before + [Resume], [3], c);
    after := FirstByte(Run(before + [Resume], c), [3]);
  }
}
