/** The way in as one system: the inbound channel delivers, the reader emits into the fan-out, the receive
task takes chunks out of its queue and dispatches the frames it decodes, and the streams are read. Every
interleaving of these steps with the network, other subscribers and the users of the streams is a run. */
module Pipeline {
  import opened Bytes
  import opened Framing
  import Fanout
  import Inbound
  import Mux
  import MuxRuns
  import opened Streams
  import opened EndToEnd

  /** `outbox` holds what was delivered and not emitted yet, `todo` what was decoded and not dispatched
      yet. The last three fields are history: the steps that each part has taken on this channel, or ever
      in the case of the network. */
  datatype System = System(
    net: Inbound.System,
    base: nat,
    outbox: seq<seq<byte>>,
    fan: Fanout.State<seq<byte>>,
    started: bool,
    task: nat,
    rest: seq<byte>,
    todo: seq<Frame>,
    corrupt: bool,
    done: bool,
    mux: Mux.State,
    netLog: seq<Inbound.Label>,
    fanLog: seq<Fanout.Label<seq<byte>>>,
    muxLog: seq<Mux.Label>)

  datatype Label =
    | Net(n: Inbound.Label)
    | Emit
    | Fan(f: Fanout.Label<seq<byte>>)
    | StartMux(queueDepth: nat)
    | TaskReceives
    | TaskDispatches
    | TaskEnds
    | Use(m: Mux.Label)

  /** A channel that has just been opened, over what is already known of the session. */
  function Fresh(net: Inbound.System, base: nat, netLog: seq<Inbound.Label>): System {
    System(net, base, [], Fanout.Initial(), false, 0, [], [], false, false, Mux.INITIAL, netLog, [], [])
  }

  /** The messages that `deliver` accepted, and what they put on the output. */
  function Emitted(net: Inbound.System): seq<seq<byte>> {
    var r := net.reader;
    Chunks(if r.expected <= |r.handed| then r.handed[..r.expected] else r.handed)
  }

  function FanStep(y: System, f: Fanout.Label<seq<byte>>): System {
    y.(fan := Fanout.Step(y.fan, f), fanLog := y.fanLog + [f])
  }

  function MuxStep(y: System, m: Mux.Label): System
    requires Mux.Wf(y.mux)
  {
    y.(mux := Mux.Step(y.mux, m), muxLog := y.muxLog + [m])
  }

  /** The receive task's own subscription; nobody else receives from it or drops it. */
  predicate TasksOwn(y: System, f: Fanout.Label<seq<byte>>) {
    y.started && (f.Receive? || f.DropReceiver?) && f.i == y.task
  }

  predicate CanReceive(y: System) {
    && y.started && !y.done && !y.corrupt && y.todo == []
    && y.task < |y.fan.streams| && y.fan.streams[y.task].receiving && y.fan.streams[y.task].queue != []
  }

  /** The output ended, the framing is lost, or the multiplexer was closed by somebody else. */
  predicate CanEnd(y: System) {
    && y.started && !y.done && y.todo == [] && y.task < |y.fan.streams|
    && (y.corrupt || y.mux.closed || (y.fan.streams[y.task].queue == [] && y.task !in y.fan.subscribers))
  }

  function EndReason(y: System): Mux.Tag
    requires CanEnd(y)
  {
    if y.corrupt || y.fan.streams[y.task].lagged then Mux.Desynchronised else Mux.Clean
  }

  function Step(y: System, event: Label, capacity: nat): (y': System)
    requires Mux.Wf(y.mux)
    ensures Mux.Wf(y'.mux)
  {
    match event
    case Net(n) =>
      var net' := Inbound.Step(y.net, n, capacity);
      if !n.Resume? then
        var before, now := Emitted(y.net), Emitted(net');
        y.(net := net', netLog := y.netLog + [n],
           outbox := if |before| <= |now| then y.outbox + now[|before|..] else y.outbox)
      else if y.net.reader.failed then y
      else Fresh(net', |Emitted(net')|, y.netLog + [n])
    case Emit =>
      if y.outbox == [] then y else FanStep(y.(outbox := y.outbox[1..]), Fanout.Send(y.outbox[0]))
    case Fan(f) => if f.Send? || TasksOwn(y, f) then y else FanStep(y, f)
    case StartMux(depth) =>
      if y.started then y else FanStep(y.(started := true, task := |y.fan.streams|), Fanout.Subscribe(depth))
    case TaskReceives =>
      if !CanReceive(y) then y
      else
        var b := DecodeAll(y.rest + y.fan.streams[y.task].queue[0]);
        FanStep(y.(rest := b.rest, todo := b.frames, corrupt := b.corrupt), Fanout.Receive(y.task))
    case TaskDispatches =>
      if y.todo == [] || y.done then y else MuxStep(y.(todo := y.todo[1..]), Mux.Dispatch(y.todo[0]))
    case TaskEnds =>
      if CanEnd(y) then MuxStep(y.(done := true), Mux.Close(EndReason(y))) else y
    case Use(m) => if !y.started || m.Dispatch? then y else MuxStep(y, m)
  }

  function Run(labels: seq<Label>, capacity: nat): (y: System)
    ensures Mux.Wf(y.mux)
  {
    if labels == [] then Fresh(Inbound.INITIAL, 0, [])
    else Step(Run(labels[..|labels| - 1], capacity), labels[|labels| - 1], capacity)
  }

  // -------------------------------------------------------------------------
  // Invariant
  // -------------------------------------------------------------------------

  /** Each part is where its own steps lead. */
  ghost predicate Replays(y: System, capacity: nat) {
    && y.net == Inbound.Run(y.netLog, capacity)
    && y.fan == Fanout.Run(y.fanLog)
    && y.mux == Mux.Run(y.muxLog)
  }

  /** Between the inbound channel and the fan-out nothing is lost or added. */
  ghost predicate Joined(y: System) {
    y.base <= |Emitted(y.net)| && y.fan.sent + y.outbox == Emitted(y.net)[y.base..]
  }

  /** Between the receive task's queue and the multiplexer nothing is lost or added. */
  ghost predicate Decoding(y: System) {
    if !y.started then y.muxLog == [] && y.todo == [] && y.rest == [] && !y.corrupt
    else
      && y.task < |y.fan.streams|
      && FeedAll(y.fan.streams[y.task].received) == Batch(FramesIn(y.muxLog) + y.todo, y.rest, y.corrupt)
  }

  ghost predicate Inv(y: System, capacity: nat) { Replays(y, capacity) && Joined(y) && Decoding(y) }

  lemma FreshInv(net: Inbound.System, netLog: seq<Inbound.Label>, capacity: nat)
    requires net == Inbound.Run(netLog, capacity)
    ensures Inv(Fresh(net, |Emitted(net)|, netLog), capacity)
  {
    hide Inbound.Run, Chunks;
  }

  lemma EmittedGrows(labels: seq<Inbound.Label>, n: Inbound.Label, capacity: nat)
    ensures var net := Inbound.Run(labels, capacity);
            var net' := Inbound.Step(net, n, capacity);
            Emitted(net) <= Emitted(net')
  {
    hide Inbound.Run, Inbound.Step, Chunks;
    Inbound.ExactlyOnceInOrder(labels, capacity);
    Inbound.NothingTakenBack(labels, n, capacity);
    Inbound.RunSnoc(labels, n, capacity);
    Inbound.ExactlyOnceInOrder(labels + [n], capacity);
    var net := Inbound.Run(labels, capacity);
    var net' := Inbound.Step(net, n, capacity);
    var k, k' := net.reader.expected, net'.reader.expected;
    assert net.reader.handed[..k] == net'.sent[..k] && net'.reader.handed[..k'] == net'.sent[..k'];
    ChunksPrefix(net.reader.handed[..k], net'.reader.handed[..k']);
  }

  lemma NetKeeps(y: System, n: Inbound.Label, capacity: nat)
    requires Inv(y, capacity) && Mux.Wf(y.mux)
    ensures Inv(Step(y, Net(n), capacity), capacity)
  {
    hide Inbound.Run, Fanout.Run, Mux.Run, Inbound.Step, Emitted, FeedAll, FramesIn;
    Inbound.RunSnoc(y.netLog, n, capacity);
    var net' := Inbound.Step(y.net, n, capacity);
    if n.Resume? {
      FreshInv(net', y.netLog + [n], capacity);
    } else {
      EmittedGrows(y.netLog, n, capacity);
      var a, b := Emitted(y.net), Emitted(net');
      assert b[y.base..] == a[y.base..] + b[|a|..];
    }
  }

  lemma FanSnoc(labels: seq<Fanout.Label<seq<byte>>>, f: Fanout.Label<seq<byte>>)
    ensures Fanout.Run(labels + [f]) == Fanout.Step(Fanout.Run(labels), f)
  {
    assert (labels + [f])[..|labels|] == labels;
  }

  /** What a fan-out step does to what was sent and to what subscriber `i` received. */
  lemma FanEffect(s: Fanout.State<seq<byte>>, f: Fanout.Label<seq<byte>>, i: nat)
    ensures var s' := Fanout.Step(s, f);
            && s'.sent == (if f.Send? then s.sent + [f.data] else s.sent)
            && |s.streams| <= |s'.streams|
            && (f.Subscribe? ==> |s'.streams| == |s.streams| + 1 && s'.streams[|s.streams|].received == [])
            && (i < |s.streams| ==>
                s'.streams[i].received ==
                if f == Fanout.Receive(i) && s.streams[i].receiving && s.streams[i].queue != []
                then s.streams[i].received + [s.streams[i].queue[0]] else s.streams[i].received)
  {
    hide Fanout.Retained;
  }

  lemma EmitKeeps(y: System, capacity: nat)
    requires Inv(y, capacity) && Mux.Wf(y.mux) && y.outbox != []
    ensures Inv(Step(y, Emit, capacity), capacity)
  {
    hide Inbound.Run, Fanout.Run, Mux.Run, Fanout.Step, Emitted, FeedAll, FramesIn;
    var f := Fanout.Send(y.outbox[0]);
    FanSnoc(y.fanLog, f);
    FanEffect(y.fan, f, y.task);
    assert (y.fan.sent + [y.outbox[0]]) + y.outbox[1..] == y.fan.sent + y.outbox;
  }

  lemma FanKeeps(y: System, f: Fanout.Label<seq<byte>>, capacity: nat)
    requires Inv(y, capacity) && Mux.Wf(y.mux)
    ensures Inv(Step(y, Fan(f), capacity), capacity)
  {
    hide Inbound.Run, Fanout.Run, Mux.Run, Fanout.Step, Emitted, FeedAll, FramesIn;
    FanSnoc(y.fanLog, f);
    FanEffect(y.fan, f, y.task);
  }

  lemma NothingFed()
    ensures FeedAll([]) == Batch([], [], false) && FramesIn([]) == []
  {
  }

  lemma StartKeeps(y: System, depth: nat, capacity: nat)
    requires Inv(y, capacity) && Mux.Wf(y.mux)
    ensures Inv(Step(y, StartMux(depth), capacity), capacity)
  {
    hide Inbound.Run, Fanout.Run, Mux.Run, Fanout.Step, Emitted, FeedAll, FramesIn;
    FanSnoc(y.fanLog, Fanout.Subscribe(depth));
    FanEffect(y.fan, Fanout.Subscribe(depth), |y.fan.streams|);
    NothingFed();
  }

  lemma FeedOne(chunks: seq<seq<byte>>, chunk: seq<byte>)
    ensures FeedAll(chunks + [chunk]) == Feed(FeedAll(chunks), chunk)
  {
    hide Feed;
    assert (chunks + [chunk])[..|chunks|] == chunks;
  }

  lemma ReceiveKeeps(y: System, capacity: nat)
    requires Inv(y, capacity) && Mux.Wf(y.mux) && CanReceive(y)
    ensures Inv(Step(y, TaskReceives, capacity), capacity)
  {
    hide Inbound.Run, Fanout.Run, Mux.Run, Fanout.Step, Emitted, FeedAll, FramesIn, DecodeAll;
    var s := y.fan.streams[y.task];
    FanSnoc(y.fanLog, Fanout.Receive(y.task));
    FanEffect(y.fan, Fanout.Receive(y.task), y.task);
    FeedOne(s.received, s.queue[0]);
    assert FramesIn(y.muxLog) + [] == FramesIn(y.muxLog);
  }

  lemma MuxKeeps(y: System, m: Mux.Label, capacity: nat)
    requires Replays(y, capacity) && Joined(y) && Mux.Wf(y.mux)
    ensures Replays(MuxStep(y, m), capacity) && Joined(MuxStep(y, m))
  {
    hide Inbound.Run, Fanout.Run, Mux.Run, Mux.Step, Emitted;
    MuxRuns.RunSnoc(y.muxLog, m);
  }

  lemma DispatchKeeps(y: System, capacity: nat)
    requires Inv(y, capacity) && Mux.Wf(y.mux) && y.todo != [] && !y.done
    ensures Inv(Step(y, TaskDispatches, capacity), capacity)
  {
    hide Replays, Joined, Mux.Step, FeedAll, FramesIn;
    var m := Mux.Dispatch(y.todo[0]);
    SameParts(y, y.(todo := y.todo[1..]), capacity);
    MuxKeeps(y.(todo := y.todo[1..]), m, capacity);
    FramesGrow(y.muxLog, m);
    assert (FramesIn(y.muxLog) + [y.todo[0]]) + y.todo[1..] == FramesIn(y.muxLog) + y.todo;
  }

  lemma SameParts(y: System, y': System, capacity: nat)
    requires Replays(y, capacity) && Joined(y)
    requires y'.net == y.net && y'.base == y.base && y'.outbox == y.outbox && y'.fan == y.fan && y'.mux == y.mux
    requires y'.netLog == y.netLog && y'.fanLog == y.fanLog && y'.muxLog == y.muxLog
    ensures Replays(y', capacity) && Joined(y')
  {
    hide Inbound.Run, Fanout.Run, Mux.Run, Emitted;
  }

  lemma UseKeeps(y: System, m: Mux.Label, done: bool, capacity: nat)
    requires Inv(y, capacity) && Mux.Wf(y.mux) && y.started && !m.Dispatch?
    ensures Inv(MuxStep(y.(done := done), m), capacity)
  {
    hide Replays, Joined, Mux.Step, FeedAll, FramesIn;
    SameParts(y, y.(done := done), capacity);
    MuxKeeps(y.(done := done), m, capacity);
    FramesGrow(y.muxLog, m);
    assert FramesIn(y.muxLog) + [] == FramesIn(y.muxLog);
  }

  lemma StepKeeps(y: System, event: Label, capacity: nat)
    requires Inv(y, capacity) && Mux.Wf(y.mux)
    ensures Inv(Step(y, event, capacity), capacity)
  {
    hide Inv, MuxStep, Fanout.Step, Inbound.Step, DecodeAll, Emitted;
    match event
    case Net(n) => NetKeeps(y, n, capacity);
    case Emit => if y.outbox != [] { EmitKeeps(y, capacity); }
    case Fan(f) => FanKeeps(y, f, capacity);
    case StartMux(depth) => StartKeeps(y, depth, capacity);
    case TaskReceives => if CanReceive(y) { ReceiveKeeps(y, capacity); }
    case TaskDispatches => if y.todo != [] && !y.done { DispatchKeeps(y, capacity); }
    case TaskEnds => if CanEnd(y) { UseKeeps(y, Mux.Close(EndReason(y)), true, capacity); }
    case Use(m) =>
      if y.started && !m.Dispatch? {
        assert y.(done := y.done) == y;
        UseKeeps(y, m, y.done, capacity);
      }
  }

  lemma {:induction false} RunInv(labels: seq<Label>, capacity: nat)
    ensures Inv(Run(labels, capacity), capacity)
  {
    hide Step, Inv, Inbound.Run;
    if labels == [] {
      StartInv(capacity);
    } else {
      RunInv(labels[..|labels| - 1], capacity);
      StepKeeps(Run(labels[..|labels| - 1], capacity), labels[|labels| - 1], capacity);
    }
  }

  lemma StartInv(capacity: nat)
    ensures Inv(Fresh(Inbound.INITIAL, 0, []), capacity)
  {
  }

  // -------------------------------------------------------------------------
  // Main results
  // -------------------------------------------------------------------------

  /** What the agent logged since the receive task subscribed. */
  function AgentSince(y: System, capacity: nat): seq<byte> {
    AgentBytes(y.netLog, capacity, y.base + if y.task < |y.fan.streams| then y.fan.streams[y.task].start else 0)
  }

  /** The receive task is a subscriber as `EndToEnd` asks for, and the multiplexer has been given a prefix of
      what it decoded. */
  lemma {:induction false} PartsFit(labels: seq<Label>, capacity: nat)
    ensures var y := Run(labels, capacity);
            y.started ==>
              && y.task < |y.fan.streams| && y.fan == Fanout.Run(y.fanLog) && y.mux == Mux.Run(y.muxLog)
              && Subscribes(y.netLog, capacity, y.base, y.fanLog, y.task)
              && FramesIn(y.muxLog) <= FeedAll(y.fan.streams[y.task].received).frames
  {
    hide Run, Inbound.Run, Fanout.Run, Mux.Run, FeedAll, FramesIn, Chunks;
    RunInv(labels, capacity);
    var y := Run(labels, capacity);
    var r := y.net.reader;
    var accepted := if r.expected <= |r.handed| then r.handed[..r.expected] else r.handed;
    ChunksPrefix(accepted, r.handed);
    assert y.fan.sent <= Chunks(accepted)[y.base..];
  }

  lemma FramesSplit(before: seq<Mux.Label>, after: seq<Mux.Label>)
    ensures FramesIn(before + [Mux.Open] + after) == FramesIn(before) + FramesIn(after)
  {
    hide FramesIn;
    FramesGrow(before, Mux.Open);
    FramesAppend(before + [Mux.Open], after);
  }

  lemma {:induction false} FramesAppend(a: seq<Mux.Label>, b: seq<Mux.Label>)
    ensures FramesIn(a + b) == FramesIn(a) + FramesIn(b)
  {
    hide FramesIn;
    if b == [] {
      NothingFed();
      assert a + b == a;
    } else {
      var shorter, e := b[..|b| - 1], b[|b| - 1];
      FramesAppend(a, shorter);
      FramesGrow(a + shorter, e);
      FramesGrow(shorter, e);
      assert (a + shorter) + [e] == a + b && shorter + [e] == b;
    }
  }

  /** The whole way in, over every run: for a stream opened at any moment, the bytes that its reader has
      obtained are a prefix of those that the agent framed for its id after that moment. If it reports
      Clean, they are all of them exactly when the frames that were not dispatched to it carry none for
      it, as is the case when its FIN was and the agent sends nothing after a FIN. Among the first 2^31
      opens, for an agent that sends encoded frames, the last of them perhaps not complete yet. */
  lemma {:induction false} BytesArrive(
    labels: seq<Label>, capacity: nat, frames: seq<Frame>, before: seq<Mux.Label>, after: seq<Mux.Label>)
    requires var y := Run(labels, capacity);
             && y.started && y.muxLog == before + [Mux.Open] + after && y.mux.opens <= MuxRuns.MAX_OPENS
             && AgentSince(y, capacity) <= EncodeAll(frames)
    requires Sized(frames)
    requires !Mux.Run(before).closed && Mux.FrameRoom(Mux.Run(before))
    ensures var y, h := Run(labels, capacity), |Mux.Run(before).streams|;
            && h < |Mux.Run(before + [Mux.Open]).streams| && h < |y.mux.streams| && |FramesIn(before)| <= |frames|
            && var s, later := y.mux.streams[h], frames[|FramesIn(before)|..];
               var id, own := Mux.Run(before + [Mux.Open]).streams[h].id, FramesWhile(Mux.Run(before + [Mux.Open]), after, h);
               && s.read <= Concat(PayloadsFor(later, id))
               && (MuxRuns.Reported(s).Clean? ==>
                   && own <= later
                   && (s.read == Concat(PayloadsFor(later, id)) <==> Concat(PayloadsFor(later[|own|..], id)) == [])
                   && (Conforms(later, id) && Finishes(own, id) ==> s.read == Concat(PayloadsFor(later, id))))
  {
    hide Run, Inbound.Run, Fanout.Run, Mux.Run, FeedAll, FramesIn, FramesWhile, Concat, PayloadsFor, EncodeAll,
         AgentBytes, Subscribes, Conforms, Finishes, MuxRuns.Reported, Mux.FrameRoom;
    PartsFit(labels, capacity);
    var y := Run(labels, capacity);
    FramesSplit(before, after);
    AgentFramesArrive(y.netLog, capacity, y.base, y.fanLog, y.task, frames);
    StreamBytesAreTheAgents(y.netLog, capacity, y.base, y.fanLog, y.task, frames, before, after);
    var later := frames[|FramesIn(before)|..];
    assert FramesIn(after) <= later;
    CleanIsCompleteIff(before, after, later);
  }

  /** The end of the receive task is truthful: a stream that is registered then ends as Desynchronised if and
      only if the bytes that were received lose the framing or the subscription lagged, and as Clean
      otherwise. */
  lemma {:induction false} EndReasonTruthful(labels: seq<Label>, capacity: nat, h: nat)
    requires var y := Run(labels, capacity); CanEnd(y) && Registered(y.mux, h) && y.mux.opens <= MuxRuns.MAX_OPENS
    ensures var y, y' := Run(labels, capacity), Step(Run(labels, capacity), TaskEnds, capacity);
            var s := y.fan.streams[y.task];
            && h < |y'.mux.streams| && !Registered(y'.mux, h)
            && (y'.mux.streams[h].tag.Desynchronised? <==> LosesSync(Concat(s.received)) || s.lagged)
            && (y'.mux.streams[h].tag.Clean? <==> !LosesSync(Concat(s.received)) && !s.lagged)
  {
    hide Run, Inbound.Run, Fanout.Run, Mux.Run, Mux.Step, FeedAll, DecodeAll, FramesIn, Concat, LosesSync, Emitted,
         MuxRuns.IdInv, MuxRuns.SoloInv;
    RunInv(labels, capacity);
    var y := Run(labels, capacity);
    var received := y.fan.streams[y.task].received;
    IncrementalEqualsBatch(received);
    CorruptIff(Concat(received));
    MuxRuns.RunIds(y.muxLog);
    MuxRuns.RunSolo(y.muxLog);
    assert MuxRuns.SoloInv(MuxRuns.View(y.mux, h));
    MuxRuns.StepKeepsIdentity(y.mux, Mux.Close(EndReason(y)));
    StepTag(y.mux, Mux.Close(EndReason(y)), h);
  }
}
