/** The layers together: what the agent logs is what the multiplexer's streams get. Encryption off. */
module EndToEnd {
  import opened Bytes
  import opened Codec
  import opened Framing
  import Fanout
  import Inbound
  import Outbound
  import opened Mux
  import MuxRuns
  import opened Streams

  /** What `deliver` emits for one message: stream output that is not empty. */
  function Emits(m: ClientMessage): seq<seq<byte>> {
    if (m.payloadType.Output? || m.payloadType.StdErr? || m.payloadType.Undefined?) && m.payload != []
    then [m.payload] else []
  }

  /** Which messages reach the output: payload types 0, 1 and 11 with at least one byte, unchanged. */
  lemma OutputTypes(m: ClientMessage)
    ensures Emits(m) == if Code(m.payloadType) in {0, 1, 11} && |m.payload| > 0 then [m.payload] else []
  {
  }

  /** The chunks that a list of delivered messages puts on the session's output. */
  function Chunks(messages: seq<ClientMessage>): seq<seq<byte>> {
    if messages == [] then [] else Chunks(messages[..|messages| - 1]) + Emits(messages[|messages| - 1])
  }

  lemma {:induction false} ChunksPrefix(a: seq<ClientMessage>, b: seq<ClientMessage>)
    requires a <= b
    ensures Chunks(a) <= Chunks(b)
  {
    if a != b {
      assert a <= b[..|b| - 1];
      ChunksPrefix(a, b[..|b| - 1]);
    }
  }

  /** The receive task is subscriber `i` of the fan-out of one channel. A resumed channel has a fan-out of
      its own: `base` is how many chunks the channels before it had emitted. */
  ghost predicate Subscribes(
    inbound: seq<Inbound.Label>, capacity: nat, base: nat, outlet: seq<Fanout.Label<seq<byte>>>, i: nat)
  {
    var emitted := Chunks(Inbound.Run(inbound, capacity).reader.handed);
    && i < |Fanout.Run(outlet).streams|
    && base <= |emitted| && Fanout.Run(outlet).sent <= emitted[base..]
  }

  /** What the agent logged from chunk `at` on. */
  function AgentBytes(inbound: seq<Inbound.Label>, capacity: nat, at: nat): seq<byte> {
    var all := Chunks(Inbound.Run(inbound, capacity).sent);
    if at <= |all| then Concat(all[at..]) else []
  }

  /** The chunks a subscriber took out of its queue are a run of the agent's, from where it subscribed. */
  lemma {:induction false} ReceivedAreTheAgents(
    inbound: seq<Inbound.Label>, capacity: nat, base: nat, outlet: seq<Fanout.Label<seq<byte>>>, i: nat)
    requires Subscribes(inbound, capacity, base, outlet, i)
    ensures var all, s := Chunks(Inbound.Run(inbound, capacity).sent), Fanout.Run(outlet).streams[i];
            && base + s.start <= |all| && s.received <= all[base + s.start..]
            && (|Fanout.Run(outlet).sent| == s.start + |s.received| && base + |Fanout.Run(outlet).sent| == |all| ==>
                s.received == all[base + s.start..])
  {
    hide Inbound.Run, Fanout.Run, Chunks;
    Inbound.ExactlyOnceInOrder(inbound, capacity);
    var y, f := Inbound.Run(inbound, capacity), Fanout.Run(outlet);
    var all, emitted, s := Chunks(y.sent), Chunks(y.reader.handed), f.streams[i];
    ChunksPrefix(y.reader.handed, y.sent);
    Fanout.LosslessOrEvicted(outlet, i);
    var given := s.received + s.queue;
    assert forall k :: 0 <= k < |s.received| ==> s.received[k] == given[k] == f.sent[s.start + k] == all[base + s.start + k];
  }

  /** In every run of the inbound channel and of the fan-out behind it, the frames that the receive task
      has decoded are the first frames of the bytes that the agent logged from its subscription on; and
      if nothing is left to deliver or to receive, they are all of them. */
  lemma {:induction false} DecodedAreTheAgents(
    inbound: seq<Inbound.Label>, capacity: nat, base: nat, outlet: seq<Fanout.Label<seq<byte>>>, i: nat)
    requires Subscribes(inbound, capacity, base, outlet, i)
    ensures var s := Fanout.Run(outlet).streams[i];
            && Concat(s.received) <= AgentBytes(inbound, capacity, base + s.start)
            && FeedAll(s.received).frames <= DecodeAll(AgentBytes(inbound, capacity, base + s.start)).frames
            && (|Fanout.Run(outlet).sent| == s.start + |s.received|
                && base + |Fanout.Run(outlet).sent| == |Chunks(Inbound.Run(inbound, capacity).sent)| ==>
                FeedAll(s.received) == DecodeAll(AgentBytes(inbound, capacity, base + s.start)))
  {
    hide Inbound.Run, Fanout.Run, Chunks, DecodeAll, FeedAll, Concat;
    ReceivedAreTheAgents(inbound, capacity, base, outlet, i);
    var all, s := Chunks(Inbound.Run(inbound, capacity).sent), Fanout.Run(outlet).streams[i];
    IncrementalEqualsBatch(s.received);
    ConcatPrefix(s.received, all[base + s.start..]);
    FramesMonotone(Concat(s.received), Concat(all[base + s.start..]));
  }

  /** If the agent is sending the encoding of some frames - the last one it logged may still be
      incomplete - then what the client has decoded at any moment is a prefix of exactly those frames,
      and nothing is ever found corrupt. */
  lemma {:induction false} AgentFramesArrive(
    inbound: seq<Inbound.Label>, capacity: nat, base: nat, outlet: seq<Fanout.Label<seq<byte>>>, i: nat, frames: seq<Frame>)
    requires Subscribes(inbound, capacity, base, outlet, i) && Sized(frames)
    requires AgentBytes(inbound, capacity, base + Fanout.Run(outlet).streams[i].start) <= EncodeAll(frames)
    ensures var s := Fanout.Run(outlet).streams[i];
            FeedAll(s.received).frames <= frames && !FeedAll(s.received).corrupt
  {
    hide Inbound.Run, Fanout.Run, Chunks, DecodeAll, FeedAll, Concat, EncodeAll, AgentBytes;
    DecodedAreTheAgents(inbound, capacity, base, outlet, i);
    var s := Fanout.Run(outlet).streams[i];
    PrefixDecodes(Concat(s.received), frames);
    IncrementalEqualsBatch(s.received);
  }

  /** Any prefix of an encoding decodes to a prefix of its frames. */
  lemma PrefixDecodes(bytes: seq<byte>, frames: seq<Frame>)
    requires bytes <= EncodeAll(frames) && Sized(frames)
    ensures DecodeAll(bytes).frames <= frames && !DecodeAll(bytes).corrupt
  {
    hide DecodeAll, EncodeAll;
    EncodeDecode(frames);
    FramesMonotone(bytes, EncodeAll(frames));
    CorruptPrefix(bytes, EncodeAll(frames));
  }

  /** A corrupt prefix makes the whole stream corrupt. */
  lemma CorruptPrefix(a: seq<byte>, b: seq<byte>)
    requires a <= b
    ensures DecodeAll(a).corrupt ==> DecodeAll(b).corrupt
  {
    hide DecodeAll;
    DecodeAppend(a, b[|a|..]);
    assert a + b[|a|..] == b;
  }

  /** End to end: at any moment - other streams may have carried traffic before - open a stream, and go on
      dispatching the frames that the receive task decodes, with any other activity in between. Whatever
      the network did, the bytes that the stream's reader obtains are a prefix of the bytes that the agent
      framed for its id after the frames dispatched before the open. */
  lemma {:induction false} StreamBytesAreTheAgents(
    inbound: seq<Inbound.Label>, capacity: nat, base: nat, outlet: seq<Fanout.Label<seq<byte>>>, i: nat,
    frames: seq<Frame>, before: seq<Label>, after: seq<Label>)
    requires Subscribes(inbound, capacity, base, outlet, i) && Sized(frames)
    requires !Run(before).closed && FrameRoom(Run(before))
    requires Run(before + [Open] + after).opens <= MuxRuns.MAX_OPENS
    ensures var h := |Run(before).streams|;
            && h < |Run(before + [Open]).streams| && h < |Run(before + [Open] + after).streams|
            && (AgentBytes(inbound, capacity, base + Fanout.Run(outlet).streams[i].start) <= EncodeAll(frames)
                && FramesIn(before) + FramesIn(after) <= FeedAll(Fanout.Run(outlet).streams[i].received).frames ==>
                && |FramesIn(before)| <= |frames|
                && Run(before + [Open] + after).streams[h].read <=
                   Concat(PayloadsFor(frames[|FramesIn(before)|..], Run(before + [Open]).streams[h].id)))
  {
    hide Inbound.Run, Chunks, Fanout.Run, FeedAll, Concat, EncodeAll, AgentBytes, Run, FramesIn, PayloadsFor,
         MuxRuns.Payloads, MuxRuns.ProjectAll;
    MuxRuns.ReadIsPrefixOfOwnPayloads(before, after);
    var h := |Run(before).streams|;
    var m := Run(before + [Open]);
    var id := m.streams[h].id;
    OwnPayloads(m, after, h, id);
    if AgentBytes(inbound, capacity, base + Fanout.Run(outlet).streams[i].start) <= EncodeAll(frames)
       && FramesIn(before) + FramesIn(after) <= FeedAll(Fanout.Run(outlet).streams[i].received).frames {
      AgentFramesArrive(inbound, capacity, base, outlet, i, frames);
      assert FramesIn(before) + FramesIn(after) <= frames;
      assert FramesIn(after) <= frames[|FramesIn(before)|..];
      PayloadsPrefix(FramesIn(after), frames[|FramesIn(before)|..], id);
      ConcatPrefix(PayloadsFor(FramesIn(after), id), PayloadsFor(frames[|FramesIn(before)|..], id));
    }
  }

  // -------------------------------------------------------------------------
  // Outbound
  // -------------------------------------------------------------------------

  /** The send task passes each queued frame to `send`, encoded, in order. */
  function Encodings(frames: seq<Frame>): seq<seq<byte>> {
    if frames == [] then [] else [Encode(frames[0])] + Encodings(frames[1..])
  }

  lemma {:induction false} EncodingsConcat(frames: seq<Frame>)
    ensures Concat(Encodings(frames)) == EncodeAll(frames)
  {
    hide Encode;
    if frames != [] {
      EncodingsConcat(frames[1..]);
      assert Encodings(frames)[1..] == Encodings(frames[1..]);
    }
  }

  /** The way out: if the multiplexer's frames are what the session was given to send, then in every run
      of the sender, over a network that loses, duplicates and reorders, and with resumes that find
      nothing unsent, the agent decodes a prefix of exactly those frames; and for each stream, a prefix of
      the bytes that the writes to it took. */
  lemma {:induction false} EmittedFramesReachTheAgent(
    labels: seq<Outbound.Label>, c: Outbound.Config, mux: seq<Label>, h: nat)
    requires c.chunkSize >= 1 && !Outbound.EverResumesWithUnsent(labels, c)
    requires Outbound.Run(labels, c).sends <= Encodings(Run(mux).emitted)
    ensures var seen := DecodeAll(Outbound.OutputBytes(Outbound.Run(labels, c).agent.consumed));
            && seen.frames <= Run(mux).emitted && !seen.corrupt
            && (h < |Run(mux).streams| && Run(mux).opens <= MuxRuns.MAX_OPENS ==>
                Concat(PayloadsFor(seen.frames, Run(mux).streams[h].id)) <= Concat(WrittenBy(mux, h)))
  {
    hide Outbound.Run, Outbound.EverResumesWithUnsent, Outbound.OutputBytes, Run, Concat, DecodeAll, EncodeAll,
         Encodings, PayloadsFor, WrittenBy;
    var y, emitted := Outbound.Run(labels, c), Run(mux).emitted;
    Outbound.ConsumedIsPrefixOfSends(labels, c);
    ConcatPrefix(y.sends, Encodings(emitted));
    EncodingsConcat(emitted);
    MuxRuns.EmittedSendable(mux);
    PrefixDecodes(Outbound.OutputBytes(y.agent.consumed), emitted);
    var seen := DecodeAll(Outbound.OutputBytes(y.agent.consumed)).frames;
    if h < |Run(mux).streams| && Run(mux).opens <= MuxRuns.MAX_OPENS {
      var id := Run(mux).streams[h].id;
      EmittedAreTheWrites(mux, h);
      PayloadsPrefix(seen, emitted, id);
      ConcatPrefix(PayloadsFor(seen, id), PayloadsFor(emitted, id));
    }
  }

  /** The message that `send_payload` serializes for an outbound entry, dated and identified by `date`
      and `id`. */
  function MessageFor(sha: seq<byte> -> Digest, w: Outbound.Wire, date: u64, id: Uuid): ClientMessage
    requires w.sequence < 0x8000_0000_0000_0000
  {
    ClientMessage(
      InputStreamData, 1, date, w.sequence, 0, id, sha(w.payload), if w.kind.Output? then Output else Size, w.payload)
  }

  /** Every chunk that a run of the sender produces survives the wire: with a chunk size within the
      configured clamp, the agent's parser gets back the number and the bytes that were logged. */
  lemma {:induction false} ChunksSurviveTheWire(
    labels: seq<Outbound.Label>, c: Outbound.Config, s: nat, sha: seq<byte> -> Digest, date: u64, id: Uuid)
    requires 1 <= c.chunkSize <= MAX_PAYLOAD_SIZE
    requires s < |Outbound.Run(labels, c).log| && s < 0x8000_0000_0000_0000
    requires Outbound.Run(labels, c).log[s].kind.Output?
    ensures var w := Outbound.Run(labels, c).log[s];
            && w.sequence == s
            && var parsed := Parse(sha, Wire(MessageFor(sha, w, date, id)));
               parsed.Success? && parsed.value.sequenceNumber == s && parsed.value.payload == w.payload
  {
    hide Outbound.Run, Wire, Parse;
    Outbound.RunInv(labels, c);
    Outbound.ConsumedIsPrefix(labels, c);
    var w := Outbound.Run(labels, c).log[s];
    assert w.sequence == s by {
      assert Outbound.LogInv(Outbound.Run(labels, c));
    }
    RoundTrip(sha, MessageFor(sha, w, date, id));
  }
}
