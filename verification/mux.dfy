/** The smux stream table (src/mux.rs): routing, bounded queues, eviction, close reasons and reads.

Each method body is one step. Streams live in `streams`; the table maps an id to the stream that
is registered under it, so that removing an entry is dropping the queue's sender. */
module Mux {
  import opened Bytes
  import opened Framing

  const FRAME_QUEUE_DEPTH: nat := 256
  const STREAM_QUEUE_DEPTH: nat := 256
  const ID_MODULUS: nat := 0x1_0000_0000

  /** The close tag of a stream; `StillOpen` is the sentinel. */
  datatype Tag = StillOpen | Clean | SlowConsumer | Desynchronised

  /** One `SmuxStream` with its queue. The last four fields are history: which open made it, the PSH
      payloads dispatched to it while registered, whether one was dropped, and the bytes read. */
  datatype Stream = Stream(
    id: u32,
    queue: seq<seq<byte>>,
    tag: Tag,
    partial: seq<byte>,
    readClosed: bool,
    writeClosed: bool,
    receiving: bool,
    born: nat,
    dispatched: seq<seq<byte>>,
    dropped: bool,
    read: seq<byte>)

  function Fresh(id: u32, born: nat): Stream {
    Stream(id, [], StillOpen, [], false, false, true, born, [], false, [])
  }

  /** `compare_exchange(REASON_OPEN, reason)`. */
  function Closing(s: Stream, reason: Tag): Stream {
    if s.tag.StillOpen? then s.(tag := reason) else s
  }

  datatype State = State(
    table: map<u32, nat>,
    streams: seq<Stream>,
    nextId: u32,
    closed: bool,
    frames: seq<Frame>,
    framesClosed: bool,
    opens: nat,
    emitted: seq<Frame>)

  ghost predicate Wf(m: State) {
    forall id :: id in m.table ==> m.table[id] < |m.streams| && m.streams[m.table[id]].id == id
  }

  const INITIAL := State(map[], [], 1, false, [], false, 0, [])

  predicate Attached(m: State, h: nat)
    requires h < |m.streams|
  {
    m.streams[h].id in m.table && m.table[m.streams[h].id] == h
  }

  // -------------------------------------------------------------------------
  // Steps
  // -------------------------------------------------------------------------

  predicate FrameRoom(m: State) { !m.framesClosed && |m.frames| < FRAME_QUEUE_DEPTH }

  /** `frames.try_send`, ignoring failure. */
  function Offered(m: State, f: Frame): State {
    if FrameRoom(m) then m.(frames := m.frames + [f], emitted := m.emitted + [f]) else m
  }

  function Opened(m: State): (m': State)
    requires Wf(m)
    ensures Wf(m')
  {
    if m.closed then m
    else
      var m' := m.(nextId := (m.nextId + 2) % ID_MODULUS, opens := m.opens + 1);
      if FrameRoom(m) then
        Offered(m'.(streams := m.streams + [Fresh(m.nextId, m.opens)], table := m.table[m.nextId := |m.streams|]),
                Frame(CMD_SYN, m.nextId, []))
      else m'.(table := m.table - {m.nextId})
  }

  function Pushed(m: State, id: u32, payload: seq<byte>): (m': State)
    requires Wf(m)
    ensures Wf(m')
  {
    if id !in m.table then Offered(m, Frame(CMD_FIN, id, []))
    else
      var h := m.table[id];
      var s := m.streams[h];
      if !s.receiving then m.(table := m.table - {id})
      else if |s.queue| >= STREAM_QUEUE_DEPTH then
        Offered(m.(table := m.table - {id},
                   streams := m.streams[h := s.(tag := SlowConsumer, dispatched := s.dispatched + [payload], dropped := true)]),
                Frame(CMD_FIN, id, []))
      else m.(streams := m.streams[h := s.(queue := s.queue + [payload], dispatched := s.dispatched + [payload])])
  }

  function Finished(m: State, id: u32): (m': State)
    requires Wf(m)
    ensures Wf(m')
  {
    if id !in m.table then m
    else
      var h := m.table[id];
      m.(table := m.table - {id}, streams := m.streams[h := Closing(m.streams[h], Clean)])
  }

  /** `dispatch` of one frame: SYN, NOP and unknown commands are ignored. */
  function Dispatched(m: State, f: Frame): (m': State)
    requires Wf(m)
    ensures Wf(m')
  {
    if f.cmd == CMD_PSH then Pushed(m, f.streamId, f.payload)
    else if f.cmd == CMD_FIN then Finished(m, f.streamId)
    else m
  }

  function Closed(m: State, reason: Tag): (m': State)
    requires Wf(m)
    ensures Wf(m')
  {
    if m.closed then m
    else
      m.(closed := true, table := map[], streams := SettledExcept(m, {}, reason))
  }

  /** The streams once every registered one, except those with an id in `ids`, has its reason. */
  function SettledExcept(m: State, ids: set<u32>, reason: Tag): (streams: seq<Stream>)
    ensures |streams| == |m.streams|
    ensures forall h :: 0 <= h < |streams| ==>
              streams[h] == if Attached(m, h) && m.streams[h].id !in ids then Closing(m.streams[h], reason) else m.streams[h]
  {
    seq(|m.streams|, h requires 0 <= h < |m.streams| =>
          if Attached(m, h) && m.streams[h].id !in ids then Closing(m.streams[h], reason) else m.streams[h])
  }

  lemma PutThenRemove(table: map<u32, nat>, id: u32, h: nat)
    ensures table[id := h] - {id} == table - {id}
  {
  }

  lemma NoneSettled(m: State, reason: Tag)
    ensures SettledExcept(m, m.table.Keys, reason) == m.streams
  {
  }

  lemma Registered(m: State, id: u32)
    requires Wf(m) && id in m.table
    ensures m.table[id] < |m.streams|
  {
  }

  lemma SettleOne(m: State, ids: set<u32>, id: u32, reason: Tag)
    requires Wf(m) && id in ids && id in m.table
    ensures var h, now := m.table[id], SettledExcept(m, ids, reason);
            SettledExcept(m, ids - {id}, reason) == now[h := Closing(now[h], reason)]
  {
    var h, now := m.table[id], SettledExcept(m, ids, reason);
    forall i | 0 <= i < |now| && i != h ensures SettledExcept(m, ids - {id}, reason)[i] == now[i] {
      assert Attached(m, i) ==> m.streams[i].id != id;
    }
  }

  /** `poll_read` into a buffer of `n` bytes, for a stream whose sender is still registered or not. */
  function ReadOnce(s: Stream, attached: bool, closed: bool, n: nat): Stream {
    if s.readClosed then s
    else if s.partial != [] then
      var k := if |s.partial| < n then |s.partial| else n;
      s.(partial := s.partial[k..], read := s.read + s.partial[..k])
    else if s.queue != [] then
      var chunk := s.queue[0];
      var k := if |chunk| < n then |chunk| else n;
      s.(queue := s.queue[1..], partial := chunk[k..], read := s.read + chunk[..k])
    else if !attached || closed then s.(readClosed := true)
    else s
  }

  /** `poll_read` of stream `h`. */
  function ReadFrom(m: State, h: nat, n: nat): (m': State)
    requires Wf(m) && h < |m.streams|
    ensures Wf(m')
  {
    m.(streams := m.streams[h := ReadOnce(m.streams[h], Attached(m, h), m.closed, n)])
  }

  function Written(m: State, h: nat, data: seq<byte>): (m': State)
    requires Wf(m) && h < |m.streams|
    ensures Wf(m')
  {
    var n := if |data| < MAX_FRAME_PAYLOAD then |data| else MAX_FRAME_PAYLOAD;
    if m.streams[h].writeClosed || m.closed || !FrameRoom(m) then m
    else Offered(m, Frame(CMD_PSH, m.streams[h].id, data[..n]))
  }

  function ShutDown(m: State, h: nat): (m': State)
    requires Wf(m) && h < |m.streams|
    ensures Wf(m')
  {
    var m' := m.(streams := m.streams[h := m.streams[h].(writeClosed := true)]);
    if m.streams[h].writeClosed then m
    else if m.framesClosed then m'
    else if FrameRoom(m) then Offered(m', Frame(CMD_FIN, m.streams[h].id, []))
    else m
  }

  function Dropped(m: State, h: nat): (m': State)
    requires Wf(m) && h < |m.streams|
    ensures Wf(m')
  {
    var s := m.streams[h];
    var m' := if s.writeClosed then m else Offered(m, Frame(CMD_FIN, s.id, []));
    m'.(table := m.table - {s.id}, streams := m.streams[h := s.(receiving := false)])
  }

  datatype Label =
    | Open
    | Dispatch(f: Frame)
    | Read(h: nat, n: nat)
    | Write(h: nat, data: seq<byte>)
    | Shutdown(h: nat)
    | DropStream(h: nat)
    | Close(reason: Tag)
    | SendFrame
    | StopSending
    | KeepAlive

  /** The reasons for which a session as a whole closes; `SlowConsumer` is for single streams. */
  predicate Ends(reason: Tag) { reason.Clean? || reason.Desynchronised? }

  /** A handle that exists and has not been dropped. */
  predicate Live(m: State, h: nat) { h < |m.streams| && m.streams[h].receiving }

  function Step(m: State, event: Label): (m': State)
    requires Wf(m)
    ensures Wf(m')
  {
    match event
    case Open => Opened(m)
    case Dispatch(f) => Dispatched(m, f)
    case Read(h, n) => if Live(m, h) then ReadFrom(m, h, n) else m
    case Write(h, data) => if Live(m, h) then Written(m, h, data) else m
    case Shutdown(h) => if Live(m, h) then ShutDown(m, h) else m
    case DropStream(h) => if Live(m, h) then Dropped(m, h) else m
    case Close(reason) => if Ends(reason) then Closed(m, reason) else m
    case SendFrame => if m.frames == [] then m else m.(frames := m.frames[1..])
    case StopSending => m.(framesClosed := true, frames := [])
    case KeepAlive => Offered(m, Frame(CMD_NOP, 0, []))
  }

  function Run(labels: seq<Label>): (m: State)
    ensures Wf(m)
  {
    if labels == [] then INITIAL else Step(Run(labels[..|labels| - 1]), labels[|labels| - 1])
  }

  // -------------------------------------------------------------------------
  // The methods
  // -------------------------------------------------------------------------

  /** The shared state of a multiplexer session (`Inner`) with the streams it handed out. */
  class SmuxSession {
    var table: map<u32, nat>
    var streams: seq<Stream>
    var nextId: u32
    var closed: bool
    var frames: seq<Frame>
    var framesClosed: bool
    var opens: nat
    var emitted: seq<Frame>

    function View(): State reads this {
      State(table, streams, nextId, closed, frames, framesClosed, opens, emitted)
    }

    ghost predicate Valid() reads this { Wf(View()) }

    constructor ()
      ensures View() == INITIAL && Valid()
    {
      table, streams, nextId, closed := map[], [], 1, false;
      frames, framesClosed, opens, emitted := [], false, 0, [];
    }

    method TrySend(f: Frame) returns (ok: bool)
      modifies this`frames, this`emitted
      ensures ok == FrameRoom(old(View())) && View() == Offered(old(View()), f)
    {
      if framesClosed || |frames| >= FRAME_QUEUE_DEPTH {
        return false;
      }
      frames, emitted := frames + [f], emitted + [f];
      return true;
    }

    method OpenStream() returns (h: int)
      requires Valid()
      modifies this
      ensures Valid() && View() == Opened(old(View()))
      ensures (h >= 0) == (!old(closed) && FrameRoom(old(View())))
      ensures h >= 0 ==> h < |streams| && Attached(View(), h) && streams[h].id == old(nextId)
    {
      hide Wf;
      if closed {
        return -1;
      }
      var id := nextId;
      nextId := (nextId + 2) % ID_MODULUS;
      opens := opens + 1;
      table := table[id := |streams|];
      var ok := TrySend(Frame(CMD_SYN, id, []));
      if !ok {
        PutThenRemove(old(table), id, |streams|);
        table := table - {id};
        assert View() == Opened(old(View()));
        return -1;
      }
      streams := streams + [Fresh(id, opens - 1)];
      assert View() == Opened(old(View()));
      return |streams| - 1;
    }

    method RoutePush(id: u32, payload: seq<byte>)
      requires Valid()
      modifies this
      ensures Valid() && View() == Pushed(old(View()), id, payload)
    {
      if id !in table {
        var _ := TrySend(Frame(CMD_FIN, id, []));
        return;
      }
      var h := table[id];
      var s := streams[h];
      if !s.receiving {
        table := table - {id};
      } else if |s.queue| >= STREAM_QUEUE_DEPTH {
        streams := streams[h := s.(tag := SlowConsumer, dispatched := s.dispatched + [payload], dropped := true)];
        table := table - {id};
        var _ := TrySend(Frame(CMD_FIN, id, []));
      } else {
        streams := streams[h := s.(queue := s.queue + [payload], dispatched := s.dispatched + [payload])];
      }
    }

    method RouteFin(id: u32)
      requires Valid()
      modifies this
      ensures Valid() && View() == Finished(old(View()), id)
    {
      if id in table {
        var h := table[id];
        table := table - {id};
        streams := streams[h := Closing(streams[h], Clean)];
      }
    }

    /** `Inner::close`: a loop over the registered entries. */
    method CloseAll(reason: Tag)
      requires Valid()
      modifies this
      ensures Valid() && View() == Closed(old(View()), reason)
    {
      hide SettledExcept, Closing, Wf;
      if closed {
        return;
      }
      closed := true;
      var ids := table.Keys;
      NoneSettled(old(View()), reason);
      while ids != {}
        invariant ids <= table.Keys
        invariant View() == old(View()).(closed := true, streams := SettledExcept(old(View()), ids, reason))
        decreases |ids|
      {
        var id :| id in ids;
        Registered(old(View()), id);
        var h := table[id];
        SettleOne(old(View()), ids, id, reason);
        streams := streams[h := Closing(streams[h], reason)];
        ids := ids - {id};
      }
      table := map[];
      assert View() == Closed(old(View()), reason);
    }

    method PollRead(h: nat, n: nat) returns (bytes: seq<byte>)
      requires Valid() && Live(View(), h)
      modifies this`streams
      ensures Valid() && View() == ReadFrom(old(View()), h, n)
      ensures streams[h].read == old(streams)[h].read + bytes && |bytes| <= n
    {
      hide ReadOnce;
      var s := streams[h];
      var attached := s.id in table && table[s.id] == h;
      s, bytes := PollStream(s, attached, closed, n);
      streams := streams[h := s];
      assert View() == ReadFrom(old(View()), h, n);
    }

    /** `poll_write`: the number of bytes taken, or -1 when it fails or has to wait. */
    method PollWrite(h: nat, data: seq<byte>) returns (taken: int)
      requires Valid() && Live(View(), h)
      modifies this`frames, this`emitted
      ensures Valid() && View() == Written(old(View()), h, data)
      ensures taken >= 0 ==> taken <= |data| && emitted == old(emitted) + [Frame(CMD_PSH, streams[h].id, data[..taken])]
      ensures taken < 0 ==> emitted == old(emitted)
    {
      if streams[h].writeClosed || closed || framesClosed || |frames| >= FRAME_QUEUE_DEPTH {
        return -1;
      }
      var n := if |data| < MAX_FRAME_PAYLOAD then |data| else MAX_FRAME_PAYLOAD;
      var _ := TrySend(Frame(CMD_PSH, streams[h].id, data[..n]));
      return n;
    }

    /** `dispatch`: drain complete frames from the reassembly buffer and route each. */
    method DispatchBuffer(buf: Reassembly) returns (ok: bool)
      requires Valid()
      modifies this, buf
      ensures Valid()
      ensures var batch := DecodeAll(old(buf.bytes));
              ok == !batch.corrupt && buf.bytes == batch.rest && View() == DispatchedAll(old(View()), batch.frames)
    {
      hide Front, Dispatched, Beyond;
      ghost var done: seq<Frame> := [];
      while true
        invariant Valid()
        invariant DecodeAll(old(buf.bytes)) == DecodeAll(buf.bytes).(frames := done + DecodeAll(buf.bytes).frames)
        invariant View() == DispatchedAll(old(View()), done)
        decreases |buf.bytes|
      {
        ghost var bytes, before := buf.bytes, View();
        var d := buf.DecodeFrame();
        match d
        case Incomplete =>
          assert done + [] == done;
          return true;
        case Corrupt =>
          assert done + [] == done;
          buf.bytes := [];
          return false;
        case Whole(f) =>
          BeyondShrinks(bytes);
          Route(f);
          DispatchedSnoc(old(View()), done, f);
          ghost var rest := DecodeAll(buf.bytes).frames;
          assert done + ([f] + rest) == (done + [f]) + rest;
          done := done + [f];
      }
    }

    method Route(f: Frame)
      requires Valid()
      modifies this
      ensures Valid() && View() == Dispatched(old(View()), f)
    {
      if f.cmd == CMD_PSH {
        RoutePush(f.streamId, f.payload);
      } else if f.cmd == CMD_FIN {
        RouteFin(f.streamId);
      }
    }
  }

  /** The body of `poll_read`: finish the previous frame, else take the next one, else end of file
      once the sender is gone or the session is closed, else wait. */
  method PollStream(s: Stream, attached: bool, closed: bool, n: nat) returns (s': Stream, bytes: seq<byte>)
    ensures s' == ReadOnce(s, attached, closed, n)
    ensures s'.read == s.read + bytes && |bytes| <= n
    ensures s'.readClosed && !s.readClosed ==> bytes == [] && s.queue == [] && s.partial == []
  {
    if s.readClosed {
      return s, [];
    }
    if s.partial != [] {
      var k := if |s.partial| < n then |s.partial| else n;
      bytes := s.partial[..k];
      return s.(partial := s.partial[k..], read := s.read + bytes), bytes;
    }
    if s.queue != [] {
      var chunk := s.queue[0];
      var k := if |chunk| < n then |chunk| else n;
      bytes := chunk[..k];
      return s.(queue := s.queue[1..], partial := chunk[k..], read := s.read + bytes), bytes;
    }
    if !attached || closed {
      return s.(readClosed := true), [];
    }
    return s, [];
  }

  lemma BeyondShrinks(buf: seq<byte>)
    requires Front(buf).Whole?
    ensures |Beyond(buf)| < |buf|
  {
  }

  function DispatchedAll(m: State, frames: seq<Frame>): (m': State)
    requires Wf(m)
    ensures Wf(m')
  {
    if frames == [] then m
    else Dispatched(DispatchedAll(m, frames[..|frames| - 1]), frames[|frames| - 1])
  }

  lemma DispatchedSnoc(m: State, frames: seq<Frame>, f: Frame)
    requires Wf(m)
    ensures DispatchedAll(m, frames + [f]) == Dispatched(DispatchedAll(m, frames), f)
  {
    assert (frames + [f])[..|frames|] == frames;
  }
}
