/** Whole runs of the multiplexer: each stream sees its own bytes and nothing else, and close
reasons are truthful. */
module MuxRuns {
  import opened Bytes
  import opened Framing
  import opened Mux

  // -------------------------------------------------------------------------
  // One stream on its own
  // -------------------------------------------------------------------------

  /** A stream, whether its sender is registered, and whether the session is closed. */
  datatype Solo = Solo(stream: Stream, attached: bool, closed: bool)

  /** What can happen to one stream. `FinishWriting` is its own `poll_shutdown`. */
  datatype Event =
    | Push(payload: seq<byte>)
    | Fin
    | CloseSession(reason: Tag)
    | ReadUpTo(n: nat)
    | FinishWriting
    | Drop

  function SoloStep(o: Solo, e: Event): Solo {
    var s := o.stream;
    match e
    case Push(payload) =>
      if !o.attached then o
      else if !s.receiving then o.(attached := false)
      else if |s.queue| >= STREAM_QUEUE_DEPTH then
        o.(attached := false, stream := s.(tag := SlowConsumer, dispatched := s.dispatched + [payload], dropped := true))
      else o.(stream := s.(queue := s.queue + [payload], dispatched := s.dispatched + [payload]))
    case Fin =>
      if o.attached then o.(attached := false, stream := Closing(s, Clean)) else o
    case CloseSession(reason) =>
      if o.closed then o
      else Solo(if o.attached then Closing(s, reason) else s, false, true)
    case ReadUpTo(n) =>
      if s.receiving then o.(stream := ReadOnce(s, o.attached, o.closed, n)) else o
    case FinishWriting =>
      if s.receiving then o.(stream := s.(writeClosed := true)) else o
    case Drop =>
      if s.receiving then o.(attached := false, stream := s.(receiving := false)) else o
  }

  function SoloRun(o: Solo, events: seq<Event>): Solo {
    if events == [] then o else SoloStep(SoloRun(o, events[..|events| - 1]), events[|events| - 1])
  }

  // -------------------------------------------------------------------------
  // What holds of one stream
  // -------------------------------------------------------------------------

  /** The dispatched payloads that were not dropped. */
  function Kept(s: Stream): seq<seq<byte>> {
    if s.dropped && s.dispatched != [] then s.dispatched[..|s.dispatched| - 1] else s.dispatched
  }

  ghost predicate Accounted(s: Stream) {
    s.read + s.partial + Concat(s.queue) == Concat(Kept(s))
  }

  ghost predicate SoloInv(o: Solo) {
    var s := o.stream;
    && Accounted(s)
    && (s.dropped ==> s.dispatched != [])
    && |s.queue| <= STREAM_QUEUE_DEPTH
    && (s.dropped <==> s.tag.SlowConsumer?)
    && (o.attached ==> s.tag.StillOpen? && s.receiving && !o.closed && !s.readClosed)
    && (s.readClosed ==> s.queue == [] && s.partial == [])
  }

  lemma PushAccounted(s: Stream, payload: seq<byte>)
    requires Accounted(s) && !s.dropped
    ensures Accounted(s.(queue := s.queue + [payload], dispatched := s.dispatched + [payload]))
    ensures Accounted(s.(dispatched := s.dispatched + [payload], dropped := true))
  {
    ConcatOne(s.queue, payload);
    ConcatOne(s.dispatched, payload);
    hide Concat;
    assert (s.read + s.partial + Concat(s.queue)) + payload == s.read + s.partial + (Concat(s.queue) + payload);
    assert (s.dispatched + [payload])[..|s.dispatched|] == s.dispatched;
  }

  /** Moving the first `k` bytes of a chunk from the unread side to the read side. */
  lemma SplitRead(read: seq<byte>, chunk: seq<byte>, rest: seq<byte>, k: nat)
    requires k <= |chunk|
    ensures read + chunk[..k] + chunk[k..] + rest == read + chunk + rest
    ensures read + chunk[..k] + chunk[k..] + rest == read + [] + (chunk + rest)
  {
  }

  lemma ReadAccounted(s: Stream, attached: bool, closed: bool, n: nat)
    requires Accounted(s)
    ensures Accounted(ReadOnce(s, attached, closed, n))
  {
    hide Concat;
    if !s.readClosed && s.partial != [] {
      SplitRead(s.read, s.partial, Concat(s.queue), if |s.partial| < n then |s.partial| else n);
    } else if !s.readClosed && s.queue != [] {
      var chunk := s.queue[0];
      ConcatHead(s.queue);
      SplitRead(s.read, chunk, Concat(s.queue[1..]), if |chunk| < n then |chunk| else n);
    }
  }

  lemma ConcatHead(parts: seq<seq<byte>>)
    requires parts != []
    ensures Concat(parts) == parts[0] + Concat(parts[1..])
  {
  }

  lemma SoloKeeps(o: Solo, e: Event)
    requires SoloInv(o) && (e.CloseSession? ==> Ends(e.reason))
    ensures SoloInv(SoloStep(o, e))
  {
    hide Concat;
    match e
    case Push(payload) =>
      if o.attached {
        PushAccounted(o.stream, payload);
      }
    case ReadUpTo(n) => ReadAccounted(o.stream, o.attached, o.closed, n);
    case _ =>
  }

  /** Once a reason is recorded, nothing changes it. */
  lemma SoloReasonFinal(o: Solo, e: Event)
    requires SoloInv(o) && !o.stream.tag.StillOpen?
    ensures SoloStep(o, e).stream.tag == o.stream.tag
  {
  }

  /** The payloads pushed at the stream. */
  function Payloads(events: seq<Event>): seq<seq<byte>> {
    if events == [] then []
    else
      var e := events[|events| - 1];
      Payloads(events[..|events| - 1]) + if e.Push? then [e.payload] else []
  }

  /** While registered, a stream has been dispatched every payload pushed at it; afterwards, a prefix. */
  lemma {:induction false} SoloDispatchedPrefix(o: Solo, events: seq<Event>)
    requires o.stream.dispatched == []
    ensures var o' := SoloRun(o, events);
            && o'.stream.dispatched <= Payloads(events)
            && (o'.attached ==> o'.stream.dispatched == Payloads(events))
            && (o'.attached ==> o.attached)
  {
    hide SoloStep;
    if events != [] {
      SoloDispatchedPrefix(o, events[..|events| - 1]);
      SoloDispatches(SoloRun(o, events[..|events| - 1]), events[|events| - 1]);
    }
  }

  lemma SoloDispatches(o: Solo, e: Event)
    ensures var o' := SoloStep(o, e);
            && (o'.attached ==> o.attached)
            && (o'.stream.dispatched == o.stream.dispatched ||
                (o.attached && e.Push? && o'.stream.dispatched == o.stream.dispatched + [e.payload]))
            && (o'.attached && e.Push? ==> o'.stream.dispatched == o.stream.dispatched + [e.payload])
            && (!e.Push? ==> o'.stream.dispatched == o.stream.dispatched)
  {
  }

  // -------------------------------------------------------------------------
  // Stream ids
  // -------------------------------------------------------------------------

  /** The id of the k-th open. */
  function IdOf(k: nat): u32 { (1 + 2 * k) % ID_MODULUS }

  const MAX_OPENS: nat := 0x8000_0000

  /** Client ids are odd; two of them collide exactly when their opens are a multiple of 2^31 apart. */
  lemma IdsOddAndDistinct(j: nat, k: nat)
    requires j <= k
    ensures IdOf(j) % 2 == 1
    ensures IdOf(j) == IdOf(k) <==> (k - j) % MAX_OPENS == 0
  {
    IdByRemainder(j);
    IdByRemainder(k);
    hide IdOf;
    assert j == j / MAX_OPENS * MAX_OPENS + j % MAX_OPENS;
    assert k == k / MAX_OPENS * MAX_OPENS + k % MAX_OPENS;
  }

  lemma IdByRemainder(k: nat)
    ensures IdOf(k) == 1 + 2 * (k % MAX_OPENS)
  {
    assert 1 + 2 * k == ID_MODULUS * (k / MAX_OPENS) + (1 + 2 * (k % MAX_OPENS));
  }

  // -------------------------------------------------------------------------
  // The invariant of the table
  // -------------------------------------------------------------------------

  ghost predicate IdInv(m: State) {
    && m.nextId == IdOf(m.opens)
    && (forall h :: 0 <= h < |m.streams| ==> m.streams[h].born < m.opens && m.streams[h].id == IdOf(m.streams[h].born))
    && (forall h, k :: 0 <= h < k < |m.streams| ==> m.streams[h].born < m.streams[k].born)
  }

  lemma OpenIds(m: State)
    requires Wf(m) && IdInv(m)
    ensures IdInv(Opened(m)) && m.opens <= Opened(m).opens && |m.streams| <= |Opened(m).streams|
  {
    NextId(m.opens);
    hide IdOf;
  }

  lemma NextId(k: nat)
    ensures (IdOf(k) + 2) % ID_MODULUS == IdOf(k + 1)
  {
    IdByRemainder(k);
    IdByRemainder(k + 1);
    hide IdOf;
  }

  lemma StepIds(m: State, e: Label)
    requires Wf(m) && IdInv(m)
    ensures IdInv(Step(m, e)) && m.opens <= Step(m, e).opens && |m.streams| <= |Step(m, e).streams|
  {
    if e.Open? {
      OpenIds(m);
    } else {
      StepKeepsIdentity(m, e);
      hide Step, IdOf;
    }
  }

  ghost predicate SameIdentity(m: State, m': State) {
    && |m'.streams| == |m.streams| && m'.opens == m.opens && m'.nextId == m.nextId
    && forall h :: 0 <= h < |m.streams| ==> m'.streams[h].born == m.streams[h].born && m'.streams[h].id == m.streams[h].id
  }

  lemma DispatchKeepsIdentity(m: State, f: Frame)
    requires Wf(m)
    ensures SameIdentity(m, Dispatched(m, f))
  {
  }

  lemma CloseKeepsIdentity(m: State, reason: Tag)
    requires Wf(m)
    ensures SameIdentity(m, Closed(m, reason))
  {
  }

  lemma HandleKeepsIdentity(m: State, h: nat, n: nat)
    requires Wf(m) && h < |m.streams|
    ensures SameIdentity(m, ReadFrom(m, h, n)) && SameIdentity(m, ShutDown(m, h)) && SameIdentity(m, Dropped(m, h))
  {
    ReadKeepsIdentity(m.streams[h], Attached(m, h), m.closed, n);
    hide ReadOnce;
  }

  lemma ReadKeepsIdentity(s: Stream, attached: bool, closed: bool, n: nat)
    ensures var s' := ReadOnce(s, attached, closed, n); s'.born == s.born && s'.id == s.id
  {
  }

  lemma StepKeepsIdentity(m: State, e: Label)
    requires Wf(m) && !e.Open?
    ensures SameIdentity(m, Step(m, e))
  {
    hide Dispatched, Closed, ReadFrom, ShutDown, Dropped;
    match e
    case Dispatch(f) => DispatchKeepsIdentity(m, f);
    case Close(reason) => CloseKeepsIdentity(m, reason);
    case Read(h, n) => if h < |m.streams| { HandleKeepsIdentity(m, h, n); }
    case Shutdown(h) => if h < |m.streams| { HandleKeepsIdentity(m, h, 0); }
    case DropStream(h) => if h < |m.streams| { HandleKeepsIdentity(m, h, 0); }
    case _ =>
  }

  /** With fewer than 2^31 opens, no two streams share an id, and the next open reuses none. */
  lemma DistinctIds(m: State, h: nat, k: nat)
    requires IdInv(m) && m.opens <= MAX_OPENS && h < |m.streams|
    ensures k < |m.streams| && k != h ==> m.streams[k].id != m.streams[h].id
    ensures m.opens < MAX_OPENS ==> m.nextId != m.streams[h].id
  {
    IdByRemainder(m.streams[h].born);
    IdByRemainder(m.opens);
    if k < |m.streams| && k != h {
      IdByRemainder(m.streams[k].born);
    }
  }

  lemma BornApart(m: State, h: nat, k: nat)
    requires IdInv(m) && h < k < |m.streams|
    ensures m.streams[h].id % 2 == 1
    ensures m.streams[h].id == m.streams[k].id <==> (m.streams[k].born - m.streams[h].born) % MAX_OPENS == 0
    ensures m.opens <= MAX_OPENS ==> m.streams[h].id != m.streams[k].id
  {
    IdsOddAndDistinct(m.streams[h].born, m.streams[k].born);
    hide IdOf;
    if m.opens <= MAX_OPENS {
      DistinctIds(m, h, k);
    }
  }

  // -------------------------------------------------------------------------
  // Projection
  // -------------------------------------------------------------------------

  function View(m: State, h: nat): Solo
    requires h < |m.streams|
  {
    Solo(m.streams[h], Attached(m, h), m.closed)
  }

  /** What a step of the whole multiplexer is for stream `h` with this id: at most one event. A
      `poll_shutdown` that has to wait changes nothing, so it depends on the shared frame queue. */
  function Project(m: State, e: Label, h: nat, id: u32): seq<Event> {
    match e
    case Dispatch(f) =>
      if f.streamId != id then []
      else if f.cmd == CMD_PSH then [Push(f.payload)]
      else if f.cmd == CMD_FIN then [Fin]
      else []
    case Read(k, n) => if k == h then [ReadUpTo(n)] else []
    case Shutdown(k) => if k == h && (m.framesClosed || FrameRoom(m)) then [FinishWriting] else []
    case DropStream(k) => if k == h then [Drop] else []
    case Close(reason) => if Ends(reason) then [CloseSession(reason)] else []
    case _ => []
  }

  /** Only the stream registered under the id is touched, and that is `h` or has another id. */
  lemma OwnerOf(m: State, id: u32, h: nat)
    requires Wf(m) && IdInv(m) && m.opens <= MAX_OPENS && h < |m.streams|
    ensures id in m.table && id == m.streams[h].id ==> m.table[id] == h && Attached(m, h)
    ensures id in m.table && id != m.streams[h].id ==> m.table[id] != h
    ensures id !in m.table && id == m.streams[h].id ==> !Attached(m, h)
  {
    if id in m.table {
      DistinctIds(m, h, m.table[id]);
    }
    hide IdInv;
  }

  lemma PushProjects(m: State, id: u32, payload: seq<byte>, h: nat)
    requires Wf(m) && IdInv(m) && m.opens <= MAX_OPENS && h < |m.streams|
    ensures |Pushed(m, id, payload).streams| == |m.streams|
    ensures View(Pushed(m, id, payload), h) ==
            if id == m.streams[h].id then SoloStep(View(m, h), Push(payload)) else View(m, h)
  {
    OwnerOf(m, id, h);
    hide IdInv;
  }

  lemma FinProjects(m: State, id: u32, h: nat)
    requires Wf(m) && IdInv(m) && m.opens <= MAX_OPENS && h < |m.streams|
    ensures |Finished(m, id).streams| == |m.streams|
    ensures View(Finished(m, id), h) == if id == m.streams[h].id then SoloStep(View(m, h), Fin) else View(m, h)
  {
    OwnerOf(m, id, h);
    hide IdInv;
  }

  lemma DispatchProjects(m: State, f: Frame, h: nat)
    requires Wf(m) && IdInv(m) && m.opens <= MAX_OPENS && h < |m.streams|
    ensures |Dispatched(m, f).streams| == |m.streams|
    ensures View(Dispatched(m, f), h) == SoloRun(View(m, h), Project(m, Dispatch(f), h, m.streams[h].id))
  {
    hide IdInv, Pushed, Finished, SoloStep, SoloRun, Wf;
    SoloNone(View(m, h));
    SoloOne(View(m, h), Push(f.payload));
    SoloOne(View(m, h), Fin);
    PushProjects(m, f.streamId, f.payload, h);
    FinProjects(m, f.streamId, h);
  }

  lemma SoloOne(o: Solo, e: Event)
    ensures SoloRun(o, [e]) == SoloStep(o, e)
  {
    assert [e][..0] == [];
  }

  lemma OpenProjects(m: State, h: nat)
    requires Wf(m) && IdInv(m) && h < |m.streams| && Opened(m).opens <= MAX_OPENS
    ensures |m.streams| <= |Opened(m).streams| && Opened(m).streams[h] == m.streams[h]
    ensures View(Opened(m), h) == View(m, h)
  {
    if !m.closed {
      DistinctIds(m, h, h);
    }
    hide IdInv;
  }

  lemma ReadProjects(m: State, k: nat, n: nat, h: nat)
    requires Wf(m) && h < |m.streams| && k < |m.streams|
    ensures |ReadFrom(m, k, n).streams| == |m.streams|
    ensures View(ReadFrom(m, k, n), h) ==
            if k == h then View(m, h).(stream := ReadOnce(m.streams[h], Attached(m, h), m.closed, n)) else View(m, h)
  {
    ReadKeepsIdentity(m.streams[k], Attached(m, k), m.closed, n);
    hide ReadOnce;
  }

  lemma ShutdownProjects(m: State, k: nat, h: nat)
    requires Wf(m) && h < |m.streams| && k < |m.streams|
    ensures |ShutDown(m, k).streams| == |m.streams|
    ensures View(ShutDown(m, k), h) ==
            if k == h && (m.framesClosed || FrameRoom(m))
            then View(m, h).(stream := m.streams[h].(writeClosed := true)) else View(m, h)
  {
  }

  lemma DropProjects(m: State, k: nat, h: nat)
    requires Wf(m) && IdInv(m) && m.opens <= MAX_OPENS && h < |m.streams| && k < |m.streams|
    ensures |Dropped(m, k).streams| == |m.streams|
    ensures View(Dropped(m, k), h) ==
            if k == h then Solo(m.streams[h].(receiving := false), false, m.closed) else View(m, h)
  {
    DistinctIds(m, h, k);
    hide IdInv;
  }

  lemma CloseProjects(m: State, reason: Tag, h: nat)
    requires Wf(m) && h < |m.streams|
    ensures |Closed(m, reason).streams| == |m.streams|
    ensures View(Closed(m, reason), h) == SoloStep(View(m, h), CloseSession(reason))
  {
  }

  lemma StepProjects(m: State, e: Label, h: nat)
    requires Wf(m) && IdInv(m) && h < |m.streams| && Step(m, e).opens <= MAX_OPENS
    ensures |m.streams| <= |Step(m, e).streams| && Step(m, e).streams[h].id == m.streams[h].id
    ensures View(Step(m, e), h) == SoloRun(View(m, h), Project(m, e, h, m.streams[h].id))
  {
    hide IdInv, SoloRun, Opened, Dispatched, ReadFrom, ShutDown, Dropped, Closed, Written, ReadOnce;
    SoloNone(View(m, h));
    StepIds(m, e);
    if !e.Open? {
      StepKeepsIdentity(m, e);
    }
    match e
    case Open => OpenProjects(m, h);
    case Dispatch(f) => DispatchProjects(m, f, h);
    case Read(k, n) =>
      SoloOne(View(m, h), ReadUpTo(n));
      if k < |m.streams| {
        ReadProjects(m, k, n, h);
      }
    case Write(k, data) => if k < |m.streams| { WriteProjects(m, k, data, h); }
    case Shutdown(k) =>
      SoloOne(View(m, h), FinishWriting);
      if k < |m.streams| {
        ShutdownProjects(m, k, h);
      }
    case DropStream(k) =>
      SoloOne(View(m, h), Drop);
      if k < |m.streams| {
        DropProjects(m, k, h);
      }
    case Close(reason) =>
      SoloOne(View(m, h), CloseSession(reason));
      CloseProjects(m, reason, h);
    case SendFrame =>
    case StopSending =>
    case KeepAlive =>
  }

  lemma WriteProjects(m: State, k: nat, data: seq<byte>, h: nat)
    requires Wf(m) && h < |m.streams| && k < |m.streams|
    ensures |Written(m, k, data).streams| == |m.streams| && View(Written(m, k, data), h) == View(m, h)
  {
  }

  lemma SoloNone(o: Solo)
    ensures SoloRun(o, []) == o
  {
  }

  // -------------------------------------------------------------------------
  // Runs
  // -------------------------------------------------------------------------

  /** Continue from `m`, and what that run is for stream `h`. */
  function Continue(m: State, labels: seq<Label>): (m': State)
    requires Wf(m)
    ensures Wf(m')
  {
    if labels == [] then m else Step(Continue(m, labels[..|labels| - 1]), labels[|labels| - 1])
  }

  function ProjectAll(m: State, labels: seq<Label>, h: nat, id: u32): seq<Event>
    requires Wf(m)
  {
    if labels == [] then []
    else
      var before := labels[..|labels| - 1];
      ProjectAll(m, before, h, id) + Project(Continue(m, before), labels[|labels| - 1], h, id)
  }

  lemma {:induction false} SoloRunAppend(o: Solo, a: seq<Event>, b: seq<Event>)
    requires |b| <= 1
    ensures SoloRun(o, a + b) == SoloRun(SoloRun(o, a), b)
  {
    if b == [] {
      assert a + b == a;
    } else {
      assert b == [b[0]];
      assert (a + b)[..|a|] == a;
      SoloOne(SoloRun(o, a), b[0]);
    }
  }

  lemma {:induction false} RunIds(labels: seq<Label>)
    ensures IdInv(Run(labels))
  {
    hide Step, IdInv;
    if labels == [] {
      InitialIds();
    } else {
      RunIds(labels[..|labels| - 1]);
      StepIds(Run(labels[..|labels| - 1]), labels[|labels| - 1]);
    }
  }

  /** In every run client ids are odd, two streams share one exactly when a multiple of 2^31 opens lies
      between them, and so the first 2^31 opens get distinct ids. */
  lemma {:induction false} StreamIdsDistinct(labels: seq<Label>, h: nat, k: nat)
    requires h < k < |Run(labels).streams|
    ensures var m := Run(labels);
            && m.streams[h].id % 2 == 1
            && (m.streams[h].id == m.streams[k].id <==> (m.streams[k].born - m.streams[h].born) % MAX_OPENS == 0)
            && (m.opens <= MAX_OPENS ==> m.streams[h].id != m.streams[k].id)
  {
    hide Run, IdInv;
    RunIds(labels);
    BornApart(Run(labels), h, k);
  }

  /** `n` streams opened one after another, each SYN sent before the next open. */
  function OpenMany(n: nat): seq<Label> {
    if n == 0 then [] else OpenMany(n - 1) + [Open] + [SendFrame]
  }

  lemma OpenAndSend(m: State)
    requires Wf(m) && !m.closed && !m.framesClosed && m.frames == []
    ensures var m' := Step(Step(m, Open), SendFrame);
            && !m'.closed && !m'.framesClosed && m'.frames == [] && m'.opens == m.opens + 1
            && |m'.streams| == |m.streams| + 1 && m'.streams[..|m.streams|] == m.streams
            && m'.streams[|m.streams|].born == m.opens
  {
  }

  /** All streams came from consecutive opens, and nothing waits to be sent. */
  ghost predicate OpenedSo(m: State, n: nat) {
    && !m.closed && !m.framesClosed && m.frames == [] && m.opens == n && |m.streams| == n
    && forall h :: 0 <= h < n ==> m.streams[h].born == h
  }

  lemma OpenOneMore(m: State, n: nat)
    requires Wf(m) && OpenedSo(m, n)
    ensures OpenedSo(Step(Step(m, Open), SendFrame), n + 1)
  {
    hide Step;
    OpenAndSend(m);
    var m' := Step(Step(m, Open), SendFrame);
    assert forall h :: 0 <= h < n ==> m'.streams[h] == m'.streams[..n][h] == m.streams[h];
  }

  lemma {:induction false} OpenedMany(n: nat)
    ensures OpenedSo(Run(OpenMany(n)), n)
  {
    hide Step, OpenedSo;
    if n == 0 {
      NoneOpened();
    } else {
      hide Run;
      OpenedMany(n - 1);
      var before := OpenMany(n - 1);
      RunSnoc(before, Open);
      RunSnoc(before + [Open], SendFrame);
      OpenOneMore(Run(before), n - 1);
    }
  }

  lemma NoneOpened()
    ensures OpenedSo(Run([]), 0)
  {
  }

  /** The collision is reached: after 2^31 + 1 opens the first and the last stream have the same id. */
  lemma IdsRepeat() returns (labels: seq<Label>)
    ensures var m := Run(labels);
            && |m.streams| == MAX_OPENS + 1 && m.opens == MAX_OPENS + 1
            && m.streams[0].id == m.streams[MAX_OPENS].id
  {
    hide Run, OpenMany;
    labels := OpenMany(MAX_OPENS + 1);
    OpenedMany(MAX_OPENS + 1);
    StreamIdsDistinct(labels, 0, MAX_OPENS);
  }

  lemma InitialIds()
    ensures IdInv(INITIAL)
  {
  }

  /** Demultiplexing refines a stream on its own: for fewer than 2^31 opens, stream `h` of the whole
      multiplexer is, at every point, the single-stream machine run on its own events. */
  lemma {:induction false} StreamRefinesSolo(m: State, labels: seq<Label>, h: nat)
    requires Wf(m) && IdInv(m) && h < |m.streams| && Continue(m, labels).opens <= MAX_OPENS
    ensures var m' := Continue(m, labels);
            && IdInv(m') && h < |m'.streams| && m'.streams[h].id == m.streams[h].id
            && View(m', h) == SoloRun(View(m, h), ProjectAll(m, labels, h, m.streams[h].id))
  {
    hide Step, SoloRun, View, Project, IdInv;
    if labels == [] {
      SoloNone(View(m, h));
    } else {
      var before, e := labels[..|labels| - 1], labels[|labels| - 1];
      var mid := Continue(m, before);
      ContinueIds(m, before);
      StepIds(mid, e);
      StreamRefinesSolo(m, before, h);
      StepProjects(mid, e, h);
      ProjectShort(mid, e, h, m.streams[h].id);
      SoloRunAppend(View(m, h), ProjectAll(m, before, h, m.streams[h].id), Project(mid, e, h, m.streams[h].id));
    }
  }

  lemma ProjectShort(m: State, e: Label, h: nat, id: u32)
    ensures |Project(m, e, h, id)| <= 1
  {
  }

  lemma {:induction false} ContinueIds(m: State, labels: seq<Label>)
    requires Wf(m) && IdInv(m)
    ensures IdInv(Continue(m, labels))
  {
    hide Step, IdInv;
    if labels != [] {
      ContinueIds(m, labels[..|labels| - 1]);
      StepIds(Continue(m, labels[..|labels| - 1]), labels[|labels| - 1]);
    }
  }

  /** Non-interference: two runs, of two different multiplexers if you like, in which a stream starts
      alike and has the same events of its own, leave it alike - same bytes read, same queue, same
      close reason - whatever the other streams did and whichever of them were evicted. */
  lemma {:induction false} NonInterference(m1: State, labels1: seq<Label>, h1: nat, m2: State, labels2: seq<Label>, h2: nat)
    requires Wf(m1) && IdInv(m1) && h1 < |m1.streams| && Continue(m1, labels1).opens <= MAX_OPENS
    requires Wf(m2) && IdInv(m2) && h2 < |m2.streams| && Continue(m2, labels2).opens <= MAX_OPENS
    ensures h1 < |Continue(m1, labels1).streams| && h2 < |Continue(m2, labels2).streams|
    ensures View(m1, h1) == View(m2, h2)
            && ProjectAll(m1, labels1, h1, m1.streams[h1].id) == ProjectAll(m2, labels2, h2, m2.streams[h2].id)
            ==> View(Continue(m1, labels1), h1) == View(Continue(m2, labels2), h2)
  {
    hide Step, SoloRun, Project, IdInv, Continue, ProjectAll;
    StreamRefinesSolo(m1, labels1, h1);
    StreamRefinesSolo(m2, labels2, h2);
  }

  // -------------------------------------------------------------------------
  // Bytes and close reasons, over every run
  // -------------------------------------------------------------------------

  ghost predicate AllSolo(m: State) {
    forall h :: 0 <= h < |m.streams| ==> SoloInv(View(m, h))
  }

  lemma StepSolo(m: State, e: Label, h: nat)
    requires Wf(m) && IdInv(m) && h < |m.streams| && Step(m, e).opens <= MAX_OPENS && SoloInv(View(m, h))
    ensures h < |Step(m, e).streams| && SoloInv(View(Step(m, e), h))
  {
    hide Step, SoloInv, SoloStep, View, IdInv;
    StepProjects(m, e, h);
    ProjectShort(m, e, h, m.streams[h].id);
    var p := Project(m, e, h, m.streams[h].id);
    SoloNone(View(m, h));
    if p != [] {
      assert p == [p[0]];
      SoloOne(View(m, h), p[0]);
      SoloKeeps(View(m, h), p[0]);
    }
  }

  lemma OpenSolo(m: State)
    requires Wf(m)
    ensures forall h :: |m.streams| <= h < |Step(m, Open).streams| ==> SoloInv(View(Step(m, Open), h))
  {
  }

  lemma {:induction false} RunSolo(labels: seq<Label>)
    requires Run(labels).opens <= MAX_OPENS
    ensures AllSolo(Run(labels))
  {
    hide Step, SoloInv, IdInv, View;
    if labels != [] {
      var before, e := labels[..|labels| - 1], labels[|labels| - 1];
      var m := Run(before);
      RunIds(before);
      StepIds(m, e);
      RunSolo(before);
      OpenSolo(m);
      StepCount(m, e);
      forall h | 0 <= h < |Run(labels).streams| ensures SoloInv(View(Run(labels), h)) {
        if h < |m.streams| {
          StepSolo(m, e, h);
        }
      }
    }
  }

  lemma StepCount(m: State, e: Label)
    requires Wf(m)
    ensures !e.Open? ==> |Step(m, e).streams| == |m.streams|
  {
    if !e.Open? {
      StepKeepsIdentity(m, e);
    }
  }

  /** `SmuxStream::close_reason`. */
  function Reported(s: Stream): (reason: Tag)
    ensures reason.StillOpen? <==> !s.readClosed
  {
    if !s.readClosed then StillOpen
    else if s.tag.SlowConsumer? then SlowConsumer
    else if s.tag.Desynchronised? then Desynchronised
    else Clean
  }

  /** Close reasons are truthful: a finished stream reports SlowConsumer exactly when a frame
      dispatched to it was dropped; any other finished stream gave its reader every byte dispatched
      to it, and an evicted one every byte but the dropped frame's. */
  lemma {:induction false} CloseReasonsTruthful(labels: seq<Label>, h: nat)
    requires Run(labels).opens <= MAX_OPENS
    requires h < |Run(labels).streams| && Run(labels).streams[h].readClosed
    ensures var s := Run(labels).streams[h];
            && (Reported(s).SlowConsumer? <==> s.dropped)
            && (!s.dropped ==> s.read == Concat(s.dispatched))
            && (s.dropped ==> s.dispatched != [] && s.read == Concat(s.dispatched[..|s.dispatched| - 1]))
  {
    hide Run, Concat;
    RunSolo(labels);
    var s := Run(labels).streams[h];
    assert SoloInv(View(Run(labels), h));
    NothingQueued(s);
  }

  lemma NothingQueued(s: Stream)
    requires s.queue == [] && s.partial == [] && Accounted(s)
    ensures s.read == Concat(Kept(s))
  {
  }

  /** A recorded reason is final: no later FIN, eviction or session close overwrites it. */
  lemma {:induction false} ReasonIsFinal(before: seq<Label>, after: seq<Label>, h: nat)
    requires h < |Run(before).streams| && Continue(Run(before), after).opens <= MAX_OPENS
    ensures h < |Continue(Run(before), after).streams|
    ensures SoloInv(View(Continue(Run(before), after), h))
    ensures !Run(before).streams[h].tag.StillOpen? ==>
              Continue(Run(before), after).streams[h].tag == Run(before).streams[h].tag
  {
    hide Step, SoloInv, IdInv, SoloStep, Run;
    var m0 := Run(before);
    RunIds(before);
    if after == [] {
      RunSolo(before);
    } else {
      var sofar, e := after[..|after| - 1], after[|after| - 1];
      var m := Continue(m0, sofar);
      ContinueIds(m0, sofar);
      StepIds(m, e);
      ReasonIsFinal(before, sofar, h);
      StepSolo(m, e, h);
      StepProjects(m, e, h);
      ProjectShort(m, e, h, m.streams[h].id);
      var p := Project(m, e, h, m.streams[h].id);
      SoloNone(View(m, h));
      if p != [] {
        assert p == [p[0]];
        SoloOne(View(m, h), p[0]);
        if !m.streams[h].tag.StillOpen? {
          SoloReasonFinal(View(m, h), p[0]);
        }
      }
    }
  }

  /** The bytes a stream's reader obtained are a prefix of the PSH payloads dispatched to its id from
      the moment it was opened. */
  lemma {:induction false} ReadIsPrefixOfOwnPayloads(before: seq<Label>, after: seq<Label>)
    requires !Run(before).closed && FrameRoom(Run(before))
    requires Run(before + [Open] + after).opens <= MAX_OPENS
    ensures var m := Run(before + [Open]);
            var h := |Run(before).streams|;
            var m' := Run(before + [Open] + after);
            && h < |m.streams| && h < |m'.streams|
            && m'.streams[h].read <= Concat(Payloads(ProjectAll(m, after, h, m.streams[h].id)))
  {
    hide Concat, SoloRun, ProjectAll, Continue, Run, Payloads, IdInv;
    var h := |Run(before).streams|;
    var m := Run(before + [Open]);
    RunSnoc(before, Open);
    RunContinues(before + [Open], after);
    RunIds(before + [Open]);
    RunSolo(before + [Open] + after);
    StreamRefinesSolo(m, after, h);
    SoloDispatchedPrefix(View(m, h), ProjectAll(m, after, h, m.streams[h].id));
    var s := Run(before + [Open] + after).streams[h];
    assert SoloInv(View(Run(before + [Open] + after), h));
    ReadWithinDispatched(s);
    ConcatPrefix(s.dispatched, Payloads(ProjectAll(m, after, h, m.streams[h].id)));
  }

  lemma ReadWithinDispatched(s: Stream)
    requires Accounted(s)
    ensures s.read <= Concat(s.dispatched)
  {
    hide Concat;
    assert s.read + s.partial + Concat(s.queue) == s.read + (s.partial + Concat(s.queue));
    ConcatPrefix(Kept(s), s.dispatched);
  }

  lemma RunSnoc(labels: seq<Label>, e: Label)
    ensures Run(labels + [e]) == Step(Run(labels), e)
  {
    assert (labels + [e])[..|labels|] == labels;
  }

  lemma {:induction false} RunContinues(a: seq<Label>, b: seq<Label>)
    ensures Run(a + b) == Continue(Run(a), b)
  {
    hide Step, Run;
    if b == [] {
      assert a + b == a;
    } else {
      var before, e := b[..|b| - 1], b[|b| - 1];
      RunContinues(a, before);
      assert a + b == (a + before) + [e];
      RunSnoc(a + before, e);
    }
  }

  // -------------------------------------------------------------------------
  // What the multiplexer sends
  // -------------------------------------------------------------------------

  /** A PSH frame is queued for the stream registered under its id, or it is refused: then, if the frame
      queue has room, the agent is told with a FIN, and a stream that was registered is evicted. */
  lemma {:induction false} PushIsQueuedOrRefused(labels: seq<Label>, id: u32, payload: seq<byte>)
    requires Run(labels).opens <= MAX_OPENS
    ensures var m := Run(labels);
            var m' := Step(m, Dispatch(Frame(2, id, payload)));
            if id in m.table && |m.streams[m.table[id]].queue| < 256 then
              && m'.table == m.table && m'.emitted == m.emitted
              && m'.streams[m.table[id]].queue == m.streams[m.table[id]].queue + [payload]
            else
              && id !in m'.table
              && (!m.framesClosed && |m.frames| < 256 ==> m'.emitted == m.emitted + [Frame(1, id, [])])
              && (m.framesClosed || |m.frames| >= 256 ==> m'.emitted == m.emitted)
              && (id in m.table ==> m'.streams[m.table[id]].tag.SlowConsumer?)
  {
    hide Run;
    RunSolo(labels);
    var m := Run(labels);
    if id in m.table {
      assert SoloInv(View(m, m.table[id]));
      hide Accounted;
    }
  }

  lemma {:induction false} EmittedSendable(labels: seq<Label>)
    ensures Sized(Run(labels).emitted)
  {
    if labels != [] {
      EmittedSendable(labels[..|labels| - 1]);
      StepSendable(Run(labels[..|labels| - 1]), labels[|labels| - 1]);
    }
  }

  lemma StepSendable(m: State, e: Label)
    requires Wf(m) && Sized(m.emitted)
    ensures Sized(Step(m, e).emitted)
  {
    hide ReadOnce, SettledExcept, Wf, Closing;
  }

  /** Whatever was opened, written, refused or evicted, an smux decoder at the other end recovers
      exactly the frames that were queued, in order. */
  lemma EmittedFramesDecode(labels: seq<Label>)
    ensures DecodeAll(EncodeAll(Run(labels).emitted)) == Batch(Run(labels).emitted, [], false)
  {
    hide Run;
    EmittedSendable(labels);
    EncodeDecode(Run(labels).emitted);
  }
}
