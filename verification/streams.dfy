/** What the two ends of one stream of the multiplexer (src/mux.rs) see: the payloads that frames carry
for it, the bytes written to it, and whether a stream that ended cleanly is complete. */
module Streams {
  import opened Bytes
  import opened Framing
  import opened Mux
  import opened MuxRuns

  /** The payloads that a list of frames carries for one stream. */
  function PayloadsFor(frames: seq<Frame>, id: u32): seq<seq<byte>> {
    if frames == [] then []
    else
      var f := frames[|frames| - 1];
      PayloadsFor(frames[..|frames| - 1], id) + if f.cmd == CMD_PSH && f.streamId == id then [f.payload] else []
  }

  /** The frames dispatched in a run of the multiplexer. */
  function FramesIn(labels: seq<Label>): seq<Frame> {
    if labels == [] then []
    else
      var e := labels[|labels| - 1];
      FramesIn(labels[..|labels| - 1]) + if e.Dispatch? then [e.f] else []
  }

  lemma PayloadsGrow(frames: seq<Frame>, f: Frame, id: u32)
    ensures PayloadsFor(frames + [f], id) ==
            PayloadsFor(frames, id) + if f.cmd == CMD_PSH && f.streamId == id then [f.payload] else []
  {
    assert (frames + [f])[..|frames|] == frames;
  }

  lemma EventPayloadsGrow(events: seq<Event>, more: seq<Event>)
    requires |more| <= 1
    ensures Payloads(events + more) ==
            Payloads(events) + if more != [] && more[0].Push? then [more[0].payload] else []
  {
    if more == [] {
      assert events + more == events;
    } else {
      assert (events + more)[..|events|] == events;
    }
  }

  /** The pushes among a stream's own events are the PSH frames with its id. */
  lemma {:induction false} OwnPayloads(m: State, labels: seq<Label>, h: nat, id: u32)
    requires Wf(m)
    ensures Payloads(ProjectAll(m, labels, h, id)) == PayloadsFor(FramesIn(labels), id)
  {
    hide Payloads, PayloadsFor, Continue;
    if labels == [] {
      NoPayloads(id);
    } else {
      var before, e := labels[..|labels| - 1], labels[|labels| - 1];
      OwnPayloads(m, before, h, id);
      ProjectShort(Continue(m, before), e, h, id);
      EventPayloadsGrow(ProjectAll(m, before, h, id), Project(Continue(m, before), e, h, id));
      if e.Dispatch? {
        PayloadsGrow(FramesIn(before), e.f, id);
      } else {
        assert FramesIn(before) + [] == FramesIn(before);
      }
    }
  }

  lemma NoPayloads(id: u32)
    ensures Payloads([]) == [] && PayloadsFor([], id) == []
  {
  }

  lemma {:induction false} PayloadsPrefix(a: seq<Frame>, b: seq<Frame>, id: u32)
    requires a <= b
    ensures PayloadsFor(a, id) <= PayloadsFor(b, id)
  {
    if a != b {
      assert a <= b[..|b| - 1];
      PayloadsPrefix(a, b[..|b| - 1], id);
    }
  }

  lemma {:induction false} PayloadsSplit(a: seq<Frame>, b: seq<Frame>, id: u32)
    ensures PayloadsFor(a + b, id) == PayloadsFor(a, id) + PayloadsFor(b, id)
  {
    hide PayloadsFor;
    if b == [] {
      NoPayloads(id);
      assert a + b == a;
    } else {
      var shorter, f := b[..|b| - 1], b[|b| - 1];
      PayloadsSplit(a, shorter, id);
      PayloadsGrow(a + shorter, f, id);
      PayloadsGrow(shorter, f, id);
      assert (a + shorter) + [f] == a + b && shorter + [f] == b;
      var last := if f.cmd == CMD_PSH && f.streamId == id then [f.payload] else [];
      assert (PayloadsFor(a, id) + PayloadsFor(shorter, id)) + last == PayloadsFor(a, id) + (PayloadsFor(shorter, id) + last);
    }
  }

  // -------------------------------------------------------------------------
  // The way out
  // -------------------------------------------------------------------------

  /** What a step takes of the data written to stream `h`. */
  function Took(m: State, e: Label, h: nat): seq<seq<byte>> {
    if e.Write? && e.h == h && Live(m, h) && !m.streams[h].writeClosed && !m.closed && FrameRoom(m) then
      [e.data[..if |e.data| < MAX_FRAME_PAYLOAD then |e.data| else MAX_FRAME_PAYLOAD]]
    else []
  }

  /** The pieces that the writes to stream `h` took, in order. */
  function WrittenBy(labels: seq<Label>, h: nat): seq<seq<byte>> {
    if labels == [] then []
    else WrittenBy(labels[..|labels| - 1], h) + Took(Run(labels[..|labels| - 1]), labels[|labels| - 1], h)
  }

  /** At most one frame is queued, and it is a PSH frame exactly when a write was taken. */
  lemma StepEmits(m: State, e: Label)
    requires Wf(m)
    ensures var m' := Step(m, e);
            if e.Write? && Took(m, e, e.h) != [] then
              m'.emitted == m.emitted + [Frame(CMD_PSH, m.streams[e.h].id, Took(m, e, e.h)[0])]
            else m'.emitted == m.emitted ||
                 (m'.emitted == m.emitted + [m'.emitted[|m.emitted|]] && m'.emitted[|m.emitted|].cmd != CMD_PSH)
  {
    hide ReadOnce, SettledExcept, Wf, Closing;
  }

  lemma StepPayloads(m: State, e: Label, id: u32)
    requires Wf(m)
    ensures PayloadsFor(Step(m, e).emitted, id) ==
            PayloadsFor(m.emitted, id) +
            if e.Write? && e.h < |m.streams| && m.streams[e.h].id == id then Took(m, e, e.h) else []
  {
    hide Step, Wf, PayloadsFor;
    StepEmits(m, e);
    var m' := Step(m, e);
    if m'.emitted != m.emitted {
      PayloadsGrow(m.emitted, m'.emitted[|m.emitted|], id);
    }
  }

  lemma {:induction false} NotWrittenYet(labels: seq<Label>, h: nat)
    requires h >= |Run(labels).streams|
    ensures WrittenBy(labels, h) == []
  {
    hide Step, IdInv;
    if labels != [] {
      RunIds(labels[..|labels| - 1]);
      StepIds(Run(labels[..|labels| - 1]), labels[|labels| - 1]);
      NotWrittenYet(labels[..|labels| - 1], h);
    }
  }

  ghost predicate Unused(m: State, id: u32) { forall h :: 0 <= h < |m.streams| ==> m.streams[h].id != id }

  /** The PSH frames queued under an id are those of the one stream that has it. */
  ghost predicate OneWriter(labels: seq<Label>, id: u32) {
    var m := Run(labels);
    && (Unused(m, id) ==> PayloadsFor(m.emitted, id) == [])
    && (forall h :: 0 <= h < |m.streams| && m.streams[h].id == id ==> PayloadsFor(m.emitted, id) == WrittenBy(labels, h))
  }

  lemma OpenOneWriter(before: seq<Label>, id: u32)
    requires OneWriter(before, id) && IdInv(Run(before)) && Run(before + [Open]).opens <= MAX_OPENS
    ensures OneWriter(before + [Open], id)
  {
    var m := Run(before);
    RunSnoc(before, Open);
    hide Run, Step, PayloadsFor, IdInv, Wf;
    var m' := Step(m, Open);
    StepPayloads(m, Open, id);
    assert (before + [Open])[..|before|] == before;
    OpenAdds(m);
    forall h | 0 <= h < |m'.streams| && m'.streams[h].id == id
      ensures PayloadsFor(m'.emitted, id) == WrittenBy(before + [Open], h)
    {
      if h == |m.streams| {
        NotWrittenYet(before, h);
      } else {
        assert m.streams[h].id == id;
      }
    }
    assert Unused(m', id) ==> Unused(m, id) by {
      assert forall h :: 0 <= h < |m.streams| ==> m'.streams[h].id == m.streams[h].id;
    }
  }

  /** An open leaves the streams alone, and a new one has an id that none of them has. */
  lemma OpenAdds(m: State)
    requires Wf(m) && IdInv(m) && Step(m, Open).opens <= MAX_OPENS
    ensures var m' := Step(m, Open);
            && |m.streams| <= |m'.streams| <= |m.streams| + 1
            && (forall h :: 0 <= h < |m.streams| ==> m'.streams[h] == m.streams[h])
            && (|m'.streams| > |m.streams| ==> Unused(m, m'.streams[|m.streams|].id))
  {
    if !m.closed {
      forall h | 0 <= h < |m.streams| ensures m.nextId != m.streams[h].id {
        DistinctIds(m, h, h);
      }
    }
    hide IdInv;
  }

  lemma OtherOneWriter(before: seq<Label>, e: Label, id: u32)
    requires OneWriter(before, id) && IdInv(Run(before)) && Run(before).opens <= MAX_OPENS && !e.Open?
    ensures OneWriter(before + [e], id)
  {
    var m := Run(before);
    RunSnoc(before, e);
    hide Run, Step, PayloadsFor, Wf;
    StepPayloads(m, e, id);
    StepKeepsIdentity(m, e);
    assert (before + [e])[..|before|] == before;
    var m' := Step(m, e);
    forall h | 0 <= h < |m'.streams| && m'.streams[h].id == id
      ensures PayloadsFor(m'.emitted, id) == WrittenBy(before + [e], h)
    {
      assert m.streams[h].id == id;
      if e.Write? && e.h < |m.streams| && e.h != h {
        DistinctIds(m, h, e.h);
      }
    }
    if Unused(m', id) {
      assert forall h :: 0 <= h < |m.streams| ==> m'.streams[h].id == m.streams[h].id;
    }
  }

  lemma {:induction false} RunOneWriter(labels: seq<Label>, id: u32)
    requires Run(labels).opens <= MAX_OPENS
    ensures OneWriter(labels, id)
  {
    hide Step, IdInv, OneWriter;
    if labels == [] {
      NobodyWrote(id);
    } else {
      var before, e := labels[..|labels| - 1], labels[|labels| - 1];
      RunIds(before);
      StepIds(Run(before), e);
      RunOneWriter(before, id);
      assert before + [e] == labels;
      if e.Open? {
        OpenOneWriter(before, id);
      } else {
        OtherOneWriter(before, e, id);
      }
    }
  }

  lemma NobodyWrote(id: u32)
    ensures OneWriter([], id)
  {
  }

  /** In every run, for the first 2^31 opens, the PSH frames queued under a stream's id carry exactly the
      pieces that the writes to that stream took, in order. */
  lemma {:induction false} EmittedAreTheWrites(labels: seq<Label>, h: nat)
    requires Run(labels).opens <= MAX_OPENS && h < |Run(labels).streams|
    ensures PayloadsFor(Run(labels).emitted, Run(labels).streams[h].id) == WrittenBy(labels, h)
  {
    hide Run, PayloadsFor, WrittenBy;
    RunOneWriter(labels, Run(labels).streams[h].id);
  }

  // -------------------------------------------------------------------------
  // Is a stream that ended cleanly complete?
  // -------------------------------------------------------------------------

  predicate Registered(m: State, h: nat) { h < |m.streams| && Attached(m, h) }

  /** The frames dispatched while stream `h` was registered. */
  function FramesWhile(m: State, labels: seq<Label>, h: nat): seq<Frame>
    requires Wf(m)
  {
    if labels == [] then []
    else
      var before, e := labels[..|labels| - 1], labels[|labels| - 1];
      FramesWhile(m, before, h) + if e.Dispatch? && Registered(Continue(m, before), h) then [e.f] else []
  }

  lemma SoloRegistered(o: Solo, e: Event)
    requires SoloInv(o)
    ensures var o' := SoloStep(o, e);
            && (o'.attached ==> o.attached)
            && o'.stream.dispatched == o.stream.dispatched + if e.Push? && o.attached then [e.payload] else []
  {
    hide Accounted;
  }

  lemma StepRegistered(m: State, e: Label, h: nat)
    requires Wf(m) && IdInv(m) && h < |m.streams| && Step(m, e).opens <= MAX_OPENS && SoloInv(MuxRuns.View(m, h))
    ensures var m', id := Step(m, e), m.streams[h].id;
            && h < |m'.streams| && m'.streams[h].id == id && SoloInv(MuxRuns.View(m', h))
            && (Registered(m', h) ==> Registered(m, h))
            && m'.streams[h].dispatched == m.streams[h].dispatched +
               if e.Dispatch? && e.f.cmd == CMD_PSH && e.f.streamId == id && Registered(m, h) then [e.f.payload] else []
  {
    hide Step, SoloInv, SoloStep, IdInv, SoloRun;
    StepProjects(m, e, h);
    StepSolo(m, e, h);
    var p, o := Project(m, e, h, m.streams[h].id), MuxRuns.View(m, h);
    ProjectShort(m, e, h, m.streams[h].id);
    SoloNone(o);
    if p != [] {
      assert p == [p[0]];
      SoloOne(o, p[0]);
      SoloRegistered(o, p[0]);
    }
  }

  /** While registered, a stream is dispatched exactly the payloads for its id, and a stream that is no
      longer registered never is again. */
  lemma {:induction false} DispatchedWhile(m: State, labels: seq<Label>, h: nat)
    requires Wf(m) && IdInv(m) && Registered(m, h) && SoloInv(MuxRuns.View(m, h)) && m.streams[h].dispatched == []
    requires Continue(m, labels).opens <= MAX_OPENS
    ensures var m', id, seen := Continue(m, labels), m.streams[h].id, FramesWhile(m, labels, h);
            && IdInv(m') && h < |m'.streams| && m'.streams[h].id == id && SoloInv(MuxRuns.View(m', h))
            && m'.streams[h].dispatched == PayloadsFor(seen, id)
            && seen <= FramesIn(labels)
            && (Registered(m', h) ==> seen == FramesIn(labels))
  {
    hide Step, SoloInv, IdInv, Wf, PayloadsFor;
    var id := m.streams[h].id;
    if labels == [] {
      NoPayloads(id);
    } else {
      var before, e := labels[..|labels| - 1], labels[|labels| - 1];
      var mid := Continue(m, before);
      ContinueIds(m, before);
      StepIds(mid, e);
      DispatchedWhile(m, before, h);
      StepRegistered(mid, e, h);
      assert FramesWhile(m, before, h) + [] == FramesWhile(m, before, h);
      if e.Dispatch? {
        PayloadsGrow(FramesWhile(m, before, h), e.f, id);
      }
    }
  }

  /** The agent sends nothing more on a stream that it has finished. */
  ghost predicate Conforms(frames: seq<Frame>, id: u32) {
    forall i, j :: 0 <= i < j < |frames| && frames[i].cmd == CMD_FIN && frames[i].streamId == id ==>
      !(frames[j].cmd == CMD_PSH && frames[j].streamId == id)
  }

  ghost predicate Finishes(frames: seq<Frame>, id: u32) {
    exists i :: 0 <= i < |frames| && frames[i].cmd == CMD_FIN && frames[i].streamId == id
  }

  lemma {:induction false} NonePayloads(frames: seq<Frame>, id: u32)
    requires forall i :: 0 <= i < |frames| ==> !(frames[i].cmd == CMD_PSH && frames[i].streamId == id)
    ensures PayloadsFor(frames, id) == []
  {
    if frames != [] {
      NonePayloads(frames[..|frames| - 1], id);
    }
  }

  lemma NothingAfterFin(frames: seq<Frame>, n: nat, id: u32)
    requires n <= |frames| && Conforms(frames, id) && Finishes(frames[..n], id)
    ensures PayloadsFor(frames[n..], id) == []
  {
    var i :| 0 <= i < n && frames[i].cmd == CMD_FIN && frames[i].streamId == id;
    NonePayloads(frames[n..], id);
  }

  /** Is a clean end a complete one? `frames` are all the frames the agent produces once the stream is
      open. A stream that reports Clean gave its reader every byte that they carry for it if and only if
      those that were not dispatched to it while it was registered carry none. That is so if a FIN for it
      was dispatched to it, and the agent sends nothing after a FIN. */
  lemma {:induction false} CleanIsCompleteIff(before: seq<Label>, after: seq<Label>, frames: seq<Frame>)
    requires !Run(before).closed && FrameRoom(Run(before)) && Run(before + [Open] + after).opens <= MAX_OPENS
    requires FramesIn(after) <= frames
    ensures var m, m', h := Run(before + [Open]), Run(before + [Open] + after), |Run(before).streams|;
            && h < |m.streams| && h < |m'.streams|
            && (Reported(m'.streams[h]).Clean? ==>
                var id, seen := m.streams[h].id, FramesWhile(m, after, h);
                && seen <= frames
                && (m'.streams[h].read == Concat(PayloadsFor(frames, id))
                    <==> Concat(PayloadsFor(frames[|seen|..], id)) == [])
                && (Conforms(frames, id) && Finishes(seen, id) ==> m'.streams[h].read == Concat(PayloadsFor(frames, id))))
  {
    hide Run, Continue, FramesWhile, FramesIn, PayloadsFor, Concat, IdInv, Conforms, Finishes, SoloInv, FrameRoom;
    var all, h := before + [Open], |Run(before).streams|;
    var m, m' := Run(all), Run(all + after);
    OpenedLast(before);
    RunContinues(all, after);
    RunIds(all);
    DispatchedWhile(m, after, h);
    var s, id, seen := m'.streams[h], m.streams[h].id, FramesWhile(m, after, h);
    if Reported(s).Clean? {
      CloseReasonsTruthful(all + after, h);
      CleanNotDropped(s);
      var rest := frames[|seen|..];
      assert seen + rest == frames;
      PayloadsSplit(seen, rest, id);
      ConcatAppend(PayloadsFor(seen, id), PayloadsFor(rest, id));
      if Conforms(frames, id) && Finishes(seen, id) {
        assert frames[..|seen|] == seen;
        NothingAfterFin(frames, |seen|, id);
        NothingConcat();
      }
    }
  }

  lemma NothingConcat()
    ensures Concat<byte>([]) == []
  {
  }

  lemma CleanNotDropped(s: Stream)
    requires Reported(s).Clean?
    ensures s.readClosed && !Reported(s).SlowConsumer?
  {
  }

  /** A stream that was just opened. */
  lemma OpenedLast(before: seq<Label>)
    requires !Run(before).closed && FrameRoom(Run(before))
    ensures var m, h := Run(before + [Open]), |Run(before).streams|;
            && Registered(m, h) && SoloInv(MuxRuns.View(m, h)) && m.streams[h].dispatched == []
  {
    RunSnoc(before, Open);
    hide Run;
    OpenSolo(Run(before));
    hide SoloInv;
  }

  lemma FramesGrow(labels: seq<Label>, e: Label)
    ensures FramesIn(labels + [e]) == FramesIn(labels) + if e.Dispatch? then [e.f] else []
  {
    assert (labels + [e])[..|labels|] == labels;
  }

  /** A clean end can be a cut: the session's output ends between two frames of a stream, and the stream
      reports Clean with half of its bytes. */
  lemma CleanThoughCut() returns (after: seq<Label>, frames: seq<Frame>)
    ensures FramesIn(after) <= frames && Conforms(frames, 1)
    ensures var m := Run([Open] + after);
            && |m.streams| == 1 && m.streams[0].id == 1
            && Reported(m.streams[0]).Clean? && m.streams[0].read == [1]
            && Concat(PayloadsFor(frames, 1)) == [1, 2]
  {
    hide Run, FramesIn, Step, PayloadsFor, Concat;
    var f, g, e := Frame(CMD_PSH, 1, [1]), Frame(CMD_PSH, 1, [2]), Frame(CMD_FIN, 1, []);
    frames := [f] + [g] + [e];
    TwoPayloads(f, g, e);
    var l1 := [] + [Dispatch(f)];
    var l2 := l1 + [Close(Clean)];
    var l3 := l2 + [Read(0, 10)];
    after := l3 + [Read(0, 10)];
    FramesGrow([], Dispatch(f));
    FramesGrow(l1, Close(Clean));
    FramesGrow(l2, Read(0, 10));
    FramesGrow(l3, Read(0, 10));
    NoFrames();
    RunContinues([Open], after);
    CutOpens();
    hide Registered;
    var m1 := Run([Open]);
    ContinueSnoc(m1, [], Dispatch(f));
    ContinueSnoc(m1, l1, Close(Clean));
    ContinueSnoc(m1, l2, Read(0, 10));
    ContinueSnoc(m1, l3, Read(0, 10));
    CutPush(m1, f);
    CutClose(Continue(m1, l1));
    CutRead(Continue(m1, l2));
    CutEnd(Continue(m1, l3));
  }

  lemma NoFrames()
    ensures FramesIn([]) == []
  {
  }

  lemma ContinueSnoc(m: State, labels: seq<Label>, e: Label)
    requires Wf(m)
    ensures Continue(m, labels + [e]) == Step(Continue(m, labels), e)
    ensures Continue(m, []) == m
  {
    assert (labels + [e])[..|labels|] == labels;
  }

  lemma TwoPayloads(f: Frame, g: Frame, e: Frame)
    requires f == Frame(CMD_PSH, 1, [1]) && g == Frame(CMD_PSH, 1, [2]) && e == Frame(CMD_FIN, 1, [])
    ensures Concat(PayloadsFor([f] + [g] + [e], 1)) == [1, 2]
  {
    hide PayloadsFor;
    NoPayloads(1);
    PayloadsGrow([], f, 1);
    PayloadsGrow([f], g, 1);
    PayloadsGrow([f] + [g], e, 1);
    assert [] + [f] == [f];
    hide Concat;
    NothingConcat();
    ConcatOne([], [1]);
    ConcatOne([[1]], [2]);
    assert PayloadsFor([f] + [g] + [e], 1) == ([] + [[1]]) + [[2]];
  }

  /** One stream, numbered 1, in the middle of the run: registered or not, with this queue. */
  predicate Lone(m: State, registered: bool, queue: seq<seq<byte>>, read: seq<byte>) {
    && |m.streams| == 1 && m.streams[0].id == 1 && m.streams[0].receiving
    && m.streams[0].queue == queue && m.streams[0].partial == [] && m.streams[0].read == read
    && !m.streams[0].readClosed
    && m.table == (if registered then map[1 := 0] else map[]) && m.closed == !registered
    && m.streams[0].tag == if registered then StillOpen else Clean
  }

  lemma CutOpens()
    ensures Lone(Run([Open]), true, [], [])
  {
    hide Run;
    RunOne(Open);
  }

  lemma RunOne(e: Label)
    ensures Run([e]) == Step(INITIAL, e)
  {
    assert [e][..0] == [];
  }

  lemma CutPush(m: State, f: Frame)
    requires Wf(m) && Lone(m, true, [], []) && f == Frame(CMD_PSH, 1, [1])
    ensures Lone(Step(m, Dispatch(f)), true, [[1]], [])
  {
  }

  lemma CutClose(m: State)
    requires Wf(m) && Lone(m, true, [[1]], [])
    ensures Lone(Step(m, Close(Clean)), false, [[1]], [])
  {
  }

  lemma CutRead(m: State)
    requires Wf(m) && Lone(m, false, [[1]], [])
    ensures Lone(Step(m, Read(0, 10)), false, [], [1])
  {
  }

  lemma CutEnd(m: State)
    requires Wf(m) && Lone(m, false, [], [1])
    ensures var m' := Step(m, Read(0, 10));
            && |m'.streams| == 1 && m'.streams[0].id == 1 && m'.streams[0].read == [1]
            && m'.streams[0].readClosed && m'.streams[0].tag.Clean?
  {
  }

  // -------------------------------------------------------------------------
  // Why a stream ended
  // -------------------------------------------------------------------------

  /** The events that end a registered stream with this reason: the session's close, or, for Clean, a
      FIN frame for its id. */
  predicate EndsAs(e: Label, id: u32, reason: Tag) {
    e == Close(reason) || (reason.Clean? && e.Dispatch? && e.f.cmd == 1 && e.f.streamId == id)
  }

  /** Such an event found stream `h` registered. */
  ghost predicate EndedBy(labels: seq<Label>, h: nat, id: u32, reason: Tag) {
    exists k :: 0 <= k < |labels| && EndsAs(labels[k], id, reason) && Registered(Run(labels[..k]), h)
  }

  lemma EndedByGrows(labels: seq<Label>, h: nat, id: u32, reason: Tag)
    requires labels != []
    ensures var n := |labels| - 1;
            EndedBy(labels, h, id, reason) <==>
            EndedBy(labels[..n], h, id, reason) || (EndsAs(labels[n], id, reason) && Registered(Run(labels[..n]), h))
  {
    hide Run, EndsAs, Registered;
    var n := |labels| - 1;
    var before := labels[..n];
    assert forall k :: 0 <= k < n ==> before[..k] == labels[..k] && before[k] == labels[k];
  }

  lemma SoloTag(o: Solo, e: Event)
    requires SoloInv(o) && (e.CloseSession? ==> Ends(e.reason))
    ensures var o' := SoloStep(o, e);
            && (!o.attached ==> o'.stream.tag == o.stream.tag)
            && (o.attached ==>
                && o.stream.tag.StillOpen?
                && (o'.stream.tag.Clean? <==> e.Fin? || e == CloseSession(Clean))
                && (o'.stream.tag.Desynchronised? <==> e == CloseSession(Desynchronised)))
            && (o.attached && (e.Fin? || e.CloseSession? || e.Drop?) ==> !o'.attached)
  {
    hide Accounted;
  }

  lemma StepTag(m: State, e: Label, h: nat)
    requires Wf(m) && IdInv(m) && h < |m.streams| && Step(m, e).opens <= MAX_OPENS && SoloInv(MuxRuns.View(m, h))
    ensures var m', id := Step(m, e), m.streams[h].id;
            && h < |m'.streams| && m'.streams[h].id == id
            && (!Registered(m, h) ==> m'.streams[h].tag == m.streams[h].tag)
            && (Registered(m, h) ==>
                && m.streams[h].tag.StillOpen?
                && (m'.streams[h].tag.Clean? <==> EndsAs(e, id, Clean))
                && (m'.streams[h].tag.Desynchronised? <==> EndsAs(e, id, Desynchronised)))
            && (EndsAs(e, id, Clean) || EndsAs(e, id, Desynchronised) ==> !Registered(m', h))
  {
    hide Step, SoloInv, SoloStep, IdInv, SoloRun;
    StepProjects(m, e, h);
    var p, o := Project(m, e, h, m.streams[h].id), MuxRuns.View(m, h);
    ProjectShort(m, e, h, m.streams[h].id);
    SoloNone(o);
    StillOpenWhile(o);
    if p != [] {
      assert p == [p[0]];
      SoloOne(o, p[0]);
      SoloTag(o, p[0]);
      SoloRegistered(o, p[0]);
    }
  }

  lemma StillOpenWhile(o: Solo)
    requires SoloInv(o)
    ensures o.attached ==> o.stream.tag.StillOpen?
  {
  }

  ghost predicate TagTruthful(labels: seq<Label>, h: nat) {
    h < |Run(labels).streams| ==>
      var s := Run(labels).streams[h];
      && (s.tag.Clean? <==> EndedBy(labels, h, s.id, Clean))
      && (s.tag.Desynchronised? <==> EndedBy(labels, h, s.id, Desynchronised))
  }

  lemma TagOfOld(labels: seq<Label>, h: nat)
    requires labels != [] && Run(labels).opens <= MAX_OPENS && TagTruthful(labels[..|labels| - 1], h)
    requires h < |Run(labels[..|labels| - 1]).streams|
    ensures TagTruthful(labels, h)
  {
    hide Run, Step, IdInv, EndedBy, EndsAs, SoloInv;
    var before, e := labels[..|labels| - 1], labels[|labels| - 1];
    var m := Run(before);
    RunIds(before);
    StepIds(m, e);
    assert before + [e] == labels;
    RunSnoc(before, e);
    RunSolo(before);
    StepTag(m, e, h);
    var id := m.streams[h].id;
    EndedByGrows(labels, h, id, Clean);
    EndedByGrows(labels, h, id, Desynchronised);
  }

  lemma TagOfNew(labels: seq<Label>, h: nat)
    requires labels != [] && h >= |Run(labels[..|labels| - 1]).streams| && Run(labels).opens <= MAX_OPENS
    ensures TagTruthful(labels, h)
  {
    hide Step, IdInv, EndedBy;
    var before, e := labels[..|labels| - 1], labels[|labels| - 1];
    var m := Run(before);
    if h < |Run(labels).streams| {
      StepCount(m, e);
      OpenedFresh(m);
      NeverRegistered(before, h, Run(labels).streams[h].id, Clean);
      NeverRegistered(before, h, Run(labels).streams[h].id, Desynchronised);
      EndedByGrows(labels, h, Run(labels).streams[h].id, Clean);
      EndedByGrows(labels, h, Run(labels).streams[h].id, Desynchronised);
    }
  }

  lemma OpenedFresh(m: State)
    requires Wf(m)
    ensures var m' := Step(m, Open);
            |m'.streams| <= |m.streams| + 1 && (|m'.streams| > |m.streams| ==> m'.streams[|m.streams|].tag.StillOpen?)
  {
  }

  lemma {:induction false} NeverRegistered(labels: seq<Label>, h: nat, id: u32, reason: Tag)
    requires h >= |Run(labels).streams|
    ensures !EndedBy(labels, h, id, reason)
  {
    hide Step, IdInv, EndedBy;
    if labels == [] {
      NothingEnded(h, id, reason);
    } else {
      var before, e := labels[..|labels| - 1], labels[|labels| - 1];
      RunIds(before);
      StepIds(Run(before), e);
      NeverRegistered(before, h, id, reason);
      EndedByGrows(labels, h, id, reason);
    }
  }

  lemma NothingEnded(h: nat, id: u32, reason: Tag)
    ensures !EndedBy([], h, id, reason)
  {
  }

  lemma {:induction false} RunTags(labels: seq<Label>, h: nat)
    requires Run(labels).opens <= MAX_OPENS
    ensures TagTruthful(labels, h)
  {
    hide Step, IdInv, TagTruthful;
    if labels == [] {
      NoTags(h);
    } else {
      var before, e := labels[..|labels| - 1], labels[|labels| - 1];
      RunIds(before);
      StepIds(Run(before), e);
      RunTags(before, h);
      if h < |Run(before).streams| {
        TagOfOld(labels, h);
      } else {
        TagOfNew(labels, h);
      }
    }
  }

  lemma NoTags(h: nat)
    ensures TagTruthful([], h)
  {
  }

  /** Over every run, for the first 2^31 opens, a finished stream reports Desynchronised if and only if the
      session closed for that reason while the stream was registered, SlowConsumer if and only if a frame
      dispatched to it was dropped, and Clean in all other cases. */
  lemma {:induction false} ReportedIff(labels: seq<Label>, h: nat)
    requires Run(labels).opens <= MAX_OPENS && h < |Run(labels).streams| && Run(labels).streams[h].readClosed
    ensures var s := Run(labels).streams[h];
            && (Reported(s).Desynchronised? <==> EndedBy(labels, h, s.id, Desynchronised))
            && (Reported(s).SlowConsumer? <==> s.dropped)
            && (Reported(s).Clean? <==> !s.dropped && !EndedBy(labels, h, s.id, Desynchronised))
  {
    hide Run, EndedBy, Concat;
    RunTags(labels, h);
    CloseReasonsTruthful(labels, h);
  }

  // -------------------------------------------------------------------------
  // What the steps of a stream's user do, in every reachable state
  // -------------------------------------------------------------------------

  /** The frame queue holds at most 256 frames, always the last ones queued, and none once it is closed. */
  lemma {:induction false} FrameQueueBounded(labels: seq<Label>)
    ensures var m := Run(labels);
            |m.frames| <= 256 && TailOf(m.frames, m.emitted) && (m.framesClosed ==> m.frames == [])
  {
    hide Step;
    if labels != [] {
      FrameQueueBounded(labels[..|labels| - 1]);
      StepFrames(Run(labels[..|labels| - 1]), labels[|labels| - 1]);
    }
  }

  /** The queue is the end of what was queued. */
  ghost predicate TailOf(frames: seq<Frame>, emitted: seq<Frame>) {
    |frames| <= |emitted| && frames == emitted[|emitted| - |frames|..]
  }

  lemma TailGrows(frames: seq<Frame>, emitted: seq<Frame>, f: Frame)
    requires TailOf(frames, emitted)
    ensures TailOf(frames + [f], emitted + [f])
  {
  }

  lemma TailShrinks(frames: seq<Frame>, emitted: seq<Frame>)
    requires TailOf(frames, emitted) && frames != []
    ensures TailOf(frames[1..], emitted)
  {
  }

  /** What a step does to the frame queue. */
  lemma StepQueue(m: State, e: Label)
    requires Wf(m)
    ensures var m' := Step(m, e);
            if e.StopSending? then m'.frames == [] && m'.emitted == m.emitted
            else if e.SendFrame? && m.frames != [] then
              m'.frames == m.frames[1..] && m'.emitted == m.emitted && m'.framesClosed == m.framesClosed
            else
              && m'.framesClosed == m.framesClosed
              && ((m'.frames == m.frames && m'.emitted == m.emitted) ||
                  (!m.framesClosed && |m.frames| < 256 && |m'.emitted| > 0
                   && var f := m'.emitted[|m'.emitted| - 1]; m'.frames == m.frames + [f] && m'.emitted == m.emitted + [f]))
  {
    hide ReadOnce, SettledExcept, Wf, Closing;
  }

  lemma StepFrames(m: State, e: Label)
    requires Wf(m) && |m.frames| <= 256 && TailOf(m.frames, m.emitted) && (m.framesClosed ==> m.frames == [])
    ensures var m' := Step(m, e);
            |m'.frames| <= 256 && TailOf(m'.frames, m'.emitted) && (m'.framesClosed ==> m'.frames == [])
  {
    hide Step, Wf, TailOf;
    StepQueue(m, e);
    var m' := Step(m, e);
    if m.frames != [] {
      TailShrinks(m.frames, m.emitted);
    }
    if |m'.emitted| > 0 {
      TailGrows(m.frames, m.emitted, m'.emitted[|m'.emitted| - 1]);
    }
    TailOfNothing(m.emitted);
  }

  lemma TailOfNothing(emitted: seq<Frame>)
    ensures TailOf([], emitted)
  {
  }

  /** Opening: a SYN with the new stream's id is queued and the stream is registered under it, empty and
      open at both ends; or, if the session is closed or the frame queue cannot take the SYN, there is no
      new stream and no frame. */
  lemma {:induction false} OpenOutcome(labels: seq<Label>)
    ensures var m, m' := Run(labels), Step(Run(labels), Open);
            var h := |m.streams|;
            if !m.closed && !m.framesClosed && |m.frames| < 256 then
              && |m'.streams| == h + 1 && m'.streams[..h] == m.streams
              && m'.emitted == m.emitted + [Frame(0, m'.streams[h].id, [])]
              && m'.streams[h].id == m.nextId && Registered(m', h)
              && MuxRuns.View(m', h) == Solo(Stream(m.nextId, [], StillOpen, [], false, false, true, m.opens, [], false, []), true, false)
            else
              && m'.streams == m.streams && m'.emitted == m.emitted
              && m'.table == (if m.closed then m.table else m.table - {m.nextId})
  {
    hide Run;
  }

  function Unread(s: Stream): seq<byte> { s.partial + Concat(s.queue) }

  /** Reading: no byte is lost, repeated or reordered; at most `n` come at a time, and at least one if the
      next chunk has any; and the end is seen exactly when nothing is left and the stream is not
      registered any more, because of its FIN, an eviction, or the end of the session. */
  lemma {:induction false} ReadOutcome(labels: seq<Label>, h: nat, n: nat)
    requires Run(labels).opens <= MAX_OPENS && Live(Run(labels), h)
    ensures var m, m' := Run(labels), Step(Run(labels), Read(h, n));
            && h < |m'.streams|
            && var s, s' := m.streams[h], m'.streams[h];
               && s.read <= s'.read && |s'.read| <= |s.read| + n
               && s'.read + Unread(s') == s.read + Unread(s)
               && (n > 0 && (s.partial != [] || (s.queue != [] && s.queue[0] != [])) ==> |s'.read| > |s.read|)
               && (s'.readClosed <==> s.readClosed || (s.partial == [] && s.queue == [] && !Registered(m, h)))
  {
    hide Run;
    RunSolo(labels);
    var m := Run(labels);
    var s := m.streams[h];
    assert SoloInv(MuxRuns.View(m, h));
    ReadMoves(s, Attached(m, h), m.closed, n);
    hide ReadOnce, Accounted, Unread;
  }

  lemma ReadMoves(s: Stream, attached: bool, closed: bool, n: nat)
    requires s.readClosed ==> s.queue == [] && s.partial == []
    ensures var s' := ReadOnce(s, attached, closed, n);
            && s.read <= s'.read && |s'.read| <= |s.read| + n
            && s'.read + Unread(s') == s.read + Unread(s)
            && (n > 0 && (s.partial != [] || (s.queue != [] && s.queue[0] != [])) ==> |s'.read| > |s.read|)
            && (s'.readClosed <==> s.readClosed || (s.partial == [] && s.queue == [] && (!attached || closed)))
  {
    hide Concat;
    var s' := ReadOnce(s, attached, closed, n);
    if !s.readClosed && s.partial != [] {
      var k := if |s.partial| < n then |s.partial| else n;
      TakeSome(s.read, s.partial, Concat(s.queue), k);
    } else if !s.readClosed && s.queue != [] {
      var chunk := s.queue[0];
      ConcatHead(s.queue);
      TakeSome(s.read, chunk, Concat(s.queue[1..]), if |chunk| < n then |chunk| else n);
      assert Unread(s) == chunk + Concat(s.queue[1..]);
    }
  }

  lemma TakeSome(read: seq<byte>, chunk: seq<byte>, rest: seq<byte>, k: nat)
    requires k <= |chunk|
    ensures (read + chunk[..k]) + (chunk[k..] + rest) == read + (chunk + rest)
    ensures read <= read + chunk[..k] && |read + chunk[..k]| == |read| + k
  {
    assert chunk[..k] + chunk[k..] == chunk;
  }

  /** Shutting the write half down: a FIN is queued, once, unless nobody sends frames any more; with a full
      queue it has to wait. Writes are refused from then on. */
  lemma {:induction false} ShutdownOutcome(labels: seq<Label>, h: nat, data: seq<byte>)
    requires Live(Run(labels), h)
    ensures var m, m' := Run(labels), Step(Run(labels), Shutdown(h));
            var s := m.streams[h];
            if s.writeClosed || (!m.framesClosed && |m.frames| >= 256) then m' == m
            else
              && m'.emitted == (if m.framesClosed then m.emitted else m.emitted + [Frame(1, s.id, [])])
              && m'.table == m.table && m'.streams == m.streams[h := s.(writeClosed := true)]
              && Step(m', Write(h, data)) == m'
  {
    hide Run;
  }

  /** Dropping a stream: it is not registered any more, and the agent is told with a FIN unless it was
      before or the frame does not fit. */
  lemma {:induction false} DropOutcome(labels: seq<Label>, h: nat)
    requires Live(Run(labels), h)
    ensures var m, m' := Run(labels), Step(Run(labels), DropStream(h));
            var s := m.streams[h];
            && !Registered(m', h) && !Live(m', h)
            && m'.emitted == if !s.writeClosed && !m.framesClosed && |m.frames| < 256
                             then m.emitted + [Frame(1, s.id, [])] else m.emitted
  {
    hide Run;
  }

  /** A FIN frame unregisters the stream that has its id, and does nothing else but record why. */
  lemma {:induction false} FinOutcome(labels: seq<Label>, h: nat)
    requires Run(labels).opens <= MAX_OPENS && h < |Run(labels).streams|
    ensures var m := Run(labels);
            var m' := Step(m, Dispatch(Frame(1, m.streams[h].id, [])));
            && h < |m'.streams| && !Registered(m', h) && m'.emitted == m.emitted
            && m'.streams[h] == if Registered(m, h) then m.streams[h].(tag := Clean) else m.streams[h]
  {
    hide Run, IdInv;
    RunIds(labels);
    RunSolo(labels);
    var m := Run(labels);
    assert SoloInv(MuxRuns.View(m, h));
    OwnerOf(m, m.streams[h].id, h);
    hide Accounted;
  }
}
