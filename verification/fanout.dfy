/** The output fan-out of src/channels.rs: one bounded queue per subscriber, eviction when it fills,
and a close in two steps. */
module Fanout {

  /** How a subscriber came to be without a sender. `Refused` subscribed to a closed fan-out. */
  datatype Cause = Attached | Evicted | Gone | Cleared | Refused

  /** One `OutputStream`. The last four fields are history: what was consumed, the position in the
      session's output at which it subscribed and at which it was detached, and why. */
  datatype Subscriber<C> = Subscriber(
    capacity: nat,
    queue: seq<C>,
    lagged: bool,
    receiving: bool,
    received: seq<C>,
    start: nat,
    end: nat,
    cause: Cause)

  /** `clearing` is the closer that won the swap and has not cleared the list yet; `clearedAt` is
      how much had been sent when it did. */
  datatype State<C> = State(
    subscribers: seq<nat>,
    streams: seq<Subscriber<C>>,
    closed: bool,
    clearing: bool,
    sent: seq<C>,
    clearedAt: seq<nat>)

  function Initial<C>(): State<C> { State([], [], false, false, [], []) }

  // -------------------------------------------------------------------------
  // Steps
  // -------------------------------------------------------------------------

  function Subscribed<C>(f: State<C>, capacity: nat): State<C> {
    var here := |f.sent|;
    if f.closed then
      f.(streams := f.streams + [Subscriber(1, [], false, true, [], here, here, Refused)])
    else
      f.(subscribers := f.subscribers + [|f.streams|],
         streams := f.streams + [Subscriber(if capacity < 1 then 1 else capacity, [], false, true, [], here, here, Attached)])
  }

  /** `try_send` would succeed. */
  predicate Accepts<C>(s: Subscriber<C>) { s.receiving && |s.queue| < s.capacity }

  /** One subscriber's turn in `send`; `at` is the position of the chunk in the session's output. */
  function Offered<C>(s: Subscriber<C>, data: C, at: nat): Subscriber<C> {
    if Accepts(s) then s.(queue := s.queue + [data])
    else if s.receiving then s.(lagged := true, end := at, cause := Evicted)
    else s.(end := at, cause := Gone)
  }

  /** `retain`: the subscribers that stay. */
  function Retained<C>(subscribers: seq<nat>, streams: seq<Subscriber<C>>): (kept: seq<nat>)
    ensures forall i :: i in kept ==> i in subscribers
  {
    if subscribers == [] then []
    else
      var i := subscribers[|subscribers| - 1];
      var before := Retained(subscribers[..|subscribers| - 1], streams);
      if i < |streams| && Accepts(streams[i]) then before + [i] else before
  }

  function Sent<C>(f: State<C>, data: C): State<C> {
    f.(sent := f.sent + [data],
       subscribers := Retained(f.subscribers, f.streams),
       streams := OfferedTo(f.streams, f.subscribers, data, |f.sent|))
  }

  /** Every listed stream has had its turn. */
  function OfferedTo<C>(streams: seq<Subscriber<C>>, ids: seq<nat>, data: C, at: nat): (r: seq<Subscriber<C>>)
    ensures |r| == |streams|
    ensures forall i :: 0 <= i < |r| ==> r[i] == if i in ids then Offered(streams[i], data, at) else streams[i]
  {
    seq(|streams|, i requires 0 <= i < |streams| => if i in ids then Offered(streams[i], data, at) else streams[i])
  }

  function Received<C>(s: Subscriber<C>): Subscriber<C> {
    if s.receiving && s.queue != [] then s.(queue := s.queue[1..], received := s.received + [s.queue[0]]) else s
  }

  function ClearedAll<C>(f: State<C>): State<C> {
    f.(clearing := false, subscribers := [], clearedAt := [|f.sent|], streams := Detached(f.streams, |f.sent|))
  }

  /** The history of a `clear`: every stream still attached loses its sender. */
  function Detached<C>(streams: seq<Subscriber<C>>, at: nat): (r: seq<Subscriber<C>>)
    ensures |r| == |streams|
    ensures forall i :: 0 <= i < |r| ==>
              r[i] == if streams[i].cause.Attached? then streams[i].(end := at, cause := Cleared) else streams[i]
  {
    seq(|streams|, i requires 0 <= i < |streams| =>
          if streams[i].cause.Attached? then streams[i].(end := at, cause := Cleared) else streams[i])
  }

  datatype Label<C> =
    | Subscribe(capacity: nat)
    | Send(data: C)
    | Receive(i: nat)
    | DropReceiver(i: nat)
    | SetClosed
    | Clear

  function Step<C>(f: State<C>, event: Label<C>): State<C> {
    match event
    case Subscribe(capacity) => Subscribed(f, capacity)
    case Send(data) => Sent(f, data)
    case Receive(i) => if i < |f.streams| then f.(streams := f.streams[i := Received(f.streams[i])]) else f
    case DropReceiver(i) =>
      if i < |f.streams| then f.(streams := f.streams[i := f.streams[i].(receiving := false)]) else f
    case SetClosed => if f.closed then f else f.(closed := true, clearing := true)
    case Clear => if f.clearing then ClearedAll(f) else f
  }

  function Run<C>(labels: seq<Label<C>>): State<C> {
    if labels == [] then Initial() else Step(Run(labels[..|labels| - 1]), labels[|labels| - 1])
  }

  // -------------------------------------------------------------------------
  // The method with a loop
  // -------------------------------------------------------------------------

  class OutputFanout<C> {
    var subscribers: seq<nat>
    var streams: seq<Subscriber<C>>
    var closed: bool
    var clearing: bool
    var sent: seq<C>
    var clearedAt: seq<nat>

    function View(): State<C> reads this { State(subscribers, streams, closed, clearing, sent, clearedAt) }

    ghost predicate Valid() reads this { Listed(View()) }

    constructor ()
      ensures View() == Initial() && Valid()
    {
      subscribers, streams, closed, clearing, sent, clearedAt := [], [], false, false, [], [];
    }

    method SubscribeTo(capacity: nat) returns (i: nat)
      requires Valid()
      modifies this
      ensures View() == Subscribed(old(View()), capacity) && Valid()
      ensures i == |old(streams)| && (i in subscribers <==> !closed)
    {
      SubscribeListed(View(), capacity);
      i := |streams|;
      if closed {
        streams := streams + [Subscriber(1, [], false, true, [], |sent|, |sent|, Refused)];
        return;
      }
      subscribers := subscribers + [i];
      streams := streams + [Subscriber(if capacity < 1 then 1 else capacity, [], false, true, [], |sent|, |sent|, Attached)];
    }

    /** `send`: offer the chunk to each subscriber in turn, keeping those that took it. */
    method SendAll(data: C)
      requires Valid()
      modifies this
      ensures View() == Sent(old(View()), data) && Valid()
    {
      hide Offered, Accepts, Retained, Listed;
      ghost var start := View();
      var kept: seq<nat> := [];
      var n := 0;
      NoneOffered(streams, data, |sent|);
      while n < |subscribers|
        invariant n <= |subscribers|
        invariant View() == start.(streams := OfferedTo(start.streams, subscribers[..n], data, |sent|))
        invariant kept == Retained(subscribers[..n], start.streams)
      {
        var i := subscribers[n];
        ListedAt(start, n);
        OfferNext(start.streams, subscribers, n, data, |sent|);
        RetainNext(start.streams, subscribers, n);
        if Accepts(streams[i]) {
          kept := kept + [i];
        }
        streams := streams[i := Offered(streams[i], data, |sent|)];
        n := n + 1;
      }
      assert subscribers[..n] == subscribers;
      sent := sent + [data];
      subscribers := kept;
      RetainedListed(start);
      assert View() == Sent(start, data);
    }

    /** `close`, its two steps in a row. */
    method CloseAll()
      requires Valid()
      modifies this
      ensures View() == if old(closed) then old(View()) else ClearedAll(Step(old(View()), SetClosed))
      ensures Valid()
    {
      if closed {
        return;
      }
      closed := true;
      subscribers := [];
      streams, clearing, clearedAt := Detached(streams, |sent|), false, [|sent|];
    }
  }

  // -------------------------------------------------------------------------
  // The subscriber list
  // -------------------------------------------------------------------------

  /** The list has no duplicates and names exactly the attached streams. */
  ghost predicate Listed<C>(f: State<C>) {
    && (forall i, j :: 0 <= i < j < |f.subscribers| ==> f.subscribers[i] != f.subscribers[j])
    && (forall i :: i in f.subscribers ==> i < |f.streams|)
    && (forall i :: 0 <= i < |f.streams| ==> (f.streams[i].cause.Attached? <==> i in f.subscribers))
  }

  lemma SubscribeListed<C>(f: State<C>, capacity: nat)
    requires Listed(f)
    ensures Listed(Subscribed(f, capacity))
    ensures |f.streams| in Subscribed(f, capacity).subscribers <==> !f.closed
  {
    var f' := Subscribed(f, capacity);
    forall k | 0 <= k < |f.subscribers| ensures f.subscribers[k] < |f.streams| {
      assert f.subscribers[k] in f.subscribers;
    }
    assert !f.closed ==> f'.subscribers[|f.subscribers|] == |f.streams|;
  }

  lemma NoneOffered<C>(streams: seq<Subscriber<C>>, data: C, at: nat)
    ensures OfferedTo(streams, [], data, at) == streams
    ensures Retained([], streams) == []
  {
  }

  lemma ListedAt<C>(f: State<C>, n: nat)
    requires Listed(f) && n < |f.subscribers|
    ensures f.subscribers[n] < |f.streams| && f.subscribers[n] !in f.subscribers[..n]
  {
    assert f.subscribers[n] in f.subscribers;
  }

  lemma RetainNext<C>(streams: seq<Subscriber<C>>, ids: seq<nat>, n: nat)
    requires n < |ids| && ids[n] < |streams|
    ensures Retained(ids[..n + 1], streams) ==
            Retained(ids[..n], streams) + if Accepts(streams[ids[n]]) then [ids[n]] else []
  {
    assert ids[..n + 1][..n] == ids[..n];
  }

  lemma OfferNext<C>(streams: seq<Subscriber<C>>, ids: seq<nat>, n: nat, data: C, at: nat)
    requires n < |ids| && ids[n] < |streams| && ids[n] !in ids[..n]
    ensures var i, now := ids[n], OfferedTo(streams, ids[..n], data, at);
            && now[i] == streams[i]
            && OfferedTo(streams, ids[..n + 1], data, at) == now[i := Offered(now[i], data, at)]
  {
    hide Offered;
    var i, now := ids[n], OfferedTo(streams, ids[..n], data, at);
    assert ids[..n + 1] == ids[..n] + [i];
    var next := OfferedTo(streams, ids[..n + 1], data, at);
    forall j | 0 <= j < |streams| ensures next[j] == now[i := Offered(now[i], data, at)][j] {
      assert j in ids[..n + 1] <==> j in ids[..n] || j == i;
    }
  }

  lemma {:induction false} RetainedMembers<C>(ids: seq<nat>, streams: seq<Subscriber<C>>)
    requires forall i, j :: 0 <= i < j < |ids| ==> ids[i] != ids[j]
    ensures var kept := Retained(ids, streams);
            && (forall i, j :: 0 <= i < j < |kept| ==> kept[i] != kept[j])
            && (forall i :: i in kept <==> i in ids && i < |streams| && Accepts(streams[i]))
  {
    if ids != [] {
      var n := |ids| - 1;
      RetainedMembers(ids[..n], streams);
      assert ids == ids[..n] + [ids[n]];
      assert ids[n] !in ids[..n];
    }
  }

  lemma RetainedListed<C>(f: State<C>)
    requires Listed(f)
    ensures forall data: C :: Listed(Sent(f, data))
  {
    RetainedMembers(f.subscribers, f.streams);
    forall data: C ensures Listed(Sent(f, data)) {
    }
  }

  // -------------------------------------------------------------------------
  // Invariant
  // -------------------------------------------------------------------------

  /** What a subscriber has been given so far. */
  function Given<C>(s: Subscriber<C>): seq<C> { s.received + s.queue }

  /** A subscriber has been given exactly the session's output from its subscription to now, or to
      where it was detached. */
  ghost predicate StreamInv<C>(s: Subscriber<C>, sent: seq<C>, clearedAt: seq<nat>) {
    var end := if s.cause.Attached? then |sent| else s.end;
    && s.start <= end <= |sent|
    && Given(s) == sent[s.start..end]
    && (s.lagged <==> s.cause.Evicted?)
    && (s.cause.Evicted? ==> s.end < |sent|)
    && (s.cause.Cleared? ==> clearedAt == [s.end])
    && (s.cause.Gone? ==> !s.receiving)
    && |s.queue| <= s.capacity
  }

  ghost predicate Inv<C>(f: State<C>) {
    && Listed(f)
    && (forall i :: 0 <= i < |f.streams| ==> StreamInv(f.streams[i], f.sent, f.clearedAt))
    && |f.clearedAt| <= 1
    && (f.clearedAt != [] ==> f.subscribers == [] && f.closed && !f.clearing)
    && (f.clearing ==> f.closed)
    && (f.closed && !f.clearing ==> f.clearedAt != [])
  }

  lemma OfferKeeps<C>(s: Subscriber<C>, sent: seq<C>, data: C, clearedAt: seq<nat>)
    requires StreamInv(s, sent, clearedAt)
    ensures s.cause.Attached? ==> StreamInv(Offered(s, data, |sent|), sent + [data], clearedAt)
    ensures !s.cause.Attached? ==> StreamInv(s, sent + [data], clearedAt)
  {
    if s.cause.Attached? {
      assert (sent + [data])[s.start..|sent| + 1] == sent[s.start..] + [data];
      assert sent[s.start..|sent|] == sent[s.start..];
      assert (s.received + s.queue) + [data] == s.received + (s.queue + [data]);
      assert (sent + [data])[s.start..|sent|] == sent[s.start..];
    } else {
      assert (sent + [data])[s.start..s.end] == sent[s.start..s.end];
    }
  }

  lemma ReceiveKeeps<C>(s: Subscriber<C>, sent: seq<C>, clearedAt: seq<nat>)
    requires StreamInv(s, sent, clearedAt)
    ensures StreamInv(Received(s), sent, clearedAt)
  {
    if s.queue != [] {
      assert s.received + s.queue == (s.received + [s.queue[0]]) + s.queue[1..];
    }
  }

  lemma SendKeeps<C>(f: State<C>, data: C)
    requires Inv(f)
    ensures Inv(Sent(f, data))
  {
    hide StreamInv, Offered;
    RetainedListed(f);
    var f' := Sent(f, data);
    forall i | 0 <= i < |f'.streams| ensures StreamInv(f'.streams[i], f'.sent, f'.clearedAt) {
      OfferKeeps(f.streams[i], f.sent, data, f.clearedAt);
    }
  }

  lemma SubscribeKeeps<C>(f: State<C>, capacity: nat)
    requires Inv(f)
    ensures Inv(Subscribed(f, capacity))
  {
    hide Listed;
    SubscribeListed(f, capacity);
    assert f.sent[|f.sent|..|f.sent|] == [];
    if !f.closed {
      ClosedAfterClear(f);
    }
  }

  lemma ClosedAfterClear<C>(f: State<C>)
    requires Inv(f) && !f.closed
    ensures f.clearedAt == []
  {
  }

  lemma ClearKeeps<C>(f: State<C>)
    requires Inv(f) && f.clearing
    ensures Inv(ClearedAll(f))
  {
    assert f.clearedAt == [];
  }

  lemma StepKeeps<C>(f: State<C>, event: Label<C>)
    requires Inv(f)
    ensures Inv(Step(f, event))
  {
    hide Sent, Retained, Subscribed, ClearedAll, Received;
    match event
    case Subscribe(capacity) => SubscribeKeeps(f, capacity);
    case Send(data) => SendKeeps(f, data);
    case Receive(i) =>
      if i < |f.streams| {
        ReceiveKeeps(f.streams[i], f.sent, f.clearedAt);
        ReceivedCause(f.streams[i]);
      }
    case DropReceiver(i) =>
    case SetClosed =>
    case Clear => if f.clearing { ClearKeeps(f); }
  }

  lemma ReceivedCause<C>(s: Subscriber<C>)
    ensures Received(s).cause == s.cause
  {
  }

  lemma {:induction false} RunInv<C>(labels: seq<Label<C>>)
    ensures Inv(Run(labels))
  {
    hide Step, Inv;
    if labels == [] {
      InitialInv<C>();
    } else {
      RunInv(labels[..|labels| - 1]);
      StepKeeps(Run(labels[..|labels| - 1]), labels[|labels| - 1]);
    }
  }

  lemma InitialInv<C>()
    ensures Inv(Initial<C>())
  {
  }

  // -------------------------------------------------------------------------
  // Main results
  // -------------------------------------------------------------------------

  /** Lossless or visibly evicted: over every interleaving, each subscriber has been given one
      contiguous run of the session's output starting where it subscribed. It is lagged exactly when
      a full queue made it lose the next chunk. A detached one that is not lagged and still has its
      reader was given everything up to the close, or subscribed after it. */
  lemma {:induction false} LosslessOrEvicted<C>(labels: seq<Label<C>>, i: nat)
    requires i < |Run(labels).streams|
    ensures var f := Run(labels);
            var s := f.streams[i];
            && s.start + |s.received + s.queue| <= |f.sent|
            && s.received + s.queue == f.sent[s.start..s.start + |s.received + s.queue|]
            && (i in f.subscribers ==> s.start + |s.received + s.queue| == |f.sent| && !s.lagged)
            && (s.lagged <==> s.cause.Evicted?)
            && (s.lagged ==> s.start + |s.received + s.queue| < |f.sent| && i !in f.subscribers)
            && (i !in f.subscribers && !s.lagged && s.receiving ==>
                s.cause.Refused? || f.clearedAt == [s.start + |s.received + s.queue|])
  {
    hide Run;
    RunInv(labels);
    var f := Run(labels);
    assert StreamInv(f.streams[i], f.sent, f.clearedAt);
  }

  /** Lagged is never set by anything but a chunk that found the queue full, and never unset. */
  lemma {:induction false} LaggedMeansDropped<C>(labels: seq<Label<C>>, event: Label<C>, i: nat)
    requires i < |Run(labels).streams|
    ensures var f, f' := Run(labels), Step(Run(labels), event);
            && i < |f'.streams|
            && (f.streams[i].lagged ==> f'.streams[i].lagged)
            && (!f.streams[i].lagged ==>
                (f'.streams[i].lagged <==>
                 && event.Send? && i in f.subscribers && f.streams[i].receiving
                 && |f.streams[i].queue| >= f.streams[i].capacity))
  {
    hide Run, Retained;
    RunInv(labels);
  }

  /** Nobody is attached once a close has completed, whatever was attempted since. */
  lemma {:induction false} NobodyAttachedAfterClose<C>(labels: seq<Label<C>>)
    requires Run(labels).closed && !Run(labels).clearing
    ensures Run(labels).subscribers == []
    ensures forall i :: 0 <= i < |Run(labels).streams| ==> !Run(labels).streams[i].cause.Attached?
  {
    hide Run;
    RunInv(labels);
  }

  /** Subscribing, in every reachable state: to an open fan-out with a queue of at least one place, from the
      next chunk on; to a closed one without ever being attached. */
  lemma {:induction false} SubscribeOutcome<C>(labels: seq<Label<C>>, capacity: nat)
    ensures var f, f' := Run(labels), Step(Run(labels), Subscribe(capacity));
            var i := |f.streams|;
            && |f'.streams| == i + 1 && f'.streams[..i] == f.streams && f'.sent == f.sent
            && (i in f'.subscribers <==> !f.closed)
            && var s := f'.streams[i];
               && s.queue == [] && s.received == [] && !s.lagged && s.receiving && s.start == |f.sent|
               && (!f.closed ==> s.capacity == if capacity == 0 then 1 else capacity)
  {
    hide Run;
    RunInv(labels);
    SubscribeListed(Run(labels), capacity);
    hide Listed, StreamInv;
  }

  /** Sending, to each subscriber for itself: it gets the chunk at the end of its queue and stays if its
      reader is there and the queue has a place; otherwise it goes. Nobody else is touched. */
  lemma {:induction false} SendOutcome<C>(labels: seq<Label<C>>, data: C, i: nat)
    requires i < |Run(labels).streams|
    ensures var f, f' := Run(labels), Step(Run(labels), Send(data));
            && i < |f'.streams| && f'.sent == f.sent + [data]
            && var s, s' := f.streams[i], f'.streams[i];
               if i !in f.subscribers then s' == s && i !in f'.subscribers
               else if s.receiving && |s.queue| < s.capacity then s' == s.(queue := s.queue + [data]) && i in f'.subscribers
               else i !in f'.subscribers && s'.queue == s.queue && s'.lagged == s.receiving
  {
    hide Run, Retained;
    RunInv(labels);
    RetainedMembers(Run(labels).subscribers, Run(labels).streams);
  }

  /** Receiving takes the head of the queue, for as long as there is one: also after an eviction or a
      close, which leave the queue alone. */
  lemma {:induction false} ReceiveOutcome<C>(labels: seq<Label<C>>, i: nat)
    requires i < |Run(labels).streams|
    ensures var f := Run(labels);
            var s, s' := f.streams[i], Step(f, Receive(i)).streams[i];
            && (s.receiving && s.queue != [] ==> s' == s.(queue := s.queue[1..], received := s.received + [s.queue[0]]))
            && (!s.receiving || s.queue == [] ==> s' == s)
            && Step(f, Clear).streams[i].queue == s.queue
  {
    hide Run;
  }
}
