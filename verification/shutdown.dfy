/** The latching broadcast of src/shutdown.rs, one shared-memory operation per step, for any number of
callers and waiters. */
module Shutdown {

  datatype CallerPc = Swapping | Notifying | Done

  datatype WaiterPc = Unqueued | Enabled | Parked | Returned

  datatype Waiter = Waiter(pc: WaiterPc, notified: bool)

  datatype Signal = Signal(triggered: bool, callers: map<nat, CallerPc>, waiters: map<nat, Waiter>)

  const INITIAL := Signal(false, map[], map[])

  datatype Label =
    | StartShutdown(p: nat)
    | CallerStep(p: nat)
    | StartWait(w: nat)
    | WaiterStep(w: nat)
    | Cancel(w: nat)

  function Mark(x: Waiter): Waiter { if x.pc.Enabled? || x.pc.Parked? then x.(notified := true) else x }

  /** `shutdown`: swap, then notify if the swap found the latch open. */
  function CallerStepped(s: Signal, p: nat): Signal
    requires p in s.callers
  {
    match s.callers[p]
    case Swapping => s.(triggered := true, callers := s.callers[p := if s.triggered then Done else Notifying])
    case Notifying => s.(callers := s.callers[p := Done], waiters := map w | w in s.waiters :: Mark(s.waiters[w]))
    case Done => s
  }

  /** `cancelled`: enable, load the flag, park. */
  function WaiterNext(x: Waiter, triggered: bool): Waiter {
    match x.pc
    case Unqueued => Waiter(Enabled, false)
    case Enabled => x.(pc := if triggered then Returned else Parked)
    case Parked => if x.notified then x.(pc := Returned) else x
    case Returned => x
  }

  function Step(s: Signal, event: Label): Signal {
    match event
    case StartShutdown(p) => if p in s.callers then s else s.(callers := s.callers[p := Swapping])
    case CallerStep(p) => if p in s.callers then CallerStepped(s, p) else s
    case StartWait(w) => if w in s.waiters then s else s.(waiters := s.waiters[w := Waiter(Unqueued, false)])
    case WaiterStep(w) =>
      if w in s.waiters then s.(waiters := s.waiters[w := WaiterNext(s.waiters[w], s.triggered)]) else s
    case Cancel(w) => s.(waiters := s.waiters - {w})
  }

  function Run(labels: seq<Label>): Signal {
    if labels == [] then INITIAL else Step(Run(labels[..|labels| - 1]), labels[|labels| - 1])
  }

  ghost predicate Announcing(s: Signal) { exists p :: p in s.callers && s.callers[p] == Notifying }

  predicate Asleep(x: Waiter) { x.pc.Parked? && !x.notified }

  ghost predicate Inv(s: Signal) {
    && (forall p :: p in s.callers && !s.callers[p].Swapping? ==> s.triggered)
    && (forall w :: w in s.waiters && (s.waiters[w].notified || s.waiters[w].pc.Returned?) ==> s.triggered)
    && (forall w :: w in s.waiters && Asleep(s.waiters[w]) && s.triggered ==> Announcing(s))
  }

  lemma CallerKeeps(s: Signal, p: nat)
    requires Inv(s) && p in s.callers
    ensures Inv(CallerStepped(s, p))
  {
    var s' := CallerStepped(s, p);
    match s.callers[p]
    case Swapping =>
      if s.triggered {
        if Announcing(s) {
          var q :| q in s.callers && s.callers[q] == Notifying;
          assert q in s'.callers && s'.callers[q] == Notifying;
        }
      } else {
        assert p in s'.callers && s'.callers[p] == Notifying;
      }
    case Notifying =>
      forall w | w in s'.waiters ensures !Asleep(s'.waiters[w]) {
        assert s'.waiters[w] == Mark(s.waiters[w]);
      }
    case Done =>
  }

  lemma StepKeeps(s: Signal, event: Label)
    requires Inv(s)
    ensures Inv(Step(s, event))
  {
    hide CallerStepped;
    var s' := Step(s, event);
    match event
    case CallerStep(p) => if p in s.callers { CallerKeeps(s, p); }
    case StartShutdown(p) =>
      assert forall q :: q in s.callers && s.callers[q] == Notifying ==> q in s'.callers && s'.callers[q] == Notifying;
    case StartWait(w) => assert Announcing(s') <==> Announcing(s);
    case WaiterStep(w) => assert Announcing(s') <==> Announcing(s);
    case Cancel(w) => assert Announcing(s') <==> Announcing(s);
  }

  lemma {:induction false} RunInv(labels: seq<Label>)
    ensures Inv(Run(labels))
  {
    hide Step;
    if labels != [] {
      RunInv(labels[..|labels| - 1]);
      StepKeeps(Run(labels[..|labels| - 1]), labels[|labels| - 1]);
    }
  }

  /** A call to `shutdown` that is past its swap has triggered the signal, and the latch stays. Once no call
      is in the middle of notifying, nobody sleeps on a triggered signal: every waiter returns within two
      steps of its own. A waiter returns only from a triggered one. */
  lemma {:induction false} NoLostCancellation(labels: seq<Label>, w: nat, p: nat, event: Label)
    ensures var s := Run(labels);
            && (p in s.callers ==> Step(s, CallerStep(p)).triggered || s.callers[p].Done?)
            && (p in s.callers && !s.callers[p].Swapping? ==> s.triggered)
            && (s.triggered ==> Step(s, event).triggered)
            && (w in s.waiters && s.triggered && (forall p :: p in s.callers ==> !s.callers[p].Notifying?) ==>
                && !Asleep(s.waiters[w])
                && var s' := Step(Step(s, WaiterStep(w)), WaiterStep(w)); w in s'.waiters && s'.waiters[w].pc.Returned?)
            && (w in s.waiters && s.waiters[w].pc.Returned? ==> s.triggered)
  {
    hide Run;
    RunInv(labels);
  }
}
