/** The reconnect supervisor of src/reconnect.rs. Jitter, the service's answers and shutdown are a
script; a script that runs out is a supervisor that is still trying. Durations are nanoseconds. */
module Reconnect {
  import opened Session
  import opened Wrappers

  const MILLISECOND: nat := 1_000_000

  datatype Config = Config(maxAttempts: nat, initialDelay: nat, maxDelay: nat)

  /** A session: its id, the identity of the stream state (`Continuity`) that it carries, and the
      channel it runs on. */
  datatype Handle = Handle(id: nat, continuity: nat, channel: nat)

  /** What the service and the network answer to a resume: the call fails, no usable stream URL and
      token come back, the channel does not open, or it opens. */
  datatype Answer = CallFails(retriable: bool) | NoToken | OpenFails(retriable: bool) | Opens(channel: nat)

  /** What `resume_session` returns: an open session, a session that is gone, or an error. */
  datatype Resumption = Alive(session: Handle) | Gone | Broken(retriable: bool)

  /** `resume_session`: a session that opens keeps the id and the stream state it was given. */
  function ResumeSession(id: nat, continuity: nat, answer: Answer): Resumption {
    match answer
    case CallFails(retriable) => Broken(retriable)
    case NoToken => Gone
    case OpenFails(retriable) => Broken(retriable)
    case Opens(channel) => Alive(Handle(id, continuity, channel))
  }

  /** One resume attempt for the lost session. */
  function Resume(lost: Handle, answer: Answer): Resumption { ResumeSession(lost.id, lost.continuity, answer) }

  /** An error that leaves the session to be resumed by a later attempt. */
  predicate Retriable(answer: Answer) {
    (answer.CallFails? || answer.OpenFails?) && answer.retriable
  }

  datatype StartResult = StartOk(session: Handle) | StartPermanent | StartRetriable

  /** What happens in one attempt: the random draw, a shutdown during the sleep, and the answers. */
  datatype Attempt = Attempt(draw: nat, shutdown: bool, resume: Answer, start: StartResult)

  /** Public events, plus the calls made to the service. `ceiling` is the bound the delay was drawn
      under. */
  datatype Event =
    | Disconnected(reason: CloseReason)
    | Reconnecting(attempt: nat, delay: nat, ceiling: nat)
    | CallResume(attempt: nat, session: Handle)
    | CallStart(attempt: nat)
    | Resumed(id: nat, attempts: nat)
    | Reconnected(id: nat, attempts: nat)
    | GaveUp(attempts: nat)

  datatype Outcome = Adopted(session: Handle, resumed: bool) | Exhausted | ShutDown | Denied | StillTrying

  function Min(a: nat, b: nat): nat { if a < b then a else b }

  function Pow2(k: nat): nat { if k == 0 then 1 else 2 * Pow2(k - 1) }

  /** A uniform sample from [0, ceiling], in whole milliseconds. */
  function Jitter(ceiling: nat, draw: nat): (delay: nat)
    ensures delay <= ceiling
  {
    var millis := ceiling / MILLISECOND;
    if millis == 0 then 0 else draw % (millis + 1) * MILLISECOND
  }

  /** The backoff ceiling of the k-th attempt, in closed form. */
  function Ceiling(c: Config, k: nat): nat
    requires k >= 1
  {
    if k == 1 then c.initialDelay else Min(c.initialDelay * Pow2(k - 1), c.maxDelay)
  }

  lemma CeilingDoubles(c: Config, k: nat)
    requires k >= 1
    ensures Ceiling(c, k + 1) == Min(Ceiling(c, k) * 2, c.maxDelay)
  {
    var p := Pow2(k - 1);
    assert Pow2(k) == 2 * p;
    assert c.initialDelay * (2 * p) == c.initialDelay * p * 2;
    if k == 1 {
      assert p == 1;
    }
  }

  /** The documented cap holds for every delay that any attempt can draw exactly when the initial delay,
      in whole milliseconds, respects it: the first attempt is not capped. */
  lemma CappedIff(c: Config)
    ensures (forall k, draw :: k >= 1 ==> Jitter(Ceiling(c, k), draw) <= c.maxDelay)
            <==> c.initialDelay / MILLISECOND * MILLISECOND <= c.maxDelay
  {
    LargestDraw(c.initialDelay);
    assert Ceiling(c, 1) == c.initialDelay;
    if c.initialDelay / MILLISECOND * MILLISECOND > c.maxDelay {
      assert Jitter(Ceiling(c, 1), c.initialDelay / MILLISECOND) > c.maxDelay;
    } else {
      forall k, draw | k >= 1 ensures Jitter(Ceiling(c, k), draw) <= c.maxDelay {
        LargestDrawBounds(Ceiling(c, k), draw);
      }
    }
  }

  /** The largest whole number of milliseconds can be drawn, and nothing above it. */
  lemma LargestDraw(ceiling: nat)
    ensures Jitter(ceiling, ceiling / MILLISECOND) == ceiling / MILLISECOND * MILLISECOND
  {
  }

  lemma LargestDrawBounds(ceiling: nat, draw: nat)
    ensures Jitter(ceiling, draw) <= ceiling / MILLISECOND * MILLISECOND <= ceiling
  {
  }

  /** With 2 s before the first retry and a cap of 1 s, the first attempt can wait 2 s. */
  lemma FirstDelayAboveTheCap() returns (c: Config, draw: nat)
    ensures Jitter(Ceiling(c, 1), draw) > c.maxDelay
  {
    c, draw := Config(10, 2_000 * MILLISECOND, 1_000 * MILLISECOND), 2_000;
  }

  // -------------------------------------------------------------------------
  // One reconnect cycle
  // -------------------------------------------------------------------------

  /** Attempts are numbered, within budget, and sleep under their ceiling. */
  ghost predicate Paced(c: Config, events: seq<Event>, attempts: nat) {
    && (c.maxAttempts > 0 ==> attempts <= c.maxAttempts)
    && (forall i :: 0 <= i < |events| && events[i].Reconnecting? ==>
        && 1 <= events[i].attempt <= attempts
        && events[i].ceiling == Ceiling(c, events[i].attempt)
        && events[i].delay <= events[i].ceiling)
    && (forall i :: 0 <= i < |events| ==> !events[i].Disconnected? && !events[i].GaveUp?)
  }

  /** Only the disconnected session is ever offered for resumption, and never again once a new session
      was asked for. */
  ghost predicate ResumesOnly(from: Option<Handle>, events: seq<Event>) {
    && (forall i :: 0 <= i < |events| && events[i].CallResume? ==> from == Some(events[i].session))
    && (forall i, j :: 0 <= i < j < |events| && events[i].CallStart? ==> !events[j].CallResume?)
  }

  ghost predicate Quiet(events: seq<Event>) {
    forall i :: 0 <= i < |events| ==> !events[i].Resumed? && !events[i].Reconnected?
  }

  /** What holds while the loop is still trying; `mayResume` says that resuming is not ruled out. */
  ghost predicate Sound(c: Config, from: Option<Handle>, events: seq<Event>, attempts: nat, mayResume: bool) {
    && Paced(c, events, attempts)
    && ResumesOnly(from, events)
    && Quiet(events)
    && (mayResume ==> forall i :: 0 <= i < |events| ==> !events[i].CallStart?)
    && (from.None? ==> forall i :: 0 <= i < |events| ==> !events[i].CallResume?)
  }

  /** In closed form: attempt `k` (from 0) offers to resume exactly when there was something to resume
      and every earlier answer was a retriable error. */
  predicate Offers(from: Option<Handle>, script: seq<Attempt>, k: nat)
    requires k <= |script|
  {
    from.Some? && forall j :: 0 <= j < k ==> Retriable(script[j].resume)
  }

  /** What one attempt leads to; `StillTrying` is "go on with the next". */
  function Decides(from: Option<Handle>, script: seq<Attempt>, k: nat): Outcome
    requires k < |script|
  {
    var a := script[k];
    if a.shutdown then ShutDown
    else if Offers(from, script, k) && Resume(from.value, a.resume).Alive? then
      Adopted(Resume(from.value, a.resume).session, true)
    else if Offers(from, script, k) && Retriable(a.resume) then StillTrying
    else
      match a.start
      case StartOk(session) => Adopted(session, false)
      case StartPermanent => Denied
      case StartRetriable => StillTrying
  }

  /** What attempt `k` (from 0) puts on the record, in order. */
  function Told(c: Config, from: Option<Handle>, script: seq<Attempt>, k: nat): seq<Event>
    requires k < |script|
  {
    var n, a := k + 1, script[k];
    var slept := [Reconnecting(n, Jitter(Ceiling(c, n), a.draw), Ceiling(c, n))];
    if a.shutdown then slept
    else
      var asked := if Offers(from, script, k) then slept + [CallResume(n, from.value)] else slept;
      if Offers(from, script, k) && a.resume.Opens? then asked + [Resumed(from.value.id, n)]
      else if Offers(from, script, k) && Retriable(a.resume) then asked
      else if a.start.StartOk? then asked + [CallStart(n)] + [Reconnected(a.start.session.id, n)]
      else asked + [CallStart(n)]
  }

  /** What the first `n` attempts put on the record. */
  function ToldBy(c: Config, from: Option<Handle>, script: seq<Attempt>, n: nat): seq<Event>
    requires n <= |script|
  {
    if n == 0 then [] else ToldBy(c, from, script, n - 1) + Told(c, from, script, n - 1)
  }

  lemma NoteReconnecting(c: Config, from: Option<Handle>, events: seq<Event>, attempts: nat, mayResume: bool, delay: nat)
    requires Sound(c, from, events, attempts, mayResume)
    requires c.maxAttempts > 0 ==> attempts < c.maxAttempts
    requires delay <= Ceiling(c, attempts + 1)
    ensures Sound(c, from, events + [Reconnecting(attempts + 1, delay, Ceiling(c, attempts + 1))], attempts + 1, mayResume)
  {
    hide Ceiling;
  }

  lemma NoteResume(c: Config, from: Option<Handle>, events: seq<Event>, attempts: nat)
    requires Sound(c, from, events, attempts, true) && from.Some?
    ensures Sound(c, from, events + [CallResume(attempts, from.value)], attempts, true)
  {
    hide Ceiling;
  }

  lemma NoteStart(c: Config, from: Option<Handle>, events: seq<Event>, attempts: nat, mayResume: bool)
    requires Sound(c, from, events, attempts, mayResume)
    ensures Sound(c, from, events + [CallStart(attempts)], attempts, false)
  {
    hide Ceiling;
  }

  /** Same id, same stream state; the channel may be another. */
  predicate SameSession(a: Handle, b: Handle) { a.id == b.id && a.continuity == b.continuity }

  /** The event log of a finished cycle. */
  ghost predicate Concluded(c: Config, from: Option<Handle>, outcome: Outcome, events: seq<Event>, attempts: nat) {
    && Paced(c, events, attempts)
    && ResumesOnly(from, events)
    && (outcome.Adopted? ==>
        && events != [] && Quiet(events[..|events| - 1])
        && events[|events| - 1] ==
           if outcome.resumed then Resumed(outcome.session.id, attempts) else Reconnected(outcome.session.id, attempts))
    && (outcome.Adopted? && outcome.resumed ==>
        && from.Some? && SameSession(from.value, outcome.session)
        && forall i :: 0 <= i < |events| ==> !events[i].CallStart?)
    && (!outcome.Adopted? ==> Quiet(events))
    && (from.None? ==> forall i :: 0 <= i < |events| ==> !events[i].CallResume?)
  }

  lemma ConcludeResumed(c: Config, from: Option<Handle>, events: seq<Event>, attempts: nat, session: Handle)
    requires Sound(c, from, events, attempts, true) && from.Some? && SameSession(from.value, session)
    ensures Concluded(c, from, Adopted(session, true), events + [Resumed(from.value.id, attempts)], attempts)
  {
    hide Ceiling;
    assert (events + [Resumed(from.value.id, attempts)])[..|events|] == events;
  }

  lemma ConcludeReconnected(c: Config, from: Option<Handle>, events: seq<Event>, attempts: nat, session: Handle)
    requires Sound(c, from, events, attempts, false)
    ensures Concluded(c, from, Adopted(session, false), events + [Reconnected(session.id, attempts)], attempts)
  {
    hide Ceiling;
    assert (events + [Reconnected(session.id, attempts)])[..|events|] == events;
  }

  lemma ConcludeWithout(c: Config, from: Option<Handle>, outcome: Outcome, events: seq<Event>, attempts: nat, mayResume: bool)
    requires Sound(c, from, events, attempts, mayResume) && !outcome.Adopted?
    ensures Concluded(c, from, outcome, events, attempts)
  {
    hide Ceiling;
  }

  /** The outcome and the number of attempts are what the script decides: every attempt but the last goes
      on to the next, the last one decides, and without a decision only a spent budget or the end of
      the script stops the cycle. */
  ghost predicate Decided(c: Config, from: Option<Handle>, script: seq<Attempt>, outcome: Outcome, attempts: nat) {
    && attempts <= |script|
    && (c.maxAttempts > 0 ==> attempts <= c.maxAttempts)
    && (forall k :: 0 <= k < attempts - 1 ==> Decides(from, script, k).StillTrying?)
    && (attempts > 0 ==>
        Decides(from, script, attempts - 1) == if outcome.Exhausted? then StillTrying else outcome)
    && (attempts == 0 ==> script == [] && outcome.StillTrying?)
    && (outcome.Exhausted? ==> c.maxAttempts > 0 && attempts == c.maxAttempts)
    && (outcome.StillTrying? ==> attempts == |script| && (c.maxAttempts > 0 ==> attempts < c.maxAttempts))
  }

  /** So there is only one of each. */
  lemma DecidedOnce(
    c: Config, from: Option<Handle>, script: seq<Attempt>, o1: Outcome, n1: nat, o2: Outcome, n2: nat)
    requires Decided(c, from, script, o1, n1) && Decided(c, from, script, o2, n2)
    ensures o1 == o2 && n1 == n2
  {
    hide Decides;
  }

  /** An error that may go away. */
  predicate MayGoAway(answer: Answer) { answer == CallFails(true) || answer == OpenFails(true) }

  /** The lost session is still worth a try at attempt `k`: every earlier try failed with such an error. */
  ghost predicate WorthResuming(from: Option<Handle>, script: seq<Attempt>, k: nat)
    requires k <= |script|
  {
    from.Some? && forall j :: 0 <= j < k ==> MayGoAway(script[j].resume)
  }

  /** Which calls attempt `k` makes and what it reports: it tries to resume while that is worth it, and
      asks for a new session if it is not, or if the service says that the old one is gone. */
  lemma AttemptIff(c: Config, from: Option<Handle>, script: seq<Attempt>, k: nat)
    requires k < |script|
    ensures var told, a := Told(c, from, script, k), script[k];
            var tries := !a.shutdown && WorthResuming(from, script, k);
            var starts := !a.shutdown && !(tries && (a.resume.Opens? || MayGoAway(a.resume)));
            && (forall e :: e in told && e.CallResume? ==> tries && e == CallResume(k + 1, from.value))
            && (tries ==> CallResume(k + 1, from.value) in told)
            && (CallStart(k + 1) in told <==> starts)
            && (forall e :: e in told && e.Resumed? ==> tries && a.resume.Opens? && e == Resumed(from.value.id, k + 1))
            && (tries && a.resume.Opens? ==> Resumed(from.value.id, k + 1) in told)
            && (forall e :: e in told && e.Reconnected? ==>
                starts && a.start.StartOk? && e == Reconnected(a.start.session.id, k + 1))
            && (starts && a.start.StartOk? ==> Reconnected(a.start.session.id, k + 1) in told)
  {
    hide Ceiling, Jitter;
    OffersWhenWorth(from, script, k);
    hide Offers, WorthResuming;
    var told, a := Told(c, from, script, k), script[k];
    var n := k + 1;
    assert |told| > 1 ==> told[1] in told;
    assert |told| > 2 ==> told[2] in told;
    assert |told| > 3 ==> told[3] in told;
  }

  lemma OffersWhenWorth(from: Option<Handle>, script: seq<Attempt>, k: nat)
    requires k <= |script|
    ensures Offers(from, script, k) <==> WorthResuming(from, script, k)
    ensures forall a :: Retriable(a) <==> MayGoAway(a)
  {
  }

  /** How a cycle ends, by the answers to its last attempt. A resumed session keeps the lost one's id and
      stream state and runs on the new channel. */
  lemma OutcomeIff(c: Config, from: Option<Handle>, script: seq<Attempt>, outcome: Outcome, attempts: nat)
    requires Decided(c, from, script, outcome, attempts) && attempts > 0
    ensures var a := script[attempts - 1];
            var tries := !a.shutdown && WorthResuming(from, script, attempts - 1);
            var starts := !a.shutdown && !(tries && (a.resume.Opens? || MayGoAway(a.resume)));
            && (outcome.ShutDown? <==> a.shutdown)
            && (outcome.Adopted? && outcome.resumed <==> tries && a.resume.Opens?)
            && (outcome.Adopted? && outcome.resumed ==>
                outcome.session == Handle(from.value.id, from.value.continuity, a.resume.channel))
            && (outcome.Adopted? && !outcome.resumed <==> starts && a.start.StartOk?)
            && (outcome.Adopted? && !outcome.resumed ==> outcome.session == a.start.session)
            && (outcome.Denied? <==> starts && a.start.StartPermanent?)
  {
    OffersWhenWorth(from, script, attempts - 1);
    hide Offers, WorthResuming;
  }

  /** `reconnect`: retry until a session opens. */
  method ReconnectOnce(c: Config, from: Option<Handle>, script: seq<Attempt>)
    returns (outcome: Outcome, events: seq<Event>, attempts: nat)
    ensures Concluded(c, from, outcome, events, attempts)
    ensures attempts <= |script| && events == ToldBy(c, from, script, attempts)
    ensures Decided(c, from, script, outcome, attempts)
  {
    hide Ceiling, Jitter, Sound, Concluded, ToldBy;
    attempts := 0;
    events := [];
    var ceiling := c.initialDelay;
    var resumeFrom := from;
    FirstCeiling(c);
    SoundAtFirst(c, from);
    ToldByNone(c, from, script);
    while attempts < |script|
      invariant attempts <= |script|
      invariant ceiling == Ceiling(c, attempts + 1)
      invariant resumeFrom == from || resumeFrom.None?
      invariant resumeFrom.Some? <==> Offers(from, script, attempts)
      invariant forall k :: 0 <= k < attempts ==> Decides(from, script, k).StillTrying?
      invariant c.maxAttempts > 0 ==> attempts <= c.maxAttempts
      invariant Sound(c, from, events, attempts, resumeFrom.Some?)
      invariant events == ToldBy(c, from, script, attempts)
    {
      var now := script[attempts];
      ToldByNext(c, from, script, attempts);
      if c.maxAttempts > 0 && attempts + 1 > c.maxAttempts {
        ConcludeWithout(c, from, Exhausted, events, attempts, resumeFrom.Some?);
        return Exhausted, events, attempts;
      }
      var delay := Jitter(ceiling, now.draw);
      NoteReconnecting(c, from, events, attempts, resumeFrom.Some?, delay);
      attempts := attempts + 1;
      CeilingDoubles(c, attempts);
      events := events + [Reconnecting(attempts, delay, ceiling)];
      if now.shutdown {
        ConcludeWithout(c, from, ShutDown, events, attempts, resumeFrom.Some?);
        return ShutDown, events, attempts;
      }
      if resumeFrom.Some? {
        var session := resumeFrom.value;
        NoteResume(c, from, events, attempts);
        events := events + [CallResume(attempts, session)];
        match ResumeSession(session.id, session.continuity, now.resume)
        case Alive(resumed) =>
          ConcludeResumed(c, from, events, attempts, resumed);
          events := events + [Resumed(session.id, attempts)];
          return Adopted(resumed, true), events, attempts;
        case Gone => NoteStart(c, from, events, attempts, true); resumeFrom := None;
        case Broken(retriable) =>
          if retriable {
            ceiling := Min(ceiling * 2, c.maxDelay);
            continue;
          }
          NoteStart(c, from, events, attempts, true);
          resumeFrom := None;
      } else {
        NoteStart(c, from, events, attempts, false);
      }
      events := events + [CallStart(attempts)];
      match now.start
      case StartOk(session) =>
        ConcludeReconnected(c, from, events, attempts, session);
        events := events + [Reconnected(session.id, attempts)];
        return Adopted(session, false), events, attempts;
      case StartPermanent =>
        ConcludeWithout(c, from, Denied, events, attempts, false);
        return Denied, events, attempts;
      case StartRetriable =>
        ceiling := Min(ceiling * 2, c.maxDelay);
    }
    if c.maxAttempts > 0 && attempts + 1 > c.maxAttempts {
      ConcludeWithout(c, from, Exhausted, events, attempts, resumeFrom.Some?);
      return Exhausted, events, attempts;
    }
    ConcludeWithout(c, from, StillTrying, events, attempts, resumeFrom.Some?);
    return StillTrying, events, attempts;
  }

  lemma ToldByNone(c: Config, from: Option<Handle>, script: seq<Attempt>)
    ensures ToldBy(c, from, script, 0) == []
  {
  }

  lemma ToldByNext(c: Config, from: Option<Handle>, script: seq<Attempt>, k: nat)
    requires k < |script|
    ensures ToldBy(c, from, script, k + 1) == ToldBy(c, from, script, k) + Told(c, from, script, k)
  {
  }

  lemma SoundAtFirst(c: Config, from: Option<Handle>)
    ensures Sound(c, from, [], 0, from.Some?)
  {
  }

  lemma FirstCeiling(c: Config)
    ensures Ceiling(c, 1) == c.initialDelay
  {
  }

  // -------------------------------------------------------------------------
  // The supervisor
  // -------------------------------------------------------------------------

  /** How one session ended: for what reason, what reason the supervisor found on record when `closed()`
      let it go on, and the script of the cycle that followed. Or a shutdown while the supervisor was
      still watching a live session. */
  datatype Ending = Closed(reason: CloseReason, seen: Option<CloseReason>, attempts: seq<Attempt>) | Stopped

  /** The reason that the supervisor acts on. */
  function Taken(e: Ending): CloseReason
    requires e.Closed?
  {
    if e.seen.Some? then e.seen.value else Transport
  }

  /** One turn of the supervisor: the session that ended, why, what followed. */
  datatype Cycle = Cycle(session: Handle, reason: CloseReason, outcome: Outcome, attempts: nat, events: seq<Event>)

  /** The adopted session goes on to the next turn; only an unrecoverable close or a failed cycle is
      the last. */
  ghost predicate Chained(first: Handle, cycles: seq<Cycle>) {
    && (cycles != [] ==> cycles[0].session == first)
    && (forall i :: 0 <= i < |cycles| - 1 ==>
        cycles[i].outcome.Adopted? && cycles[i + 1].session == cycles[i].outcome.session)
  }

  /** A resumed session is the one that was lost, with its stream state; it needs a resumable reason. */
  ghost predicate Faithful(y: Cycle) {
    && (y.outcome.Adopted? ==> y.reason.IsRecoverable())
    && (y.outcome.Adopted? && y.outcome.resumed ==> y.reason.IsResumable() && SameSession(y.session, y.outcome.session))
    && (forall j :: 0 <= j < |y.events| && y.events[j].Resumed? ==>
        y.outcome.Adopted? && y.outcome.resumed && y.events[j].id == y.session.id)
  }

  /** Only a resumable close leaves something to resume. */
  function ResumeFrom(session: Handle, reason: CloseReason): Option<Handle> {
    if reason.IsResumable() then Some(session) else None
  }

  /** The whole record of one turn: the disconnect, each attempt in order, and a final `GaveUp` unless a
      session was adopted. */
  ghost predicate Logged(c: Config, y: Cycle, e: Ending)
    requires e.Closed?
  {
    && y.reason == Taken(e) && y.attempts <= |e.attempts|
    && y.events ==
       if !y.reason.IsRecoverable() then [Disconnected(y.reason)] + [GaveUp(0)]
       else
         var told := [Disconnected(y.reason)] + ToldBy(c, ResumeFrom(y.session, y.reason), e.attempts, y.attempts);
         if y.outcome.Adopted? || y.outcome.StillTrying? then told else told + [GaveUp(c.maxAttempts)]
  }

  /** What the turn led to: an unrecoverable close is the end at once, any other outcome is the one the
      script decides. */
  ghost predicate Settled(c: Config, y: Cycle, e: Ending)
    requires e.Closed?
  {
    if !y.reason.IsRecoverable() then y.outcome.Denied? && y.attempts == 0
    else Decided(c, ResumeFrom(y.session, y.reason), e.attempts, y.outcome, y.attempts)
  }

  /** One turn did what it should and its record says so. */
  ghost predicate TurnOk(c: Config, y: Cycle, e: Ending) {
    e.Closed? && Faithful(y) && Logged(c, y, e) && Settled(c, y, e)
  }

  lemma FaithfulCycle(c: Config, y: Cycle, from: Option<Handle>, events: seq<Event>, attempts: nat)
    requires y.reason.IsRecoverable() && from == ResumeFrom(y.session, y.reason)
    requires Concluded(c, from, y.outcome, events, attempts)
    requires y.events == [Disconnected(y.reason)] + events ||
             y.events == [Disconnected(y.reason)] + events + [GaveUp(c.maxAttempts)]
    ensures Faithful(y)
  {
    hide Ceiling, Paced;
    forall j | 0 <= j < |y.events| && y.events[j].Resumed?
      ensures 0 < j <= |events| && y.events[j] == events[j - 1]
    {
    }
    QuietEnding(y.outcome, events);
  }

  /** The turns so far, each sound, each starting with the session that the one before it adopted. */
  ghost predicate Supervised(c: Config, first: Handle, cycles: seq<Cycle>, endings: seq<Ending>) {
    && |cycles| <= |endings|
    && Chained(first, cycles)
    && forall i :: 0 <= i < |cycles| ==> TurnOk(c, cycles[i], endings[i])
  }

  lemma Extend(c: Config, first: Handle, cycles: seq<Cycle>, endings: seq<Ending>, y: Cycle)
    requires Supervised(c, first, cycles, endings) && |cycles| < |endings|
    requires TurnOk(c, y, endings[|cycles|])
    requires if cycles == [] then y.session == first
             else cycles[|cycles| - 1].outcome.Adopted? && y.session == cycles[|cycles| - 1].outcome.session
    ensures Supervised(c, first, cycles + [y], endings)
  {
    hide TurnOk;
  }

  /** One turn of `supervise`, from the close of `session` to the end of the cycle that follows. If no
      reason is on record, it is taken for a lost connection. */
  method Turn(c: Config, session: Handle, e: Ending) returns (y: Cycle)
    requires e.Closed?
    ensures TurnOk(c, y, e) && y.session == session
  {
    hide Concluded, TurnOk, ToldBy, Decided;
    var reason := if e.seen.Some? then e.seen.value else Transport;
    var disconnected := Disconnected(reason);
    if !reason.IsRecoverable() {
      UnrecoverableTurn(c, session, e, reason);
      return Cycle(session, reason, Denied, 0, [disconnected] + [GaveUp(0)]);
    }
    var outcome, events, attempts := ReconnectOnce(c, ResumeFrom(session, reason), e.attempts);
    RecoverableTurn(c, session, e, reason, outcome, events, attempts);
    if outcome.Adopted? || outcome.StillTrying? {
      return Cycle(session, reason, outcome, attempts, [disconnected] + events);
    }
    return Cycle(session, reason, outcome, attempts, [disconnected] + events + [GaveUp(c.maxAttempts)]);
  }

  lemma UnrecoverableTurn(c: Config, session: Handle, e: Ending, reason: CloseReason)
    requires e.Closed? && reason == Taken(e) && !reason.IsRecoverable()
    ensures TurnOk(c, Cycle(session, reason, Denied, 0, [Disconnected(reason)] + [GaveUp(0)]), e)
  {
  }

  lemma RecoverableTurn(
    c: Config, session: Handle, e: Ending, reason: CloseReason, outcome: Outcome, events: seq<Event>, attempts: nat)
    requires e.Closed? && reason == Taken(e) && reason.IsRecoverable() && attempts <= |e.attempts|
    requires Concluded(c, ResumeFrom(session, reason), outcome, events, attempts)
    requires events == ToldBy(c, ResumeFrom(session, reason), e.attempts, attempts)
    requires Decided(c, ResumeFrom(session, reason), e.attempts, outcome, attempts)
    ensures var told := [Disconnected(reason)] + events;
            && (outcome.Adopted? || outcome.StillTrying? ==> TurnOk(c, Cycle(session, reason, outcome, attempts, told), e))
            && (!outcome.Adopted? && !outcome.StillTrying? ==>
                TurnOk(c, Cycle(session, reason, outcome, attempts, told + [GaveUp(c.maxAttempts)]), e))
  {
    hide Concluded, Faithful, ToldBy, Decided;
    var told := [Disconnected(reason)] + events;
    var from := ResumeFrom(session, reason);
    FaithfulCycle(c, Cycle(session, reason, outcome, attempts, told), from, events, attempts);
    FaithfulCycle(c, Cycle(session, reason, outcome, attempts, told + [GaveUp(c.maxAttempts)]), from, events, attempts);
  }

  lemma QuietEnding(outcome: Outcome, events: seq<Event>)
    requires !outcome.Adopted? ==> Quiet(events)
    requires outcome.Adopted? ==> events != [] && Quiet(events[..|events| - 1])
    ensures forall i :: 0 <= i < |events| && events[i].Resumed? ==> outcome.Adopted? && i == |events| - 1
  {
    if outcome.Adopted? {
      var before := events[..|events| - 1];
      assert forall i :: 0 <= i < |before| ==> !before[i].Resumed? && before[i] == events[i];
    }
  }

  /** How the supervisor stands after its turns: watching the session it adopted last (because nothing
      has ended it yet, or because it was told to stop), in the middle of a cycle, or finished. */
  ghost predicate Stands(first: Handle, cycles: seq<Cycle>, endings: seq<Ending>, current: Option<Handle>)
    requires |cycles| <= |endings|
  {
    var watching := |cycles| == |endings| || endings[|cycles|].Stopped?;
    if cycles == [] then current == Some(first) && watching
    else
      var last := cycles[|cycles| - 1];
      match last.outcome
      case Adopted(session, _) => current == Some(session) && watching
      case StillTrying => current == Some(last.session)
      case _ => current.None?
  }

  /** `supervise`: watch, and rebuild while the close is recoverable. `current` is empty once the
      supervisor has finished; `generation` is what `adopt` counted, the first session included. */
  method Supervise(c: Config, first: Handle, endings: seq<Ending>)
    returns (cycles: seq<Cycle>, current: Option<Handle>, generation: nat)
    ensures Supervised(c, first, cycles, endings)
    ensures |cycles| <= |endings| && Stands(first, cycles, endings, current)
    ensures generation == 1 + Resumes(cycles) + Replacements(cycles)
  {
    hide Supervised, TurnOk, Resumes, Replacements;
    cycles := [];
    generation := 1;
    current := Some(first);
    NoTurns(c, first, endings);
    while |cycles| < |endings|
      invariant |cycles| <= |endings|
      invariant generation == 1 + Resumes(cycles) + Replacements(cycles)
      invariant Supervised(c, first, cycles, endings)
      invariant current.Some?
      invariant cycles == [] ==> current.value == first
      invariant cycles != [] ==>
                  cycles[|cycles| - 1].outcome.Adopted? && current.value == cycles[|cycles| - 1].outcome.session
      decreases |endings| - |cycles|
    {
      var session, e := current.value, endings[|cycles|];
      if e.Stopped? {
        return;
      }
      var turn := Turn(c, session, e);
      Extend(c, first, cycles, endings, turn);
      OneMoreTurn(cycles, turn);
      SupervisedLength(c, first, cycles + [turn], endings);
      cycles := cycles + [turn];
      match turn.outcome
      case Adopted(adopted, _) =>
        current := Some(adopted);
        generation := generation + 1;
      case StillTrying => return;
      case _ =>
        current := None;
        return;
    }
  }

  lemma NoTurns(c: Config, first: Handle, endings: seq<Ending>)
    ensures Supervised(c, first, [], endings)
    ensures Resumes([]) == 0 && Replacements([]) == 0
  {
  }

  lemma SupervisedLength(c: Config, first: Handle, cycles: seq<Cycle>, endings: seq<Ending>)
    requires Supervised(c, first, cycles, endings)
    ensures |cycles| <= |endings|
  {
  }

  // -------------------------------------------------------------------------
  // What the supervisor reports
  // -------------------------------------------------------------------------

  /** Turns that resumed the lost session, and turns that replaced it with a new one. */
  function Resumes(cycles: seq<Cycle>): nat {
    if cycles == [] then 0
    else
      var o := cycles[|cycles| - 1].outcome;
      Resumes(cycles[..|cycles| - 1]) + if o.Adopted? && o.resumed then 1 else 0
  }

  function Replacements(cycles: seq<Cycle>): nat {
    if cycles == [] then 0
    else
      var o := cycles[|cycles| - 1].outcome;
      Replacements(cycles[..|cycles| - 1]) + if o.Adopted? && !o.resumed then 1 else 0
  }

  lemma OneMoreTurn(cycles: seq<Cycle>, y: Cycle)
    ensures Resumes(cycles + [y]) == Resumes(cycles) + if y.outcome.Adopted? && y.outcome.resumed then 1 else 0
    ensures Replacements(cycles + [y]) == Replacements(cycles) + if y.outcome.Adopted? && !y.outcome.resumed then 1 else 0
  {
    assert (cycles + [y])[..|cycles|] == cycles;
  }

  /** `generation` is documented as the number of replacements. It never is, whatever happened: it is
      ahead by one for the first session and by one more for each resume. */
  method GenerationIsAhead(c: Config, first: Handle, endings: seq<Ending>) returns (cycles: seq<Cycle>, generation: nat)
    ensures Supervised(c, first, cycles, endings)
    ensures generation != Replacements(cycles) && generation != Resumes(cycles) + Replacements(cycles)
    ensures endings == [] ==> generation == 1 && Replacements(cycles) == 0
  {
    hide Supervised, Resumes, Replacements;
    var current;
    cycles, current, generation := Supervise(c, first, endings);
    NoTurns(c, first, endings);
  }

  /** Attempts that the record shows. */
  function AttemptsMade(events: seq<Event>): nat {
    if events == [] then 0 else AttemptsMade(events[..|events| - 1]) + if events[|events| - 1].Reconnecting? then 1 else 0
  }

  lemma {:induction false} AttemptsAdd(a: seq<Event>, b: seq<Event>)
    ensures AttemptsMade(a + b) == AttemptsMade(a) + AttemptsMade(b)
  {
    if b == [] {
      assert a + b == a;
    } else {
      assert (a + b)[..|a + b| - 1] == a + b[..|b| - 1];
      AttemptsAdd(a, b[..|b| - 1]);
    }
  }

  lemma AttemptsOfOne(e: Event)
    ensures AttemptsMade([e]) == if e.Reconnecting? then 1 else 0
  {
    assert [e][..0] == [];
  }

  lemma AttemptsOfAttempt(c: Config, from: Option<Handle>, script: seq<Attempt>, k: nat)
    requires k < |script|
    ensures AttemptsMade(Told(c, from, script, k)) == 1
  {
    hide AttemptsMade, Ceiling, Jitter;
    var told := Told(c, from, script, k);
    var rest := told[1..];
    assert told == [told[0]] + rest;
    assert forall i :: 0 <= i < |rest| ==> !rest[i].Reconnecting?;
    AttemptsAdd([told[0]], rest);
    AttemptsOfOne(told[0]);
    NoAttempts(rest);
  }

  lemma {:induction false} NoAttempts(events: seq<Event>)
    requires forall i :: 0 <= i < |events| ==> !events[i].Reconnecting?
    ensures AttemptsMade(events) == 0
  {
    if events != [] {
      NoAttempts(events[..|events| - 1]);
    }
  }

  /** The record shows as many attempts as were made. */
  lemma {:induction false} AttemptsTold(c: Config, from: Option<Handle>, script: seq<Attempt>, n: nat)
    requires n <= |script|
    ensures AttemptsMade(ToldBy(c, from, script, n)) == n
  {
    hide Told;
    if n > 0 {
      AttemptsTold(c, from, script, n - 1);
      AttemptsAdd(ToldBy(c, from, script, n - 1), Told(c, from, script, n - 1));
      AttemptsOfAttempt(c, from, script, n - 1);
    }
  }

  lemma {:induction false} AttemptsLogged(c: Config, y: Cycle, e: Ending)
    requires TurnOk(c, y, e)
    ensures AttemptsMade(y.events) == y.attempts
  {
    hide AttemptsMade, ToldBy, Faithful, Decided;
    var d := [Disconnected(y.reason)];
    AttemptsOfOne(d[0]);
    if !y.reason.IsRecoverable() {
      AttemptsOfOne(GaveUp(0));
      AttemptsAdd(d, [GaveUp(0)]);
    } else {
      var told := ToldBy(c, ResumeFrom(y.session, y.reason), e.attempts, y.attempts);
      AttemptsTold(c, ResumeFrom(y.session, y.reason), e.attempts, y.attempts);
      AttemptsAdd(d, told);
      AttemptsOfOne(GaveUp(c.maxAttempts));
      AttemptsAdd(d + told, [GaveUp(c.maxAttempts)]);
    }
  }

  /** Gives up at the end of its record. */
  predicate EndsWithGaveUp(events: seq<Event>) { events != [] && events[|events| - 1].GaveUp? }

  /** No attempt before number `max_attempts` decides the cycle, so that the whole budget is used. */
  ghost predicate UsesTheBudget(c: Config, from: Option<Handle>, script: seq<Attempt>) {
    && 0 < c.maxAttempts <= |script| + 1
    && forall k :: 0 <= k < c.maxAttempts - 1 ==> Decides(from, script, k).StillTrying?
  }

  /** A turn ends with `GaveUp` exactly when it neither adopts a session nor is still trying, and the
      attempts it reports there are the attempts that were made if and only if the close was
      unrecoverable or nothing decided the cycle before its budget was used up. */
  lemma {:induction false} GaveUpCountIff(c: Config, y: Cycle, e: Ending)
    requires TurnOk(c, y, e)
    ensures EndsWithGaveUp(y.events) <==> !y.outcome.Adopted? && !y.outcome.StillTrying?
    ensures EndsWithGaveUp(y.events) ==>
              (y.events[|y.events| - 1].attempts == AttemptsMade(y.events) <==>
               !Taken(e).IsRecoverable() || UsesTheBudget(c, ResumeFrom(y.session, Taken(e)), e.attempts))
  {
    hide AttemptsMade, Faithful, ToldBy, Decides;
    AttemptsLogged(c, y, e);
    if Taken(e).IsRecoverable() {
      var from := ResumeFrom(y.session, Taken(e));
      LastTold(c, from, e.attempts, y.attempts);
    }
  }

  /** No attempt reports giving up by itself. */
  lemma {:induction false} LastTold(c: Config, from: Option<Handle>, script: seq<Attempt>, n: nat)
    requires n <= |script|
    ensures forall i :: 0 <= i < |ToldBy(c, from, script, n)| ==> !ToldBy(c, from, script, n)[i].GaveUp?
  {
    hide Ceiling, Jitter, Offers;
    if n > 0 {
      LastTold(c, from, script, n - 1);
    }
  }

  /** With a budget of 10, one attempt that is refused for good is reported as 10. */
  method GaveUpOverReports(session: Handle) returns (c: Config, e: Ending, y: Cycle)
    ensures TurnOk(c, y, e) && y.session == session
    ensures AttemptsMade(y.events) == 1 && EndsWithGaveUp(y.events) && y.events[|y.events| - 1].attempts == 10
  {
    hide AttemptsMade, Faithful;
    c := Config(10, 1_000 * MILLISECOND, 60_000 * MILLISECOND);
    e := Closed(Transport, Some(Transport), [Attempt(0, false, NoToken, StartPermanent)]);
    y := Turn(c, session, e);
    assert Decides(ResumeFrom(session, Transport), e.attempts, 0) == Denied;
    AttemptsLogged(c, y, e);
    GaveUpCountIff(c, y, e);
  }

  // -------------------------------------------------------------------------
  // The reason that closed the session, and the reason the supervisor acts on
  // -------------------------------------------------------------------------

  /** The ending is what some run of the session's close protocol shows to a waiter that `closed()` has
      let go on: the reason of the closer that won, and the reason on record at that moment. */
  ghost predicate ObservedIn(e: Ending, labels: seq<Label>, capacity: nat, w: nat) {
    var s := Run(labels, capacity);
    && e.Closed?
    && w in s.waiters && s.waiters[w].kind.OnClosed? && s.waiters[w].pc.Returned?
    && s.winner.Some? && s.winner.value in s.closers
    && e.reason == s.closers[s.winner.value].reason && e.seen == s.reason
  }

  ghost predicate Observed(e: Ending) {
    exists labels, capacity, w :: ObservedIn(e, labels, capacity, w)
  }

  /** The supervisor sees the winner's reason or none at all; none exactly while the winner has not
      stored it yet, and never if a notification woke the supervisor. */
  lemma {:induction false} SeesTheWinnersReason(e: Ending, labels: seq<Label>, capacity: nat, w: nat)
    requires ObservedIn(e, labels, capacity, w)
    ensures e.seen.Some? ==> e.seen.value == e.reason
    ensures var s := Run(labels, capacity);
            && (e.seen.None? <==> s.closers[s.winner.value].pc.Publishing?)
            && (s.waiters[w].pc == Returned(true) ==> e.seen.Some?)
  {
    hide Run;
    ReasonIsTheWinners(labels, capacity, w);
  }

  /** Whenever `closed()` has returned there is such an ending, whatever the script that follows. */
  lemma {:induction false} ClosedIsObserved(labels: seq<Label>, capacity: nat, w: nat, attempts: seq<Attempt>) returns (e: Ending)
    requires var s := Run(labels, capacity); w in s.waiters && s.waiters[w].kind.OnClosed? && s.waiters[w].pc.Returned?
    ensures ObservedIn(e, labels, capacity, w) && e.attempts == attempts
  {
    hide Run;
    ReasonIsTheWinners(labels, capacity, w);
    var s := Run(labels, capacity);
    e := Closed(s.closers[s.winner.value].reason, s.reason, attempts);
  }

  lemma SeenIsGenuine(e: Ending)
    requires Observed(e)
    ensures e.Closed? && (e.seen.Some? ==> e.seen.value == e.reason)
  {
    hide Run;
    var labels, capacity, w :| ObservedIn(e, labels, capacity, w);
    SeesTheWinnersReason(e, labels, capacity, w);
  }

  ghost predicate CallsResume(events: seq<Event>) { exists j :: 0 <= j < |events| && events[j].CallResume? }

  /** In every run of the supervisor, the first attempt that gets past its delay offers the lost session
      for resumption if and only if the peer was unresponsive, the transport failed, or the reason was not
      on record yet; and a turn ends at once if and only if Terminated, AgentClosed or Protocol was on
      record. */
  lemma {:induction false} ActsOnReasonIff(c: Config, first: Handle, cycles: seq<Cycle>, endings: seq<Ending>, i: nat)
    requires Supervised(c, first, cycles, endings) && i < |cycles| && Observed(endings[i])
    ensures var e, y := endings[i], cycles[i];
            && e.Closed?
            && (CallsResume(y.events) <==>
                e.attempts != [] && !e.attempts[0].shutdown &&
                (e.seen.None? || e.reason.PeerUnresponsive? || e.reason.Transport?))
            && (y.events == [Disconnected(y.reason)] + [GaveUp(0)] <==>
                e.seen.Some? && (e.reason.Terminated? || e.reason.AgentClosed? || e.reason.Protocol?))
  {
    hide Decided, ToldBy, Observed, Faithful, CallsResume;
    var e, y := endings[i], cycles[i];
    assert TurnOk(c, y, e);
    SeenIsGenuine(e);
    var from := ResumeFrom(y.session, y.reason);
    var d, tail := Disconnected(y.reason), if y.outcome.Adopted? || y.outcome.StillTrying? then [] else [GaveUp(c.maxAttempts)];
    if y.reason.IsRecoverable() {
      DecidedAttempts(c, from, e.attempts, y.outcome, y.attempts);
      var told := ToldBy(c, from, e.attempts, y.attempts);
      ToldResumes(c, from, e.attempts, y.attempts);
      FirstTold(c, from, e.attempts, y.attempts);
      assert y.events == [d] + told + tail;
      ResumesWithin(d, told, tail);
      assert y.attempts > 0 ==> y.events[1] == told[0];
      assert y.attempts == 0 ==> y.outcome.StillTrying?;
    } else {
      ResumesWithin(d, [], [GaveUp(0)]);
      assert [d] + [] + [GaveUp(0)] == y.events;
    }
  }

  /** A record without calls at its two ends makes the calls that are in the middle. */
  lemma ResumesWithin(d: Event, told: seq<Event>, tail: seq<Event>)
    requires !d.CallResume? && forall j :: 0 <= j < |tail| ==> !tail[j].CallResume?
    ensures CallsResume([d] + told + tail) <==> CallsResume(told)
    ensures told == [] ==> !CallsResume([d] + told + tail)
  {
    var all := [d] + told + tail;
    if CallsResume(told) {
      var j :| 0 <= j < |told| && told[j].CallResume?;
      assert all[j + 1] == told[j];
    }
    if CallsResume(all) {
      var j :| 0 <= j < |all| && all[j].CallResume?;
      assert told[j - 1] == all[j];
    }
  }

  lemma ToldResumes(c: Config, from: Option<Handle>, script: seq<Attempt>, n: nat)
    requires n <= |script| && (n > 1 ==> !script[0].shutdown)
    ensures CallsResume(ToldBy(c, from, script, n)) <==> n > 0 && !script[0].shutdown && from.Some?
  {
    hide ToldBy;
    FirstTold(c, from, script, n);
    if from.None? {
      NothingToResume(c, script, n);
    }
  }

  lemma DecidedAttempts(c: Config, from: Option<Handle>, script: seq<Attempt>, outcome: Outcome, attempts: nat)
    requires Decided(c, from, script, outcome, attempts)
    ensures attempts <= |script| && (attempts == 0 <==> script == [])
    ensures script != [] && script[0].shutdown ==> attempts == 1
    ensures attempts == 0 ==> outcome.StillTrying?
  {
    if script != [] && script[0].shutdown {
      assert Decides(from, script, 0).ShutDown?;
    }
  }

  /** What the record starts with. */
  lemma {:induction false} FirstTold(c: Config, from: Option<Handle>, script: seq<Attempt>, n: nat)
    requires n <= |script|
    ensures var told := ToldBy(c, from, script, n);
            && (n == 0 ==> told == [])
            && (n > 0 ==> |told| > 0 && told[0].Reconnecting?)
            && (n > 0 && script[0].shutdown && n == 1 ==> |told| == 1)
            && (n > 0 && !script[0].shutdown && from.Some? ==> |told| > 1 && told[1].CallResume?)
  {
    hide Ceiling, Jitter;
    if n > 1 {
      FirstTold(c, from, script, n - 1);
    }
  }

  /** A close for any other reason than an unresponsive peer or a failed transport - DeliveryFailed, for
      one - is recovered from by a new session only, if its reason was on record: the turn that it started neither offers the lost session for
      resumption nor adopts it again. */
  lemma {:induction false} UnresumableNeverResumes(
    c: Config, first: Handle, cycles: seq<Cycle>, endings: seq<Ending>, i: nat)
    requires Supervised(c, first, cycles, endings) && i < |cycles| && Observed(endings[i])
    ensures endings[i].Closed?
    ensures endings[i].seen.Some? && !endings[i].reason.PeerUnresponsive? && !endings[i].reason.Transport? ==>
              && !(cycles[i].outcome.Adopted? && cycles[i].outcome.resumed)
              && forall j :: 0 <= j < |cycles[i].events| ==> !cycles[i].events[j].Resumed? && !cycles[i].events[j].CallResume?
  {
    hide Decided, Logged, Settled, Observed;
    ActsOnReasonIff(c, first, cycles, endings, i);
    SeenIsGenuine(endings[i]);
    assert TurnOk(c, cycles[i], endings[i]);
    TakenReason(c, cycles[i], endings[i]);
  }

  lemma TakenReason(c: Config, y: Cycle, e: Ending)
    requires e.Closed? && Logged(c, y, e)
    ensures y.reason == Taken(e)
  {
  }

  /** Whatever the reason - DeliveryFailed, AgentClosed, Protocol, Terminated - there is a run in which the
      supervisor goes on before it is on record, takes it for a lost connection, and resumes. */
  method AnyCloseCanBeResumed(reason: CloseReason, session: Handle, c: Config)
    returns (e: Ending, y: Cycle)
    ensures Observed(e) && e.Closed? && e.reason == reason && e.seen.None?
    ensures TurnOk(c, y, e) && y.session == session
    ensures y.outcome.Adopted? && y.outcome.resumed && y.outcome.session.continuity == session.continuity
  {
    hide Run, Faithful, Logged;
    ghost var labels := FastPathWindow(reason, 0);
    var script := [Attempt(0, false, Opens(session.channel + 1), StartRetriable)];
    e := Closed(reason, None, script);
    assert ObservedIn(e, labels, 0, 0);
    y := Turn(c, session, e);
    assert Decides(ResumeFrom(session, Transport), script, 0).Adopted?;
    TakenReason(c, y, e);
    OneAttemptDecides(c, ResumeFrom(session, Transport), script, y.outcome, y.attempts);
  }

  lemma OneAttemptDecides(c: Config, from: Option<Handle>, script: seq<Attempt>, outcome: Outcome, attempts: nat)
    requires |script| == 1 && Decided(c, from, script, outcome, attempts) && Decides(from, script, 0).Adopted?
    ensures outcome == Decides(from, script, 0)
  {
    hide Decides;
  }

  /** With nothing to resume, no attempt offers to. */
  lemma {:induction false} NothingToResume(c: Config, script: seq<Attempt>, n: nat)
    requires n <= |script|
    ensures forall i :: 0 <= i < |ToldBy(c, None, script, n)| ==>
              var e := ToldBy(c, None, script, n)[i]; !e.Resumed? && !e.CallResume?
  {
    hide Ceiling, Jitter;
    if n > 0 {
      NothingToResume(c, script, n - 1);
    }
  }
}
