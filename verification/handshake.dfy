/** The handshake state machine of src/handshake.rs. JSON parsing and the KMS call are results that the
environment supplies with each action. */
module Handshake {
  import opened Wrappers

  /** A negotiated session cipher, known by the ciphertext blob that the agent gets to see. */
  datatype Cipher = Cipher(blob: nat)

  datatype SessionType = StandardStream | InteractiveCommands | Port

  /** A requested action. `name` is the parsed session type string, or nothing if the parameters do
      not parse; `keyId` likewise; `key` is what `kms:GenerateDataKey` returns. */
  datatype Action =
    | RequestSessionType(name: Option<string>)
    | RequestKms(keyId: Option<string>, key: Option<Cipher>)

  datatype Problem = BadSessionType | KmsNotCompiled | NoKmsClient | BadKmsParameters | KmsRefused

  datatype Status = Success | Failed | Unsupported

  datatype Processed = Processed(isKms: bool, status: Status, result: Option<Cipher>, error: Option<Problem>)

  datatype Response = Response(processed: seq<Processed>, errors: seq<Problem>)

  datatype Phase = AwaitingRequest | AwaitingComplete | Completed | HandshakeFailed

  /** How this build and session can deal with a KMS request. */
  datatype KmsSupport = NotCompiled | NoClient | Client

  datatype Handler = Handler(phase: Phase, version: Option<string>, sessionType: Option<SessionType>, crypto: Option<Cipher>)

  const FRESH := Handler(AwaitingRequest, None, None, None)

  /** What `on_request` answers: a response, silence for a duplicate, or an error. */
  datatype Answer = Responds(response: Response) | Ignores | Rejects

  // -------------------------------------------------------------------------
  // One action
  // -------------------------------------------------------------------------

  function ParseSessionType(name: string): SessionType {
    if name == "InteractiveCommands" then InteractiveCommands
    else if name == "Port" then Port
    else StandardStream
  }

  function Succeeded(isKms: bool, result: Option<Cipher>): Processed { Processed(isKms, Success, result, None) }

  function Failure(isKms: bool, problem: Problem): Processed { Processed(isKms, Failed, None, Some(problem)) }

  /** The result of one action. */
  function ResultOf(a: Action, support: KmsSupport): Processed {
    match a
    case RequestSessionType(name) =>
      if name.Some? then Succeeded(false, None) else Failure(false, BadSessionType)
    case RequestKms(keyId, key) =>
      if support.NotCompiled? then Processed(true, Unsupported, None, Some(KmsNotCompiled))
      else if support.NoClient? then Failure(true, NoKmsClient)
      else if keyId.None? then Failure(true, BadKmsParameters)
      else if key.None? then Failure(true, KmsRefused)
      else Succeeded(true, key)
  }

  /** What it leaves behind in the handler. */
  function Handled(h: Handler, a: Action, support: KmsSupport): Handler {
    match a
    case RequestSessionType(name) =>
      if name.Some? then h.(sessionType := Some(ParseSessionType(name.value))) else h
    case RequestKms(_, key) =>
      if ResultOf(a, support).status.Success? then h.(crypto := key) else h
  }

  // -------------------------------------------------------------------------
  // A whole request
  // -------------------------------------------------------------------------

  function HandledAll(h: Handler, actions: seq<Action>, support: KmsSupport): Handler {
    if actions == [] then h
    else Handled(HandledAll(h, actions[..|actions| - 1], support), actions[|actions| - 1], support)
  }

  function Results(actions: seq<Action>, support: KmsSupport): (r: seq<Processed>)
    ensures |r| == |actions|
    ensures forall i :: 0 <= i < |r| ==> r[i] == ResultOf(actions[i], support)
  {
    seq(|actions|, i requires 0 <= i < |actions| => ResultOf(actions[i], support))
  }

  /** The error strings, in order. */
  function Errors(results: seq<Processed>): seq<Problem> {
    if results == [] then []
    else
      var e := results[|results| - 1].error;
      Errors(results[..|results| - 1]) + if e.Some? then [e.value] else []
  }

  predicate AllSucceed(results: seq<Processed>) { forall i :: 0 <= i < |results| ==> results[i].status.Success? }

  function Requested(h: Handler, version: string, actions: seq<Action>, support: KmsSupport): Handler {
    if !h.phase.AwaitingRequest? then h
    else
      HandledAll(h.(version := Some(version)), actions, support).(
        phase := if AllSucceed(Results(actions, support)) then AwaitingComplete else HandshakeFailed)
  }

  function AnswerTo(h: Handler, actions: seq<Action>, support: KmsSupport): Answer {
    match h.phase
    case AwaitingRequest => Responds(Response(Results(actions, support), Errors(Results(actions, support))))
    case HandshakeFailed => Rejects
    case _ => Ignores
  }

  class HandshakeHandler {
    var phase: Phase
    var version: Option<string>
    var sessionType: Option<SessionType>
    var crypto: Option<Cipher>
    const support: KmsSupport

    function View(): Handler reads this { Handler(phase, version, sessionType, crypto) }

    constructor (support: KmsSupport)
      ensures View() == FRESH && this.support == support
    {
      phase, version, sessionType, crypto := AwaitingRequest, None, None, None;
      this.support := support;
    }

    method HandleAction(a: Action) returns (r: Processed)
      modifies this
      ensures View() == Handled(old(View()), a, support) && r == ResultOf(a, support)
    {
      match a
      case RequestSessionType(name) =>
        if name.None? {
          return Failure(false, BadSessionType);
        }
        sessionType := Some(ParseSessionType(name.value));
        return Succeeded(false, None);
      case RequestKms(keyId, key) =>
        if support.NotCompiled? {
          return Processed(true, Unsupported, None, Some(KmsNotCompiled));
        }
        if support.NoClient? {
          return Failure(true, NoKmsClient);
        }
        if keyId.None? {
          return Failure(true, BadKmsParameters);
        }
        if key.None? {
          return Failure(true, KmsRefused);
        }
        crypto := key;
        return Succeeded(true, key);
    }

    method OnRequest(agentVersion: string, actions: seq<Action>) returns (answer: Answer)
      modifies this
      ensures View() == Requested(old(View()), agentVersion, actions, support)
      ensures answer == AnswerTo(old(View()), actions, support)
    {
      if phase.AwaitingComplete? || phase.Completed? {
        return Ignores;
      }
      if phase.HandshakeFailed? {
        return Rejects;
      }
      version := Some(agentVersion);
      ghost var start := View();
      var processed: seq<Processed> := [];
      var errors: seq<Problem> := [];
      var anyFailed := false;
      var n := 0;
      while n < |actions|
        invariant n <= |actions|
        invariant View() == HandledAll(start, actions[..n], support)
        invariant processed == Results(actions[..n], support)
        invariant errors == Errors(processed)
        invariant anyFailed == !AllSucceed(processed)
      {
        hide Handled, ResultOf;
        assert actions[..n + 1][..n] == actions[..n];
        var result := HandleAction(actions[n]);
        if result.error.Some? {
          errors := errors + [result.error.value];
        }
        assert (processed + [result])[..n] == processed;
        processed := processed + [result];
        anyFailed := anyFailed || !result.status.Success?;
        n := n + 1;
      }
      assert actions[..n] == actions;
      phase := if anyFailed then HandshakeFailed else AwaitingComplete;
      return Responds(Response(processed, errors));
    }

    method OnComplete() returns (ok: bool)
      modifies this`phase
      ensures ok == old(phase).AwaitingComplete?
      ensures View() == if ok then old(View()).(phase := Completed) else old(View())
    {
      if !phase.AwaitingComplete? {
        return false;
      }
      phase := Completed;
      return true;
    }
  }

  // -------------------------------------------------------------------------
  // Runs
  // -------------------------------------------------------------------------

  datatype Label = Request(version: string, actions: seq<Action>) | Complete

  /** The handler, every response produced, and the actions and the version of the request that was
      answered. */
  datatype History = History(handler: Handler, responses: seq<Response>, accepted: seq<Action>, version: Option<string>)

  function Step(h: History, event: Label, support: KmsSupport): History {
    match event
    case Request(version, actions) =>
      var answer := AnswerTo(h.handler, actions, support);
      History(Requested(h.handler, version, actions, support),
              if answer.Responds? then h.responses + [answer.response] else h.responses,
              if answer.Responds? then actions else h.accepted,
              if answer.Responds? then Some(version) else h.version)
    case Complete =>
      if h.handler.phase.AwaitingComplete? then h.(handler := h.handler.(phase := Completed)) else h
  }

  function Run(labels: seq<Label>, support: KmsSupport): History {
    if labels == [] then History(FRESH, [], [], None)
    else Step(Run(labels[..|labels| - 1], support), labels[|labels| - 1], support)
  }

  ghost predicate AsksForKms(actions: seq<Action>) { exists i :: 0 <= i < |actions| && actions[i].RequestKms? }

  /** The cipher of the last KMS action. */
  function LastKey(actions: seq<Action>): Option<Cipher> {
    if actions == [] then None
    else if actions[|actions| - 1].RequestKms? then actions[|actions| - 1].key
    else LastKey(actions[..|actions| - 1])
  }

  /** If every action succeeds, the handler ends up with exactly the last cipher negotiated. */
  lemma {:induction false} CipherNegotiated(h: Handler, actions: seq<Action>, support: KmsSupport)
    requires AllSucceed(Results(actions, support))
    ensures HandledAll(h, actions, support).crypto == if AsksForKms(actions) then LastKey(actions) else h.crypto
    ensures AsksForKms(actions) ==> LastKey(actions).Some?
  {
    if actions != [] {
      var before, a := actions[..|actions| - 1], actions[|actions| - 1];
      forall i | 0 <= i < |before| ensures Results(before, support)[i].status.Success? {
        assert Results(actions, support)[i] == Results(before, support)[i];
      }
      CipherNegotiated(h, before, support);
      assert Results(actions, support)[|actions| - 1] == ResultOf(a, support);
      if AsksForKms(before) {
        var i :| 0 <= i < |before| && before[i].RequestKms?;
        assert actions[i].RequestKms?;
      }
      if AsksForKms(actions) && !a.RequestKms? {
        var i :| 0 <= i < |actions| && actions[i].RequestKms?;
        assert before[i].RequestKms?;
      }
    }
  }

  ghost predicate Inv(h: History, support: KmsSupport) {
    && (h.handler.phase.AwaitingRequest? <==> h.responses == [])
    && (h.responses == [] ==> h.handler == FRESH)
    && (h.responses != [] ==>
        h.responses == [Response(Results(h.accepted, support), Errors(Results(h.accepted, support)))])
    && (h.handler.phase.HandshakeFailed? ==> !AllSucceed(Results(h.accepted, support)))
    && (h.handler.phase.AwaitingComplete? || h.handler.phase.Completed? ==>
        && AllSucceed(Results(h.accepted, support))
        && h.handler.crypto == if AsksForKms(h.accepted) then LastKey(h.accepted) else None)
  }

  lemma StepKeeps(h: History, event: Label, support: KmsSupport)
    requires Inv(h, support)
    ensures Inv(Step(h, event, support), support)
  {
    hide HandledAll, Errors, LastKey;
    if event.Request? && h.handler.phase.AwaitingRequest? {
      assert [] + [Response(Results(event.actions, support), Errors(Results(event.actions, support)))]
             == [Response(Results(event.actions, support), Errors(Results(event.actions, support)))];
      if AllSucceed(Results(event.actions, support)) {
        CipherNegotiated(h.handler.(version := Some(event.version)), event.actions, support);
      }
    }
  }

  lemma {:induction false} RunInv(labels: seq<Label>, support: KmsSupport)
    ensures Inv(Run(labels, support), support)
  {
    hide Step;
    if labels != [] {
      RunInv(labels[..|labels| - 1], support);
      StepKeeps(Run(labels[..|labels| - 1], support), labels[|labels| - 1], support);
    }
  }

  /** What the agent is told about an action: a session type is accepted if it can be read; encryption if
      this build and this session can do it, the parameters can be read and KMS hands out a key, which is
      then in the answer. Everything else is an error, and says which. */
  predicate AnsweredRightly(a: Action, support: KmsSupport, p: Processed) {
    match a
    case RequestSessionType(name) =>
      p == if name.Some? then Processed(false, Success, None, None) else Processed(false, Failed, None, Some(BadSessionType))
    case RequestKms(keyId, key) =>
      && p.isKms
      && (p.status.Success? <==> support.Client? && keyId.Some? && key.Some?)
      && (p.status.Success? ==> p.result == key && p.error.None?)
      && (!p.status.Success? ==> p.result.None?)
      && (p.status.Unsupported? <==> support.NotCompiled?)
      && (support.NotCompiled? <==> p.error == Some(KmsNotCompiled))
      && (support.NoClient? <==> p.error == Some(NoKmsClient))
      && (support.Client? && keyId.None? <==> p.error == Some(BadKmsParameters))
      && (support.Client? && keyId.Some? && key.None? <==> p.error == Some(KmsRefused))
  }

  lemma {:induction false} ErrorsWhenFailed(actions: seq<Action>, support: KmsSupport)
    ensures Errors(Results(actions, support)) == [] <==> AllSucceed(Results(actions, support))
  {
    var results := Results(actions, support);
    if actions != [] {
      var before := actions[..|actions| - 1];
      ErrorsWhenFailed(before, support);
      assert results[..|results| - 1] == Results(before, support);
      assert results[|results| - 1] == ResultOf(actions[|actions| - 1], support);
      assert forall i :: 0 <= i < |before| ==> results[i] == Results(before, support)[i];
    }
  }

  /** Over any sequence of requests and completions at most one response is produced, with one result
      per requested action in request order; the handshake completes only if every action succeeded,
      and fails only if some action did not. */
  lemma {:induction false} OneResponse(labels: seq<Label>, support: KmsSupport)
    ensures var h := Run(labels, support);
            && |h.responses| <= 1
            && (forall r :: r in h.responses ==>
                && |r.processed| == |h.accepted|
                && (forall i :: 0 <= i < |h.accepted| ==> AnsweredRightly(h.accepted[i], support, r.processed[i]))
                && (r.errors == [] <==> AllSucceed(r.processed))
                && (h.handler.phase.Completed? || h.handler.phase.AwaitingComplete? ==> AllSucceed(r.processed))
                && (h.handler.phase.HandshakeFailed? ==> !AllSucceed(r.processed)))
            && (h.handler.phase.Completed? ==> |h.responses| == 1)
  {
    hide Run, Errors, LastKey;
    RunInv(labels, support);
    ErrorsWhenFailed(Run(labels, support).accepted, support);
  }

  lemma LastKeyWitness(actions: seq<Action>, support: KmsSupport)
    requires AllSucceed(Results(actions, support)) && AsksForKms(actions)
    ensures LastKey(actions).Some?
    ensures exists i :: 0 <= i < |actions| && actions[i].RequestKms? && ResultOf(actions[i], support).result == LastKey(actions)
  {
    hide HandledAll;
    CipherNegotiated(FRESH, actions, support);
    LastKeyIsAnswered(actions, support);
  }

  lemma {:induction false} LastKeyIsAnswered(actions: seq<Action>, support: KmsSupport)
    requires AllSucceed(Results(actions, support)) && LastKey(actions).Some?
    ensures exists i :: 0 <= i < |actions| && actions[i].RequestKms? && ResultOf(actions[i], support).result == LastKey(actions)
  {
    var n := |actions| - 1;
    assert Results(actions, support)[n] == ResultOf(actions[n], support);
    if !actions[n].RequestKms? {
      var before := actions[..n];
      forall i | 0 <= i < n ensures Results(before, support)[i].status.Success? {
        assert Results(actions, support)[i] == Results(before, support)[i];
      }
      LastKeyIsAnswered(before, support);
      var i :| 0 <= i < |before| && before[i].RequestKms? && ResultOf(before[i], support).result == LastKey(before);
      assert actions[i] == before[i];
    }
  }

  /** Encryption is never silently lost: if the accepted request asked for KMS, then in AwaitingComplete
      and Completed there is a cipher, and it is one whose key the response sent to the agent; without
      such a request there is none. */
  lemma {:induction false} EncryptionIsKept(labels: seq<Label>, support: KmsSupport)
    ensures var h := Run(labels, support);
            h.handler.phase.AwaitingComplete? || h.handler.phase.Completed? ==>
              && (h.handler.crypto.Some? <==> AsksForKms(h.accepted))
              && (h.handler.crypto.Some? ==>
                  && h.handler.crypto == LastKey(h.accepted)
                  && |h.responses| == 1 && |h.responses[0].processed| == |h.accepted|
                  && exists i :: 0 <= i < |h.accepted| && h.accepted[i].RequestKms? && h.accepted[i].key == h.handler.crypto
                                 && h.responses[0].processed[i].result == h.handler.crypto)
  {
    hide Run, Errors, LastKey;
    RunInv(labels, support);
    var h := Run(labels, support);
    if (h.handler.phase.AwaitingComplete? || h.handler.phase.Completed?) && AsksForKms(h.accepted) {
      LastKeyWitness(h.accepted, support);
      var i :| 0 <= i < |h.accepted| && h.accepted[i].RequestKms?
               && ResultOf(h.accepted[i], support).result == LastKey(h.accepted);
      assert h.responses[0].processed[i] == ResultOf(h.accepted[i], support);
      assert Results(h.accepted, support)[i].status.Success?;
    }
  }

  /** How a further request or completion is met, in every reachable state: the first request gets a
      response, a failed handshake rejects every other, and otherwise it is a duplicate; a completion
      counts only while one is awaited. */
  lemma {:induction false} LaterRequests(labels: seq<Label>, actions: seq<Action>, support: KmsSupport)
    ensures var h := Run(labels, support);
            var answer := AnswerTo(h.handler, actions, support);
            && (answer.Responds? <==> h.responses == [])
            && (answer.Rejects? <==> h.responses != [] && !AllSucceed(Results(h.accepted, support)))
            && (Step(h, Complete, support).handler.phase.Completed? <==>
                h.responses != [] && AllSucceed(Results(h.accepted, support)))
  {
    hide Run, Errors, LastKey;
    RunInv(labels, support);
  }

  /** The session type of the last action that asked for one and could be read. */
  function LastType(actions: seq<Action>): Option<SessionType> {
    if actions == [] then None
    else
      var a := actions[|actions| - 1];
      if a.RequestSessionType? && a.name.Some? then
        Some(if a.name.value == "Port" then Port
             else if a.name.value == "InteractiveCommands" then InteractiveCommands
             else StandardStream)
      else LastType(actions[..|actions| - 1])
  }

  lemma {:induction false} TypeNegotiated(h: Handler, actions: seq<Action>, support: KmsSupport)
    requires h.sessionType.None?
    ensures HandledAll(h, actions, support).sessionType == LastType(actions)
    ensures HandledAll(h, actions, support).version == h.version
  {
    if actions != [] {
      TypeNegotiated(h, actions[..|actions| - 1], support);
    }
  }

  /** The handler keeps what the answered request said: the agent's version, and the session type it asked
      for last. */
  lemma {:induction false} SettingsKept(labels: seq<Label>, support: KmsSupport)
    ensures var h := Run(labels, support);
            && h.handler.version == h.version
            && h.handler.sessionType == LastType(h.accepted)
            && (h.version.Some? <==> h.responses != [])
  {
    hide HandledAll, Errors, ResultOf;
    if labels != [] {
      SettingsKept(labels[..|labels| - 1], support);
      RunInv(labels[..|labels| - 1], support);
      var h, event := Run(labels[..|labels| - 1], support), labels[|labels| - 1];
      if event.Request? && h.handler.phase.AwaitingRequest? {
        TypeNegotiated(h.handler.(version := Some(event.version)), event.actions, support);
      }
    }
  }

  /** Failed and Completed are never left: whatever arrives later, nothing in the handler changes any more
      and nothing more is answered. */
  lemma {:induction false} EndStatesAreFinal(labels: seq<Label>, more: seq<Label>, support: KmsSupport)
    requires var phase := Run(labels, support).handler.phase; phase.HandshakeFailed? || phase.Completed?
    ensures Run(labels + more, support) == Run(labels, support)
  {
    hide Errors, HandledAll;
    if more == [] {
      assert labels + more == labels;
    } else {
      EndStatesAreFinal(labels, more[..|more| - 1], support);
      assert (labels + more)[..|labels + more| - 1] == labels + more[..|more| - 1];
    }
  }
}
