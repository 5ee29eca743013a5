/**
  What the daemon tells those who ask: whoever is answered is told that the manager is ready exactly
  when it is, and an error only with the code of its cause.
 */
module Replies {
  import opened Prelude
  import opened Messages
  import opened Machines
  import opened Slices
  import opened SliceEffects

  /** The action asks for this answer. */
  predicate Gives(a: Action, request: nat, reply: Answer) {
    match a
    case AnswerReady(requests) => request in requests && reply == ReplyReady
    case AnswerError(requests, code) => request in requests && reply == ErrorReply(code)
    case _ => false
  }

  lemma ActionGives(s: Slice, next: nat, w: Answers, a: Action, request: nat, reply: Answer)
    requires Answered(request, reply) in Apply(s, next, w, a).effects
    ensures Gives(a, request, reply)
  {
    match a
    case AnswerReady(requests) => AnswerAllOnlyAnswers(s, next, w, requests, ReplyReady);
    case AnswerError(requests, code) => AnswerAllOnlyAnswers(s, next, w, requests, ErrorReply(code));
    case _ =>
  }

  /** An answer shown was asked for by an action. */
  lemma {:induction false} ActionsGive(s: Slice, next: nat, w: Answers, actions: seq<Action>, request: nat, reply: Answer)
    requires Answered(request, reply) in ApplyAll(s, next, w, actions).effects
    ensures exists a :: a in actions && Gives(a, request, reply)
    decreases |actions|
  {
    if actions == [] {
    } else {
      var first := Apply(s, next, w, actions[0]);
      if Answered(request, reply) in first.effects {
        ActionGives(s, next, w, actions[0], request, reply);
        assert actions[0] in actions;
      } else {
        ActionsGive(first.slice, first.next, first.answers, actions[1..], request, reply);
        var a :| a in actions[1..] && Gives(a, request, reply);
        assert a in actions;
      }
    }
  }

  lemma SettlingGives(s: Slice, next: nat, w: Answers, outcome: Outcome, request: nat, reply: Answer)
    requires Answered(request, reply) in Settle(s, next, w, outcome).effects
    requires forall a :: a in outcome.actions ==> !a.SpawnHelper?
    ensures exists a :: a in outcome.actions && Gives(a, request, reply)
    ensures Settle(s, next, w, outcome).slice.machine == outcome.machine
  {
    ActionsGive(s.(machine := outcome.machine), next, w, outcome.actions, request, reply);
    ActionsKeepMachine(s.(machine := outcome.machine), next, w, outcome.actions);
  }

  /** What a request may be told in the step `op` that leads its user from `s` to `after`. */
  predicate CallsFor(s: Slice, op: Op, after: Slice, request: nat, reply: Answer) {
    match reply
    case ReplyReady => after.machine.state.Ready?
    case ReplyError(code, text) =>
      && !after.machine.state.Ready? && text == GENERIC_TEXT
      && match code
         case SessionIneligible => op.Recount? && s.ids != {} && after.ids == {}
         case TimedOut => op == Expire(request)
         case Internal => op.StopAll?
         case _ => false
  }

  lemma RecountAnswersAreDue(s: Slice, next: nat, w: Answers, ids: set<SessionId>, request: nat, reply: Answer)
    requires Sound(s) && Answered(request, reply) in Perform(s, next, w, Recount(ids)).effects
    ensures CallsFor(s, Recount(ids), Perform(s, next, w, Recount(ids)).slice, request, reply)
  {
    var outcome := SetEligible(s.machine, |ids|);
    var counted := s.(ids := ids);
    if outcome.actions == [SpawnHelper] {
      ApplyOne(counted.(machine := outcome.machine), next, w, SpawnHelper);
    } else {
      SettlingGives(counted, next, w, outcome, request, reply);
      RecountKeepsSound(s, next, w, ids);
    }
  }

  lemma JoinAnswersAreDue(s: Slice, next: nat, w: Answers, joining: nat, request: nat, reply: Answer)
    requires Answered(request, reply) in Perform(s, next, w, Join(joining)).effects
    ensures CallsFor(s, Join(joining), Perform(s, next, w, Join(joining)).slice, request, reply)
  {
    SettlingGives(s.(pending := s.pending + {joining}), next, w, AddRequest(s.machine, joining), request, reply);
  }

  lemma HearAnswersAreDue(s: Slice, next: nat, w: Answers, g: nat, m: Report, verified: bool, request: nat, reply: Answer)
    requires HasHelper(s, g) && Answered(request, reply) in HearMessage(s, next, w, g, m, verified).effects
    ensures reply.ReplyReady? && HearMessage(s, next, w, g, m, verified).slice.machine.state.Ready?
  {
    match m
    case LeaseOpened(session, _) =>
      var leased := s.(helper := Some(s.helper.value.(lease := Some(session))));
      var sent := Send(leased, next, w, g, LeaseAccepted);
      if verified && w.accepts > 0 {
        ActionsGive(sent.slice, sent.next, sent.answers, LeaseAcceptedActions(sent.slice.machine), request, reply);
      }
    case ReadySucceeded => SettlingGives(s, next, w, ReadySucceededIn(s.machine, g), request, reply);
    case StartFailed(_) => SettlingGives(s, next, w, StartupFailedIn(s.machine, g), request, reply);
    case ManagerExited(_) =>
      var handle := s.helper.value.(managerPid := None);
      SettlingGives(s.(helper := Some(handle)), next, w, ManagerExitedIn(s.machine, g), request, reply);
    case _ =>
  }

  /** The exit of a helper answers nobody: whoever waits has a session, and will get a new helper. */
  lemma ExitAnswersNobody(s: Slice, next: nat, w: Answers, g: nat, request: nat, reply: Answer)
    requires Sound(s) && HasHelper(s, g)
    ensures Answered(request, reply) !in HearExit(s, next, w, g).effects
  {
    var outcome := HelperExitedFrom(s.machine, g);
    assert WithoutSpawns([SpawnHelper]) == [];
    assert WithoutSpawns(outcome.actions) == [];
  }

  lemma StopAnswersAreDue(s: Slice, next: nat, w: Answers, request: nat, reply: Answer)
    requires Answered(request, reply) in Perform(s, next, w, StopAll).effects
    ensures reply == ErrorReply(ErrorCode.Internal) && Perform(s, next, w, StopAll).slice.machine.state.Stopping?
  {
    SettlingGives(s, next, w, BeginShutdown(s.machine), request, reply);
  }

  /**
    Whoever is answered in a step that leaves the machine ready is told so, and nobody else is. An
    error means that the user's last session has gone, that the request itself has expired, or that
    the daemon shuts down, and has the code that says which.
   */
  lemma AnswersAreDue(s: Slice, next: nat, w: Answers, op: Op, request: nat, reply: Answer)
    requires Sound(s) && (Allowed(s, op) || op.StopAll?)
    requires Answered(request, reply) in Perform(s, next, w, op).effects
    ensures CallsFor(s, op, Perform(s, next, w, op).slice, request, reply)
  {
    match op
    case Recount(ids) => RecountAnswersAreDue(s, next, w, ids, request, reply);
    case Join(joining) => JoinAnswersAreDue(s, next, w, joining, request, reply);
    case Expire(_) =>
    case Hear(g, m, verified) => HearAnswersAreDue(s, next, w, g, m, verified, request, reply);
    case HelperGone(g) => ExitAnswersNobody(s, next, w, g, request, reply);
    case BackoffFires(g, attempt) =>
      SettlingGives(Fired(s, g, attempt), next, w, Machines.BackoffElapsed(s.machine, g, attempt), request, reply);
    case StopAll => StopAnswersAreDue(s, next, w, request, reply);
    case SpawnFires =>
    case LeaseLost =>
  }

  lemma {:induction false} AnsweredIsShown(effects: seq<Effect>, request: nat)
    requires request in AnsweredIn(effects)
    ensures exists reply :: Answered(request, reply) in effects
  {
    if effects[0].Answered? && effects[0].request == request {
      assert Answered(request, effects[0].reply) in effects;
    } else {
      AnsweredIsShown(effects[1..], request);
      var reply :| Answered(request, reply) in effects[1..];
      assert Answered(request, reply) in effects;
    }
  }

  /**
    Conversely a step that leaves the machine ready, or the user without a session, answers everyone
    who is waiting, the one who joins in it included.
   */
  lemma NobodyWaitsInVain(s: Slice, next: nat, w: Answers, op: Op, request: nat)
    requires Sound(s) && Allowed(s, op) && request in PendingIn(s, op)
    requires var after := Perform(s, next, w, op).slice; after.machine.state.Ready? || after.ids == {}
    ensures exists reply :: Answered(request, reply) in Perform(s, next, w, op).effects
  {
    PerformKeepsSound(s, next, w, op);
    PerformAccounts(s, next, w, op);
    AnsweredIsShown(Perform(s, next, w, op).effects, request);
  }

  /** A request of a user whose manager is ready is answered so at once. */
  lemma ReadyIsToldAtOnce(s: Slice, next: nat, w: Answers, request: nat)
    requires Sound(s) && Allowed(s, Join(request)) && s.machine.state.Ready?
    ensures Answered(request, ReplyReady) in Perform(s, next, w, Join(request)).effects
  {
    ActionsKeepMachine(s.(pending := s.pending + {request}), next, w, AddRequest(s.machine, request).actions);
    NobodyWaitsInVain(s, next, w, Join(request), request);
    var reply :| Answered(request, reply) in Perform(s, next, w, Join(request)).effects;
    AnswersAreDue(s, next, w, Join(request), request, reply);
  }
}
