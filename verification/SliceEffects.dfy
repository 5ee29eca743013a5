/** What a step of the event loop can show to the outside: answers, launches and messages. */
module SliceEffects {
  import opened Prelude
  import opened Messages
  import opened Machines
  import opened Slices

  // ---- Answers ----

  /** Effects that concern no helper process. */
  predicate Quiet(effects: seq<Effect>) {
    forall e :: e in effects ==> e.Answered? || e.Scheduled?
  }

  lemma {:induction false} AnswerAllOnlyAnswers(s: Slice, next: nat, w: Answers, requests: seq<nat>, reply: Answer)
    ensures var effects := AnswerAll(s, next, w, requests, reply).effects;
            forall e :: e in effects ==> e.Answered? && e.reply == reply && e.request in s.pending && e.request in requests
    decreases |requests|
  {
    if requests == [] {
    } else {
      var removed := s.(pending := s.pending - {requests[0]});
      AnswerAllOnlyAnswers(if requests[0] in s.pending then removed else s, next, w, requests[1..], reply);
      assert requests == [requests[0]] + requests[1..];
    }
  }

  /** The requests answered by a list of effects, with multiplicity. */
  function AnsweredIn(effects: seq<Effect>): multiset<nat> {
    if effects == [] then multiset{}
    else (if effects[0].Answered? then multiset{effects[0].request} else multiset{}) + AnsweredIn(effects[1..])
  }

  lemma {:induction false} AnsweredConcat(a: seq<Effect>, b: seq<Effect>)
    ensures AnsweredIn(a + b) == AnsweredIn(a) + AnsweredIn(b)
  {
    if a == [] {
      assert a + b == b;
    } else {
      assert (a + b)[0] == a[0] && (a + b)[1..] == a[1..] + b;
      AnsweredConcat(a[1..], b);
    }
  }

  /** A step answers `answered` and leaves `after` of the requests `before`. */
  predicate Accounts(before: set<nat>, after: set<nat>, answered: multiset<nat>) {
    after <= before && answered == multiset(before - after)
  }

  lemma AccountsCompose(a: set<nat>, b: set<nat>, c: set<nat>, first: multiset<nat>, second: multiset<nat>)
    requires Accounts(a, b, first) && Accounts(b, c, second)
    ensures Accounts(a, c, first + second)
  {
    assert a - c == (a - b) + (b - c);
  }

  lemma {:induction false} AnswerAllAccounts(s: Slice, next: nat, w: Answers, requests: seq<nat>, reply: Answer)
    ensures var step := AnswerAll(s, next, w, requests, reply);
            Accounts(s.pending, step.slice.pending, AnsweredIn(step.effects))
    decreases |requests|
  {
    if requests == [] {
    } else {
      var removed := s.(pending := s.pending - {requests[0]});
      if requests[0] in s.pending {
        AnswerAllAccounts(removed, next, w, requests[1..], reply);
        var rest := AnswerAll(removed, next, w, requests[1..], reply);
        var effects := [Answered(requests[0], reply)] + rest.effects;
        assert effects[1..] == rest.effects;
        AccountsCompose(s.pending, removed.pending, rest.slice.pending, multiset{requests[0]}, AnsweredIn(rest.effects));
      } else {
        AnswerAllAccounts(s, next, w, requests[1..], reply);
      }
    }
  }

  lemma ApplyAccounts(s: Slice, next: nat, w: Answers, a: Action)
    ensures var step := Apply(s, next, w, a);
            Accounts(s.pending, step.slice.pending, AnsweredIn(step.effects))
  {
    match a
    case AnswerReady(requests) => AnswerAllAccounts(s, next, w, requests, ReplyReady);
    case AnswerError(requests, code) => AnswerAllAccounts(s, next, w, requests, ErrorReply(code));
    case _ =>
  }

  lemma {:induction false} ApplyAllAccounts(s: Slice, next: nat, w: Answers, actions: seq<Action>)
    ensures var step := ApplyAll(s, next, w, actions);
            Accounts(s.pending, step.slice.pending, AnsweredIn(step.effects))
    decreases |actions|
  {
    if actions == [] {
    } else {
      var first := Apply(s, next, w, actions[0]);
      ApplyAccounts(s, next, w, actions[0]);
      ApplyAllAccounts(first.slice, first.next, first.answers, actions[1..]);
      var rest := ApplyAll(first.slice, first.next, first.answers, actions[1..]);
      AnsweredConcat(first.effects, rest.effects);
      AccountsCompose(s.pending, first.slice.pending, rest.slice.pending, AnsweredIn(first.effects), AnsweredIn(rest.effects));
    }
  }

  /** The pending requests a step starts from, including one that joins in it. */
  function PendingIn(s: Slice, op: Op): set<nat> {
    if op.Join? then s.pending + {op.request} else s.pending
  }

  lemma SettleAccounts(s: Slice, next: nat, w: Answers, outcome: Outcome)
    ensures var step := Settle(s, next, w, outcome);
            Accounts(s.pending, step.slice.pending, AnsweredIn(step.effects))
  {
    ApplyAllAccounts(s.(machine := outcome.machine), next, w, outcome.actions);
  }

  lemma HearLeaseAccounts(s: Slice, next: nat, w: Answers, g: nat, session: SessionId, verified: bool)
    requires HasHelper(s, g)
    ensures var step := HearLease(s, next, w, g, session, verified);
            Accounts(s.pending, step.slice.pending, AnsweredIn(step.effects))
  {
    if verified {
      var leased := s.(helper := Some(s.helper.value.(lease := Some(session))));
      var sent := Send(leased, next, w, g, LeaseAccepted);
      SendAnswersNothing(leased, next, w, g, LeaseAccepted);
      ThenAccounts(sent, LeaseAcceptedActions(sent.slice.machine));
    } else {
      SendAnswersNothing(s, next, w, g, LeaseRejected(REJECTION_TEXT));
    }
  }

  lemma SendAnswersNothing(s: Slice, next: nat, w: Answers, g: nat, c: Command)
    ensures var step := Send(s, next, w, g, c);
            step.slice == s && step.next == next && AnsweredIn(step.effects) == multiset{}
  {
  }

  lemma ThenAccounts(first: Step, actions: seq<Action>)
    requires AnsweredIn(first.effects) == multiset{}
    ensures var step := Then(first, actions);
            Accounts(first.slice.pending, step.slice.pending, AnsweredIn(step.effects))
  {
    ApplyAllAccounts(first.slice, first.next, first.answers, actions);
    AnsweredConcat(first.effects, ApplyAll(first.slice, first.next, first.answers, actions).effects);
  }

  lemma HearAccounts(s: Slice, next: nat, w: Answers, g: nat, message: Report, verified: bool)
    requires HasHelper(s, g)
    ensures var step := HearMessage(s, next, w, g, message, verified);
            Accounts(s.pending, step.slice.pending, AnsweredIn(step.effects))
  {
    match message
    case LeaseOpened(session, _) => HearLeaseAccounts(s, next, w, g, session, verified);
    case ReadySucceeded => SettleAccounts(s, next, w, ReadySucceededIn(s.machine, g));
    case StartFailed(_) => SettleAccounts(s, next, w, StartupFailedIn(s.machine, g));
    case ManagerExited(_) =>
      var handle := s.helper.value.(managerPid := None);
      SettleAccounts(s.(helper := Some(handle)), next, w, ManagerExitedIn(s.machine, g));
    case _ =>
  }

  /** Every step answers a pending request exactly when it stops being pending, and answers it once. */
  lemma PerformAccounts(s: Slice, next: nat, w: Answers, op: Op)
    ensures var step := Perform(s, next, w, op);
            Accounts(PendingIn(s, op), step.slice.pending, AnsweredIn(step.effects))
  {
    match op
    case Recount(ids) => SettleAccounts(s.(ids := ids), next, w, SetEligible(s.machine, |ids|));
    case Join(request) =>
      SettleAccounts(s.(pending := s.pending + {request}), next, w, AddRequest(s.machine, request));
    case Expire(request) =>
      assert s.pending - (s.pending - {request}) == s.pending * {request};
    case Hear(g, message, verified) =>
      if HasHelper(s, g) {
        HearAccounts(s, next, w, g, message, verified);
      }
    case HelperGone(g) =>
      if HasHelper(s, g) {
        var outcome := HelperExitedFrom(s.machine, g);
        SettleAccounts(s.(helper := None), next, w, outcome.(actions := WithoutSpawns(outcome.actions)));
      }
    case BackoffFires(g, attempt) => SettleAccounts(Fired(s, g, attempt), next, w, BackoffElapsed(s.machine, g, attempt));
    case SpawnFires => SpawnFiresAccounts(s, next, w);
    case LeaseLost => LeaseLossAccounts(s, next, w);
    case StopAll => SettleAccounts(s, next, w, BeginShutdown(s.machine));
  }

  lemma SpawnFiresAccounts(s: Slice, next: nat, w: Answers)
    ensures var step := Perform(s, next, w, SpawnFires);
            Accounts(s.pending, step.slice.pending, AnsweredIn(step.effects))
  {
  }

  lemma LeaseLossAccounts(s: Slice, next: nat, w: Answers)
    ensures var step := Perform(s, next, w, LeaseLost);
            Accounts(s.pending, step.slice.pending, AnsweredIn(step.effects))
  {
    if s.helper.Some? && s.helper.value.lease.Some? {
      var g := s.helper.value.generation;
      SendAnswersNothing(s.(machine := Doomed(s.machine, g)), next, w, g, Shutdown);
    }
  }

  // ---- Who is launched and who is written to ----

  predicate OnlyTo(effects: seq<Effect>, g: nat) {
    forall e :: e in effects ==> e.Answered? || e.Scheduled? || ((e.Sent? || e.SendFailed?) && e.generation == g)
  }

  lemma ActionWithHelper(s: Slice, next: nat, w: Answers, a: Action, g: nat)
    requires HasHelper(s, g)
    ensures var step := Apply(s, next, w, a);
            step.slice.helper == s.helper && step.next == next && OnlyTo(step.effects, g)
  {
    match a
    case AnswerReady(requests) =>
      AnswerAllRemoves(s, next, w, requests, ReplyReady);
      AnswerAllOnlyAnswers(s, next, w, requests, ReplyReady);
    case AnswerError(requests, code) =>
      AnswerAllRemoves(s, next, w, requests, ErrorReply(code));
      AnswerAllOnlyAnswers(s, next, w, requests, ErrorReply(code));
    case _ =>
  }

  lemma {:induction false} ActionsWithHelper(s: Slice, next: nat, w: Answers, actions: seq<Action>, g: nat)
    requires HasHelper(s, g)
    ensures var step := ApplyAll(s, next, w, actions);
            step.slice.helper == s.helper && step.next == next && OnlyTo(step.effects, g)
    decreases |actions|
  {
    if actions == [] {
    } else {
      var first := Apply(s, next, w, actions[0]);
      ActionWithHelper(s, next, w, actions[0], g);
      ActionsWithHelper(first.slice, first.next, first.answers, actions[1..], g);
    }
  }

  lemma ActionWithoutHelper(s: Slice, next: nat, w: Answers, a: Action)
    requires s.helper.None? && !a.SpawnHelper?
    ensures var step := Apply(s, next, w, a);
            step.slice.helper == None && step.next == next && Quiet(step.effects)
  {
    match a
    case AnswerReady(requests) =>
      AnswerAllRemoves(s, next, w, requests, ReplyReady);
      AnswerAllOnlyAnswers(s, next, w, requests, ReplyReady);
    case AnswerError(requests, code) =>
      AnswerAllRemoves(s, next, w, requests, ErrorReply(code));
      AnswerAllOnlyAnswers(s, next, w, requests, ErrorReply(code));
    case _ =>
  }

  lemma {:induction false} ActionsWithoutHelper(s: Slice, next: nat, w: Answers, actions: seq<Action>)
    requires s.helper.None? && forall a :: a in actions ==> !a.SpawnHelper?
    ensures var step := ApplyAll(s, next, w, actions);
            step.slice.helper == None && step.next == next && Quiet(step.effects)
    decreases |actions|
  {
    if actions == [] {
    } else {
      var first := Apply(s, next, w, actions[0]);
      ActionWithoutHelper(s, next, w, actions[0]);
      assert actions == [actions[0]] + actions[1..];
      ActionsWithoutHelper(first.slice, first.next, first.answers, actions[1..]);
    }
  }

  lemma {:induction false} WithoutSpawnsHasNone(actions: seq<Action>)
    ensures forall a :: a in WithoutSpawns(actions) ==> !a.SpawnHelper?
  {
    if actions == [] {
    } else {
      WithoutSpawnsHasNone(actions[1..]);
    }
  }

  /** While a helper is registered, a step launches no other and writes to no other. */
  lemma StepWithHelper(s: Slice, next: nat, w: Answers, op: Op, g: nat)
    requires HasHelper(s, g)
    ensures var step := Perform(s, next, w, op);
            && step.next == next
            && OnlyTo(step.effects, g)
            && (if op == HelperGone(g) then step.slice.helper == None else HasHelper(step.slice, g))
  {
    match op
    case Recount(ids) =>
      var outcome := SetEligible(s.machine, |ids|);
      ActionsWithHelper(s.(ids := ids, machine := outcome.machine), next, w, outcome.actions, g);
    case Join(request) =>
      var outcome := AddRequest(s.machine, request);
      ActionsWithHelper(s.(pending := s.pending + {request}, machine := outcome.machine), next, w, outcome.actions, g);
    case Hear(h, message, verified) =>
      if h == g {
        HearWithHelper(s, next, w, g, message, verified);
      }
    case HelperGone(h) =>
      if h == g {
        var outcome := HelperExitedFrom(s.machine, g);
        WithoutSpawnsHasNone(outcome.actions);
        ActionsWithoutHelper(s.(helper := None, machine := outcome.machine), next, w, WithoutSpawns(outcome.actions));
      }
    case BackoffFires(h, attempt) =>
      var fired := Fired(s, h, attempt);
      var outcome := BackoffElapsed(s.machine, h, attempt);
      ActionsWithHelper(fired.(machine := outcome.machine), next, w, outcome.actions, g);
    case StopAll =>
      var outcome := BeginShutdown(s.machine);
      ActionsWithHelper(s.(machine := outcome.machine), next, w, outcome.actions, g);
    case _ =>
  }

  lemma HearWithHelper(s: Slice, next: nat, w: Answers, g: nat, message: Report, verified: bool)
    requires HasHelper(s, g)
    ensures var step := HearMessage(s, next, w, g, message, verified);
            step.next == next && OnlyTo(step.effects, g) && HasHelper(step.slice, g)
  {
    match message
    case LeaseOpened(session, _) =>
      var leased := s.(helper := Some(s.helper.value.(lease := Some(session))));
      var sent := Send(leased, next, w, g, LeaseAccepted);
      ActionsWithHelper(sent.slice, sent.next, sent.answers, LeaseAcceptedActions(sent.slice.machine), g);
    case ReadySucceeded =>
      var outcome := ReadySucceededIn(s.machine, g);
      ActionsWithHelper(s.(machine := outcome.machine), next, w, outcome.actions, g);
    case StartFailed(_) =>
      var outcome := StartupFailedIn(s.machine, g);
      ActionsWithHelper(s.(machine := outcome.machine), next, w, outcome.actions, g);
    case ManagerExited(_) =>
      var outcome := ManagerExitedIn(s.machine, g);
      var handle := s.helper.value.(managerPid := None);
      ActionsWithHelper(s.(helper := Some(handle), machine := outcome.machine), next, w, outcome.actions, g);
    case _ =>
  }

  /** The slice after a successful spawn under the generation `next`. */
  predicate JustLaunched(step: Step, next: nat) {
    && step.slice.helper == Some(Handle(next, None, None))
    && step.slice.machine.state == Starting(next, 1, None)
    && step.next == next + 1
    && step.effects == [Launched(next)]
  }

  /** Without a registered helper a step writes to nobody and launches at most one, as the next generation. */
  lemma StepWithoutHelper(s: Slice, next: nat, w: Answers, op: Op)
    requires s.helper.None? && s.machine.state.Absent?
    ensures var step := Perform(s, next, w, op);
            || JustLaunched(step, next)
            || (step.slice.helper == None && next <= step.next && Quiet(step.effects))
    ensures JustLaunched(Perform(s, next, w, op), next) ==> Perform(s, next, w, op).slice.machine.eligible > 0
  {
    match op
    case Recount(ids) =>
      var outcome := SetEligible(s.machine, |ids|);
      var after := s.(ids := ids, machine := outcome.machine);
      if outcome.actions == [SpawnHelper] {
        ApplyOne(after, next, w, SpawnHelper);
      } else {
        ActionsWithoutHelper(after, next, w, outcome.actions);
      }
    case Join(request) =>
      var outcome := AddRequest(s.machine, request);
      ActionsWithoutHelper(s.(pending := s.pending + {request}, machine := outcome.machine), next, w, outcome.actions);
    case BackoffFires(h, attempt) =>
      var fired := Fired(s, h, attempt);
      ActionsWithoutHelper(fired, next, w, []);
    case _ =>
  }

  // ---- Ready answers and start commands ----

  predicate NoReady(effects: seq<Effect>) {
    forall e :: e in effects && e.Answered? ==> !e.reply.ReplyReady?
  }

  lemma NoReadyWithoutAnswerReady(s: Slice, next: nat, w: Answers, a: Action)
    requires !a.AnswerReady?
    ensures NoReady(Apply(s, next, w, a).effects)
  {
    if a.AnswerError? {
      AnswerAllOnlyAnswers(s, next, w, a.requests, ErrorReply(a.code));
    }
  }

  lemma {:induction false} NoReadyInActions(s: Slice, next: nat, w: Answers, actions: seq<Action>)
    requires forall a :: a in actions ==> !a.AnswerReady?
    ensures NoReady(ApplyAll(s, next, w, actions).effects)
    decreases |actions|
  {
    if actions == [] {
    } else {
      var first := Apply(s, next, w, actions[0]);
      assert actions == [actions[0]] + actions[1..];
      NoReadyWithoutAnswerReady(s, next, w, actions[0]);
      NoReadyInActions(first.slice, first.next, first.answers, actions[1..]);
    }
  }

  lemma {:induction false} WithoutSpawnsIsSubset(actions: seq<Action>)
    ensures forall a :: a in WithoutSpawns(actions) ==> a in actions
  {
    if actions == [] {
    } else {
      WithoutSpawnsIsSubset(actions[1..]);
      assert actions == [actions[0]] + actions[1..];
    }
  }

  /** A request is answered with `Ready` only in a step that leaves the machine ready. */
  lemma ReadyAnswersComeFromReady(s: Slice, next: nat, w: Answers, op: Op)
    ensures var step := Perform(s, next, w, op);
            NoReady(step.effects) || (step.slice.machine.state.Ready? && !op.HelperGone?)
  {
    match op
    case Recount(ids) =>
      var outcome := SetEligible(s.machine, |ids|);
      NoReadyInActions(s.(ids := ids, machine := outcome.machine), next, w, outcome.actions);
    case Join(request) =>
      if s.machine.state.Ready? {
        var joined := s.(pending := s.pending + {request});
        ActionsKeepMachine(joined, next, w, [AnswerReady([request])]);
      }
    case Hear(g, message, verified) =>
      if HasHelper(s, g) {
        HearReady(s, next, w, g, message, verified);
      }
    case HelperGone(g) =>
      if HasHelper(s, g) {
        var outcome := HelperExitedFrom(s.machine, g);
        WithoutSpawnsIsSubset(outcome.actions);
        NoReadyInActions(s.(helper := None, machine := outcome.machine), next, w, WithoutSpawns(outcome.actions));
      }
    case BackoffFires(g, attempt) =>
      var fired := Fired(s, g, attempt);
      var outcome := BackoffElapsed(s.machine, g, attempt);
      NoReadyInActions(fired.(machine := outcome.machine), next, w, outcome.actions);
    case StopAll =>
      var outcome := BeginShutdown(s.machine);
      NoReadyInActions(s.(machine := outcome.machine), next, w, outcome.actions);
    case _ =>
  }

  lemma {:induction false} ActionsKeepMachine(s: Slice, next: nat, w: Answers, actions: seq<Action>)
    requires forall a :: a in actions ==> !a.SpawnHelper?
    ensures ApplyAll(s, next, w, actions).slice.machine == s.machine
    decreases |actions|
  {
    if actions == [] {
    } else {
      var first := Apply(s, next, w, actions[0]);
      assert actions == [actions[0]] + actions[1..];
      if actions[0].AnswerReady? {
        AnswerAllRemoves(s, next, w, actions[0].requests, ReplyReady);
      } else if actions[0].AnswerError? {
        AnswerAllRemoves(s, next, w, actions[0].requests, ErrorReply(actions[0].code));
      }
      ActionsKeepMachine(first.slice, first.next, first.answers, actions[1..]);
    }
  }

  lemma HearReady(s: Slice, next: nat, w: Answers, g: nat, message: Report, verified: bool)
    requires HasHelper(s, g)
    ensures var step := HearMessage(s, next, w, g, message, verified);
            NoReady(step.effects) || step.slice.machine.state.Ready?
  {
    match message
    case LeaseOpened(session, _) =>
      var leased := s.(helper := Some(s.helper.value.(lease := Some(session))));
      var sent := Send(leased, next, w, g, LeaseAccepted);
      NoReadyInActions(sent.slice, sent.next, sent.answers, LeaseAcceptedActions(sent.slice.machine));
    case ReadySucceeded =>
      var outcome := ReadySucceededIn(s.machine, g);
      ActionsKeepMachine(s.(machine := outcome.machine), next, w, outcome.actions);
    case StartFailed(_) =>
      var outcome := StartupFailedIn(s.machine, g);
      NoReadyInActions(s.(machine := outcome.machine), next, w, outcome.actions);
    case ManagerExited(_) =>
      var handle := s.helper.value.(managerPid := None);
      var outcome := ManagerExitedIn(s.machine, g);
      NoReadyInActions(s.(helper := Some(handle), machine := outcome.machine), next, w, outcome.actions);
    case _ =>
  }

  predicate IsStart(e: Effect) {
    (e.Sent? || e.SendFailed?) && e.command.StartManager?
  }

  function StartsIn(effects: seq<Effect>): nat {
    if effects == [] then 0 else (if IsStart(effects[0]) then 1 else 0) + StartsIn(effects[1..])
  }

  function RequestsIn(actions: seq<Action>): nat {
    if actions == [] then 0 else (if actions[0].RequestStart? then 1 else 0) + RequestsIn(actions[1..])
  }

  lemma {:induction false} StartsConcat(a: seq<Effect>, b: seq<Effect>)
    ensures StartsIn(a + b) == StartsIn(a) + StartsIn(b)
  {
    if a == [] {
      assert a + b == b;
    } else {
      assert (a + b)[0] == a[0] && (a + b)[1..] == a[1..] + b;
      StartsConcat(a[1..], b);
    }
  }

  lemma {:induction false} AnswersStartNothing(effects: seq<Effect>)
    requires Quiet(effects)
    ensures StartsIn(effects) == 0
  {
    if effects == [] {
    } else {
      assert effects[0] in effects;
      AnswersStartNothing(effects[1..]);
    }
  }

  lemma {:induction false} StartInEffects(effects: seq<Effect>, e: Effect)
    requires e in effects && IsStart(e)
    ensures StartsIn(effects) > 0
  {
    if effects[0] != e {
      assert effects == [effects[0]] + effects[1..];
      StartInEffects(effects[1..], e);
    }
  }

  lemma ActionStarts(s: Slice, next: nat, w: Answers, a: Action)
    ensures StartsIn(Apply(s, next, w, a).effects) <= (if a.RequestStart? then 1 else 0)
  {
    match a
    case AnswerReady(requests) =>
      AnswerAllOnlyAnswers(s, next, w, requests, ReplyReady);
      AnswersStartNothing(Apply(s, next, w, a).effects);
    case AnswerError(requests, code) =>
      AnswerAllOnlyAnswers(s, next, w, requests, ErrorReply(code));
      AnswersStartNothing(Apply(s, next, w, a).effects);
    case _ =>
  }

  lemma {:induction false} ActionsStart(s: Slice, next: nat, w: Answers, actions: seq<Action>)
    ensures StartsIn(ApplyAll(s, next, w, actions).effects) <= RequestsIn(actions)
    decreases |actions|
  {
    if actions == [] {
    } else {
      var first := Apply(s, next, w, actions[0]);
      ActionStarts(s, next, w, actions[0]);
      ActionsStart(first.slice, first.next, first.answers, actions[1..]);
      StartsConcat(first.effects, ApplyAll(first.slice, first.next, first.answers, actions[1..]).effects);
    }
  }

  lemma {:induction false} NoRequestsIn(actions: seq<Action>)
    requires forall a :: a in actions ==> !a.RequestStart?
    ensures RequestsIn(actions) == 0
  {
    if actions == [] {
    } else {
      assert actions[0] in actions;
      NoRequestsIn(actions[1..]);
    }
  }

  lemma NoRequestsToCount(m: Machine, count: nat, request: nat)
    ensures RequestsIn(SetEligible(m, count).actions) == 0
    ensures RequestsIn(AddRequest(m, request).actions) == 0
    ensures RequestsIn(BeginShutdown(m).actions) == 0
  {
    NoRequestsIn(SetEligible(m, count).actions);
    NoRequestsIn(BeginShutdown(m).actions);
  }

  lemma NoRequestsOf(m: Machine, g: nat)
    ensures RequestsIn(ReadySucceededIn(m, g).actions) == 0
    ensures RequestsIn(StartupFailedIn(m, g).actions) == 0
    ensures RequestsIn(ManagerExitedIn(m, g).actions) == 0
  {
  }

  lemma NoRequestsOfExit(m: Machine, g: nat)
    ensures RequestsIn(WithoutSpawns(HelperExitedFrom(m, g).actions)) == 0
  {
    assert WithoutSpawns([SpawnHelper]) == [];
  }

  lemma StartsOfLease(s: Slice, next: nat, w: Answers, g: nat, session: SessionId, verified: bool)
    requires HasHelper(s, g)
    ensures StartsIn(HearLease(s, next, w, g, session, verified).effects) <=
            (if verified && LeaseAcceptedActions(s.machine) != [] then 1 else 0)
  {
    if verified {
      var leased := s.(helper := Some(s.helper.value.(lease := Some(session))));
      var sent := Send(leased, next, w, g, LeaseAccepted);
      var actions := LeaseAcceptedActions(sent.slice.machine);
      assert StartsIn(sent.effects) == 0;
      ActionsStart(sent.slice, sent.next, sent.answers, actions);
      StartsConcat(sent.effects, ApplyAll(sent.slice, sent.next, sent.answers, actions).effects);
    }
  }

  lemma StartsOfSettling(s: Slice, next: nat, w: Answers, outcome: Outcome)
    ensures StartsIn(Settle(s, next, w, outcome).effects) <= RequestsIn(outcome.actions)
  {
    ActionsStart(s.(machine := outcome.machine), next, w, outcome.actions);
  }

  lemma StartsOfHear(s: Slice, next: nat, w: Answers, g: nat, message: Report, verified: bool)
    requires HasHelper(s, g)
    ensures StartsIn(HearMessage(s, next, w, g, message, verified).effects) <=
            (if message.LeaseOpened? && verified && LeaseAcceptedActions(s.machine) != [] then 1 else 0)
  {
    NoRequestsOf(s.machine, g);
    match message
    case LeaseOpened(session, _) => StartsOfLease(s, next, w, g, session, verified);
    case ReadySucceeded => StartsOfSettling(s, next, w, ReadySucceededIn(s.machine, g));
    case StartFailed(_) => StartsOfSettling(s, next, w, StartupFailedIn(s.machine, g));
    case ManagerExited(_) =>
      var handle := s.helper.value.(managerPid := None);
      StartsOfSettling(s.(helper := Some(handle)), next, w, ManagerExitedIn(s.machine, g));
    case _ =>
  }

  /** Only accepting a lease and the end of a backoff ask for a start, and for at most one. */
  predicate Starts(s: Slice, op: Op) {
    || (op.Hear? && HasHelper(s, op.generation) && op.message.LeaseOpened? && op.verified && LeaseAcceptedActions(s.machine) != [])
    || (op.BackoffFires? && s.machine.state == Backoff(op.generation, op.attempt))
  }

  lemma StartsOfStep(s: Slice, next: nat, w: Answers, op: Op)
    ensures StartsIn(Perform(s, next, w, op).effects) <= (if Starts(s, op) then 1 else 0)
  {
    match op
    case Recount(ids) =>
      NoRequestsToCount(s.machine, |ids|, 0);
      StartsOfSettling(s.(ids := ids), next, w, SetEligible(s.machine, |ids|));
    case Join(request) =>
      NoRequestsToCount(s.machine, 0, request);
      StartsOfSettling(s.(pending := s.pending + {request}), next, w, AddRequest(s.machine, request));
    case Hear(g, message, verified) =>
      if HasHelper(s, g) {
        StartsOfHear(s, next, w, g, message, verified);
      }
    case HelperGone(g) =>
      NoRequestsOfExit(s.machine, g);
      var outcome := HelperExitedFrom(s.machine, g);
      StartsOfSettling(s.(helper := None), next, w, outcome.(actions := WithoutSpawns(outcome.actions)));
    case BackoffFires(g, attempt) =>
      StartsOfSettling(Fired(s, g, attempt), next, w, BackoffElapsed(s.machine, g, attempt));
    case StopAll =>
      NoRequestsToCount(s.machine, 0, 0);
      StartsOfSettling(s, next, w, BeginShutdown(s.machine));
    case _ =>
  }

  // ---- Scheduled timers ----

  predicate NoTimer(effects: seq<Effect>) {
    forall e :: e in effects ==> !e.Scheduled?
  }

  lemma {:induction false} NoTimerInActions(s: Slice, next: nat, w: Answers, actions: seq<Action>)
    requires forall a :: a in actions ==> !a.ScheduleBackoff?
    ensures NoTimer(ApplyAll(s, next, w, actions).effects)
    decreases |actions|
  {
    if actions == [] {
    } else {
      var a := actions[0];
      var first := Apply(s, next, w, a);
      assert actions == [a] + actions[1..];
      if a.AnswerReady? {
        AnswerAllOnlyAnswers(s, next, w, a.requests, ReplyReady);
      } else if a.AnswerError? {
        AnswerAllOnlyAnswers(s, next, w, a.requests, ErrorReply(a.code));
      }
      NoTimerInActions(first.slice, first.next, first.answers, actions[1..]);
    }
  }

  /** What is scheduled is the timer of the backoff the machine is left in. */
  predicate SchedulesBackoff(s: Slice, step: Step, g: nat) {
    forall e :: e in step.effects && e.Scheduled? ==>
      && step.slice.machine.state == Backoff(g, e.timer.attempt)
      && e.timer == TimerFor(s, g, e.timer.attempt)
  }

  lemma OneTimer(s: Slice, next: nat, w: Answers, outcome: Outcome, g: nat)
    requires outcome.actions == [] || (exists h :: outcome.actions == [ShutdownHelper(h)])
             || (exists n: u32 :: outcome.actions == [ScheduleBackoff(g, n)] && outcome.machine.state == Backoff(g, n))
    ensures SchedulesBackoff(s, Settle(s, next, w, outcome), g)
  {
    if |outcome.actions| == 1 {
      ApplyOne(s.(machine := outcome.machine), next, w, outcome.actions[0]);
      assert outcome.actions == [outcome.actions[0]];
    }
  }

  lemma HearSchedules(s: Slice, next: nat, w: Answers, g: nat, message: Report, verified: bool)
    requires HasHelper(s, g)
    ensures SchedulesBackoff(s, HearMessage(s, next, w, g, message, verified), g)
  {
    match message
    case LeaseOpened(session, _) =>
      var leased := s.(helper := Some(s.helper.value.(lease := Some(session))));
      var sent := Send(leased, next, w, g, LeaseAccepted);
      NoTimerInActions(sent.slice, sent.next, sent.answers, LeaseAcceptedActions(sent.slice.machine));
    case ReadySucceeded =>
      var outcome := ReadySucceededIn(s.machine, g);
      NoTimerInActions(s.(machine := outcome.machine), next, w, outcome.actions);
    case StartFailed(_) => OneTimer(s, next, w, StartupFailedIn(s.machine, g), g);
    case ManagerExited(_) =>
      var handle := s.helper.value.(managerPid := None);
      OneTimer(s.(helper := Some(handle)), next, w, ManagerExitedIn(s.machine, g), g);
    case _ =>
  }

  /** Only messages schedule timers, each for the backoff of the helper that was heard. */
  lemma StepSchedules(s: Slice, next: nat, w: Answers, op: Op)
    ensures var step := Perform(s, next, w, op);
            if op.Hear? && HasHelper(s, op.generation) then SchedulesBackoff(s, step, op.generation) else NoTimer(step.effects)
  {
    match op
    case Recount(ids) =>
      var outcome := SetEligible(s.machine, |ids|);
      NoTimerInActions(s.(ids := ids, machine := outcome.machine), next, w, outcome.actions);
    case Join(request) =>
      var outcome := AddRequest(s.machine, request);
      NoTimerInActions(s.(pending := s.pending + {request}, machine := outcome.machine), next, w, outcome.actions);
    case Hear(g, message, verified) =>
      if HasHelper(s, g) {
        HearSchedules(s, next, w, g, message, verified);
      }
    case HelperGone(g) =>
      var outcome := HelperExitedFrom(s.machine, g);
      WithoutSpawnsIsSubset(outcome.actions);
      NoTimerInActions(s.(helper := None, machine := outcome.machine), next, w, WithoutSpawns(outcome.actions));
    case BackoffFires(g, attempt) =>
      var outcome := BackoffElapsed(s.machine, g, attempt);
      NoTimerInActions(Fired(s, g, attempt).(machine := outcome.machine), next, w, outcome.actions);
    case StopAll =>
      var outcome := BeginShutdown(s.machine);
      NoTimerInActions(s.(machine := outcome.machine), next, w, outcome.actions);
    case _ =>
  }

  // ---- Settings ----

  lemma {:induction false} ActionsKeepSettings(s: Slice, next: nat, w: Answers, actions: seq<Action>)
    ensures ApplyAll(s, next, w, actions).slice.settings == s.settings
    decreases |actions|
  {
    if actions == [] {
    } else {
      var a := actions[0];
      var first := Apply(s, next, w, a);
      if a.AnswerReady? {
        AnswerAllRemoves(s, next, w, a.requests, ReplyReady);
      } else if a.AnswerError? {
        AnswerAllRemoves(s, next, w, a.requests, ErrorReply(a.code));
      }
      ActionsKeepSettings(first.slice, first.next, first.answers, actions[1..]);
    }
  }

  lemma StepKeepsSettings(s: Slice, next: nat, w: Answers, op: Op)
    ensures Perform(s, next, w, op).slice.settings == s.settings
  {
    match op
    case Recount(ids) =>
      var outcome := SetEligible(s.machine, |ids|);
      ActionsKeepSettings(s.(ids := ids, machine := outcome.machine), next, w, outcome.actions);
    case Join(request) =>
      var outcome := AddRequest(s.machine, request);
      ActionsKeepSettings(s.(pending := s.pending + {request}, machine := outcome.machine), next, w, outcome.actions);
    case Hear(g, message, verified) =>
      if HasHelper(s, g) {
        HearKeepsSettings(s, next, w, g, message, verified);
      }
    case HelperGone(g) =>
      var outcome := HelperExitedFrom(s.machine, g);
      ActionsKeepSettings(s.(helper := None, machine := outcome.machine), next, w, WithoutSpawns(outcome.actions));
    case BackoffFires(g, attempt) =>
      var outcome := BackoffElapsed(s.machine, g, attempt);
      ActionsKeepSettings(Fired(s, g, attempt).(machine := outcome.machine), next, w, outcome.actions);
    case StopAll =>
      var outcome := BeginShutdown(s.machine);
      ActionsKeepSettings(s.(machine := outcome.machine), next, w, outcome.actions);
    case _ =>
  }

  lemma HearKeepsSettings(s: Slice, next: nat, w: Answers, g: nat, message: Report, verified: bool)
    requires HasHelper(s, g)
    ensures HearMessage(s, next, w, g, message, verified).slice.settings == s.settings
  {
    match message
    case LeaseOpened(session, _) =>
      var leased := s.(helper := Some(s.helper.value.(lease := Some(session))));
      var sent := Send(leased, next, w, g, LeaseAccepted);
      ActionsKeepSettings(sent.slice, sent.next, sent.answers, LeaseAcceptedActions(sent.slice.machine));
    case ReadySucceeded =>
      var outcome := ReadySucceededIn(s.machine, g);
      ActionsKeepSettings(s.(machine := outcome.machine), next, w, outcome.actions);
    case StartFailed(_) =>
      var outcome := StartupFailedIn(s.machine, g);
      ActionsKeepSettings(s.(machine := outcome.machine), next, w, outcome.actions);
    case ManagerExited(_) =>
      var handle := s.helper.value.(managerPid := None);
      var outcome := ManagerExitedIn(s.machine, g);
      ActionsKeepSettings(s.(helper := Some(handle), machine := outcome.machine), next, w, outcome.actions);
    case _ =>
  }
}
