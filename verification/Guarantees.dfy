/** What the invariant of the system means for users, requests, attempts and managers. */
module Guarantees {
  import opened Prelude
  import opened Config
  import opened Messages
  import opened Machines
  import opened Slices
  import opened SliceEffects
  import opened Helpers
  import opened Lockstep
  import opened Systems
  import opened Invariance

  // ---- Tokens ----

  function QueuedStarts(down: seq<Command>): nat {
    if down == [] then 0 else (if down[0].StartManager? then 1 else 0) + QueuedStarts(down[1..])
  }

  predicate IsResult(m: Report) {
    m.ReadySucceeded? || m.StartFailed?
  }

  function ResultsUnderway(up: seq<Letter>): nat {
    if up == [] then 0 else (if IsResult(up[0].message) then 1 else 0) + ResultsUnderway(up[1..])
  }

  /** The places where a start attempt can be: in the queue, with the helper, or as a result underway. */
  function Tokens(p: Proc): nat {
    QueuedStarts(p.down)
    + (match p.helper.phase case Launching => 1 case Spawned => 1 case Payload => 1 case Failing => 1 case _ => 0)
    + ResultsUnderway(p.up)
  }

  /** A machine that is starting gets at most one result, and then is starting no more. */
  lemma {:induction false} ResultsMoveOn(s: ManagerState, issued: nat, up: seq<Letter>)
    requires s.Active() && Future(s, issued, up).Some?
    ensures var f := Future(s, issued, up).value;
            f.Active() && ResultsUnderway(up) == (if s.Starting? && !f.Starting? then 1 else 0)
    ensures !s.Starting? ==> !Future(s, issued, up).value.Starting?
    ensures forall l :: l in up && IsResult(l.message) ==> l.serial == issued
    decreases |up|
  {
    if up == [] {
    } else {
      ResultsMoveOn(Consume(s, issued, up[0]).value, issued, up[1..]);
      assert up == [up[0]] + up[1..];
    }
  }

  lemma CountQueued(start: Command, accept: Command)
    requires start.StartManager? && accept.LeaseAccepted?
    ensures QueuedStarts([]) == 0
    ensures QueuedStarts([start]) == 1
    ensures QueuedStarts([accept, start]) == 1
  {
    assert [start][1..] == [];
    assert [accept, start][1..] == [start];
  }

  predicate Leased(s: Slice) {
    s.helper.Some? && s.helper.value.lease.Some?
  }

  /**
    Lockstep: while a user's manager is starting after its lease was accepted, there is exactly one
    token, unless the send that was to start the attempt failed, and then there is none. The token
    belongs to the latest start command, and the machine's attempt is that command's.
   */
  lemma StartingHasOneToken(sys: System, u: u32)
    requires SystemSound(sys) && u in sys.users && sys.users[u].machine.state.Starting? && Leased(sys.users[u])
    ensures var g := sys.users[u].machine.state.generation;
            && g in sys.procs
            && var p := sys.procs[g];
            && Tokens(p) == (if Lost(p) then 0 else 1)
            && (!p.broken ==> p.issued > 0)
            && (p.issued > 0 ==> sys.users[u].machine.state.attempt == AttemptOf(p.issued))
            && (forall l :: l in p.up && IsResult(l.message) ==> l.serial == p.issued)
  {
    assert UserSound(sys, u);
    var s := sys.users[u];
    var p := sys.procs[s.machine.state.generation];
    var future := Future(s.machine.state, p.issued, p.up).value;
    ResultsMoveOn(s.machine.state, p.issued, p.up);
    CountQueued(StartManager(s.machine.state.attempt), LeaseAccepted);
    if future.Starting? && future.managerPid.None? {
      assert Queued(p, future.attempt) || Executing(p) || Lost(p);
    }
  }

  // ---- Messages and commands ----

  /**
    Every message that matters, heard from the helper of an active user, is the one expected: it was
    sent for the latest start command, and the machine moves exactly as that attempt went.
   */
  lemma ResultsAreCredited(sys: System, g: nat, verified: bool, w: Answers)
    requires SystemSound(sys) && CanTake(sys, Delivery(g, verified, w))
    requires HasHelper(sys.users[sys.homes[g]], g) && Leased(sys.users[sys.homes[g]])
    requires sys.users[sys.homes[g]].machine.state.Active()
    ensures var u := sys.homes[g];
            var p := sys.procs[g];
            var before := sys.users[u].machine.state;
            var after := Turned(sys, Delivery(g, verified, w)).users[u].machine.state;
            && (!Inert(p.up[0].message) ==> p.up[0].serial == p.issued)
            && (p.up[0].message.ReadySucceeded? ==>
                  && before.Starting? && before.managerPid.Some?
                  && after == Ready(g, before.managerPid.value, SaturatingSub(before.attempt, 1)))
            && (p.up[0].message.StartFailed? ==>
                  before.Starting? && after == Backoff(g, SaturatingAdd(before.attempt, 1)))
            && (p.up[0].message.ManagerExited? ==>
                  before.Ready? || (before.Starting? && before.managerPid.Some?))
  {
    var u := sys.homes[g];
    assert UserSound(sys, u);
    var p := sys.procs[g];
    ConsumeKeepsInStep(sys.users[u].machine.state, p, verified);
    HearIsConsume(sys.users[u], sys.next, w, g, p.up[0], p.issued, verified);
  }

  /**
    Commands arrive only where they belong: a start command never meets a running manager and
    carries the number of the attempt it starts; acceptance and rejection arrive while awaited.
   */
  lemma CommandsArriveInPlace(sys: System, g: nat, c: Command)
    requires SystemSound(sys) && CanTake(sys, HelperTurn(g, Obey(c)))
    ensures var h := sys.procs[g].helper;
            match c
            case StartManager(attempt) => h.phase.Idle? && !h.manager && attempt == AttemptOf(h.serial + 1)
            case LeaseAccepted => h.phase.AwaitAccept?
            case LeaseRejected(_) => h.phase.AwaitAccept?
            case StopManager => false
            case Shutdown => true
  {
    assert Registered(sys, g);
  }

  /** A manager owned by any helper has its session open, accepted, and verified by the daemon. */
  lemma ManagersHaveVerifiedLeases(sys: System, g: nat)
    requires SystemSound(sys) && g in sys.procs && sys.procs[g].helper.manager
    ensures Pinned(sys.procs[g].helper) && sys.procs[g].verified
  {
    assert Registered(sys, g);
  }

  // ---- Ready ----

  /**
    The user who made the request is ready, with a helper whose lease the daemon verified and whose
    ready action exited with 0 for the latest start command.
   */
  ghost predicate ReadyFor(sys: System, request: nat) {
    && request in sys.askers && sys.askers[request] in sys.users
    && var s := sys.users[sys.askers[request]];
    && s.machine.state.Ready? && HasHelper(s, s.machine.state.generation)
    && EarnedReady(sys, s.machine.state.generation)
  }

  ghost predicate EarnedReady(sys: System, g: nat) {
    && g in sys.procs && sys.procs[g].verified
    && sys.procs[g].issued == sys.procs[g].helper.serial
    && sys.procs[g].issued in sys.procs[g].helper.readySerials
  }

  /** A request is answered `Ready` only when the helper of the user who made it has become ready. */
  lemma ReadyIsEarned(sys: System, turn: Turn, request: nat)
    requires SystemSound(sys) && CanTake(sys, turn)
    requires Answered(request, ReplyReady) in EffectsOf(sys, turn)
    ensures ReadyFor(Turned(sys, turn), request)
  {
    var u := ActorOf(sys, turn);
    ReadyAnswersComeFromReady(sys.users[u], sys.next, turn.world, OpOf(sys, turn));
    AnswersAreForActor(sys, turn, request, ReplyReady);
    TurnKeepsSound(sys, turn);
    ReadyUserEarnedIt(Turned(sys, turn), u);
  }

  lemma ReadyUserEarnedIt(sys: System, u: u32)
    requires SystemSound(sys) && u in sys.users && sys.users[u].machine.state.Ready?
    ensures var g := sys.users[u].machine.state.generation; HasHelper(sys.users[u], g) && EarnedReady(sys, g)
  {
    assert UserSound(sys, u);
    var s := sys.users[u];
    var p := sys.procs[s.machine.state.generation];
    ReadyFuture(s.machine.state, p.issued, p.up);
  }

  /** A turn answers only requests of its user. */
  lemma AnswersAreForActor(sys: System, turn: Turn, request: nat, reply: Answer)
    requires SystemSound(sys) && CanTake(sys, turn) && Answered(request, reply) in EffectsOf(sys, turn)
    ensures request in Turned(sys, turn).askers && Turned(sys, turn).askers[request] == ActorOf(sys, turn)
  {
    var u, op := ActorOf(sys, turn), OpOf(sys, turn);
    assert UserSound(sys, u);
    PerformAccounts(sys.users[u], sys.next, turn.world, op);
    AnswerIsCounted(StepOf(sys, turn).effects, request, reply);
    assert request in PendingIn(sys.users[u], op);
  }

  lemma {:induction false} AnswerIsCounted(effects: seq<Effect>, request: nat, reply: Answer)
    requires Answered(request, reply) in effects
    ensures request in AnsweredIn(effects)
  {
    if effects[0] != Answered(request, reply) {
      assert effects == [effects[0]] + effects[1..];
      AnswerIsCounted(effects[1..], request, reply);
    }
  }

  lemma {:induction false} ReadyFuture(s: ManagerState, issued: nat, up: seq<Letter>)
    requires (s.Ready? || s.Backoff?) && Future(s, issued, up).Some?
    ensures Future(s, issued, up).value.Ready? || Future(s, issued, up).value.Backoff?
    decreases |up|
  {
    if up == [] {
    } else {
      ReadyFuture(Consume(s, issued, up[0]).value, issued, up[1..]);
    }
  }

  // ---- Stopping ----

  lemma StoppingStep(s: Slice, next: nat, w: Answers, op: Op, g: nat)
    requires Sound(s) && HasHelper(s, g) && s.machine.state.Stopping? && op != HelperGone(g) && Allowed(s, op)
    ensures var after := Perform(s, next, w, op).slice;
            after.machine.state.Stopping? && after.machine.state.generation == g && HasHelper(after, g)
  {
    StepWithHelper(s, next, w, op, g);
    PerformKeepsSound(s, next, w, op);
    match op
    case Recount(ids) =>
      var outcome := SetEligible(s.machine, |ids|);
      ActionsKeepMachine(s.(ids := ids, machine := outcome.machine), next, w, outcome.actions);
    case Join(request) =>
    case Hear(h, message, verified) =>
    case BackoffFires(h, n) =>
    case _ =>
  }

  /** A user that is stopping stays so until the process is gone, whatever else happens. */
  lemma StoppingIsForGood(sys: System, turn: Turn, u: u32)
    requires SystemSound(sys) && CanTake(sys, turn) && u in sys.users && sys.users[u].machine.state.Stopping?
    ensures var g := sys.users[u].machine.state.generation;
            var after := Turned(sys, turn).users[u];
            if turn.ExitNotice? && turn.generation == g then after.machine.state.Absent?
            else after.machine.state.Stopping? && after.machine.state.generation == g
  {
    assert UserSound(sys, u);
    var s, g := sys.users[u], sys.users[u].machine.state.generation;
    if !turn.HelperTurn? && ActorOf(sys, turn) == u {
      var op := OpOf(sys, turn);
      if op == HelperGone(g) {
        StepWithHelper(s, sys.next, turn.world, op, g);
        PerformKeepsSound(s, sys.next, turn.world, op);
      } else {
        StoppingStep(s, sys.next, turn.world, op, g);
      }
    }
  }

  /** Its helper has been told to leave, unless it leaves anyway or cannot be reached. */
  lemma StoppingIsTold(sys: System, u: u32)
    requires SystemSound(sys) && u in sys.users && sys.users[u].machine.state.Stopping?
    ensures var g := sys.users[u].machine.state.generation;
            && g in sys.procs && ToldToLeave(sys.procs[g])
            && (!sys.procs[g].broken && !sys.procs[g].helper.Closing() ==>
                  exists i :: 0 <= i < |sys.procs[g].down| && Terminal(sys.procs[g].down[i]))
  {
    assert UserSound(sys, u);
    var p := sys.procs[sys.users[u].machine.state.generation];
    if !p.broken && !p.helper.Closing() {
      var c :| c in p.down && Terminal(c);
    }
  }

  // ---- Attempts and delays ----

  lemma {:induction false} MailCountsStarts(p: Proc, g: nat, effects: seq<Effect>)
    requires OnlyTo(effects, g)
    ensures Mail(p, g, effects).issued == p.issued + StartsIn(effects)
    decreases |effects|
  {
    if effects == [] {
    } else {
      assert effects[0] in effects;
      var first :=
        match effects[0]
        case Sent(_, c) => Post(p, c, true)
        case SendFailed(_, c) => Post(p, c, false)
        case _ => p;
      MailCountsStarts(first, g, effects[1..]);
    }
  }

  /** A step asks for at most one start, under the number after those `issued`. */
  predicate AsksNext(step: Step, g: nat, issued: nat) {
    && StartsIn(step.effects) <= 1
    && (StartsIn(step.effects) == 1 ==> step.slice.machine.state == Starting(g, AttemptOf(issued + 1), None))
    && (forall e :: e in step.effects && IsStart(e) ==> e.command == StartManager(AttemptOf(issued + 1)))
  }

  lemma StepAsksNext(s: Slice, next: nat, w: Answers, op: Op, g: nat, p: Proc)
    requires Sound(s) && SliceJoint(s, g, p)
    requires op.Hear? && op.generation == g ==> p.up != [] && op.message == p.up[0].message
    ensures AsksNext(Perform(s, next, w, op), g, p.issued)
  {
    if !Starts(s, op) {
      StartsOfStep(s, next, w, op);
      NoStartInEffects(Perform(s, next, w, op).effects);
    } else if op.BackoffFires? {
      BackoffAsksNext(s, next, w, op.attempt, g, p);
    } else {
      LeaseIsExpected(s, g, p);
      LeaseAsksNext(s, next, w, g, op.message.sessionId);
    }
  }

  lemma BackoffAsksNext(s: Slice, next: nat, w: Answers, n: u32, g: nat, p: Proc)
    requires Sound(s) && SliceJoint(s, g, p) && s.machine.state == Backoff(g, n)
    ensures AsksNext(Settle(Fired(s, g, n), next, w, BackoffElapsed(s.machine, g, n)), g, p.issued)
  {
    BackoffIsNumbered(s, g, p);
    ApplyOne(Fired(s, g, n).(machine := BackoffElapsed(s.machine, g, n).machine), next, w, RequestStart(g, n));
  }

  /** A lease that opens while the machine waits for a manager is the first message of all. */
  lemma LeaseIsExpected(s: Slice, g: nat, p: Proc)
    requires Sound(s) && SliceJoint(s, g, p) && LeaseAcceptedActions(s.machine) != []
    requires p.up != [] && p.up[0].message.LeaseOpened?
    ensures p.issued == 0 && s.machine.state == Starting(g, 1, None)
  {
  }

  lemma LeaseAsksNext(s: Slice, next: nat, w: Answers, g: nat, session: SessionId)
    requires HasHelper(s, g) && s.machine.state == Starting(g, 1, None)
    ensures AsksNext(HearLease(s, next, w, g, session, true), g, 0)
  {
    var leased := s.(helper := Some(s.helper.value.(lease := Some(session))));
    if w.accepts > 0 {
      var sent := Send(leased, next, w, g, LeaseAccepted);
      var second := Send(leased, next, sent.answers, g, StartManager(1));
      ApplyOne(leased, next, sent.answers, RequestStart(g, 1));
      StartsConcat(sent.effects, second.effects);
    }
  }

  lemma NoStartInEffects(effects: seq<Effect>)
    requires StartsIn(effects) == 0
    ensures forall e :: e in effects ==> !IsStart(e)
  {
    forall e | e in effects
      ensures !IsStart(e)
    {
      if IsStart(e) {
        StartInEffects(effects, e);
      }
    }
  }

  /**
    The n-th start command of a generation carries attempt number n, saturating at the largest
    32-bit number: a turn asks for at most one start, under the next number.
   */
  lemma StartsAreNumbered(sys: System, turn: Turn, g: nat)
    requires SystemSound(sys) && CanTake(sys, turn) && !turn.HelperTurn?
    requires HasHelper(sys.users[ActorOf(sys, turn)], g)
    ensures var effects := EffectsOf(sys, turn);
            && StartsIn(effects) <= 1
            && g in sys.procs && g in Turned(sys, turn).procs
            && Turned(sys, turn).procs[g].issued == sys.procs[g].issued + StartsIn(effects)
            && (StartsIn(effects) == 1 ==>
                  Turned(sys, turn).users[ActorOf(sys, turn)].machine.state
                    == Starting(g, AttemptOf(sys.procs[g].issued + 1), None))
            && (forall e :: e in effects && IsStart(e) ==> e.command == StartManager(AttemptOf(sys.procs[g].issued + 1)))
  {
    var u, op := ActorOf(sys, turn), OpOf(sys, turn);
    assert UserSound(sys, u);
    StepAsksNext(sys.users[u], sys.next, turn.world, op, g, sys.procs[g]);
    TurnIsStep(sys, turn);
    MailCountsStarts(BeforeStep(sys, turn).procs[g], g, StepOf(sys, turn).effects);
  }

  /** The delay after `k` start commands: min(minimum * 2^(k - 1), maximum), the exponent bounded by 31. */
  function DelayAfter(c: Settings, k: nat): nat
    requires k > 0
  {
    Min(Length(c.BackoffMinimum()) * Pow2(Min(k - 1, 31)), Length(c.BackoffMaximum()))
  }

  lemma DelayOfAttempt(c: Settings, k: nat)
    requires k > 0
    ensures Length(c.DelayBefore(AttemptOf(k + 1))) == DelayAfter(c, k)
  {
    DelayIsExact(c, SaturatingSub(AttemptOf(k + 1), 1));
  }

  lemma BackoffIsNumbered(s: Slice, g: nat, p: Proc)
    requires SliceJoint(s, g, p) && s.machine.state.Backoff?
    ensures p.issued > 0 && s.machine.state.nextAttempt == AttemptOf(p.issued + 1)
  {
    var state := s.machine.state;
    BackoffFuture(state.generation, state.nextAttempt, p.issued, state, p.issued, p.up);
  }

  /** A user in backoff has the timer for its next attempt running, set to exactly the delay that is due. */
  lemma BackoffWaitsExactly(sys: System, u: u32)
    requires SystemSound(sys) && u in sys.users && sys.users[u].machine.state.Backoff?
    ensures var s := sys.users[u];
            var g := s.machine.state.generation;
            && g in sys.procs && sys.procs[g].issued > 0
            && exists timer :: timer in s.backoffTimers
                 && timer.generation == g && timer.attempt == s.machine.state.nextAttempt == AttemptOf(sys.procs[g].issued + 1)
                 && Length(timer.delay) == DelayAfter(s.settings, sys.procs[g].issued)
  {
    assert UserSound(sys, u);
    var s := sys.users[u];
    var g := s.machine.state.generation;
    BackoffIsNumbered(s, g, sys.procs[g]);
    DelayOfAttempt(s.settings, sys.procs[g].issued);
    assert TimerFor(s, g, s.machine.state.nextAttempt) in s.backoffTimers;
  }

  // ---- One helper per user ----

  /** A process that is not registered any more is gone. */
  ghost predicate GoneOrCurrent(sys: System, g: nat) {
    g in sys.procs ==>
      g in sys.homes && sys.homes[g] in sys.users && (sys.procs[g].helper.course.Gone? || HasHelper(sys.users[sys.homes[g]], g))
  }

  ghost predicate Alone(sys: System) {
    forall g: nat :: GoneOrCurrent(sys, g)
  }

  lemma EnactKeepsCurrent(mid: System, after: System, u: u32, op: Op, step: Step, g: nat)
    requires GoneOrCurrent(mid, g) && Registered(mid, g) && Stepped(mid, after, u, op, step)
    requires op.HelperGone? ==> op.generation in mid.procs && mid.procs[op.generation].helper.course.Gone?
    ensures GoneOrCurrent(after, g)
  {
    if mid.users[u].helper.Some? {
      var h := mid.users[u].helper.value.generation;
      MailKeepsHelper(mid.procs[h], h, step.effects);
    }
  }

  lemma {:induction false} MailKeepsHelper(p: Proc, g: nat, effects: seq<Effect>)
    ensures Mail(p, g, effects).helper == p.helper
    decreases |effects|
  {
    if effects == [] {
    } else {
      var first :=
        match effects[0]
        case Sent(to, c) => if to == g then Post(p, c, true) else p
        case SendFailed(to, c) => if to == g then Post(p, c, false) else p
        case _ => p;
      MailKeepsHelper(first, g, effects[1..]);
    }
  }

  /** At most one helper process per user is ever alive: late or repeated timers launch no second one. */
  lemma TurnKeepsAlone(sys: System, turn: Turn)
    requires SystemSound(sys) && Alone(sys) && CanTake(sys, turn)
    ensures Alone(Turned(sys, turn))
  {
    forall g: nat
      ensures GoneOrCurrent(Turned(sys, turn), g)
    {
      assert GoneOrCurrent(sys, g) && Registered(sys, g);
      if !turn.HelperTurn? {
        DaemonTurnKeepsCurrent(sys, turn, g);
      }
    }
  }

  lemma DaemonTurnKeepsCurrent(sys: System, turn: Turn, g: nat)
    requires SystemSound(sys) && GoneOrCurrent(sys, g) && Registered(sys, g) && CanTake(sys, turn) && !turn.HelperTurn?
    ensures GoneOrCurrent(Turned(sys, turn), g)
  {
    var mid, u, op, step := BeforeStep(sys, turn), ActorOf(sys, turn), OpOf(sys, turn), StepOf(sys, turn);
    TurnIsStep(sys, turn);
    PickingKeepsRegistered(sys, turn, g);
    EnactKeepsCurrent(mid, Turned(sys, turn), u, op, step, g);
  }

  lemma {:induction false} RunKeepsAlone(run: History, c: Settings, i: nat)
    requires StartedRun(run, c) && i <= |run.turns|
    ensures Alone(run.states[i])
  {
    if i == 0 {
    } else {
      RunKeepsAlone(run, c, i - 1);
      EveryRunIsSound(run, c, i - 1);
      assert Follows(run, i - 1);
      TurnKeepsAlone(run.states[i - 1], run.turns[i - 1]);
    }
  }

  /**
    In every reachable state, two processes of one user that are both alive are the same. A launch
    that fails after the child exists (daemon/src/app.rs:990-992) is not among these turns; the module
    `Strays` adds it, and shows what is left of this and what still holds.
   */
  lemma OneHelperPerUser(run: History, c: Settings, i: nat, g: nat, h: nat)
    requires StartedRun(run, c) && i <= |run.turns|
    requires var now := run.states[i];
             && g in now.procs && h in now.procs && g in now.homes && h in now.homes
             && now.homes[g] == now.homes[h] && !now.procs[g].helper.course.Gone? && !now.procs[h].helper.course.Gone?
    ensures g == h
  {
    RunKeepsAlone(run, c, i);
    assert GoneOrCurrent(run.states[i], g) && GoneOrCurrent(run.states[i], h);
  }
}
