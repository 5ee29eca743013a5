/**
  One user's slice of the daemon and that user's helper process, joined by two FIFO channels.

  Results carry no attempt number. They are nevertheless credited to the right attempt because the
  two sides stay in lockstep: feeding the messages still in flight to the machine, one by one and
  each at the only point where it is expected, leads to a state that matches where the helper is.
 */
module Lockstep {
  import opened Prelude
  import opened Messages
  import opened Machines
  import opened Slices
  import opened SliceEffects
  import opened Helpers

  /** A message in flight, stamped with the number of start commands its sender had taken. */
  datatype Letter = Letter(message: Report, serial: nat)

  /** A helper process and its channels. */
  datatype Proc = Proc(
    helper: Helper,
    down: seq<Command>,   // commands sent and not yet taken
    up: seq<Letter>,             // messages sent and not yet heard
    broken: bool,                // the daemon failed to send, and so will all later sends
    issued: nat,                 // start commands the daemon asked for
    verified: bool)              // the daemon has verified the lease

  const NEW_PROC := Proc(START, [], [], false, 0, false)

  /** The attempt number of the `n`-th start command of a generation. */
  function AttemptOf(n: nat): u32 {
    Min(n, U32_MAX)
  }

  // ---- Channels ----

  function Post(p: Proc, c: Command, arrives: bool): Proc {
    var counted := if c.StartManager? then p.(issued := p.issued + 1) else p;
    if arrives then counted.(down := p.down + [c]) else counted.(broken := true)
  }

  /** The effects of a step on the process of generation `g`. */
  function Mail(p: Proc, g: nat, effects: seq<Effect>): Proc
    decreases |effects|
  {
    if effects == [] then p
    else
      var first :=
        match effects[0]
        case Sent(to, c) => if to == g then Post(p, c, true) else p
        case SendFailed(to, c) => if to == g then Post(p, c, false) else p
        case _ => p;
      Mail(first, g, effects[1..])
  }

  /** What the helper's own events do to the channels. */
  function Move(p: Proc, e: Event): Proc {
    var moved := p.(helper := After(p.helper, e));
    match e
    case Say(m) => moved.(up := p.up + [Letter(m, p.helper.serial)])
    case Obey(c) => if p.down == [] then moved else moved.(down := p.down[1..])
    case _ => moved
  }

  predicate CanMove(p: Proc, e: Event) {
    May(p.helper, e) && (e.Obey? ==> p.down != [] && p.down[0] == e.command)
  }

  // ---- The future of the machine ----

  /** Messages the machine does not react to. */
  predicate Inert(m: Report) {
    m.ReadinessPayload? || m.ShutdownComplete? || m.Fatal?
  }

  /** The state after an expected message; none if the message is not expected in this state. */
  function Consume(s: ManagerState, issued: nat, l: Letter): Option<ManagerState> {
    if s.Stopping? || Inert(l.message) then Some(s)
    else if l.serial != issued then None
    else match l.message
      case ManagerSpawned(pid) =>
        if s.Starting? && s.managerPid.None? then Some(s.(managerPid := Some(pid))) else None
      case ReadySucceeded =>
        if s.Starting? && s.managerPid.Some?
        then Some(Ready(s.generation, s.managerPid.value, SaturatingSub(s.attempt, 1))) else None
      case StartFailed(_) =>
        if s.Starting? then Some(Backoff(s.generation, SaturatingAdd(s.attempt, 1))) else None
      case ManagerExited(_) =>
        if s.Starting? && s.managerPid.Some? then Some(s.(managerPid := None))
        else if s.Ready? then Some(Backoff(s.generation, SaturatingAdd(s.restartAttempts, 2)))
        else None
      case _ => None
  }

  function Future(s: ManagerState, issued: nat, up: seq<Letter>): Option<ManagerState>
    decreases |up|
  {
    if up == [] then Some(s)
    else
      match Consume(s, issued, up[0])
      case None => None
      case Some(next) => Future(next, issued, up[1..])
  }

  // ---- The joint invariant ----

  /** A start command is waiting to be taken, by a helper that will take it. */
  predicate Queued(p: Proc, attempt: u32) {
    && p.helper.serial + 1 == p.issued
    && ((p.helper.phase.Idle? && p.down == [StartManager(attempt)])
        || (p.helper.phase.AwaitAccept? && p.issued == 1 && p.down == [LeaseAccepted, StartManager(attempt)]))
  }

  /** The helper is executing the latest start command, before a manager is known or after it exited. */
  predicate Executing(p: Proc) {
    && (p.helper.phase.Launching? || p.helper.phase.Failing?)
    && p.helper.serial == p.issued && p.issued > 0 && p.down == []
  }

  /** A send failed before the start command could reach the helper. */
  predicate Lost(p: Proc) {
    && p.broken
    && ((p.helper.phase.Idle? && p.down == [] && p.helper.serial + 1 == p.issued)
        || (p.helper.phase.AwaitAccept? && p.helper.serial == 0 && p.down == [] && p.issued == 0)
        || (p.helper.phase.AwaitAccept? && p.helper.serial == 0 && p.down == [LeaseAccepted] && p.issued == 1))
  }

  /** A state with no message in flight matches where the helper stands. */
  predicate Matches(s: ManagerState, p: Proc) {
    match s
    case Starting(_, attempt, None) =>
      attempt == AttemptOf(if p.issued == 0 then 1 else p.issued) && (Queued(p, attempt) || Executing(p) || Lost(p))
    case Starting(_, attempt, Some(_)) =>
      attempt == AttemptOf(p.issued) && p.helper.serial == p.issued && p.issued > 0
      && (p.helper.phase.Spawned? || p.helper.phase.Payload?) && p.down == []
    case Ready(_, _, restarts) =>
      restarts + 1 == AttemptOf(p.issued) && p.helper.serial == p.issued
      && p.helper.phase.Running? && p.down == []
    case Backoff(_, next) =>
      next == AttemptOf(p.issued + 1) && p.helper.serial == p.issued && p.issued > 0
      && p.helper.phase.Idle? && p.down == []
    case _ => false
  }

  /** Before the daemon has heard of the lease. */
  predicate Expecting(s: ManagerState, p: Proc) {
    && s.Starting? && s.attempt == 1 && s.managerPid.None?
    && p.issued == 0 && p.helper.serial == 0 && !p.verified && p.down == []
    && ((p.helper.phase.Boot? && (p.up == [] || p.helper.voice.Finished?) && forall l :: l in p.up ==> l.message.Fatal?)
        || (p.helper.phase.AwaitAccept? && |p.up| == 1 && p.up[0].message.LeaseOpened?))
  }

  /** The attempt number in the state is that of the latest start command, or of the next one. */
  predicate Numbered(s: ManagerState, issued: nat) {
    match s
    case Starting(_, attempt, _) => attempt == AttemptOf(if issued == 0 then 1 else issued)
    case Ready(_, _, restarts) => restarts + 1 == AttemptOf(issued)
    case Backoff(_, next) => next == AttemptOf(issued + 1)
    case _ => true
  }

  predicate InStep(s: ManagerState, p: Proc) {
    && p.verified
    && Numbered(s, p.issued)
    && (p.issued == 0 ==> p.up == [])
    && Future(s, p.issued, p.up).Some?
    && Matches(Future(s, p.issued, p.up).value, p)
    && (s.Ready? ==> p.issued in p.helper.readySerials)
  }

  predicate Terminal(c: Command) {
    c.Shutdown? || c.LeaseRejected?
  }

  /** The helper of a stopping user has been told, unless it is leaving anyway or cannot be told. */
  predicate ToldToLeave(p: Proc) {
    p.helper.Closing() || p.broken || exists c :: c in p.down && Terminal(c)
  }

  /**
    Every queued command, up to one that makes the helper leave, arrives where it belongs, and the
    n-th start command carries the n-th attempt number.
   */
  predicate CommandsFit(phase: Phase, serial: nat, down: seq<Command>)
    decreases |down|
  {
    || down == []
    || down[0].Shutdown?
    || ((phase.Boot? || phase.AwaitAccept?) && down[0].LeaseRejected?)
    || ((phase.Boot? || phase.AwaitAccept?) && down[0].LeaseAccepted? && CommandsFit(Idle, serial, down[1..]))
    || (phase.Idle? && down[0] == StartManager(AttemptOf(serial + 1)) && CommandsFit(Launching, serial + 1, down[1..]))
  }

  /** What holds of every process, whatever the machine does. */
  predicate ProcSound(p: Proc) {
    && Consistent(p.helper)
    && (!p.helper.Closing() ==> CommandsFit(p.helper.phase, p.helper.serial, p.down))
    && (forall l :: l in p.up && l.message.ReadySucceeded? ==> l.serial in p.helper.readySerials)
    && (p.helper.Accepted() || LeaseAccepted in p.down ==> p.verified)
  }

  /** The joint invariant of a machine state and the process of its generation. */
  predicate Joint(s: ManagerState, leased: bool, p: Proc) {
    && ProcSound(p)
    && match s
       case Absent => false
       case Stopping(_, _) => ToldToLeave(p)
       case _ => if leased then InStep(s, p) else Expecting(s, p)
  }

  // ---- Helper moves ----

  lemma {:induction false} FutureSnoc(s: ManagerState, issued: nat, up: seq<Letter>, l: Letter)
    requires Future(s, issued, up).Some?
    ensures Future(s, issued, up + [l]) == Consume(Future(s, issued, up).value, issued, l)
    decreases |up|
  {
    if up == [] {
      assert [l][1..] == [];
    } else {
      assert (up + [l])[0] == up[0] && (up + [l])[1..] == up[1..] + [l];
      FutureSnoc(Consume(s, issued, up[0]).value, issued, up[1..], l);
    }
  }

  lemma MessageKeepsMatch(s: ManagerState, p: Proc, m: Report)
    requires Consistent(p.helper) && Matches(s, p) && May(p.helper, Say(m))
    ensures var next := Consume(s, p.issued, Letter(m, p.helper.serial));
            next.Some? && Matches(next.value, Move(p, Say(m)))
  {
  }

  lemma CommandKeepsMatch(s: ManagerState, p: Proc, c: Command)
    requires Consistent(p.helper) && Matches(s, p) && CanMove(p, Obey(c))
    ensures Matches(s, Move(p, Obey(c)))
  {
  }

  lemma OtherKeepsMatch(s: ManagerState, p: Proc, e: Event)
    requires Consistent(p.helper) && Matches(s, p) && May(p.helper, e) && !e.Say? && !e.Obey?
    ensures Matches(s, Move(p, e))
  {
  }

  lemma MoveKeepsProc(p: Proc, e: Event)
    requires ProcSound(p) && CanMove(p, e)
    ensures ProcSound(Move(p, e))
  {
    EventKeepsConsistent(p.helper, e);
    match e
    case Say(m) => SayKeepsProc(p, m);
    case Obey(c) => ObeyKeepsProc(p, c);
    case _ =>
  }

  lemma SayKeepsProc(p: Proc, m: Report)
    requires ProcSound(p) && May(p.helper, Say(m))
    ensures var q := Move(p, Say(m));
            && (!q.helper.Closing() ==> CommandsFit(q.helper.phase, q.helper.serial, q.down))
            && (forall l :: l in q.up && l.message.ReadySucceeded? ==> l.serial in q.helper.readySerials)
            && q.helper.Accepted() == p.helper.Accepted()
  {
  }

  lemma ObeyKeepsProc(p: Proc, c: Command)
    requires ProcSound(p) && CanMove(p, Obey(c))
    ensures var q := Move(p, Obey(c));
            && (!q.helper.Closing() ==> CommandsFit(q.helper.phase, q.helper.serial, q.down))
            && q.helper.readySerials == p.helper.readySerials
            && (q.helper.Accepted() || LeaseAccepted in q.down ==> q.verified)
  {
  }

  /** Taking a terminal command makes the helper leave; other commands leave it in the queue. */
  lemma MoveKeepsTold(p: Proc, e: Event)
    requires ProcSound(p) && CanMove(p, e) && ToldToLeave(p)
    ensures ToldToLeave(Move(p, e))
  {
    match e
    case Say(m) =>
    case Obey(c) =>
      if !p.broken {
        var t :| t in p.down && Terminal(t);
        assert p.down == [c] + p.down[1..];
      }
    case _ =>
  }

  lemma MoveKeepsExpecting(s: ManagerState, p: Proc, e: Event)
    requires Expecting(s, p) && CanMove(p, e) && Consistent(p.helper)
    ensures Expecting(s, Move(p, e))
  {
    match e
    case Say(m) =>
    case Obey(c) =>
    case _ =>
  }

  lemma SayKeepsInStep(s: ManagerState, p: Proc, m: Report)
    requires InStep(s, p) && May(p.helper, Say(m)) && Consistent(p.helper)
    ensures InStep(s, Move(p, Say(m)))
  {
    FutureSnoc(s, p.issued, p.up, Letter(m, p.helper.serial));
    MessageKeepsMatch(Future(s, p.issued, p.up).value, p, m);
  }

  lemma MoveKeepsInStep(s: ManagerState, p: Proc, e: Event)
    requires InStep(s, p) && CanMove(p, e) && Consistent(p.helper)
    ensures InStep(s, Move(p, e))
  {
    if e.Say? {
      SayKeepsInStep(s, p, e.message);
    } else {
      MuteMoveKeepsInStep(s, p, e);
    }
  }

  /** The machine has the same messages before it. */
  lemma MuteMoveKeepsInStep(s: ManagerState, p: Proc, e: Event)
    requires InStep(s, p) && CanMove(p, e) && Consistent(p.helper) && !e.Say?
    ensures InStep(s, Move(p, e))
  {
    var future := Future(s, p.issued, p.up).value;
    if e.Obey? {
      CommandKeepsMatch(future, p, e.command);
    } else {
      OtherKeepsMatch(future, p, e);
    }
  }

  /** Whatever the helper does next, the two sides stay in step. */
  lemma MoveKeepsJoint(s: ManagerState, leased: bool, p: Proc, e: Event)
    requires Joint(s, leased, p) && CanMove(p, e)
    ensures Joint(s, leased, Move(p, e))
  {
    MoveKeepsProc(p, e);
    if s.Stopping? {
      MoveKeepsTold(p, e);
    } else if leased {
      MoveKeepsInStep(s, p, e);
    } else {
      MoveKeepsExpecting(s, p, e);
    }
  }

  // ---- Daemon steps ----

  lemma {:induction false} AnswersAreNotMail(p: Proc, g: nat, effects: seq<Effect>)
    requires Quiet(effects)
    ensures Mail(p, g, effects) == p
    decreases |effects|
  {
    if effects == [] {
    } else {
      assert effects[0] in effects;
      AnswersAreNotMail(p, g, effects[1..]);
    }
  }

  lemma MailOne(p: Proc, g: nat, c: Command, arrives: bool)
    ensures Mail(p, g, [if arrives then Sent(g, c) else SendFailed(g, c)]) == Post(p, c, arrives)
  {
    var effects := [if arrives then Sent(g, c) else SendFailed(g, c)];
    assert effects[1..] == [];
  }

  lemma {:induction false} MailConcat(p: Proc, g: nat, a: seq<Effect>, b: seq<Effect>)
    ensures Mail(p, g, a + b) == Mail(Mail(p, g, a), g, b)
    decreases |a|
  {
    if a == [] {
      assert a + b == b;
    } else {
      assert (a + b)[0] == a[0] && (a + b)[1..] == a[1..] + b;
      var first :=
        match a[0]
        case Sent(to, c) => if to == g then Post(p, c, true) else p
        case SendFailed(to, c) => if to == g then Post(p, c, false) else p
        case _ => p;
      MailConcat(first, g, a[1..], b);
    }
  }

  /** Sending one command to the registered helper. */
  lemma MailSend(p: Proc, s: Slice, next: nat, w: Answers, g: nat, c: Command)
    requires HasHelper(s, g)
    ensures var step := Send(s, next, w, g, c);
            && step.slice == s && step.next == next
            && Mail(p, g, step.effects) == Post(p, c, w.accepts > 0)
  {
    MailOne(p, g, c, w.accepts > 0);
  }

  lemma {:induction false} AppendFits(phase: Phase, serial: nat, down: seq<Command>, c: Command)
    requires CommandsFit(phase, serial, down)
    requires c.Shutdown? || exists t :: t in down && Terminal(t)
    ensures CommandsFit(phase, serial, down + [c])
    decreases |down|
  {
    if down == [] {
    } else {
      assert (down + [c])[0] == down[0] && (down + [c])[1..] == down[1..] + [c];
      if down[0].LeaseAccepted? || down[0].StartManager? {
        var rest := down[1..];
        assert down == [down[0]] + rest;
        if !c.Shutdown? {
          var t :| t in down && Terminal(t);
          assert t in rest;
        }
        if down[0].LeaseAccepted? {
          AppendFits(Idle, serial, rest, c);
        } else {
          AppendFits(Launching, serial + 1, rest, c);
        }
      }
    }
  }

  /** The user's helper is told to leave. */
  lemma ShutdownTells(p: Proc, arrives: bool)
    requires ProcSound(p)
    ensures ProcSound(Post(p, Shutdown, arrives)) && ToldToLeave(Post(p, Shutdown, arrives))
  {
    if arrives {
      if !p.helper.Closing() {
        AppendFits(p.helper.phase, p.helper.serial, p.down, Shutdown);
      }
      assert Shutdown in Post(p, Shutdown, arrives).down;
    }
  }

  /** Anything sent after a terminal command does no harm. */
  lemma LateCommandKeepsTold(p: Proc, c: Command, arrives: bool)
    requires ProcSound(p) && ToldToLeave(p) && (p.broken ==> !arrives) && (c.LeaseAccepted? ==> p.verified)
    ensures ProcSound(Post(p, c, arrives)) && ToldToLeave(Post(p, c, arrives))
  {
    if arrives && !p.helper.Closing() {
      AppendFits(p.helper.phase, p.helper.serial, p.down, c);
    }
    if arrives && !p.helper.Closing() {
      var t :| t in p.down && Terminal(t);
      assert t in Post(p, c, arrives).down;
    }
  }

  /** Before the daemon hears the letter, it leaves the channel. */
  function Picked(p: Proc, verified: bool): Proc
    requires p.up != []
  {
    p.(up := p.up[1..], verified := p.verified || (p.up[0].message.LeaseOpened? && verified))
  }

  lemma PickedIsSound(p: Proc, verified: bool)
    requires ProcSound(p) && p.up != []
    ensures ProcSound(Picked(p, verified))
  {
  }

  /** The step leads to the state `s` and otherwise concerns nobody but waiting requests. */
  predicate LeadsQuietly(before: Slice, step: Step, g: nat, s: ManagerState) {
    && step.slice.machine.state == s && HasHelper(step.slice, g) && HasHelper(before, g)
    && step.slice.helper.value.lease == before.helper.value.lease
    && Quiet(step.effects)
  }

  lemma SuccessIsQuiet(s: Slice, next: nat, w: Answers, g: nat)
    requires HasHelper(s, g) && s.machine.state.Starting? && s.machine.state.managerPid.Some? && s.machine.state.generation == g
    ensures LeadsQuietly(s, Settle(s, next, w, ReadySucceededIn(s.machine, g)), g,
                         Ready(g, s.machine.state.managerPid.value, SaturatingSub(s.machine.state.attempt, 1)))
  {
    var outcome := ReadySucceededIn(s.machine, g);
    if outcome.actions != [] {
      var after := s.(machine := outcome.machine);
      ApplyOne(after, next, w, outcome.actions[0]);
      ApplyKeeps(after, next, w, outcome.actions[0]);
      AnswerAllOnlyAnswers(after, next, w, s.machine.waiters, ReplyReady);
    }
  }

  lemma FailureIsQuiet(s: Slice, next: nat, w: Answers, g: nat)
    requires HasHelper(s, g) && s.machine.state.Starting? && s.machine.state.generation == g && s.machine.eligible > 0
    ensures LeadsQuietly(s, Settle(s, next, w, StartupFailedIn(s.machine, g)), g, Backoff(g, SaturatingAdd(s.machine.state.attempt, 1)))
  {
    var outcome := StartupFailedIn(s.machine, g);
    ApplyOne(s.(machine := outcome.machine), next, w, outcome.actions[0]);
  }

  lemma ExitIsQuiet(s: Slice, next: nat, w: Answers, g: nat)
    requires HasHelper(s, g) && (s.machine.state.Starting? || s.machine.state.Ready?)
    requires s.machine.state.generation == g && s.machine.eligible > 0
    ensures LeadsQuietly(s, Settle(s, next, w, ManagerExitedIn(s.machine, g)), g,
                         if s.machine.state.Starting? then s.machine.state.(managerPid := None)
                         else Backoff(g, SaturatingAdd(s.machine.state.restartAttempts, 2)))
  {
    var outcome := ManagerExitedIn(s.machine, g);
    if outcome.actions != [] {
      ApplyOne(s.(machine := outcome.machine), next, w, outcome.actions[0]);
    }
  }

  /** In a sound slice, hearing an expected message is what `Consume` foresees, and sends nothing. */
  lemma HearIsConsume(s: Slice, next: nat, w: Answers, g: nat, l: Letter, issued: nat, verified: bool)
    requires Sound(s) && HasHelper(s, g) && s.machine.state.Active()
    requires Consume(s.machine.state, issued, l).Some?
    ensures LeadsQuietly(s, Perform(s, next, w, Hear(g, l.message, verified)), g, Consume(s.machine.state, issued, l).value)
  {
    match l.message
    case ReadySucceeded => SuccessIsQuiet(s, next, w, g);
    case StartFailed(_) => FailureIsQuiet(s, next, w, g);
    case ManagerExited(_) => ExitIsQuiet(s.(helper := Some(s.helper.value.(managerPid := None))), next, w, g);
    case _ =>
  }

  lemma ConsumeKeepsInStep(s: ManagerState, p: Proc, verified: bool)
    requires s.Active() && ProcSound(p) && InStep(s, p) && p.up != []
    ensures var next := Consume(s, p.issued, p.up[0]);
            next.Some? && next.value.Active() && InStep(next.value, Picked(p, verified))
  {
    assert p.up[0] in p.up;
  }

  lemma HearKeepsInStep(s: Slice, next: nat, w: Answers, g: nat, p: Proc, verified: bool)
    requires Sound(s) && HasHelper(s, g) && s.machine.state.Active() && s.helper.value.lease.Some?
    requires Joint(s.machine.state, true, p) && p.up != []
    ensures var step := Perform(s, next, w, Hear(g, p.up[0].message, verified));
            && HasHelper(step.slice, g) && step.slice.helper.value.lease.Some?
            && Joint(step.slice.machine.state, true, Mail(Picked(p, verified), g, step.effects))
  {
    ConsumeKeepsInStep(s.machine.state, p, verified);
    HearIsConsume(s, next, w, g, p.up[0], p.issued, verified);
    AnswersAreNotMail(Picked(p, verified), g, Perform(s, next, w, Hear(g, p.up[0].message, verified)).effects);
    PickedIsSound(p, verified);
  }

  /** The machine stays in `Stopping` whatever it hears. */
  lemma HearKeepsStopping(s: Slice, next: nat, w: Answers, g: nat, p: Proc, verified: bool)
    requires HasHelper(s, g) && s.machine.state.Stopping?
    requires Joint(s.machine.state, s.helper.value.lease.Some?, p) && p.up != []
    requires p.broken ==> w.accepts == 0
    ensures var step := Perform(s, next, w, Hear(g, p.up[0].message, verified));
            && HasHelper(step.slice, g) && step.slice.machine.state.Stopping?
            && ProcSound(Mail(Picked(p, verified), g, step.effects))
            && ToldToLeave(Mail(Picked(p, verified), g, step.effects))
  {
    PickedIsSound(p, verified);
    var picked := Picked(p, verified);
    var m := p.up[0].message;
    if m.LeaseOpened? {
      var leased := s.(helper := Some(s.helper.value.(lease := Some(m.sessionId))));
      if verified {
        MailSend(picked, leased, next, w, g, LeaseAccepted);
        LateCommandKeepsTold(picked, LeaseAccepted, w.accepts > 0);
        var sent := Send(leased, next, w, g, LeaseAccepted);
        assert LeaseAcceptedActions(sent.slice.machine) == [];
        assert sent.effects + [] == sent.effects;
      } else {
        MailSend(picked, s, next, w, g, LeaseRejected(REJECTION_TEXT));
        LateCommandKeepsTold(picked, LeaseRejected(REJECTION_TEXT), w.accepts > 0);
      }
    }
  }

  /** What becomes of the process when its lease is accepted while the channel takes `accepts` more commands. */
  function Admitted(p: Proc, attempt: u32, accepts: nat): Proc {
    if accepts == 0 then Post(p, LeaseAccepted, false)
    else Post(Post(p, LeaseAccepted, true), StartManager(attempt), accepts > 1)
  }

  lemma AdmissionIsInStep(s: ManagerState, p: Proc, accepts: nat)
    requires ProcSound(p) && Expecting(s, p) && p.up != [] && p.up[0].message.LeaseOpened? && (p.broken ==> accepts == 0)
    ensures Joint(s, true, Admitted(Picked(p, true), 1, accepts))
  {
    PickedIsSound(p, true);
    assert p.up == [p.up[0]];
  }

  lemma LeaseIsMailed(s: Slice, next: nat, w: Answers, g: nat, p: Proc, session: SessionId)
    requires HasHelper(s, g) && s.machine.state.Starting? && s.machine.state.managerPid.None? && s.machine.state.generation == g
    ensures var step := HearLease(s, next, w, g, session, true);
            && step.slice == s.(helper := Some(s.helper.value.(lease := Some(session))))
            && Mail(p, g, step.effects) == Admitted(p, s.machine.state.attempt, w.accepts)
  {
    var leased := s.(helper := Some(s.helper.value.(lease := Some(session))));
    MailSend(p, leased, next, w, g, LeaseAccepted);
    if w.accepts > 0 {
      var sent, attempt := Send(leased, next, w, g, LeaseAccepted), s.machine.state.attempt;
      ApplyOne(leased, sent.next, sent.answers, RequestStart(g, attempt));
      MailSend(Post(p, LeaseAccepted, true), leased, next, sent.answers, g, StartManager(attempt));
      MailConcat(p, g, sent.effects, Send(leased, next, sent.answers, g, StartManager(attempt)).effects);
    }
  }

  lemma RejectionTells(p: Proc, arrives: bool)
    requires ProcSound(p) && !p.helper.Accepted() && p.down == []
    ensures var q := Post(p, LeaseRejected(REJECTION_TEXT), arrives); ProcSound(q) && ToldToLeave(q)
  {
    var q := Post(p, LeaseRejected(REJECTION_TEXT), arrives);
    if arrives {
      assert LeaseRejected(REJECTION_TEXT) in q.down;
    }
  }

  /** The lease is verified: acceptance and the first start command are sent, or rejection. */
  lemma HearLeaseKeepsJoint(s: Slice, next: nat, w: Answers, g: nat, p: Proc, verified: bool)
    requires Sound(s) && HasHelper(s, g) && s.machine.state.Active() && s.helper.value.lease.None?
    requires Joint(s.machine.state, false, p) && p.up != []
    requires p.broken ==> w.accepts == 0
    ensures var step := Perform(s, next, w, Hear(g, p.up[0].message, verified));
            && HasHelper(step.slice, g)
            && Joint(step.slice.machine.state, step.slice.helper.value.lease.Some?, Mail(Picked(p, verified), g, step.effects))
  {
    var picked, m := Picked(p, verified), p.up[0].message;
    PickedIsSound(p, verified);
    assert p.up[0] in p.up;
    if m.LeaseOpened? {
      if verified {
        AdmissionIsInStep(s.machine.state, p, w.accepts);
        LeaseIsMailed(s, next, w, g, picked, m.sessionId);
      } else {
        MailSend(picked, s, next, w, g, LeaseRejected(REJECTION_TEXT));
        RejectionTells(picked, w.accepts > 0);
      }
    } else {
      FatalKeepsExpecting(s.machine.state, p, verified);
    }
  }

  lemma FatalKeepsExpecting(s: ManagerState, p: Proc, verified: bool)
    requires Expecting(s, p) && p.up != [] && !p.up[0].message.LeaseOpened?
    ensures Expecting(s, Picked(p, verified)) && p.up[0].message.Fatal?
  {
    assert p.up[0] in p.up;
  }

  /** The joint invariant of a slice and the process of its registered helper. */
  predicate SliceJoint(s: Slice, g: nat, p: Proc) {
    HasHelper(s, g) && Joint(s.machine.state, s.helper.value.lease.Some?, p)
  }

  /** Refusing requests and then telling the helper to leave. */
  lemma StopIsMailed(p: Proc, s: Slice, next: nat, w: Answers, g: nat, waiters: seq<nat>)
    requires HasHelper(s, g) && ProcSound(p)
    ensures var step := ApplyAll(s, next, w, Refusing(waiters, SessionIneligible) + [ShutdownHelper(g)]);
            && step.slice == s.(pending := step.slice.pending)
            && ProcSound(Mail(p, g, step.effects)) && ToldToLeave(Mail(p, g, step.effects))
  {
    var stop := ShutdownHelper(g);
    ShutdownTells(p, w.accepts > 0);
    if waiters == [] {
      assert Refusing(waiters, SessionIneligible) + [stop] == [stop];
      ApplyOne(s, next, w, stop);
      MailSend(p, s, next, w, g, Shutdown);
    } else {
      var refusal := AnswerError(waiters, SessionIneligible);
      assert Refusing(waiters, SessionIneligible) + [stop] == [refusal, stop];
      ApplyTwo(s, next, w, refusal, stop);
      var refused := Apply(s, next, w, refusal);
      RefusalIsQuiet(p, s, next, w, g, waiters);
      MailSend(p, refused.slice, next, w, g, Shutdown);
      MailConcat(p, g, refused.effects, Apply(refused.slice, next, w, stop).effects);
    }
  }

  lemma RefusalIsQuiet(p: Proc, s: Slice, next: nat, w: Answers, g: nat, waiters: seq<nat>)
    ensures var refused := Apply(s, next, w, AnswerError(waiters, SessionIneligible));
            && refused.slice == s.(pending := refused.slice.pending) && refused.next == next && refused.answers == w
            && Mail(p, g, refused.effects) == p
  {
    AnswerAllRemoves(s, next, w, waiters, ErrorReply(SessionIneligible));
    AnswerAllOnlyAnswers(s, next, w, waiters, ErrorReply(SessionIneligible));
    AnswersAreNotMail(p, g, Apply(s, next, w, AnswerError(waiters, SessionIneligible)).effects);
  }

  lemma RecountKeepsJoint(s: Slice, next: nat, w: Answers, g: nat, p: Proc, ids: set<SessionId>)
    requires Sound(s) && SliceJoint(s, g, p)
    ensures var step := Perform(s, next, w, Recount(ids));
            SliceJoint(step.slice, g, Mail(p, g, step.effects))
  {
    if s.machine.eligible > 0 && |ids| == 0 {
      var after := s.(ids := ids, machine := SetEligible(s.machine, 0).machine);
      if s.machine.state.Active() {
        StopIsMailed(p, after, next, w, g, s.machine.waiters);
      } else if s.machine.waiters != [] {
        ApplyOne(after, next, w, AnswerError(s.machine.waiters, SessionIneligible));
        RefusalIsQuiet(p, after, next, w, g, s.machine.waiters);
      }
    }
  }

  lemma RequestsKeepJoint(s: Slice, next: nat, w: Answers, g: nat, p: Proc, op: Op)
    requires Sound(s) && SliceJoint(s, g, p) && (op.Join? || op.Expire?)
    ensures var step := Perform(s, next, w, op);
            SliceJoint(step.slice, g, Mail(p, g, step.effects))
  {
    if op.Join? && s.machine.state.Ready? {
      var joined := s.(pending := s.pending + {op.request});
      var reply := AnswerReady([op.request]);
      ApplyOne(joined, next, w, reply);
      ApplyKeeps(joined, next, w, reply);
      AnswerAllOnlyAnswers(joined, next, w, [op.request], ReplyReady);
      AnswersAreNotMail(p, g, Apply(joined, next, w, reply).effects);
    }
    if op.Expire? {
      AnswersAreNotMail(p, g, Perform(s, next, w, op).effects);
    }
  }

  /** A machine in backoff has nothing but inert messages coming. */
  lemma {:induction false} BackoffFuture(g: nat, n: u32, issued: nat, later: ManagerState, k: nat, up: seq<Letter>)
    requires Future(Backoff(g, n), issued, up).Some? && !later.Stopping?
    ensures Future(Backoff(g, n), issued, up) == Some(Backoff(g, n))
    ensures Future(later, k, up) == Some(later)
    decreases |up|
  {
    if up == [] {
    } else {
      BackoffFuture(g, n, issued, later, k, up[1..]);
    }
  }

  lemma StartIsInStep(g: nat, n: u32, p: Proc, arrives: bool)
    requires ProcSound(p) && InStep(Backoff(g, n), p)
    ensures Joint(Starting(g, n, None), true, Post(p, StartManager(n), arrives))
  {
    BackoffFuture(g, n, p.issued, Starting(g, n, None), p.issued + 1, p.up);
  }

  lemma BackoffKeepsJoint(s: Slice, next: nat, w: Answers, g: nat, p: Proc, h: nat, n: u32)
    requires Sound(s) && SliceJoint(s, g, p)
    ensures var step := Perform(s, next, w, BackoffFires(h, n));
            SliceJoint(step.slice, g, Mail(p, g, step.effects))
  {
    if s.machine.state == Backoff(h, n) {
      if s.helper.value.lease.Some? {
        var fired := Fired(s, h, n).(machine := BackoffElapsed(s.machine, h, n).machine);
        ApplyOne(fired, next, w, RequestStart(g, n));
        MailSend(p, fired, next, w, g, StartManager(n));
        StartIsInStep(g, n, p, w.accepts > 0);
      }
    }
  }

  lemma LeaseLossKeepsJoint(s: Slice, next: nat, w: Answers, g: nat, p: Proc)
    requires Sound(s) && SliceJoint(s, g, p)
    ensures var step := Perform(s, next, w, LeaseLost);
            SliceJoint(step.slice, g, Mail(p, g, step.effects))
  {
    if s.helper.value.lease.Some? {
      var doomed := s.(machine := Doomed(s.machine, g));
      MailSend(p, doomed, next, w, g, Shutdown);
      ShutdownTells(p, w.accepts > 0);
    }
  }

  /** A step that concerns the daemon alone keeps the two sides in step. */
  lemma DaemonStepKeepsJoint(s: Slice, next: nat, w: Answers, g: nat, p: Proc, op: Op)
    requires Sound(s) && SliceJoint(s, g, p) && Allowed(s, op)
    requires op.Hear? || op.HelperGone? ==> op.generation != g
    ensures var step := Perform(s, next, w, op);
            SliceJoint(step.slice, g, Mail(p, g, step.effects))
  {
    match op
    case Recount(ids) => RecountKeepsJoint(s, next, w, g, p, ids);
    case BackoffFires(h, n) => BackoffKeepsJoint(s, next, w, g, p, h, n);
    case LeaseLost => LeaseLossKeepsJoint(s, next, w, g, p);
    case Join(_) => RequestsKeepJoint(s, next, w, g, p, op);
    case Expire(_) => RequestsKeepJoint(s, next, w, g, p, op);
    case _ =>
  }

  /** So does hearing the oldest message of the helper. */
  lemma HearKeepsJoint(s: Slice, next: nat, w: Answers, g: nat, p: Proc, verified: bool)
    requires Sound(s) && SliceJoint(s, g, p) && p.up != []
    requires p.broken ==> w.accepts == 0
    ensures var step := Perform(s, next, w, Hear(g, p.up[0].message, verified));
            SliceJoint(step.slice, g, Mail(Picked(p, verified), g, step.effects))
  {
    if s.machine.state.Stopping? {
      HearKeepsStopping(s, next, w, g, p, verified);
    } else if s.helper.value.lease.Some? {
      HearKeepsInStep(s, next, w, g, p, verified);
    } else {
      HearLeaseKeepsJoint(s, next, w, g, p, verified);
    }
  }

  /** A new helper starts in step. */
  lemma NewHelperIsJoint(g: nat)
    ensures Joint(Starting(g, 1, None), false, NEW_PROC)
  {
  }
}
