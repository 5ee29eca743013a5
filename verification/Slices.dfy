/**
  What the daemon knows of one user, and how one step of its event loop changes it.

  The daemon keeps five maps keyed by user or request; a `Slice` is their contents for one user,
  with the timers outstanding for that user. `Perform` is one step: the machine's transition and
  then the actions it asks for. `Answers` are what the world replies during the step.
 */
module Slices {
  import opened Prelude
  import opened Config
  import opened Messages
  import opened Machines

  type SessionId = string

  datatype Handle = Handle(generation: nat, lease: Option<SessionId>, managerPid: Option<u32>)

  /** A backoff timer, with the delay after which it fires. */
  datatype Timer = Timer(generation: nat, attempt: u32, delay: Duration)

  datatype Slice = Slice(
    settings: Settings,
    ids: set<SessionId>,
    machine: Machine,
    helper: Option<Handle>,
    pending: set<nat>,
    spawnTimers: nat,
    backoffTimers: multiset<Timer>)

  function EmptySlice(settings: Settings): Slice {
    Slice(settings, {}, NEW_MACHINE, None, {}, 0, multiset{})
  }

  /** The timer before a start with the given attempt number. */
  function TimerFor(s: Slice, generation: nat, attempt: u32): Timer {
    Timer(generation, attempt, s.settings.DelayBefore(attempt))
  }

  function Fired(s: Slice, generation: nat, attempt: u32): Slice {
    s.(backoffTimers := s.backoffTimers - multiset{TimerFor(s, generation, attempt)})
  }

  /** Spawning succeeds or not; the control socket accepts `accepts` more messages, then fails for good. */
  datatype Answers = Answers(spawns: bool, accepts: nat)

  /** What a step shows to the outside. */
  datatype Effect =
    | Launched(generation: nat)
    | Sent(generation: nat, command: Command)
    | SendFailed(generation: nat, command: Command)
    | Answered(request: nat, reply: Answer)
    | Scheduled(timer: Timer)

  datatype Step = Step(slice: Slice, next: nat, effects: seq<Effect>, answers: Answers)

  /** The steps of the event loop, as they concern one user. */
  datatype Op =
    | Recount(ids: set<SessionId>)
    | Join(request: nat)
    | Expire(request: nat)
    | Hear(generation: nat, message: Report, verified: bool)
    | HelperGone(generation: nat)
    | BackoffFires(generation: nat, attempt: u32)
    | SpawnFires
    | LeaseLost
    | StopAll

  // ---- Fixed texts ----

  /** The text of every error reply. */
  const GENERIC_TEXT := "user service manager is unavailable"

  const REJECTION_TEXT := "internal elogind lease verification failed"

  function ErrorReply(code: ErrorCode): Answer {
    ReplyError(code, GENERIC_TEXT)
  }

  // ---- Actions ----

  function Send(s: Slice, next: nat, w: Answers, generation: nat, command: Command): Step {
    if s.helper.None? || s.helper.value.generation != generation then Step(s, next, [], w)
    else if w.accepts > 0 then Step(s, next, [Sent(generation, command)], w.(accepts := w.accepts - 1))
    else Step(s, next, [SendFailed(generation, command)], w)
  }

  /** A failed spawn also uses up a generation, and retries after a delay. */
  function Spawn(s: Slice, next: nat, w: Answers): Step {
    if s.helper.Some? then Step(s, next, [], w)
    else if w.spawns then
      var handle := Handle(next, None, None);
      Step(s.(helper := Some(handle), machine := HelperSpawned(s.machine, next)), next + 1, [Launched(next)], w)
    else Step(s.(spawnTimers := s.spawnTimers + 1), next + 1, [], w)
  }

  function AnswerAll(s: Slice, next: nat, w: Answers, requests: seq<nat>, reply: Answer): Step
    decreases |requests|
  {
    if requests == [] then Step(s, next, [], w)
    else if requests[0] in s.pending then
      var rest := AnswerAll(s.(pending := s.pending - {requests[0]}), next, w, requests[1..], reply);
      rest.(effects := [Answered(requests[0], reply)] + rest.effects)
    else AnswerAll(s, next, w, requests[1..], reply)
  }

  function Apply(s: Slice, next: nat, w: Answers, action: Action): Step {
    match action
    case SpawnHelper => Spawn(s, next, w)
    case RequestStart(g, attempt) => Send(s, next, w, g, StartManager(attempt))
    case ShutdownHelper(g) => Send(s, next, w, g, Shutdown)
    case ScheduleBackoff(g, attempt) =>
      var timer := TimerFor(s, g, attempt);
      Step(s.(backoffTimers := s.backoffTimers + multiset{timer}), next, [Scheduled(timer)], w)
    case AnswerReady(requests) => AnswerAll(s, next, w, requests, ReplyReady)
    case AnswerError(requests, code) => AnswerAll(s, next, w, requests, ErrorReply(code))
  }

  function ApplyAll(s: Slice, next: nat, w: Answers, actions: seq<Action>): Step
    decreases |actions|
  {
    if actions == [] then Step(s, next, [], w)
    else
      var first := Apply(s, next, w, actions[0]);
      var rest := ApplyAll(first.slice, first.next, first.answers, actions[1..]);
      rest.(effects := first.effects + rest.effects)
  }

  /** Continue a step with more actions. */
  function Then(first: Step, actions: seq<Action>): Step {
    var rest := ApplyAll(first.slice, first.next, first.answers, actions);
    rest.(effects := first.effects + rest.effects)
  }

  function Settle(s: Slice, next: nat, w: Answers, outcome: Outcome): Step {
    ApplyAll(s.(machine := outcome.machine), next, w, outcome.actions)
  }

  // ---- Steps ----

  predicate HasHelper(s: Slice, generation: nat) {
    s.helper.Some? && s.helper.value.generation == generation
  }

  function Doomed(m: Machine, generation: nat): Machine {
    m.(state := Stopping(generation, m.eligible > 0))
  }

  function HearLease(s: Slice, next: nat, w: Answers, g: nat, session: SessionId, verified: bool): Step
    requires HasHelper(s, g)
  {
    if verified then
      var leased := s.(helper := Some(s.helper.value.(lease := Some(session))));
      var sent := Send(leased, next, w, g, LeaseAccepted);
      if w.accepts > 0 then Then(sent, LeaseAcceptedActions(sent.slice.machine)) else sent
    else
      var sent := Send(s, next, w, g, LeaseRejected(REJECTION_TEXT));
      sent.(slice := sent.slice.(machine := Doomed(sent.slice.machine, g)))
  }

  function HearMessage(s: Slice, next: nat, w: Answers, g: nat, message: Report, verified: bool): Step
    requires HasHelper(s, g)
  {
    match message
    case LeaseOpened(session, _) => HearLease(s, next, w, g, session, verified)
    case ManagerSpawned(pid) =>
      var handle := s.helper.value.(managerPid := Some(pid));
      Step(s.(helper := Some(handle), machine := ManagerSpawnedAs(s.machine, g, pid)), next, [], w)
    case ReadySucceeded => Settle(s, next, w, ReadySucceededIn(s.machine, g))
    case StartFailed(_) => Settle(s, next, w, StartupFailedIn(s.machine, g))
    case ManagerExited(_) =>
      var handle := s.helper.value.(managerPid := None);
      Settle(s.(helper := Some(handle)), next, w, ManagerExitedIn(s.machine, g))
    case _ => Step(s, next, [], w)
  }

  function WithoutSpawns(actions: seq<Action>): seq<Action> {
    if actions == [] then []
    else (if actions[0].SpawnHelper? then [] else [actions[0]]) + WithoutSpawns(actions[1..])
  }

  /** The helper is forgotten at once; a replacement is spawned only after a delay. */
  function HearExit(s: Slice, next: nat, w: Answers, g: nat): Step
    requires HasHelper(s, g)
  {
    var outcome := HelperExitedFrom(s.machine, g);
    var left := Settle(s.(helper := None), next, w, outcome.(actions := WithoutSpawns(outcome.actions)));
    if SpawnHelper in outcome.actions
    then left.(slice := left.slice.(spawnTimers := left.slice.spawnTimers + 1))
    else left
  }

  function Perform(s: Slice, next: nat, w: Answers, op: Op): Step {
    match op
    case Recount(ids) => Settle(s.(ids := ids), next, w, SetEligible(s.machine, |ids|))
    case Join(request) =>
      Settle(s.(pending := s.pending + {request}), next, w, AddRequest(s.machine, request))
    case Expire(request) =>
      if request in s.pending then
        var cancelled := s.(pending := s.pending - {request}, machine := CancelRequest(s.machine, request));
        Step(cancelled, next, [Answered(request, ErrorReply(TimedOut))], w)
      else Step(s, next, [], w)
    case Hear(g, message, verified) =>
      if HasHelper(s, g) then HearMessage(s, next, w, g, message, verified) else Step(s, next, [], w)
    case HelperGone(g) =>
      if HasHelper(s, g) then HearExit(s, next, w, g) else Step(s, next, [], w)
    case BackoffFires(g, attempt) =>
      var fired := Fired(s, g, attempt);
      Settle(fired, next, w, BackoffElapsed(s.machine, g, attempt))
    case SpawnFires =>
      var fired := s.(spawnTimers := if s.spawnTimers > 0 then s.spawnTimers - 1 else 0);
      if s.machine.eligible > 0 && s.machine.state.Absent? then Spawn(fired, next, w)
      else Step(fired, next, [], w)
    case LeaseLost =>
      if s.helper.Some? && s.helper.value.lease.Some? then
        var g := s.helper.value.generation;
        Send(s.(machine := Doomed(s.machine, g)), next, w, g, Shutdown)
      else Step(s, next, [], w)
    case StopAll => Settle(s, next, w, BeginShutdown(s.machine))
  }

  // ---- Invariants of one user's state ----

  /** Map and machine agree: a helper is registered exactly when the machine has a generation. */
  ghost predicate Agree(s: Slice) {
    match s.helper
    case None => s.machine.state.Absent?
    case Some(handle) => s.machine.state.Generation() == Some(handle.generation)
  }

  /** The waiters of the machine are the user's pending requests, each once. */
  ghost predicate WaitersMatch(s: Slice) {
    && Distinct(s.machine.waiters)
    && (forall r :: r in s.machine.waiters <==> r in s.pending)
  }

  /** Serving or waiting takes at least one eligible session; a ready user has no waiter left. */
  ghost predicate DemandMet(s: Slice) {
    && (s.machine.state.Active() || s.machine.waiters != [] ==> s.machine.eligible > 0)
    && (s.machine.state.Ready? ==> s.machine.waiters == [])
  }

  /** Nobody is stranded: a user waiting for something has the timer that will bring it. */
  ghost predicate NotStranded(s: Slice) {
    && (s.machine.state.Absent? && s.machine.eligible > 0 ==> s.spawnTimers > 0)
    && (s.machine.state.Backoff? ==>
          TimerFor(s, s.machine.state.generation, s.machine.state.nextAttempt) in s.backoffTimers)
  }

  ghost predicate CountMatches(s: Slice) {
    s.machine.eligible == |s.ids|
  }

  ghost predicate Sound(s: Slice) {
    Agree(s) && WaitersMatch(s) && DemandMet(s) && NotStranded(s) && CountMatches(s)
  }

  /**
    What the event loop guarantees when it performs a step: requests join only while the user has
    an eligible session, under a fresh number, and shutdown is a separate phase.
   */
  ghost predicate Allowed(s: Slice, op: Op) {
    && (op.Join? ==> s.machine.eligible > 0 && op.request !in s.pending)
    && !op.StopAll?
  }

  // ---- How replies and actions act ----

  /** Answering a list of requests removes exactly those from the pending ones, and nothing else. */
  lemma {:induction false} AnswerAllRemoves(s: Slice, next: nat, w: Answers, requests: seq<nat>, reply: Answer)
    ensures var step := AnswerAll(s, next, w, requests, reply);
            && step.slice == s.(pending := s.pending - (set r | r in requests))
            && step.next == next && step.answers == w
    decreases |requests|
  {
    if requests == [] {
      assert s.pending - (set r | r in requests) == s.pending;
    } else {
      assert requests == [requests[0]] + requests[1..];
      if requests[0] in s.pending {
        var removed := s.(pending := s.pending - {requests[0]});
        AnswerAllRemoves(removed, next, w, requests[1..], reply);
        assert removed.pending - (set r | r in requests[1..]) == s.pending - (set r | r in requests);
      } else {
        AnswerAllRemoves(s, next, w, requests[1..], reply);
        assert s.pending - (set r | r in requests[1..]) == s.pending - (set r | r in requests);
      }
    }
  }

  lemma ApplyOne(s: Slice, next: nat, w: Answers, a: Action)
    ensures ApplyAll(s, next, w, [a]) == Apply(s, next, w, a)
  {
    var first := Apply(s, next, w, a);
    assert [a][1..] == [];
    assert first.effects + [] == first.effects;
  }

  lemma ApplyTwo(s: Slice, next: nat, w: Answers, a: Action, b: Action)
    ensures var first := Apply(s, next, w, a);
            var second := Apply(first.slice, first.next, first.answers, b);
            ApplyAll(s, next, w, [a, b]) == second.(effects := first.effects + second.effects)
  {
    var first := Apply(s, next, w, a);
    assert [a, b][1..] == [b];
    ApplyOne(first.slice, first.next, first.answers, b);
  }

  /** Actions that neither spawn nor arm a timer change nothing but the pending requests. */
  lemma ApplyKeeps(s: Slice, next: nat, w: Answers, a: Action)
    requires !a.SpawnHelper? && !a.ScheduleBackoff?
    ensures var step := Apply(s, next, w, a);
            && step.slice == s.(pending := step.slice.pending)
            && step.next == next
            && (a.AnswerReady? || a.AnswerError? ==>
                  step.slice.pending == s.pending - (set r | r in a.requests))
            && (!a.AnswerReady? && !a.AnswerError? ==> step.slice == s)
  {
    match a
    case AnswerReady(requests) => AnswerAllRemoves(s, next, w, requests, ReplyReady);
    case AnswerError(requests, code) => AnswerAllRemoves(s, next, w, requests, ErrorReply(code));
    case _ =>
  }

  // ---- Every step keeps every invariant, whatever the helper says ----

  lemma RecountKeepsSound(s: Slice, next: nat, w: Answers, ids: set<SessionId>)
    requires Sound(s)
    ensures Sound(Perform(s, next, w, Recount(ids)).slice)
  {
    if s.machine.eligible > 0 && |ids| == 0 {
      LastSessionGoes(s.(ids := ids), next, w, s.machine);
    } else {
      FirstSessionComes(s, next, w, ids);
    }
  }

  lemma FirstSessionComes(s: Slice, next: nat, w: Answers, ids: set<SessionId>)
    requires Sound(s) && (s.machine.eligible > 0 ==> |ids| > 0)
    ensures Sound(Settle(s.(ids := ids), next, w, SetEligible(s.machine, |ids|)).slice)
  {
    var outcome := SetEligible(s.machine, |ids|);
    if outcome.actions != [] {
      ApplyOne(s.(ids := ids, machine := outcome.machine), next, w, SpawnHelper);
    }
  }

  /** The machine is told to stop, and whoever waits is refused. */
  lemma LastSessionGoes(s: Slice, next: nat, w: Answers, m: Machine)
    requires m == s.machine && Agree(s) && WaitersMatch(s) && s.ids == {} && m.eligible > 0
    ensures Sound(Settle(s, next, w, SetEligible(m, 0)).slice)
  {
    var after := s.(machine := SetEligible(m, 0).machine);
    RefusalEmpties(after, next, w, m.waiters);
    if m.waiters == [] {
      if m.state.Active() {
        ApplyOne(after, next, w, ShutdownHelper(m.state.generation));
        assert SetEligible(m, 0).actions == [ShutdownHelper(m.state.generation)];
      }
    } else if m.state.Active() {
      ApplyTwo(after, next, w, AnswerError(m.waiters, SessionIneligible), ShutdownHelper(m.state.generation));
      assert SetEligible(m, 0).actions == [AnswerError(m.waiters, SessionIneligible), ShutdownHelper(m.state.generation)];
    } else {
      ApplyOne(after, next, w, AnswerError(m.waiters, SessionIneligible));
    }
  }

  lemma RefusalEmpties(s: Slice, next: nat, w: Answers, waiters: seq<nat>)
    requires forall r :: r in waiters <==> r in s.pending
    ensures Apply(s, next, w, AnswerError(waiters, SessionIneligible)).slice == s.(pending := {})
  {
    ApplyKeeps(s, next, w, AnswerError(waiters, SessionIneligible));
    assert s.pending - (set r | r in waiters) == {};
  }

  lemma JoinKeepsSound(s: Slice, next: nat, w: Answers, request: nat)
    requires Sound(s) && s.machine.eligible > 0 && request !in s.pending
    ensures Sound(Perform(s, next, w, Join(request)).slice)
  {
    var outcome := AddRequest(s.machine, request);
    var joined := s.(pending := s.pending + {request}, machine := outcome.machine);
    if s.machine.state.Ready? {
      ApplyOne(joined, next, w, AnswerReady([request]));
      ApplyKeeps(joined, next, w, AnswerReady([request]));
      assert joined.pending - (set r | r in [request]) == s.pending;
    }
  }

  lemma ExpireKeepsSound(s: Slice, next: nat, w: Answers, request: nat)
    requires Sound(s)
    ensures Sound(Perform(s, next, w, Expire(request)).slice)
    ensures request !in Perform(s, next, w, Expire(request)).slice.pending
  {
    WithoutKeepsOthers(s.machine.waiters, request);
    WithoutKeepsDistinct(s.machine.waiters, request);
  }

  lemma HearKeepsSound(s: Slice, next: nat, w: Answers, g: nat, message: Report, verified: bool)
    requires Sound(s)
    ensures Sound(Perform(s, next, w, Hear(g, message, verified)).slice)
  {
    if HasHelper(s, g) {
      match message
      case LeaseOpened(session, _) => HearLeaseKeepsSound(s, next, w, g, session, verified);
      case ManagerSpawned(_) =>
      case ReadySucceeded => SuccessKeepsSound(s, next, w, g);
      case StartFailed(_) => FailureKeepsSound(s, next, w, g);
      case ManagerExited(_) => ExitKeepsSound(s.(helper := Some(s.helper.value.(managerPid := None))), next, w, g);
      case _ =>
    }
  }

  lemma SuccessKeepsSound(s: Slice, next: nat, w: Answers, g: nat)
    requires Sound(s)
    ensures Sound(Settle(s, next, w, ReadySucceededIn(s.machine, g)).slice)
  {
    var outcome := ReadySucceededIn(s.machine, g);
    if outcome.actions != [] {
      var after := s.(machine := outcome.machine);
      ApplyOne(after, next, w, outcome.actions[0]);
      ApplyKeeps(after, next, w, outcome.actions[0]);
    }
  }

  lemma FailureKeepsSound(s: Slice, next: nat, w: Answers, g: nat)
    requires Sound(s)
    ensures Sound(Settle(s, next, w, StartupFailedIn(s.machine, g)).slice)
  {
    var outcome := StartupFailedIn(s.machine, g);
    if outcome.actions != [] {
      ApplyOne(s.(machine := outcome.machine), next, w, outcome.actions[0]);
    }
  }

  lemma ExitKeepsSound(s: Slice, next: nat, w: Answers, g: nat)
    requires Sound(s)
    ensures Sound(Settle(s, next, w, ManagerExitedIn(s.machine, g)).slice)
  {
    var outcome := ManagerExitedIn(s.machine, g);
    if outcome.actions != [] {
      ApplyOne(s.(machine := outcome.machine), next, w, outcome.actions[0]);
    }
  }

  lemma HearLeaseKeepsSound(s: Slice, next: nat, w: Answers, g: nat, session: SessionId, verified: bool)
    requires Sound(s) && HasHelper(s, g)
    ensures Sound(HearLease(s, next, w, g, session, verified).slice)
  {
    if verified && w.accepts > 0 {
      var leased := s.(helper := Some(s.helper.value.(lease := Some(session))));
      var sent := Send(leased, next, w, g, LeaseAccepted);
      var actions := LeaseAcceptedActions(sent.slice.machine);
      if actions != [] {
        ApplyOne(sent.slice, sent.next, sent.answers, actions[0]);
      }
    }
  }

  lemma HelperGoneKeepsSound(s: Slice, next: nat, w: Answers, g: nat)
    requires Sound(s)
    ensures Sound(Perform(s, next, w, HelperGone(g)).slice)
  {
    if HasHelper(s, g) {
      var outcome := HelperExitedFrom(s.machine, g);
      assert WithoutSpawns([SpawnHelper]) == [];
    }
  }

  lemma BackoffKeepsSound(s: Slice, next: nat, w: Answers, g: nat, attempt: u32)
    requires Sound(s)
    ensures Sound(Perform(s, next, w, BackoffFires(g, attempt)).slice)
  {
    var outcome := BackoffElapsed(s.machine, g, attempt);
    if outcome.actions != [] {
      ApplyOne(Fired(s, g, attempt).(machine := outcome.machine), next, w, outcome.actions[0]);
    }
  }

  lemma ReplacementKeepsSound(s: Slice, next: nat, w: Answers)
    requires Sound(s)
    ensures Sound(Perform(s, next, w, SpawnFires).slice)
  {
  }

  lemma LeaseLossKeepsSound(s: Slice, next: nat, w: Answers)
    requires Sound(s)
    ensures Sound(Perform(s, next, w, LeaseLost).slice)
  {
  }

  /**
    The invariants of a user's state hold after every step of the event loop, for every message a
    helper may send, every late or repeated timer and every answer of the world.
   */
  lemma PerformKeepsSound(s: Slice, next: nat, w: Answers, op: Op)
    requires Sound(s) && Allowed(s, op)
    ensures Sound(Perform(s, next, w, op).slice)
  {
    match op
    case Recount(ids) => RecountKeepsSound(s, next, w, ids);
    case Join(request) => JoinKeepsSound(s, next, w, request);
    case Expire(request) => ExpireKeepsSound(s, next, w, request);
    case Hear(g, message, verified) => HearKeepsSound(s, next, w, g, message, verified);
    case HelperGone(g) => HelperGoneKeepsSound(s, next, w, g);
    case BackoffFires(g, attempt) => BackoffKeepsSound(s, next, w, g, attempt);
    case SpawnFires => ReplacementKeepsSound(s, next, w);
    case LeaseLost => LeaseLossKeepsSound(s, next, w);
  }
}
