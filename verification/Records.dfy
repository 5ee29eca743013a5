/**
  What the daemon keeps of a helper, the lease and the manager's process number, is what that helper
  has reported, and nothing else.
 */
module Records {
  import opened Prelude
  import opened Config
  import opened Messages
  import opened Machines
  import opened Slices
  import opened SliceEffects
  import opened Systems
  import opened Invariance

  /** The manager's process number and the generation it belongs to, while the machine keeps one. */
  function PidOf(state: ManagerState): Option<(nat, u32)> {
    match state
    case Starting(g, _, Some(pid)) => Some((g, pid))
    case Ready(g, pid, _) => Some((g, pid))
    case _ => None
  }

  /** The lease that is registered, and its generation. */
  function LeaseOf(helper: Option<Handle>): Option<(nat, SessionId)> {
    match helper
    case Some(Handle(g, Some(id), _)) => Some((g, id))
    case _ => None
  }

  /** The helper of this generation has reported this process number. */
  predicate TellsPid(op: Op, g: nat, pid: u32) {
    op.Hear? && op.generation == g && op.message == ManagerSpawned(pid)
  }

  /** The helper of this generation has announced this lease, and it was verified. */
  predicate TellsLease(op: Op, g: nat, id: SessionId) {
    op.Hear? && op.generation == g && op.message.LeaseOpened? && op.message.sessionId == id && op.verified
  }

  /** What is kept after the step was kept before, or the step has told it. */
  predicate KeepsRecords(s: Slice, op: Op, after: Slice) {
    && (match PidOf(after.machine.state)
        case Some(kept) => PidOf(s.machine.state) == Some(kept) || TellsPid(op, kept.0, kept.1)
        case None => true)
    && (match LeaseOf(after.helper)
        case Some(kept) => LeaseOf(s.helper) == Some(kept) || TellsLease(op, kept.0, kept.1)
        case None => true)
  }

  lemma {:induction false} ActionsKeepRecords(s: Slice, next: nat, w: Answers, actions: seq<Action>)
    ensures var after := ApplyAll(s, next, w, actions).slice;
            && (PidOf(after.machine.state) == PidOf(s.machine.state) || PidOf(after.machine.state) == None)
            && (LeaseOf(after.helper) == LeaseOf(s.helper) || LeaseOf(after.helper) == None)
    decreases |actions|
  {
    if actions == [] {
    } else {
      var a := actions[0];
      var first := Apply(s, next, w, a);
      if !a.SpawnHelper? && !a.ScheduleBackoff? {
        ApplyKeeps(s, next, w, a);
      }
      ActionsKeepRecords(first.slice, first.next, first.answers, actions[1..]);
    }
  }

  lemma SettlingKeepsRecords(s: Slice, next: nat, w: Answers, op: Op, before: Slice, outcome: Outcome)
    requires LeaseOf(before.helper) == LeaseOf(s.helper) || LeaseOf(before.helper) == None
    requires PidOf(outcome.machine.state) == PidOf(s.machine.state) || PidOf(outcome.machine.state) == None
    ensures KeepsRecords(s, op, Settle(before, next, w, outcome).slice)
  {
    ActionsKeepRecords(before.(machine := outcome.machine), next, w, outcome.actions);
  }

  lemma HearingKeepsRecords(s: Slice, next: nat, w: Answers, g: nat, m: Report, verified: bool)
    requires HasHelper(s, g)
    ensures KeepsRecords(s, Hear(g, m, verified), HearMessage(s, next, w, g, m, verified).slice)
  {
    var op := Hear(g, m, verified);
    match m
    case LeaseOpened(session, _) =>
      var leased := s.(helper := Some(s.helper.value.(lease := Some(session))));
      var sent := Send(leased, next, w, g, LeaseAccepted);
      ActionsKeepRecords(sent.slice, sent.next, sent.answers, LeaseAcceptedActions(sent.slice.machine));
    case ReadySucceeded => SettlingKeepsRecords(s, next, w, op, s, ReadySucceededIn(s.machine, g));
    case StartFailed(_) => SettlingKeepsRecords(s, next, w, op, s, StartupFailedIn(s.machine, g));
    case ManagerExited(_) =>
      var handle := s.helper.value.(managerPid := None);
      SettlingKeepsRecords(s, next, w, op, s.(helper := Some(handle)), ManagerExitedIn(s.machine, g));
    case _ =>
  }

  /** Every step keeps only what was kept before or what it was told by the helper it belongs to. */
  lemma StepKeepsRecords(s: Slice, next: nat, w: Answers, op: Op)
    ensures KeepsRecords(s, op, Perform(s, next, w, op).slice)
  {
    match op
    case Recount(ids) => SettlingKeepsRecords(s, next, w, op, s.(ids := ids), SetEligible(s.machine, |ids|));
    case Join(request) => SettlingKeepsRecords(s, next, w, op, s.(pending := s.pending + {request}), AddRequest(s.machine, request));
    case Hear(g, m, verified) =>
      if HasHelper(s, g) {
        HearingKeepsRecords(s, next, w, g, m, verified);
      }
    case HelperGone(g) =>
      if HasHelper(s, g) {
        var outcome := HelperExitedFrom(s.machine, g);
        SettlingKeepsRecords(s, next, w, op, s.(helper := None), outcome.(actions := WithoutSpawns(outcome.actions)));
      }
    case BackoffFires(g, attempt) =>
      SettlingKeepsRecords(s, next, w, op, Fired(s, g, attempt), Machines.BackoffElapsed(s.machine, g, attempt));
    case StopAll => SettlingKeepsRecords(s, next, w, op, s, BeginShutdown(s.machine));
    case _ =>
  }

  /** A machine that is starting takes over the process number it is told, and keeps it when it is ready. */
  lemma PidIsTakenOver(s: Slice, next: nat, w: Answers, g: nat, pid: u32, verified: bool)
    requires HasHelper(s, g) && s.machine.state.Starting? && s.machine.state.generation == g
    ensures PidOf(Perform(s, next, w, Hear(g, ManagerSpawned(pid), verified)).slice.machine.state) == Some((g, pid))
    ensures PidOf(Perform(s, next, w, Hear(g, ReadySucceeded, verified)).slice.machine.state) == PidOf(s.machine.state)
  {
    var outcome := ReadySucceededIn(s.machine, g);
    ActionsKeepMachine(s.(machine := outcome.machine), next, w, outcome.actions);
  }

  /** Once the exit of the manager is told, no process number is kept any more. */
  lemma PidIsForgotten(s: Slice, next: nat, w: Answers, g: nat, status: ProcessStatus, verified: bool)
    requires HasHelper(s, g) && Agree(s)
    ensures var after := Perform(s, next, w, Hear(g, ManagerExited(status), verified)).slice;
            PidOf(after.machine.state) == None && after.helper.Some? && after.helper.value.managerPid == None
  {
    var outcome := ManagerExitedIn(s.machine, g);
    var handle := s.helper.value.(managerPid := None);
    ActionsKeepMachine(s.(helper := Some(handle), machine := outcome.machine), next, w, outcome.actions);
    ActionsWithHelper(s.(helper := Some(handle), machine := outcome.machine), next, w, outcome.actions, g);
  }

  // ---- Over a run ----

  /** In the `k`-th turn the daemon took this step for the user. */
  ghost predicate TookStep(run: History, k: nat, u: u32, op: Op)
    requires k < |run.turns| && k < |run.states|
  {
    CanTake(run.states[k], run.turns[k]) && !run.turns[k].HelperTurn?
    && ActorOf(run.states[k], run.turns[k]) == u && OpOf(run.states[k], run.turns[k]) == op
  }

  ghost predicate PidToldBefore(run: History, i: nat, u: u32, g: nat, pid: u32)
    requires i <= |run.turns| && |run.states| == |run.turns| + 1
  {
    exists k, op :: 0 <= k < i && TellsPid(op, g, pid) && TookStep(run, k, u, op)
  }

  ghost predicate LeaseToldBefore(run: History, i: nat, u: u32, g: nat, id: SessionId)
    requires i <= |run.turns| && |run.states| == |run.turns| + 1
  {
    exists k, op :: 0 <= k < i && TellsLease(op, g, id) && TookStep(run, k, u, op)
  }

  /** All that is kept for the user after `i` turns was reported before. */
  ghost predicate AllTold(run: History, i: nat, u: u32)
    requires i <= |run.turns| && |run.states| == |run.turns| + 1 && u in run.states[i].users
  {
    var s := run.states[i].users[u];
    && (PidOf(s.machine.state).Some? ==> PidToldBefore(run, i, u, PidOf(s.machine.state).value.0, PidOf(s.machine.state).value.1))
    && (LeaseOf(s.helper).Some? ==> LeaseToldBefore(run, i, u, LeaseOf(s.helper).value.0, LeaseOf(s.helper).value.1))
  }

  lemma AllToldStays(run: History, i: nat, u: u32)
    requires i < |run.turns| && |run.states| == |run.turns| + 1 && u in run.states[i].users && u in run.states[i + 1].users
    requires AllTold(run, i, u) && run.states[i + 1].users[u] == run.states[i].users[u]
    ensures AllTold(run, i + 1, u)
  {
    ToldStays(run, i, u);
  }

  lemma ToldStays(run: History, i: nat, u: u32)
    requires i < |run.turns| && |run.states| == |run.turns| + 1
    ensures forall g, pid :: PidToldBefore(run, i, u, g, pid) ==> PidToldBefore(run, i + 1, u, g, pid)
    ensures forall g, id :: LeaseToldBefore(run, i, u, g, id) ==> LeaseToldBefore(run, i + 1, u, g, id)
  {
  }

  lemma AllToldStep(run: History, i: nat, u: u32, op: Op)
    requires i < |run.turns| && |run.states| == |run.turns| + 1 && u in run.states[i].users && u in run.states[i + 1].users
    requires AllTold(run, i, u) && TookStep(run, i, u, op)
    requires KeepsRecords(run.states[i].users[u], op, run.states[i + 1].users[u])
    ensures AllTold(run, i + 1, u)
  {
    ToldStays(run, i, u);
  }

  /**
    In every run, the lease registered for a user is one that this helper has announced and the
    daemon has verified, and the process number kept for the manager is one it has reported.
   */
  lemma {:induction false} EveryRecordWasTold(run: History, c: Settings, i: nat, u: u32)
    requires StartedRun(run, c) && i <= |run.turns|
    ensures u in run.states[i].users && AllTold(run, i, u)
  {
    if i == 0 {
    } else {
      EveryRecordWasTold(run, c, i - 1, u);
      EveryRunIsSound(run, c, i - 1);
      EveryRunIsSound(run, c, i);
      assert Follows(run, i - 1);
      TurnTells(run, i - 1, u);
    }
  }

  lemma TurnTells(run: History, i: nat, u: u32)
    requires i < |run.turns| && |run.states| == |run.turns| + 1 && |run.shown| == |run.turns| && Follows(run, i)
    requires u in run.states[i].users && u in run.states[i + 1].users && AllTold(run, i, u)
    ensures AllTold(run, i + 1, u)
  {
    var sys, turn := run.states[i], run.turns[i];
    if !turn.HelperTurn? && ActorOf(sys, turn) == u {
      StepKeepsRecords(sys.users[u], sys.next, turn.world, OpOf(sys, turn));
      AllToldStep(run, i, u, OpOf(sys, turn));
    } else {
      AllToldStays(run, i, u);
    }
  }
}
