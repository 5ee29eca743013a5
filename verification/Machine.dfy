/**
  The state machine of one user's service manager, as the daemon sees it.

  `Machine` is the value of the machine and the functions are its transitions; the class
  `UserMachine` is the object the daemon updates in place, each method proved to perform the
  transition of the same name.
 */
module Machines {
  import opened Prelude
  import opened Messages

  datatype ManagerState =
    | Absent
    | Starting(generation: nat, attempt: u32, managerPid: Option<u32>)
    | Ready(generation: nat, readyPid: u32, restartAttempts: u32)
    | Backoff(generation: nat, nextAttempt: u32)
    | Stopping(generation: nat, restartAfterStop: bool)
  {
    function Generation(): Option<nat> {
      if Absent? then None else Some(generation)
    }

    /** The states in which the user is being served or is about to be. */
    predicate Active() {
      Starting? || Ready? || Backoff?
    }
  }

  datatype Action =
    | SpawnHelper
    | RequestStart(generation: nat, attempt: u32)
    | ShutdownHelper(generation: nat)
    | ScheduleBackoff(generation: nat, attempt: u32)
    | AnswerReady(requests: seq<nat>)
    | AnswerError(requests: seq<nat>, code: ErrorCode)

  datatype Machine = Machine(eligible: nat, state: ManagerState, waiters: seq<nat>)

  /** What a transition leaves behind: the new machine and the actions it asks for, in order. */
  datatype Outcome = Outcome(machine: Machine, actions: seq<Action>)

  const NEW_MACHINE := Machine(0, Absent, [])

  function Refusing(waiters: seq<nat>, code: ErrorCode): seq<Action> {
    if waiters == [] then [] else [AnswerError(waiters, code)]
  }

  function SetEligible(m: Machine, count: nat): Outcome {
    var counted := m.(eligible := count);
    if m.eligible == 0 && count > 0 then
      match m.state
      case Absent => Outcome(counted, [SpawnHelper])
      case Stopping(g, _) => Outcome(counted.(state := Stopping(g, true)), [])
      case _ => Outcome(counted, [])
    else if m.eligible > 0 && count == 0 then
      var refused := Refusing(m.waiters, SessionIneligible);
      if m.state.Active() then
        var g := m.state.generation;
        Outcome(Machine(count, Stopping(g, false), []), refused + [ShutdownHelper(g)])
      else Outcome(counted.(waiters := []), refused)
    else Outcome(counted, [])
  }

  function AddRequest(m: Machine, request: nat): Outcome {
    if m.state.Ready? then Outcome(m, [AnswerReady([request])])
    else Outcome(m.(waiters := m.waiters + [request]), [])
  }

  /** `waiters` without any occurrence of `request`, in the same order. */
  function Without(waiters: seq<nat>, request: nat): seq<nat> {
    if waiters == [] then []
    else if waiters[0] == request then Without(waiters[1..], request)
    else [waiters[0]] + Without(waiters[1..], request)
  }

  function CancelRequest(m: Machine, request: nat): Machine {
    m.(waiters := Without(m.waiters, request))
  }

  function HelperSpawned(m: Machine, generation: nat): Machine {
    m.(state := Starting(generation, 1, None))
  }

  function LeaseAcceptedActions(m: Machine): seq<Action> {
    if m.state.Starting? && m.state.managerPid.None?
    then [RequestStart(m.state.generation, m.state.attempt)]
    else []
  }

  function ManagerSpawnedAs(m: Machine, generation: nat, pid: u32): Machine {
    if m.state.Starting? && m.state.generation == generation
    then m.(state := m.state.(managerPid := Some(pid)))
    else m
  }

  function ReadySucceededIn(m: Machine, generation: nat): Outcome {
    if m.state.Starting? && m.state.managerPid.Some? && m.state.generation == generation then
      var ready := Ready(generation, m.state.managerPid.value, SaturatingSub(m.state.attempt, 1));
      Outcome(m.(state := ready, waiters := []), if m.waiters == [] then [] else [AnswerReady(m.waiters)])
    else Outcome(m, [])
  }

  function StartupFailedIn(m: Machine, generation: nat): Outcome {
    if m.state.Starting? && m.state.generation == generation then
      if m.eligible == 0 then
        Outcome(m.(state := Stopping(generation, false)), [ShutdownHelper(generation)])
      else
        var next := SaturatingAdd(m.state.attempt, 1);
        Outcome(m.(state := Backoff(generation, next)), [ScheduleBackoff(generation, next)])
    else Outcome(m, [])
  }

  function ManagerExitedIn(m: Machine, generation: nat): Outcome {
    match m.state
    case Ready(current, _, restarts) =>
      if current != generation then Outcome(m, [])
      else if m.eligible > 0 then
        var added := SaturatingAdd(restarts, 2);
        var next := if added < 1 then 1 else added;
        Outcome(m.(state := Backoff(generation, next)), [ScheduleBackoff(generation, next)])
      else Outcome(m.(state := Stopping(generation, false)), [ShutdownHelper(generation)])
    case Starting(current, attempt, _) =>
      if current == generation then Outcome(m.(state := Starting(current, attempt, None)), [])
      else Outcome(m, [])
    case _ => Outcome(m, [])
  }

  function BackoffElapsed(m: Machine, generation: nat, attempt: u32): Outcome {
    if m.state == Backoff(generation, attempt) && m.eligible > 0
    then Outcome(m.(state := Starting(generation, attempt, None)), [RequestStart(generation, attempt)])
    else Outcome(m, [])
  }

  function HelperExitedFrom(m: Machine, generation: nat): Outcome {
    if m.state.Generation() != Some(generation) then Outcome(m, [])
    else if m.eligible > 0 || (m.state.Stopping? && m.state.restartAfterStop) then
      Outcome(m.(state := Absent), [SpawnHelper])
    else Outcome(m.(state := Absent, waiters := []), Refusing(m.waiters, StartupFailed))
  }

  function BeginShutdown(m: Machine): Outcome {
    match m.state.Generation()
    case None => Outcome(m, [])
    case Some(g) =>
      Outcome(Machine(0, Stopping(g, false), []), [ShutdownHelper(g)] + Refusing(m.waiters, Internal))
  }

  /** The object the daemon keeps for one user. */
  class UserMachine {
    const uid: u32
    var eligibleSessions: nat
    var state: ManagerState
    var pendingPam: seq<nat>

    function Value(): Machine
      reads this
    {
      Machine(eligibleSessions, state, pendingPam)
    }

    constructor (uid: u32)
      ensures Value() == NEW_MACHINE && this.uid == uid
    {
      this.uid := uid;
      eligibleSessions, state, pendingPam := 0, Absent, [];
    }

    /** The machine the daemon holds for a user, taken out to be changed. */
    constructor Of(uid: u32, machine: Machine)
      ensures Value() == machine && this.uid == uid
    {
      this.uid := uid;
      eligibleSessions, state, pendingPam := machine.eligible, machine.state, machine.waiters;
    }

    method SetEligibleSessions(count: nat) returns (actions: seq<Action>)
      modifies this
      ensures Outcome(Value(), actions) == SetEligible(old(Value()), count)
    {
      var previous := eligibleSessions;
      eligibleSessions := count;
      actions := [];
      if previous == 0 && count > 0 {
        match state
        case Absent => return [SpawnHelper];
        case Stopping(g, _) => state := Stopping(g, true);
        case _ =>
      } else if previous > 0 && count == 0 {
        var pending := pendingPam;
        pendingPam := [];
        if pending != [] {
          actions := actions + [AnswerError(pending, SessionIneligible)];
        }
        if state.Active() {
          var generation := state.generation;
          state := Stopping(generation, false);
          actions := actions + [ShutdownHelper(generation)];
        }
      }
    }

    method AddPamRequest(request: nat) returns (actions: seq<Action>)
      modifies this
      ensures Outcome(Value(), actions) == AddRequest(old(Value()), request)
    {
      if state.Ready? {
        return [AnswerReady([request])];
      }
      pendingPam := pendingPam + [request];
      actions := [];
    }

    method CancelPamRequest(request: nat)
      modifies this
      ensures Value() == CancelRequest(old(Value()), request)
    {
      pendingPam := Without(pendingPam, request);
    }

    /** Called only while no helper exists; the assertion of the source is the precondition. */
    method HelperStarted(generation: nat)
      requires state.Absent?
      modifies this
      ensures Value() == HelperSpawned(old(Value()), generation)
    {
      state := Starting(generation, 1, None);
    }

    method LeaseWasAccepted() returns (actions: seq<Action>)
      ensures actions == LeaseAcceptedActions(Value())
    {
      if state.Starting? && state.managerPid.None? {
        return [RequestStart(state.generation, state.attempt)];
      }
      actions := [];
    }

    method ManagerStarted(generation: nat, pid: u32)
      modifies this
      ensures Value() == ManagerSpawnedAs(old(Value()), generation, pid)
    {
      if state.Starting? && state.generation == generation {
        state := state.(managerPid := Some(pid));
      }
    }

    method ReadyDone(generation: nat) returns (actions: seq<Action>)
      modifies this
      ensures Outcome(Value(), actions) == ReadySucceededIn(old(Value()), generation)
    {
      actions := [];
      if !state.Starting? || state.managerPid.None? || state.generation != generation {
        return;
      }
      state := Ready(generation, state.managerPid.value, SaturatingSub(state.attempt, 1));
      var pending := pendingPam;
      pendingPam := [];
      if pending != [] {
        actions := [AnswerReady(pending)];
      }
    }

    method StartupFailure(generation: nat) returns (actions: seq<Action>)
      modifies this
      ensures Outcome(Value(), actions) == StartupFailedIn(old(Value()), generation)
    {
      if !state.Starting? || state.generation != generation {
        return [];
      }
      if eligibleSessions == 0 {
        state := Stopping(generation, false);
        return [ShutdownHelper(generation)];
      }
      var nextAttempt := SaturatingAdd(state.attempt, 1);
      state := Backoff(generation, nextAttempt);
      actions := [ScheduleBackoff(generation, nextAttempt)];
    }

    method ManagerExit(generation: nat) returns (actions: seq<Action>)
      modifies this
      ensures Outcome(Value(), actions) == ManagerExitedIn(old(Value()), generation)
    {
      actions := [];
      if state.Ready? && state.generation == generation {
        if eligibleSessions > 0 {
          var nextAttempt := SaturatingAdd(state.restartAttempts, 2);
          nextAttempt := if nextAttempt < 1 then 1 else nextAttempt;
          state := Backoff(generation, nextAttempt);
          return [ScheduleBackoff(generation, nextAttempt)];
        }
        state := Stopping(generation, false);
        return [ShutdownHelper(generation)];
      }
      if state.Starting? && state.generation == generation {
        state := state.(managerPid := None);
      }
    }

    method BackoffDone(generation: nat, attempt: u32) returns (actions: seq<Action>)
      modifies this
      ensures Outcome(Value(), actions) == BackoffElapsed(old(Value()), generation, attempt)
    {
      if state != Backoff(generation, attempt) || eligibleSessions == 0 {
        return [];
      }
      state := Starting(generation, attempt, None);
      actions := [RequestStart(generation, attempt)];
    }

    method HelperExit(generation: nat) returns (actions: seq<Action>)
      modifies this
      ensures Outcome(Value(), actions) == HelperExitedFrom(old(Value()), generation)
    {
      if state.Generation() != Some(generation) {
        return [];
      }
      var restart := eligibleSessions > 0 || (state.Stopping? && state.restartAfterStop);
      state := Absent;
      if restart {
        return [SpawnHelper];
      }
      var pending := pendingPam;
      pendingPam := [];
      actions := if pending == [] then [] else [AnswerError(pending, StartupFailed)];
    }

    method StartShutdown() returns (actions: seq<Action>)
      modifies this
      ensures Outcome(Value(), actions) == BeginShutdown(old(Value()))
    {
      if state.Absent? {
        return [];
      }
      var generation := state.generation;
      eligibleSessions := 0;
      state := Stopping(generation, false);
      var pending := pendingPam;
      pendingPam := [];
      actions := [ShutdownHelper(generation)];
      if pending != [] {
        actions := actions + [AnswerError(pending, Internal)];
      }
    }
  }

  // ---- Waiting requests ----

  lemma {:induction false} WithoutKeepsOthers(waiters: seq<nat>, request: nat)
    ensures forall r :: r in Without(waiters, request) <==> r in waiters && r != request
    ensures multiset(Without(waiters, request)) == multiset(waiters)[request := 0]
  {
    if waiters == [] {
    } else {
      assert waiters == [waiters[0]] + waiters[1..];
      WithoutKeepsOthers(waiters[1..], request);
    }
  }

  predicate Distinct(waiters: seq<nat>) {
    forall i, j :: 0 <= i < j < |waiters| ==> waiters[i] != waiters[j]
  }

  lemma {:induction false} WithoutKeepsDistinct(waiters: seq<nat>, request: nat)
    requires Distinct(waiters)
    ensures Distinct(Without(waiters, request))
  {
    if waiters == [] {
    } else {
      WithoutKeepsDistinct(waiters[1..], request);
      WithoutKeepsOthers(waiters[1..], request);
      var rest := Without(waiters[1..], request);
      assert forall r :: r in rest ==> r in waiters[1..];
      assert waiters[0] !in waiters[1..];
    }
  }
}
