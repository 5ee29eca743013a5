/**
  Late events: messages, exits and timers of generations that are no longer current change nothing,
  so erasing them from any course of events gives the same state and the same effects. Only the
  record of which timers are outstanding differs.
 */
module Staleness {
  import opened Prelude
  import opened Config
  import opened Messages
  import opened Machines
  import opened Slices

  /** A step of one user, with the answers of the outside. */
  datatype Deed = Deed(user: u32, op: Op, world: Answers)

  datatype Course = Course(users: map<u32, Slice>, next: nat, effects: seq<Effect>)

  /** Of a helper, a start attempt or a replacement that is not wanted any more. */
  predicate Stale(s: Slice, op: Op) {
    match op
    case Hear(g, _, _) => !HasHelper(s, g)
    case HelperGone(g) => !HasHelper(s, g)
    case BackoffFires(g, attempt) => s.machine.state != Backoff(g, attempt)
    case SpawnFires => !(s.machine.eligible > 0 && s.machine.state.Absent?)
    case _ => false
  }

  function SliceAt(c: Settings, users: map<u32, Slice>, u: u32): Slice {
    if u in users then users[u] else EmptySlice(c)
  }

  function Play(c: Settings, users: map<u32, Slice>, next: nat, deeds: seq<Deed>): Course
    decreases |deeds|
  {
    if deeds == [] then Course(users, next, [])
    else
      var d := deeds[0];
      var step := Perform(SliceAt(c, users, d.user), next, d.world, d.op);
      var rest := Play(c, users[d.user := step.slice], step.next, deeds[1..]);
      rest.(effects := step.effects + rest.effects)
  }

  /** The deeds without those that are stale when they come. */
  function Erased(c: Settings, users: map<u32, Slice>, next: nat, deeds: seq<Deed>): seq<Deed>
    decreases |deeds|
  {
    if deeds == [] then []
    else
      var d := deeds[0];
      var step := Perform(SliceAt(c, users, d.user), next, d.world, d.op);
      (if Stale(SliceAt(c, users, d.user), d.op) then [] else [d]) + Erased(c, users[d.user := step.slice], step.next, deeds[1..])
  }

  /** The same but for the outstanding timers. */
  predicate Alike(s: Slice, t: Slice) {
    s == t.(spawnTimers := s.spawnTimers, backoffTimers := s.backoffTimers)
  }

  ghost predicate AllAlike(c: Settings, a: map<u32, Slice>, b: map<u32, Slice>) {
    forall u: u32 :: Alike(SliceAt(c, a, u), SliceAt(c, b, u))
  }

  predicate AlikeSteps(x: Step, y: Step) {
    Alike(x.slice, y.slice) && x.next == y.next && x.effects == y.effects && x.answers == y.answers
  }

  // ---- No step depends on the record of timers ----

  lemma {:induction false} AnswersAlike(s: Slice, t: Slice, next: nat, w: Answers, requests: seq<nat>, reply: Answer)
    requires Alike(s, t)
    ensures AlikeSteps(AnswerAll(s, next, w, requests, reply), AnswerAll(t, next, w, requests, reply))
    decreases |requests|
  {
    if requests == [] {
    } else {
      if requests[0] in s.pending {
        var p := s.pending - {requests[0]};
        AnswersAlike(s.(pending := p), t.(pending := p), next, w, requests[1..], reply);
      } else {
        AnswersAlike(s, t, next, w, requests[1..], reply);
      }
    }
  }

  lemma ActionAlike(s: Slice, t: Slice, next: nat, w: Answers, a: Action)
    requires Alike(s, t)
    ensures AlikeSteps(Apply(s, next, w, a), Apply(t, next, w, a))
  {
    match a
    case AnswerReady(requests) => AnswersAlike(s, t, next, w, requests, ReplyReady);
    case AnswerError(requests, code) => AnswersAlike(s, t, next, w, requests, ErrorReply(code));
    case _ =>
  }

  lemma {:induction false} ActionsAlike(s: Slice, t: Slice, next: nat, w: Answers, actions: seq<Action>)
    requires Alike(s, t)
    ensures AlikeSteps(ApplyAll(s, next, w, actions), ApplyAll(t, next, w, actions))
    decreases |actions|
  {
    if actions == [] {
    } else {
      var x, y := Apply(s, next, w, actions[0]), Apply(t, next, w, actions[0]);
      ActionAlike(s, t, next, w, actions[0]);
      ActionsAlike(x.slice, y.slice, x.next, x.answers, actions[1..]);
    }
  }

  lemma MessageAlike(s: Slice, t: Slice, next: nat, w: Answers, g: nat, message: Report, verified: bool)
    requires Alike(s, t) && HasHelper(s, g)
    ensures AlikeSteps(HearMessage(s, next, w, g, message, verified), HearMessage(t, next, w, g, message, verified))
  {
    match message
    case LeaseOpened(session, _) =>
      var leased := Some(s.helper.value.(lease := Some(session)));
      var x := Send(s.(helper := leased), next, w, g, LeaseAccepted);
      var y := Send(t.(helper := leased), next, w, g, LeaseAccepted);
      ActionsAlike(x.slice, y.slice, x.next, x.answers, LeaseAcceptedActions(s.machine));
    case ReadySucceeded => SettledAlike(s, t, next, w, ReadySucceededIn(s.machine, g));
    case StartFailed(_) => SettledAlike(s, t, next, w, StartupFailedIn(s.machine, g));
    case ManagerExited(_) =>
      var handle := Some(s.helper.value.(managerPid := None));
      SettledAlike(s.(helper := handle), t.(helper := handle), next, w, ManagerExitedIn(s.machine, g));
    case _ =>
  }

  lemma SettledAlike(s: Slice, t: Slice, next: nat, w: Answers, outcome: Outcome)
    requires Alike(s, t)
    ensures AlikeSteps(Settle(s, next, w, outcome), Settle(t, next, w, outcome))
  {
    ActionsAlike(s.(machine := outcome.machine), t.(machine := outcome.machine), next, w, outcome.actions);
  }

  lemma StepAlike(s: Slice, t: Slice, next: nat, w: Answers, op: Op)
    requires Alike(s, t)
    ensures AlikeSteps(Perform(s, next, w, op), Perform(t, next, w, op))
  {
    match op
    case Recount(ids) => SettledAlike(s.(ids := ids), t.(ids := ids), next, w, SetEligible(s.machine, |ids|));
    case Join(r) =>
      var p := s.pending + {r};
      SettledAlike(s.(pending := p), t.(pending := p), next, w, AddRequest(s.machine, r));
    case Hear(g, message, verified) =>
      if HasHelper(s, g) {
        MessageAlike(s, t, next, w, g, message, verified);
      }
    case HelperGone(g) =>
      var outcome := HelperExitedFrom(s.machine, g);
      SettledAlike(s.(helper := None), t.(helper := None), next, w, outcome.(actions := WithoutSpawns(outcome.actions)));
    case BackoffFires(g, n) =>
      var x := Fired(s, g, n);
      var y := Fired(t, g, n);
      SettledAlike(x, y, next, w, BackoffElapsed(s.machine, g, n));
    case StopAll => SettledAlike(s, t, next, w, BeginShutdown(s.machine));
    case Expire(_) => UnsettledAlike(s, t, next, w, op);
    case SpawnFires => UnsettledAlike(s, t, next, w, op);
    case LeaseLost => UnsettledAlike(s, t, next, w, op);
  }

  /** The steps that leave the machine's transitions out. */
  lemma UnsettledAlike(s: Slice, t: Slice, next: nat, w: Answers, op: Op)
    requires Alike(s, t) && (op.Expire? || op.SpawnFires? || op.LeaseLost?)
    ensures AlikeSteps(Perform(s, next, w, op), Perform(t, next, w, op))
  {
  }

  /** A stale event changes nothing but the record of timers, and shows nothing. */
  lemma StaleChangesNothing(s: Slice, next: nat, w: Answers, op: Op)
    requires Stale(s, op)
    ensures AlikeSteps(Perform(s, next, w, op), Step(s, next, [], w))
  {
  }

  lemma UpdateAlike(c: Settings, a: map<u32, Slice>, b: map<u32, Slice>, u: u32, x: Slice, y: Slice)
    requires AllAlike(c, a, b) && Alike(x, y)
    ensures AllAlike(c, a[u := x], b[u := y])
    ensures y == SliceAt(c, b, u) ==> AllAlike(c, a[u := x], b)
  {
    forall v: u32
      ensures Alike(SliceAt(c, a[u := x], v), SliceAt(c, b[u := y], v))
      ensures y == SliceAt(c, b, u) ==> Alike(SliceAt(c, a[u := x], v), SliceAt(c, b, v))
    {
      assert Alike(SliceAt(c, a, v), SliceAt(c, b, v));
    }
  }

  /** Erasing stale events gives the same course of events. */
  lemma {:induction false} ErasureKeepsCourse(c: Settings, a: map<u32, Slice>, b: map<u32, Slice>, next: nat, deeds: seq<Deed>)
    requires AllAlike(c, a, b)
    ensures var x, y := Play(c, a, next, deeds), Play(c, b, next, Erased(c, a, next, deeds));
            AllAlike(c, x.users, y.users) && x.next == y.next && x.effects == y.effects
    decreases |deeds|
  {
    if deeds == [] {
    } else {
      var d, rest := deeds[0], deeds[1..];
      var s, t := SliceAt(c, a, d.user), SliceAt(c, b, d.user);
      assert Alike(s, t);
      var x := Perform(s, next, d.world, d.op);
      var kept := Erased(c, a[d.user := x.slice], x.next, rest);
      if Stale(s, d.op) {
        StaleChangesNothing(s, next, d.world, d.op);
        UpdateAlike(c, a, b, d.user, x.slice, t);
        assert [] + kept == kept;
        ErasureKeepsCourse(c, a[d.user := x.slice], b, next, rest);
      } else {
        var y := Perform(t, next, d.world, d.op);
        StepAlike(s, t, next, d.world, d.op);
        UpdateAlike(c, a, b, d.user, x.slice, y.slice);
        assert ([d] + kept)[0] == d && ([d] + kept)[1..] == kept;
        ErasureKeepsCourse(c, a[d.user := x.slice], b[d.user := y.slice], x.next, rest);
      }
    }
  }

  // ---- What the machine could do but the daemon never sees ----

  /**
    In a sound slice nobody is left waiting when a helper exits, and neither a failed start nor an
    exited manager finds the user without an eligible session.
   */
  lemma BranchesNeverTaken(s: Slice, g: nat)
    requires Sound(s)
    ensures HelperExitedFrom(s.machine, g).actions in [[], [SpawnHelper]]
    ensures forall a :: a in StartupFailedIn(s.machine, g).actions + ManagerExitedIn(s.machine, g).actions ==> a.ScheduleBackoff?
  {
  }

  /**
    A request to restart after stopping may be outdated when the helper exits, since losing the last
    session does not take it back. It then leads to a timer, but to no new helper.
   */
  lemma OutdatedRestartIsHarmless(s: Slice, g: nat, next: nat, w: Answers, v: Answers)
    requires Sound(s) && s.machine.state == Stopping(g, true) && s.machine.eligible == 0
    ensures var left := Perform(s, next, w, HelperGone(g));
            var fired := Perform(left.slice, left.next, v, SpawnFires);
            && left.slice.spawnTimers == s.spawnTimers + 1
            && left.effects == [] && fired.effects == []
            && fired.slice.helper == None && fired.slice.machine == s.machine.(state := Absent)
  {
    assert WithoutSpawns([SpawnHelper]) == [];
  }

  /** Such an outdated request does arise: a session comes and goes while the helper is stopping. */
  lemma RestartCanBecomeOutdated(s: Slice, g: nat, id: SessionId, next: nat, w: Answers)
    requires Sound(s) && s.machine.state == Stopping(g, false) && s.ids == {}
    ensures var back := Perform(s, next, w, Recount({id}));
            var gone := Perform(back.slice, back.next, back.answers, Recount({}));
            gone.slice.machine.state == Stopping(g, true) && gone.slice.machine.eligible == 0
  {
    assert |{id}| == 1;
  }
}
