/** A run of the system that ends with a request being told ready: the guarantees are not empty. */
module Witnesses {
  import opened Prelude
  import opened Config
  import opened Messages
  import opened Machines
  import opened Slices
  import opened SliceEffects
  import opened Helpers
  import opened Lockstep
  import opened Systems
  import opened Invariance
  import opened Guarantees

  /** One user's slice and its helper's process. */
  ghost predicate Scene(sys: System, u: u32, g: nat, s: Slice, p: Proc) {
    && u in sys.users && sys.users[u] == s && HasHelper(s, g)
    && g in sys.procs && sys.procs[g] == p && g in sys.homes && sys.homes[g] == u
  }

  /** The run leads from `sys` to a state with the given scene. */
  ghost predicate LeadsTo(run: History, sys: System, u: u32, g: nat, s: Slice, p: Proc) {
    IsRun(run) && run.states[0] == sys && Scene(Last(run), u, g, s, p)
  }

  ghost function Last(run: History): System
    requires IsRun(run)
  {
    run.states[|run.turns|]
  }

  /** The run with one more turn. */
  ghost function Longer(run: History, turn: Turn): History
    requires IsRun(run) && CanTake(Last(run), turn)
  {
    History(run.states + [Turned(Last(run), turn)], run.turns + [turn], run.shown + [EffectsOf(Last(run), turn)])
  }

  lemma LongerIsRun(run: History, turn: Turn)
    requires IsRun(run) && CanTake(Last(run), turn)
    ensures var longer := Longer(run, turn);
            && IsRun(longer) && longer.states[0] == run.states[0]
            && Last(longer) == Turned(Last(run), turn)
            && |longer.turns| == |run.turns| + 1 && longer.shown[|run.turns|] == EffectsOf(Last(run), turn)
  {
    var longer, n := Longer(run, turn), |run.turns|;
    assert Follows(longer, n);
    forall i | 0 <= i < n
      ensures Follows(longer, i)
    {
      FollowsAlike(longer, i, run, i);
    }
  }

  // ---- How scenes change ----

  lemma HelperMoves(run: History, sys: System, u: u32, g: nat, s: Slice, p: Proc, e: Event) returns (longer: History)
    requires LeadsTo(run, sys, u, g, s, p) && CanMove(p, e)
    ensures LeadsTo(longer, sys, u, g, s, Move(p, e))
  {
    longer := Longer(run, HelperTurn(g, e));
    LongerIsRun(run, HelperTurn(g, e));
  }

  /** Events that the helper can go through one after another. */
  predicate CanMoveAll(p: Proc, events: seq<Event>)
    decreases |events|
  {
    events == [] || (CanMove(p, events[0]) && CanMoveAll(Move(p, events[0]), events[1..]))
  }

  function MoveAll(p: Proc, events: seq<Event>): Proc
    decreases |events|
  {
    if events == [] then p else MoveAll(Move(p, events[0]), events[1..])
  }

  lemma {:induction false} HelperMovesOn(run: History, sys: System, u: u32, g: nat, s: Slice, p: Proc, events: seq<Event>)
    returns (longer: History)
    requires LeadsTo(run, sys, u, g, s, p) && CanMoveAll(p, events)
    ensures LeadsTo(longer, sys, u, g, s, MoveAll(p, events))
    decreases |events|
  {
    longer := run;
    if events != [] {
      longer := HelperMoves(run, sys, u, g, s, p, events[0]);
      longer := HelperMovesOn(longer, sys, u, g, s, Move(p, events[0]), events[1..]);
    }
  }

  /** What hearing the oldest message does to a scene. */
  function Heard(s: Slice, next: nat, g: nat, p: Proc, verified: bool, w: Answers): Step
    requires p.up != []
  {
    Perform(s, next, w, Hear(g, p.up[0].message, verified))
  }

  lemma MessageIsHeard(sys: System, u: u32, g: nat, s: Slice, p: Proc, verified: bool, w: Answers)
    requires Scene(sys, u, g, s, p) && Sound(s) && p.up != [] && !p.broken
    ensures CanTake(sys, Delivery(g, verified, w))
    ensures EffectsOf(sys, Delivery(g, verified, w)) == Heard(s, sys.next, g, p, verified, w).effects
    ensures var step := Heard(s, sys.next, g, p, verified, w);
            Scene(Turned(sys, Delivery(g, verified, w)), u, g, step.slice, Mail(Picked(p, verified), g, step.effects))
  {
    var mid := sys.(procs := sys.procs[g := Picked(p, verified)]);
    var op := Hear(g, p.up[0].message, verified);
    StepIsShaped(s, sys.next, w, op);
    EnactRoutes(mid, u, op, Heard(s, sys.next, g, p, verified, w));
  }

  // ---- The stages ----

  const SESSION := "c1"
  const SPAWNED: Report := ManagerSpawned(7)
  const PAYLOAD: Report := ReadinessPayload("ready")

  function Awaiting(c: Settings, g: nat, lease: Option<SessionId>, pid: Option<u32>): Slice {
    Slice(c, {SESSION}, Machine(1, Starting(g, 1, pid), [1]), Some(Handle(g, lease, pid)), {1}, 0, multiset{})
  }

  lemma AwaitingIsSound(c: Settings, g: nat, lease: Option<SessionId>, pid: Option<u32>)
    ensures Sound(Awaiting(c, g, lease, pid))
  {
    assert |{SESSION}| == 1;
  }

  function FirstSession(c: Settings, g: nat): Slice {
    Slice(c, {SESSION}, Machine(1, Starting(g, 1, None), []), Some(Handle(g, None, None)), {}, 0, multiset{})
  }

  /** A first session appears and its helper is launched. */
  lemma Launches(sys: System, c: Settings, u: u32)
    requires Initial(sys, c)
    ensures var turn := DaemonTurn(u, Recount({SESSION}), Answers(true, 0));
            CanTake(sys, turn) && Scene(Turned(sys, turn), u, sys.next, FirstSession(c, sys.next), NEW_PROC)
            && Turned(sys, turn).requests == 1
  {
    var s, w := EmptySlice(c), Answers(true, 0);
    assert |{SESSION}| == 1;
    var counted := s.(ids := {SESSION}, machine := SetEligible(s.machine, 1).machine);
    ApplyOne(counted, sys.next, w, SpawnHelper);
    StepIsShaped(s, sys.next, w, Recount({SESSION}));
    EnactRoutes(sys, u, Recount({SESSION}), Perform(s, sys.next, w, Recount({SESSION})));
  }

  lemma Joins(sys: System, c: Settings, u: u32, g: nat)
    requires Scene(sys, u, g, FirstSession(c, g), NEW_PROC) && sys.requests == 1
    ensures var turn := DaemonTurn(u, Join(1), Answers(false, 0));
            CanTake(sys, turn) && Scene(Turned(sys, turn), u, g, Awaiting(c, g, None, None), NEW_PROC)
  {
    var s, w := FirstSession(c, g), Answers(false, 0);
    var step := Perform(s, sys.next, w, Join(1));
    assert step.effects == [] && step.slice == Awaiting(c, g, None, None);
  }

  /** The first two turns of the run. */
  lemma Begins(sys: System, c: Settings, u: u32) returns (run: History)
    requires Initial(sys, c)
    ensures LeadsTo(run, sys, u, sys.next, Awaiting(c, sys.next, None, None), NEW_PROC)
  {
    run := Opens(sys, c, u);
    var join := DaemonTurn(u, Join(1), Answers(false, 0));
    Joins(Last(run), c, u, sys.next);
    LongerIsRun(run, join);
    run := Longer(run, join);
  }

  lemma Opens(sys: System, c: Settings, u: u32) returns (run: History)
    requires Initial(sys, c)
    ensures LeadsTo(run, sys, u, sys.next, FirstSession(c, sys.next), NEW_PROC) && Last(run).requests == 1
  {
    var launch := DaemonTurn(u, Recount({SESSION}), Answers(true, 0));
    run := History([sys], [], []);
    Launches(sys, c, u);
    LongerIsRun(run, launch);
    run := Longer(run, launch);
  }

  const AT_LEASE := Proc(BOOTED, [], [Letter(LEASE, 0)], false, 0, false)

  /** The helper opens its lease. */
  lemma OpensLease()
    ensures var events := [TakeLock, BeginPam, OpenSession, Say(LEASE)];
            CanMoveAll(NEW_PROC, events) && MoveAll(NEW_PROC, events) == AT_LEASE
  {
    var p1 := Move(NEW_PROC, TakeLock);
    var p2 := Move(p1, BeginPam);
    var p3 := Move(p2, OpenSession);
    var tail := [OpenSession, Say(LEASE)];
    assert CanMove(p3, Say(LEASE)) && Move(p3, Say(LEASE)) == AT_LEASE;
    MoveTwo(p2, OpenSession, Say(LEASE));
    MoveMore(p1, BeginPam, tail);
    assert [BeginPam] + tail == [BeginPam, OpenSession, Say(LEASE)];
    MoveMore(NEW_PROC, TakeLock, [BeginPam] + tail);
    assert [TakeLock] + ([BeginPam] + tail) == [TakeLock, BeginPam, OpenSession, Say(LEASE)];
  }

  lemma MoveMore(p: Proc, e: Event, events: seq<Event>)
    requires CanMove(p, e) && CanMoveAll(Move(p, e), events)
    ensures CanMoveAll(p, [e] + events) && MoveAll(p, [e] + events) == MoveAll(Move(p, e), events)
  {
    assert ([e] + events)[1..] == events;
  }

  lemma MoveTwo(p: Proc, e: Event, f: Event)
    requires CanMove(p, e) && CanMove(Move(p, e), f)
    ensures CanMoveAll(p, [e, f]) && MoveAll(p, [e, f]) == Move(Move(p, e), f)
  {
    MoveMore(Move(p, e), f, []);
    MoveMore(p, e, [f]);
    assert [f] + [] == [f] && [e] + [f] == [e, f];
  }

  const ACCEPTED := Proc(BOOTED, [LeaseAccepted, StartManager(1)], [], false, 1, true)

  /** The lease is accepted and the first start command sent. */
  lemma LeaseIsAccepted(c: Settings, g: nat, next: nat)
    ensures var step := Heard(Awaiting(c, g, None, None), next, g, AT_LEASE, true, Answers(false, 2));
            && step.slice == Awaiting(c, g, Some("c2"), None)
            && Mail(Picked(AT_LEASE, true), g, step.effects) == ACCEPTED
  {
    var s, w := Awaiting(c, g, Some("c2"), None), Answers(false, 2);
    var sent := Send(s, next, w, g, LeaseAccepted);
    ApplyOne(s, next, sent.answers, RequestStart(g, 1));
    var picked := Picked(AT_LEASE, true);
    var accepted := Post(picked, LeaseAccepted, true);
    MailOne(picked, g, LeaseAccepted, true);
    MailOne(accepted, g, StartManager(1), true);
    MailConcat(picked, g, [Sent(g, LeaseAccepted)], [Sent(g, StartManager(1))]);
    assert accepted.down + [StartManager(1)] == ACCEPTED.down;
  }

  const STARTED := Proc(LAUNCHED, [], [], false, 1, true)
  const SUCCEEDED := Proc(LAUNCHED.(phase := Running, readySerials := {1}), [],
                          [Letter(SPAWNED, 1), Letter(PAYLOAD, 1), Letter(ReadySucceeded, 1)], false, 1, true)

  /** The helper takes both commands and forks its manager. */
  lemma Forks()
    ensures var events := [Obey(LeaseAccepted), Obey(StartManager(1)), Fork];
            CanMoveAll(ACCEPTED, events) && MoveAll(ACCEPTED, events) == STARTED
  {
    TakesAcceptance();
    TakesStart();
    MoveTwo(ACCEPTED_TAKEN, Obey(StartManager(1)), Fork);
    MoveMore(ACCEPTED, Obey(LeaseAccepted), [Obey(StartManager(1)), Fork]);
    assert [Obey(LeaseAccepted)] + [Obey(StartManager(1)), Fork] == [Obey(LeaseAccepted), Obey(StartManager(1)), Fork];
  }

  const ACCEPTED_TAKEN := ACCEPTED.(helper := BOOTED.(phase := Idle), down := [StartManager(1)])

  lemma TakesAcceptance()
    ensures CanMove(ACCEPTED, Obey(LeaseAccepted)) && Move(ACCEPTED, Obey(LeaseAccepted)) == ACCEPTED_TAKEN
  {
  }

  lemma TakesStart()
    ensures CanMove(ACCEPTED_TAKEN, Obey(StartManager(1)))
    ensures var p := Move(ACCEPTED_TAKEN, Obey(StartManager(1)));
            CanMove(p, Fork) && Move(p, Fork) == STARTED
  {
  }

  const REPORTED := STARTED.(helper := LAUNCHED.(phase := Payload), up := [Letter(SPAWNED, 1), Letter(PAYLOAD, 1)])

  /** The manager reports its payload ... */
  lemma ReportsPayload()
    ensures CanMoveAll(STARTED, [Say(SPAWNED), Say(PAYLOAD)])
    ensures MoveAll(STARTED, [Say(SPAWNED), Say(PAYLOAD)]) == REPORTED
  {
    var p1 := Move(STARTED, Say(SPAWNED));
    assert p1.up + [Letter(PAYLOAD, 1)] == REPORTED.up;
    MoveTwo(STARTED, Say(SPAWNED), Say(PAYLOAD));
  }

  /** ... and its ready action succeeds. */
  lemma Succeeds()
    ensures CanMoveAll(REPORTED, [ReadyExitsZero, Say(ReadySucceeded)])
    ensures MoveAll(REPORTED, [ReadyExitsZero, Say(ReadySucceeded)]) == SUCCEEDED
  {
    var p1 := Move(REPORTED, ReadyExitsZero);
    assert p1.helper.readySerials == {1};
    assert p1.up + [Letter(ReadySucceeded, 1)] == SUCCEEDED.up;
    MoveTwo(REPORTED, ReadyExitsZero, Say(ReadySucceeded));
  }

  /** The daemon hears the oldest message. */
  lemma Delivers(run: History, sys: System, u: u32, g: nat, s: Slice, p: Proc, verified: bool, w: Answers) returns (longer: History)
    requires LeadsTo(run, sys, u, g, s, p) && Sound(s) && p.up != [] && !p.broken
    ensures var step := Heard(s, Last(run).next, g, p, verified, w);
            && LeadsTo(longer, sys, u, g, step.slice, Mail(Picked(p, verified), g, step.effects))
            && |longer.turns| == |run.turns| + 1 && longer.shown[|run.turns|] == step.effects
  {
    MessageIsHeard(Last(run), u, g, s, p, verified, w);
    longer := Longer(run, Delivery(g, verified, w));
    LongerIsRun(run, Delivery(g, verified, w));
  }

  lemma GetsLease(sys: System, c: Settings, u: u32) returns (run: History)
    requires Initial(sys, c)
    ensures LeadsTo(run, sys, u, sys.next, Awaiting(c, sys.next, Some("c2"), None), ACCEPTED)
  {
    var g := sys.next;
    run := Begins(sys, c, u);
    OpensLease();
    run := HelperMovesOn(run, sys, u, g, Awaiting(c, g, None, None), NEW_PROC, [TakeLock, BeginPam, OpenSession, Say(LEASE)]);
    AwaitingIsSound(c, g, None, None);
    LeaseIsAccepted(c, g, Last(run).next);
    run := Delivers(run, sys, u, g, Awaiting(c, g, None, None), AT_LEASE, true, Answers(false, 2));
  }

  /** The run up to the point where the daemon has yet to hear of the attempt. */
  lemma BecomesReady(sys: System, c: Settings, u: u32) returns (run: History)
    requires Initial(sys, c)
    ensures LeadsTo(run, sys, u, sys.next, Awaiting(c, sys.next, Some("c2"), None), SUCCEEDED)
  {
    var g := sys.next;
    run := GetsLease(sys, c, u);
    Forks();
    run := HelperMovesOn(run, sys, u, g, Awaiting(c, g, Some("c2"), None), ACCEPTED,
                         [Obey(LeaseAccepted), Obey(StartManager(1)), Fork]);
    ReportsPayload();
    run := HelperMovesOn(run, sys, u, g, Awaiting(c, g, Some("c2"), None), STARTED, [Say(SPAWNED), Say(PAYLOAD)]);
    Succeeds();
    run := HelperMovesOn(run, sys, u, g, Awaiting(c, g, Some("c2"), None), REPORTED, [ReadyExitsZero, Say(ReadySucceeded)]);
  }

  const QUIET := Answers(false, 0)

  lemma SpawnIsHeard(c: Settings, g: nat, next: nat)
    ensures var step := Heard(Awaiting(c, g, Some("c2"), None), next, g, SUCCEEDED, true, QUIET);
            step.slice == Awaiting(c, g, Some("c2"), Some(7)) && step.effects == []
  {
  }

  lemma PayloadIsHeard(c: Settings, g: nat, next: nat, p: Proc)
    requires p.up != [] && p.up[0].message == PAYLOAD
    ensures var s := Awaiting(c, g, Some("c2"), Some(7));
            var step := Heard(s, next, g, p, true, QUIET);
            step.slice == s && step.effects == []
  {
  }

  lemma SuccessIsHeard(c: Settings, g: nat, next: nat, p: Proc)
    requires p.up != [] && p.up[0].message == ReadySucceeded
    ensures Answered(1, ReplyReady) in Heard(Awaiting(c, g, Some("c2"), Some(7)), next, g, p, true, QUIET).effects
  {
    var s := Awaiting(c, g, Some("c2"), Some(7));
    var ready := s.(machine := ReadySucceededIn(s.machine, g).machine);
    ApplyOne(ready, next, QUIET, AnswerReady([1]));
    assert AnswerAll(ready, next, QUIET, [1], ReplyReady).effects[0] == Answered(1, ReplyReady);
  }

  /** From every initial state some run reaches a turn in which a request is told ready. */
  lemma ReadyIsReachable(sys: System, c: Settings, u: u32) returns (run: History, i: nat)
    requires Initial(sys, c)
    ensures StartedRun(run, c) && run.states[0] == sys
    ensures i < |run.turns| && Answered(1, ReplyReady) in run.shown[i]
  {
    var g, lease := sys.next, Some("c2");
    run := BecomesReady(sys, c, u);
    AwaitingIsSound(c, g, lease, None);
    AwaitingIsSound(c, g, lease, Some(7));
    SpawnIsHeard(c, g, Last(run).next);
    run := Delivers(run, sys, u, g, Awaiting(c, g, lease, None), SUCCEEDED, true, QUIET);
    var p := Picked(SUCCEEDED, true);
    PayloadIsHeard(c, g, Last(run).next, p);
    run := Delivers(run, sys, u, g, Awaiting(c, g, lease, Some(7)), p, true, QUIET);
    var q := Picked(p, true);
    i := |run.turns|;
    SuccessIsHeard(c, g, Last(run).next, q);
    run := Delivers(run, sys, u, g, Awaiting(c, g, lease, Some(7)), q, true, QUIET);
  }
}
