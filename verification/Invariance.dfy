/** Every turn of the system keeps its invariant, so it holds in every state of every run. */
module Invariance {
  import opened Prelude
  import opened Config
  import opened Messages
  import opened Machines
  import opened Slices
  import opened SliceEffects
  import opened Helpers
  import opened Lockstep
  import opened Systems

  // ---- Routing ----

  lemma {:induction false} RouteToOne(procs: map<nat, Proc>, effects: seq<Effect>, g: nat)
    requires OnlyTo(effects, g) && g in procs
    ensures Route(procs, effects) == procs[g := Mail(procs[g], g, effects)]
    decreases |effects|
  {
    if effects == [] {
    } else {
      assert effects[0] in effects;
      var e := effects[0];
      var after :=
        match e
        case Sent(_, c) => Post(procs[g], c, true)
        case SendFailed(_, c) => Post(procs[g], c, false)
        case Answered(_, _) => procs[g]
        case Scheduled(_) => procs[g]
        case Launched(_) => NEW_PROC;
      var first := procs[g := after];
      RouteToOne(first, effects[1..], g);
      assert procs == procs[g := procs[g]];
    }
  }

  lemma {:induction false} RouteInside(procs: map<nat, Proc>, effects: seq<Effect>)
    requires Quiet(effects)
    ensures Route(procs, effects) == procs
    decreases |effects|
  {
    if effects == [] {
    } else {
      assert effects[0] in effects;
      RouteInside(procs, effects[1..]);
    }
  }

  lemma RouteLaunch(procs: map<nat, Proc>, g: nat)
    ensures Route(procs, [Launched(g)]) == procs[g := NEW_PROC]
  {
    assert [Launched(g)][1..] == [];
  }

  // ---- What the system needs to know of a step ----

  /** Whom a step writes to and what it does to the registration of the helper. */
  predicate Shaped(s: Slice, next: nat, op: Op, step: Step) {
    match s.helper
    case Some(handle) =>
      && step.next == next && OnlyTo(step.effects, handle.generation)
      && (if op == HelperGone(handle.generation) then step.slice.helper == None && Quiet(step.effects)
          else HasHelper(step.slice, handle.generation))
    case None =>
      JustLaunched(step, next) || (step.slice.helper == None && next <= step.next && Quiet(step.effects))
  }

  lemma StepIsShaped(s: Slice, next: nat, w: Answers, op: Op)
    requires Agree(s)
    ensures Shaped(s, next, op, Perform(s, next, w, op))
  {
    match s.helper
    case Some(handle) =>
      StepWithHelper(s, next, w, op, handle.generation);
      if op == HelperGone(handle.generation) {
        GoneIsQuiet(s, next, w, handle.generation);
      }
    case None => StepWithoutHelper(s, next, w, op);
  }

  lemma GoneIsQuiet(s: Slice, next: nat, w: Answers, g: nat)
    requires HasHelper(s, g)
    ensures Quiet(Perform(s, next, w, HelperGone(g)).effects)
  {
    var outcome := HelperExitedFrom(s.machine, g);
    WithoutSpawnsHasNone(outcome.actions);
    ActionsWithoutHelper(s.(helper := None, machine := outcome.machine), next, w, WithoutSpawns(outcome.actions));
  }

  /** The processes and their homes after a step: at most the registered one changes, at most one is new. */
  ghost predicate Routed(mid: System, after: System, u: u32, step: Step)
    requires u in mid.users
  {
    match mid.users[u].helper
    case Some(handle) =>
      var g := handle.generation;
      && g in mid.procs && after.procs == mid.procs[g := Mail(mid.procs[g], g, step.effects)]
      && after.homes == mid.homes && after.next == mid.next
    case None =>
      if JustLaunched(step, mid.next) then
        && after.procs == mid.procs[mid.next := NEW_PROC]
        && after.homes == mid.homes[mid.next := u] && after.next == mid.next + 1
      else
        && step.slice.helper == None
        && after.procs == mid.procs && after.homes == mid.homes && after.next >= mid.next
  }

  lemma EnactRoutes(mid: System, u: u32, op: Op, step: Step)
    requires u in mid.users && Shaped(mid.users[u], mid.next, op, step)
    requires mid.users[u].helper.Some? ==> mid.users[u].helper.value.generation in mid.procs
    ensures Routed(mid, Enact(mid, u, op, step), u, step)
  {
    match mid.users[u].helper
    case Some(handle) => RouteToOne(mid.procs, step.effects, handle.generation);
    case None =>
      if JustLaunched(step, mid.next) {
        RouteLaunch(mid.procs, mid.next);
      } else {
        RouteInside(mid.procs, step.effects);
      }
  }

  // ---- Conservation ----

  /** All pending requests of the user are this user's. */
  predicate OwnsPending(askers: map<nat, u32>, pending: set<nat>, u: u32) {
    forall r :: r in pending ==> r in askers && askers[r] == u
  }

  /** One request after a step that accounts for those of its user. */
  lemma EnactConserves(mid: System, u: u32, op: Op, step: Step, r: nat)
    requires u in mid.users && Conserved(mid, r) && OwnsPending(mid.askers, mid.users[u].pending, u)
    requires Accounts(PendingIn(mid.users[u], op), step.slice.pending, AnsweredIn(step.effects))
    requires op.Join? ==> op.request == mid.requests >= 1
    ensures Conserved(Enact(mid, u, op, step), r)
  {
    var before, left := PendingIn(mid.users[u], op), step.slice.pending;
    assert AnsweredIn(step.effects)[r] == if r in before && r !in left then 1 else 0;
  }

  lemma EnactKeepsOwner(askers: map<nat, u32>, s: Slice, u: u32, op: Op, step: Step)
    requires OwnsPending(askers, s.pending, u) && step.slice.pending <= PendingIn(s, op)
    ensures OwnsPending(if op.Join? then askers[op.request := u] else askers, step.slice.pending, u)
  {
  }

  // ---- The joint invariant of the acting user ----

  /** After the step and its mail, the user and its process are in step. */
  ghost predicate JointAfter(step: Step, g: nat, p: Proc) {
    HasHelper(step.slice, g) ==> SliceJoint(step.slice, g, Mail(p, g, step.effects))
  }

  lemma StepKeepsJoint(s: Slice, next: nat, w: Answers, op: Op, g: nat, p: Proc)
    requires Sound(s) && SliceJoint(s, g, p) && Allowed(s, op)
    requires op.Hear? && op.generation == g ==> p.up != [] && op.message == p.up[0].message && (p.broken ==> w.accepts == 0)
    ensures JointAfter(Perform(s, next, w, op), g, if op.Hear? && op.generation == g then Picked(p, op.verified) else p)
  {
    if op.Hear? && op.generation == g {
      HearKeepsJoint(s, next, w, g, p, op.verified);
    } else if op != HelperGone(g) {
      DaemonStepKeepsJoint(s, next, w, g, p, op);
    } else {
      StepWithHelper(s, next, w, op, g);
    }
  }

  // ---- One step for one user ----

  /** The acting user's helper has a process, of this user. */
  ghost predicate AtHome(mid: System, u: u32) {
    u in mid.users && (mid.users[u].helper.Some? ==>
      var g := mid.users[u].helper.value.generation; g in mid.procs && g in mid.homes && mid.homes[g] == u)
  }

  ghost predicate Stepped(mid: System, after: System, u: u32, op: Op, step: Step) {
    && AtHome(mid, u) && Shaped(mid.users[u], mid.next, op, step)
    && Routed(mid, after, u, step) && after.users == mid.users[u := step.slice]
  }

  /** What has to hold before a step for the system to stay sound; all but the actor are sound. */
  ghost predicate CanEnact(mid: System, u: u32, op: Op, step: Step) {
    && AtHome(mid, u) && mid.requests >= 1
    && (forall v: u32 :: v != u ==> UserSound(mid, v))
    && (forall g: nat :: Registered(mid, g))
    && (forall r: nat :: Conserved(mid, r))
    && OwnsPending(mid.askers, mid.users[u].pending, u)
    && (op.Join? ==> op.request == mid.requests)
    && Sound(step.slice) && Shaped(mid.users[u], mid.next, op, step)
    && Accounts(PendingIn(mid.users[u], op), step.slice.pending, AnsweredIn(step.effects))
    && (mid.users[u].helper.Some? ==>
          JointAfter(step, mid.users[u].helper.value.generation, mid.procs[mid.users[u].helper.value.generation]))
  }

  /** The acting user stays sound. */
  lemma ActorStaysSound(mid: System, after: System, u: u32, op: Op, step: Step)
    requires AtHome(mid, u) && Sound(step.slice) && Shaped(mid.users[u], mid.next, op, step) && Routed(mid, after, u, step)
    requires after.users == mid.users[u := step.slice] && OwnsPending(after.askers, step.slice.pending, u)
    requires mid.users[u].helper.Some? ==>
               JointAfter(step, mid.users[u].helper.value.generation, mid.procs[mid.users[u].helper.value.generation])
    ensures UserSound(after, u)
  {
    if mid.users[u].helper.None? && JustLaunched(step, mid.next) {
      NewHelperIsJoint(mid.next);
    }
  }

  /** The other users do not notice. */
  lemma BystanderStaysSound(mid: System, after: System, u: u32, v: u32, step: Step)
    requires UserSound(mid, v) && u != v && AtHome(mid, u) && Routed(mid, after, u, step)
    requires after.users == mid.users[u := step.slice] && OwnsPending(after.askers, mid.users[v].pending, v)
    requires mid.next !in mid.procs
    ensures UserSound(after, v)
  {
  }

  /** Every process stays sound, even one that is being forgotten. */
  lemma ProcessesStaySound(mid: System, after: System, u: u32, op: Op, step: Step, h: nat)
    requires Registered(mid, h) && AtHome(mid, u) && Shaped(mid.users[u], mid.next, op, step) && Routed(mid, after, u, step)
    requires after.users == mid.users[u := step.slice] && UserSound(after, u)
    requires mid.users[u].helper.Some? ==> Registered(mid, mid.users[u].helper.value.generation)
    ensures Registered(after, h)
  {
    match mid.users[u].helper
    case Some(handle) =>
      var g := handle.generation;
      if op == HelperGone(g) {
        AnswersAreNotMail(mid.procs[g], g, step.effects);
      }
      assert ProcSound(Mail(mid.procs[g], g, step.effects));
    case None =>
      assert ProcSound(NEW_PROC);
  }

  lemma EnactKeepsSound(mid: System, u: u32, op: Op, step: Step)
    requires CanEnact(mid, u, op, step)
    ensures SystemSound(Enact(mid, u, op, step))
  {
    var after := Enact(mid, u, op, step);
    EnactRoutes(mid, u, op, step);
    EnactKeepsOwner(mid.askers, mid.users[u], u, op, step);
    ActorStaysSound(mid, after, u, op, step);
    EnactKeepsOthers(mid, after, u, op, step);
    EnactKeepsProcesses(mid, after, u, op, step);
    forall r: nat
      ensures Conserved(after, r)
    {
      assert Conserved(mid, r);
      EnactConserves(mid, u, op, step, r);
    }
  }

  lemma EnactKeepsOthers(mid: System, after: System, u: u32, op: Op, step: Step)
    requires CanEnact(mid, u, op, step) && Routed(mid, after, u, step) && UserSound(after, u)
    requires after.users == mid.users[u := step.slice]
    requires after.askers == if op.Join? then mid.askers[op.request := u] else mid.askers
    ensures forall v: u32 :: UserSound(after, v)
  {
    assert Registered(mid, mid.next) && Conserved(mid, mid.requests);
    forall v: u32
      ensures UserSound(after, v)
    {
      if v != u {
        assert UserSound(mid, v);
        BystanderStaysSound(mid, after, u, v, step);
      }
    }
  }

  lemma EnactKeepsProcesses(mid: System, after: System, u: u32, op: Op, step: Step)
    requires CanEnact(mid, u, op, step) && Routed(mid, after, u, step) && UserSound(after, u)
    requires after.users == mid.users[u := step.slice]
    ensures forall g: nat :: Registered(after, g)
  {
    forall h: nat
      ensures Registered(after, h)
    {
      assert Registered(mid, h);
      if mid.users[u].helper.Some? {
        assert Registered(mid, mid.users[u].helper.value.generation);
      }
      ProcessesStaySound(mid, after, u, op, step, h);
    }
  }

  // ---- Turns ----

  /** Taking a message out of a channel keeps all but its reader sound. */
  lemma PickingKeepsOthers(sys: System, turn: Turn)
    requires SystemSound(sys) && CanTake(sys, turn) && !turn.HelperTurn?
    ensures var mid := BeforeStep(sys, turn);
            && (forall v: u32 :: v != ActorOf(sys, turn) ==> UserSound(mid, v))
            && (forall g: nat :: Registered(mid, g))
  {
    var mid, u := BeforeStep(sys, turn), ActorOf(sys, turn);
    forall v: u32 | v != u
      ensures UserSound(mid, v)
    {
      assert UserSound(sys, v);
    }
    forall g: nat
      ensures Registered(mid, g)
    {
      PickingKeepsRegistered(sys, turn, g);
    }
  }

  lemma PickingKeepsRegistered(sys: System, turn: Turn, g: nat)
    requires SystemSound(sys) && CanTake(sys, turn) && !turn.HelperTurn?
    ensures Registered(BeforeStep(sys, turn), g)
  {
    assert Registered(sys, g);
    if turn.Delivery? && g == turn.generation {
      PickedIsSound(sys.procs[g], turn.verified);
    }
  }

  /** What the acting user brings about, all other users apart. */
  ghost predicate WellTaken(s: Slice, next: nat, op: Op, step: Step) {
    && Sound(step.slice) && Shaped(s, next, op, step)
    && Accounts(PendingIn(s, op), step.slice.pending, AnsweredIn(step.effects))
  }

  lemma StepIsWellTaken(s: Slice, next: nat, w: Answers, op: Op)
    requires Sound(s) && Allowed(s, op)
    ensures WellTaken(s, next, op, Perform(s, next, w, op))
  {
    PerformKeepsSound(s, next, w, op);
    StepIsShaped(s, next, w, op);
    PerformAccounts(s, next, w, op);
  }

  lemma TurnIsReady(sys: System, turn: Turn)
    requires SystemSound(sys) && CanTake(sys, turn) && !turn.HelperTurn?
    ensures CanEnact(BeforeStep(sys, turn), ActorOf(sys, turn), OpOf(sys, turn), StepOf(sys, turn))
  {
    var mid, u, op := BeforeStep(sys, turn), ActorOf(sys, turn), OpOf(sys, turn);
    var s := sys.users[u];
    assert UserSound(sys, u);
    PickingKeepsOthers(sys, turn);
    StepIsWellTaken(s, sys.next, turn.world, op);
    if s.helper.Some? {
      StepKeepsJoint(s, sys.next, turn.world, op, s.helper.value.generation, sys.procs[s.helper.value.generation]);
    }
    forall r: nat
      ensures Conserved(mid, r)
    {
      assert Conserved(sys, r);
    }
  }

  /** A turn of the daemon is its step: it changes the acting user, and the processes as the effects say. */
  lemma TurnIsStep(sys: System, turn: Turn)
    requires SystemSound(sys) && CanTake(sys, turn) && !turn.HelperTurn?
    ensures Stepped(BeforeStep(sys, turn), Turned(sys, turn), ActorOf(sys, turn), OpOf(sys, turn), StepOf(sys, turn))
  {
    var mid, u, op, step := BeforeStep(sys, turn), ActorOf(sys, turn), OpOf(sys, turn), StepOf(sys, turn);
    assert UserSound(sys, u);
    StepIsShaped(sys.users[u], sys.next, turn.world, op);
    EnactRoutes(mid, u, op, step);
  }

  lemma HelperTurnKeepsSound(sys: System, g: nat, e: Event)
    requires SystemSound(sys) && CanTake(sys, HelperTurn(g, e))
    ensures SystemSound(Turned(sys, HelperTurn(g, e)))
  {
    var after := Turned(sys, HelperTurn(g, e));
    forall u: u32
      ensures UserSound(after, u)
    {
      assert UserSound(sys, u);
      MoveKeepsUser(sys, g, e, u);
    }
    forall h: nat
      ensures Registered(after, h)
    {
      assert Registered(sys, h) && Registered(sys, g);
      MoveKeepsProc(sys.procs[g], e);
    }
    forall r: nat
      ensures Conserved(after, r)
    {
      assert Conserved(sys, r);
    }
  }

  lemma MoveKeepsUser(sys: System, g: nat, e: Event, u: u32)
    requires UserSound(sys, u) && g in sys.procs && CanMove(sys.procs[g], e)
    ensures UserSound(sys.(procs := sys.procs[g := Move(sys.procs[g], e)]), u)
  {
    var s := sys.users[u];
    if HasHelper(s, g) {
      MoveKeepsJoint(s.machine.state, s.helper.value.lease.Some?, sys.procs[g], e);
    }
  }

  /** Every turn keeps the invariant. */
  lemma TurnKeepsSound(sys: System, turn: Turn)
    requires SystemSound(sys) && CanTake(sys, turn)
    ensures SystemSound(Turned(sys, turn))
  {
    if turn.HelperTurn? {
      HelperTurnKeepsSound(sys, turn.generation, turn.event);
    } else {
      TurnIsReady(sys, turn);
      EnactKeepsSound(BeforeStep(sys, turn), ActorOf(sys, turn), OpOf(sys, turn), StepOf(sys, turn));
    }
  }

  // ---- Runs ----

  lemma InitialIsSound(sys: System, c: Settings)
    requires Initial(sys, c)
    ensures SystemSound(sys)
  {
    forall u: u32
      ensures UserSound(sys, u)
    {
    }
  }

  lemma NextIsSound(run: History, i: nat)
    requires IsRun(run) && i < |run.turns| && SystemSound(run.states[i])
    ensures SystemSound(run.states[i + 1])
  {
    assert Follows(run, i);
    TurnKeepsSound(run.states[i], run.turns[i]);
  }

  /** The invariant holds in every state of every run, with any interleaving of daemon, helpers and world. */
  lemma {:induction false} EveryRunIsSound(run: History, c: Settings, i: nat)
    requires StartedRun(run, c) && i <= |run.turns|
    ensures SystemSound(run.states[i])
  {
    if i == 0 {
      InitialIsSound(run.states[0], c);
    } else {
      EveryRunIsSound(run, c, i - 1);
      NextIsSound(run, i - 1);
    }
  }
}
