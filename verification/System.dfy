/**
  The whole system: the daemon's state for every user, every helper process with its two channels,
  and all ways in which they and the world can take the next step.
 */
module Systems {
  import opened Prelude
  import opened Config
  import opened Messages
  import opened Machines
  import opened Slices
  import opened SliceEffects
  import opened Helpers
  import opened Lockstep

  datatype System = System(
    users: map<u32, Slice>,
    next: nat,                  // the next generation
    requests: nat,              // the next request number
    procs: map<nat, Proc>,      // by generation
    homes: map<nat, u32>,       // the user of each generation
    askers: map<nat, u32>,      // the user of each accepted request
    answered: multiset<nat>)    // requests answered, with multiplicity

  datatype Turn =
    | DaemonTurn(user: u32, op: Op, world: Answers)
    | Delivery(generation: nat, verified: bool, world: Answers)
    | ExitNotice(generation: nat, world: Answers)
    | HelperTurn(generation: nat, event: Event)

  /** All users are known from the start; a user without a machine is one with a new machine. */
  ghost predicate Initial(sys: System, c: Settings) {
    && (forall u: u32 :: u in sys.users && sys.users[u] == EmptySlice(c))
    && sys.requests == 1 && sys.procs == map[] && sys.homes == map[] && sys.askers == map[] && sys.answered == multiset{}
  }

  /**
    Which turns can be taken. Messages are heard in the order sent; the notice that a process is
    gone may overtake them. Sending to a channel that has failed fails again.
   */
  ghost predicate CanTake(sys: System, turn: Turn) {
    match turn
    case DaemonTurn(u, op, w) =>
      && u in sys.users && !op.Hear? && !op.HelperGone?
      && Allowed(sys.users[u], op)
      && (op.Join? ==> op.request == sys.requests)
    case Delivery(g, _, w) =>
      && g in sys.procs && g in sys.homes && sys.homes[g] in sys.users && sys.procs[g].up != []
      && (sys.procs[g].broken ==> w.accepts == 0)
    case ExitNotice(g, w) =>
      g in sys.procs && g in sys.homes && sys.homes[g] in sys.users && sys.procs[g].helper.course.Gone?
    case HelperTurn(g, e) =>
      g in sys.procs && CanMove(sys.procs[g], e)
  }

  /** The effects of a daemon step on the processes. */
  function Route(procs: map<nat, Proc>, effects: seq<Effect>): map<nat, Proc>
    decreases |effects|
  {
    if effects == [] then procs
    else
      var first :=
        match effects[0]
        case Launched(g) => procs[g := NEW_PROC]
        case Sent(g, c) => if g in procs then procs[g := Post(procs[g], c, true)] else procs
        case SendFailed(g, c) => if g in procs then procs[g := Post(procs[g], c, false)] else procs
        case _ => procs;
      Route(first, effects[1..])
  }

  // ---- Turns of the daemon ----

  ghost function ActorOf(sys: System, turn: Turn): u32
    requires CanTake(sys, turn) && !turn.HelperTurn?
  {
    match turn
    case DaemonTurn(u, _, _) => u
    case Delivery(g, _, _) => sys.homes[g]
    case ExitNotice(g, _) => sys.homes[g]
  }

  /** The step a turn performs for its user. */
  ghost function OpOf(sys: System, turn: Turn): Op
    requires CanTake(sys, turn) && !turn.HelperTurn?
  {
    match turn
    case DaemonTurn(_, op, _) => op
    case Delivery(g, verified, _) => Hear(g, sys.procs[g].up[0].message, verified)
    case ExitNotice(g, _) => HelperGone(g)
  }

  ghost function StepOf(sys: System, turn: Turn): Step
    requires CanTake(sys, turn) && !turn.HelperTurn?
  {
    Perform(sys.users[ActorOf(sys, turn)], sys.next, turn.world, OpOf(sys, turn))
  }

  ghost function EffectsOf(sys: System, turn: Turn): seq<Effect>
    requires CanTake(sys, turn)
  {
    if turn.HelperTurn? then [] else StepOf(sys, turn).effects
  }

  /** A message that is delivered has left its channel. */
  ghost function BeforeStep(sys: System, turn: Turn): System
    requires CanTake(sys, turn)
  {
    if turn.Delivery? then sys.(procs := sys.procs[turn.generation := Picked(sys.procs[turn.generation], turn.verified)]) else sys
  }

  /** The system after a step of the daemon for user `u`. */
  function Enact(sys: System, u: u32, op: Op, step: Step): System {
    sys.(users := sys.users[u := step.slice],
         next := step.next,
         requests := if op.Join? then sys.requests + 1 else sys.requests,
         procs := Route(sys.procs, step.effects),
         homes := if Launched(sys.next) in step.effects then sys.homes[sys.next := u] else sys.homes,
         askers := if op.Join? then sys.askers[op.request := u] else sys.askers,
         answered := sys.answered + AnsweredIn(step.effects))
  }

  ghost function Turned(sys: System, turn: Turn): System
    requires CanTake(sys, turn)
  {
    match turn
    case HelperTurn(g, e) => sys.(procs := sys.procs[g := Move(sys.procs[g], e)])
    case _ => Enact(BeforeStep(sys, turn), ActorOf(sys, turn), OpOf(sys, turn), StepOf(sys, turn))
  }

  // ---- The invariant ----

  /** One user's slice, with the process it has registered. */
  ghost predicate UserSound(sys: System, u: u32) {
    && u in sys.users
    && var s := sys.users[u];
    && Sound(s)
    && (forall r :: r in s.pending ==> r in sys.askers && sys.askers[r] == u)
    && (s.helper.Some? ==>
          var g := s.helper.value.generation;
          && g in sys.procs && g in sys.homes && sys.homes[g] == u
          && SliceJoint(s, g, sys.procs[g]))
  }

  /** A process, if there is one of this generation, has a user and is sound. */
  ghost predicate Registered(sys: System, g: nat) {
    && (g in sys.procs <==> g in sys.homes)
    && (g in sys.procs ==> g < sys.next && sys.homes[g] in sys.users && ProcSound(sys.procs[g]))
  }

  /** A request, if it was accepted, is either pending with its user or answered, and answered once. */
  ghost predicate Conserved(sys: System, r: nat) {
    && (r in sys.askers <==> 1 <= r < sys.requests)
    && (r in sys.askers ==> sys.askers[r] in sys.users)
    && sys.answered[r] == if r in sys.askers && r !in sys.users[sys.askers[r]].pending then 1 else 0
  }

  ghost predicate SystemSound(sys: System) {
    && sys.requests >= 1
    && (forall u: u32 :: UserSound(sys, u))
    && (forall g: nat :: Registered(sys, g))
    && (forall r: nat :: Conserved(sys, r))
  }

  // ---- Runs ----

  /** States, the turns between them, and what the daemon shows in each turn. */
  datatype History = History(states: seq<System>, turns: seq<Turn>, shown: seq<seq<Effect>>)

  /** The `i`-th turn can be taken, shows what is recorded and leads to the next state. */
  ghost predicate Follows(run: History, i: nat)
    requires i < |run.turns| == |run.shown| && |run.states| == |run.turns| + 1
  {
    && CanTake(run.states[i], run.turns[i])
    && run.shown[i] == EffectsOf(run.states[i], run.turns[i])
    && run.states[i + 1] == Turned(run.states[i], run.turns[i])
  }

  ghost predicate IsRun(run: History) {
    && |run.turns| == |run.shown| && |run.states| == |run.turns| + 1
    && forall i :: 0 <= i < |run.turns| ==> Follows(run, i)
  }

  /** What follows in one history follows where another has the same. */
  lemma FollowsAlike(a: History, i: nat, b: History, j: nat)
    requires i < |a.turns| == |a.shown| && |a.states| == |a.turns| + 1
    requires j < |b.turns| == |b.shown| && |b.states| == |b.turns| + 1
    requires a.states[i] == b.states[j] && a.states[i + 1] == b.states[j + 1]
    requires a.turns[i] == b.turns[j] && a.shown[i] == b.shown[j]
    requires Follows(b, j)
    ensures Follows(a, i)
  {
  }

  /** A run from a start with the given settings. */
  ghost predicate StartedRun(run: History, c: Settings) {
    IsRun(run) && Initial(run.states[0], c)
  }
}
