/**
  Helper processes that the daemon does not know: those an earlier daemon left behind, and those of
  launches that failed after the process existed. Another helper may be launched beside them. What
  keeps the helpers of one user apart is the user's lock, for which each waits.
 */
module Strays {
  import opened Prelude
  import opened Config
  import opened Messages
  import opened Machines
  import opened Slices
  import opened SliceEffects
  import opened Helpers
  import opened Lockstep
  import opened Systems
  import opened Invariance
  import opened Guarantees

  /** A helper process that is not registered and will never be. */
  datatype Stray = Stray(user: u32, helper: Helper)

  datatype Wide = Wide(system: System, strays: map<nat, Stray>)

  /** Turns of the system, those of them in which a launch fails and leaves a stray, and events of strays. */
  datatype WideTurn =
    | Inner(turn: Turn)
    | LateFailure(turn: Turn, number: nat)
    | StrayTurn(number: nat, event: Event)

  // ---- All processes ----

  datatype Id = OfSystem(generation: nat) | OfStray(number: nat)

  predicate Exists(w: Wide, id: Id) {
    match id
    case OfSystem(g) => g in w.system.procs && g in w.system.homes
    case OfStray(k) => k in w.strays
  }

  function UserOf(w: Wide, id: Id): u32
    requires Exists(w, id)
  {
    match id
    case OfSystem(g) => w.system.homes[g]
    case OfStray(k) => w.strays[k].user
  }

  function HelperOf(w: Wide, id: Id): Helper
    requires Exists(w, id)
  {
    match id
    case OfSystem(g) => w.system.procs[g].helper
    case OfStray(k) => w.strays[k].helper
  }

  predicate HoldsLock(w: Wide, id: Id, u: u32) {
    Exists(w, id) && UserOf(w, id) == u && HelperOf(w, id).lock.Locked?
  }

  ghost predicate LockIsFree(w: Wide, u: u32) {
    forall id: Id :: !HoldsLock(w, id, u)
  }

  // ---- Turns ----

  /** The daemon tried to launch a helper in this turn and failed. */
  ghost predicate FailsToLaunch(sys: System, turn: Turn) {
    && turn.DaemonTurn? && CanTake(sys, turn)
    && StepOf(sys, turn).next > sys.next && Launched(sys.next) !in StepOf(sys, turn).effects
  }

  /** A process waits for the lock of its user until it is free; a stray does whatever a helper may do. */
  ghost predicate CanGo(w: Wide, t: WideTurn) {
    match t
    case Inner(turn) =>
      && CanTake(w.system, turn)
      && (turn.HelperTurn? && turn.event.TakeLock? ==>
            turn.generation in w.system.homes && LockIsFree(w, w.system.homes[turn.generation]))
    case LateFailure(turn, k) => FailsToLaunch(w.system, turn) && k !in w.strays
    case StrayTurn(k, e) =>
      && k in w.strays && May(w.strays[k].helper, e)
      && (e.TakeLock? ==> LockIsFree(w, w.strays[k].user))
  }

  ghost function Went(w: Wide, t: WideTurn): Wide
    requires CanGo(w, t)
  {
    match t
    case Inner(turn) => w.(system := Turned(w.system, turn))
    case LateFailure(turn, k) => Wide(Turned(w.system, turn), w.strays[k := Stray(turn.user, START)])
    case StrayTurn(k, e) => w.(strays := w.strays[k := w.strays[k].(helper := After(w.strays[k].helper, e))])
  }

  // ---- The invariant ----

  ghost predicate StraySound(w: Wide, k: nat) {
    k in w.strays ==> Consistent(w.strays[k].helper)
  }

  /** Two processes that hold the lock of one user are the same. */
  predicate LocksApart(w: Wide, a: Id, b: Id) {
    Exists(w, a) && HelperOf(w, a).lock.Locked? && HoldsLock(w, b, UserOf(w, a)) ==> a == b
  }

  ghost predicate StraysSound(w: Wide) {
    (forall k: nat :: StraySound(w, k)) && (forall a: Id, b: Id :: LocksApart(w, a, b))
  }

  ghost predicate WideSound(w: Wide) {
    SystemSound(w.system) && Alone(w.system) && StraysSound(w)
  }

  /** How the process of a generation fares in a turn of the daemon. */
  ghost predicate HelperStays(before: System, after: System, g: nat) {
    && (g in before.procs && g in before.homes ==>
          g in after.procs && g in after.homes && after.homes[g] == before.homes[g] && after.procs[g].helper == before.procs[g].helper)
    && (g in after.procs && g !in before.procs ==> after.procs[g].helper == START)
  }

  lemma StepKeepsHelper(mid: System, after: System, u: u32, op: Op, step: Step, g: nat)
    requires Registered(mid, g) && Stepped(mid, after, u, op, step)
    requires mid.users[u].helper.None? ==> mid.next !in mid.procs && mid.next !in mid.homes
    ensures HelperStays(mid, after, g)
  {
    if mid.users[u].helper.Some? {
      var h := mid.users[u].helper.value.generation;
      MailKeepsHelper(mid.procs[h], h, step.effects);
    }
  }

  lemma TurnKeepsHelper(sys: System, turn: Turn, g: nat)
    requires SystemSound(sys) && CanTake(sys, turn) && !turn.HelperTurn?
    ensures HelperStays(sys, Turned(sys, turn), g)
  {
    TurnIsStep(sys, turn);
    PickingKeepsRegistered(sys, turn, g);
    assert Registered(sys, sys.next) && Registered(sys, g);
    StepKeepsHelper(BeforeStep(sys, turn), Turned(sys, turn), ActorOf(sys, turn), OpOf(sys, turn), StepOf(sys, turn), g);
  }

  // ---- Locks ----

  /** The process does not hold a lock that it did not hold before. */
  ghost predicate TakesNoLock(before: Wide, after: Wide, id: Id) {
    Exists(after, id) && HelperOf(after, id).lock.Locked? ==>
      Exists(before, id) && UserOf(before, id) == UserOf(after, id) && HelperOf(before, id).lock.Locked?
  }

  /** No process but perhaps `actor` takes a lock, and that one only the free lock of its user. */
  ghost predicate TakesFreeLock(before: Wide, after: Wide, actor: Id, takes: bool) {
    && Exists(before, actor) && Exists(after, actor) && UserOf(after, actor) == UserOf(before, actor)
    && (takes ==> LockIsFree(before, UserOf(before, actor)))
    && forall id: Id :: (id != actor || !takes) ==> TakesNoLock(before, after, id)
  }

  lemma LocksStayApart(before: Wide, after: Wide, a: Id, b: Id)
    requires LocksApart(before, a, b) && TakesNoLock(before, after, a) && TakesNoLock(before, after, b)
    ensures LocksApart(after, a, b)
  {
  }

  lemma FreeLockKeepsApart(before: Wide, after: Wide, actor: Id, takes: bool, a: Id, b: Id)
    requires LocksApart(before, a, b) && TakesFreeLock(before, after, actor, takes)
    ensures LocksApart(after, a, b)
  {
    if takes && (a == actor || b == actor) {
      var other := if a == actor then b else a;
      assert !HoldsLock(before, other, UserOf(before, actor));
      assert other != actor ==> TakesNoLock(before, after, other);
    } else {
      assert TakesNoLock(before, after, a) && TakesNoLock(before, after, b);
      LocksStayApart(before, after, a, b);
    }
  }

  lemma ActorKeepsApart(before: Wide, after: Wide, actor: Id, takes: bool)
    requires StraysSound(before) && TakesFreeLock(before, after, actor, takes)
    ensures forall a: Id, b: Id :: LocksApart(after, a, b)
  {
    forall a: Id, b: Id
      ensures LocksApart(after, a, b)
    {
      assert LocksApart(before, a, b);
      FreeLockKeepsApart(before, after, actor, takes, a, b);
    }
  }

  lemma NobodyTakesKeepsApart(before: Wide, after: Wide)
    requires StraysSound(before) && forall id: Id :: TakesNoLock(before, after, id)
    ensures forall a: Id, b: Id :: LocksApart(after, a, b)
  {
    forall a: Id, b: Id
      ensures LocksApart(after, a, b)
    {
      assert LocksApart(before, a, b) && TakesNoLock(before, after, a) && TakesNoLock(before, after, b);
      LocksStayApart(before, after, a, b);
    }
  }

  // ---- Every turn keeps the invariant ----

  lemma DaemonTurnKeepsWide(w: Wide, turn: Turn)
    requires WideSound(w) && CanTake(w.system, turn) && !turn.HelperTurn?
    ensures WideSound(w.(system := Turned(w.system, turn)))
  {
    var after := w.(system := Turned(w.system, turn));
    TurnKeepsSound(w.system, turn);
    TurnKeepsAlone(w.system, turn);
    forall id: Id
      ensures TakesNoLock(w, after, id)
    {
      if id.OfSystem? {
        assert Registered(w.system, id.generation);
        TurnKeepsHelper(w.system, turn, id.generation);
      }
    }
    NobodyTakesKeepsApart(w, after);
    assert forall k: nat :: StraySound(w, k) ==> StraySound(after, k);
  }

  lemma HelperTurnKeepsWide(w: Wide, g: nat, e: Event)
    requires WideSound(w) && CanGo(w, Inner(HelperTurn(g, e)))
    ensures WideSound(Went(w, Inner(HelperTurn(g, e))))
  {
    var after := Went(w, Inner(HelperTurn(g, e)));
    TurnKeepsSound(w.system, HelperTurn(g, e));
    TurnKeepsAlone(w.system, HelperTurn(g, e));
    assert Registered(w.system, g);
    MoveTakesFreeLock(w, g, e);
    ActorKeepsApart(w, after, OfSystem(g), e.TakeLock?);
    assert forall k: nat :: StraySound(w, k) ==> StraySound(after, k);
  }

  lemma MoveTakesFreeLock(w: Wide, g: nat, e: Event)
    requires g in w.system.procs && g in w.system.homes && CanMove(w.system.procs[g], e)
    requires e.TakeLock? ==> LockIsFree(w, w.system.homes[g])
    ensures TakesFreeLock(w, w.(system := w.system.(procs := w.system.procs[g := Move(w.system.procs[g], e)])), OfSystem(g), e.TakeLock?)
  {
    EventMoves(w.system.procs[g].helper, e);
  }

  lemma StrayTurnKeepsWide(w: Wide, k: nat, e: Event)
    requires WideSound(w) && CanGo(w, StrayTurn(k, e))
    ensures WideSound(Went(w, StrayTurn(k, e)))
  {
    var after := Went(w, StrayTurn(k, e));
    EventMoves(w.strays[k].helper, e);
    ActorKeepsApart(w, after, OfStray(k), e.TakeLock?);
    forall l: nat
      ensures StraySound(after, l)
    {
      assert StraySound(w, l);
      if l == k {
        EventKeepsConsistent(w.strays[k].helper, e);
      }
    }
  }

  lemma LateFailureKeepsWide(w: Wide, turn: Turn, k: nat)
    requires WideSound(w) && CanGo(w, LateFailure(turn, k))
    ensures WideSound(Went(w, LateFailure(turn, k)))
  {
    var mid := w.(system := Turned(w.system, turn));
    DaemonTurnKeepsWide(w, turn);
    NewStrayKeepsSound(mid, k, turn.user);
  }

  lemma NewStrayKeepsSound(w: Wide, k: nat, u: u32)
    requires StraysSound(w) && k !in w.strays
    ensures StraysSound(w.(strays := w.strays[k := Stray(u, START)]))
  {
    var after := w.(strays := w.strays[k := Stray(u, START)]);
    assert forall l: nat :: StraySound(w, l) ==> StraySound(after, l);
    NobodyTakesKeepsApart(w, after);
  }

  /** Every turn keeps the invariant, with late failures and strays among them. */
  lemma WideTurnKeepsSound(w: Wide, t: WideTurn)
    requires WideSound(w) && CanGo(w, t)
    ensures WideSound(Went(w, t))
  {
    match t
    case Inner(turn) =>
      if turn.HelperTurn? {
        HelperTurnKeepsWide(w, turn.generation, turn.event);
      } else {
        DaemonTurnKeepsWide(w, turn);
      }
    case LateFailure(turn, k) => LateFailureKeepsWide(w, turn, k);
    case StrayTurn(k, e) => StrayTurnKeepsWide(w, k, e);
  }

  // ---- Runs ----

  ghost predicate WideFollows(states: seq<Wide>, turns: seq<WideTurn>, i: nat)
    requires i < |turns| && |states| == |turns| + 1
  {
    CanGo(states[i], turns[i]) && states[i + 1] == Went(states[i], turns[i])
  }

  /** A run from a start with the given settings, beside any helpers that were left behind. */
  ghost predicate WideRun(states: seq<Wide>, turns: seq<WideTurn>, c: Settings) {
    && |states| == |turns| + 1 && Initial(states[0].system, c) && StraysSound(states[0])
    && forall i :: 0 <= i < |turns| ==> WideFollows(states, turns, i)
  }

  /** In every run the joint invariant of the system holds whatever strays there are, and locks are apart. */
  lemma {:induction false} EveryWideRunIsSound(states: seq<Wide>, turns: seq<WideTurn>, c: Settings, i: nat)
    requires WideRun(states, turns, c) && i <= |turns|
    ensures WideSound(states[i])
  {
    if i == 0 {
      InitialIsSound(states[0].system, c);
    } else {
      EveryWideRunIsSound(states, turns, c, i - 1);
      assert WideFollows(states, turns, i - 1);
      WideTurnKeepsSound(states[i - 1], turns[i - 1]);
    }
  }

  /** The PAM transaction of the helper has begun and not ended: it holds its user's lease. */
  predicate HoldsLease(h: Helper) {
    !h.lease.NoLease? && !h.lease.Ended?
  }

  lemma LeaseIsLocked(w: Wide, id: Id)
    requires WideSound(w) && Exists(w, id)
    ensures HoldsLease(HelperOf(w, id)) ==> HelperOf(w, id).lock.Locked?
    ensures HelperOf(w, id).manager ==> HoldsLease(HelperOf(w, id))
  {
    match id
    case OfSystem(g) => assert Registered(w.system, g);
    case OfStray(k) => assert StraySound(w, k);
  }

  /**
    In every run, whatever was left behind and however launches fail, two processes of one user that
    hold a lease at the same time are the same; so are two that own a manager.
   */
  lemma OneLeasePerUser(states: seq<Wide>, turns: seq<WideTurn>, c: Settings, i: nat, a: Id, b: Id)
    requires WideRun(states, turns, c) && i <= |turns|
    requires Exists(states[i], a) && Exists(states[i], b) && UserOf(states[i], a) == UserOf(states[i], b)
    ensures HoldsLease(HelperOf(states[i], a)) && HoldsLease(HelperOf(states[i], b)) ==> a == b
    ensures HelperOf(states[i], a).manager && HelperOf(states[i], b).manager ==> a == b
  {
    EveryWideRunIsSound(states, turns, c, i);
    LeaseIsLocked(states[i], a);
    LeaseIsLocked(states[i], b);
    assert LocksApart(states[i], a, b);
  }

  /** Two processes of one user that are alive at the same time are the same, or one of them is a stray. */
  lemma OnlyStraysLiveBeside(states: seq<Wide>, turns: seq<WideTurn>, c: Settings, i: nat, a: Id, b: Id)
    requires WideRun(states, turns, c) && i <= |turns|
    requires var w := states[i];
             && Exists(w, a) && Exists(w, b) && UserOf(w, a) == UserOf(w, b)
             && !HelperOf(w, a).course.Gone? && !HelperOf(w, b).course.Gone?
    ensures a == b || a.OfStray? || b.OfStray?
  {
    EveryWideRunIsSound(states, turns, c, i);
    if a.OfSystem? && b.OfSystem? {
      assert GoneOrCurrent(states[i].system, a.generation) && GoneOrCurrent(states[i].system, b.generation);
    }
  }

  // ---- Strays do arise ----

  const SESSIONS: set<SessionId> := {"c1"}
  const REFUSED := Answers(false, 0)
  const GRANTED := Answers(true, 0)

  /** Waiting for a helper whose launch has failed. */
  function Unserved(c: Settings): Slice {
    Slice(c, SESSIONS, Machine(1, Absent, []), None, {}, 1, multiset{})
  }

  lemma FirstLaunchFails(sys: System, c: Settings, u: u32)
    requires Initial(sys, c)
    ensures var turn := DaemonTurn(u, Recount(SESSIONS), REFUSED);
            FailsToLaunch(sys, turn) && Turned(sys, turn).users[u] == Unserved(c)
  {
    assert |SESSIONS| == 1;
    var s := EmptySlice(c);
    ApplyOne(s.(ids := SESSIONS, machine := SetEligible(s.machine, 1).machine), sys.next, REFUSED, SpawnHelper);
  }

  lemma SecondLaunchSucceeds(sys: System, c: Settings, u: u32)
    requires SystemSound(sys) && u in sys.users && sys.users[u] == Unserved(c)
    ensures var turn := DaemonTurn(u, SpawnFires, GRANTED);
            && CanTake(sys, turn) && var after := Turned(sys, turn);
            sys.next in after.procs && sys.next in after.homes && after.homes[sys.next] == u && after.procs[sys.next] == NEW_PROC
  {
    var turn := DaemonTurn(u, SpawnFires, GRANTED);
    RouteLaunch(sys.procs, sys.next);
    assert StepOf(sys, turn).effects == [Launched(sys.next)];
  }

  /** The first launch fails late ... */
  lemma Strands(sys: System, c: Settings, u: u32) returns (w: Wide, t: WideTurn)
    requires Initial(sys, c)
    ensures CanGo(Wide(sys, map[]), t) && w == Went(Wide(sys, map[]), t) && SystemSound(w.system)
    ensures u in w.system.users && w.system.users[u] == Unserved(c) && w.strays == map[0 := Stray(u, START)]
  {
    var turn := DaemonTurn(u, Recount(SESSIONS), REFUSED);
    InitialIsSound(sys, c);
    FirstLaunchFails(sys, c, u);
    TurnKeepsSound(sys, turn);
    t := LateFailure(turn, 0);
    w := Went(Wide(sys, map[]), t);
  }

  /** ... and after the delay the second one succeeds. */
  lemma Relaunches(w: Wide, c: Settings, u: u32) returns (after: Wide, t: WideTurn)
    requires SystemSound(w.system) && u in w.system.users && w.system.users[u] == Unserved(c)
    ensures CanGo(w, t) && after == Went(w, t) && after.strays == w.strays
    ensures var g := w.system.next;
            g in after.system.procs && g in after.system.homes && after.system.homes[g] == u && after.system.procs[g] == NEW_PROC
  {
    SecondLaunchSucceeds(w.system, c, u);
    t := Inner(DaemonTurn(u, SpawnFires, GRANTED));
    after := Went(w, t);
  }

  /** Two different processes of the user are alive. */
  predicate BothLive(w: Wide, u: u32, a: Id, b: Id) {
    && a != b && Exists(w, a) && Exists(w, b) && UserOf(w, a) == UserOf(w, b) == u
    && !HelperOf(w, a).course.Gone? && !HelperOf(w, b).course.Gone?
  }

  lemma BesideAStray(w: Wide, u: u32, g: nat, k: nat)
    requires w.strays == map[k := Stray(u, START)]
    requires g in w.system.procs && g in w.system.homes && w.system.homes[g] == u && w.system.procs[g] == NEW_PROC
    ensures BothLive(w, u, OfSystem(g), OfStray(k))
  {
  }

  /** From every initial state some run leads to a helper that lives beside a stray of its user. */
  lemma StrayAndHelperCanLive(sys: System, c: Settings, u: u32)
    returns (states: seq<Wide>, turns: seq<WideTurn>, a: Id, b: Id)
    requires Initial(sys, c)
    ensures WideRun(states, turns, c) && states[0] == Wide(sys, map[]) && BothLive(states[|turns|], u, a, b)
  {
    var first, t := Strands(sys, c, u);
    var second, v := Relaunches(first, c, u);
    a, b := OfSystem(first.system.next), OfStray(0);
    BesideAStray(second, u, first.system.next, 0);
    states, turns := TwoTurns(Wide(sys, map[]), first, second, c, t, v);
  }

  lemma TwoTurns(start: Wide, first: Wide, second: Wide, c: Settings, t: WideTurn, v: WideTurn)
    returns (states: seq<Wide>, turns: seq<WideTurn>)
    requires Initial(start.system, c) && start.strays == map[]
    requires CanGo(start, t) && first == Went(start, t) && CanGo(first, v) && second == Went(first, v)
    ensures WideRun(states, turns, c) && |turns| == 2 && states[0] == start && states[2] == second
  {
    states, turns := [start, first, second], [t, v];
    forall i | 0 <= i < |turns|
      ensures WideFollows(states, turns, i)
    {
      assert i == 0 || i == 1;
    }
  }
}
