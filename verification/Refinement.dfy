/**
  The daemon's books in the system: they begin in an initial state of the system, and every step
  they take is a turn the system may take. So what holds in every run of the system holds of them.
 */
module Refinement {
  import opened Prelude
  import opened Config
  import opened Messages
  import opened Machines
  import opened Slices
  import opened SliceEffects
  import opened Books
  import opened Lockstep
  import opened Helpers
  import opened Systems
  import opened Invariance

  /** The system shows the daemon's books: the same slices, the same next generation, the same answers. */
  ghost predicate Shows(sys: System, b: Books) {
    && (forall u: u32 :: u in sys.users && sys.users[u] == SliceOf(b, u))
    && sys.next == b.next && sys.answered == AnsweredIn(b.log)
  }

  ghost function EmptyUsers(c: Settings, n: nat): map<u32, Slice>
    requires n <= 0x1_0000_0000
  {
    if n == 0 then map[] else EmptyUsers(c, n - 1)[n - 1 := EmptySlice(c)]
  }

  lemma {:induction false} AllUsersAreEmpty(c: Settings, n: nat)
    requires n <= 0x1_0000_0000
    ensures forall u: u32 :: u < n ==> u in EmptyUsers(c, n) && EmptyUsers(c, n)[u] == EmptySlice(c)
  {
    if n == 0 {
    } else {
      AllUsersAreEmpty(c, n - 1);
    }
  }

  /** The books a daemon starts with are those of an initial state. */
  lemma StartIsInitial(c: Settings) returns (sys: System)
    ensures Initial(sys, c) && Shows(sys, EmptyBooks(c))
  {
    var users := EmptyUsers(c, 0x1_0000_0000);
    AllUsersAreEmpty(c, 0x1_0000_0000);
    sys := System(users, 1, 1, map[], map[], map[], multiset{});
    forall u: u32
      ensures u in users && users[u] == SliceOf(EmptyBooks(c), u)
    {
      assert PendingOf(map[], u) == {};
    }
  }

  /** The turn that a step of the books is: a message from its channel, the notice of an exit, or the daemon's own. */
  function TurnOf(u: u32, op: Op, w: Answers): Turn {
    match op
    case Hear(g, _, verified) => Delivery(g, verified, w)
    case HelperGone(g) => ExitNotice(g, w)
    case _ => DaemonTurn(u, op, w)
  }

  /**
    The system has a cause for the step: the message is the oldest in the channel of a helper of this
    user, the process that exited is gone, and requests join under the next number.
   */
  ghost predicate Caused(sys: System, u: u32, op: Op, w: Answers) {
    && CanTake(sys, TurnOf(u, op, w))
    && (op.Hear? ==> sys.homes[op.generation] == u && sys.procs[op.generation].up[0].message == op.message)
    && (op.HelperGone? ==> sys.homes[op.generation] == u)
  }

  lemma EnactShows(sys: System, mid: System, a: Books, b: Books, u: u32, op: Op, step: Step)
    requires Shows(sys, a) && mid == sys.(procs := mid.procs) && Steps(a, b, u, step)
    ensures Shows(Enact(mid, u, op, step), b)
  {
    var after := Enact(mid, u, op, step);
    AnsweredConcat(a.log, step.effects);
    forall v: u32
      ensures v in after.users && after.users[v] == SliceOf(b, v)
    {
      assert v in sys.users && sys.users[v] == SliceOf(a, v) && (v != u ==> Untouched(a, b, v));
    }
  }

  /** A caused step of the books is its turn of the system, and shows the same. */
  lemma StepIsTurn(sys: System, a: Books, b: Books, u: u32, op: Op, w: Answers)
    requires Shows(sys, a) && Took(a, b, u, op, w) && Caused(sys, u, op, w)
    ensures Shows(Turned(sys, TurnOf(u, op, w)), b)
    ensures b.log == a.log + EffectsOf(sys, TurnOf(u, op, w))
  {
    var turn := TurnOf(u, op, w);
    CauseIsStep(sys, a, u, op, w);
    TookIsSteps(a, b, u, op, w);
    EnactShows(sys, BeforeStep(sys, turn), a, b, u, op, StepOf(sys, turn));
  }

  lemma CauseIsStep(sys: System, a: Books, u: u32, op: Op, w: Answers)
    requires Shows(sys, a) && Caused(sys, u, op, w)
    ensures var turn := TurnOf(u, op, w);
            !turn.HelperTurn? && ActorOf(sys, turn) == u && OpOf(sys, turn) == op
            && StepOf(sys, turn) == Perform(SliceOf(a, u), a.next, w, op)
  {
    assert u in sys.users && sys.users[u] == SliceOf(a, u);
  }

  /** The steps that no helper causes need no more than to be allowed. */
  lemma AllowedIsCaused(sys: System, b: Books, u: u32, op: Op, w: Answers)
    requires Shows(sys, b) && Allowed(SliceOf(b, u), op) && !op.Hear? && !op.HelperGone?
    requires op.Join? ==> op.request == sys.requests
    ensures Caused(sys, u, op, w)
  {
    assert sys.users[u] == SliceOf(b, u);
  }

  // ---- Courses ----

  /** A step of the books, or a helper's own event. */
  datatype Happening = OfDaemon(act: Act) | OfHelper(generation: nat, event: Event)

  function TurnIn(h: Happening): Turn {
    match h
    case OfDaemon(act) => TurnOf(act.user, act.op, act.world)
    case OfHelper(g, e) => HelperTurn(g, e)
  }

  function BooksOnce(b: Books, h: Happening): Books {
    if h.OfDaemon? then h.act.after else b
  }

  /** It can happen to the books `b` in the system `sys`, which has a cause for it. */
  ghost predicate MayHappen(sys: System, b: Books, h: Happening) {
    match h
    case OfDaemon(act) => Caused(sys, act.user, act.op, act.world) && Took(b, act.after, act.user, act.op, act.world)
    case OfHelper(g, e) => CanTake(sys, HelperTurn(g, e))
  }

  /** What happens, from the books `b` in the system `sys`, each step with its cause. */
  ghost predicate Course(sys: System, b: Books, hs: seq<Happening>)
    decreases |hs|
  {
    hs == [] || (MayHappen(sys, b, hs[0]) && Course(Turned(sys, TurnIn(hs[0])), BooksOnce(b, hs[0]), hs[1..]))
  }

  function BooksAfter(b: Books, hs: seq<Happening>): Books
    decreases |hs|
  {
    if hs == [] then b else BooksAfter(BooksOnce(b, hs[0]), hs[1..])
  }

  function AllOf(shown: seq<seq<Effect>>): seq<Effect> {
    if shown == [] then [] else shown[0] + AllOf(shown[1..])
  }

  /** The run leads from a system that shows the books `a` to one that shows `b`, and shows what was logged meanwhile. */
  ghost predicate Leads(run: History, sys: System, a: Books, b: Books) {
    && IsRun(run) && run.states[0] == sys
    && Shows(run.states[|run.turns|], b) && b.log == a.log + AllOf(run.shown)
  }

  lemma PrependTurn(sys: System, turn: Turn, rest: History) returns (run: History)
    requires CanTake(sys, turn) && IsRun(rest) && rest.states[0] == Turned(sys, turn)
    ensures IsRun(run) && run.states[0] == sys
    ensures |run.turns| == |rest.turns| + 1 && run.states[|run.turns|] == rest.states[|rest.turns|]
    ensures run.shown == [EffectsOf(sys, turn)] + rest.shown
  {
    run := History([sys] + rest.states, [turn] + rest.turns, [EffectsOf(sys, turn)] + rest.shown);
    assert Follows(run, 0);
    forall i | 0 < i < |run.turns|
      ensures Follows(run, i)
    {
      FollowsAlike(run, i, rest, i - 1);
    }
  }

  /** What happens is a turn of the system, which then shows the books and what was logged. */
  lemma HappeningIsTurn(sys: System, b: Books, h: Happening)
    requires Shows(sys, b) && MayHappen(sys, b, h)
    ensures CanTake(sys, TurnIn(h)) && Shows(Turned(sys, TurnIn(h)), BooksOnce(b, h))
    ensures BooksOnce(b, h).log == b.log + EffectsOf(sys, TurnIn(h))
  {
    if h.OfDaemon? {
      StepIsTurn(sys, b, h.act.after, h.act.user, h.act.op, h.act.world);
    }
  }

  lemma {:induction false} CourseIsRun(sys: System, b: Books, hs: seq<Happening>) returns (run: History)
    requires Shows(sys, b) && Course(sys, b, hs)
    ensures Leads(run, sys, b, BooksAfter(b, hs))
    decreases |hs|
  {
    if hs == [] {
      run := History([sys], [], []);
    } else {
      var turn, after := TurnIn(hs[0]), BooksOnce(b, hs[0]);
      HappeningIsTurn(sys, b, hs[0]);
      var rest := CourseIsRun(Turned(sys, turn), after, hs[1..]);
      run := PrependTurn(sys, turn, rest);
      LeadsFurther(run, rest, sys, turn, b, after, BooksAfter(b, hs));
    }
  }

  lemma LeadsFurther(run: History, rest: History, sys: System, turn: Turn, a: Books, b: Books, c: Books)
    requires CanTake(sys, turn) && Leads(rest, Turned(sys, turn), b, c) && b.log == a.log + EffectsOf(sys, turn)
    requires IsRun(run) && run.states[0] == sys && run.states[|run.turns|] == rest.states[|rest.turns|]
    requires run.shown == [EffectsOf(sys, turn)] + rest.shown
    ensures Leads(run, sys, a, c)
  {
    assert run.shown[1..] == rest.shown;
    LogGrows(a.log, EffectsOf(sys, turn), AllOf(rest.shown));
  }

  lemma LogGrows(log: seq<Effect>, first: seq<Effect>, rest: seq<Effect>)
    ensures (log + first) + rest == log + (first + rest)
  {
  }

  /**
    Whatever happens to a daemon from its start on, its books are those of a state that some run of
    the system reaches, its log is what that run showed, and the joint invariant holds there.
   */
  lemma EveryCourseIsSound(c: Settings, sys: System, hs: seq<Happening>) returns (run: History)
    requires Initial(sys, c) && Shows(sys, EmptyBooks(c)) && Course(sys, EmptyBooks(c), hs)
    ensures StartedRun(run, c) && Leads(run, sys, EmptyBooks(c), BooksAfter(EmptyBooks(c), hs))
    ensures SystemSound(run.states[|run.turns|]) && AllSound(BooksAfter(EmptyBooks(c), hs))
  {
    run := CourseIsRun(sys, EmptyBooks(c), hs);
    EveryRunIsSound(run, c, |run.turns|);
    ShownIsSound(run.states[|run.turns|], BooksAfter(EmptyBooks(c), hs));
  }

  lemma ShownIsSound(sys: System, b: Books)
    requires SystemSound(sys) && Shows(sys, b)
    ensures AllSound(b)
  {
    forall u: u32
      ensures SoundFor(b, u)
    {
      assert UserSound(sys, u);
    }
  }

  // ---- The daemon among its helpers ----

  /** The daemon's steps in what happens. */
  function ActsIn(hs: seq<Happening>): seq<Act> {
    if hs == [] then [] else (if hs[0].OfDaemon? then [hs[0].act] else []) + ActsIn(hs[1..])
  }

  /**
    The helpers do what they can, and what the daemon learns of them is so: it hears the oldest
    message of a channel, and only of processes that are gone that they are. The daemon's other steps
    are not constrained.
   */
  ghost predicate Driven(sys: System, hs: seq<Happening>)
    decreases |hs|
  {
    hs == [] || (HelpersAgree(sys, hs[0]) && (CanTake(sys, TurnIn(hs[0])) ==> Driven(Turned(sys, TurnIn(hs[0])), hs[1..])))
  }

  ghost predicate HelpersAgree(sys: System, h: Happening) {
    match h
    case OfDaemon(act) => act.op.Hear? || act.op.HelperGone? ==> Caused(sys, act.user, act.op, act.world)
    case OfHelper(g, e) => CanTake(sys, HelperTurn(g, e))
  }

  /** A lawful step that the helpers agree to has its cause ... */
  lemma LawfulMayHappen(sys: System, b: Books, n: nat, act: Act)
    requires Shows(sys, b) && sys.requests == n && MayAct(b, n, act) && HelpersAgree(sys, OfDaemon(act))
    ensures MayHappen(sys, b, OfDaemon(act))
  {
    if !act.op.Hear? && !act.op.HelperGone? {
      AllowedIsCaused(sys, b, act.user, act.op, act.world);
    }
  }

  /** ... and the request numbers stay together. */
  lemma NumbersStayTogether(sys: System, u: u32, op: Op, w: Answers)
    requires CanTake(sys, TurnOf(u, op, w))
    ensures Turned(sys, TurnOf(u, op, w)).requests == NumberAfter(sys.requests, op)
  {
  }

  function NumberOnce(n: nat, h: Happening): nat {
    if h.OfDaemon? then h.act.number else n
  }

  /** What happens first is a turn of the system, and the rest goes on from there. */
  lemma LawfulFirstHappens(sys: System, a: Books, n: nat, hs: seq<Happening>, b: Books, m: nat)
    requires hs != [] && Shows(sys, a) && sys.requests == n && Lawful(a, n, ActsIn(hs), b, m) && HelpersAgree(sys, hs[0])
    ensures MayHappen(sys, a, hs[0]) && CanTake(sys, TurnIn(hs[0]))
    ensures var after := Turned(sys, TurnIn(hs[0]));
            Shows(after, BooksOnce(a, hs[0])) && after.requests == NumberOnce(n, hs[0])
    ensures Lawful(BooksOnce(a, hs[0]), NumberOnce(n, hs[0]), ActsIn(hs[1..]), b, m)
  {
    if hs[0].OfDaemon? {
      var act := hs[0].act;
      LawfulFirst(act, ActsIn(hs[1..]), a, n, b, m);
      LawfulMayHappen(sys, a, n, act);
      NumbersStayTogether(sys, act.user, act.op, act.world);
    } else {
      assert ActsIn(hs) == ActsIn(hs[1..]);
    }
    HappeningIsTurn(sys, a, hs[0]);
  }

  /** Lawful steps of the books, in whatever way the helpers' events come in between, are a course. */
  lemma {:induction false} LawfulIsCourse(sys: System, a: Books, n: nat, hs: seq<Happening>, b: Books, m: nat)
    requires Shows(sys, a) && sys.requests == n && Lawful(a, n, ActsIn(hs), b, m) && Driven(sys, hs)
    ensures Course(sys, a, hs) && Same(BooksAfter(a, hs), b)
    decreases |hs|
  {
    if hs == [] {
    } else {
      LawfulFirstHappens(sys, a, n, hs, b, m);
      LawfulIsCourse(Turned(sys, TurnIn(hs[0])), BooksOnce(a, hs[0]), NumberOnce(n, hs[0]), hs[1..], b, m);
    }
  }

  lemma LawfulFirst(act: Act, rest: seq<Act>, a: Books, n: nat, b: Books, m: nat)
    requires Lawful(a, n, [act] + rest, b, m)
    ensures MayAct(a, n, act) && Lawful(act.after, act.number, rest, b, m)
  {
    LawfulRest(a, n, [act] + rest, b, m);
    assert ([act] + rest)[1..] == rest;
  }

  /**
    The steps that the turns of a daemon are, from its start on and together with whatever its
    helpers do in between, are a run of the system: it ends with the daemon's books and shows what
    they logged, and the joint invariant holds.
   */
  lemma EveryDaemonIsSound(c: Settings, sys: System, hs: seq<Happening>, b: Books, m: nat) returns (run: History)
    requires Initial(sys, c) && Shows(sys, EmptyBooks(c)) && Driven(sys, hs)
    requires Lawful(EmptyBooks(c), 1, ActsIn(hs), b, m)
    ensures StartedRun(run, c) && Leads(run, sys, EmptyBooks(c), b)
    ensures SystemSound(run.states[|run.turns|])
  {
    LawfulIsCourse(sys, EmptyBooks(c), 1, hs, b, m);
    run := EveryCourseIsSound(c, sys, hs);
    SameIsShown(run.states[|run.turns|], BooksAfter(EmptyBooks(c), hs), b);
  }

  lemma SameIsShown(sys: System, a: Books, b: Books)
    requires Shows(sys, a) && Same(a, b)
    ensures Shows(sys, b)
  {
    forall u: u32
      ensures u in sys.users && sys.users[u] == SliceOf(b, u)
    {
      assert Untouched(a, b, u);
    }
  }
}
