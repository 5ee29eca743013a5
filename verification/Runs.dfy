/** What holds over whole runs of the system, from its start and for every interleaving. */
module Runs {
  import opened Prelude
  import opened Config
  import opened Messages
  import opened Machines
  import opened Slices
  import opened SliceEffects
  import opened Replies
  import opened Helpers
  import opened Lockstep
  import opened Systems
  import opened Invariance
  import opened Guarantees

  // ---- Start commands asked for, over turns ----

  /** A process stays, and never has fewer start commands asked of it. */
  ghost predicate AskedMore(before: System, after: System, g: nat) {
    g in before.procs ==> g in after.procs && before.procs[g].issued <= after.procs[g].issued
  }

  lemma StepAsksMore(mid: System, after: System, u: u32, op: Op, step: Step, g: nat)
    requires Registered(mid, g) && Stepped(mid, after, u, op, step)
    ensures AskedMore(mid, after, g)
  {
    if mid.users[u].helper.Some? {
      var h := mid.users[u].helper.value.generation;
      MailCountsStarts(mid.procs[h], h, step.effects);
    }
  }

  /** Every turn counts: those of the same user, of other users and of any helper. */
  lemma TurnAsksMore(sys: System, turn: Turn, g: nat)
    requires SystemSound(sys) && CanTake(sys, turn)
    ensures AskedMore(sys, Turned(sys, turn), g)
  {
    if !turn.HelperTurn? {
      TurnIsStep(sys, turn);
      PickingKeepsRegistered(sys, turn, g);
      StepAsksMore(BeforeStep(sys, turn), Turned(sys, turn), ActorOf(sys, turn), OpOf(sys, turn), StepOf(sys, turn), g);
    }
  }

  /** Between two states of a run. */
  lemma {:induction false} AskedBetween(run: History, c: Settings, i: nat, j: nat, g: nat)
    requires StartedRun(run, c) && i <= j <= |run.turns|
    ensures AskedMore(run.states[i], run.states[j], g)
    decreases j
  {
    if i == j {
    } else {
      AskedBetween(run, c, i, j - 1, g);
      EveryRunIsSound(run, c, j - 1);
      assert Follows(run, j - 1);
      TurnAsksMore(run.states[j - 1], run.turns[j - 1], g);
    }
  }

  // ---- Attempts over a run ----

  /** A start command goes to the acting user's helper. */
  lemma StartIsForActor(sys: System, turn: Turn, e: Effect)
    requires SystemSound(sys) && CanTake(sys, turn) && e in EffectsOf(sys, turn) && IsStart(e)
    ensures !turn.HelperTurn? && HasHelper(sys.users[ActorOf(sys, turn)], e.generation)
  {
    var u := ActorOf(sys, turn);
    assert UserSound(sys, u);
    StepIsShaped(sys.users[u], sys.next, turn.world, OpOf(sys, turn));
  }

  lemma StartIsNext(sys: System, turn: Turn, e: Effect)
    requires SystemSound(sys) && CanTake(sys, turn) && e in EffectsOf(sys, turn) && IsStart(e)
    ensures var g := e.generation;
            && g in sys.procs && g in Turned(sys, turn).procs
            && e.command.attempt == AttemptOf(sys.procs[g].issued + 1)
            && Turned(sys, turn).procs[g].issued == sys.procs[g].issued + 1
  {
    StartIsForActor(sys, turn, e);
    StartsAreNumbered(sys, turn, e.generation);
    StartInEffects(EffectsOf(sys, turn), e);
  }

  /** A start command shown in a run carries the number of those asked for before, and one more. */
  lemma StartAt(run: History, c: Settings, i: nat, e: Effect)
    requires StartedRun(run, c) && i < |run.turns| && e in run.shown[i] && IsStart(e)
    ensures var g := e.generation;
            && g in run.states[i].procs && g in run.states[i + 1].procs
            && e.command.attempt == AttemptOf(run.states[i].procs[g].issued + 1)
            && run.states[i + 1].procs[g].issued == run.states[i].procs[g].issued + 1
  {
    EveryRunIsSound(run, c, i);
    assert Follows(run, i);
    StartIsNext(run.states[i], run.turns[i], e);
  }

  /**
    Over every run the attempts of one generation's start commands strictly increase, through
    failures and readiness alike, until they stay at the largest 32-bit number.
   */
  lemma AttemptsIncrease(run: History, c: Settings, i: nat, j: nat, e: Effect, f: Effect)
    requires StartedRun(run, c) && i < j < |run.turns|
    requires e in run.shown[i] && f in run.shown[j]
    requires IsStart(e) && IsStart(f) && e.generation == f.generation
    ensures e.command.attempt < f.command.attempt || e.command.attempt == f.command.attempt == U32_MAX
  {
    StartAt(run, c, i, e);
    StartAt(run, c, j, f);
    AskedBetween(run, c, i + 1, j, e.generation);
  }

  // ---- Delays over a run ----

  /** All users have the daemon's settings. */
  ghost predicate Configured(sys: System, c: Settings) {
    forall u: u32 :: u in sys.users ==> sys.users[u].settings == c
  }

  lemma TurnKeepsConfigured(sys: System, c: Settings, turn: Turn)
    requires Configured(sys, c) && CanTake(sys, turn)
    ensures Configured(Turned(sys, turn), c)
  {
    if !turn.HelperTurn? {
      StepKeepsSettings(sys.users[ActorOf(sys, turn)], sys.next, turn.world, OpOf(sys, turn));
    }
  }

  lemma {:induction false} ConfiguredAt(run: History, c: Settings, i: nat)
    requires StartedRun(run, c) && i <= |run.turns|
    ensures Configured(run.states[i], c)
  {
    if i == 0 {
    } else {
      ConfiguredAt(run, c, i - 1);
      assert Follows(run, i - 1);
      TurnKeepsConfigured(run.states[i - 1], c, run.turns[i - 1]);
    }
  }

  /** So many start commands were asked of the generation. */
  ghost predicate Asked(sys: System, g: nat, k: nat) {
    g in sys.procs && sys.procs[g].issued == k
  }

  /** The timer is for the attempt after `k` start commands, with exactly the delay due then. */
  predicate DueAfter(c: Settings, k: nat, timer: Timer) {
    k > 0 && timer.attempt == AttemptOf(k + 1) && Length(timer.delay) == DelayAfter(c, k)
  }

  /** The timer is due after the start commands asked for so far. */
  ghost predicate IsDue(sys: System, c: Settings, timer: Timer) {
    timer.generation in sys.procs && forall k: nat :: Asked(sys, timer.generation, k) ==> DueAfter(c, k, timer)
  }

  lemma TimerIsNext(sys: System, c: Settings, turn: Turn, e: Effect)
    requires SystemSound(sys) && Configured(sys, c) && CanTake(sys, turn)
    requires e in EffectsOf(sys, turn) && e.Scheduled?
    ensures IsDue(Turned(sys, turn), c, e.timer)
  {
    var u := ActorOf(sys, turn);
    StepSchedules(sys.users[u], sys.next, turn.world, OpOf(sys, turn));
    TurnKeepsSound(sys, turn);
    BackoffIsDue(Turned(sys, turn), c, u, e.timer);
  }

  lemma BackoffIsDue(sys: System, c: Settings, u: u32, timer: Timer)
    requires SystemSound(sys) && u in sys.users && sys.users[u].machine.state == Backoff(timer.generation, timer.attempt)
    requires timer.delay == c.DelayBefore(timer.attempt)
    ensures IsDue(sys, c, timer)
  {
    assert UserSound(sys, u);
    var p := sys.procs[timer.generation];
    BackoffIsNumbered(sys.users[u], timer.generation, p);
    DelayOfAttempt(c, p.issued);
  }

  lemma LaterDelaysAreLonger(c: Settings, k: nat, l: nat)
    requires 0 < k <= l
    ensures DelayAfter(c, k) <= DelayAfter(c, l)
  {
    DelayOfAttempt(c, k);
    DelayOfAttempt(c, l);
    DelaysNeverDecrease(c, SaturatingSub(AttemptOf(k + 1), 1), SaturatingSub(AttemptOf(l + 1), 1));
  }

  lemma LaterTimersAreLonger(before: System, after: System, c: Settings, first: Timer, second: Timer)
    requires IsDue(before, c, first) && IsDue(after, c, second) && first.generation == second.generation
    requires AskedMore(before, after, first.generation)
    ensures Length(first.delay) <= Length(second.delay)
  {
    var k, l := before.procs[first.generation].issued, after.procs[first.generation].issued;
    assert Asked(before, first.generation, k) && Asked(after, first.generation, l);
    LaterDelaysAreLonger(c, k, l);
  }

  /** A timer scheduled in a run has exactly the delay due after the start commands asked for by then. */
  lemma TimerAt(run: History, c: Settings, i: nat, e: Effect)
    requires StartedRun(run, c) && i < |run.turns| && e in run.shown[i] && e.Scheduled?
    ensures IsDue(run.states[i + 1], c, e.timer)
  {
    EveryRunIsSound(run, c, i);
    ConfiguredAt(run, c, i);
    assert Follows(run, i);
    TimerIsNext(run.states[i], c, run.turns[i], e);
  }

  /** Over every run the delays scheduled for one generation never decrease. */
  lemma DelaysNeverShrink(run: History, c: Settings, i: nat, j: nat, e: Effect, f: Effect)
    requires StartedRun(run, c) && i < j < |run.turns|
    requires e in run.shown[i] && f in run.shown[j]
    requires e.Scheduled? && f.Scheduled? && e.timer.generation == f.timer.generation
    ensures Length(e.timer.delay) <= Length(f.timer.delay)
  {
    TimerAt(run, c, i, e);
    TimerAt(run, c, j, f);
    AskedBetween(run, c, i + 1, j + 1, e.timer.generation);
    LaterTimersAreLonger(run.states[i + 1], run.states[j + 1], c, e.timer, f.timer);
  }

  // ---- Lockstep and readiness over a run ----

  /**
    In every run a starting user with an accepted lease has exactly one token, or none when the send
    that was to start the attempt has failed.
   */
  lemma OneTokenInEveryRun(run: History, c: Settings, i: nat, u: u32)
    requires StartedRun(run, c) && i <= |run.turns|
    ensures var now := run.states[i];
            u in now.users && (now.users[u].machine.state.Starting? && Leased(now.users[u]) ==>
              var g := now.users[u].machine.state.generation;
              g in now.procs && Tokens(now.procs[g]) == if Lost(now.procs[g]) then 0 else 1)
  {
    EveryRunIsSound(run, c, i);
    var now := run.states[i];
    assert UserSound(now, u);
    if now.users[u].machine.state.Starting? && Leased(now.users[u]) {
      StartingHasOneToken(now, u);
    }
  }

  /**
    In every run, nobody is told ready but a user whose helper then has a verified lease and whose
    ready action exited with 0 for the latest start command.
   */
  lemma ReadyIsEarnedInEveryRun(run: History, c: Settings, i: nat, request: nat)
    requires StartedRun(run, c) && i < |run.turns| && Answered(request, ReplyReady) in run.shown[i]
    ensures ReadyFor(run.states[i + 1], request)
  {
    EveryRunIsSound(run, c, i);
    assert Follows(run, i);
    ReadyIsEarned(run.states[i], run.turns[i], request);
  }

  /** What the request is told in the `i`-th turn is what its user's step of that turn calls for. */
  ghost predicate CallsForAt(run: History, i: nat, u: u32, request: nat, reply: Answer)
    requires i < |run.turns| == |run.shown| && |run.states| == |run.turns| + 1
  {
    && CanTake(run.states[i], run.turns[i]) && !run.turns[i].HelperTurn?
    && u == ActorOf(run.states[i], run.turns[i]) && u in run.states[i + 1].users
    && CallsFor(run.states[i].users[u], OpOf(run.states[i], run.turns[i]), run.states[i + 1].users[u], request, reply)
  }

  /**
    In every run, whoever is answered is told ready exactly when the turn leaves the user's manager
    ready, and an error only for the cause it names.
   */
  lemma AnswersAreDueInEveryRun(run: History, c: Settings, i: nat, request: nat, reply: Answer)
    requires StartedRun(run, c) && i < |run.turns| && Answered(request, reply) in run.shown[i]
    ensures request in run.states[i + 1].askers && CallsForAt(run, i, run.states[i + 1].askers[request], request, reply)
  {
    EveryRunIsSound(run, c, i);
    assert Follows(run, i);
    AnswersAreForActor(run.states[i], run.turns[i], request, reply);
    TurnAnswersAreDue(run.states[i], run.turns[i], request, reply);
  }

  lemma TurnAnswersAreDue(sys: System, turn: Turn, request: nat, reply: Answer)
    requires SystemSound(sys) && CanTake(sys, turn) && Answered(request, reply) in EffectsOf(sys, turn)
    ensures var u := ActorOf(sys, turn);
            && u in Turned(sys, turn).users
            && CallsFor(sys.users[u], OpOf(sys, turn), Turned(sys, turn).users[u], request, reply)
  {
    var u := ActorOf(sys, turn);
    assert UserSound(sys, u);
    AnswersAreDue(sys.users[u], sys.next, turn.world, OpOf(sys, turn), request, reply);
  }

  /** In every run, no manager is started while another is owned, and each under the attempt it is counted for. */
  lemma StartsArriveInEveryRun(run: History, c: Settings, i: nat, g: nat, attempt: u32)
    requires StartedRun(run, c) && i < |run.turns| && run.turns[i] == HelperTurn(g, Obey(StartManager(attempt)))
    ensures g in run.states[i].procs
    ensures var h := run.states[i].procs[g].helper;
            h.phase.Idle? && !h.manager && Pinned(h) && attempt == AttemptOf(h.serial + 1)
  {
    EveryRunIsSound(run, c, i);
    assert Follows(run, i);
    CommandsArriveInPlace(run.states[i], g, StartManager(attempt));
    assert Registered(run.states[i], g);
  }
}
