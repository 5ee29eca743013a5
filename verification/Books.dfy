/**
  The daemon's maps as a value, each user's slice of them, and what keeps every slice sound and
  every request accounted for.
 */
module Books {
  import opened Prelude
  import opened Config
  import opened Messages
  import opened Machines
  import opened Slices
  import opened SliceEffects

  const MAX_PENDING: nat := 1024
  const MAX_PENDING_PER_USER: nat := 64

  /** The five maps, the timers the runtime holds, the next generation, and what was shown to the outside. */
  datatype Books = Books(
    settings: Settings,
    eligible: map<u32, set<SessionId>>,
    machines: map<u32, Machine>,
    helpers: map<u32, Handle>,
    pending: map<nat, u32>,
    spawnTimers: map<u32, nat>,
    backoffTimers: map<u32, multiset<Timer>>,
    next: nat,
    outside: Answers,
    log: seq<Effect>)

  function PendingOf(pending: map<nat, u32>, u: u32): set<nat> {
    set r | r in pending && pending[r] == u
  }

  lemma PendingWithout(pending: map<nat, u32>, r: nat, u: u32)
    requires r in pending ==> pending[r] == u
    ensures PendingOf(pending - {r}, u) == PendingOf(pending, u) - {r}
    ensures forall v: u32 :: v != u ==> PendingOf(pending - {r}, v) == PendingOf(pending, v)
    ensures r in pending <==> r in PendingOf(pending, u)
  {
  }

  lemma PendingWith(pending: map<nat, u32>, r: nat, u: u32)
    requires r !in pending
    ensures PendingOf(pending[r := u], u) == PendingOf(pending, u) + {r}
    ensures forall v: u32 :: v != u ==> PendingOf(pending[r := u], v) == PendingOf(pending, v)
  {
  }

  function Get<V>(m: map<u32, V>, u: u32, default: V): V {
    if u in m then m[u] else default
  }

  function SliceOf(b: Books, u: u32): Slice {
    Slice(b.settings,
          Get(b.eligible, u, {}),
          Get(b.machines, u, NEW_MACHINE),
          if u in b.helpers then Some(b.helpers[u]) else None,
          PendingOf(b.pending, u),
          Get(b.spawnTimers, u, 0),
          Get(b.backoffTimers, u, multiset{}))
  }

  ghost predicate Untouched(a: Books, b: Books, v: u32) {
    SliceOf(b, v) == SliceOf(a, v)
  }

  ghost predicate OthersUntouched(a: Books, b: Books, u: u32) {
    forall v: u32 :: v != u ==> Untouched(a, b, v)
  }

  /** The step is what happened to user `u`. */
  ghost predicate Acted(a: Books, b: Books, u: u32, step: Step) {
    SliceOf(b, u) == step.slice && b.next == step.next && b.outside == step.answers && b.log == a.log + step.effects
  }

  /** From `a` to `b` exactly `step` happened to user `u`, and nothing to anyone else. */
  ghost predicate Steps(a: Books, b: Books, u: u32, step: Step) {
    Acted(a, b, u, step) && OthersUntouched(a, b, u)
  }

  /** From `a` to `b` user `u` took the step `op`, the outside answering `w`, and nothing happened to anyone else. */
  ghost predicate Took(a: Books, b: Books, u: u32, op: Op, w: Answers) {
    forall v: u32 :: TookAsFor(a, b, u, op, w, v)
  }

  ghost predicate TookAsFor(a: Books, b: Books, u: u32, op: Op, w: Answers, v: u32) {
    if v == u then Acted(a, b, u, Perform(SliceOf(a, u), a.next, w, op)) else Untouched(a, b, v)
  }

  lemma TookIsSteps(a: Books, b: Books, u: u32, op: Op, w: Answers)
    ensures Took(a, b, u, op, w) <==> Steps(a, b, u, Perform(SliceOf(a, u), a.next, w, op))
  {
    if Took(a, b, u, op, w) {
      assert TookAsFor(a, b, u, op, w, u);
      forall v: u32 | v != u
        ensures Untouched(a, b, v)
      {
        assert TookAsFor(a, b, u, op, w, v);
      }
    }
  }

  /** Two changes of which neither touches the others. */
  lemma UntouchedTwice(a: Books, b: Books, c: Books, u: u32)
    requires OthersUntouched(a, b, u) && OthersUntouched(b, c, u)
    ensures OthersUntouched(a, c, u)
  {
    forall v: u32 | v != u
      ensures Untouched(a, c, v)
    {
      assert Untouched(a, b, v) && Untouched(b, c, v);
    }
  }

  // ---- Steps one after another ----

  /** A step that only changes the slice, and then another. */
  lemma QuietThen(a: Books, b: Books, c: Books, u: u32, s: Slice, step: Step)
    requires Steps(a, b, u, Step(s, a.next, [], a.outside)) && Steps(b, c, u, step)
    ensures Steps(a, c, u, step)
  {
    UntouchedTwice(a, b, c, u);
    assert a.log + [] == a.log;
  }

  lemma ThenQuiet(a: Books, b: Books, c: Books, u: u32, step: Step, s: Slice)
    requires Steps(a, b, u, step) && Steps(b, c, u, Step(s, b.next, [], b.outside))
    ensures Steps(a, c, u, step.(slice := s))
  {
    UntouchedTwice(a, b, c, u);
  }

  lemma StepsThen(a: Books, b: Books, c: Books, u: u32, first: Step, actions: seq<Action>)
    requires Steps(a, b, u, first) && Steps(b, c, u, ApplyAll(first.slice, first.next, first.answers, actions))
    ensures Steps(a, c, u, Then(first, actions))
  {
    UntouchedTwice(a, b, c, u);
  }

  lemma NothingToSettle(s: Slice, next: nat, w: Answers)
    ensures Settle(s, next, w, Outcome(s.machine, [])) == Step(s, next, [], w)
  {
  }

  /** What the outside answered before a step is of no account for it. */
  lemma TookAnyOutside(a: Books, b: Books, u: u32, op: Op, w: Answers, x: Answers)
    requires Took(a.(outside := x), b, u, op, w)
    ensures Took(a, b, u, op, w)
  {
    var c := a.(outside := x);
    forall v: u32
      ensures TookAsFor(a, b, u, op, w, v)
    {
      assert TookAsFor(c, b, u, op, w, v);
      assert SliceOf(c, v) == SliceOf(a, v);
    }
  }

  // ---- Loops over requests and actions ----

  /** The requests an action answers are of its own user, as far as they are pending. */
  predicate Answerable(pending: map<nat, u32>, u: u32, action: Action) {
    action.AnswerReady? || action.AnswerError? ==> forall r :: r in action.requests && r in pending ==> pending[r] == u
  }

  ghost predicate AllAnswerable(pending: map<nat, u32>, u: u32, actions: seq<Action>) {
    forall a :: a in actions ==> Answerable(pending, u, a)
  }

  /** The requests an action answers are among the given ones. */
  predicate AnswersWithin(pending: set<nat>, action: Action) {
    action.AnswerReady? || action.AnswerError? ==> forall r :: r in action.requests ==> r in pending
  }

  /** A transition after which map and machine agree, and whose actions answer only what is pending. */
  ghost predicate Fits(s: Slice, outcome: Outcome) {
    && Agree(s.(machine := outcome.machine))
    && forall a :: a in outcome.actions ==> AnswersWithin(s.pending, a)
  }

  lemma FitIsAnswerable(pending: map<nat, u32>, u: u32, s: Slice, outcome: Outcome)
    requires Fits(s, outcome) && s.pending == PendingOf(pending, u)
    ensures AllAnswerable(pending, u, outcome.actions)
  {
    forall a | a in outcome.actions
      ensures Answerable(pending, u, a)
    {
      assert AnswersWithin(s.pending, a);
    }
  }

  lemma CountingFits(s: Slice, count: nat)
    requires Agree(s) && WaitersMatch(s)
    ensures Fits(s, SetEligible(s.machine, count))
  {
  }

  lemma JoiningFits(s: Slice, request: nat)
    requires Agree(s)
    ensures Fits(s.(pending := s.pending + {request}), AddRequest(s.machine, request))
  {
  }

  lemma SuccessFits(s: Slice, g: nat)
    requires Agree(s) && WaitersMatch(s)
    ensures Fits(s, ReadySucceededIn(s.machine, g))
  {
  }

  lemma FailureFits(s: Slice, g: nat)
    requires Agree(s)
    ensures Fits(s, StartupFailedIn(s.machine, g))
  {
  }

  lemma ExitFits(s: Slice, g: nat)
    requires Agree(s)
    ensures Fits(s, ManagerExitedIn(s.machine, g))
  {
  }

  lemma BackoffFits(s: Slice, g: nat, attempt: u32)
    requires Agree(s)
    ensures Fits(s, BackoffElapsed(s.machine, g, attempt))
  {
  }

  lemma ShutdownFits(s: Slice)
    requires Agree(s) && WaitersMatch(s)
    ensures Fits(s, BeginShutdown(s.machine))
  {
  }

  /** When the registered helper is gone; the spawn is left to a timer. */
  lemma GoneFits(s: Slice, g: nat)
    requires Agree(s) && WaitersMatch(s) && HasHelper(s, g)
    ensures var outcome := HelperExitedFrom(s.machine, g);
            Fits(s.(helper := None), outcome.(actions := WithoutSpawns(outcome.actions)))
  {
    WithoutSpawnsIsSubset(HelperExitedFrom(s.machine, g).actions);
  }

  /** Requests only stopped being pending. */
  ghost predicate Shrunk(before: map<nat, u32>, now: map<nat, u32>) {
    forall r :: r in now ==> r in before && now[r] == before[r]
  }

  lemma ShrunkStaysAnswerable(before: map<nat, u32>, now: map<nat, u32>, u: u32, actions: seq<Action>)
    requires Shrunk(before, now) && AllAnswerable(before, u, actions)
    ensures AllAnswerable(now, u, actions)
  {
    forall a | a in actions
      ensures Answerable(now, u, a)
    {
      assert Answerable(before, u, a);
    }
  }

  /** From `start` to `now` the first `i` of the requests were answered; `rest` is what answering the others does. */
  ghost predicate Answering(start: Books, now: Books, u: u32, requests: seq<nat>, reply: Answer, i: nat)
    requires i <= |requests|
  {
    var rest := AnswerAll(SliceOf(now, u), now.next, now.outside, requests[i..], reply);
    && OthersUntouched(start, now, u)
    && now.next == start.next && now.outside == start.outside && start.log <= now.log
    && AnswerAll(SliceOf(start, u), start.next, start.outside, requests, reply)
       == rest.(effects := now.log[|start.log|..] + rest.effects)
  }

  lemma AnsweringStep(start: Books, before: Books, now: Books, u: u32, requests: seq<nat>, reply: Answer, i: nat)
    requires i < |requests| && Answering(start, before, u, requests, reply, i)
    requires requests[i] in before.pending ==> before.pending[requests[i]] == u
    requires now == before.(pending := before.pending - {requests[i]},
                            log := before.log + if requests[i] in before.pending then [Answered(requests[i], reply)] else [])
    ensures Answering(start, now, u, requests, reply, i + 1)
  {
    PendingWithout(before.pending, requests[i], u);
    UntouchedTwice(start, before, now, u);
    assert requests[i..][0] == requests[i] && requests[i..][1..] == requests[i + 1..];
    AnswerFirst(SliceOf(before, u), before.next, before.outside, requests[i..], reply, before.log[|start.log|..]);
    assert now.log[|start.log|..] ==
           before.log[|start.log|..] + if requests[i] in before.pending then [Answered(requests[i], reply)] else [];
  }

  /** Answering a list starts with its first request; `done` are the effects before. */
  lemma AnswerFirst(s: Slice, next: nat, w: Answers, requests: seq<nat>, reply: Answer, done: seq<Effect>)
    requires requests != []
    ensures var all := AnswerAll(s, next, w, requests, reply);
            var rest := AnswerAll(s.(pending := s.pending - {requests[0]}), next, w, requests[1..], reply);
            var now := if requests[0] in s.pending then [Answered(requests[0], reply)] else [];
            all.(effects := done + all.effects) == rest.(effects := (done + now) + rest.effects)
  {
    var rest := AnswerAll(s.(pending := s.pending - {requests[0]}), next, w, requests[1..], reply).effects;
    if requests[0] in s.pending {
      assert done + ([Answered(requests[0], reply)] + rest) == (done + [Answered(requests[0], reply)]) + rest;
    } else {
      assert s.pending - {requests[0]} == s.pending;
      assert done + [] == done;
    }
  }

  /** From `start` to `now` the actions were applied. */
  ghost predicate Applied(start: Books, now: Books, u: u32, actions: seq<Action>) {
    Steps(start, now, u, ApplyAll(SliceOf(start, u), start.next, start.outside, actions))
  }

  lemma {:induction false} ApplyAllSnoc(s: Slice, next: nat, w: Answers, actions: seq<Action>, a: Action)
    ensures var most := ApplyAll(s, next, w, actions);
            var last := Apply(most.slice, most.next, most.answers, a);
            ApplyAll(s, next, w, actions + [a]) == last.(effects := most.effects + last.effects)
    decreases |actions|
  {
    if actions == [] {
      assert actions + [a] == [a];
      ApplyOne(s, next, w, a);
    } else {
      var first := Apply(s, next, w, actions[0]);
      assert (actions + [a])[0] == actions[0] && (actions + [a])[1..] == actions[1..] + [a];
      ApplyAllSnoc(first.slice, first.next, first.answers, actions[1..], a);
    }
  }

  lemma NothingApplied(start: Books, u: u32)
    ensures Applied(start, start, u, [])
  {
  }

  lemma OneMoreApplied(start: Books, before: Books, now: Books, u: u32, actions: seq<Action>, a: Action)
    requires Applied(start, before, u, actions)
    requires Steps(before, now, u, Apply(SliceOf(before, u), before.next, before.outside, a))
    ensures Applied(start, now, u, actions + [a])
  {
    UntouchedTwice(start, before, now, u);
    ApplyAllSnoc(SliceOf(start, u), start.next, start.outside, actions, a);
  }

  function EmptyBooks(settings: Settings): Books {
    Books(settings, map[], map[], map[], map[], map[], map[], 1, Answers(false, 0), [])
  }

  // ---- Invariants ----

  /** The accounts of all requests and the bounds on those waiting. */
  ghost predicate InOrder(log: seq<Effect>, pending: map<nat, u32>, nextRequest: nat) {
    Conserved(log, pending, nextRequest) && Bounded(pending)
  }

  ghost predicate AllSound(b: Books) {
    forall u: u32 :: SoundFor(b, u)
  }

  ghost predicate SoundFor(b: Books, u: u32) {
    Sound(SliceOf(b, u))
  }

  /** A request is pending or was answered once, or has not been accepted yet. */
  ghost predicate Settled(answered: multiset<nat>, pending: map<nat, u32>, nextRequest: nat, r: nat) {
    && (r in pending ==> 1 <= r < nextRequest)
    && answered[r] == if 1 <= r < nextRequest && r !in pending then 1 else 0
  }

  /** Every request accepted so far is pending or was answered, and answered once. */
  ghost predicate Conserved(log: seq<Effect>, pending: map<nat, u32>, nextRequest: nat) {
    forall r: nat :: Settled(AnsweredIn(log), pending, nextRequest, r)
  }

  ghost predicate Bounded(pending: map<nat, u32>) {
    && |pending| <= MAX_PENDING
    && forall u: u32 :: BoundedFor(pending, u)
  }

  ghost predicate BoundedFor(pending: map<nat, u32>, u: u32) {
    |PendingOf(pending, u)| <= MAX_PENDING_PER_USER
  }

  lemma SubsetIsSmaller<T>(a: set<T>, b: set<T>)
    requires a <= b
    ensures |a| <= |b|
  {
    assert b == a + (b - a);
  }

  /** A step of one user changes the pending requests of that user only. */
  lemma StepPending(a: Books, b: Books, u: u32, step: Step)
    requires Steps(a, b, u, step)
    ensures forall r :: r in b.pending <==> (r in a.pending && a.pending[r] != u) || r in step.slice.pending
    ensures forall r :: r in b.pending ==> b.pending[r] == if r in step.slice.pending then u else a.pending[r]
  {
    assert step.slice.pending == PendingOf(b.pending, u);
    forall r | r in b.pending && b.pending[r] != u
      ensures r in a.pending && a.pending[r] == b.pending[r]
    {
      assert Untouched(a, b, b.pending[r]);
      assert r in PendingOf(b.pending, b.pending[r]);
    }
    forall r | r in a.pending && a.pending[r] != u
      ensures r in b.pending && b.pending[r] == a.pending[r]
    {
      assert Untouched(a, b, a.pending[r]);
      assert r in PendingOf(a.pending, a.pending[r]);
    }
  }

  lemma SettledStep(answered: multiset<nat>, newly: multiset<nat>, before: map<nat, u32>, after: map<nat, u32>, u: u32,
                    start: set<nat>, left: set<nat>, n: nat, m: nat, r: nat)
    requires Settled(answered, before, n, r) && Accounts(start, left, newly)
    requires r in after <==> (r in before && before[r] != u) || r in left
    requires if m == n then start == PendingOf(before, u) else m == n + 1 && n >= 1 && start == PendingOf(before, u) + {n}
    ensures Settled(answered + newly, after, m, r)
  {
    assert newly[r] == if r in start && r !in left then 1 else 0;
    assert r in start <==> (r in before && before[r] == u) || (m != n && r == n);
  }

  /** A step that accounts for the requests of its user keeps the accounts of all. */
  lemma AccountedStep(log: seq<Effect>, effects: seq<Effect>, before: map<nat, u32>, after: map<nat, u32>, u: u32,
                      start: set<nat>, left: set<nat>, n: nat, m: nat)
    requires Conserved(log, before, n) && Accounts(start, left, AnsweredIn(effects))
    requires forall r :: r in after <==> (r in before && before[r] != u) || r in left
    requires if m == n then start == PendingOf(before, u) else m == n + 1 && n >= 1 && start == PendingOf(before, u) + {n}
    ensures Conserved(log + effects, after, m)
  {
    AnsweredConcat(log, effects);
    forall r: nat
      ensures Settled(AnsweredIn(log + effects), after, m, r)
    {
      assert Settled(AnsweredIn(log), before, n, r);
      SettledStep(AnsweredIn(log), AnsweredIn(effects), before, after, u, start, left, n, m, r);
    }
  }

  /** The bounds hold as long as at most one request is added, and only below the bounds. */
  lemma BoundedStep(a: Books, b: Books, u: u32, step: Step, added: set<nat>)
    requires Bounded(a.pending) && Steps(a, b, u, step) && step.slice.pending <= PendingOf(a.pending, u) + added
    requires added == {} || (|added| == 1 && |a.pending| < MAX_PENDING && |PendingOf(a.pending, u)| < MAX_PENDING_PER_USER)
    ensures Bounded(b.pending)
  {
    StepPending(a, b, u, step);
    SubsetIsSmaller(b.pending.Keys, a.pending.Keys + added);
    SubsetIsSmaller(step.slice.pending, PendingOf(a.pending, u) + added);
    forall v: u32
      ensures BoundedFor(b.pending, v)
    {
      assert SliceOf(b, v).pending == PendingOf(b.pending, v);
      if v == u {
        assert BoundedFor(a.pending, u);
      } else {
        assert BoundedFor(a.pending, v) && Untouched(a, b, v);
      }
    }
  }

  /** Any step other than one by which a request joins keeps the accounts and the bounds. */
  lemma StepKeepsAccounts(a: Books, b: Books, u: u32, op: Op, w: Answers, nextRequest: nat)
    requires InOrder(a.log, a.pending, nextRequest) && !op.Join?
    requires Took(a, b, u, op, w)
    ensures InOrder(b.log, b.pending, nextRequest)
  {
    var step := Perform(SliceOf(a, u), a.next, w, op);
    TookIsSteps(a, b, u, op, w);
    PerformAccounts(SliceOf(a, u), a.next, w, op);
    StepPending(a, b, u, step);
    AccountedStep(a.log, step.effects, a.pending, b.pending, u, PendingOf(a.pending, u), step.slice.pending, nextRequest, nextRequest);
    BoundedStep(a, b, u, step, {});
  }

  lemma StepKeepsAllSound(a: Books, b: Books, u: u32, op: Op, w: Answers)
    requires AllSound(a) && Allowed(SliceOf(a, u), op)
    requires Took(a, b, u, op, w)
    ensures AllSound(b)
  {
    forall v: u32
      ensures SoundFor(b, v)
    {
      assert SoundFor(a, v) && TookAsFor(a, b, u, op, w, v);
      if v == u {
        PerformKeepsSound(SliceOf(a, u), a.next, w, op);
      }
    }
  }

  /** A request joins under the next number, within the bounds. */
  lemma JoinKeepsAccounts(a: Books, b: Books, u: u32, w: Answers, r: nat)
    requires r >= 1 && InOrder(a.log, a.pending, r)
    requires |a.pending| < MAX_PENDING && |PendingOf(a.pending, u)| < MAX_PENDING_PER_USER
    requires Took(a, b, u, Join(r), w)
    ensures InOrder(b.log, b.pending, r + 1)
  {
    var step := Perform(SliceOf(a, u), a.next, w, Join(r));
    TookIsSteps(a, b, u, Join(r), w);
    PerformAccounts(SliceOf(a, u), a.next, w, Join(r));
    JoinedStep(a, b, u, step, r);
    BoundedStep(a, b, u, step, {r});
  }

  lemma JoinedStep(a: Books, b: Books, u: u32, step: Step, r: nat)
    requires r >= 1 && Conserved(a.log, a.pending, r) && Steps(a, b, u, step)
    requires Accounts(PendingOf(a.pending, u) + {r}, step.slice.pending, AnsweredIn(step.effects))
    ensures Conserved(b.log, b.pending, r + 1)
  {
    StepPending(a, b, u, step);
    AccountedStep(a.log, step.effects, a.pending, b.pending, u, PendingOf(a.pending, u) + {r}, step.slice.pending, r, r + 1);
  }

  lemma OutsideIsOutside(a: Books, w: Answers)
    requires AllSound(a)
    ensures AllSound(a.(outside := w))
  {
    forall u: u32
      ensures SoundFor(a.(outside := w), u)
    {
      assert SoundFor(a, u) && SliceOf(a.(outside := w), u) == SliceOf(a, u);
    }
  }

  /** Any step but a joining one keeps everything; shutdown is a separate phase. */
  lemma StepKeepsBooks(a: Books, b: Books, u: u32, op: Op, w: Answers, nextRequest: nat)
    requires AllSound(a) && InOrder(a.log, a.pending, nextRequest) && Took(a, b, u, op, w)
    requires !op.Join? && !op.StopAll?
    ensures AllSound(b) && InOrder(b.log, b.pending, nextRequest)
  {
    StepKeepsAllSound(a, b, u, op, w);
    StepKeepsAccounts(a, b, u, op, w, nextRequest);
  }

  /** Only joining adds a request. */
  lemma StepShrinks(a: Books, b: Books, u: u32, op: Op, w: Answers)
    requires Took(a, b, u, op, w) && !op.Join?
    ensures b.pending.Keys <= a.pending.Keys && |b.pending| <= |a.pending|
    ensures forall v: u32 :: |PendingOf(b.pending, v)| <= |PendingOf(a.pending, v)|
  {
    var step := Perform(SliceOf(a, u), a.next, w, op);
    TookIsSteps(a, b, u, op, w);
    PerformAccounts(SliceOf(a, u), a.next, w, op);
    StepPending(a, b, u, step);
    SubsetIsSmaller(b.pending.Keys, a.pending.Keys);
    forall v: u32
      ensures |PendingOf(b.pending, v)| <= |PendingOf(a.pending, v)|
    {
      SubsetIsSmaller(PendingOf(b.pending, v), PendingOf(a.pending, v));
    }
  }

  lemma ExpiredIsGone(a: Books, b: Books, u: u32, request: nat, w: Answers)
    requires AllSound(a) && Took(a, b, u, Expire(request), w) && request in a.pending && a.pending[request] == u
    ensures request !in b.pending
  {
    assert SoundFor(a, u);
    TookIsSteps(a, b, u, Expire(request), w);
    ExpireKeepsSound(SliceOf(a, u), a.next, w, request);
    StepPending(a, b, u, Perform(SliceOf(a, u), a.next, w, Expire(request)));
  }

  lemma NewNumberIsFree(log: seq<Effect>, pending: map<nat, u32>, nextRequest: nat, u: u32)
    requires Conserved(log, pending, nextRequest)
    ensures nextRequest !in pending && nextRequest !in PendingOf(pending, u)
  {
    assert Settled(AnsweredIn(log), pending, nextRequest, nextRequest);
  }

  /** A request that is answered outside of any step is accounted for, too. */
  lemma ReplyKeepsConserved(log: seq<Effect>, pending: map<nat, u32>, nextRequest: nat, r: nat, reply: Answer)
    requires Conserved(log, pending, nextRequest) && r in pending
    ensures Conserved(log + [Answered(r, reply)], pending - {r}, nextRequest)
  {
    AnsweredConcat(log, [Answered(r, reply)]);
    assert [Answered(r, reply)][1..] == [];
    assert AnsweredIn([Answered(r, reply)]) == multiset{r};
    forall q: nat
      ensures Settled(AnsweredIn(log + [Answered(r, reply)]), pending - {r}, nextRequest, q)
    {
      assert Settled(AnsweredIn(log), pending, nextRequest, q);
    }
  }

  // ---- Courses of steps ----

  /** The same slices, next generation and log; the maps may differ in users of whom nothing is known. */
  ghost predicate Same(a: Books, b: Books) {
    (forall u: u32 :: Untouched(a, b, u)) && a.next == b.next && a.log == b.log
  }

  lemma SameTwice(a: Books, b: Books, c: Books)
    requires Same(a, b) && Same(b, c)
    ensures Same(a, c)
  {
    forall u: u32
      ensures Untouched(a, c, u)
    {
      assert Untouched(a, b, u) && Untouched(b, c, u);
    }
  }

  /** A step that some user took, with the books and the next request number it led to. */
  datatype Act = Act(user: u32, op: Op, world: Answers, after: Books, number: nat)

  function NumberAfter(n: nat, op: Op): nat {
    if op.Join? then n + 1 else n
  }

  /** From the books `a`, with `n` the next request number, the step may be taken. */
  ghost predicate MayAct(a: Books, n: nat, act: Act) {
    && Took(a, act.after, act.user, act.op, act.world) && Allowed(SliceOf(a, act.user), act.op)
    && (act.op.Join? ==> act.op.request == n) && act.number == NumberAfter(n, act.op)
  }

  /** The books and the next request number before the `i`-th step. */
  function BooksAt(a: Books, acts: seq<Act>, i: nat): Books
    requires i <= |acts|
  {
    if i == 0 then a else acts[i - 1].after
  }

  function NumberAt(n: nat, acts: seq<Act>, i: nat): nat
    requires i <= |acts|
  {
    if i == 0 then n else acts[i - 1].number
  }

  ghost predicate LawfulAt(a: Books, n: nat, acts: seq<Act>, i: nat)
    requires i < |acts|
  {
    MayAct(BooksAt(a, acts, i), NumberAt(n, acts, i), acts[i])
  }

  /** The steps lead, one after the other, from `a` with the next request number `n` to `b` with `m`. */
  ghost predicate Lawful(a: Books, n: nat, acts: seq<Act>, b: Books, m: nat) {
    && (forall i :: 0 <= i < |acts| ==> LawfulAt(a, n, acts, i))
    && Same(BooksAt(a, acts, |acts|), b) && m == NumberAt(n, acts, |acts|)
  }

  lemma MayActAlike(a: Books, b: Books, n: nat, act: Act)
    requires Same(a, b) && MayAct(b, n, act)
    ensures MayAct(a, n, act)
  {
    assert Untouched(a, b, act.user);
    forall v: u32
      ensures TookAsFor(a, act.after, act.user, act.op, act.world, v)
    {
      assert Untouched(a, b, v) && TookAsFor(b, act.after, act.user, act.op, act.world, v);
    }
  }

  /** Courses can be put together. */
  lemma LawfulThen(a: Books, n: nat, p: seq<Act>, b: Books, m: nat, q: seq<Act>, c: Books, k: nat)
    requires Lawful(a, n, p, b, m) && Lawful(b, m, q, c, k)
    ensures Lawful(a, n, p + q, c, k)
  {
    forall i | 0 <= i < |p + q|
      ensures LawfulAt(a, n, p + q, i)
    {
      if i < |p| {
        assert LawfulAt(a, n, p, i);
      } else {
        assert LawfulAt(b, m, q, i - |p|);
        if i == |p| {
          MayActAlike(BooksAt(a, p, i), b, m, q[0]);
        }
      }
    }
    if q == [] {
      assert p + q == p;
      SameTwice(BooksAt(a, p, |p|), b, c);
    }
  }

  lemma LawfulFromSame(a: Books, b: Books, n: nat, acts: seq<Act>, c: Books, m: nat)
    requires Same(a, b) && Lawful(b, n, acts, c, m)
    ensures Lawful(a, n, acts, c, m)
  {
    LawfulThen(a, n, [], b, n, acts, c, m);
    assert [] + acts == acts;
  }

  lemma LawfulToSame(a: Books, n: nat, acts: seq<Act>, b: Books, m: nat, c: Books)
    requires Lawful(a, n, acts, b, m) && Same(b, c)
    ensures Lawful(a, n, acts, c, m)
  {
    LawfulThen(a, n, acts, b, m, [], c, m);
    assert acts + [] == acts;
  }

  /** A course begins with its first step, and the others are a course from there. */
  lemma LawfulRest(a: Books, n: nat, acts: seq<Act>, b: Books, m: nat)
    requires Lawful(a, n, acts, b, m) && acts != []
    ensures MayAct(a, n, acts[0]) && Lawful(acts[0].after, acts[0].number, acts[1..], b, m)
  {
    assert LawfulAt(a, n, acts, 0);
    forall i | 0 <= i < |acts[1..]|
      ensures LawfulAt(acts[0].after, acts[0].number, acts[1..], i)
    {
      assert LawfulAt(a, n, acts, i + 1);
    }
  }

  lemma OneAct(a: Books, n: nat, act: Act)
    requires MayAct(a, n, act)
    ensures Lawful(a, n, [act], act.after, act.number)
  {
    forall i | 0 <= i < |[act]|
      ensures LawfulAt(a, n, [act], i)
    {
    }
  }

  lemma OtherOutsideIsSame(a: Books, w: Answers)
    ensures Same(a, a.(outside := w)) && Same(a.(outside := w), a)
  {
    forall u: u32
      ensures Untouched(a, a.(outside := w), u) && Untouched(a.(outside := w), a, u)
    {
      assert SliceOf(a.(outside := w), u) == SliceOf(a, u);
    }
  }

  // ---- Shutdown ----

  /** A user for whom shutdown has begun: nobody waits with the machine, and nothing will be started. */
  ghost predicate Stopped(s: Slice) {
    && Agree(s) && WaitersMatch(s)
    && match s.machine.state
       case Absent => true
       case Stopping(_, restart) => !restart && s.machine.eligible == 0 && s.machine.waiters == []
       case _ => false
  }

  /** The helper of generation `g` was told, or could not be told. */
  predicate Told(effects: seq<Effect>, g: nat) {
    Sent(g, Shutdown) in effects || SendFailed(g, Shutdown) in effects
  }

  /** What a shutdown may show: helpers are told to leave, and whoever waits is refused. */
  predicate Closing(e: Effect) {
    match e
    case Sent(_, c) => c.Shutdown?
    case SendFailed(_, c) => c.Shutdown?
    case Answered(_, reply) => reply == ErrorReply(ErrorCode.Internal)
    case _ => false
  }

  predicate AllClosing(effects: seq<Effect>) {
    forall e :: e in effects ==> Closing(e)
  }

  lemma {:induction false} ActionsClose(s: Slice, next: nat, w: Answers, actions: seq<Action>)
    requires forall a :: a in actions ==> a.ShutdownHelper? || (a.AnswerError? && a.code == ErrorCode.Internal)
    ensures AllClosing(ApplyAll(s, next, w, actions).effects)
    decreases |actions|
  {
    if actions == [] {
    } else {
      var first := Apply(s, next, w, actions[0]);
      assert actions[0] in actions;
      if actions[0].AnswerError? {
        AnswerAllOnlyAnswers(s, next, w, actions[0].requests, ErrorReply(ErrorCode.Internal));
      }
      ActionsClose(first.slice, first.next, first.answers, actions[1..]);
    }
  }

  lemma StopAllCloses(s: Slice, next: nat, w: Answers)
    ensures AllClosing(Perform(s, next, w, StopAll).effects)
  {
    var outcome := BeginShutdown(s.machine);
    ActionsClose(s.(machine := outcome.machine), next, w, outcome.actions);
  }

  lemma StopAllStops(s: Slice, next: nat, w: Answers)
    requires Agree(s) && WaitersMatch(s)
    ensures var step := Perform(s, next, w, StopAll);
            && Stopped(step.slice) && step.slice.helper == s.helper
            && (s.helper.Some? ==> Told(step.effects, s.helper.value.generation))
  {
    var outcome := BeginShutdown(s.machine);
    var stopped := s.(machine := outcome.machine);
    if s.helper.Some? {
      var g := s.helper.value.generation;
      StepWithHelper(s, next, w, StopAll, g);
      var stop := ShutdownHelper(g);
      if s.machine.waiters == [] {
        assert outcome.actions == [stop];
        ApplyOne(stopped, next, w, stop);
      } else {
        var refusal := AnswerError(s.machine.waiters, ErrorCode.Internal);
        assert outcome.actions == [stop, refusal];
        ApplyTwo(stopped, next, w, stop, refusal);
        var first := Apply(stopped, next, w, stop);
        ApplyKeeps(first.slice, first.next, first.answers, refusal);
        assert s.pending - (set r | r in s.machine.waiters) == {};
      }
    }
  }

  lemma GoneStaysStopped(s: Slice, next: nat, w: Answers, g: nat)
    requires Stopped(s)
    ensures var step := Perform(s, next, w, HelperGone(g));
            Stopped(step.slice) && step.next == next && step.effects == []
            && (step.slice.helper == None || step.slice.helper == s.helper)
  {
  }

  /** While users are told to stop one by one, those in `todo` are as they were. */
  ghost predicate Winding(start: Books, now: Books, todo: set<u32>) {
    && (forall v: u32 :: WindingOf(start, now, todo, v))
    && OnlyCloses(start.log, now.log)
  }

  /** All that was shown since is what a shutdown may show. */
  predicate OnlyCloses(before: seq<Effect>, after: seq<Effect>) {
    before <= after && AllClosing(after[|before|..])
  }

  lemma ClosesMore(before: seq<Effect>, after: seq<Effect>, effects: seq<Effect>)
    requires OnlyCloses(before, after) && AllClosing(effects)
    ensures OnlyCloses(before, after + effects)
  {
    assert (after + effects)[|before|..] == after[|before|..] + effects;
  }

  ghost predicate WindingOf(start: Books, now: Books, todo: set<u32>, v: u32) {
    && SliceOf(now, v).helper == SliceOf(start, v).helper
    && if v in todo then SliceOf(now, v) == SliceOf(start, v)
       else
         && Stopped(SliceOf(now, v))
         && (SliceOf(now, v).helper.Some? ==> Told(now.log, SliceOf(now, v).helper.value.generation))
  }

  lemma WindingBegins(start: Books)
    requires AllSound(start)
    ensures Winding(start, start, start.machines.Keys)
  {
    forall v: u32
      ensures WindingOf(start, start, start.machines.Keys, v)
    {
      assert SoundFor(start, v);
    }
  }

  lemma WindingStep(start: Books, before: Books, now: Books, todo: set<u32>, u: u32, w: Answers)
    requires AllSound(start) && Winding(start, before, todo) && u in todo && Took(before, now, u, StopAll, w)
    ensures Winding(start, now, todo - {u})
  {
    WindingIsReady(start, before, todo, u);
    StopAllStops(SliceOf(before, u), before.next, w);
    StopAllCloses(SliceOf(before, u), before.next, w);
    TookIsSteps(before, now, u, StopAll, w);
    ClosesMore(start.log, before.log, Perform(SliceOf(before, u), before.next, w, StopAll).effects);
    forall v: u32
      ensures WindingOf(start, now, todo - {u}, v)
    {
      assert WindingOf(start, before, todo, v) && (v != u ==> Untouched(before, now, v));
    }
  }

  lemma WindingIsReady(start: Books, now: Books, todo: set<u32>, u: u32)
    requires AllSound(start) && Winding(start, now, todo)
    ensures Agree(SliceOf(now, u)) && WaitersMatch(SliceOf(now, u))
  {
    assert WindingOf(start, now, todo, u) && SoundFor(start, u);
  }

  lemma WindingAnyOutside(start: Books, now: Books, todo: set<u32>, w: Answers)
    requires Winding(start, now, todo)
    ensures Winding(start, now.(outside := w), todo)
  {
    forall v: u32
      ensures WindingOf(start, now.(outside := w), todo, v)
    {
      assert WindingOf(start, now, todo, v);
      assert SliceOf(now.(outside := w), v) == SliceOf(now, v);
    }
  }

  ghost predicate AllStopped(b: Books) {
    forall u: u32 :: Stopped(SliceOf(b, u))
  }

  lemma EveryoneWasTold(start: Books, now: Books)
    requires Winding(start, now, {})
    ensures AllStopped(now)
    ensures OnlyCloses(start.log, now.log)
    ensures forall u :: u in start.helpers ==> Told(now.log, start.helpers[u].generation)
  {
    forall u: u32
      ensures Stopped(SliceOf(now, u)) && (u in start.helpers ==> Told(now.log, start.helpers[u].generation))
    {
      assert WindingOf(start, now, {}, u);
    }
  }

  lemma StoppedStep(a: Books, b: Books, u: u32, g: nat, w: Answers)
    requires AllStopped(a) && Took(a, b, u, HelperGone(g), w)
    ensures AllStopped(b) && b.log == a.log
  {
    assert Stopped(SliceOf(a, u));
    GoneStaysStopped(SliceOf(a, u), a.next, w, g);
    TookIsSteps(a, b, u, HelperGone(g), w);
    forall v: u32
      ensures Stopped(SliceOf(b, v))
    {
      assert Stopped(SliceOf(a, v)) && (v != u ==> Untouched(a, b, v));
    }
  }
}
