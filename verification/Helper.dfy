/**
  The per-user helper process as an automaton over what it does to the outside: PAM and lock calls,
  messages, commands taken from the control socket, and the life of its manager child.

  `May` says what the helper can do next and `After` what that leads to. The class `Supervisor`
  shows that the helper's code does nothing else; this module shows what follows for every run.
 */
module Helpers {
  import opened Prelude
  import opened Messages

  /** How far the current lease and start attempt have been reported to the daemon. */
  datatype Phase = Boot | AwaitAccept | Idle | Launching | Spawned | Payload | Failing | Running

  datatype Lease = NoLease | Begun | Open | SessionClosed | Ended

  datatype LockState = Unlocked | Locked | Released

  datatype Course = Staying | Leaving | Gone

  /** Whether a wait for a child has failed, and with it the attempt to stop the current manager. */
  datatype Waits = NoneFailed | SomeFailed | StopFailed

  /** A send that failed makes all later ones fail; the last message is one of two. */
  datatype Voice = Speaking | Muted | Finished

  datatype Helper = Helper(
    phase: Phase,
    serial: nat,              // start commands taken so far
    course: Course,           // once leaving, it takes no more commands
    manager: bool,            // owns a forked manager that is not reaped yet
    waits: Waits,
    readySerials: set<nat>,   // attempts whose ready action exited with 0
    lease: Lease,
    lock: LockState,
    voice: Voice)
  {
    predicate Closing() {
      !course.Staying?
    }

    /** The daemon's acceptance of the lease was taken. */
    predicate Accepted() {
      !phase.Boot? && !phase.AwaitAccept?
    }
  }

  const START := Helper(Boot, 0, Staying, false, NoneFailed, {}, NoLease, Unlocked, Speaking)

  datatype Event =
    | TakeLock
    | BeginPam
    | OpenSession
    | CloseSession
    | EndPam
    | DropLock
    | Exit
    | Say(message: Report)
    | SayFails
    | Obey(command: Command)
    | HangUp
    | GiveUp
    | Fork
    | Reap
    | WaitFails
    | StopFails
    | Abandon
    | ReadyExitsZero

  /** The points at which commands are read. */
  predicate Listening(h: Helper) {
    !h.Closing() && !h.waits.StopFailed? && (h.phase.AwaitAccept? || h.phase.Idle? || h.phase.Spawned? || h.phase.Payload? || h.phase.Running?)
  }

  /** A manager has been reported as spawned and not yet as exited. */
  predicate HasStarted(phase: Phase) {
    phase.Spawned? || phase.Payload? || phase.Running?
  }

  predicate MaySay(h: Helper, m: Report) {
    match m
    case LeaseOpened(_, _) => h.phase.Boot? && h.lease.Open? && !h.Closing()
    case ManagerSpawned(_) => h.phase.Launching? && h.manager && !h.Closing()
    case ReadinessPayload(_) => h.phase.Spawned? && h.manager && !h.Closing() && !h.waits.StopFailed?
    case ReadySucceeded => h.phase.Payload? && h.manager && h.serial in h.readySerials && !h.Closing() && !h.waits.StopFailed?
    case ManagerExited(_) => HasStarted(h.phase) && !h.manager && !h.waits.StopFailed?
    case StartFailed(_) =>
      && !h.manager && !h.Closing()
      && (h.phase.Launching? || h.phase.Failing? || ((h.phase.Spawned? || h.phase.Payload?) && h.waits.StopFailed?))
    case ShutdownComplete =>
      && h.Closing() && h.Accepted() && h.lease.Ended?
      && (h.phase.Idle? || h.phase.Launching? || h.phase.Failing? || ((h.phase.Spawned? || h.phase.Payload?) && h.waits.StopFailed?))
    case Fatal(_) => h.phase.Boot? && h.Closing()
  }

  predicate May(h: Helper, e: Event) {
    && !h.course.Gone?
    && match e
       case TakeLock => h.lock.Unlocked? && h.phase.Boot? && !h.Closing()
       case BeginPam => h.lock.Locked? && h.lease.NoLease? && h.phase.Boot? && !h.Closing()
       case OpenSession => h.lease.Begun? && h.phase.Boot? && !h.Closing()
       case CloseSession => h.lease.Open? && h.Closing() && !h.manager
       case EndPam => (h.lease.Begun? || h.lease.SessionClosed?) && h.Closing()
       case DropLock => h.lock.Locked? && h.Closing() && (h.lease.NoLease? || h.lease.Ended?)
       case Exit => h.Closing() && !h.lock.Locked? && (h.lease.NoLease? || h.lease.Ended?)
       case Say(m) => h.voice.Speaking? && MaySay(h, m)
       case SayFails => h.voice.Speaking?
       case Obey(_) => Listening(h)
       case HangUp => Listening(h)
       case GiveUp => !h.Closing()
       case Fork => h.phase.Launching? && !h.manager && !h.Closing()
       case Reap => h.manager
       case WaitFails => h.waits.NoneFailed?
       case StopFails => h.manager && h.waits.SomeFailed? && HasStarted(h.phase)
       case Abandon => h.manager && !h.waits.NoneFailed?
       case ReadyExitsZero => h.phase.Payload? && h.manager && !h.Closing() && !h.waits.StopFailed? && h.serial !in h.readySerials
  }

  /** The phase after a message; messages alone determine it, except for the commands taken. */
  function PhaseAfter(phase: Phase, m: Report): Phase {
    match m
    case LeaseOpened(_, _) => AwaitAccept
    case ManagerSpawned(_) => Spawned
    case ReadinessPayload(_) => Payload
    case ReadySucceeded => Running
    case ManagerExited(_) => if phase.Running? then Idle else Failing
    case StartFailed(_) => Idle
    case _ => phase
  }

  /**
    Commands that make the helper leave: during a start attempt only `Shutdown`, otherwise any that
    does not belong where it is read, except that there may be no manager to stop.
   */
  predicate MakesLeave(phase: Phase, c: Command) {
    || c.Shutdown?
    || (c.StopManager? && phase.AwaitAccept?)
    || (!c.StopManager? && !phase.Spawned? && !phase.Payload?)
  }

  function AfterCommand(h: Helper, c: Command): (r: Helper)
    ensures r == h.(phase := r.phase, serial := r.serial, course := r.course)
    ensures r.serial >= h.serial && (h.course.Leaving? ==> r.course.Leaving?) && r.Accepted() == (h.Accepted() || r.phase.Idle?)
  {
    if h.phase.AwaitAccept? && c.LeaseAccepted? then h.(phase := Idle)
    else if h.phase.Idle? && c.StartManager? then h.(phase := Launching, serial := h.serial + 1)
    else if MakesLeave(h.phase, c) then h.(course := Leaving)
    else h
  }

  function AfterMessage(h: Helper, m: Report): Helper {
    h.(phase := PhaseAfter(h.phase, m),
       waits := if m.StartFailed? && h.waits.StopFailed? then SomeFailed else h.waits,
       voice := if m.ShutdownComplete? || m.Fatal? then Finished else h.voice)
  }

  function After(h: Helper, e: Event): Helper {
    match e
    case TakeLock => h.(lock := Locked)
    case BeginPam => h.(lease := Begun)
    case OpenSession => h.(lease := Open)
    case CloseSession => h.(lease := SessionClosed)
    case EndPam => h.(lease := Ended)
    case DropLock => h.(lock := Released)
    case Exit => h.(course := Gone)
    case Say(m) => AfterMessage(h, m)
    case SayFails => h.(voice := Muted)
    case Obey(c) => AfterCommand(h, c)
    case HangUp => h.(course := Leaving)
    case GiveUp => h.(course := Leaving)
    case Fork => h.(manager := true)
    case Reap => h.(manager := false)
    case WaitFails => h.(waits := SomeFailed)
    case StopFails => h.(waits := Waits.StopFailed)
    case Abandon => h.(manager := false)
    case ReadyExitsZero => h.(readySerials := h.readySerials + {h.serial})
  }

  // ---- Runs ----

  /** `trace` is something the helper can do, starting from `h`. */
  predicate Possible(h: Helper, trace: seq<Event>)
    decreases |trace|
  {
    trace == [] || (May(h, trace[0]) && Possible(After(h, trace[0]), trace[1..]))
  }

  function Run(h: Helper, trace: seq<Event>): Helper
    decreases |trace|
  {
    if trace == [] then h else Run(After(h, trace[0]), trace[1..])
  }

  lemma {:induction false} RunConcat(h: Helper, t: seq<Event>, u: seq<Event>)
    ensures Run(h, t + u) == Run(Run(h, t), u)
    ensures Possible(h, t + u) <==> Possible(h, t) && Possible(Run(h, t), u)
    decreases |t|
  {
    if t == [] {
      assert t + u == u;
    } else {
      assert (t + u)[0] == t[0] && (t + u)[1..] == t[1..] + u;
      RunConcat(After(h, t[0]), t[1..], u);
    }
  }

  function Count(trace: seq<Event>, e: Event): nat {
    multiset(trace)[e]
  }

  /** The messages of a trace, in order. */
  function Said(trace: seq<Event>): seq<Report> {
    if trace == [] then []
    else (if trace[0].Say? then [trace[0].message] else []) + Said(trace[1..])
  }

  // ---- The lifetime of the manager ----

  predicate Pinned(h: Helper) {
    h.lease.Open? && h.Accepted()
  }

  /** After `i` events a manager may be alive: one is owned, or one was dropped without being reaped. */
  predicate MayLive(trace: seq<Event>, i: nat)
    requires i <= |trace|
  {
    Run(START, trace[..i]).manager || Abandon in trace[..i]
  }

  /** The core invariant of the project: while a manager may be alive, its verified session is open. */
  predicate LifetimeHolds(trace: seq<Event>, i: nat)
    requires i <= |trace|
  {
    MayLive(trace, i) ==> Pinned(Run(START, trace[..i]))
  }

  predicate Consistent(h: Helper) {
    && (!h.phase.Boot? && !h.Closing() ==> h.lease.Open?)
    && (!h.phase.Boot? ==> h.lease.Open? || h.lease.SessionClosed? || h.lease.Ended?)
    && (h.lease.SessionClosed? || h.lease.Ended? ==> h.Closing())
    && (h.manager ==> Pinned(h) && (h.phase.Launching? || h.phase.Spawned? || h.phase.Payload? || h.phase.Running?))
    && (h.waits.StopFailed? ==> HasStarted(h.phase))
    && (!h.lease.NoLease? ==> h.lock.Locked? || h.lease.Ended?)
    && (h.lock.Released? ==> h.Closing() && (h.lease.NoLease? || h.lease.Ended?))
    && (h.course.Gone? ==> h.Closing() && !h.lock.Locked? && (h.lease.NoLease? || h.lease.Ended?))
  }

  lemma EventKeepsConsistent(h: Helper, e: Event)
    requires Consistent(h) && May(h, e)
    ensures Consistent(After(h, e))
  {
    match e
    case Obey(c) => CommandKeepsConsistent(h, c);
    case Say(m) => MessageKeepsConsistent(h, m);
    case _ =>
  }

  lemma CommandKeepsConsistent(h: Helper, c: Command)
    requires Consistent(h) && Listening(h)
    ensures Consistent(AfterCommand(h, c))
  {
  }

  lemma MessageKeepsConsistent(h: Helper, m: Report)
    requires Consistent(h) && May(h, Say(m))
    ensures Consistent(After(h, Say(m)))
  {
  }

  lemma {:induction false} RunKeepsConsistent(h: Helper, trace: seq<Event>)
    requires Consistent(h) && Possible(h, trace)
    ensures Consistent(Run(h, trace))
    decreases |trace|
  {
    if trace == [] {
    } else {
      EventKeepsConsistent(h, trace[0]);
      RunKeepsConsistent(After(h, trace[0]), trace[1..]);
    }
  }

  /** Splits a run after its first `i` events. */
  lemma RunSplit(h: Helper, trace: seq<Event>, i: nat)
    requires i <= |trace| && Possible(h, trace)
    ensures Possible(h, trace[..i]) && Possible(Run(h, trace[..i]), trace[i..])
    ensures Run(h, trace) == Run(Run(h, trace[..i]), trace[i..])
  {
    assert trace == trace[..i] + trace[i..];
    RunConcat(h, trace[..i], trace[i..]);
  }

  /** In every run an owned manager has an accepted lease open, and the lock is held until all is closed. */
  lemma ManagerIsPinned(trace: seq<Event>)
    requires Possible(START, trace)
    ensures var h := Run(START, trace);
            && (h.manager ==> Pinned(h) && h.lock.Locked?)
            && (h.lock.Released? || h.course.Gone? ==> !h.manager && (h.lease.NoLease? || h.lease.Ended?))
  {
    RunKeepsConsistent(START, trace);
  }

  /**
    The lifetime invariant holds throughout a finished run exactly when the kernel never refused to
    reap a manager that was being dropped.
   */
  lemma LifetimeHoldsIffNothingAbandoned(trace: seq<Event>)
    requires Possible(START, trace) && Run(START, trace).course.Gone?
    ensures (forall i :: 0 <= i <= |trace| ==> LifetimeHolds(trace, i)) <==> Abandon !in trace
  {
    if Abandon in trace {
      RunKeepsConsistent(START, trace);
      assert trace[..|trace|] == trace;
      assert !LifetimeHolds(trace, |trace|);
    } else {
      forall i | 0 <= i <= |trace|
        ensures LifetimeHolds(trace, i)
      {
        RunSplit(START, trace, i);
        RunKeepsConsistent(START, trace[..i]);
      }
    }
  }

  lemma RunOneMore(h: Helper, trace: seq<Event>, e: Event)
    requires Possible(h, trace) && May(Run(h, trace), e)
    ensures Possible(h, trace + [e]) && Run(h, trace + [e]) == After(Run(h, trace), e)
  {
    RunConcat(h, trace, [e]);
    assert [e][1..] == [];
  }

  /** After `k` events of a possible run from `h` the helper is as `g`. */
  predicate Reaches(h: Helper, trace: seq<Event>, k: nat, g: Helper)
    requires k <= |trace|
  {
    Possible(h, trace[..k]) && Run(h, trace[..k]) == g
  }

  lemma ReachMore(h: Helper, trace: seq<Event>, k: nat, g: Helper)
    requires k < |trace| && Reaches(h, trace, k, g) && May(g, trace[k])
    ensures Reaches(h, trace, k + 1, After(g, trace[k]))
  {
    RunOneMore(h, trace[..k], trace[k]);
    assert trace[..k + 1] == trace[..k] + [trace[k]];
  }

  /** What a helper sends has no empty text, and a lease comes with an absolute path. */
  predicate Speakable(m: Report) {
    match m
    case LeaseOpened(id, dir) => id != "" && dir != "" && dir[0] == '/'
    case ReadinessPayload(text) => text != ""
    case StartFailed(text) => text != ""
    case Fatal(text) => text != ""
    case _ => true
  }

  const LEASE: Report := LeaseOpened("c2", "/run/user/1000")

  /** The shortest way to a manager: boot, lease accepted, first start command taken, fork. */
  const LAUNCHING_RUN: seq<Event> :=
    [TakeLock, BeginPam, OpenSession, Say(LEASE), Obey(LeaseAccepted), Obey(StartManager(1)), Fork]

  const BOOTED := START.(phase := AwaitAccept, lease := Open, lock := Locked)
  const LAUNCHED := BOOTED.(phase := Launching, serial := 1, manager := true)

  lemma BootIsPossible(trace: seq<Event>)
    requires |trace| >= 4 && trace[..4] == [TakeLock, BeginPam, OpenSession, Say(LEASE)]
    ensures Reaches(START, trace, 4, BOOTED)
  {
    assert forall k :: 0 <= k < 4 ==> trace[k] == trace[..4][k];
    assert Reaches(START, trace, 0, START);
    ReachMore(START, trace, 0, START);
    ReachMore(START, trace, 1, START.(lock := Locked));
    ReachMore(START, trace, 2, START.(lock := Locked, lease := Begun));
    ReachMore(START, trace, 3, START.(lock := Locked, lease := Open));
  }

  lemma LaunchIsPossible(trace: seq<Event>)
    requires |trace| >= 7 && trace[..7] == LAUNCHING_RUN
    ensures Reaches(START, trace, 7, LAUNCHED)
  {
    assert forall k :: 0 <= k < 7 ==> trace[k] == trace[..7][k];
    assert trace[..4] == LAUNCHING_RUN[..4];
    BootIsPossible(trace);
    TakeAndFork(trace);
  }

  lemma TakeAndFork(trace: seq<Event>)
    requires |trace| >= 7 && Reaches(START, trace, 4, BOOTED)
    requires trace[4] == Obey(LeaseAccepted) && trace[5] == Obey(StartManager(1)) && trace[6] == Fork
    ensures Reaches(START, trace, 7, LAUNCHED)
  {
    ReachMore(START, trace, 4, BOOTED);
    ReachMore(START, trace, 5, BOOTED.(phase := Idle));
    ForkIsPossible(trace);
  }

  lemma ForkIsPossible(trace: seq<Event>)
    requires |trace| >= 7 && Reaches(START, trace, 6, BOOTED.(phase := Launching, serial := 1)) && trace[6] == Fork
    ensures Reaches(START, trace, 7, LAUNCHED)
  {
    ReachMore(START, trace, 6, BOOTED.(phase := Launching, serial := 1));
  }

  /**
    A run in which the invariant fails: the report of the manager cannot be sent, the child is
    dropped, waiting for it fails, and on the way out the session is closed under it.
   */
  const ABANDONING_RUN: seq<Event> :=
    LAUNCHING_RUN + [SayFails, WaitFails, Abandon, GiveUp, CloseSession, EndPam, DropLock, Exit]

  const LEFT_ALONE := LAUNCHED.(manager := false, waits := SomeFailed, voice := Muted)
  const OUTLIVED := LEFT_ALONE.(course := Leaving, lease := SessionClosed)

  lemma AbandonmentIsPossible(trace: seq<Event>)
    requires |trace| >= 10 && Reaches(START, trace, 7, LAUNCHED)
    requires trace[7] == SayFails && trace[8] == WaitFails && trace[9] == Abandon
    ensures Reaches(START, trace, 10, LEFT_ALONE)
  {
    ReachMore(START, trace, 7, LAUNCHED);
    ReachMore(START, trace, 8, LAUNCHED.(voice := Muted));
    ReachMore(START, trace, 9, LAUNCHED.(voice := Muted, waits := SomeFailed));
  }

  lemma LeavingIsPossible(trace: seq<Event>)
    requires |trace| == 15 && Reaches(START, trace, 10, LEFT_ALONE)
    requires trace[10] == GiveUp && trace[11] == CloseSession && trace[12] == EndPam && trace[13] == DropLock && trace[14] == Exit
    ensures Reaches(START, trace, 12, OUTLIVED)
    ensures Reaches(START, trace, 15, OUTLIVED.(lease := Ended, lock := Released, course := Gone))
  {
    ReachMore(START, trace, 10, LEFT_ALONE);
    ReachMore(START, trace, 11, LEFT_ALONE.(course := Leaving));
    ClosingIsPossible(trace);
  }

  lemma ClosingIsPossible(trace: seq<Event>)
    requires |trace| == 15 && Reaches(START, trace, 12, OUTLIVED)
    requires trace[12] == EndPam && trace[13] == DropLock && trace[14] == Exit
    ensures Reaches(START, trace, 15, OUTLIVED.(lease := Ended, lock := Released, course := Gone))
  {
    ReachMore(START, trace, 12, OUTLIVED);
    ReachMore(START, trace, 13, OUTLIVED.(lease := Ended));
    ReachMore(START, trace, 14, OUTLIVED.(lease := Ended, lock := Released));
  }

  lemma AbandoningRunEvents()
    ensures var trace := ABANDONING_RUN;
            && |trace| == 15 && trace[..7] == LAUNCHING_RUN
            && trace[7] == SayFails && trace[8] == WaitFails && trace[9] == Abandon && trace[10] == GiveUp
            && trace[11] == CloseSession && trace[12] == EndPam && trace[13] == DropLock && trace[14] == Exit
  {
  }

  lemma AbandoningIsPossible(trace: seq<Event>)
    requires |trace| == 15 && trace[..7] == LAUNCHING_RUN
    requires trace[7] == SayFails && trace[8] == WaitFails && trace[9] == Abandon && trace[10] == GiveUp
    requires trace[11] == CloseSession && trace[12] == EndPam && trace[13] == DropLock && trace[14] == Exit
    ensures Reaches(START, trace, 12, OUTLIVED)
    ensures Reaches(START, trace, 15, OUTLIVED.(lease := Ended, lock := Released, course := Gone))
  {
    LaunchIsPossible(trace);
    AbandonmentIsPossible(trace);
    LeavingIsPossible(trace);
  }

  lemma OutlivedBreaksLifetime(trace: seq<Event>, i: nat)
    requires 9 < i <= |trace| && trace[9] == Abandon && Reaches(START, trace, i, OUTLIVED)
    ensures !LifetimeHolds(trace, i)
  {
    assert trace[..i][9] == Abandon;
  }

  lemma AbandonedManagerOutlivesSession()
    ensures Possible(START, ABANDONING_RUN) && Run(START, ABANDONING_RUN).course.Gone?
    ensures forall e :: e in ABANDONING_RUN && e.Say? ==> Speakable(e.message)
    ensures !LifetimeHolds(ABANDONING_RUN, 12)
  {
    AbandoningRunEvents();
    AbandoningIsPossible(ABANDONING_RUN);
    OutlivedBreaksLifetime(ABANDONING_RUN, 12);
    assert ABANDONING_RUN[..15] == ABANDONING_RUN;
  }

  /** How often each PAM call has been made, as the state of the lease tells. */
  predicate LeaseTally(lease: Lease, begun: nat, openings: nat, closed: nat, ended: nat) {
    && begun == (if lease.NoLease? then 0 else 1)
    && ended == (if lease.Ended? then 1 else 0)
    && openings <= begun
    && (lease.Begun? ==> openings == 0)
    && (lease.Open? || lease.SessionClosed? ==> openings == 1)
    && closed == (if lease.Open? then 0 else openings)
  }

  predicate LockTally(lock: LockState, taken: nat, dropped: nat) {
    taken == (if lock.Unlocked? then 0 else 1) && dropped == (if lock.Released? then 1 else 0)
  }

  predicate Tally(h: Helper, trace: seq<Event>) {
    && LeaseTally(h.lease, Count(trace, BeginPam), Count(trace, OpenSession), Count(trace, CloseSession), Count(trace, EndPam))
    && LockTally(h.lock, Count(trace, TakeLock), Count(trace, DropLock))
    && Count(trace, Fork) == Count(trace, Reap) + Count(trace, Abandon) + (if h.manager then 1 else 0)
  }

  /** How an event changes the lease, the lock and the manager. */
  predicate LeaseMoves(before: Lease, after: Lease, e: Event) {
    match e
    case BeginPam => before.NoLease? && after.Begun?
    case OpenSession => before.Begun? && after.Open?
    case CloseSession => before.Open? && after.SessionClosed?
    case EndPam => (before.Begun? || before.SessionClosed?) && after.Ended?
    case _ => after == before
  }

  predicate LockMoves(before: LockState, after: LockState, e: Event) {
    match e
    case TakeLock => before.Unlocked? && after.Locked?
    case DropLock => before.Locked? && after.Released?
    case _ => after == before
  }

  predicate ManagerMoves(before: bool, after: bool, e: Event) {
    match e
    case Fork => !before && after
    case Reap => before && !after
    case Abandon => before && !after
    case _ => after == before
  }

  lemma EventMoves(h: Helper, e: Event)
    requires May(h, e)
    ensures LeaseMoves(h.lease, After(h, e).lease, e) && LockMoves(h.lock, After(h, e).lock, e)
    ensures ManagerMoves(h.manager, After(h, e).manager, e)
  {
  }

  lemma EventKeepsTally(h: Helper, trace: seq<Event>, e: Event)
    requires Tally(h, trace) && May(h, e)
    ensures Tally(After(h, e), trace + [e])
  {
    EventMoves(h, e);
    MovesKeepTally(h, After(h, e), trace, e);
  }

  lemma MovesKeepTally(h: Helper, after: Helper, trace: seq<Event>, e: Event)
    requires Tally(h, trace) && LeaseMoves(h.lease, after.lease, e) && LockMoves(h.lock, after.lock, e)
    requires ManagerMoves(h.manager, after.manager, e)
    ensures Tally(after, trace + [e])
  {
    CountOneMore(trace, e);
    LeaseMoveIsCounted(h.lease, after.lease, trace, e);
  }

  lemma LeaseMoveIsCounted(before: Lease, after: Lease, trace: seq<Event>, e: Event)
    requires LeaseMoves(before, after, e)
    requires LeaseTally(before, Count(trace, BeginPam), Count(trace, OpenSession), Count(trace, CloseSession), Count(trace, EndPam))
    ensures var longer := trace + [e];
            LeaseTally(after, Count(longer, BeginPam), Count(longer, OpenSession), Count(longer, CloseSession), Count(longer, EndPam))
  {
    CountOneMore(trace, e);
  }

  lemma CountOneMore(trace: seq<Event>, e: Event)
    ensures forall x :: Count(trace + [e], x) == Count(trace, x) + (if x == e then 1 else 0)
  {
    assert multiset(trace + [e]) == multiset(trace) + multiset{e};
  }

  lemma {:induction false} RunKeepsTally(trace: seq<Event>)
    requires Possible(START, trace)
    ensures Tally(Run(START, trace), trace)
    decreases |trace|
  {
    if trace == [] {
    } else {
      var n := |trace| - 1;
      RunSplit(START, trace, n);
      RunKeepsTally(trace[..n]);
      RunKeepsConsistent(START, trace[..n]);
      assert trace == trace[..n] + [trace[n]] && trace[n..] == [trace[n]];
      EventKeepsTally(Run(START, trace[..n]), trace[..n], trace[n]);
      RunOneMore(START, trace[..n], trace[n]);
    }
  }

  /**
    Once the process is gone, every manager was reaped or abandoned, the PAM session was closed
    exactly as often as it was opened (at most once), and its transaction ended.
   */
  lemma FinishedRunClosedEverything(trace: seq<Event>)
    requires Possible(START, trace) && Run(START, trace).course.Gone?
    ensures Count(trace, CloseSession) == Count(trace, OpenSession) <= 1
    ensures Count(trace, EndPam) == Count(trace, BeginPam) <= 1
    ensures Count(trace, DropLock) == Count(trace, TakeLock) <= 1
    ensures Count(trace, Fork) == Count(trace, Reap) + Count(trace, Abandon)
  {
    RunKeepsTally(trace);
    RunKeepsConsistent(START, trace);
  }

  /** Within a run, the session closes after every fork and reap and before the lock is dropped. */
  lemma SessionClosesInOrder(trace: seq<Event>, i: nat, j: nat)
    requires Possible(START, trace) && i < |trace| && j < |trace| && trace[i] == CloseSession
    ensures trace[j] == Fork || trace[j] == Reap ==> j < i
    ensures trace[j] == DropLock ==> i < j
  {
    StateAt(trace, i);
    StateAt(trace, j);
    if i < j {
      ClosedStaysClosed(trace, i, j);
    } else if j < i && trace[j] == DropLock {
      ReleasedStaysReleased(trace, j, i);
    }
  }

  /** What holds just before the `i`-th event of a run. */
  lemma StateAt(trace: seq<Event>, i: nat)
    requires Possible(START, trace) && i < |trace|
    ensures Possible(START, trace[..i]) && Consistent(Run(START, trace[..i]))
    ensures May(Run(START, trace[..i]), trace[i])
    ensures Possible(START, trace[..i + 1])
    ensures Run(START, trace[..i + 1]) == After(Run(START, trace[..i]), trace[i])
  {
    RunSplit(START, trace, i);
    RunKeepsConsistent(START, trace[..i]);
    assert trace[i..][0] == trace[i];
    RunOneMore(START, trace[..i], trace[i]);
    assert trace[..i + 1] == trace[..i] + [trace[i]];
  }

  lemma {:induction false} ClosedStaysClosed(trace: seq<Event>, i: nat, j: nat)
    requires Possible(START, trace) && i < j <= |trace| && trace[i] == CloseSession
    ensures var h := Run(START, trace[..j]); h.lease.SessionClosed? || h.lease.Ended?
    decreases j - i
  {
    StateAt(trace, j - 1);
    if i + 1 < j {
      ClosedStaysClosed(trace, i, j - 1);
    }
  }

  lemma {:induction false} ReleasedStaysReleased(trace: seq<Event>, i: nat, j: nat)
    requires Possible(START, trace) && i < j <= |trace| && trace[i] == DropLock
    ensures Run(START, trace[..j]).lock.Released?
    decreases j - i
  {
    StateAt(trace, j - 1);
    if i + 1 < j {
      ReleasedStaysReleased(trace, i, j - 1);
    }
  }

  // ---- Leaving ----

  /** A bound on what a helper on its way out can still do. */
  function Remaining(h: Helper): nat {
    (if h.course.Gone? then 0 else 1)
    + (if h.manager then 1 else 0)
    + (if HasStarted(h.phase) then 1 else 0)
    + (match h.lease case Open => 2 case Begun => 1 case SessionClosed => 1 case _ => 0)
    + (if h.lock.Locked? then 1 else 0)
    + (if h.voice.Speaking? then 1 else 0)
    + (match h.waits case NoneFailed => 2 case SomeFailed => 1 case StopFailed => 0)
  }

  /** What a helper does on its way out starts nothing, reports no success and asks for no retry. */
  predicate Winding(e: Event) {
    && !e.Fork? && !e.Obey? && !e.ReadyExitsZero? && !e.BeginPam? && !e.OpenSession?
    && (e.Say? ==> e.message.ManagerExited? || e.message.ShutdownComplete? || e.message.Fatal?)
  }

  lemma LeavingSays(h: Helper, m: Report)
    requires h.Closing() && May(h, Say(m))
    ensures Remaining(After(h, Say(m))) < Remaining(h) && Winding(Say(m))
  {
  }

  lemma LeavingStep(h: Helper, e: Event)
    requires h.Closing() && May(h, e)
    ensures After(h, e).Closing() && Remaining(After(h, e)) < Remaining(h) && Winding(e)
  {
    if e.Say? {
      LeavingSays(h, e.message);
    }
  }

  /** Every run of a helper that is on its way out is short, and only winds down. */
  lemma {:induction false} LeavingRunsAreShort(h: Helper, trace: seq<Event>)
    requires h.Closing() && Possible(h, trace)
    ensures |trace| <= Remaining(h)
    ensures Run(h, trace).Closing() && forall e :: e in trace ==> Winding(e)
    decreases |trace|
  {
    if trace == [] {
    } else {
      LeavingStep(h, trace[0]);
      LeavingRunsAreShort(After(h, trace[0]), trace[1..]);
      assert trace == [trace[0]] + trace[1..];
    }
  }

  /** ... and it is never stuck before the process is gone. */
  lemma LeavingNeverSticks(h: Helper)
    requires Consistent(h) && h.Closing() && !h.course.Gone?
    ensures exists e :: May(h, e)
  {
    if h.manager {
      assert May(h, Reap);
    } else if h.lease.Open? {
      assert May(h, CloseSession);
    } else if h.lease.Begun? || h.lease.SessionClosed? {
      assert May(h, EndPam);
    } else if h.lock.Locked? {
      assert May(h, DropLock);
    } else {
      assert May(h, Exit);
    }
  }

  /** Wherever a helper stands, taking `Shutdown` makes it leave. */
  lemma ShutdownMakesItLeave(h: Helper)
    requires Consistent(h) && May(h, Obey(Shutdown))
    ensures After(h, Obey(Shutdown)).Closing()
    ensures h.phase.AwaitAccept? ==> forall reason :: After(h, Obey(LeaseRejected(reason))).Closing()
  {
  }
}
