/**
  The daemon's event loop: five linked maps updated in place, one event at a time.

  Every method is proved to perform the step of `Slices` for the user it concerns and to leave all
  other users alone; the answers of the outside during an event are in `outside`.
 */
module Daemons {
  import opened Prelude
  import opened Config
  import opened Messages
  import opened Machines
  import opened Slices
  import opened SliceEffects
  import opened Books
  import opened Login1

  /** The sessions of a list that count for a user. */
  ghost function PermittedIds(policy: EligibilityPolicy, sessions: seq<SessionInfo>, accounts: map<u32, Account>, u: u32): set<SessionId> {
    set s | s in sessions && s.uid == u && policy.Admits(s, accounts) :: s.id
  }

  lemma PermittedIdsGrow(policy: EligibilityPolicy, sessions: seq<SessionInfo>, s: SessionInfo, accounts: map<u32, Account>)
    ensures forall u: u32 :: PermittedIds(policy, sessions + [s], accounts, u) ==
              PermittedIds(policy, sessions, accounts, u) + if s.uid == u && policy.Admits(s, accounts) then {s.id} else {}
  {
  }

  /** Every session that counts for a user was permitted when it was inserted. */
  ghost predicate Admitted(policy: EligibilityPolicy, eligible: map<u32, set<SessionId>>, admitted: set<(SessionInfo, Account)>) {
    && (forall p :: p in admitted ==> policy.Permits(p.0, p.1))
    && forall u: u32, id :: AdmittedAs(eligible, admitted, u, id)
  }

  ghost predicate AdmittedAs(eligible: map<u32, set<SessionId>>, admitted: set<(SessionInfo, Account)>, u: u32, id: SessionId) {
    u in eligible && id in eligible[u] ==> exists p :: p in admitted && p.0.uid == u && p.0.id == id
  }

  lemma ListIsAdmitted(policy: EligibilityPolicy, sessions: seq<SessionInfo>, accounts: map<u32, Account>,
                       eligible: map<u32, set<SessionId>>, admitted: set<(SessionInfo, Account)>)
    requires forall p :: p in admitted ==> policy.Permits(p.0, p.1)
    requires forall s :: s in sessions && policy.Admits(s, accounts) ==> (s, accounts[s.uid]) in admitted
    requires forall u: u32 :: Get(eligible, u, {}) == PermittedIds(policy, sessions, accounts, u)
    ensures Admitted(policy, eligible, admitted)
  {
    forall u: u32, id
      ensures AdmittedAs(eligible, admitted, u, id)
    {
      if u in eligible && id in eligible[u] {
        assert id in PermittedIds(policy, sessions, accounts, u);
        var s :| s in sessions && s.uid == u && policy.Admits(s, accounts) && s.id == id;
        var p := (s, accounts[u]);
        assert p in admitted && p.0.uid == u && p.0.id == id;
      }
    }
  }

  lemma OneMoreIsAdmitted(policy: EligibilityPolicy, eligible: map<u32, set<SessionId>>, admitted: set<(SessionInfo, Account)>,
                          session: SessionInfo, account: Account)
    requires Admitted(policy, eligible, admitted) && policy.Permits(session, account)
    ensures Admitted(policy, eligible[session.uid := Get(eligible, session.uid, {}) + {session.id}], admitted + {(session, account)})
  {
    var more, all := eligible[session.uid := Get(eligible, session.uid, {}) + {session.id}], admitted + {(session, account)};
    forall u: u32, id
      ensures AdmittedAs(more, all, u, id)
    {
      assert AdmittedAs(eligible, admitted, u, id);
      if u == session.uid && id == session.id {
        assert (session, account) in all;
      }
    }
  }

  lemma OneLessIsAdmitted(policy: EligibilityPolicy, eligible: map<u32, set<SessionId>>, admitted: set<(SessionInfo, Account)>,
                          u: u32, gone: SessionId)
    requires Admitted(policy, eligible, admitted) && u in eligible
    ensures Admitted(policy, eligible[u := eligible[u] - {gone}], admitted)
  {
    var left := eligible[u := eligible[u] - {gone}];
    forall v: u32, id
      ensures AdmittedAs(left, admitted, v, id)
    {
      assert AdmittedAs(eligible, admitted, v, id);
    }
  }

  /** A user's sessions were counted anew, with whatever generation was due and whatever the outside answered. */
  ghost predicate Recounted(before: Slice, after: Slice, ids: set<SessionId>) {
    exists n: nat, w: Answers :: after == Perform(before, n, w, Recount(ids)).slice
  }

  lemma RecountedIsSound(before: Slice, after: Slice, ids: set<SessionId>)
    requires Sound(before) && Recounted(before, after, ids)
    ensures Sound(after)
  {
    var n: nat, w: Answers :| after == Perform(before, n, w, Recount(ids)).slice;
    PerformKeepsSound(before, n, w, Recount(ids));
  }

  /** While all users are counted anew: those in `done` were, the others only have their new sessions. */
  ghost predicate Halfway(start: Books, now: Books, replacement: map<u32, set<SessionId>>, done: set<u32>) {
    forall v: u32 :: HalfwayOf(start, now, replacement, done, v)
  }

  ghost predicate HalfwayOf(start: Books, now: Books, replacement: map<u32, set<SessionId>>, done: set<u32>, v: u32) {
    var ids := Get(replacement, v, {});
    if v in done then Recounted(SliceOf(start, v), SliceOf(now, v), ids)
    else SliceOf(now, v) == SliceOf(start, v).(ids := ids)
  }

  lemma HalfwayStep(start: Books, before: Books, now: Books, replacement: map<u32, set<SessionId>>, done: set<u32>, u: u32, w: Answers)
    requires Halfway(start, before, replacement, done) && u !in done
    requires Took(before, now, u, Recount(SliceOf(before, u).ids), w)
    ensures Halfway(start, now, replacement, done + {u})
  {
    TookIsSteps(before, now, u, Recount(SliceOf(before, u).ids), w);
    forall v: u32
      ensures HalfwayOf(start, now, replacement, done + {u}, v)
    {
      var ids := Get(replacement, v, {});
      assert HalfwayOf(start, before, replacement, done, v);
      if v == u {
        RecountedNow(SliceOf(start, u), SliceOf(before, u), before.next, w, ids);
      } else {
        assert Untouched(before, now, v);
      }
    }
  }

  /** It makes no difference that the sessions were replaced before. */
  lemma RecountedNow(start: Slice, before: Slice, n: nat, w: Answers, ids: set<SessionId>)
    requires before == start.(ids := ids)
    ensures Recounted(start, Perform(before, n, w, Recount(before.ids)).slice, ids)
  {
    assert Perform(before, n, w, Recount(before.ids)).slice == Perform(start, n, w, Recount(ids)).slice;
  }

  lemma HalfwayIsReady(start: Books, now: Books, replacement: map<u32, set<SessionId>>, done: set<u32>, u: u32)
    requires AllSound(start) && Halfway(start, now, replacement, done) && u !in done
    ensures Agree(SliceOf(now, u)) && WaitersMatch(SliceOf(now, u))
  {
    assert SoundFor(start, u) && HalfwayOf(start, now, replacement, done, u);
  }

  lemma HalfwayAnyOutside(start: Books, now: Books, replacement: map<u32, set<SessionId>>, done: set<u32>, w: Answers)
    requires Halfway(start, now, replacement, done)
    ensures Halfway(start, now.(outside := w), replacement, done)
  {
    forall v: u32
      ensures HalfwayOf(start, now.(outside := w), replacement, done, v)
    {
      assert HalfwayOf(start, now, replacement, done, v);
      assert SliceOf(now.(outside := w), v) == SliceOf(now, v);
    }
  }

  lemma HalfwayBegins(start: Books, now: Books, replacement: map<u32, set<SessionId>>)
    requires now == start.(eligible := replacement)
    ensures Halfway(start, now, replacement, {})
  {
  }

  lemma HalfwayEnds(start: Books, now: Books, replacement: map<u32, set<SessionId>>, done: set<u32>)
    requires Halfway(start, now, replacement, done) && start.eligible.Keys + replacement.Keys <= done
    requires AllSound(start)
    ensures AllSound(now) && forall v: u32 :: Recounted(SliceOf(start, v), SliceOf(now, v), Get(replacement, v, {}))
  {
    forall v: u32
      ensures Recounted(SliceOf(start, v), SliceOf(now, v), Get(replacement, v, {})) && SoundFor(now, v)
    {
      assert SoundFor(start, v);
      assert HalfwayOf(start, now, replacement, done, v);
      if v !in done {
        NothingToCount(SliceOf(start, v));
      }
      RecountedIsSound(SliceOf(start, v), SliceOf(now, v), Get(replacement, v, {}));
    }
  }

  /** Each user's sessions: the new ones for those in `done`, the old ones for the others. */
  function MixedSets(before: map<u32, set<SessionId>>, after: map<u32, set<SessionId>>, done: set<u32>): map<u32, set<SessionId>> {
    map u | u in before.Keys + after.Keys :: Get(if u in done then after else before, u, {})
  }

  /** The books `mixed` are as if the users not in `done` still had their old sessions. */
  ghost predicate IsMixed(mixed: Books, now: Books, before: map<u32, set<SessionId>>, done: set<u32>) {
    mixed.next == now.next && mixed.log == now.log && forall u: u32 :: IsMixedFor(mixed, now, before, done, u)
  }

  ghost predicate IsMixedFor(mixed: Books, now: Books, before: map<u32, set<SessionId>>, done: set<u32>, u: u32) {
    SliceOf(mixed, u) == SliceOf(now, u).(ids := Get(if u in done then now.eligible else before, u, {}))
  }

  lemma Mix(now: Books, before: map<u32, set<SessionId>>, done: set<u32>) returns (mixed: Books)
    ensures IsMixed(mixed, now, before, done) && mixed.outside == now.outside
  {
    mixed := now.(eligible := MixedSets(before, now.eligible, done));
    forall u: u32
      ensures IsMixedFor(mixed, now, before, done, u)
    {
    }
  }

  lemma MixedBegins(start: Books, now: Books)
    requires now == start.(eligible := now.eligible)
    ensures IsMixed(start, now, start.eligible, {})
  {
    forall u: u32
      ensures IsMixedFor(start, now, start.eligible, {}, u)
    {
    }
  }

  lemma MixedEnds(mixed: Books, now: Books, before: map<u32, set<SessionId>>, done: set<u32>)
    requires IsMixed(mixed, now, before, done) && before.Keys + now.eligible.Keys <= done
    ensures Same(mixed, now)
  {
    forall u: u32
      ensures Untouched(mixed, now, u)
    {
      assert IsMixedFor(mixed, now, before, done, u);
    }
  }

  /** Counting a user whose sessions were replaced before is the step by which they are. */
  lemma MixedStep(c: Books, a: Books, b: Books, before: map<u32, set<SessionId>>, done: set<u32>, u: u32, w: Answers) returns (d: Books)
    requires IsMixed(c, a, before, done) && a.eligible == b.eligible && u !in done
    requires Took(a, b, u, Recount(SliceOf(a, u).ids), w)
    ensures IsMixed(d, b, before, done + {u}) && Took(c, d, u, Recount(SliceOf(a, u).ids), w)
  {
    d := Mix(b, before, done + {u});
    var op := Recount(SliceOf(a, u).ids);
    forall v: u32
      ensures TookAsFor(c, d, u, op, w, v)
    {
      assert TookAsFor(a, b, u, op, w, v) && IsMixedFor(c, a, before, done, v) && IsMixedFor(d, b, before, done + {u}, v);
      if v == u {
        RecountOverrides(SliceOf(a, u), SliceOf(c, u).ids, a.next, w, SliceOf(a, u).ids);
      }
    }
    assert TookAsFor(a, b, u, op, w, u);
  }

  /** What the outside answered before is not mixed in. */
  lemma MixedAnyOutside(mixed: Books, now: Books, before: map<u32, set<SessionId>>, done: set<u32>, w: Answers)
    requires IsMixed(mixed, now, before, done)
    ensures IsMixed(mixed, now.(outside := w), before, done)
  {
    forall u: u32
      ensures IsMixedFor(mixed, now.(outside := w), before, done, u)
    {
      assert IsMixedFor(mixed, now, before, done, u) && SliceOf(now.(outside := w), u) == SliceOf(now, u);
    }
  }

  lemma RecountOverrides(s: Slice, others: set<SessionId>, next: nat, w: Answers, ids: set<SessionId>)
    ensures Perform(s.(ids := others), next, w, Recount(ids)) == Perform(s, next, w, Recount(ids))
  {
  }

  /** The steps count each of the users anew, once. */
  ghost predicate CountsAnew(acts: seq<Act>, replacement: map<u32, set<SessionId>>, worlds: u32 -> Answers, uids: set<u32>) {
    && (forall act :: act in acts ==> act.op == Recount(Get(replacement, act.user, {})) && act.world == worlds(act.user))
    && UsersOf(acts) == multiset(uids)
  }

  /** The users that take the steps, with multiplicity. */
  function UsersOf(acts: seq<Act>): multiset<u32> {
    if acts == [] then multiset{} else UsersOf(acts[..|acts| - 1]) + multiset{acts[|acts| - 1].user}
  }

  lemma OneMoreCounted(acts: seq<Act>, act: Act, replacement: map<u32, set<SessionId>>, worlds: u32 -> Answers, done: set<u32>)
    requires CountsAnew(acts, replacement, worlds, done) && act.user !in done
    requires act.op == Recount(Get(replacement, act.user, {})) && act.world == worlds(act.user)
    ensures CountsAnew(acts + [act], replacement, worlds, done + {act.user})
  {
    assert (acts + [act])[..|acts|] == acts;
  }

  lemma CountingRecounts(acts: seq<Act>, replacement: map<u32, set<SessionId>>, worlds: u32 -> Answers, uids: set<u32>)
    requires CountsAnew(acts, replacement, worlds, uids)
    ensures Recounts(acts)
  {
  }

  lemma NothingIsCounted(start: Books, now: Books, replacement: map<u32, set<SessionId>>, worlds: u32 -> Answers, n: nat)
    requires now == start.(eligible := replacement)
    ensures Halfway(start, now, replacement, {}) && IsMixed(start, now, start.eligible, {})
    ensures Lawful(start, n, [], start, n) && CountsAnew([], replacement, worlds, {})
  {
    HalfwayBegins(start, now, replacement);
    MixedBegins(start, now);
  }

  lemma AllAreCounted(start: Books, now: Books, replacement: map<u32, set<SessionId>>, mixed: Books, acts: seq<Act>, n: nat, done: set<u32>)
    requires AllSound(start) && now.eligible == replacement && start.eligible.Keys + replacement.Keys <= done
    requires Halfway(start, now, replacement, done) && IsMixed(mixed, now, start.eligible, done) && Lawful(start, n, acts, mixed, n)
    ensures AllSound(now) && forall v: u32 :: Recounted(SliceOf(start, v), SliceOf(now, v), Get(replacement, v, {}))
    ensures Lawful(start, n, acts, now, n)
  {
    HalfwayEnds(start, now, replacement, done);
    MixedEnds(mixed, now, start.eligible, done);
    LawfulToSame(start, n, acts, mixed, n, now);
  }

  lemma OneLessToDo(all: set<u32>, todo: set<u32>, u: u32)
    requires u in todo && todo <= all
    ensures all - (todo - {u}) == all - todo + {u} && u !in all - todo
  {
  }

  lemma NothingToCount(s: Slice)
    requires s.ids == {} && CountMatches(s)
    ensures Recounted(s, s, {})
  {
    assert s == Perform(s, 0, Answers(false, 0), Recount({})).slice;
  }

  /** A count anew takes over the sessions. */
  lemma RecountSets(s: Slice, next: nat, w: Answers, ids: set<SessionId>)
    requires Sound(s)
    ensures Perform(s, next, w, Recount(ids)).slice.ids == ids
  {
    var outcome := SetEligible(s.machine, |ids|);
    ActionsKeepIds(s.(ids := ids, machine := outcome.machine), next, w, outcome.actions);
  }

  lemma {:induction false} ActionsKeepIds(s: Slice, next: nat, w: Answers, actions: seq<Action>)
    ensures ApplyAll(s, next, w, actions).slice.ids == s.ids
    decreases |actions|
  {
    if actions == [] {
    } else {
      var a := actions[0];
      var first := Apply(s, next, w, a);
      if a.AnswerReady? {
        AnswerAllRemoves(s, next, w, a.requests, ReplyReady);
      } else if a.AnswerError? {
        AnswerAllRemoves(s, next, w, a.requests, ErrorReply(a.code));
      }
      ActionsKeepIds(first.slice, first.next, first.answers, actions[1..]);
    }
  }

  lemma CountedIsPositive(b: Books, u: u32, id: SessionId)
    requires AllSound(b) && id in SliceOf(b, u).ids
    ensures SliceOf(b, u).machine.eligible > 0
  {
    assert SoundFor(b, u);
  }

  /** Why a request is refused at once, in the order of the checks; none if it is accepted. */
  function Refusal(policy: EligibilityPolicy, reachable: bool, runtimeDir: string, peer: u32, found: Option<SessionInfo>,
                   accounts: map<u32, Account>, pending: map<nat, u32>): Option<ErrorCode> {
    if !reachable then Some(Login1Unavailable)
    else if found.None? then Some(SessionNotFound)
    else if found.value.runtimePath != runtimeDir then Some(InvalidRequest)
    else if !policy.Admits(found.value, accounts) then Some(SessionIneligible)
    else if peer != 0 && peer != found.value.uid then Some(PermissionDenied)
    else if |pending| >= MAX_PENDING || |PendingOf(pending, found.value.uid)| >= MAX_PENDING_PER_USER then Some(Internal)
    else None
  }

  /** A request is accepted: first its session counts, in the books `counted`, and then the request joins. */
  ghost predicate AcceptedFrom(before: Books, counted: Books, after: Books, session: SessionInfo, request: nat) {
    var u, ids := session.uid, SliceOf(before, session.uid).ids;
    && (if session.id in ids then counted == before else Took(before, counted, u, Recount(ids + {session.id}), before.outside))
    && Allowed(SliceOf(counted, u), Join(request)) && Took(counted, after, u, Join(request), counted.outside)
  }

  /** What the login manager tells, with its answers to what is asked then. */
  datatype LoginEvent =
    | SessionNew(found: Option<SessionInfo>, world: Answers)
    | SessionRemoved(id: SessionId, world: Answers)
    | OwnerLost
    | OwnerBack(listed: Option<seq<SessionInfo>>, leases: map<SessionId, SessionInfo>, trusted: set<u32>)
    | Disconnected

  /** A turn of the event loop: an event, the periodic listing, or an attempt to reconnect. */
  datatype Turn =
    | OnEvent(event: DaemonEvent, world: Answers)
    | OnLogin(login: LoginEvent)
    | ListingDue(listed: Option<seq<SessionInfo>>)
    | ReconnectDue(reached: bool, listed: Option<seq<SessionInfo>>, leases: map<SessionId, SessionInfo>, trusted: set<u32>)

  /** What reaches the event loop, with the answers of the outside that handling it takes. */
  datatype DaemonEvent =
    | Pam(runtimeDir: string, peer: u32, found: Option<SessionInfo>, accounts: map<u32, Account>)
    | PamExpires(request: nat)
    | Message(user: u32, generation: nat, message: Report, found: Option<SessionInfo>, trusted: bool)
    | SocketClosed(user: u32, generation: nat)
    | HelperEnds(user: u32, generation: nat)
    | BackoffEnds(user: u32, generation: nat, attempt: u32)
    | ReplacementDue(user: u32)

  /** Whether a message announces a lease that holds. */
  predicate Verified(connected: bool, u: u32, message: Report, found: Option<SessionInfo>, trusted: bool) {
    message.LeaseOpened? && connected && LeaseHolds(u, message.sessionId, message.runtimeDir, found, trusted)
  }

  /** Messages, exits and timers: the events that are one step of one user. */
  predicate IsStep(event: DaemonEvent) {
    !event.Pam? && !event.PamExpires? && !event.SocketClosed?
  }

  function OpOf(event: DaemonEvent, connected: bool): Op
    requires IsStep(event)
  {
    match event
    case Message(u, g, message, found, trusted) => Hear(g, message, Verified(connected, u, message, found, trusted))
    case HelperEnds(_, g) => HelperGone(g)
    case BackoffEnds(_, g, attempt) => BackoffFires(g, attempt)
    case ReplacementDue(_) => SpawnFires
  }

  /** From `start` to `now` the users in `lost` came to a stop, and nothing else happened. */
  ghost predicate OnlyLost(start: Books, now: Books, lost: set<u32>) {
    forall u: u32 :: LostOrUntouched(start, now, lost, u)
  }

  ghost predicate LostOrUntouched(start: Books, now: Books, lost: set<u32>, u: u32) {
    if u in lost then Lost(SliceOf(start, u), SliceOf(now, u)) else Untouched(start, now, u)
  }

  predicate Lost(before: Slice, now: Slice) {
    now.machine.state.Stopping? && now == before.(machine := before.machine.(state := now.machine.state))
  }

  predicate Recounts(acts: seq<Act>) {
    forall act :: act in acts ==> act.op.Recount?
  }

  /** Steps that a listing and the verification of leases cause. */
  predicate Reviews(acts: seq<Act>) {
    forall act :: act in acts ==> act.op.Recount? || act.op.LeaseLost?
  }

  /** The step is one that the event causes. */
  predicate FromEvent(event: DaemonEvent, act: Act) {
    match event
    case Pam(_, _, found, _) => found.Some? && act.user == found.value.uid && (act.op.Recount? || act.op.Join?)
    case PamExpires(request) => act.op == Expire(request)
    case Message(u, g, message, found, trusted) =>
      && act.user == u && act.op.Hear? && act.op.generation == g && act.op.message == message
      && (act.op.verified ==> Verified(true, u, message, found, trusted))
    case SocketClosed(_, _) => false
    case HelperEnds(u, g) => act.user == u && act.op == HelperGone(g)
    case BackoffEnds(u, g, attempt) => act.user == u && act.op == BackoffFires(g, attempt)
    case ReplacementDue(u) => act.user == u && act.op == SpawnFires
  }

  /** The steps are those that the turn causes; a message, an exit or a timer causes one. */
  predicate AllFromTurn(turn: Turn, acts: seq<Act>) {
    match turn
    case OnEvent(event, _) => (IsStep(event) ==> |acts| == 1) && forall act :: act in acts ==> FromEvent(event, act)
    case OnLogin(login) => if login.OwnerLost? || login.Disconnected? then acts == [] else Reviews(acts)
    case ListingDue(_) => Recounts(acts)
    case ReconnectDue(_, _, _, _) => Reviews(acts)
  }

  /** A session was looked up because it is new: it counts from now on if it is admitted. */
  ghost predicate Refreshed(a: Books, b: Books, policy: EligibilityPolicy, found: Option<SessionInfo>, accounts: map<u32, Account>, w: Answers) {
    if found.Some? && policy.Admits(found.value, accounts) then
      var u, ids := found.value.uid, SliceOf(a, found.value.uid).ids;
      if found.value.id in ids then b == a.(outside := w) else Took(a, b, u, Recount(ids + {found.value.id}), w)
    else b == a.(outside := w)
  }

  /**
    A session is gone: it counts no longer for the user it was last seen with or, if it was never
    seen, for a user it did count for.
   */
  ghost predicate Removed(a: Books, b: Books, known: Sessions, id: SessionId, user: Option<u32>, w: Answers) {
    && (match user
        case None => b == a.(outside := w)
        case Some(u) => id in SliceOf(a, u).ids && Took(a, b, u, Recount(SliceOf(a, u).ids - {id}), w))
    && (id in known ==> user == if id in SliceOf(a, known[id].uid).ids then Some(known[id].uid) else None)
    && (id !in known && user.None? ==> forall u: u32 :: id !in SliceOf(a, u).ids)
  }

  lemma RefreshedAnyOutside(a: Books, b: Books, policy: EligibilityPolicy, found: Option<SessionInfo>, accounts: map<u32, Account>, w: Answers)
    requires Refreshed(a.(outside := w), b, policy, found, accounts, w)
    ensures Refreshed(a, b, policy, found, accounts, w)
  {
    if found.Some? && policy.Admits(found.value, accounts) {
      var u := found.value.uid;
      assert SliceOf(a.(outside := w), u) == SliceOf(a, u);
      var ids := SliceOf(a, u).ids;
      if found.value.id !in ids {
        TookAnyOutside(a, b, u, Recount(ids + {found.value.id}), w, w);
      }
    }
  }

  lemma RemovedAnyOutside(a: Books, b: Books, known: Sessions, id: SessionId, user: Option<u32>, w: Answers)
    requires Removed(a.(outside := w), b, known, id, user, w)
    ensures Removed(a, b, known, id, user, w)
  {
    assert forall u: u32 :: SliceOf(a, u).ids == SliceOf(a.(outside := w), u).ids;
    if user.Some? {
      TookAnyOutside(a, b, user.value, Recount(SliceOf(a, user.value).ids - {id}), w, w);
    }
  }

  /**
    What becomes of the books `a`, with the next request number `n`, at an event. A request is
    refused or accepted, `counted` being the books in between; all others are the step of their name.
   */
  ghost predicate HandledAs(policy: EligibilityPolicy, reachable: bool, connected: bool, event: DaemonEvent,
                            a: Books, n: nat, counted: Books, b: Books, m: nat, w: Answers) {
    match event
    case Pam(runtimeDir, peer, found, accounts) =>
      if Refusal(policy, reachable, runtimeDir, peer, found, accounts, a.pending).Some? then b == a.(outside := w) && m == n
      else m == n + 1 && AcceptedFrom(a.(outside := w), counted, b, found.value, n)
    case PamExpires(request) =>
      && m == n && request !in b.pending
      && (if request in a.pending then Took(a, b, a.pending[request], Expire(request), w) else b == a.(outside := w))
    case SocketClosed(_, _) => m == n && b == a.(outside := w)
    case _ => m == n && Took(a, b, event.user, OpOf(event, connected), w)
  }

  /** An event is a course of lawful steps. */
  lemma EventIsLawful(policy: EligibilityPolicy, reachable: bool, connected: bool, event: DaemonEvent,
                      a: Books, n: nat, counted: Books, b: Books, m: nat, w: Answers) returns (acts: seq<Act>)
    requires HandledAs(policy, reachable, connected, event, a, n, counted, b, m, w)
    ensures Lawful(a, n, acts, b, m) && AllFromTurn(OnEvent(event, w), acts)
  {
    acts := [];
    if IsStep(event) {
      acts := [Act(event.user, OpOf(event, connected), w, b, n)];
      OneAct(a, n, acts[0]);
    } else if b == a.(outside := w) && m == n {
      OtherOutsideIsSame(a, w);
    } else if event.Pam? {
      acts := AcceptedIsLawful(a.(outside := w), counted, b, event.found.value, n);
      OtherOutsideIsSame(a, w);
      LawfulFromSame(a, a.(outside := w), n, acts, b, m);
    } else {
      acts := [Act(a.pending[event.request], Expire(event.request), w, b, n)];
      OneAct(a, n, acts[0]);
    }
  }

  lemma RefreshedIsLawful(a: Books, b: Books, policy: EligibilityPolicy, found: Option<SessionInfo>, accounts: map<u32, Account>,
                          w: Answers, n: nat) returns (acts: seq<Act>)
    requires Refreshed(a, b, policy, found, accounts, w)
    ensures Lawful(a, n, acts, b, n) && Recounts(acts)
  {
    if b == a.(outside := w) {
      acts := [];
      OtherOutsideIsSame(a, w);
    } else {
      var u := found.value.uid;
      acts := [Act(u, Recount(SliceOf(a, u).ids + {found.value.id}), w, b, n)];
      OneAct(a, n, acts[0]);
    }
  }

  lemma RemovedIsLawful(a: Books, b: Books, known: Sessions, id: SessionId, user: Option<u32>, w: Answers, n: nat) returns (acts: seq<Act>)
    requires Removed(a, b, known, id, user, w)
    ensures Lawful(a, n, acts, b, n) && Recounts(acts)
  {
    match user
    case None =>
      acts := [];
      OtherOutsideIsSame(a, w);
    case Some(u) =>
      acts := [Act(u, Recount(SliceOf(a, u).ids - {id}), w, b, n)];
      OneAct(a, n, acts[0]);
  }

  lemma AcceptedIsLawful(a: Books, counted: Books, b: Books, session: SessionInfo, request: nat) returns (acts: seq<Act>)
    requires AcceptedFrom(a, counted, b, session, request)
    ensures Lawful(a, request, acts, b, request + 1)
    ensures forall act :: act in acts ==> act.user == session.uid && (act.op.Recount? || act.op.Join?)
  {
    var u, ids := session.uid, SliceOf(a, session.uid).ids;
    var join := Act(u, Join(request), counted.outside, b, request + 1);
    OneAct(counted, request, join);
    if session.id in ids {
      acts := [join];
    } else {
      var count := Act(u, Recount(ids + {session.id}), a.outside, counted, request);
      OneAct(a, request, count);
      LawfulThen(a, request, [count], counted, request, [join], b, request + 1);
      acts := [count] + [join];
    }
  }

  /** Every user's sessions are the listed ones that are admitted, and the machine counts them. */
  ghost predicate CountedFrom(b: Books, policy: EligibilityPolicy, listed: seq<SessionInfo>, accounts: map<u32, Account>) {
    forall u: u32 :: CountedFor(SliceOf(b, u), PermittedIds(policy, listed, accounts, u))
  }

  predicate CountedFor(s: Slice, ids: set<SessionId>) {
    s.ids == ids && s.machine.eligible == |ids|
  }

  /** The answers of the login manager while leases are verified. */
  datatype Inquiry = Inquiry(sessions: Sessions, connected: bool, found: Sessions, trusted: set<u32>)

  /** The leases that were verified, all but those in `todo`, and the users who lost theirs. */
  ghost predicate Inquired(start: Books, now: Books, leases: map<u32, SessionId>, q: Inquiry, todo: set<u32>, lost: set<u32>) {
    && OnlyLost(start, now, lost)
    && forall u :: u in leases && u !in todo ==> MayHold(q.sessions, q.connected, u, leases[u], q.found, q.trusted, u !in lost)
  }

  lemma LeaseLossLoses(a: Books, b: Books, u: u32, w: Answers)
    requires Took(a, b, u, LeaseLost, w) && SliceOf(a, u).helper.Some? && SliceOf(a, u).helper.value.lease.Some?
    ensures OnlyLost(a, b, {u})
  {
    forall v: u32
      ensures LostOrUntouched(a, b, {u}, v)
    {
      assert TookAsFor(a, b, u, LeaseLost, w, v);
    }
  }

  /** Whoever loses a lease keeps the sessions, and they stay counted. */
  lemma LossKeepsCounts(a: Books, b: Books, lost: set<u32>, policy: EligibilityPolicy, listed: seq<SessionInfo>, accounts: map<u32, Account>)
    requires OnlyLost(a, b, lost) && CountedFrom(a, policy, listed, accounts)
    ensures CountedFrom(b, policy, listed, accounts)
  {
    forall u: u32
      ensures CountedFor(SliceOf(b, u), PermittedIds(policy, listed, accounts, u))
    {
      assert LostOrUntouched(a, b, lost, u) && CountedFor(SliceOf(a, u), PermittedIds(policy, listed, accounts, u));
    }
  }

  lemma VerifiedIsLawful(a: Books, b: Books, u: u32, holds: bool, w: Answers, n: nat) returns (acts: seq<Act>)
    requires if holds then Same(a, b) else Took(a, b, u, LeaseLost, w)
    ensures Lawful(a, n, acts, b, n) && Reviews(acts)
  {
    if holds {
      acts := [];
    } else {
      acts := [Act(u, LeaseLost, w, b, n)];
      OneAct(a, n, acts[0]);
    }
  }

  lemma InquiredStep(start: Books, before: Books, now: Books, leases: map<u32, SessionId>, q: Inquiry, todo: set<u32>, lost: set<u32>,
                     u: u32, holds: bool)
    requires Inquired(start, before, leases, q, todo, lost) && u in leases && u in todo && u !in lost
    requires MayHold(q.sessions, q.connected, u, leases[u], q.found, q.trusted, holds)
    requires OnlyLost(before, now, if holds then {} else {u})
    ensures Inquired(start, now, leases, q, todo - {u}, if holds then lost else lost + {u})
  {
    var after := if holds then lost else lost + {u};
    forall v: u32
      ensures LostOrUntouched(start, now, after, v)
    {
      assert LostOrUntouched(start, before, lost, v) && LostOrUntouched(before, now, if holds then {} else {u}, v);
    }
  }

  // ---- Turns of the event loop ----

  /** All that the daemon knows between two turns. */
  datatype Snapshot = Snapshot(books: Books, number: nat, available: bool, connected: bool, known: Sessions)

  /** With which error an event is refused, if it is a request that is. */
  function RefusalOf(policy: EligibilityPolicy, turn: Turn, s: Snapshot): Option<ErrorCode> {
    if turn.OnEvent? && turn.event.Pam? then
      var e := turn.event;
      Refusal(policy, s.available && s.connected, e.runtimeDir, e.peer, e.found, e.accounts, s.books.pending)
    else None
  }

  /** The turn is a request that is accepted. */
  predicate Accepts(policy: EligibilityPolicy, turn: Turn, s: Snapshot) {
    turn.OnEvent? && turn.event.Pam? && RefusalOf(policy, turn, s).None?
  }

  /** An event was handled; an accepted request makes its session known. */
  ghost predicate Handled(policy: EligibilityPolicy, event: DaemonEvent, s: Snapshot, counted: Books, t: Snapshot, w: Answers) {
    && t.available == s.available && t.connected == s.connected
    && t.known == (if Accepts(policy, OnEvent(event, w), s) then s.known[event.found.value.id := event.found.value] else s.known)
    && HandledAs(policy, s.available && s.connected, s.connected, event, s.books, s.number, counted, t.books, t.number, w)
  }

  /** A successful listing replaces what is known, and all is counted from it; a failed one changes nothing but the availability. */
  ghost predicate Listed(policy: EligibilityPolicy, s: Snapshot, t: Snapshot, listed: Option<seq<SessionInfo>>, accounts: map<u32, Account>) {
    && t.number == s.number && t.connected == s.connected
    && t.available == (if s.connected then listed.Some? else s.available)
    && if s.connected && listed.Some? then t.known == ById(listed.value) && CountedFrom(t.books, policy, listed.value, accounts)
       else t.known == s.known && t.books == s.books
  }

  /** Every registered lease holds, or its user is among those who lost theirs. */
  ghost predicate LeasesVerified(t: Snapshot, found: map<SessionId, SessionInfo>, trusted: set<u32>, lost: set<u32>) {
    forall u :: u in t.books.helpers && t.books.helpers[u].lease.Some? ==>
      MayHold(t.known, t.connected, u, t.books.helpers[u].lease.value, found, trusted, u !in lost)
  }

  /** A listing, which led to `counted`, and then the leases, of which only those in `lost` are given up. */
  ghost predicate Recovered(policy: EligibilityPolicy, s: Snapshot, counted: Snapshot, t: Snapshot, listed: Option<seq<SessionInfo>>,
                            accounts: map<u32, Account>, leases: map<SessionId, SessionInfo>, trusted: set<u32>, lost: set<u32>) {
    && Listed(policy, s, counted, listed, accounts) && t == counted.(books := t.books)
    && LeasesVerified(t, leases, trusted, lost) && OnlyLost(counted.books, t.books, lost)
    && (t.connected && listed.Some? ==> CountedFrom(t.books, policy, listed.value, accounts))
  }

  /** The login manager has told something. */
  ghost predicate Informed(policy: EligibilityPolicy, event: LoginEvent, accounts: map<u32, Account>, s: Snapshot, counted: Snapshot,
                           t: Snapshot, lost: set<u32>) {
    match event
    case SessionNew(found, w) =>
      var seen := if s.connected then found else None;
      && t == s.(books := t.books, known := if seen.Some? then s.known[seen.value.id := seen.value] else s.known)
      && Refreshed(s.books, t.books, policy, seen, accounts, w)
    case SessionRemoved(id, w) =>
      && t == s.(books := t.books, known := s.known - {id})
      && exists user :: Removed(s.books, t.books, s.known, id, user, w)
    case OwnerLost => t == s.(available := false)
    case OwnerBack(listed, leases, trusted) =>
      Recovered(policy, s.(available := true), counted, t, listed, accounts, leases, trusted, lost)
    case Disconnected => t == s.(available := false, connected := false)
  }

  /**
    An attempt to reconnect. On a connection that is kept the sessions are listed, and the leases
    verified only if that succeeds; on a new one both are done.
   */
  ghost predicate Reconnected(policy: EligibilityPolicy, turn: Turn, accounts: map<u32, Account>, s: Snapshot, counted: Snapshot,
                              t: Snapshot, lost: set<u32>)
    requires turn.ReconnectDue?
  {
    if s.connected && turn.listed.None? then t == counted && Listed(policy, s, counted, None, accounts)
    else if s.connected then Recovered(policy, s, counted, t, turn.listed, accounts, turn.leases, turn.trusted, lost)
    else if turn.reached then
      Recovered(policy, s.(connected := true, available := true), counted, t, turn.listed, accounts, turn.leases, turn.trusted, lost)
    else t == s
  }

  /** What a turn makes of what the daemon knows: each has its effect, and is taken only where it can come. */
  ghost predicate TakenAs(policy: EligibilityPolicy, turn: Turn, accounts: map<u32, Account>, s: Snapshot, counted: Snapshot, t: Snapshot,
                          lost: set<u32>) {
    match turn
    case OnEvent(event, w) => Handled(policy, event, s, counted.books, t, w)
    case OnLogin(login) => if s.connected then Informed(policy, login, accounts, s, counted, t, lost) else t == s
    case ListingDue(listed) => if s.available then Listed(policy, s, t, listed, accounts) else t == s
    case ReconnectDue(_, _, _, _) => if s.available then t == s else Reconnected(policy, turn, accounts, s, counted, t, lost)
  }

  // ---- Exits during the shutdown ----

  /** The registered helpers after an event: the one that has exited is gone, and only if it is that generation. */
  function AfterExit(helpers: map<u32, Handle>, e: DaemonEvent): map<u32, Handle> {
    if e.HelperEnds? && e.user in helpers && helpers[e.user].generation == e.generation then helpers - {e.user} else helpers
  }

  function AfterExits(helpers: map<u32, Handle>, events: seq<DaemonEvent>): map<u32, Handle> {
    if events == [] then helpers else AfterExit(AfterExits(helpers, events[..|events| - 1]), events[|events| - 1])
  }

  lemma {:induction false} NobodyIsLeft(helpers: map<u32, Handle>, events: seq<DaemonEvent>, i: nat)
    requires i <= |events| && (AfterExits(helpers, events[..i]) == map[] || i == |events|)
    ensures AfterExits(helpers, events) == AfterExits(helpers, events[..i])
  {
    if i == |events| {
      assert events[..i] == events;
    } else {
      var n := |events| - 1;
      assert events[..n][..i] == events[..i];
      NobodyIsLeft(helpers, events[..n], i);
    }
  }

  lemma ExitLeaves(a: Books, b: Books, u: u32, g: nat, w: Answers)
    requires Took(a, b, u, HelperGone(g), w)
    ensures b.helpers == AfterExit(a.helpers, HelperEnds(u, g))
  {
    var left := AfterExit(a.helpers, HelperEnds(u, g));
    forall v: u32
      ensures v in b.helpers <==> v in left
      ensures v in left ==> b.helpers[v] == left[v]
    {
      ExitLeavesFor(a, b, u, g, w, v);
    }
  }

  lemma ExitLeavesFor(a: Books, b: Books, u: u32, g: nat, w: Answers, v: u32)
    requires Took(a, b, u, HelperGone(g), w)
    ensures SliceOf(b, v).helper == if v == u && HasHelper(SliceOf(a, u), g) then None else SliceOf(a, v).helper
  {
    assert TookAsFor(a, b, u, HelperGone(g), w, v);
    if HasHelper(SliceOf(a, u), g) {
      StepWithHelper(SliceOf(a, u), a.next, w, HelperGone(g), g);
    }
  }

  class Daemon {
    const policy: EligibilityPolicy
    const settings: Settings
    var connected: bool
    var available: bool
    const inventory: SessionInventory
    var eligible: map<u32, set<SessionId>>
    var machines: map<u32, Machine>
    var helpers: map<u32, Handle>
    var pending: map<nat, u32>
    var nextRequest: nat
    var nextGeneration: nat
    var spawnTimers: map<u32, nat>
    var backoffTimers: map<u32, multiset<Timer>>
    var outside: Answers
    ghost var log: seq<Effect>
    ghost var admitted: set<(SessionInfo, Account)>

    ghost function State(): Books
      reads this
    {
      Books(settings, eligible, machines, helpers, pending, spawnTimers, backoffTimers, nextGeneration, outside, log)
    }

    ghost function Now(): Snapshot
      reads this, inventory
    {
      Snapshot(State(), nextRequest, available, connected, inventory.sessions)
    }

    constructor (policy: EligibilityPolicy, settings: Settings, connected: bool)
      ensures Valid() && fresh(inventory) && inventory.sessions == map[] && this.policy == policy
      ensures State() == EmptyBooks(settings)
      ensures nextRequest == 1 && admitted == {} && this.connected == connected && available == connected
    {
      this.policy, this.settings, this.connected, available := policy, settings, connected, connected;
      inventory := new SessionInventory();
      eligible, machines, helpers, pending := map[], map[], map[], map[];
      nextRequest, nextGeneration := 1, 1;
      spawnTimers, backoffTimers := map[], map[];
      outside, log, admitted := Answers(false, 0), [], {};
    }

    /** What holds at every event boundary. */
    ghost predicate Valid()
      reads this
    {
      && nextRequest >= 1 && AllSound(State()) && InOrder(log, pending, nextRequest)
      && Admitted(policy, eligible, admitted)
    }

    /** What the steps of one user rely on. */
    ghost predicate Ready(u: u32)
      reads this
    {
      Agree(SliceOf(State(), u)) && WaitersMatch(SliceOf(State(), u))
    }

    // ---- Helpers, timers and replies ----

    method SendHelper(u: u32, g: nat, c: Command) returns (sent: bool)
      modifies this`outside, this`log
      ensures Steps(old(State()), State(), u, Send(SliceOf(old(State()), u), nextGeneration, old(outside), g, c))
      ensures sent <==> HasHelper(SliceOf(old(State()), u), g) && old(outside).accepts > 0
    {
      if u !in helpers || helpers[u].generation != g {
        return false;
      }
      if outside.accepts == 0 {
        log := log + [SendFailed(g, c)];
        return false;
      }
      outside := outside.(accepts := outside.accepts - 1);
      log := log + [Sent(g, c)];
      sent := true;
    }

    /** A reply to a request that is not pending any more is dropped. */
    method Reply(request: nat, reply: Answer)
      modifies this`pending, this`log
      ensures pending == old(pending) - {request}
      ensures log == old(log) + if request in old(pending) then [Answered(request, reply)] else []
    {
      if request in pending {
        pending := pending - {request};
        log := log + [Answered(request, reply)];
      }
    }

    /** The machine of a user, a new one if there is none, to be changed and put back. */
    method Borrow(u: u32) returns (machine: UserMachine)
      ensures fresh(machine) && machine.Value() == SliceOf(State(), u).machine
    {
      machine := new UserMachine.Of(u, Get(machines, u, NEW_MACHINE));
    }

    method PutBack(u: u32, machine: Machine)
      modifies this`machines
      ensures machines == old(machines)[u := machine]
      ensures Steps(old(State()), State(), u, Step(SliceOf(old(State()), u).(machine := machine), nextGeneration, [], outside))
    {
      machines := machines[u := machine];
    }

    method PutHandle(u: u32, handle: Handle)
      modifies this`helpers
      ensures helpers == old(helpers)[u := handle]
      ensures Steps(old(State()), State(), u, Step(SliceOf(old(State()), u).(helper := Some(handle)), nextGeneration, [], outside))
    {
      helpers := helpers[u := handle];
    }

    method DropHandle(u: u32)
      modifies this`helpers
      ensures Steps(old(State()), State(), u, Step(SliceOf(old(State()), u).(helper := None), nextGeneration, [], outside))
    {
      helpers := helpers - {u};
    }

    method SetSpawnTimers(u: u32, timers: nat)
      modifies this`spawnTimers
      ensures Steps(old(State()), State(), u, Step(SliceOf(old(State()), u).(spawnTimers := timers), nextGeneration, [], outside))
    {
      spawnTimers := spawnTimers[u := timers];
    }

    /** The assertion that no helper is known to the machine of a user without one holds. */
    method SpawnHelper(u: u32)
      requires Agree(SliceOf(State(), u))
      modifies this`helpers, this`machines, this`nextGeneration, this`spawnTimers, this`log
      ensures Steps(old(State()), State(), u, Spawn(SliceOf(old(State()), u), old(nextGeneration), outside))
    {
      if u in helpers {
        return;
      }
      var g := nextGeneration;
      nextGeneration := nextGeneration + 1;
      ghost var counted := State();
      assert OthersUntouched(old(State()), counted, u);
      if outside.spawns {
        Launch(u, g);
        UntouchedTwice(old(State()), counted, State(), u);
      } else {
        spawnTimers := spawnTimers[u := Get(spawnTimers, u, 0) + 1];
      }
    }

    method Launch(u: u32, g: nat)
      requires u !in helpers && Agree(SliceOf(State(), u))
      modifies this`helpers, this`machines, this`log
      ensures var s := SliceOf(old(State()), u);
              Steps(old(State()), State(), u,
                    Step(s.(helper := Some(Handle(g, None, None)), machine := HelperSpawned(s.machine, g)),
                         nextGeneration, [Launched(g)], outside))
    {
      helpers := helpers[u := Handle(g, None, None)];
      var machine := Borrow(u);
      machine.HelperStarted(g);
      machines := machines[u := machine.Value()];
      log := log + [Launched(g)];
    }

    method ReplyAll(u: u32, requests: seq<nat>, reply: Answer)
      requires forall r :: r in requests && r in pending ==> pending[r] == u
      modifies this`pending, this`log
      ensures Steps(old(State()), State(), u, AnswerAll(SliceOf(old(State()), u), nextGeneration, outside, requests, reply))
      ensures Shrunk(old(pending), pending)
    {
      ghost var start := State();
      for i := 0 to |requests|
        invariant Shrunk(old(pending), pending)
        invariant Answering(start, State(), u, requests, reply, i)
      {
        ghost var before := State();
        Reply(requests[i], reply);
        AnsweringStep(start, before, State(), u, requests, reply, i);
      }
    }

    method AddTimer(u: u32, timer: Timer)
      modifies this`backoffTimers, this`log
      ensures var s := SliceOf(old(State()), u);
              Steps(old(State()), State(), u,
                    Step(s.(backoffTimers := s.backoffTimers + multiset{timer}), nextGeneration, [Scheduled(timer)], outside))
    {
      backoffTimers := backoffTimers[u := Get(backoffTimers, u, multiset{}) + multiset{timer}];
      log := log + [Scheduled(timer)];
    }

    method PutTimers(u: u32, timers: multiset<Timer>)
      modifies this`backoffTimers
      ensures Steps(old(State()), State(), u, Step(SliceOf(old(State()), u).(backoffTimers := timers), nextGeneration, [], outside))
    {
      backoffTimers := backoffTimers[u := timers];
    }

    method StartTimer(u: u32, g: nat, attempt: u32)
      modifies this`backoffTimers, this`log
      ensures var s := SliceOf(old(State()), u);
              var timer := TimerFor(s, g, attempt);
              Steps(old(State()), State(), u,
                    Step(s.(backoffTimers := s.backoffTimers + multiset{timer}), nextGeneration, [Scheduled(timer)], outside))
    {
      AddTimer(u, Timer(g, attempt, settings.RestartDelay(SaturatingSub(attempt, 1))));
    }

    method TakeTimer(u: u32, g: nat, attempt: u32)
      modifies this`backoffTimers
      ensures Steps(old(State()), State(), u, Step(Fired(SliceOf(old(State()), u), g, attempt), nextGeneration, [], outside))
    {
      var timer := Timer(g, attempt, settings.RestartDelay(SaturatingSub(attempt, 1)));
      PutTimers(u, Get(backoffTimers, u, multiset{}) - multiset{timer});
    }

    method ApplyAction(u: u32, action: Action)
      requires Agree(SliceOf(State(), u)) && Answerable(pending, u, action)
      modifies this`helpers, this`machines, this`nextGeneration, this`spawnTimers, this`backoffTimers
      modifies this`pending, this`outside, this`log
      ensures Agree(SliceOf(State(), u))
      ensures Shrunk(old(pending), pending)
      ensures Steps(old(State()), State(), u, Apply(SliceOf(old(State()), u), old(nextGeneration), old(outside), action))
    {
      match action
      case SpawnHelper => SpawnHelper(u);
      case RequestStart(g, attempt) => var sent := SendHelper(u, g, StartManager(attempt));
      case ShutdownHelper(g) => var sent := SendHelper(u, g, Shutdown);
      case ScheduleBackoff(g, attempt) => StartTimer(u, g, attempt);
      case AnswerReady(requests) => ReplyAll(u, requests, ReplyReady);
      case AnswerError(requests, code) => ReplyAll(u, requests, ErrorReply(code));
    }

    method ApplyActions(u: u32, actions: seq<Action>)
      requires Agree(SliceOf(State(), u)) && AllAnswerable(pending, u, actions)
      modifies this`helpers, this`machines, this`nextGeneration, this`spawnTimers, this`backoffTimers
      modifies this`pending, this`outside, this`log
      ensures Agree(SliceOf(State(), u))
      ensures Steps(old(State()), State(), u, ApplyAll(SliceOf(old(State()), u), old(nextGeneration), old(outside), actions))
    {
      ghost var start := State();
      NothingApplied(start, u);
      for i := 0 to |actions|
        invariant Agree(SliceOf(State(), u)) && AllAnswerable(pending, u, actions)
        invariant Applied(start, State(), u, actions[..i])
      {
        ghost var before := State();
        assert actions[i] in actions;
        ApplyAction(u, actions[i]);
        ShrunkStaysAnswerable(before.pending, pending, u, actions);
        OneMoreApplied(start, before, State(), u, actions[..i], actions[i]);
        assert actions[..i] + [actions[i]] == actions[..i + 1];
      }
      assert actions[..|actions|] == actions;
    }

    /** The machine of `u` has taken a transition; its actions are to be applied. */
    method Transition(u: u32, outcome: Outcome)
      requires Fits(SliceOf(State(), u), outcome)
      modifies this`helpers, this`machines, this`nextGeneration, this`spawnTimers, this`backoffTimers
      modifies this`pending, this`outside, this`log
      ensures Agree(SliceOf(State(), u))
      ensures Steps(old(State()), State(), u, Settle(SliceOf(old(State()), u), old(nextGeneration), old(outside), outcome))
    {
      FitIsAnswerable(pending, u, SliceOf(State(), u), outcome);
      PutBack(u, outcome.machine);
      ghost var changed := State();
      ApplyActions(u, outcome.actions);
      QuietThen(old(State()), changed, State(), u, SliceOf(changed, u),
                ApplyAll(SliceOf(changed, u), changed.next, changed.outside, outcome.actions));
    }

    // ---- Events that concern one user ----

    /** A request that has waited too long is answered, and forgotten by the machine. */
    method PamExpired(request: nat)
      modifies this`pending, this`log, this`machines
      ensures if request in old(pending) then Took(old(State()), State(), old(pending)[request], Expire(request), outside)
              else State() == old(State())
    {
      if request in pending {
        var u := pending[request];
        Unlist(request, u);
        ghost var unlisted := State();
        CancelWith(u, request);
        ghost var s := SliceOf(State(), u);
        QuietThen(old(State()), unlisted, State(), u, SliceOf(unlisted, u), Step(s, nextGeneration, [], outside));
        ghost var cancelled := State();
        log := log + [Answered(request, ErrorReply(TimedOut))];
        assert Steps(cancelled, State(), u, Step(s, nextGeneration, [Answered(request, ErrorReply(TimedOut))], outside));
        QuietThen(old(State()), cancelled, State(), u, s, Step(s, nextGeneration, [Answered(request, ErrorReply(TimedOut))], outside));
        TookIsSteps(old(State()), State(), u, Expire(request), outside);
      }
    }

    method CancelWith(u: u32, request: nat)
      modifies this`machines
      ensures var s := SliceOf(old(State()), u);
              Steps(old(State()), State(), u, Step(s.(machine := CancelRequest(s.machine, request)), nextGeneration, [], outside))
    {
      if u in machines {
        var machine := Borrow(u);
        machine.CancelPamRequest(request);
        PutBack(u, machine.Value());
      }
    }

    method Unlist(request: nat, u: u32)
      requires request in pending && pending[request] == u
      modifies this`pending
      ensures var s := SliceOf(old(State()), u);
              && request in s.pending
              && Steps(old(State()), State(), u, Step(s.(pending := s.pending - {request}), nextGeneration, [], outside))
    {
      PendingWithout(pending, request, u);
      pending := pending - {request};
    }

    method BackoffElapsed(u: u32, g: nat, attempt: u32)
      requires Ready(u)
      modifies this`helpers, this`machines, this`nextGeneration, this`spawnTimers, this`backoffTimers
      modifies this`pending, this`outside, this`log
      ensures Took(old(State()), State(), u, BackoffFires(g, attempt), old(outside))
    {
      EndBackoff(u, g, attempt);
      TookIsSteps(old(State()), State(), u, BackoffFires(g, attempt), old(outside));
    }

    method EndBackoff(u: u32, g: nat, attempt: u32)
      requires Ready(u)
      modifies this`helpers, this`machines, this`nextGeneration, this`spawnTimers, this`backoffTimers
      modifies this`pending, this`outside, this`log
      ensures var s := SliceOf(old(State()), u);
              Steps(old(State()), State(), u,
                    Settle(Fired(s, g, attempt), old(nextGeneration), old(outside), Machines.BackoffElapsed(s.machine, g, attempt)))
    {
      TakeTimer(u, g, attempt);
      ghost var fired, s := State(), SliceOf(State(), u);
      if u in machines {
        var machine := Borrow(u);
        var actions := machine.BackoffDone(g, attempt);
        BackoffFits(s, g, attempt);
        Transition(u, Outcome(machine.Value(), actions));
        QuietThen(old(State()), fired, State(), u, s, Settle(s, fired.next, fired.outside, Machines.BackoffElapsed(s.machine, g, attempt)));
      } else {
        NothingToSettle(s, fired.next, fired.outside);
      }
    }

    /** A replacement is spawned only if the user still needs one. */
    method SpawnReplacement(u: u32)
      requires Ready(u)
      modifies this`helpers, this`machines, this`nextGeneration, this`spawnTimers, this`log
      ensures Took(old(State()), State(), u, SpawnFires, outside)
    {
      var timers := Get(spawnTimers, u, 0);
      SetSpawnTimers(u, if timers > 0 then timers - 1 else 0);
      ghost var fired, s := State(), SliceOf(State(), u);
      if u in machines && machines[u].eligible > 0 && machines[u].state.Absent? {
        SpawnHelper(u);
        QuietThen(old(State()), fired, State(), u, s, Spawn(s, fired.next, fired.outside));
      }
      TookIsSteps(old(State()), State(), u, SpawnFires, outside);
    }

    method HelperExited(u: u32, g: nat)
      requires Ready(u)
      modifies this`helpers, this`machines, this`nextGeneration, this`spawnTimers, this`backoffTimers
      modifies this`pending, this`outside, this`log
      ensures Took(old(State()), State(), u, HelperGone(g), old(outside))
    {
      if u in helpers && helpers[u].generation == g {
        Forget(u, g);
      }
      TookIsSteps(old(State()), State(), u, HelperGone(g), old(outside));
    }

    method Forget(u: u32, g: nat)
      requires Ready(u) && HasHelper(SliceOf(State(), u), g)
      modifies this`helpers, this`machines, this`nextGeneration, this`spawnTimers, this`backoffTimers
      modifies this`pending, this`outside, this`log
      ensures Steps(old(State()), State(), u, HearExit(SliceOf(old(State()), u), old(nextGeneration), old(outside), g))
    {
      DropHandle(u);
      ghost var alone, s := State(), SliceOf(State(), u);
      if u in machines {
        var machine := Borrow(u);
        var actions := machine.HelperExit(g);
        ghost var outcome := Outcome(machine.Value(), WithoutSpawns(actions));
        GoneFits(SliceOf(old(State()), u), g);
        Transition(u, Outcome(machine.Value(), WithoutSpawns(actions)));
        QuietThen(old(State()), alone, State(), u, s, Settle(s, alone.next, alone.outside, outcome));
        if Action.SpawnHelper in actions {
          ghost var left := State();
          SetSpawnTimers(u, Get(spawnTimers, u, 0) + 1);
          ThenQuiet(old(State()), left, State(), u, Settle(s, alone.next, alone.outside, outcome), SliceOf(State(), u));
        }
      }
    }

    /** The machine is told to stop without the usual transition. */
    method Doom(u: u32, g: nat)
      modifies this`machines
      ensures u in machines ==>
                Steps(old(State()), State(), u,
                      Step(SliceOf(old(State()), u).(machine := Doomed(SliceOf(old(State()), u).machine, g)), nextGeneration, [], outside))
      ensures u !in machines ==> State() == old(State())
    {
      if u in machines {
        var machine := Borrow(u);
        machine.state := Stopping(g, machine.eligibleSessions > 0);
        PutBack(u, machine.Value());
      }
    }

    /** A lease is accepted only if it holds; otherwise the helper is turned away. */
    method LeaseWasOpened(u: u32, g: nat, id: SessionId, runtimeDir: string, found: Option<SessionInfo>, trusted: bool)
      requires Ready(u) && HasHelper(SliceOf(State(), u), g)
      modifies this`helpers, this`machines, this`nextGeneration, this`spawnTimers, this`backoffTimers
      modifies this`pending, this`outside, this`log
      ensures Took(old(State()), State(), u,
                   Hear(g, LeaseOpened(id, runtimeDir), connected && LeaseHolds(u, id, runtimeDir, found, trusted)), old(outside))
    {
      if connected && LeaseHolds(u, id, runtimeDir, found, trusted) {
        AcceptLease(u, g, id);
      } else {
        RejectLease(u, g, id);
      }
      TookIsSteps(old(State()), State(), u,
                  Hear(g, LeaseOpened(id, runtimeDir), connected && LeaseHolds(u, id, runtimeDir, found, trusted)), old(outside));
    }

    method RejectLease(u: u32, g: nat, id: SessionId)
      requires Ready(u) && HasHelper(SliceOf(State(), u), g)
      modifies this`machines, this`outside, this`log
      ensures Steps(old(State()), State(), u, HearLease(SliceOf(old(State()), u), nextGeneration, old(outside), g, id, false))
    {
      var sent := SendHelper(u, g, LeaseRejected(REJECTION_TEXT));
      ghost var told, s := State(), SliceOf(old(State()), u);
      Doom(u, g);
      ThenQuiet(old(State()), told, State(), u, Send(s, nextGeneration, old(outside), g, LeaseRejected(REJECTION_TEXT)), SliceOf(State(), u));
    }

    method AcceptLease(u: u32, g: nat, id: SessionId)
      requires Ready(u) && HasHelper(SliceOf(State(), u), g)
      modifies this`helpers, this`machines, this`nextGeneration, this`spawnTimers, this`backoffTimers
      modifies this`pending, this`outside, this`log
      ensures Steps(old(State()), State(), u, HearLease(SliceOf(old(State()), u), old(nextGeneration), old(outside), g, id, true))
    {
      PutHandle(u, helpers[u].(lease := Some(id)));
      ghost var leased, s := State(), SliceOf(State(), u);
      var sent := SendHelper(u, g, LeaseAccepted);
      ghost var told, first := State(), Send(s, leased.next, leased.outside, g, LeaseAccepted);
      QuietThen(old(State()), leased, told, u, s, first);
      if sent {
        var machine := Borrow(u);
        var actions := machine.LeaseWasAccepted();
        ApplyActions(u, actions);
        StepsThen(old(State()), told, State(), u, first, LeaseAcceptedActions(s.machine));
      }
    }

    method HelperMessage(u: u32, g: nat, message: Report, found: Option<SessionInfo>, trusted: bool)
      requires Ready(u)
      modifies this`helpers, this`machines, this`nextGeneration, this`spawnTimers, this`backoffTimers
      modifies this`pending, this`outside, this`log
      ensures Took(old(State()), State(), u, Hear(g, message, Verified(connected, u, message, found, trusted)), old(outside))
    {
      if u !in helpers || helpers[u].generation != g {
        TookIsSteps(old(State()), State(), u, Hear(g, message, Verified(connected, u, message, found, trusted)), old(outside));
        return;
      }
      if message.LeaseOpened? {
        LeaseWasOpened(u, g, message.sessionId, message.runtimeDir, found, trusted);
      } else {
        Progress(u, g, message);
        TookIsSteps(old(State()), State(), u, Hear(g, message, false), old(outside));
      }
    }

    /** What the current helper tells of its start attempts. */
    method Progress(u: u32, g: nat, message: Report)
      requires Ready(u) && HasHelper(SliceOf(State(), u), g) && !message.LeaseOpened?
      modifies this`helpers, this`machines, this`nextGeneration, this`spawnTimers, this`backoffTimers
      modifies this`pending, this`outside, this`log
      ensures Steps(old(State()), State(), u, HearMessage(SliceOf(old(State()), u), old(nextGeneration), old(outside), g, message, false))
    {
      match message
      case ManagerSpawned(pid) => RecordSpawn(u, g, pid);
      case ReadySucceeded => RecordSuccess(u, g);
      case StartFailed(_) => RecordFailure(u, g);
      case ManagerExited(_) => RecordExit(u, g);
      case _ =>
    }

    method RecordSpawn(u: u32, g: nat, pid: u32)
      requires Ready(u) && HasHelper(SliceOf(State(), u), g)
      modifies this`helpers, this`machines
      ensures Steps(old(State()), State(), u,
                    HearMessage(SliceOf(old(State()), u), nextGeneration, outside, g, ManagerSpawned(pid), false))
    {
      PutHandle(u, helpers[u].(managerPid := Some(pid)));
      ghost var handled, s := State(), SliceOf(State(), u);
      if u in machines {
        var machine := Borrow(u);
        machine.ManagerStarted(g, pid);
        PutBack(u, machine.Value());
        QuietThen(old(State()), handled, State(), u, s, Step(SliceOf(State(), u), nextGeneration, [], outside));
      }
    }

    method RecordSuccess(u: u32, g: nat)
      requires Ready(u)
      modifies this`helpers, this`machines, this`nextGeneration, this`spawnTimers, this`backoffTimers
      modifies this`pending, this`outside, this`log
      ensures Steps(old(State()), State(), u,
                    Settle(SliceOf(old(State()), u), old(nextGeneration), old(outside), ReadySucceededIn(SliceOf(old(State()), u).machine, g)))
    {
      if u in machines {
        var machine := Borrow(u);
        var actions := machine.ReadyDone(g);
        SuccessFits(SliceOf(State(), u), g);
        Transition(u, Outcome(machine.Value(), actions));
      } else {
        NothingToSettle(SliceOf(State(), u), nextGeneration, outside);
      }
    }

    method RecordFailure(u: u32, g: nat)
      requires Ready(u)
      modifies this`helpers, this`machines, this`nextGeneration, this`spawnTimers, this`backoffTimers
      modifies this`pending, this`outside, this`log
      ensures Steps(old(State()), State(), u,
                    Settle(SliceOf(old(State()), u), old(nextGeneration), old(outside), StartupFailedIn(SliceOf(old(State()), u).machine, g)))
    {
      if u in machines {
        var machine := Borrow(u);
        var actions := machine.StartupFailure(g);
        FailureFits(SliceOf(State(), u), g);
        Transition(u, Outcome(machine.Value(), actions));
      } else {
        NothingToSettle(SliceOf(State(), u), nextGeneration, outside);
      }
    }

    method RecordExit(u: u32, g: nat)
      requires Ready(u) && HasHelper(SliceOf(State(), u), g)
      modifies this`helpers, this`machines, this`nextGeneration, this`spawnTimers, this`backoffTimers
      modifies this`pending, this`outside, this`log
      ensures var s := SliceOf(old(State()), u);
              var forgotten := s.(helper := Some(s.helper.value.(managerPid := None)));
              Steps(old(State()), State(), u,
                    Settle(forgotten, old(nextGeneration), old(outside), ManagerExitedIn(s.machine, g)))
    {
      PutHandle(u, helpers[u].(managerPid := None));
      ghost var handled, s := State(), SliceOf(State(), u);
      if u in machines {
        var machine := Borrow(u);
        var actions := machine.ManagerExit(g);
        ExitFits(s, g);
        Transition(u, Outcome(machine.Value(), actions));
        QuietThen(old(State()), handled, State(), u, s, Settle(s, handled.next, handled.outside, ManagerExitedIn(s.machine, g)));
      } else {
        NothingToSettle(s, nextGeneration, outside);
      }
    }

    // ---- Sessions ----

    method UpdateEligibleCount(u: u32)
      requires Ready(u)
      modifies this`helpers, this`machines, this`nextGeneration, this`spawnTimers, this`backoffTimers
      modifies this`pending, this`outside, this`log
      ensures Took(old(State()), State(), u, Recount(SliceOf(old(State()), u).ids), old(outside))
    {
      var count := |Get(eligible, u, {})|;
      var machine := Borrow(u);
      var actions := machine.SetEligibleSessions(count);
      CountingFits(SliceOf(State(), u), count);
      Transition(u, Outcome(machine.Value(), actions));
      TookIsSteps(old(State()), State(), u, Recount(SliceOf(old(State()), u).ids), old(outside));
    }

    method PutEligible(u: u32, ids: set<SessionId>)
      modifies this`eligible
      ensures eligible == old(eligible)[u := ids]
      ensures Steps(old(State()), State(), u, Step(SliceOf(old(State()), u).(ids := ids), nextGeneration, [], outside))
    {
      eligible := eligible[u := ids];
    }

    /** The sessions that count for a user change, and with them the machine's count. */
    method ChangeEligible(u: u32, ids: set<SessionId>)
      requires Ready(u)
      modifies this`eligible
      modifies this`helpers, this`machines, this`nextGeneration, this`spawnTimers, this`backoffTimers
      modifies this`pending, this`outside, this`log
      ensures eligible == old(eligible)[u := ids]
      ensures Took(old(State()), State(), u, Recount(ids), old(outside))
    {
      PutEligible(u, ids);
      ghost var counted, s := State(), SliceOf(State(), u);
      UpdateEligibleCount(u);
      TookIsSteps(counted, State(), u, Recount(ids), counted.outside);
      QuietThen(old(State()), counted, State(), u, s, Perform(s, counted.next, counted.outside, Recount(ids)));
      TookIsSteps(old(State()), State(), u, Recount(ids), old(outside));
    }

    method FilterEligible(sessions: seq<SessionInfo>, accounts: map<u32, Account>) returns (r: map<u32, set<SessionId>>)
      ensures forall u: u32 :: Get(r, u, {}) == PermittedIds(policy, sessions, accounts, u)
    {
      r := map[];
      for i := 0 to |sessions|
        invariant forall u: u32 :: Get(r, u, {}) == PermittedIds(policy, sessions[..i], accounts, u)
      {
        var session := sessions[i];
        assert sessions[..i + 1] == sessions[..i] + [session];
        PermittedIdsGrow(policy, sessions[..i], session, accounts);
        if policy.Admits(session, accounts) {
          r := r[session.uid := Get(r, session.uid, {}) + {session.id}];
        }
      }
      assert sessions[..|sessions|] == sessions;
    }

    /** One of the users that are counted anew; the others not in `done` seem to have their old sessions in `mixed`. */
    method CountAnew(ghost start: Books, ghost replacement: map<u32, set<SessionId>>, ghost mixed: Books, ghost done: set<u32>,
                     u: u32, w: Answers)
      returns (ghost after: Books)
      requires AllSound(start) && Halfway(start, State(), replacement, done) && u !in done
      requires InOrder(log, pending, nextRequest) && IsMixed(mixed, State(), start.eligible, done)
      modifies this`helpers, this`machines, this`nextGeneration, this`spawnTimers, this`backoffTimers
      modifies this`pending, this`outside, this`log
      ensures Halfway(start, State(), replacement, done + {u})
      ensures InOrder(log, pending, nextRequest) && IsMixed(after, State(), start.eligible, done + {u})
      ensures Took(mixed, after, u, Recount(Get(eligible, u, {})), w)
    {
      HalfwayAnyOutside(start, State(), replacement, done, w);
      MixedAnyOutside(mixed, State(), start.eligible, done, w);
      outside := w;
      ghost var before := State();
      HalfwayIsReady(start, before, replacement, done, u);
      UpdateEligibleCount(u);
      HalfwayStep(start, before, State(), replacement, done, u, w);
      StepKeepsAccounts(before, State(), u, Recount(SliceOf(before, u).ids), w, nextRequest);
      after := MixedStep(mixed, before, State(), start.eligible, done, u, w);
    }

    /**
      All users are counted anew, those without any eligible session too. That is one step for each,
      in any order, by which the user gets the new sessions.
     */
    method ReplaceEligible(replacement: map<u32, set<SessionId>>, worlds: u32 -> Answers) returns (ghost acts: seq<Act>)
      requires nextRequest >= 1 && AllSound(State()) && InOrder(log, pending, nextRequest)
      modifies this`eligible
      modifies this`helpers, this`machines, this`nextGeneration, this`spawnTimers, this`backoffTimers
      modifies this`pending, this`outside, this`log
      ensures eligible == replacement
      ensures forall u: u32 :: Recounted(SliceOf(old(State()), u), SliceOf(State(), u), Get(replacement, u, {}))
      ensures AllSound(State()) && InOrder(log, pending, nextRequest)
      ensures Lawful(old(State()), nextRequest, acts, State(), nextRequest)
      ensures CountsAnew(acts, replacement, worlds, old(eligible).Keys + replacement.Keys)
    {
      ghost var start := State();
      var uids := eligible.Keys + replacement.Keys;
      eligible := replacement;
      NothingIsCounted(start, State(), replacement, worlds, nextRequest);
      ghost var mixed;
      mixed, acts := CountAllAnew(start, uids, worlds);
      AllAreCounted(start, State(), replacement, mixed, acts, nextRequest, uids);
    }

    /** While all users are counted anew: what was done, and the steps it amounts to. */
    ghost predicate Counting(start: Books, worlds: u32 -> Answers, mixed: Books, acts: seq<Act>, done: set<u32>)
      reads this
    {
      && AllSound(start) && InOrder(log, pending, nextRequest)
      && Halfway(start, State(), eligible, done) && IsMixed(mixed, State(), start.eligible, done)
      && Lawful(start, nextRequest, acts, mixed, nextRequest) && CountsAnew(acts, eligible, worlds, done)
    }

    method CountAllAnew(ghost start: Books, uids: set<u32>, worlds: u32 -> Answers) returns (ghost mixed: Books, ghost acts: seq<Act>)
      requires Counting(start, worlds, start, [], {})
      modifies this`helpers, this`machines, this`nextGeneration, this`spawnTimers, this`backoffTimers
      modifies this`pending, this`outside, this`log
      ensures Counting(start, worlds, mixed, acts, uids)
    {
      var todo := uids;
      mixed, acts := start, [];
      assert uids - todo == {};
      while todo != {}
        invariant todo <= uids && Counting(start, worlds, mixed, acts, uids - todo)
        decreases todo
      {
        var u :| u in todo;
        OneLessToDo(uids, todo, u);
        mixed, acts := CountNext(start, mixed, acts, uids - todo, u, worlds);
        todo := todo - {u};
      }
      assert uids - todo == uids;
    }

    method CountNext(ghost start: Books, ghost mixed: Books, ghost acts: seq<Act>, ghost done: set<u32>, u: u32, worlds: u32 -> Answers)
      returns (ghost after: Books, ghost more: seq<Act>)
      requires Counting(start, worlds, mixed, acts, done) && u !in done
      modifies this`helpers, this`machines, this`nextGeneration, this`spawnTimers, this`backoffTimers
      modifies this`pending, this`outside, this`log
      ensures Counting(start, worlds, after, more, done + {u})
    {
      ghost var op := Recount(Get(eligible, u, {}));
      after := CountAnew(start, eligible, mixed, done, u, worlds(u));
      ghost var act := Act(u, op, worlds(u), after, nextRequest);
      more := acts + [act];
      OneAct(mixed, nextRequest, act);
      LawfulThen(start, nextRequest, acts, mixed, nextRequest, [act], after, nextRequest);
      OneMoreCounted(acts, act, eligible, worlds, done);
    }

    /** A successful listing replaces what is known; a failed one changes nothing but the availability. */
    method Reconcile(answer: Option<seq<SessionInfo>>, accounts: map<u32, Account>, worlds: u32 -> Answers)
      returns (ghost acts: seq<Act>)
      requires Valid()
      modifies this`available, this`eligible, this`admitted, inventory
      modifies this`helpers, this`machines, this`nextGeneration, this`spawnTimers, this`backoffTimers
      modifies this`pending, this`outside, this`log
      ensures Valid()
      ensures Listed(policy, old(Now()), Now(), answer, accounts)
      ensures Lawful(old(State()), nextRequest, acts, State(), nextRequest) && Recounts(acts)
    {
      acts := [];
      if !connected {
        return;
      }
      available := answer.Some?;
      if answer.None? {
        return;
      }
      var changes := inventory.Reconcile(answer.value);
      acts := TakeOver(answer.value, accounts, worlds);
    }

    /** The listed sessions that are permitted are those that count from now on. */
    method TakeOver(sessions: seq<SessionInfo>, accounts: map<u32, Account>, worlds: u32 -> Answers) returns (ghost acts: seq<Act>)
      requires Valid()
      modifies this`eligible, this`admitted
      modifies this`helpers, this`machines, this`nextGeneration, this`spawnTimers, this`backoffTimers
      modifies this`pending, this`outside, this`log
      ensures Valid()
      ensures CountedFrom(State(), policy, sessions, accounts)
      ensures Lawful(old(State()), nextRequest, acts, State(), nextRequest) && Recounts(acts)
    {
      var replacement := FilterEligible(sessions, accounts);
      ghost var uids := eligible.Keys + replacement.Keys;
      acts := ReplaceEligible(replacement, worlds);
      CountingRecounts(acts, replacement, worlds, uids);
      admitted := admitted + set s | s in sessions && policy.Admits(s, accounts) :: (s, accounts[s.uid]);
      ListIsAdmitted(policy, sessions, accounts, eligible, admitted);
      forall u: u32
        ensures CountedFor(SliceOf(State(), u), PermittedIds(policy, sessions, accounts, u))
      {
        assert SoundFor(State(), u);
      }
    }

    /** A session counts for its user from now on, if it did not before. */
    method AddEligible(session: SessionInfo, account: Account)
      requires Valid() && policy.Permits(session, account)
      modifies this`eligible, this`admitted
      modifies this`helpers, this`machines, this`nextGeneration, this`spawnTimers, this`backoffTimers
      modifies this`pending, this`outside, this`log
      ensures Valid()
      ensures var ids := SliceOf(old(State()), session.uid).ids;
              if session.id in ids then State() == old(State())
              else Took(old(State()), State(), session.uid, Recount(ids + {session.id}), old(outside))
      ensures SliceOf(State(), session.uid).machine.eligible > 0
    {
      var u := session.uid;
      var ids := Get(eligible, u, {});
      if session.id !in ids {
        assert SoundFor(State(), u);
        ChangeEligible(u, ids + {session.id});
        OneMoreIsAdmitted(policy, old(eligible), admitted, session, account);
        admitted := admitted + {(session, account)};
        StepKeepsBooks(old(State()), State(), u, Recount(ids + {session.id}), old(outside), nextRequest);
        TookIsSteps(old(State()), State(), u, Recount(ids + {session.id}), old(outside));
        RecountSets(SliceOf(old(State()), u), old(nextGeneration), old(outside), ids + {session.id});
      }
      CountedIsPositive(State(), u, session.id);
    }

    method RefreshSession(found: Option<SessionInfo>, accounts: map<u32, Account>)
      requires Valid()
      modifies this`eligible, this`admitted, inventory
      modifies this`helpers, this`machines, this`nextGeneration, this`spawnTimers, this`backoffTimers
      modifies this`pending, this`outside, this`log
      ensures Valid()
      ensures inventory.sessions ==
              if connected && found.Some? then old(inventory.sessions)[found.value.id := found.value] else old(inventory.sessions)
      ensures Refreshed(old(State()), State(), policy, if connected then found else None, accounts, old(outside))
    {
      if !connected || found.None? {
        return;
      }
      var session := found.value;
      var previous := inventory.Insert(session);
      if policy.Admits(session, accounts) {
        AddEligible(session, accounts[session.uid]);
      }
    }

    /** The session is taken from the user it was last seen with or, failing that, from one it counts for. */
    method RemoveSession(id: SessionId) returns (ghost user: Option<u32>)
      requires Valid()
      modifies this`eligible, inventory
      modifies this`helpers, this`machines, this`nextGeneration, this`spawnTimers, this`backoffTimers
      modifies this`pending, this`outside, this`log
      ensures Valid()
      ensures inventory.sessions == old(inventory.sessions) - {id}
      ensures Removed(old(State()), State(), old(inventory.sessions), id, user, old(outside))
    {
      var removed := inventory.Remove(id);
      var u: u32;
      user := None;
      if removed.Some? {
        u := removed.value.uid;
      } else if v :| v in eligible && id in eligible[v] {
        u := v;
      } else {
        return;
      }
      if u in eligible && id in eligible[u] {
        user := Some(u);
        ghost var ids := eligible[u] - {id};
        assert SoundFor(State(), u);
        OneLessIsAdmitted(policy, eligible, admitted, u, id);
        ChangeEligible(u, eligible[u] - {id});
        StepKeepsBooks(old(State()), State(), u, Recount(ids), old(outside), nextRequest);
      }
    }

    // ---- Requests ----

    /**
      A request is refused at once, changing nothing, or accepted: its session counts from now on,
      and it joins the waiting ones under a new number.
     */
    method HandlePamRequest(runtimeDir: string, peer: u32, found: Option<SessionInfo>, accounts: map<u32, Account>)
      returns (refused: Option<ErrorCode>, ghost counted: Books)
      requires Valid()
      modifies this`eligible, this`admitted, this`nextRequest, inventory
      modifies this`helpers, this`machines, this`nextGeneration, this`spawnTimers, this`backoffTimers
      modifies this`pending, this`outside, this`log
      ensures Valid()
      ensures refused == Refusal(policy, available && connected, runtimeDir, peer, found, accounts, old(pending))
      ensures refused.Some? ==>
                State() == old(State()) && nextRequest == old(nextRequest) && inventory.sessions == old(inventory.sessions)
      ensures refused.None? ==>
                && nextRequest == old(nextRequest) + 1
                && inventory.sessions == old(inventory.sessions)[found.value.id := found.value]
                && AcceptedFrom(old(State()), counted, State(), found.value, old(nextRequest))
    {
      refused := Check(runtimeDir, peer, found, accounts);
      if refused.Some? {
        return refused, State();
      }
      counted := Accept(found.value, accounts);
    }

    ghost predicate Acceptable(session: SessionInfo, accounts: map<u32, Account>)
      reads this
    {
      && session.uid in accounts && policy.Permits(session, accounts[session.uid])
      && |pending| < MAX_PENDING && |PendingOf(pending, session.uid)| < MAX_PENDING_PER_USER
    }

    /** The checks before a request is accepted, in order. */
    method Check(runtimeDir: string, peer: u32, found: Option<SessionInfo>, accounts: map<u32, Account>) returns (refused: Option<ErrorCode>)
      ensures refused == Refusal(policy, available && connected, runtimeDir, peer, found, accounts, pending)
      ensures refused.None? ==> found.Some? && Acceptable(found.value, accounts)
    {
      if !available || !connected {
        return Some(Login1Unavailable);
      }
      if found.None? {
        return Some(SessionNotFound);
      }
      var session := found.value;
      if session.runtimePath != runtimeDir {
        return Some(InvalidRequest);
      }
      if !policy.Admits(session, accounts) {
        return Some(SessionIneligible);
      }
      if peer != 0 && peer != session.uid {
        return Some(PermissionDenied);
      }
      if |pending| >= MAX_PENDING || |PendingOf(pending, session.uid)| >= MAX_PENDING_PER_USER {
        return Some(ErrorCode.Internal);
      }
      refused := None;
    }

    method Accept(session: SessionInfo, accounts: map<u32, Account>) returns (ghost counted: Books)
      requires Valid() && Acceptable(session, accounts)
      modifies this`eligible, this`admitted, this`nextRequest, inventory
      modifies this`helpers, this`machines, this`nextGeneration, this`spawnTimers, this`backoffTimers
      modifies this`pending, this`outside, this`log
      ensures Valid() && nextRequest == old(nextRequest) + 1
      ensures inventory.sessions == old(inventory.sessions)[session.id := session]
      ensures AcceptedFrom(old(State()), counted, State(), session, old(nextRequest))
    {
      var previous := inventory.Insert(session);
      AddEligible(session, accounts[session.uid]);
      counted := State();
      if session.id !in SliceOf(old(State()), session.uid).ids {
        StepShrinks(old(State()), counted, session.uid, Recount(SliceOf(old(State()), session.uid).ids + {session.id}), old(outside));
      }
      NewNumberIsFree(log, pending, nextRequest, session.uid);
      Enqueue(session.uid);
    }

    method Enqueue(u: u32)
      requires Valid() && SliceOf(State(), u).machine.eligible > 0
      requires |pending| < MAX_PENDING && |PendingOf(pending, u)| < MAX_PENDING_PER_USER
      modifies this`nextRequest
      modifies this`helpers, this`machines, this`nextGeneration, this`spawnTimers, this`backoffTimers
      modifies this`pending, this`outside, this`log
      ensures Valid() && nextRequest == old(nextRequest) + 1
      ensures Took(old(State()), State(), u, Join(old(nextRequest)), old(outside))
    {
      ghost var before := State();
      var request := nextRequest;
      NewNumberIsFree(log, pending, request, u);
      nextRequest := nextRequest + 1;
      assert SoundFor(before, u);
      Insert(u, request);
      StepKeepsAllSound(before, State(), u, Join(request), before.outside);
      JoinKeepsAccounts(before, State(), u, before.outside, request);
    }

    method Insert(u: u32, request: nat)
      requires Ready(u) && request !in pending
      modifies this`helpers, this`machines, this`nextGeneration, this`spawnTimers, this`backoffTimers
      modifies this`pending, this`outside, this`log
      ensures Took(old(State()), State(), u, Join(request), old(outside))
    {
      Enlist(u, request);
      ghost var joined, s := State(), SliceOf(State(), u);
      var machine := Borrow(u);
      var actions := machine.AddPamRequest(request);
      JoiningFits(SliceOf(old(State()), u), request);
      Transition(u, Outcome(machine.Value(), actions));
      QuietThen(old(State()), joined, State(), u, s, Settle(s, joined.next, joined.outside, AddRequest(s.machine, request)));
      TookIsSteps(old(State()), State(), u, Join(request), old(outside));
    }

    method Enlist(u: u32, request: nat)
      requires request !in pending
      modifies this`pending
      ensures var s := SliceOf(old(State()), u);
              Steps(old(State()), State(), u, Step(s.(pending := s.pending + {request}), nextGeneration, [], outside))
    {
      PendingWith(pending, request, u);
      pending := pending[request := u];
    }

    // ---- Leases after a reconnection ----

    /** A lease that does not hold any more: its helper is told to leave. */
    method LoseLease(u: u32)
      requires Ready(u) && u in helpers && helpers[u].lease.Some?
      modifies this`machines, this`outside, this`log
      ensures Took(old(State()), State(), u, LeaseLost, old(outside))
    {
      var g := helpers[u].generation;
      Doom(u, g);
      ghost var doomed, s := State(), SliceOf(State(), u);
      var sent := SendHelper(u, g, Shutdown);
      QuietThen(old(State()), doomed, State(), u, s, Send(s, doomed.next, doomed.outside, g, Shutdown));
      TookIsSteps(old(State()), State(), u, LeaseLost, old(outside));
    }

    /** The outside is asked anew. */
    method Ask(w: Answers)
      requires Valid()
      modifies this`outside
      ensures Valid() && State() == old(State()).(outside := w)
      ensures forall u: u32 :: SliceOf(State(), u) == SliceOf(old(State()), u)
    {
      OutsideIsOutside(State(), w);
      outside := w;
    }

    method VerifyLease(u: u32, id: SessionId, found: map<SessionId, SessionInfo>, trusted: set<u32>) returns (holds: bool)
      requires Valid() && u in helpers && helpers[u].lease == Some(id)
      modifies this`machines, this`outside, this`log
      ensures Valid()
      ensures MayHold(inventory.sessions, connected, u, id, found, trusted, holds)
      ensures if holds then State() == old(State()) else Took(old(State()), State(), u, LeaseLost, old(outside))
    {
      var sessions := inventory.SessionsFor(u);
      holds := false;
      if sessions != {} {
        var session :| session in sessions;
        holds := connected && LeaseHolds(u, id, session.runtimePath, Lookup(found, id), u in trusted);
      }
      if !holds {
        assert SoundFor(State(), u);
        LoseLease(u);
        StepKeepsBooks(old(State()), State(), u, LeaseLost, old(outside), nextRequest);
      }
    }

    method VerifyNow(u: u32, id: SessionId, found: map<SessionId, SessionInfo>, trusted: set<u32>, w: Answers) returns (holds: bool)
      requires Valid() && u in helpers && helpers[u].lease == Some(id)
      modifies this`machines, this`outside, this`log
      ensures Valid() && MayHold(inventory.sessions, connected, u, id, found, trusted, holds)
      ensures OnlyLost(old(State()), State(), if holds then {} else {u})
      ensures if holds then Same(old(State()), State()) else Took(old(State()), State(), u, LeaseLost, w)
    {
      Ask(w);
      OtherOutsideIsSame(old(State()), w);
      holds := VerifyLease(u, id, found, trusted);
      if !holds {
        TookAnyOutside(old(State()), State(), u, LeaseLost, w, w);
        LeaseLossLoses(old(State()), State(), u, w);
      }
    }

    /** Every lease is verified again; a user whose lease is lost is stopping from then on. */
    method VerifyActiveLeases(found: map<SessionId, SessionInfo>, trusted: set<u32>, worlds: u32 -> Answers)
      returns (lost: set<u32>, ghost acts: seq<Act>)
      requires Valid()
      modifies this`machines, this`outside, this`log
      ensures Valid()
      ensures LeasesVerified(Now(), found, trusted, lost) && OnlyLost(old(State()), State(), lost)
      ensures Lawful(old(State()), nextRequest, acts, State(), nextRequest) && Reviews(acts)
    {
      var leases := map u | u in helpers && helpers[u].lease.Some? :: helpers[u].lease.value;
      ghost var q := Inquiry(inventory.sessions, connected, found, trusted);
      var todo := leases.Keys;
      lost := {};
      acts := [];
      while todo != {}
        invariant todo <= leases.Keys && lost !! todo
        invariant Verifying(old(State()), leases, q, acts, todo, lost)
        decreases todo
      {
        var u :| u in todo;
        var holds: bool;
        holds, acts := VerifyNext(old(State()), leases, q, acts, todo, lost, u, found, trusted, worlds(u));
        lost := if holds then lost else lost + {u};
        todo := todo - {u};
      }
    }

    /** While leases are verified: what was found of those not in `todo`, and the steps it amounts to. */
    ghost predicate Verifying(start: Books, leases: map<u32, SessionId>, q: Inquiry, acts: seq<Act>, todo: set<u32>, lost: set<u32>)
      reads this, inventory
    {
      && Valid() && q == Inquiry(inventory.sessions, connected, q.found, q.trusted)
      && (forall u :: u in leases ==> u in helpers && helpers[u].lease == Some(leases[u]))
      && Inquired(start, State(), leases, q, todo, lost)
      && Lawful(start, nextRequest, acts, State(), nextRequest) && Reviews(acts)
    }

    /** One of the leases that are still to be verified. */
    method VerifyNext(ghost start: Books, leases: map<u32, SessionId>, ghost q: Inquiry, ghost acts: seq<Act>, ghost todo: set<u32>,
                      ghost lost: set<u32>, u: u32, found: map<SessionId, SessionInfo>, trusted: set<u32>, w: Answers)
      returns (holds: bool, ghost more: seq<Act>)
      requires Verifying(start, leases, q, acts, todo, lost) && u in leases && u in todo && u !in lost
      requires q.found == found && q.trusted == trusted
      modifies this`machines, this`outside, this`log
      ensures Verifying(start, leases, q, more, todo - {u}, if holds then lost else lost + {u})
    {
      ghost var before := State();
      holds := VerifyNow(u, leases[u], found, trusted, w);
      InquiredStep(start, before, State(), leases, q, todo, lost, u, holds);
      more := VerifiedIsLawful(before, State(), u, holds, w, nextRequest);
      LawfulThen(start, nextRequest, acts, before, nextRequest, more, State(), nextRequest);
      more := acts + more;
    }

    // ---- The event loop ----

    /** Every event keeps all that holds at event boundaries, and has its effect. */
    method HandleDaemonEvent(event: DaemonEvent, w: Answers) returns (refused: Option<ErrorCode>, ghost counted: Books)
      requires Valid()
      modifies this`eligible, this`admitted, this`nextRequest, inventory
      modifies this`helpers, this`machines, this`nextGeneration, this`spawnTimers, this`backoffTimers
      modifies this`pending, this`outside, this`log
      ensures Valid()
      ensures Handled(policy, event, old(Now()), counted, Now(), w)
      ensures refused == RefusalOf(policy, OnEvent(event, w), old(Now()))
    {
      match event
      case Pam(_, _, _, _) => refused, counted := HandleRequest(event, w);
      case _ =>
        refused, counted := None, State();
        HandleTimely(event, w);
    }

    method HandleRequest(event: DaemonEvent, w: Answers) returns (refused: Option<ErrorCode>, ghost counted: Books)
      requires Valid() && event.Pam?
      modifies this`eligible, this`admitted, this`nextRequest, inventory
      modifies this`helpers, this`machines, this`nextGeneration, this`spawnTimers, this`backoffTimers
      modifies this`pending, this`outside, this`log
      ensures Valid()
      ensures Handled(policy, event, old(Now()), counted, Now(), w)
      ensures refused == RefusalOf(policy, OnEvent(event, w), old(Now()))
    {
      Ask(w);
      refused, counted := HandlePamRequest(event.runtimeDir, event.peer, event.found, event.accounts);
    }

    /** All events but new requests. */
    method HandleTimely(event: DaemonEvent, w: Answers)
      requires Valid() && !event.Pam?
      modifies this`helpers, this`machines, this`nextGeneration, this`spawnTimers, this`backoffTimers
      modifies this`pending, this`outside, this`log
      ensures Valid() && Handled(policy, event, old(Now()), old(State()), Now(), w)
    {
      Ask(w);
      if event.PamExpires? {
        HandleExpiry(event.request);
        if event.request in old(pending) {
          TookAnyOutside(old(State()), State(), old(pending)[event.request], Expire(event.request), w, w);
        }
      } else if IsStep(event) {
        HandleHelperEvent(event);
        TookAnyOutside(old(State()), State(), event.user, OpOf(event, connected), w, w);
      }
    }

    /** Messages, exits and timers are the steps of the same name. */
    method HandleHelperEvent(event: DaemonEvent)
      requires Valid() && IsStep(event)
      modifies this`helpers, this`machines, this`nextGeneration, this`spawnTimers, this`backoffTimers
      modifies this`pending, this`outside, this`log
      ensures Valid() && Took(old(State()), State(), event.user, OpOf(event, connected), old(outside))
    {
      assert SoundFor(State(), event.user);
      match event {
        case Message(u, g, message, found, trusted) => HelperMessage(u, g, message, found, trusted);
        case HelperEnds(u, g) => HelperExited(u, g);
        case BackoffEnds(u, g, attempt) => BackoffElapsed(u, g, attempt);
        case ReplacementDue(u) => SpawnReplacement(u);
      }
      StepKeepsBooks(old(State()), State(), event.user, OpOf(event, connected), old(outside), nextRequest);
    }

    method HandleExpiry(request: nat)
      requires Valid()
      modifies this`pending, this`log, this`machines
      ensures Valid() && request !in pending
      ensures if request in old(pending) then Took(old(State()), State(), old(pending)[request], Expire(request), outside)
              else State() == old(State())
    {
      PamExpired(request);
      if request in old(pending) {
        var u := old(pending)[request];
        StepKeepsBooks(old(State()), State(), u, Expire(request), outside, nextRequest);
        ExpiredIsGone(old(State()), State(), u, request, outside);
      }
    }

    /** A listing, and then every lease; `counted` is what is known in between. */
    method ReconcileAndVerify(listed: Option<seq<SessionInfo>>, leases: map<SessionId, SessionInfo>, trusted: set<u32>,
                              accounts: map<u32, Account>, worlds: u32 -> Answers)
      returns (lost: set<u32>, ghost counted: Snapshot, ghost acts: seq<Act>)
      requires Valid()
      modifies this`available, this`eligible, this`admitted, inventory
      modifies this`helpers, this`machines, this`nextGeneration, this`spawnTimers, this`backoffTimers
      modifies this`pending, this`outside, this`log
      ensures Valid() && Recovered(policy, old(Now()), counted, Now(), listed, accounts, leases, trusted, lost)
      ensures Lawful(old(State()), nextRequest, acts, State(), nextRequest) && Reviews(acts)
    {
      acts := Reconcile(listed, accounts, worlds);
      counted := Now();
      ghost var more;
      lost, more := VerifyCounted(listed, leases, trusted, accounts, worlds);
      LawfulThen(old(State()), nextRequest, acts, counted.books, nextRequest, more, State(), nextRequest);
      acts := acts + more;
    }

    /** The leases after a listing, if there was one. */
    method VerifyCounted(ghost listed: Option<seq<SessionInfo>>, leases: map<SessionId, SessionInfo>, trusted: set<u32>,
                         ghost accounts: map<u32, Account>, worlds: u32 -> Answers) returns (lost: set<u32>, ghost acts: seq<Act>)
      requires Valid()
      requires connected && listed.Some? ==> CountedFrom(State(), policy, listed.value, accounts)
      modifies this`machines, this`outside, this`log
      ensures Valid() && LeasesVerified(Now(), leases, trusted, lost) && OnlyLost(old(State()), State(), lost)
      ensures connected && listed.Some? ==> CountedFrom(State(), policy, listed.value, accounts)
      ensures Lawful(old(State()), nextRequest, acts, State(), nextRequest) && Reviews(acts)
    {
      lost, acts := VerifyActiveLeases(leases, trusted, worlds);
      if connected && listed.Some? {
        LossKeepsCounts(old(State()), State(), lost, policy, listed.value, accounts);
      }
    }

    method HandleSessionNew(found: Option<SessionInfo>, accounts: map<u32, Account>, w: Answers) returns (ghost acts: seq<Act>)
      requires Valid()
      modifies this`eligible, this`admitted, inventory
      modifies this`helpers, this`machines, this`nextGeneration, this`spawnTimers, this`backoffTimers
      modifies this`pending, this`outside, this`log
      ensures Valid() && Informed(policy, SessionNew(found, w), accounts, old(Now()), old(Now()), Now(), {})
      ensures Lawful(old(State()), nextRequest, acts, State(), nextRequest) && Recounts(acts)
    {
      Ask(w);
      RefreshSession(found, accounts);
      RefreshedAnyOutside(old(State()), State(), policy, if connected then found else None, accounts, w);
      acts := RefreshedIsLawful(old(State()), State(), policy, if connected then found else None, accounts, w, nextRequest);
    }

    method HandleSessionRemoved(id: SessionId, ghost accounts: map<u32, Account>, w: Answers) returns (ghost acts: seq<Act>)
      requires Valid()
      modifies this`eligible, inventory
      modifies this`helpers, this`machines, this`nextGeneration, this`spawnTimers, this`backoffTimers
      modifies this`pending, this`outside, this`log
      ensures Valid() && Informed(policy, SessionRemoved(id, w), accounts, old(Now()), old(Now()), Now(), {})
      ensures Lawful(old(State()), nextRequest, acts, State(), nextRequest) && Recounts(acts)
    {
      Ask(w);
      ghost var user := RemoveSession(id);
      RemovedAnyOutside(old(State()), State(), old(inventory.sessions), id, user, w);
      acts := RemovedIsLawful(old(State()), State(), old(inventory.sessions), id, user, w, nextRequest);
    }

    method HandleOwnerBack(listed: Option<seq<SessionInfo>>, leases: map<SessionId, SessionInfo>, trusted: set<u32>,
                           accounts: map<u32, Account>, worlds: u32 -> Answers)
      returns (lost: set<u32>, ghost counted: Snapshot, ghost acts: seq<Act>)
      requires Valid()
      modifies this`available, this`eligible, this`admitted, inventory
      modifies this`helpers, this`machines, this`nextGeneration, this`spawnTimers, this`backoffTimers
      modifies this`pending, this`outside, this`log
      ensures Valid() && Recovered(policy, old(Now()).(available := true), counted, Now(), listed, accounts, leases, trusted, lost)
      ensures Lawful(old(State()), nextRequest, acts, State(), nextRequest) && Reviews(acts)
    {
      available := true;
      lost, counted, acts := ReconcileAndVerify(listed, leases, trusted, accounts, worlds);
    }

    method Lose(connection: bool)
      requires Valid()
      modifies this`available, this`connected
      ensures Valid() && Now() == old(Now()).(available := false, connected := connection)
      ensures Lawful(old(State()), nextRequest, [], State(), nextRequest)
    {
      available, connected := false, connection;
    }

    method HandleLoginEvent(event: LoginEvent, accounts: map<u32, Account>, worlds: u32 -> Answers)
      returns (ghost lost: set<u32>, ghost counted: Snapshot, ghost acts: seq<Act>)
      requires Valid()
      modifies this`available, this`connected, this`eligible, this`admitted, inventory
      modifies this`helpers, this`machines, this`nextGeneration, this`spawnTimers, this`backoffTimers
      modifies this`pending, this`outside, this`log
      ensures Valid() && Informed(policy, event, accounts, old(Now()), counted, Now(), lost)
      ensures Lawful(old(State()), nextRequest, acts, State(), nextRequest) && AllFromTurn(OnLogin(event), acts)
    {
      lost, counted, acts := {}, Now(), [];
      match event
      case SessionNew(found, world) =>
        acts := HandleSessionNew(found, accounts, world);
      case SessionRemoved(id, world) =>
        acts := HandleSessionRemoved(id, accounts, world);
      case OwnerLost => Lose(connected);
      case OwnerBack(listed, leases, trusted) =>
        lost, counted, acts := HandleOwnerBack(listed, leases, trusted, accounts, worlds);
      case Disconnected => Lose(false);
    }

    /** On a connection that is kept, the leases are verified only after a successful listing. */
    method Relist(listed: Option<seq<SessionInfo>>, leases: map<SessionId, SessionInfo>, trusted: set<u32>,
                  accounts: map<u32, Account>, worlds: u32 -> Answers)
      returns (ghost lost: set<u32>, ghost counted: Snapshot, ghost acts: seq<Act>)
      requires Valid() && connected
      modifies this`available, this`eligible, this`admitted, inventory
      modifies this`helpers, this`machines, this`nextGeneration, this`spawnTimers, this`backoffTimers
      modifies this`pending, this`outside, this`log
      ensures Valid() && Listed(policy, old(Now()), counted, listed, accounts)
      ensures if listed.Some? then Recovered(policy, old(Now()), counted, Now(), listed, accounts, leases, trusted, lost) else Now() == counted
      ensures Lawful(old(State()), nextRequest, acts, State(), nextRequest) && Reviews(acts)
    {
      lost := {};
      acts := Reconcile(listed, accounts, worlds);
      counted := Now();
      if available {
        ghost var more;
        lost, more := VerifyCounted(listed, leases, trusted, accounts, worlds);
        LawfulThen(old(State()), nextRequest, acts, counted.books, nextRequest, more, State(), nextRequest);
        acts := acts + more;
      }
    }

    /** Recovery lists the sessions and verifies the leases, on a new connection even if the listing fails. */
    method TryRecover(turn: Turn, accounts: map<u32, Account>, worlds: u32 -> Answers)
      returns (ghost lost: set<u32>, ghost counted: Snapshot, ghost acts: seq<Act>)
      requires Valid() && turn.ReconnectDue?
      modifies this`available, this`connected, this`eligible, this`admitted, inventory
      modifies this`helpers, this`machines, this`nextGeneration, this`spawnTimers, this`backoffTimers
      modifies this`pending, this`outside, this`log
      ensures Valid() && Reconnected(policy, turn, accounts, old(Now()), counted, Now(), lost)
      ensures Lawful(old(State()), nextRequest, acts, State(), nextRequest) && Reviews(acts)
    {
      lost, counted, acts := {}, Now(), [];
      if connected {
        lost, counted, acts := Relist(turn.listed, turn.leases, turn.trusted, accounts, worlds);
      } else if turn.reached {
        connected := true;
        lost, counted, acts := HandleOwnerBack(turn.listed, turn.leases, turn.trusted, accounts, worlds);
      }
    }

    /** An event as a course of steps. */
    method PlayEvent(event: DaemonEvent, w: Answers)
      returns (refused: Option<ErrorCode>, ghost counted: Books, ghost acts: seq<Act>)
      requires Valid()
      modifies this`eligible, this`admitted, this`nextRequest, inventory
      modifies this`helpers, this`machines, this`nextGeneration, this`spawnTimers, this`backoffTimers
      modifies this`pending, this`outside, this`log
      ensures Valid() && Handled(policy, event, old(Now()), counted, Now(), w)
      ensures refused == RefusalOf(policy, OnEvent(event, w), old(Now()))
      ensures Lawful(old(State()), old(nextRequest), acts, State(), nextRequest) && AllFromTurn(OnEvent(event, w), acts)
    {
      refused, counted := HandleDaemonEvent(event, w);
      acts := EventIsLawful(policy, available && connected, connected, event, old(State()), old(nextRequest), counted, State(), nextRequest, w);
    }

    /** Every turn has its effect, by a course of lawful steps that it causes; a request that is refused is told why. */
    method TakeTurn(turn: Turn, accounts: map<u32, Account>, worlds: u32 -> Answers)
      returns (refused: Option<ErrorCode>, ghost lost: set<u32>, ghost counted: Snapshot, ghost acts: seq<Act>)
      requires Valid()
      modifies this`available, this`connected, this`eligible, this`admitted, this`nextRequest, inventory
      modifies this`helpers, this`machines, this`nextGeneration, this`spawnTimers, this`backoffTimers
      modifies this`pending, this`outside, this`log
      ensures Valid() && TakenAs(policy, turn, accounts, old(Now()), counted, Now(), lost)
      ensures refused == RefusalOf(policy, turn, old(Now()))
      ensures Lawful(old(State()), old(nextRequest), acts, State(), nextRequest) && AllFromTurn(turn, acts)
    {
      refused, lost, counted, acts := None, {}, Now(), [];
      match turn
      case OnEvent(event, world) =>
        ghost var books;
        refused, books, acts := PlayEvent(event, world);
        counted := counted.(books := books);
      case OnLogin(login) =>
        if connected {
          lost, counted, acts := HandleLoginEvent(login, accounts, worlds);
        }
      case ListingDue(listed) =>
        if available {
          acts := Reconcile(listed, accounts, worlds);
        }
      case ReconnectDue(_, _, _, _) =>
        if !available {
          lost, counted, acts := TryRecover(turn, accounts, worlds);
        }
    }

    // ---- Shutdown ----

    method BeginShutdownOf(u: u32)
      requires Ready(u)
      modifies this`helpers, this`machines, this`nextGeneration, this`spawnTimers, this`backoffTimers
      modifies this`pending, this`outside, this`log
      ensures Took(old(State()), State(), u, StopAll, old(outside))
    {
      if u in machines {
        var machine := Borrow(u);
        var actions := machine.StartShutdown();
        ShutdownFits(SliceOf(State(), u));
        Transition(u, Outcome(machine.Value(), actions));
      } else {
        NothingToSettle(SliceOf(State(), u), nextGeneration, outside);
      }
      TookIsSteps(old(State()), State(), u, StopAll, old(outside));
    }

    /** One user is told to stop, out of those that still are to be. */
    method WindOne(ghost start: Books, ghost todo: set<u32>, u: u32)
      requires AllSound(start) && Winding(start, State(), todo) && u in todo && InOrder(log, pending, nextRequest)
      modifies this`helpers, this`machines, this`nextGeneration, this`spawnTimers, this`backoffTimers
      modifies this`pending, this`outside, this`log
      ensures Winding(start, State(), todo - {u}) && InOrder(log, pending, nextRequest)
    {
      WindingIsReady(start, State(), todo, u);
      BeginShutdownOf(u);
      StepKeepsAccounts(old(State()), State(), u, StopAll, old(outside), nextRequest);
      WindingStep(start, old(State()), State(), todo, u, old(outside));
    }

    method WindAll(ghost start: Books, uids: set<u32>, worlds: u32 -> Answers)
      requires AllSound(start) && Winding(start, State(), uids) && InOrder(log, pending, nextRequest)
      modifies this`helpers, this`machines, this`nextGeneration, this`spawnTimers, this`backoffTimers
      modifies this`pending, this`outside, this`log
      ensures Winding(start, State(), {}) && InOrder(log, pending, nextRequest)
    {
      var todo := uids;
      while todo != {}
        invariant Winding(start, State(), todo) && InOrder(log, pending, nextRequest)
        decreases todo
      {
        var u :| u in todo;
        WindingAnyOutside(start, State(), todo, worlds(u));
        outside := worlds(u);
        WindOne(start, todo, u);
        todo := todo - {u};
      }
    }

    /** While helpers leave, nothing but their exits is handled; one that has left is forgotten. */
    method AwaitExits(events: seq<DaemonEvent>)
      requires AllStopped(State()) && InOrder(log, pending, nextRequest)
      modifies this`helpers, this`machines, this`nextGeneration, this`spawnTimers, this`backoffTimers
      modifies this`pending, this`outside, this`log
      ensures AllStopped(State()) && InOrder(log, pending, nextRequest) && log == old(log)
      ensures helpers == AfterExits(old(helpers), events)
    {
      var i := 0;
      while helpers != map[] && i < |events|
        invariant i <= |events| && helpers == AfterExits(old(helpers), events[..i])
        invariant AllStopped(State()) && InOrder(log, pending, nextRequest) && log == old(log)
        decreases |events| - i
      {
        if events[i].HelperEnds? {
          ForgetHelper(events[i].user, events[i].generation);
        }
        assert events[..i + 1][..i] == events[..i];
        i := i + 1;
      }
      NobodyIsLeft(old(helpers), events, i);
    }

    method ForgetHelper(u: u32, g: nat)
      requires AllStopped(State()) && InOrder(log, pending, nextRequest)
      modifies this`helpers, this`machines, this`nextGeneration, this`spawnTimers, this`backoffTimers
      modifies this`pending, this`outside, this`log
      ensures AllStopped(State()) && InOrder(log, pending, nextRequest) && log == old(log)
      ensures helpers == AfterExit(old(helpers), HelperEnds(u, g))
    {
      assert Stopped(SliceOf(State(), u));
      HelperExited(u, g);
      StepKeepsAccounts(old(State()), State(), u, HelperGone(g), old(outside), nextRequest);
      StoppedStep(old(State()), State(), u, g, old(outside));
      ExitLeaves(old(State()), State(), u, g, old(outside));
    }

    /** Whoever still waits is answered. */
    method Drain()
      requires Conserved(log, pending, nextRequest)
      modifies this`pending, this`log
      ensures pending == map[] && Conserved(log, map[], nextRequest)
      ensures OnlyCloses(old(log), log)
    {
      while pending != map[]
        invariant Conserved(log, pending, nextRequest)
        invariant OnlyCloses(old(log), log)
        decreases pending.Keys
      {
        var r :| r in pending;
        ReplyKeepsConserved(log, pending, nextRequest, r, ErrorReply(ErrorCode.Internal));
        Reply(r, ErrorReply(ErrorCode.Internal));
      }
    }

    /**
      The end of the daemon. Every registered helper is told to leave, none is launched, and every
      request ever accepted has been answered exactly once.
     */
    method OrderlyShutdown(worlds: u32 -> Answers, events: seq<DaemonEvent>)
      requires Valid()
      modifies this`helpers, this`machines, this`nextGeneration, this`spawnTimers, this`backoffTimers
      modifies this`pending, this`outside, this`log
      ensures pending == map[] && helpers == map[]
      ensures forall r: nat :: AnsweredIn(log)[r] == if 1 <= r < nextRequest then 1 else 0
      ensures forall u :: u in old(helpers) ==> Told(log, old(helpers)[u].generation)
      ensures OnlyCloses(old(log), log)
    {
      ghost var start := State();
      WindingBegins(start);
      WindAll(start, machines.Keys, worlds);
      EveryoneWasTold(start, State());
      AwaitExits(events);
      helpers := map[];
      Drain();
      forall r: nat
        ensures AnsweredIn(log)[r] == if 1 <= r < nextRequest then 1 else 0
      {
        assert Settled(AnsweredIn(log), map[], nextRequest, r);
      }
    }
  }

  /** A turn with what the account database and the outside answer during it. */
  datatype Round = Round(turn: Turn, accounts: map<u32, Account>, worlds: u32 -> Answers)

  /** The round led from `s` to `t`, by the steps of its turn. */
  ghost predicate RoundTaken(policy: EligibilityPolicy, round: Round, s: Snapshot, t: Snapshot, acts: seq<Act>) {
    && AllFromTurn(round.turn, acts)
    && exists counted: Snapshot, lost: set<u32> :: TakenAs(policy, round.turn, round.accounts, s, counted, t, lost)
  }

  /** What the daemon did: its states between the rounds, the steps of each, and the requests it refused. */
  datatype Work = Work(states: seq<Snapshot>, courses: seq<seq<Act>>, refused: seq<Option<ErrorCode>>)

  /** The first `i` rounds were taken, one after the other. */
  ghost predicate Worked(policy: EligibilityPolicy, rounds: seq<Round>, work: Work, i: nat) {
    && i <= |rounds| && |work.states| == i + 1 && |work.courses| == |work.refused| == i
    && forall k :: 0 <= k < i ==> WorkedAt(policy, rounds, work, k)
  }

  ghost predicate WorkedAt(policy: EligibilityPolicy, rounds: seq<Round>, work: Work, k: nat)
    requires k < |rounds| && k + 1 < |work.states| && k < |work.courses| && k < |work.refused|
  {
    && RoundTaken(policy, rounds[k], work.states[k], work.states[k + 1], work.courses[k])
    && work.refused[k] == RefusalOf(policy, rounds[k].turn, work.states[k])
  }

  /** How many of the first `i` rounds are requests that were not refused. */
  function AcceptedIn(rounds: seq<Round>, work: Work, i: nat): nat
    requires i <= |rounds| && i <= |work.refused|
  {
    if i == 0 then 0
    else AcceptedIn(rounds, work, i - 1) + if IsRequest(rounds[i - 1].turn) && work.refused[i - 1].None? then 1 else 0
  }

  predicate IsRequest(turn: Turn) {
    turn.OnEvent? && turn.event.Pam?
  }

  /**
    The daemon from its start to its end. Whatever reaches it, and however the outside answers, each
    round has its effect and no other; the requests that are not refused get the numbers from 1 on,
    and when the daemon ends each of them has been answered exactly once. The shutdown, which begins
    in the last of the states, only tells helpers to leave and refuses whoever still waits.
   */
  method RunDaemon(policy: EligibilityPolicy, settings: Settings, connected: bool, rounds: seq<Round>,
                   worlds: u32 -> Answers, last: seq<DaemonEvent>)
    returns (daemon: Daemon, ghost work: Work)
    ensures Worked(policy, rounds, work, |rounds|)
    ensures work.states[0] == Snapshot(EmptyBooks(settings), 1, connected, connected, map[])
    ensures daemon.nextRequest == 1 + AcceptedIn(rounds, work, |rounds|)
    ensures forall r: nat :: AnsweredIn(daemon.log)[r] == if 1 <= r < daemon.nextRequest then 1 else 0
    ensures daemon.pending == map[] && daemon.helpers == map[]
    ensures Lawful(EmptyBooks(settings), 1, Joined(work.courses), work.states[|rounds|].books, daemon.nextRequest)
    ensures OnlyCloses(work.states[|rounds|].books.log, daemon.log)
  {
    daemon := new Daemon(policy, settings, connected);
    work := TakeRounds(daemon, settings, connected, rounds);
    daemon.OrderlyShutdown(worlds, last);
  }

  /** The courses of several turns as one. */
  function Joined(courses: seq<seq<Act>>): seq<Act> {
    if courses == [] then [] else Joined(courses[..|courses| - 1]) + courses[|courses| - 1]
  }

  lemma JoinedMore(courses: seq<seq<Act>>, acts: seq<Act>)
    ensures Joined(courses + [acts]) == Joined(courses) + acts
  {
    assert (courses + [acts])[..|courses|] == courses;
  }

  /** What holds before the `i`-th round. */
  ghost predicate Working(daemon: Daemon, settings: Settings, connected: bool, rounds: seq<Round>, work: Work, i: nat)
    reads daemon, daemon.inventory
  {
    && daemon.Valid() && Worked(daemon.policy, rounds, work, i) && work.states[i] == daemon.Now()
    && work.states[0] == Snapshot(EmptyBooks(settings), 1, connected, connected, map[])
    && daemon.nextRequest == 1 + AcceptedIn(rounds, work, i)
    && Lawful(EmptyBooks(settings), 1, Joined(work.courses), daemon.State(), daemon.nextRequest)
  }

  method TakeRounds(daemon: Daemon, ghost settings: Settings, ghost connected: bool, rounds: seq<Round>) returns (ghost work: Work)
    requires Working(daemon, settings, connected, rounds, Work([daemon.Now()], [], []), 0)
    modifies daemon, daemon.inventory
    ensures Working(daemon, settings, connected, rounds, work, |rounds|)
  {
    work := Work([daemon.Now()], [], []);
    for i := 0 to |rounds|
      invariant Working(daemon, settings, connected, rounds, work, i)
    {
      work := NextRound(daemon, settings, connected, rounds, work, i);
    }
  }

  method NextRound(daemon: Daemon, ghost settings: Settings, ghost connected: bool, rounds: seq<Round>, ghost work: Work, i: nat)
    returns (ghost more: Work)
    requires i < |rounds| && Working(daemon, settings, connected, rounds, work, i)
    modifies daemon, daemon.inventory
    ensures Working(daemon, settings, connected, rounds, more, i + 1)
  {
    ghost var s := daemon.Now();
    var refused;
    ghost var lost, counted, acts;
    refused, lost, counted, acts := daemon.TakeTurn(rounds[i].turn, rounds[i].accounts, rounds[i].worlds);
    TurnNumbers(daemon.policy, rounds[i].turn, rounds[i].accounts, s, counted, daemon.Now(), lost);
    assert RoundTaken(daemon.policy, rounds[i], s, daemon.Now(), acts);
    more := Work(work.states + [daemon.Now()], work.courses + [acts], work.refused + [refused]);
    WorkedMore(daemon.policy, rounds, work, more, i);
    LawfulThen(EmptyBooks(settings), 1, Joined(work.courses), s.books, s.number, acts, daemon.State(), daemon.nextRequest);
    JoinedMore(work.courses, acts);
  }

  /** Exactly the accepted requests use up numbers. */
  lemma TurnNumbers(policy: EligibilityPolicy, turn: Turn, accounts: map<u32, Account>, s: Snapshot, counted: Snapshot, t: Snapshot,
                    lost: set<u32>)
    requires TakenAs(policy, turn, accounts, s, counted, t, lost)
    ensures t.number == s.number + if Accepts(policy, turn, s) then 1 else 0
  {
  }

  lemma WorkedMore(policy: EligibilityPolicy, rounds: seq<Round>, work: Work, more: Work, i: nat)
    requires i < |rounds| && Worked(policy, rounds, work, i)
    requires |more.states| == i + 2 && more.states[..i + 1] == work.states
    requires |more.courses| == |more.refused| == i + 1 && more.courses[..i] == work.courses && more.refused[..i] == work.refused
    requires RoundTaken(policy, rounds[i], work.states[i], more.states[i + 1], more.courses[i])
    requires more.refused[i] == RefusalOf(policy, rounds[i].turn, work.states[i])
    ensures Worked(policy, rounds, more, i + 1)
    ensures AcceptedIn(rounds, more, i + 1) ==
            AcceptedIn(rounds, work, i) + if Accepts(policy, rounds[i].turn, work.states[i]) then 1 else 0
  {
    assert more.states[..i + 1][i] == work.states[i];
    forall k | 0 <= k < i + 1
      ensures WorkedAt(policy, rounds, more, k)
    {
      if k < i {
        assert WorkedAt(policy, rounds, work, k);
        assert more.states[..i + 1][k] == work.states[k] && more.states[..i + 1][k + 1] == work.states[k + 1];
        assert more.courses[..i][k] == work.courses[k] && more.refused[..i][k] == work.refused[k];
      }
    }
    AcceptedAlike(rounds, work, more, i);
  }

  lemma {:induction false} AcceptedAlike(rounds: seq<Round>, work: Work, more: Work, i: nat)
    requires i <= |rounds| && i <= |work.refused| && i <= |more.refused| && more.refused[..i] == work.refused[..i]
    ensures AcceptedIn(rounds, more, i) == AcceptedIn(rounds, work, i)
  {
    if i == 0 {
    } else {
      assert more.refused[..i][i - 1] == work.refused[..i][i - 1];
      assert more.refused[..i - 1] == more.refused[..i][..i - 1] == work.refused[..i][..i - 1] == work.refused[..i - 1];
      AcceptedAlike(rounds, work, more, i - 1);
    }
  }
}
