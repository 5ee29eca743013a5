/**
  Who is admitted, said without the daemon's own checks: whose sessions count, which requests are
  refused with which error, and which leases hold.
 */
module Admission {
  import opened Prelude
  import opened Messages
  import opened Slices
  import opened Books
  import opened Login1
  import opened Daemons

  /** A session of the kind that users log in with. */
  predicate IsLogin(s: SessionInfo) {
    s.sessionClass == "user" || s.sessionClass == "user-early"
  }

  /** Regular users from the lower limit on, root only if that is configured, and nobody never. */
  predicate IsServed(policy: EligibilityPolicy, a: Account) {
    && a.uid != 65534 && a.name != "nobody"
    && if a.uid == 0 then policy.rootEligible else policy.uidMin <= a.uid
  }

  lemma PermitsExactly(policy: EligibilityPolicy, s: SessionInfo, a: Account)
    ensures policy.Permits(s, a) <==> IsLogin(s) && s.uid == a.uid && s.username == a.name && IsServed(policy, a)
  {
  }

  /** The login sessions of an account in a list. */
  ghost function Logins(listed: seq<SessionInfo>, a: Account): set<SessionId> {
    set s | s in listed && s.uid == a.uid && s.username == a.name && IsLogin(s) :: s.id
  }

  /** The account database knows the user, and under this number. */
  predicate Knows(accounts: map<u32, Account>, u: u32) {
    u in accounts && accounts[u].uid == u
  }

  /** The login sessions of a user that is served count, all of them, and no others ever do. */
  lemma AllLoginsCount(policy: EligibilityPolicy, listed: seq<SessionInfo>, accounts: map<u32, Account>, u: u32)
    ensures PermittedIds(policy, listed, accounts, u) ==
            if Knows(accounts, u) && IsServed(policy, accounts[u]) then Logins(listed, accounts[u]) else {}
  {
    forall s | s in listed && s.uid == u && u in accounts
      ensures policy.Admits(s, accounts) <==>
                IsLogin(s) && accounts[u].uid == u && s.username == accounts[u].name && IsServed(policy, accounts[u])
    {
      PermitsExactly(policy, s, accounts[u]);
    }
  }

  /** After a listing every user has as many eligible sessions as logins were listed, if the user is served. */
  lemma LoginsAreCounted(b: Books, policy: EligibilityPolicy, listed: seq<SessionInfo>, accounts: map<u32, Account>, u: u32)
    requires CountedFrom(b, policy, listed, accounts)
    ensures SliceOf(b, u).machine.eligible ==
            if Knows(accounts, u) && IsServed(policy, accounts[u]) then |Logins(listed, accounts[u])| else 0
  {
    assert CountedFor(SliceOf(b, u), PermittedIds(policy, listed, accounts, u));
    AllLoginsCount(policy, listed, accounts, u);
  }

  /** The session counts for its user. */
  predicate Counts(policy: EligibilityPolicy, s: SessionInfo, accounts: map<u32, Account>) {
    IsLogin(s) && Knows(accounts, s.uid) && s.username == accounts[s.uid].name && IsServed(policy, accounts[s.uid])
  }

  lemma AdmitsExactly(policy: EligibilityPolicy, s: SessionInfo, accounts: map<u32, Account>)
    ensures policy.Admits(s, accounts) <==> Counts(policy, s, accounts)
  {
    if s.uid in accounts {
      PermitsExactly(policy, s, accounts[s.uid]);
    }
  }

  /** Too many requests are waiting, of all users or of one. */
  predicate IsFull(pending: map<nat, u32>, u: u32) {
    |pending| >= 1024 || |PendingOf(pending, u)| >= 64
  }

  /** A request is refused with an error exactly in the case that the error names, and accepted in no other. */
  lemma RefusalsAreExact(policy: EligibilityPolicy, reachable: bool, dir: string, peer: u32, found: Option<SessionInfo>,
                         accounts: map<u32, Account>, pending: map<nat, u32>)
    ensures var refused := Refusal(policy, reachable, dir, peer, found, accounts, pending);
            var here := reachable && found.Some? && found.value.runtimePath == dir;
            var counts := here && Counts(policy, found.value, accounts);
            var allowed := counts && (peer == 0 || peer == found.value.uid);
            && (refused == Some(Login1Unavailable) <==> !reachable)
            && (refused == Some(SessionNotFound) <==> reachable && found.None?)
            && (refused == Some(InvalidRequest) <==> reachable && found.Some? && found.value.runtimePath != dir)
            && (refused == Some(SessionIneligible) <==> here && !counts)
            && (refused == Some(PermissionDenied) <==> counts && !allowed)
            && (refused == Some(ErrorCode.Internal) <==> allowed && IsFull(pending, found.value.uid))
            && (refused == None <==> allowed && !IsFull(pending, found.value.uid))
  {
    if found.Some? {
      AdmitsExactly(policy, found.value, accounts);
    }
  }

  /** What the login manager has to know of a session for it to be the lease of a user. */
  predicate IsLeaseOf(s: SessionInfo, u: u32, dir: string) {
    s == s.(uid := u, sessionClass := "background", service := "elogind-usersv-manager", runtimePath := dir)
  }

  /**
    A message makes the daemon accept a lease exactly when it announces a session that the login
    manager knows as the user's internal one, with the same absolute and trusted runtime directory.
   */
  lemma VerifiedExactly(connected: bool, u: u32, m: Report, found: Option<SessionInfo>, trusted: bool)
    ensures Verified(connected, u, m, found, trusted) <==>
              && connected && trusted && m.LeaseOpened? && m.sessionId != "" && m.runtimeDir != "" && m.runtimeDir[0] == '/'
              && found.Some? && IsLeaseOf(found.value, u, m.runtimeDir)
  {
  }
}
