/** What the daemon takes from the login manager: sessions, who may have a service manager, and the inventory. */
module Login1 {
  import opened Prelude

  datatype SessionInfo = SessionInfo(
    id: string, uid: u32, username: string, sessionClass: string, service: string, runtimePath: string)

  datatype Account = Account(uid: u32, name: string)

  const NOBODY_UID: u32 := 65_534
  const INTERNAL_SERVICE := "elogind-usersv-manager"

  predicate HasLoginClass(s: SessionInfo) {
    s.sessionClass == "user" || s.sessionClass == "user-early"
  }

  predicate IsNobody(a: Account) {
    a.uid == NOBODY_UID || a.name == "nobody"
  }

  datatype EligibilityPolicy = EligibilityPolicy(uidMin: u32, rootEligible: bool) {
    predicate Permits(s: SessionInfo, a: Account) {
      && HasLoginClass(s)
      && s.uid == a.uid && s.username == a.name && !IsNobody(a)
      && ((s.uid == 0 && rootEligible) || (s.uid != 0 && s.uid >= uidMin))
    }

    /** Permitted, as far as the account database knows the user. */
    predicate Admits(s: SessionInfo, accounts: map<u32, Account>) {
      s.uid in accounts && Permits(s, accounts[s.uid])
    }
  }

  /**
    Whether a lease a helper has opened is the internal session it should be; `found` is the login
    manager's answer and `trusted` the check of the runtime directory.
   */
  predicate LeaseHolds(uid: u32, id: string, runtimeDir: string, found: Option<SessionInfo>, trusted: bool) {
    && id != "" && IsAbsolute(runtimeDir)
    && found.Some?
    && found.value.uid == uid
    && found.value.sessionClass == "background"
    && found.value.service == INTERNAL_SERVICE
    && found.value.runtimePath == runtimeDir
    && trusted
  }

  predicate IsAbsolute(path: string) {
    path != "" && path[0] == '/'
  }

  /** A session that holds as a lease is never one that counts for its user. */
  lemma LeasesNeverCount(policy: EligibilityPolicy, uid: u32, id: string, dir: string, found: Option<SessionInfo>, trusted: bool, a: Account)
    requires LeaseHolds(uid, id, dir, found, trusted)
    ensures !policy.Permits(found.value, a)
  {
    var background := found.value.sessionClass;
    assert |background| == 10;
  }

  // ---- The inventory ----

  type Sessions = map<string, SessionInfo>

  datatype Changes = Changes(added: set<string>, removed: set<string>, changed: set<string>)

  /** The sessions of a list by identifier; of several with one identifier the last counts. */
  function ById(current: seq<SessionInfo>): Sessions {
    if current == [] then map[]
    else
      var last := current[|current| - 1];
      ById(current[..|current| - 1])[last.id := last]
  }

  function Differences(before: Sessions, after: Sessions): Changes {
    Changes(after.Keys - before.Keys,
            before.Keys - after.Keys,
            set id | id in before.Keys * after.Keys && before[id] != after[id])
  }

  function Lookup(sessions: Sessions, id: string): Option<SessionInfo> {
    if id in sessions then Some(sessions[id]) else None
  }

  /** The reported differences are just those, each of one kind. */
  lemma DifferencesAreExact(before: Sessions, after: Sessions, id: string)
    ensures var d := Differences(before, after);
            && (id in d.added + d.removed + d.changed <==> Lookup(before, id) != Lookup(after, id))
            && (id in d.added <==> Lookup(before, id).None? && Lookup(after, id).Some?)
            && (id in d.removed <==> Lookup(before, id).Some? && Lookup(after, id).None?)
            && d.added !! d.removed && d.added !! d.changed && d.removed !! d.changed
  {
  }

  /** What the inventory holds after a list was taken over. */
  lemma {:induction false} ByIdHoldsTheList(current: seq<SessionInfo>)
    ensures ById(current).Keys == set s | s in current :: s.id
    ensures forall id :: id in ById(current) ==> ById(current)[id] in current && ById(current)[id].id == id
  {
    if current == [] {
    } else {
      var n := |current| - 1;
      ByIdHoldsTheList(current[..n]);
      assert current == current[..n] + [current[n]];
    }
  }

  function SessionsOf(sessions: Sessions, uid: u32): set<SessionInfo> {
    set id | id in sessions && sessions[id].uid == uid :: sessions[id]
  }

  /** The possible outcomes of verifying a lease, against the runtime directory of any of the user's sessions. */
  ghost predicate MayHold(sessions: Sessions, connected: bool, u: u32, id: string, found: Sessions, trusted: set<u32>, holds: bool) {
    || (!holds && SessionsOf(sessions, u) == {})
    || exists s :: s in SessionsOf(sessions, u)
                && holds == (connected && LeaseHolds(u, id, s.runtimePath, Lookup(found, id), u in trusted))
  }

  class SessionInventory {
    var sessions: Sessions

    constructor ()
      ensures sessions == map[]
    {
      sessions := map[];
    }

    method Reconcile(current: seq<SessionInfo>) returns (changes: Changes)
      modifies this
      ensures sessions == ById(current)
      ensures changes == Differences(old(sessions), sessions)
    {
      var replacement: Sessions := map[];
      for i := 0 to |current|
        invariant replacement == ById(current[..i])
      {
        assert current[..i + 1][..i] == current[..i];
        replacement := replacement[current[i].id := current[i]];
      }
      assert current[..|current|] == current;
      changes := Differences(sessions, replacement);
      sessions := replacement;
    }

    method Insert(session: SessionInfo) returns (previous: Option<SessionInfo>)
      modifies this
      ensures previous == Lookup(old(sessions), session.id)
      ensures sessions == old(sessions)[session.id := session]
    {
      previous := Lookup(sessions, session.id);
      sessions := sessions[session.id := session];
    }

    method Remove(id: string) returns (removed: Option<SessionInfo>)
      modifies this
      ensures removed == Lookup(old(sessions), id)
      ensures sessions == old(sessions) - {id}
    {
      removed := Lookup(sessions, id);
      sessions := sessions - {id};
    }

    /** The sessions of a user, in no particular order. */
    function SessionsFor(uid: u32): set<SessionInfo>
      reads this
    {
      SessionsOf(sessions, uid)
    }
  }
}
