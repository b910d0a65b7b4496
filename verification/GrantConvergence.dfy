/** The grant part of repeated passes: what one completed pass leaves, and when the next has nothing to do. */
module GrantConvergence {
  import opened Basics
  import opened SqlTexts
  import opened Model
  import opened UserPasses
  import opened Grants
  import US = UserSafety

  /** The next pass finds a difference. */
  predicate GrantsPending(s: Server, u: DatabaseUser, env: Env) {
    var (u1, grew, _) := GrantStatusUpdate(s, u, false, 0, env);
    grew || !PermissionListEqual(u1)
  }

  ghost predicate ExactGrants(s: Server, n: Bytes, databases: map<Key, Database>, k: Key, u: DatabaseUser) {
    GrantedExactly(s, n, databases, k, u.spec.databaseList)
  }

  /** Every listed Database object exists, and words and names are read as meant. */
  ghost predicate Grantworthy(databases: map<Key, Database>, k: Key, perms: seq<Permission>) {
    PlainList(databases, k, perms) && forall i :: 0 <= i < |perms| ==> Listed(k, perms[i]) in databases
  }

  /** Moreover every one of them is under management, on pairwise distinct schemas. */
  ghost predicate DatabasesReady(s: Server, databases: map<Key, Database>, k: Key, perms: seq<Permission>) {
    && Grantworthy(databases, k, perms)
    && (forall i :: 0 <= i < |perms| ==> Grantable(s, databases, k, perms[i]))
    && (forall i, j :: 0 <= i < j < |perms| ==>
          databases[Listed(k, perms[i])].status.name != databases[Listed(k, perms[j])].status.name)
  }

  lemma DatabasesStayReady(s: Server, s1: Server, databases: map<Key, Database>, k: Key, perms: seq<Permission>)
    requires DatabasesReady(s, databases, k, perms)
    requires s1.schemas == s.schemas && s1.managedDatabases == s.managedDatabases
    ensures DatabasesReady(s1, databases, k, perms)
  {
  }

  // ---------------------------------------------------------------- the loop

  /** Every call goes through but perhaps some GRANT. */
  ghost predicate AllButGrants(env: Env) {
    env.connect && ValidOrder(env) && Literate(env.reader) && forall c: Call :: !c.SendGrant? ==> env.ok(c)
  }

  /** No GRANT of the first entries is lost. */
  ghost predicate Delivered(env: Env, count: nat) {
    forall i :: 0 <= i < count ==> env.ok(SendGrant(i))
  }

  /** With every other call succeeding, the grant loop reaches the end. */
  lemma {:induction false} GrantsReachEnd(s: Server, u: DatabaseUser, k: Key, databases: map<Key, Database>, i: nat, env: Env)
    requires AllButGrants(env) && i <= |u.spec.databaseList|
    requires forall j :: 0 <= j < |u.spec.databaseList| ==> Listed(k, u.spec.databaseList[j]) in databases
    ensures GrantFrom(s, u, k, databases, i, env).1
    decreases |u.spec.databaseList| - i
  {
    if i < |u.spec.databaseList| {
      GrantsReachEnd(GrantOne(s, u, k, databases, i, env), u, k, databases, i + 1, env);
    }
  }

  /** Only privileges change on the way: authentication, TLS, creators and the ledger stay. */
  ghost predicate OnlyPrivileges(s: Server, s': Server, n: Bytes) {
    && SameSchemas(s, s') && s'.managedUsers == s.managedUsers && s'.catalog == s.catalog
    && n in s.accounts
    && (forall m :: m in s.accounts && m != n ==> s'.accounts[m] == s.accounts[m])
    && s'.accounts[n].(privileges := s.accounts[n].privileges, everywhere := s.accounts[n].everywhere) == s.accounts[n]
  }

  /** Only what is granted on names changes. */
  ghost predicate OnlyNames(s: Server, s': Server, n: Bytes) {
    OnlyPrivileges(s, s', n) && s'.accounts[n].everywhere == s.accounts[n].everywhere
  }

  /** What each entry is granted on: a name, or nothing when its Database object is not under management or the GRANT is lost. */
  function Picks(s: Server, databases: map<Key, Database>, k: Key, perms: seq<Permission>, env: Env): (r: seq<Option<Bytes>>)
    ensures |r| == |perms| && forall i :: 0 <= i < |r| ==> r[i] == Pick(s, databases, k, perms[i], env.ok(SendGrant(i)))
  {
    seq(|perms|, i requires 0 <= i < |perms| => Pick(s, databases, k, perms[i], env.ok(SendGrant(i))))
  }

  function Pick(s: Server, databases: map<Key, Database>, k: Key, p: Permission, sent: bool): Option<Bytes> {
    if Grantable(s, databases, k, p) && sent then Some(databases[Listed(k, p)].status.name) else None
  }

  function NamesOf(picks: seq<Option<Bytes>>): set<Bytes> {
    if picks == [] then {}
    else NamesOf(picks[..|picks| - 1]) + Just(picks[|picks| - 1])
  }

  function Just(o: Option<Bytes>): set<Bytes> { if o.Some? then {o.value} else {} }

  lemma NamesStep(picks: seq<Option<Bytes>>, i: nat)
    requires i < |picks|
    ensures NamesOf(picks[..i + 1]) == NamesOf(picks[..i]) + Just(picks[i])
  {
    assert picks[..i + 1][..i] == picks[..i];
  }

  lemma GrantOneKeys(s: Server, u: DatabaseUser, k: Key, databases: map<Key, Database>, i: nat, env: Env)
    requires AllButGrants(env) && i < |u.spec.databaseList| && u.status.username in s.accounts
    requires PlainPermission(databases, k, u.spec.databaseList[i])
    ensures var s1 := GrantOne(s, u, k, databases, i, env);
            && OnlyNames(s, s1, u.status.username)
            && s1.accounts[u.status.username].privileges.Keys ==
               s.accounts[u.status.username].privileges.Keys + Just(Picks(s, databases, k, u.spec.databaseList, env)[i])
  {
    GrantOneEffect(s, u, k, databases, i, env);
  }

  lemma PicksStay(s: Server, s1: Server, databases: map<Key, Database>, k: Key, perms: seq<Permission>, env: Env)
    requires s1.schemas == s.schemas && s1.managedDatabases == s.managedDatabases
    ensures Picks(s1, databases, k, perms, env) == Picks(s, databases, k, perms, env)
  {
    assert forall i :: 0 <= i < |perms| ==> Picks(s1, databases, k, perms, env)[i] == Picks(s, databases, k, perms, env)[i];
  }

  lemma OnlyNamesTransitive(s: Server, s1: Server, s2: Server, n: Bytes)
    requires OnlyNames(s, s1, n) && OnlyNames(s1, s2, n)
    ensures OnlyNames(s, s2, n)
  {
  }

  /** The names the account holds something on after the loop. */
  lemma {:induction false} GrantFromKeys(s: Server, s0: Server, u: DatabaseUser, k: Key, databases: map<Key, Database>, i: nat, env: Env)
    requires AllButGrants(env) && i <= |u.spec.databaseList|
    requires Grantworthy(databases, k, u.spec.databaseList)
    requires OnlyNames(s0, s, u.status.username)
    requires s.accounts[u.status.username].privileges.Keys == NamesOf(Picks(s0, databases, k, u.spec.databaseList, env)[..i])
    ensures var s1 := GrantFrom(s, u, k, databases, i, env).0;
            && OnlyNames(s0, s1, u.status.username)
            && s1.accounts[u.status.username].privileges.Keys == NamesOf(Picks(s0, databases, k, u.spec.databaseList, env))
    decreases |u.spec.databaseList| - i
  {
    var picks := Picks(s0, databases, k, u.spec.databaseList, env);
    if i < |u.spec.databaseList| {
      var s1 := GrantOne(s, u, k, databases, i, env);
      PicksStay(s0, s, databases, k, u.spec.databaseList, env);
      GrantOneKeys(s, u, k, databases, i, env);
      OnlyNamesTransitive(s0, s, s1, u.status.username);
      NamesStep(picks, i);
      GrantFromKeys(s1, s0, u, k, databases, i + 1, env);
    } else {
      assert picks[..i] == picks;
    }
  }

  // ---------------------------------------------------------------- counting the names

  lemma {:induction false} NamesIn(picks: seq<Option<Bytes>>, name: Bytes)
    ensures name in NamesOf(picks) <==> Some(name) in picks
  {
    if picks != [] {
      var n := |picks| - 1;
      NamesIn(picks[..n], name);
      assert picks == picks[..n] + [picks[n]];
    }
  }

  ghost predicate AllDistinct(picks: seq<Option<Bytes>>) {
    && (forall x :: 0 <= x < |picks| ==> picks[x].Some?)
    && (forall x, y :: 0 <= x < y < |picks| ==> picks[x] != picks[y])
  }

  lemma DistinctStep(picks: seq<Option<Bytes>>)
    requires picks != []
    ensures var n := |picks| - 1;
            AllDistinct(picks) <==> AllDistinct(picks[..n]) && picks[n].Some? && picks[n] !in picks[..n]
  {
  }

  /** There are as many names as entries exactly when every entry has one and none occurs twice. */
  lemma {:induction false} CountNames(picks: seq<Option<Bytes>>)
    ensures |NamesOf(picks)| <= |picks|
    ensures |NamesOf(picks)| == |picks| <==> AllDistinct(picks)
  {
    if picks != [] {
      var n := |picks| - 1;
      CountNames(picks[..n]);
      DistinctStep(picks);
      var before := NamesOf(picks[..n]);
      if picks[n].Some? {
        NamesIn(picks[..n], picks[n].value);
        if picks[n].value in before {
          assert before + {picks[n].value} == before;
        } else {
          assert |before + {picks[n].value}| == |before| + 1;
        }
      }
    }
  }

  // ---------------------------------------------------------------- a completed pass

  /** Granting to an account that holds nothing on names: a tracked list equal to the server's lines, one for each name granted. */
  lemma GrantedFresh(s: Server, u: DatabaseUser, k: Key, databases: map<Key, Database>, env: Env)
    requires AllButGrants(env) && u.status.username in s.accounts && s.accounts[u.status.username].privileges == map[]
    requires u.status.grants == []
    requires Grantworthy(databases, k, u.spec.databaseList)
    ensures var o := GrantAll(s, u, k, databases, env);
            && o.ok && OnlyNames(s, o.server, u.status.username)
            && o.user == u.(status := u.status.(databaseList := u.spec.databaseList, grants := o.user.status.grants))
            && NoDuplicates(o.user.status.grants)
            && |o.user.status.grants| == |NamesOf(Picks(s, databases, k, u.spec.databaseList, env))|
            && o.user.status.grants == Lines(o.server.accounts[u.status.username].privileges, u.status.username, env)
  {
    GrantsReachEnd(s, u, k, databases, 0, env);
    assert Picks(s, databases, k, u.spec.databaseList, env)[..0] == [];
    GrantFromKeys(s, s, u, k, databases, 0, env);
    ShownFresh(GrantFrom(s, u, k, databases, 0, env).0, u, env);
  }

  /** With no GRANT lost they are exact. */
  lemma GrantedFreshExactly(s: Server, u: DatabaseUser, k: Key, databases: map<Key, Database>, env: Env)
    requires AllSucceed(env) && u.status.username in s.accounts && s.accounts[u.status.username].privileges == map[]
    requires u.status.grants == []
    requires Grantworthy(databases, k, u.spec.databaseList)
    ensures ExactGrants(GrantAll(s, u, k, databases, env).server, u.status.username, databases, k, u)
  {
    GrantedFresh(s, u, k, databases, env);
    AllGranted(s, u, k, databases, env);
    SameEntitlement(s, GrantAll(s, u, k, databases, env).server, databases, k, u.spec.databaseList);
  }

  /** The listing that follows the loop, into an empty list. */
  lemma ShownFresh(s: Server, u: DatabaseUser, env: Env)
    requires AllButGrants(env) && u.status.username in s.accounts && u.status.grants == []
    ensures var p := s.accounts[u.status.username].privileges;
            var u1 := u.(status := u.status.(databaseList := u.spec.databaseList));
            var lines := Lines(p, u.status.username, env);
            && GrantStatusUpdate(s, u1, false, 2, env) == (Tracking(u1, lines), lines != [], true)
            && NoDuplicates(lines) && |lines| == |p.Keys|
  {
    var p := s.accounts[u.status.username].privileges;
    LinesDistinct(p, u.status.username, env);
    RefreshDistinct([], Lines(p, u.status.username, env));
    assert [] + Lines(p, u.status.username, env) == Lines(p, u.status.username, env);
  }

  lemma SameEntitlement(s: Server, s1: Server, databases: map<Key, Database>, k: Key, perms: seq<Permission>)
    requires s1.schemas == s.schemas && s1.managedDatabases == s.managedDatabases
    ensures forall schema, word :: Entitled(s1, databases, k, perms, 0, schema, word) <==> Entitled(s, databases, k, perms, 0, schema, word)
  {
    forall schema, word ensures Entitled(s1, databases, k, perms, 0, schema, word) <==> Entitled(s, databases, k, perms, 0, schema, word) {
      assert forall p :: Gives(s1, databases, k, p, schema, word) <==> Gives(s, databases, k, p, schema, word);
    }
  }

  /** A tracked list that holds the server's lines, with the specified list recorded, is pending only by its length. */
  lemma TrackedPending(s: Server, u: DatabaseUser, env: Env)
    requires AllButGrants(env) && u.status.username in s.accounts
    requires u.status.grants == Lines(s.accounts[u.status.username].privileges, u.status.username, env)
    requires u.status.databaseList == u.spec.databaseList
    ensures GrantsPending(s, u, env) <==> |u.status.grants| != |u.spec.databaseList|
  {
    RefreshIdle(u.status.grants, u.status.grants);
  }

  /**
   * When the grant part settles: once a pass has granted to an account that held nothing on names, the
   * next one finds nothing to do if and only if every listed Database object is under management, no two
   * are on one schema and no GRANT was lost. Otherwise the lists do not agree in length.
   */
  lemma GrantsSettleIff(s: Server, u: DatabaseUser, k: Key, databases: map<Key, Database>, env: Env)
    requires AllButGrants(env) && u.status.username in s.accounts && s.accounts[u.status.username].privileges == map[]
    requires u.status.grants == []
    requires Grantworthy(databases, k, u.spec.databaseList)
    ensures var o := GrantAll(s, u, k, databases, env);
            o.ok && (!GrantsPending(o.server, o.user, env) <==>
                       DatabasesReady(o.server, databases, k, u.spec.databaseList) && Delivered(env, |u.spec.databaseList|))
  {
    GrantedFresh(s, u, k, databases, env);
    var o := GrantAll(s, u, k, databases, env);
    TrackedPending(o.server, o.user, env);
    CountNames(Picks(s, databases, k, u.spec.databaseList, env));
    ReadyMeans(s, o.server, databases, k, u.spec.databaseList, env);
  }

  lemma ReadyMeans(s: Server, s1: Server, databases: map<Key, Database>, k: Key, perms: seq<Permission>, env: Env)
    requires s1.schemas == s.schemas && s1.managedDatabases == s.managedDatabases && Grantworthy(databases, k, perms)
    ensures AllDistinct(Picks(s, databases, k, perms, env)) <==> DatabasesReady(s1, databases, k, perms) && Delivered(env, |perms|)
  {
    PicksStay(s, s1, databases, k, perms, env);
    var picks := Picks(s1, databases, k, perms, env);
    assert forall x :: 0 <= x < |perms| ==> (picks[x].Some? <==> Grantable(s1, databases, k, perms[x]) && env.ok(SendGrant(x)));
    if forall x :: 0 <= x < |perms| ==> Grantable(s1, databases, k, perms[x]) && env.ok(SendGrant(x)) {
      assert forall x :: 0 <= x < |perms| ==> picks[x] == Some(databases[Listed(k, perms[x])].status.name);
    }
  }

  /**
   * What comes before the loop: an account that holds nothing on names and an empty list; a REVOKE, sent
   * exactly for a list that is not empty, takes what is held on all schemas along.
   */
  lemma ClearedForGrant(s: Server, u: DatabaseUser, k: Key, env: Env)
    requires AllButGrants(env) && u.status.username in s.accounts
    ensures var n, r := u.status.username, US.Cleared(s, u, k, env);
            && r.ok && OnlyPrivileges(s, r.server, n)
            && r.server.accounts[n].privileges == map[]
            && r.server.accounts[n].everywhere == (if Known(s, u, env) != [] then {} else s.accounts[n].everywhere)
            && r.user == u.(status := u.status.(grants := [], databaseList := r.user.status.databaseList))
  {
    var u1 := GrantStatusUpdate(s, u, false, 0, env).0;
    if |u1.status.grants| > 0 {
      RevokedAll(s, u1, k, env);
      LinesDistinct(map[], u.status.username, env);
    } else {
      EmptyListMeansNoNames(s, u, env);
    }
  }

  /**
   * From any state: after a pass over the permissions in which only GRANTs may fail, the next finds
   * nothing to do exactly when the listed databases are ready and no GRANT was lost, or when there was
   * nothing to do already.
   */
  lemma PermissionsSettleIff(s: Server, u: DatabaseUser, k: Key, databases: map<Key, Database>, env: Env)
    requires AllButGrants(env) && u.status.username in s.accounts && Grantworthy(databases, k, u.spec.databaseList)
    ensures var o := UpdatePermissions(s, u, k, databases, env);
            && o.ok
            && (GrantsPending(s, u, env) ==>
                  (!GrantsPending(o.server, o.user, env) <==>
                     DatabasesReady(o.server, databases, k, u.spec.databaseList) && Delivered(env, |u.spec.databaseList|)))
            && (!GrantsPending(s, u, env) ==> o.server == s && !GrantsPending(o.server, o.user, env))
  {
    var r := US.Cleared(s, u, k, env);
    US.UpdatePermissionsCases(s, u, k, databases, env);
    ClearedForGrant(s, u, k, env);
    if GrantsPending(s, u, env) {
      GrantsSettleIff(r.server, r.user, k, databases, env);
    }
  }
}
