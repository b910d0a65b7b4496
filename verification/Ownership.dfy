/** Existence lookups (orm/model.go) and the two ownership decisions (api/v1alpha1/adminconnection_types.go). */
module Ownership {
  import opened Basics
  import opened Model

  /** A lookup that returns an empty name counts as nothing found. */
  predicate SchemaExists(s: Server, n: Bytes) {
    n != [] && n in s.schemas
  }

  predicate AccountExists(s: Server, n: Bytes) {
    n != [] && n in s.accounts
  }

  predicate RowIs(rows: map<Uid, Row>, uid: Uid, k: Key, target: Bytes) {
    uid in rows && rows[uid] == Row(k, target)
  }

  /** A missing schema may be taken; an existing one is ours when the ledger says so. */
  predicate DatabaseMine(s: Server, k: Key, d: Database) {
    SchemaExists(s, d.spec.name) ==> RowIs(s.managedDatabases, d.uid, k, d.spec.name)
  }

  /** The name in the spec and, when it differs, the one recorded in the status. */
  function Names(u: DatabaseUser): seq<Bytes> {
    if u.spec.username != u.status.username && u.status.username != [] then [u.spec.username, u.status.username]
    else [u.spec.username]
  }

  predicate UserMine(s: Server, k: Key, u: DatabaseUser) {
    forall n :: n in Names(u) && AccountExists(s, n) ==> RowIs(s.managedUsers, u.uid, k, n)
  }

  // ---------------------------------------------------------------- the decisions as the passes take them

  /** The lookup finds the schema; a failed lookup finds nothing. */
  predicate SchemaSeen(s: Server, n: Bytes, env: Env, round: nat) {
    SchemaExists(s, n) && env.ok(LookupSchema(round))
  }

  predicate AccountSeen(s: Server, n: Bytes, env: Env, round: nat, index: nat) {
    AccountExists(s, n) && env.ok(LookupAccount(round, index))
  }

  predicate DecidesDatabase(s: Server, k: Key, d: Database, env: Env, round: nat) {
    SchemaSeen(s, d.spec.name, env, round) ==>
      env.ok(LookupSchemaRow(round)) && RowIs(s.managedDatabases, d.uid, k, d.spec.name)
  }

  predicate DecidesUser(s: Server, k: Key, u: DatabaseUser, env: Env, round: nat) {
    forall i :: 0 <= i < |Names(u)| && AccountSeen(s, Names(u)[i], env, round, i) ==>
      env.ok(LookupAccountRow(round, i)) && RowIs(s.managedUsers, u.uid, k, Names(u)[i])
  }

  /** A row that cannot be found leaves the variable as it was, which matches no later name. */
  method IsUserMine(s: Server, k: Key, u: DatabaseUser, env: Env, round: nat) returns (mine: bool)
    ensures mine == DecidesUser(s, k, u, env, round)
  {
    var names := [u.spec.username];
    if u.spec.username != u.status.username && u.status.username != [] {
      names := names + [u.status.username];
    }
    var managedUser := Row(Key([], []), []);
    for i := 0 to |names|
      invariant i <= 1 ==> managedUser.target == [] || (i == 1 && managedUser.target == names[0])
      invariant forall j :: 0 <= j < i && AccountSeen(s, names[j], env, round, j) ==>
                  env.ok(LookupAccountRow(round, j)) && RowIs(s.managedUsers, u.uid, k, names[j])
    {
      if AccountSeen(s, names[i], env, round, i) {
        if env.ok(LookupAccountRow(round, i)) && u.uid in s.managedUsers {
          managedUser := s.managedUsers[u.uid];
        }
        if managedUser.target != names[i] || managedUser.owner.name != k.name || managedUser.owner.namespace != k.namespace {
          assert names[i] == Names(u)[i];
          return false;
        }
      }
    }
    assert names == Names(u);
    return true;
  }

  method IsDatabaseMine(s: Server, k: Key, d: Database, env: Env, round: nat) returns (mine: bool)
    ensures mine == DecidesDatabase(s, k, d, env, round)
  {
    if !SchemaSeen(s, d.spec.name, env, round) {
      return true;
    }
    var managedDatabase := Row(Key([], []), []);
    if env.ok(LookupSchemaRow(round)) && d.uid in s.managedDatabases {
      managedDatabase := s.managedDatabases[d.uid];
    }
    return managedDatabase.target == d.spec.name && managedDatabase.owner.name == k.name && managedDatabase.owner.namespace == k.namespace;
  }

  /** With working existence lookups a positive decision is the real one; with working row lookups so is a negative one. */
  lemma DecidesTruly(s: Server, k: Key, u: DatabaseUser, env: Env, round: nat)
    requires LookupsOk(env)
    ensures DecidesUser(s, k, u, env, round) ==> UserMine(s, k, u)
    ensures (forall i :: env.ok(LookupAccountRow(round, i))) ==> (DecidesUser(s, k, u, env, round) <==> UserMine(s, k, u))
  {
    if DecidesUser(s, k, u, env, round) {
      forall n | n in Names(u) && AccountExists(s, n) ensures RowIs(s.managedUsers, u.uid, k, n) {
        var i :| 0 <= i < |Names(u)| && Names(u)[i] == n;
        assert AccountSeen(s, Names(u)[i], env, round, i);
      }
    }
  }

  lemma BothNamed(u: DatabaseUser)
    ensures u.spec.username in Names(u)
    ensures u.status.username != [] ==> u.status.username in Names(u)
  {
    if u.spec.username != u.status.username && u.status.username != [] {
      assert Names(u)[1] == u.status.username;
    }
  }

  /** When the decision is positive, at most one of the two names is taken, and it is the ledger's name. */
  lemma MineNamesOneAccount(s: Server, k: Key, u: DatabaseUser)
    requires UserMine(s, k, u)
    ensures AccountExists(s, u.spec.username) && AccountExists(s, u.status.username) ==>
              u.spec.username == u.status.username
    ensures forall n :: n in Names(u) && AccountExists(s, n) ==>
              u.uid in s.managedUsers && s.managedUsers[u.uid].target == n
  {
    BothNamed(u);
  }
}
