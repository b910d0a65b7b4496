/** When a GRANT keeps to the schemas of its namespace: the words are plain and the name is no pattern for others. */
module GrantSafety {
  import opened Basics
  import opened SqlText
  import opened SqlStatements
  import opened SqlTexts
  import opened Model
  import opened Ownership
  import opened Safety
  import opened UserPasses
  import opened DatabaseSafety
  import opened UserSafety
  import DP = DatabaseReconciler

  // ---------------------------------------------------------------- names as patterns

  /** No byte that has a meaning in a pattern. */
  predicate Literal(p: Bytes) {
    PERCENT !in p && UNDERSCORE !in p && BACKSLASH !in p
  }

  lemma {:induction false} LiteralCovers(p: Bytes, n: Bytes)
    requires Literal(p)
    ensures Like(p, n) <==> n == p
    decreases |p|
  {
    if p != [] {
      assert p[0] in p;
      assert p == [p[0]] + p[1..];
      if n != [] {
        assert n == [n[0]] + n[1..];
        LiteralCovers(p[1..], n[1..]);
      }
    }
  }

  /** Without `%` and backslash, which the webhook keeps out, a name is covered by itself. */
  lemma {:induction false} CoversItself(p: Bytes)
    requires PERCENT !in p && BACKSLASH !in p
    ensures Like(p, p)
  {
    if p != [] {
      assert p[0] in p;
      assert p == [p[0]] + p[1..];
      CoversItself(p[1..]);
    }
  }

  /** An underscore stands for any byte: `app_prod` covers `appXprod`. */
  lemma UnderscoreCovers()
    ensures Like(Ascii("a_b"), Ascii("aXb"))
  {
    var p, n := Ascii("a_b"), Ascii("aXb");
    assert p == [97, 95, 98] && n == [97, 88, 98];
    assert p[1..] == [95, 98] && n[1..] == [88, 98];
    assert p[1..][1..] == [98] && n[1..][1..] == [98];
    assert Like([98], [98]) by {
      assert [98 as byte][1..] == [];
    }
  }

  // ---------------------------------------------------------------- exactly when a GRANT strays

  /** An existing schema that the name covers was not made for a Database object of the namespace. */
  ghost predicate CoversOthers(s: Server, k: Key, name: Bytes) {
    exists n :: n in s.schemas && Like(name, n) && !(s.schemas[n].creator.Cr? && s.schemas[n].creator.namespace == k.namespace)
  }

  lemma CoveredAuthorised(s: Server, k: Key, u: DatabaseUser, ws: set<Bytes>, name: Bytes)
    requires OwnsAccount(s, u.status.username, Actor(k, u))
    ensures Authorised(Entry(s, Actor(k, u), Grant(ws, Pattern(name), u.status.username))) <==> !CoversOthers(s, k, name)
  {
    var e := Entry(s, Actor(k, u), Grant(ws, Pattern(name), u.status.username));
    if n :| n in s.schemas && Like(name, n) && !(s.schemas[n].creator.Cr? && s.schemas[n].creator.namespace == k.namespace) {
      assert s.schemas[n].creator in e.schemas;
    }
  }

  /**
   * A GRANT of plain words on a name without back-tick, to the object's own account, strays exactly when
   * the name covers an existing schema made by others or for another namespace.
   */
  lemma GrantStraysExactly(s: Server, u: DatabaseUser, k: Key, databases: map<Key, Database>, i: nat, env: Env)
    requires i < |u.spec.databaseList| && Literate(env.reader)
    requires DecidesGrant(s, databases, k, u.spec.databaseList[i], env, i)
    requires PlainPrivileges(PrivilegeList(u.spec.databaseList[i]))
    requires Quotable(databases[Listed(k, u.spec.databaseList[i])].status.name)
    requires OwnsAccount(s, u.status.username, Actor(k, u))
    ensures GrantStrays(s, u, k, databases, i, env) <==> CoversOthers(s, k, databases[Listed(k, u.spec.databaseList[i])].status.name)
  {
    GrantOneReads(u, k, databases, i, env);
    CoveredAuthorised(s, k, u, PrivilegeWords(u.spec.databaseList[i]), databases[Listed(k, u.spec.databaseList[i])].status.name);
  }

  /** On a name that is no pattern, under the invariant, it does not stray. */
  lemma LiteralStays(s: Server, u: DatabaseUser, k: Key, databases: map<Key, Database>, i: nat, env: Env)
    requires i < |u.spec.databaseList| && Literate(env.reader) && LookupsOk(env) && DatabasesInv(s, databases)
    requires PlainPrivileges(PrivilegeList(u.spec.databaseList[i]))
    requires var dk := Listed(k, u.spec.databaseList[i]);
             dk in databases ==> Quotable(databases[dk].spec.name) && Literal(databases[dk].spec.name)
    requires OwnsAccount(s, u.status.username, Actor(k, u))
    ensures !GrantStrays(s, u, k, databases, i, env)
  {
    if DecidesGrant(s, databases, k, u.spec.databaseList[i], env, i) {
      var dk := Listed(k, u.spec.databaseList[i]);
      var d := databases[dk];
      assert DatabaseInv(s, dk, d) && SchemaSeen(s, d.spec.name, env, i) == SchemaExists(s, d.spec.name);
      GrantStraysExactly(s, u, k, databases, i, env);
      forall n | n in s.schemas && Like(d.status.name, n) ensures s.schemas[n].creator == DP.Actor(dk, d) {
        LiteralCovers(d.status.name, n);
        DatabaseSafety.MineIsOwned(s, dk, d);
      }
    }
  }

  lemma LoopStaysLiteral(s: Server, u: DatabaseUser, k: Key, databases: map<Key, Database>, env: Env)
    requires Literate(env.reader) && LookupsOk(env) && DatabasesInv(s, databases)
    requires forall p :: p in u.spec.databaseList ==> PlainPrivileges(PrivilegeList(p))
    requires forall dk :: dk in databases ==> Quotable(databases[dk].spec.name) && Literal(databases[dk].spec.name)
    requires OwnsAccount(s, u.status.username, Actor(k, u))
    ensures !LoopStrays(s, u, k, databases, 0, env)
  {
    forall j | 0 <= j < |u.spec.databaseList| ensures !GrantStrays(s, u, k, databases, j, env) {
      assert u.spec.databaseList[j] in u.spec.databaseList;
      LiteralStays(s, u, k, databases, j, env);
    }
  }
}
