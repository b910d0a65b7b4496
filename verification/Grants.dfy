/** What the permission part of a pass leaves on the server and in the tracked list. */
module Grants {
  import opened Basics
  import opened SqlText
  import opened SqlStatements
  import opened SqlTexts
  import opened Model
  import opened Ownership
  import opened UserPasses
  import opened GrantSafety
  import US = UserSafety

  // ---------------------------------------------------------------- the tracked list

  ghost predicate NoDuplicates<T>(s: seq<T>) {
    forall i, j :: 0 <= i < j < |s| ==> s[i] != s[j]
  }

  lemma {:induction false} RefreshKeeps(known: seq<GrantLine>, lines: seq<GrantLine>)
    requires NoDuplicates(known)
    ensures var all := Refresh(known, lines);
            known <= all && NoDuplicates(all) && (forall g :: g in all <==> g in known || g in lines)
    decreases |lines|
  {
    if lines != [] {
      var next := if lines[0] in known then known else known + [lines[0]];
      RefreshKeeps(next, lines[1..]);
      assert forall g :: g in lines <==> g == lines[0] || g in lines[1..];
      assert forall g :: g in next <==> g in known || g == lines[0];
    }
  }

  /** From an empty list the refreshed list is just the server's lines, when those are distinct. */
  lemma {:induction false} RefreshDistinct(known: seq<GrantLine>, lines: seq<GrantLine>)
    requires NoDuplicates(lines)
    requires forall i :: 0 <= i < |lines| ==> lines[i] !in known
    ensures Refresh(known, lines) == known + lines
    decreases |lines|
  {
    if lines != [] {
      RefreshDistinct(known + [lines[0]], lines[1..]);
      assert known + [lines[0]] + lines[1..] == known + lines;
    }
  }

  /** Nothing new on the server: the list stays. */
  lemma {:induction false} RefreshIdle(known: seq<GrantLine>, lines: seq<GrantLine>)
    requires forall i :: 0 <= i < |lines| ==> lines[i] in known
    ensures Refresh(known, lines) == known
    decreases |lines|
  {
    if lines != [] {
      assert lines[0] in known;
      RefreshIdle(known, lines[1..]);
    }
  }

  /**
   * Refreshing the tracked list: the old list is a prefix, no line is listed twice, the listed lines are
   * the old ones and the server's, and the list changed exactly when a server line was new.
   */
  lemma RefreshTracks(known: seq<GrantLine>, lines: seq<GrantLine>)
    requires NoDuplicates(known)
    ensures var all := Refresh(known, lines);
            && known <= all && NoDuplicates(all)
            && (forall g :: g in all <==> g in known || g in lines)
            && (all != known <==> exists i :: 0 <= i < |lines| && lines[i] !in known)
  {
    RefreshKeeps(known, lines);
    if i :| 0 <= i < |lines| && lines[i] !in known {
      assert lines[i] in Refresh(known, lines);
    } else {
      RefreshIdle(known, lines);
    }
  }

  lemma {:induction false} RefreshGrows(known: seq<GrantLine>, lines: seq<GrantLine>)
    ensures |known| <= |Refresh(known, lines)|
    ensures lines != [] ==> Refresh(known, lines) != []
    decreases |lines|
  {
    if lines != [] {
      RefreshGrows(if lines[0] in known then known else known + [lines[0]], lines[1..]);
    }
  }

  lemma LinesDistinct(p: Privileges, n: Bytes, env: Env)
    requires ValidOrder(env)
    ensures NoDuplicates(Lines(p, n, env)) && |Lines(p, n, env)| == |p|
  {
    var o := env.order(p);
    assert |o| == |p|;
    forall i, j | 0 <= i < j < |o| ensures Lines(p, n, env)[i] != Lines(p, n, env)[j] {
      assert o[i] != o[j];
    }
  }

  // ---------------------------------------------------------------- the privileges asked for

  const SMALL_LETTERS: string := "abcdefghijklmnopqrstuvwxyz"
  const CAPITAL_LETTERS: string := "ABCDEFGHIJKLMNOPQRSTUVWXYZ"

  /** `d` is the capital at the place `c` has in the alphabet, or `c` itself when that is no small letter. */
  ghost predicate CapitalOf(c: byte, d: byte) {
    if c in Ascii(SMALL_LETTERS) then exists i :: 0 <= i < 26 && Ascii(SMALL_LETTERS)[i] == c && Ascii(CAPITAL_LETTERS)[i] == d
    else d == c
  }

  ghost predicate InCapitals(w: Bytes, v: Bytes) {
    |v| == |w| && forall i :: 0 <= i < |w| ==> CapitalOf(w[i], v[i])
  }

  /** The permission asks for this word: every one when it lists none, else one it lists, in capitals. */
  ghost predicate Asked(p: Permission, word: Bytes) {
    if p.grants == [] then word == Ascii("ALL") else exists i :: 0 <= i < |p.grants| && InCapitals(p.grants[i], word)
  }

  lemma Letter(i: nat)
    requires i < 26
    ensures SMALL_LETTERS[i] as int == 97 + i && CAPITAL_LETTERS[i] as int == 65 + i
  {
  }

  lemma Alphabets()
    ensures forall i :: 0 <= i < 26 ==> Ascii(SMALL_LETTERS)[i] == (97 + i) as byte && Ascii(CAPITAL_LETTERS)[i] == (65 + i) as byte
  {
    forall i | 0 <= i < 26 ensures Ascii(SMALL_LETTERS)[i] == (97 + i) as byte && Ascii(CAPITAL_LETTERS)[i] == (65 + i) as byte {
      Letter(i);
    }
  }

  lemma UpperIsCapital(c: byte, d: byte)
    ensures CapitalOf(c, d) <==> UpperByte(c) == d
  {
    Alphabets();
    if 97 <= c <= 122 {
      assert Ascii(SMALL_LETTERS)[c as int - 97] == c && Ascii(CAPITAL_LETTERS)[c as int - 97] == c - 32;
    }
  }

  lemma UpperInCapitals(w: Bytes, v: Bytes)
    ensures InCapitals(w, v) <==> Upper(w) == v
  {
    if |v| == |w| {
      forall i | 0 <= i < |w| ensures CapitalOf(w[i], v[i]) <==> Upper(w)[i] == v[i] {
        UpperIsCapital(w[i], v[i]);
      }
    }
  }

  /** The words of the GRANT text are those asked for, each in its place. */
  lemma WordsAsked(p: Permission)
    ensures p.grants == [] ==> PrivilegeList(p) == [Ascii("ALL")]
    ensures p.grants != [] ==>
              |PrivilegeList(p)| == |p.grants| && forall i :: 0 <= i < |p.grants| ==> InCapitals(p.grants[i], PrivilegeList(p)[i])
    ensures forall word :: word in PrivilegeWords(p) <==> Asked(p, word)
  {
    forall i, word | 0 <= i < |p.grants| ensures InCapitals(p.grants[i], word) <==> PrivilegeList(p)[i] == word {
      UpperInCapitals(p.grants[i], word);
    }
    forall word ensures word in PrivilegeWords(p) <==> Asked(p, word) {
      WordInList(PrivilegeList(p), word);
      if p.grants == [] {
        assert PrivilegeList(p)[0] == Ascii("ALL");
      } else if Asked(p, word) {
        var i :| 0 <= i < |p.grants| && InCapitals(p.grants[i], word);
        assert PrivilegeList(p)[i] == word;
      }
    }
  }

  lemma WordInList(ws: seq<Bytes>, word: Bytes)
    ensures word in AsSet(ws) <==> exists i :: 0 <= i < |ws| && ws[i] == word
  {
  }

  // ---------------------------------------------------------------- exactness of the privileges

  /** The specification gives this word on this schema, through a Database object it may grant. */
  ghost predicate Entitled(s: Server, databases: map<Key, Database>, k: Key, perms: seq<Permission>, from: nat, schema: Bytes, word: Bytes) {
    exists i :: from <= i < |perms| && Gives(s, databases, k, perms[i], schema, word)
  }

  /** The Database object it names, in its own namespace, is under management and has recorded this schema, and the word is asked for. */
  ghost predicate Gives(s: Server, databases: map<Key, Database>, k: Key, p: Permission, schema: Bytes, word: Bytes) {
    var dk := Key(k.namespace, p.database);
    && dk in databases && DatabaseMine(s, dk, databases[dk])
    && schema != [] && databases[dk].status.name == schema
    && Asked(p, word)
  }

  lemma GivesAsGranted(s: Server, databases: map<Key, Database>, k: Key, p: Permission, schema: Bytes, word: Bytes)
    ensures Gives(s, databases, k, p, schema, word) <==>
              Grantable(s, databases, k, p) && databases[Listed(k, p)].status.name == schema && word in PrivilegeWords(p)
  {
    WordsAsked(p);
  }

  /** The account was granted this word on exactly this name. */
  predicate Holds(s: Server, n: Bytes, schema: Bytes, word: Bytes) {
    n in s.accounts && word in Held(s.accounts[n].privileges, schema)
  }

  /** Grants change accounts only, so what may be granted does not change on the way. */
  ghost predicate SameSchemas(s: Server, s': Server) {
    s'.schemas == s.schemas && s'.managedDatabases == s.managedDatabases && s'.accounts.Keys == s.accounts.Keys
  }

  /** The words are read as meant, and so is the name, if the Database object is there. */
  ghost predicate PlainPermission(databases: map<Key, Database>, k: Key, p: Permission) {
    && (forall word :: Asked(p, word) ==> PlainPrivilege(word))
    && (Listed(k, p) in databases ==> Quotable(databases[Listed(k, p)].status.name))
  }

  lemma PlainWords(p: Permission)
    ensures (forall word :: Asked(p, word) ==> PlainPrivilege(word)) <==> PlainPrivileges(PrivilegeList(p))
  {
    WordsAsked(p);
    assert PrivilegeList(p) != [];
    assert forall i :: 0 <= i < |PrivilegeList(p)| ==> PrivilegeList(p)[i] in PrivilegeWords(p);
  }

  ghost predicate PlainList(databases: map<Key, Database>, k: Key, perms: seq<Permission>) {
    forall i :: 0 <= i < |perms| ==> PlainPermission(databases, k, perms[i])
  }

  /** Every lookup of the loop answers, and the texts are read as the language defines them. */
  ghost predicate LoopAnswers(env: Env) {
    Literate(env.reader) && LookupsOk(env) && forall j :: env.ok(LookupSchemaRow(j))
  }

  /** Moreover every GRANT goes through. */
  ghost predicate GrantsDelivered(env: Env) {
    LoopAnswers(env) && forall j :: env.ok(SendGrant(j))
  }

  lemma DecidesAsGrantable(s: Server, databases: map<Key, Database>, k: Key, p: Permission, env: Env, i: nat)
    requires LookupsOk(env) && env.ok(LookupSchemaRow(i))
    ensures DecidesGrant(s, databases, k, p, env, i) <==> Grantable(s, databases, k, p)
  {
    assert forall n :: SchemaSeen(s, n, env, i) == SchemaExists(s, n);
  }

  /** What entry `i` does to the accounts. */
  lemma GrantOneEffect(s: Server, u: DatabaseUser, k: Key, databases: map<Key, Database>, i: nat, env: Env)
    requires i < |u.spec.databaseList| && LoopAnswers(env) && u.status.username in s.accounts
    requires PlainPermission(databases, k, u.spec.databaseList[i])
    ensures var p, n, s1 := u.spec.databaseList[i], u.status.username, GrantOne(s, u, k, databases, i, env);
            if Grantable(s, databases, k, p) && env.ok(SendGrant(i)) then
              var name := databases[Listed(k, p)].status.name;
              s1 == s.(accounts := s.accounts[n := Granted(s.accounts[n], PrivilegeWords(p), Pattern(name))], issued := s1.issued)
            else s1 == s.(issued := s1.issued)
  {
    var p := u.spec.databaseList[i];
    DecidesAsGrantable(s, databases, k, p, env, i);
    PlainWords(p);
    if Grantable(s, databases, k, p) {
      US.GrantOneReads(u, k, databases, i, env);
      GrantReceived(s, Actor(k, u), GrantOneText(u, k, databases, i), PrivilegeWords(p), databases[Listed(k, p)].status.name,
                    u.status.username, env, env.ok(SendGrant(i)));
    }
  }

  lemma GrantReceived(s: Server, a: Creator, text: Bytes, ws: set<Bytes>, name: Bytes, n: Bytes, env: Env, reached: bool)
    requires env.reader(text) == Some(Grant(ws, Pattern(name), n)) && n in s.accounts
    ensures var s1 := Receive(s, a, text, env, reached).0;
            s1 == if reached then s.(accounts := s.accounts[n := Granted(s.accounts[n], ws, Pattern(name))], issued := s1.issued)
                  else s.(issued := s1.issued)
  {
  }

  lemma GrantOneAdds(s: Server, u: DatabaseUser, k: Key, databases: map<Key, Database>, i: nat, env: Env, schema: Bytes, word: Bytes)
    requires i < |u.spec.databaseList| && GrantsDelivered(env) && u.status.username in s.accounts
    requires PlainPermission(databases, k, u.spec.databaseList[i])
    ensures var s1 := GrantOne(s, u, k, databases, i, env);
            && SameSchemas(s, s1)
            && (Holds(s1, u.status.username, schema, word) <==>
                  Holds(s, u.status.username, schema, word) || Gives(s, databases, k, u.spec.databaseList[i], schema, word))
  {
    GrantOneEffect(s, u, k, databases, i, env);
    GivesAsGranted(s, databases, k, u.spec.databaseList[i], schema, word);
  }

  lemma {:induction false} GrantFromAdds(s: Server, u: DatabaseUser, k: Key, databases: map<Key, Database>, i: nat, env: Env,
                                        schema: Bytes, word: Bytes)
    requires i <= |u.spec.databaseList| && u.status.username in s.accounts
    requires GrantsDelivered(env) && PlainList(databases, k, u.spec.databaseList)
    requires GrantFrom(s, u, k, databases, i, env).1
    ensures var s1 := GrantFrom(s, u, k, databases, i, env).0;
            && SameSchemas(s, s1)
            && (Holds(s1, u.status.username, schema, word) <==>
                  Holds(s, u.status.username, schema, word) || Entitled(s, databases, k, u.spec.databaseList, i, schema, word))
    decreases |u.spec.databaseList| - i
  {
    if i < |u.spec.databaseList| {
      var s1 := GrantOne(s, u, k, databases, i, env);
      GrantOneAdds(s, u, k, databases, i, env, schema, word);
      GrantFromAdds(s1, u, k, databases, i + 1, env, schema, word);
      EntitledStep(s, s1, databases, k, u.spec.databaseList, i, schema, word);
    }
  }

  lemma EntitledStep(s: Server, s1: Server, databases: map<Key, Database>, k: Key, perms: seq<Permission>, i: nat, schema: Bytes, word: Bytes)
    requires i < |perms| && SameSchemas(s, s1)
    ensures Entitled(s, databases, k, perms, i, schema, word) <==>
            Gives(s, databases, k, perms[i], schema, word) || Entitled(s1, databases, k, perms, i + 1, schema, word)
  {
    assert forall p :: Gives(s1, databases, k, p, schema, word) <==> Gives(s, databases, k, p, schema, word);
  }

  /** The empty tracked list proves, after the refresh, that the account holds nothing on any name. */
  lemma EmptyListMeansNoNames(s: Server, u: DatabaseUser, env: Env)
    requires ValidOrder(env)
    requires GrantStatusUpdate(s, u, false, 0, env).2
    requires GrantStatusUpdate(s, u, false, 0, env).0.status.grants == []
    ensures u.status.username in s.accounts && s.accounts[u.status.username].privileges == map[]
  {
    var p := s.accounts[u.status.username].privileges;
    var lines := Lines(p, u.status.username, env);
    LinesDistinct(p, u.status.username, env);
    RefreshGrows(u.status.grants, lines);
  }

  predicate HoldsNothing(a: Account) {
    a.privileges == map[] && a.everywhere == {}
  }

  /** The refreshed list, which decides whether a REVOKE is sent. */
  function Known(s: Server, u: DatabaseUser, env: Env): seq<GrantLine> {
    GrantStatusUpdate(s, u, false, 0, env).0.status.grants
  }

  /**
   * Skipping the REVOKE for an empty list: what the loop then grants to holds nothing if and only if the
   * list was not empty or nothing was granted on all schemas, since the line that would show it is dropped.
   */
  lemma ClearedHoldsNothingIff(s: Server, u: DatabaseUser, k: Key, env: Env)
    requires ValidOrder(env) && GrantStatusUpdate(s, u, false, 0, env).2 && US.Cleared(s, u, k, env).ok
    ensures var n, s1 := u.status.username, US.Cleared(s, u, k, env).server;
            && n in s.accounts && n in s1.accounts && s1.accounts[n].privileges == map[]
            && (HoldsNothing(s1.accounts[n]) <==> Known(s, u, env) != [] || s.accounts[n].everywhere == {})
  {
    var u1 := GrantStatusUpdate(s, u, false, 0, env).0;
    if Known(s, u, env) == [] {
      EmptyListMeansNoNames(s, u, env);
    } else {
      RevokedAll(s, u1, k, env);
    }
  }

  /** The pass found the privileges out of date and went through to the end. */
  predicate Regrants(s: Server, u: DatabaseUser, k: Key, databases: map<Key, Database>, env: Env) {
    var (u1, grew, shown) := GrantStatusUpdate(s, u, false, 0, env);
    shown && (grew || !PermissionListEqual(u1)) && UpdatePermissions(s, u, k, databases, env).ok
  }

  lemma AllGranted(s: Server, u: DatabaseUser, k: Key, databases: map<Key, Database>, env: Env)
    requires u.status.username in s.accounts && s.accounts[u.status.username].privileges == map[]
    requires GrantsDelivered(env) && PlainList(databases, k, u.spec.databaseList)
    requires GrantAll(s, u, k, databases, env).ok
    ensures var s1 := GrantAll(s, u, k, databases, env).server;
            && u.status.username in s1.accounts
            && forall schema, word :: Holds(s1, u.status.username, schema, word) <==> Entitled(s, databases, k, u.spec.databaseList, 0, schema, word)
  {
    forall schema, word ensures Holds(GrantAll(s, u, k, databases, env).server, u.status.username, schema, word)
                           <==> Entitled(s, databases, k, u.spec.databaseList, 0, schema, word) {
      GrantFromAdds(s, u, k, databases, 0, env, schema, word);
    }
    GrantFromAdds(s, u, k, databases, 0, env, [], []);
  }

  lemma RevokedAll(s: Server, u: DatabaseUser, k: Key, env: Env)
    requires Revoke(s, u, k, env).ok
    ensures var r := Revoke(s, u, k, env);
            && r.user.spec == u.spec && r.user.status.username == u.status.username && SameSchemas(s, r.server)
            && u.status.username in r.server.accounts && HoldsNothing(r.server.accounts[u.status.username])
  {
  }

  lemma {:induction false} GrantFromEverywhere(s: Server, u: DatabaseUser, k: Key, databases: map<Key, Database>, i: nat, env: Env)
    requires i <= |u.spec.databaseList| && u.status.username in s.accounts
    requires LoopAnswers(env) && PlainList(databases, k, u.spec.databaseList)
    ensures var n, s1 := u.status.username, GrantFrom(s, u, k, databases, i, env).0;
            n in s1.accounts && s1.accounts[n].everywhere == s.accounts[n].everywhere
    decreases |u.spec.databaseList| - i
  {
    if i < |u.spec.databaseList| {
      GrantOneEverywhere(s, u, k, databases, i, env);
      GrantFromEverywhere(GrantOne(s, u, k, databases, i, env), u, k, databases, i + 1, env);
    }
  }

  lemma GrantOneEverywhere(s: Server, u: DatabaseUser, k: Key, databases: map<Key, Database>, i: nat, env: Env)
    requires i < |u.spec.databaseList| && u.status.username in s.accounts
    requires LoopAnswers(env) && PlainPermission(databases, k, u.spec.databaseList[i])
    ensures var n, s1 := u.status.username, GrantOne(s, u, k, databases, i, env);
            n in s1.accounts && s1.accounts[n].everywhere == s.accounts[n].everywhere
  {
    GrantOneEffect(s, u, k, databases, i, env);
  }

  /**
   * Grant exactness: after a permission pass that finds a difference and completes, with no GRANT lost
   * and all texts read as meant, the account was granted a word on a name exactly when the specification
   * gives it, through a Database object of the same namespace that is under management; what it holds on
   * all schemas is gone exactly when the pass sent a REVOKE or there was nothing.
   */
  lemma GrantsExact(s: Server, u: DatabaseUser, k: Key, databases: map<Key, Database>, env: Env)
    requires ValidOrder(env) && NoDuplicates(u.status.grants)
    requires GrantsDelivered(env) && PlainList(databases, k, u.spec.databaseList)
    requires Regrants(s, u, k, databases, env)
    ensures var n, o := u.status.username, UpdatePermissions(s, u, k, databases, env);
            && n in s.accounts && n in o.server.accounts
            && (forall schema, word :: Holds(o.server, n, schema, word) <==> Entitled(s, databases, k, u.spec.databaseList, 0, schema, word))
            && (o.server.accounts[n].everywhere == {} <==> Known(s, u, env) != [] || s.accounts[n].everywhere == {})
  {
    US.UpdatePermissionsCases(s, u, k, databases, env);
    ClearedHoldsNothingIff(s, u, k, env);
    ClearedSame(s, u, k, env);
    var r := US.Cleared(s, u, k, env);
    AllGranted(r.server, r.user, k, databases, env);
    GrantFromEverywhere(r.server, r.user, k, databases, 0, env);
    forall schema, word ensures Entitled(r.server, databases, k, u.spec.databaseList, 0, schema, word)
                           <==> Entitled(s, databases, k, u.spec.databaseList, 0, schema, word) {
      assert forall p :: Gives(r.server, databases, k, p, schema, word) <==> Gives(s, databases, k, p, schema, word);
    }
  }

  lemma ClearedSame(s: Server, u: DatabaseUser, k: Key, env: Env)
    requires US.Cleared(s, u, k, env).ok
    ensures var r := US.Cleared(s, u, k, env);
            r.user.spec == u.spec && r.user.status.username == u.status.username && SameSchemas(s, r.server)
  {
    var u1 := GrantStatusUpdate(s, u, false, 0, env).0;
    if u1.status.grants != [] {
      RevokedAll(s, u1, k, env);
    }
  }

  // ---------------------------------------------------------------- names that are patterns

  /** The word applies to the schema, through some name that covers it or as one granted on all schemas. */
  ghost predicate Applies(s: Server, n: Bytes, schema: Bytes, word: Bytes) {
    n in s.accounts && (word in s.accounts[n].everywhere || AppliesByName(s, n, schema, word))
  }

  ghost predicate AppliesByName(s: Server, n: Bytes, schema: Bytes, word: Bytes)
    requires n in s.accounts
  {
    exists p :: p in s.accounts[n].privileges && Like(p, schema) && word in s.accounts[n].privileges[p]
  }

  /** What was granted is what the specification gives, name by name. */
  ghost predicate GrantedExactly(s: Server, n: Bytes, databases: map<Key, Database>, k: Key, perms: seq<Permission>) {
    forall schema, word :: Holds(s, n, schema, word) <==> Entitled(s, databases, k, perms, 0, schema, word)
  }

  /** What applies to the existing schemas is what the specification gives. */
  ghost predicate AppliesExactly(s: Server, n: Bytes, databases: map<Key, Database>, k: Key, perms: seq<Permission>) {
    forall schema, word :: schema in s.schemas ==> (Applies(s, n, schema, word) <==> Entitled(s, databases, k, perms, 0, schema, word))
  }

  /** The permission gives the word on a name that covers the schema. */
  ghost predicate GivesOver(s: Server, databases: map<Key, Database>, k: Key, p: Permission, name: Bytes, schema: Bytes, word: Bytes) {
    Gives(s, databases, k, p, name, word) && Like(name, schema)
  }

  /** A listed name covers an existing schema only if the specification gives the same words on that. */
  ghost predicate NoOverlap(s: Server, databases: map<Key, Database>, k: Key, perms: seq<Permission>) {
    forall i, name, schema, word ::
      0 <= i < |perms| && GivesOver(s, databases, k, perms[i], name, schema, word) && schema in s.schemas ==>
        Entitled(s, databases, k, perms, 0, schema, word)
  }

  lemma AppliesThrough(s: Server, n: Bytes, databases: map<Key, Database>, k: Key, perms: seq<Permission>, schema: Bytes, word: Bytes)
    requires n in s.accounts && GrantedExactly(s, n, databases, k, perms)
    ensures AppliesByName(s, n, schema, word) <==>
            exists i, name :: 0 <= i < |perms| && GivesOver(s, databases, k, perms[i], name, schema, word)
  {
    var ps := s.accounts[n].privileges;
    if AppliesByName(s, n, schema, word) {
      var p :| p in ps && Like(p, schema) && word in ps[p];
      assert Holds(s, n, p, word) && Entitled(s, databases, k, perms, 0, p, word);
      var i :| 0 <= i < |perms| && Gives(s, databases, k, perms[i], p, word);
      assert GivesOver(s, databases, k, perms[i], p, schema, word);
    }
    if i, p :| 0 <= i < |perms| && GivesOver(s, databases, k, perms[i], p, schema, word) {
      assert Entitled(s, databases, k, perms, 0, p, word) && Holds(s, n, p, word);
      assert p in ps && Like(p, schema) && word in ps[p];
    }
  }

  /** A word granted on all schemas is given by the specification on each that exists. */
  ghost predicate EverywhereGiven(s: Server, n: Bytes, databases: map<Key, Database>, k: Key, perms: seq<Permission>)
    requires n in s.accounts
  {
    forall schema, word :: schema in s.schemas && word in s.accounts[n].everywhere ==> Entitled(s, databases, k, perms, 0, schema, word)
  }

  /**
   * An underscore in a granted name stands for any byte. Exact grants apply exactly to the schemas the
   * specification names if and only if no listed name covers another existing schema that is not given
   * the same words, and what is held on all schemas, if anything, is given on each. The webhook keeps `%`
   * and backslash out of the names.
   */
  lemma AppliesExactlyIff(s: Server, n: Bytes, databases: map<Key, Database>, k: Key, perms: seq<Permission>)
    requires n in s.accounts && GrantedExactly(s, n, databases, k, perms)
    requires forall i, name, word :: 0 <= i < |perms| && Gives(s, databases, k, perms[i], name, word) ==>
               PERCENT !in name && BACKSLASH !in name
    ensures AppliesExactly(s, n, databases, k, perms) <==>
              NoOverlap(s, databases, k, perms) && EverywhereGiven(s, n, databases, k, perms)
  {
    forall schema, word
      ensures AppliesByName(s, n, schema, word) <==>
              exists i, name :: 0 <= i < |perms| && GivesOver(s, databases, k, perms[i], name, schema, word)
      ensures Entitled(s, databases, k, perms, 0, schema, word) ==> AppliesByName(s, n, schema, word)
    {
      AppliesThrough(s, n, databases, k, perms, schema, word);
      if i :| 0 <= i < |perms| && Gives(s, databases, k, perms[i], schema, word) {
        CoversItself(schema);
      }
    }
    AppliesParts(s, n, databases, k, perms);
  }

  /** What applies is what the names give and what is held on all schemas. */
  lemma AppliesParts(s: Server, n: Bytes, databases: map<Key, Database>, k: Key, perms: seq<Permission>)
    requires n in s.accounts
    requires forall schema, word :: Entitled(s, databases, k, perms, 0, schema, word) ==> AppliesByName(s, n, schema, word)
    ensures AppliesExactly(s, n, databases, k, perms) <==>
              && (forall schema, word :: schema in s.schemas && AppliesByName(s, n, schema, word) ==> Entitled(s, databases, k, perms, 0, schema, word))
              && EverywhereGiven(s, n, databases, k, perms)
  {
  }
}
