/**
 * What one pass does to objects it does not own: nothing. The invariants that make the ownership
 * decisions sound, and their preservation by every step of a pass.
 */
module Safety {
  import opened Basics
  import opened SqlStatements
  import opened Model

  // ---------------------------------------------------------------- authorised statements

  /** DROP USER IF EXISTS '': the statement a finalizer sends when the status holds no name. */
  predicate AnonymousDrop(e: Issued) {
    e.stmt == OnAccount(DropUser([]))
  }

  /**
   * The statement named no existing account or schema of anybody else. A GRANT may also name a schema
   * made for a Database object of the same namespace.
   */
  predicate Authorised(e: Issued) {
    && e.actor.Cr?
    && (forall c :: c in e.accounts ==> c == e.actor)
    && (forall c :: c in e.schemas ==>
          if e.stmt.Grant? then c.Cr? && c.namespace == e.actor.namespace else c == e.actor)
  }

  /** `anonymous` says whether the statement may be the anonymous drop. */
  predicate Permitted(e: Issued, anonymous: bool) {
    if AnonymousDrop(e) then anonymous else Authorised(e)
  }

  /** The log only grew, by permitted statements of this actor. */
  ghost predicate Logged(s: Server, s': Server, a: Creator, anonymous: bool) {
    && |s.issued| <= |s'.issued|
    && s'.issued[..|s.issued|] == s.issued
    && (forall i :: |s.issued| <= i < |s'.issued| ==> s'.issued[i].actor == a && Permitted(s'.issued[i], anonymous))
  }

  // ---------------------------------------------------------------- frames

  predicate OwnsAccount(s: Server, n: Bytes, a: Creator) {
    n in s.accounts && s.accounts[n].creator == a
  }

  predicate OwnsSchema(s: Server, n: Bytes, a: Creator) {
    n in s.schemas && s.schemas[n].creator == a
  }

  /** Accounts of other creators, the anonymous one aside, are exactly what they were, and so is the rest. */
  ghost predicate UserFrame(s: Server, s': Server, a: Creator, anonymous: bool) {
    && a.Cr?
    && (forall n :: n in s.accounts && n != [] && s.accounts[n].creator != a ==>
          n in s'.accounts && s'.accounts[n] == s.accounts[n])
    && (forall n :: n in s'.accounts && n != [] && s'.accounts[n].creator != a ==>
          n in s.accounts && s.accounts[n] == s'.accounts[n])
    && (forall u :: u in s.managedUsers && u != a.uid ==> u in s'.managedUsers && s'.managedUsers[u] == s.managedUsers[u])
    && (forall u :: u in s'.managedUsers && u != a.uid ==> u in s.managedUsers)
    && s'.schemas == s.schemas && s'.managedDatabases == s.managedDatabases
    && s'.catalog == s.catalog && s'.defaultPlugin == s.defaultPlugin
    && Logged(s, s', a, anonymous)
  }

  ghost predicate DatabaseFrame(s: Server, s': Server, a: Creator) {
    && a.Cr?
    && (forall n :: n in s.schemas && s.schemas[n].creator != a ==> n in s'.schemas && s'.schemas[n] == s.schemas[n])
    && (forall n :: n in s'.schemas && s'.schemas[n].creator != a ==> n in s.schemas && s.schemas[n] == s'.schemas[n])
    && (forall u :: u in s.managedDatabases && u != a.uid ==>
          u in s'.managedDatabases && s'.managedDatabases[u] == s.managedDatabases[u])
    && (forall u :: u in s'.managedDatabases && u != a.uid ==> u in s.managedDatabases)
    && s'.accounts == s.accounts && s'.managedUsers == s.managedUsers
    && s'.catalog == s.catalog && s'.defaultPlugin == s.defaultPlugin
    && Logged(s, s', a, false)
  }

  lemma LoggedTransitive(s: Server, s1: Server, s2: Server, a: Creator)
    requires Logged(s, s1, a, false) && Logged(s1, s2, a, false)
    ensures Logged(s, s2, a, false)
  {
    assert s2.issued[..|s.issued|] == s2.issued[..|s1.issued|][..|s.issued|];
    forall i | |s.issued| <= i < |s2.issued| ensures s2.issued[i].actor == a && Permitted(s2.issued[i], false) {
      if i < |s1.issued| {
        assert s2.issued[i] == s2.issued[..|s1.issued|][i];
      }
    }
  }

  lemma UserFrameTransitive(s: Server, s1: Server, s2: Server, a: Creator)
    requires UserFrame(s, s1, a, false) && UserFrame(s1, s2, a, false)
    ensures UserFrame(s, s2, a, false)
  {
    LoggedTransitive(s, s1, s2, a);
  }

  function Entry(s: Server, a: Creator, stmt: Stmt): Issued {
    Issued(a, stmt, NamedAccounts(s, stmt), NamedSchemas(s, stmt))
  }

  lemma ExecLogged(s: Server, a: Creator, stmt: Stmt, reached: bool, anonymous: bool)
    requires Permitted(Entry(s, a, stmt), anonymous)
    ensures Logged(s, Exec(s, a, stmt, reached).0, a, anonymous)
  {
  }

  /**
   * The text is read as a statement about what is not the actor's. Printed from plain names this does
   * not happen; what a name or a privilege word with other characters is read as is up to the server.
   */
  predicate Stray(s: Server, a: Creator, text: Bytes, env: Env) {
    env.reader(text).Some? && !Authorised(Entry(s, a, env.reader(text).value))
  }

  /** A permitted account statement keeps the frame. */
  lemma SendFrame(s: Server, a: Creator, stmt: Stmt, reached: bool, anonymous: bool)
    requires a.Cr? && (stmt.OnAccount? || stmt.Grant?)
    requires Permitted(Entry(s, a, stmt), anonymous)
    ensures UserFrame(s, Exec(s, a, stmt, reached).0, a, anonymous)
  {
    ExecLogged(s, a, stmt, reached, anonymous);
    assert stmt.Grant? ==> CreatorOfAccount(s, stmt.name) == NamedAccounts(s, stmt);
  }

  lemma DatabaseSendFrame(s: Server, a: Creator, stmt: Stmt, reached: bool)
    requires a.Cr? && !stmt.OnAccount? && !stmt.Grant?
    requires Authorised(Entry(s, a, stmt))
    ensures DatabaseFrame(s, Exec(s, a, stmt, reached).0, a)
  {
    ExecLogged(s, a, stmt, reached, false);
  }

  /** A text that is not stray keeps the frame, whatever it is read as. */
  lemma ReceiveFrame(s: Server, a: Creator, text: Bytes, env: Env, reached: bool)
    requires a.Cr? && !Stray(s, a, text, env)
    requires env.reader(text).Some? ==> env.reader(text).value.Grant?
    ensures UserFrame(s, Receive(s, a, text, env, reached).0, a, false)
  {
    if env.reader(text).Some? {
      SendFrame(s, a, env.reader(text).value, reached, false);
    }
  }

  lemma DatabaseReceiveFrame(s: Server, a: Creator, text: Bytes, env: Env, reached: bool)
    requires a.Cr? && !Stray(s, a, text, env)
    requires env.reader(text).Some? ==> !env.reader(text).value.OnAccount? && !env.reader(text).value.Grant?
    ensures DatabaseFrame(s, Receive(s, a, text, env, reached).0, a)
  {
    if env.reader(text).Some? {
      DatabaseSendFrame(s, a, env.reader(text).value, reached);
    }
  }

  /** The log of the new server starts with the old one's. */
  ghost predicate Appends(s: Server, s': Server) {
    |s.issued| <= |s'.issued| && s'.issued[..|s.issued|] == s.issued
  }

  lemma AppendsTransitive(s: Server, s1: Server, s2: Server)
    requires Appends(s, s1) && Appends(s1, s2)
    ensures Appends(s, s2)
  {
    assert s2.issued[..|s.issued|] == s2.issued[..|s1.issued|][..|s.issued|];
  }
}
