/** The invariant behind `UserMine` and what one DatabaseUser pass keeps. */
module UserSafety {
  import opened Basics
  import opened SqlStatements
  import opened SqlTexts
  import opened Model
  import opened Ownership
  import opened Safety
  import opened UserPasses
  import opened DatabaseSafety

  /**
   * A ledger row needs a claimed name. When the row names the claimed account, that account exists and
   * was made for this object; otherwise the claimed account or the row's account exists and was.
   */
  ghost predicate UserInv(s: Server, k: Key, u: DatabaseUser) {
    && u.spec.username != []
    && (u.uid in s.managedUsers ==>
          var row := s.managedUsers[u.uid];
          && row.owner == k && row.target != [] && u.status.username != []
          && (OwnsAccount(s, u.status.username, Actor(k, u)) ||
              (row.target != u.status.username && OwnsAccount(s, row.target, Actor(k, u)))))
  }

  /** Every taken name of an object that passes the ownership decision was made for this object. */
  lemma MineIsOwned(s: Server, k: Key, u: DatabaseUser, n: Bytes)
    requires UserInv(s, k, u)
    requires UserMine(s, k, u)
    requires n in Names(u) && AccountExists(s, n)
    ensures OwnsAccount(s, n, Actor(k, u))
    ensures s.managedUsers[u.uid].target == n
  {
    BothNamed(u);
    MineNamesOneAccount(s, k, u);
  }

  // ---------------------------------------------------------------- steps that keep all owners

  ghost predicate SameOwners(s: Server, s': Server) {
    && s'.accounts.Keys == s.accounts.Keys
    && (forall n :: n in s.accounts ==> s'.accounts[n].creator == s.accounts[n].creator)
    && s'.managedUsers == s.managedUsers
  }

  /** Same object up to what a pass records without changing the claimed name. */
  predicate SameUser(u: DatabaseUser, u': DatabaseUser) {
    && u'.uid == u.uid && u'.spec == u.spec && u'.finalizer == u.finalizer && u'.deleting == u.deleting
    && u'.status.username == u.status.username
  }

  /** The step kept the frame and every owner, and the in-memory object is still the same one. */
  ghost predicate Tame(s: Server, u: DatabaseUser, o: Outcome, k: Key) {
    UserFrame(s, o.server, Actor(k, u), false) && SameOwners(s, o.server) && SameUser(u, o.user)
  }

  lemma UserFrameReflexive(s: Server, a: Creator)
    requires a.Cr?
    ensures UserFrame(s, s, a, false)
  {
  }

  lemma TameThen(s: Server, u: DatabaseUser, o: Outcome, o': Outcome, k: Key)
    requires Tame(s, u, o, k) && Tame(o.server, o.user, o', k)
    ensures Tame(s, u, o', k)
  {
    UserFrameTransitive(s, o.server, o'.server, Actor(k, u));
  }

  /** The Database objects a grant may look at satisfy their invariant. */
  ghost predicate DatabasesInv(s: Server, databases: map<Key, Database>) {
    forall dk :: dk in databases ==> DatabaseInv(s, dk, databases[dk])
  }

  // ---------------------------------------------------------------- grants that concern others

  /** The GRANT of entry `i` is sent and read as one on schemas or to an account that are not this object's to grant. */
  predicate GrantStrays(s: Server, u: DatabaseUser, k: Key, databases: map<Key, Database>, i: nat, env: Env)
    requires i < |u.spec.databaseList|
  {
    && DecidesGrant(s, databases, k, u.spec.databaseList[i], env, i)
    && Stray(s, Actor(k, u), GrantOneText(u, k, databases, i), env)
  }

  /** Every Database object from entry `i` to entry `j` can be read. */
  predicate Reaches(u: DatabaseUser, k: Key, databases: map<Key, Database>, i: nat, j: nat, env: Env)
    requires i <= j < |u.spec.databaseList|
  {
    forall x :: i <= x <= j ==> Fetched(u, k, databases, x, env)
  }

  /** The loop from entry `i` on sends a GRANT that strays. */
  predicate LoopStrays(s: Server, u: DatabaseUser, k: Key, databases: map<Key, Database>, i: nat, env: Env) {
    exists j :: i <= j < |u.spec.databaseList| && Reaches(u, k, databases, i, j, env) && GrantStrays(s, u, k, databases, j, env)
  }

  lemma EntryStays(s: Server, s1: Server, a: Creator, stmt: Stmt)
    requires stmt.Grant? && s1.schemas == s.schemas && SameOwners(s, s1)
    ensures Entry(s1, a, stmt) == Entry(s, a, stmt)
  {
  }

  /** Grants change neither schemas nor owners: what strays later would stray now. */
  lemma StraysStays(s: Server, s1: Server, u: DatabaseUser, k: Key, databases: map<Key, Database>, i: nat, env: Env)
    requires i < |u.spec.databaseList| && Literate(env.reader)
    requires s1.schemas == s.schemas && s1.managedDatabases == s.managedDatabases && SameOwners(s, s1)
    ensures GrantStrays(s1, u, k, databases, i, env) <==> GrantStrays(s, u, k, databases, i, env)
  {
    if DecidesGrant(s, databases, k, u.spec.databaseList[i], env, i) {
      var text := GrantOneText(u, k, databases, i);
      GrantOneReads(u, k, databases, i, env);
      if env.reader(text).Some? {
        EntryStays(s, s1, Actor(k, u), env.reader(text).value);
      }
    }
  }

  lemma LoopStaysClean(s: Server, s1: Server, u: DatabaseUser, k: Key, databases: map<Key, Database>, i: nat, env: Env)
    requires i < |u.spec.databaseList| && Literate(env.reader) && Fetched(u, k, databases, i, env)
    requires s1.schemas == s.schemas && s1.managedDatabases == s.managedDatabases && SameOwners(s, s1)
    requires !LoopStrays(s, u, k, databases, i, env)
    ensures !GrantStrays(s, u, k, databases, i, env)
    ensures !LoopStrays(s1, u, k, databases, i + 1, env)
  {
    assert Reaches(u, k, databases, i, i, env);
    forall j | i + 1 <= j < |u.spec.databaseList| && Reaches(u, k, databases, i + 1, j, env)
      ensures !GrantStrays(s1, u, k, databases, j, env)
    {
      StraysStays(s, s1, u, k, databases, j, env);
      assert Reaches(u, k, databases, i, j, env);
    }
  }

  /** Whatever GRANT the text is read as, owners stay; if it does not stray, so does everything of others. */
  lemma ReceivedTame(s: Server, u: DatabaseUser, k: Key, text: Bytes, env: Env, reached: bool)
    requires env.reader(text).Some? ==> env.reader(text).value.Grant?
    requires !Stray(s, Actor(k, u), text, env)
    ensures Tame(s, u, Outcome(Receive(s, Actor(k, u), text, env, reached).0, u, true), k)
  {
    ReceiveFrame(s, Actor(k, u), text, env, reached);
  }

  lemma GrantOneReads(u: DatabaseUser, k: Key, databases: map<Key, Database>, i: nat, env: Env)
    requires i < |u.spec.databaseList| && Literate(env.reader) && Listed(k, u.spec.databaseList[i]) in databases
    ensures ReadAsGrant(env.reader(GrantOneText(u, k, databases, i)), PrivilegeList(u.spec.databaseList[i]),
                        databases[Listed(k, u.spec.databaseList[i])].status.name, u.status.username)
  {
  }

  lemma GrantOneTame(s: Server, u: DatabaseUser, k: Key, databases: map<Key, Database>, i: nat, env: Env)
    requires i < |u.spec.databaseList| && Literate(env.reader)
    requires !GrantStrays(s, u, k, databases, i, env)
    ensures Tame(s, u, Outcome(GrantOne(s, u, k, databases, i, env), u, true), k)
  {
    if DecidesGrant(s, databases, k, u.spec.databaseList[i], env, i) {
      GrantOneReads(u, k, databases, i, env);
      ReceivedTame(s, u, k, GrantOneText(u, k, databases, i), env, env.ok(SendGrant(i)));
    } else {
      UserFrameReflexive(s, Actor(k, u));
    }
  }

  lemma {:induction false} GrantFromTame(s: Server, u: DatabaseUser, k: Key, databases: map<Key, Database>, i: nat, env: Env)
    requires i <= |u.spec.databaseList| && Literate(env.reader)
    requires !LoopStrays(s, u, k, databases, i, env)
    ensures Tame(s, u, Outcome(GrantFrom(s, u, k, databases, i, env).0, u, true), k)
    decreases |u.spec.databaseList| - i
  {
    if i == |u.spec.databaseList| || !Fetched(u, k, databases, i, env) {
      UserFrameReflexive(s, Actor(k, u));
    } else {
      var s1 := GrantOne(s, u, k, databases, i, env);
      LoopStaysClean(s, s, u, k, databases, i, env);
      GrantOneTame(s, u, k, databases, i, env);
      LoopStaysClean(s, s1, u, k, databases, i, env);
      GrantFromTame(s1, u, k, databases, i + 1, env);
      TameThen(s, u, Outcome(s1, u, true), Outcome(GrantFrom(s1, u, k, databases, i + 1, env).0, u, true), k);
    }
  }

  lemma GrantAllTame(s: Server, u: DatabaseUser, k: Key, databases: map<Key, Database>, env: Env)
    requires Literate(env.reader) && !LoopStrays(s, u, k, databases, 0, env)
    ensures Tame(s, u, GrantAll(s, u, k, databases, env), k)
  {
    GrantFromTame(s, u, k, databases, 0, env);
  }

  lemma RevokeTame(s: Server, u: DatabaseUser, k: Key, env: Env)
    requires OwnsAccount(s, u.status.username, Actor(k, u))
    ensures Tame(s, u, Revoke(s, u, k, env), k)
  {
    SendFrame(s, Actor(k, u), OnAccount(RevokeAll(u.status.username)), env.ok(SendRevoke), false);
  }

  /** The databases keep their invariant while accounts change. */
  lemma DatabasesStay(s: Server, s1: Server, databases: map<Key, Database>)
    requires s1.schemas == s.schemas && s1.managedDatabases == s.managedDatabases && DatabasesInv(s, databases)
    ensures DatabasesInv(s1, databases)
  {
  }

  /** The grant loop started from here, if it starts, sends nothing that strays. */
  predicate StartsClean(start: Option<(Server, DatabaseUser)>, k: Key, databases: map<Key, Database>, env: Env) {
    start.Some? ==> !LoopStrays(start.value.0, start.value.1, k, databases, 0, env)
  }

  lemma RegrantTame(s: Server, u: DatabaseUser, r: Outcome, k: Key, databases: map<Key, Database>, env: Env)
    requires Literate(env.reader) && !LoopStrays(r.server, r.user, k, databases, 0, env)
    requires Tame(s, u, r, k)
    ensures Tame(s, u, GrantAll(r.server, r.user, k, databases, env), k)
  {
    GrantAllTame(r.server, r.user, k, databases, env);
    TameThen(s, u, r, GrantAll(r.server, r.user, k, databases, env), k);
  }

  /** What comes before the grant loop: the refreshed list, and the REVOKE when something is tracked. */
  function Cleared(s: Server, u: DatabaseUser, k: Key, env: Env): Outcome {
    var u1 := GrantStatusUpdate(s, u, false, 0, env).0;
    if |u1.status.grants| > 0 then Revoke(s, u1, k, env) else Outcome(s, u1, true)
  }

  lemma ClearedTame(s: Server, u: DatabaseUser, k: Key, env: Env)
    requires OwnsAccount(s, u.status.username, Actor(k, u))
    ensures Tame(s, u, Cleared(s, u, k, env), k)
    ensures Tame(s, u, Outcome(s, GrantStatusUpdate(s, u, false, 0, env).0, true), k)
  {
    var u1 := GrantStatusUpdate(s, u, false, 0, env).0;
    assert SameUser(u, u1);
    UserFrameReflexive(s, Actor(k, u));
    RevokeTame(s, u1, k, env);
  }

  lemma UpdatePermissionsCases(s: Server, u: DatabaseUser, k: Key, databases: map<Key, Database>, env: Env)
    ensures var (u1, grew, shown) := GrantStatusUpdate(s, u, false, 0, env);
            var r := Cleared(s, u, k, env);
            var o := UpdatePermissions(s, u, k, databases, env);
            if !shown || (!grew && PermissionListEqual(u1)) then
              o == Outcome(s, u1, shown) && PermissionStart(s, u, k, env) == None
            else if r.ok then
              o == GrantAll(r.server, r.user, k, databases, env) && PermissionStart(s, u, k, env) == Some((r.server, r.user))
            else o == r && PermissionStart(s, u, k, env) == None
  {
  }

  lemma UpdatePermissionsTame(s: Server, u: DatabaseUser, k: Key, databases: map<Key, Database>, env: Env)
    requires OwnsAccount(s, u.status.username, Actor(k, u))
    requires Literate(env.reader) && StartsClean(PermissionStart(s, u, k, env), k, databases, env)
    ensures Tame(s, u, UpdatePermissions(s, u, k, databases, env), k)
  {
    ClearedTame(s, u, k, env);
    UpdatePermissionsCases(s, u, k, databases, env);
    var r := Cleared(s, u, k, env);
    if PermissionStart(s, u, k, env).Some? {
      RegrantTame(s, u, r, k, databases, env);
    }
  }

  // ---------------------------------------------------------------- create, rename, drop

  /** What a step of an object's own pass must leave behind, whether or not its status gets stored. */
  ghost predicate Kept(s: Server, u: DatabaseUser, o: Outcome, k: Key) {
    && UserFrame(s, o.server, Actor(k, u), false)
    && UserInv(o.server, k, u)
    && (o.ok ==> UserInv(o.server, k, o.user))
    && o.user.uid == u.uid && o.user.spec == u.spec && o.user.finalizer == u.finalizer && o.user.deleting == u.deleting
  }

  lemma TameKept(s: Server, u: DatabaseUser, o: Outcome, k: Key)
    requires Tame(s, u, o, k) && UserInv(s, k, u)
    ensures Kept(s, u, o, k)
  {
  }

  /** A CREATE that goes through: the grant loop starts from the new account, and the row is saved after it. */
  lemma CreateGoesThrough(s: Server, u: DatabaseUser, k: Key, databases: map<Key, Database>, secret: Option<Secret>, env: Env)
    requires u.status.username !in s.accounts && env.ok(SendCreate) && DetailsFor(u, secret, true, env).Some?
    ensures var (d, u1) := DetailsFor(u, secret, true, env).value;
            var (s1, sent) := Send(s, k, u, CreateUser(u.status.username, d), env.ok(SendCreate));
            var g := GrantAll(s1, Tracking(u1, []), k, databases, env);
            && sent && SameUser(u, u1)
            && s1 == s.(issued := s1.issued, accounts :=
                 s.accounts[u.status.username := WithDetails(Account(Actor(k, u), Auth(s.defaultPlugin, None), false, map[], {}), d)])
            && CreateStart(s, u, k, secret, env) == Some((s1, Tracking(u1, [])))
            && UserCreate(s, u, k, databases, secret, env) == g.(server := SaveUserRow(g.server, k, u, env.ok(SaveCreatedRow)))
  {
  }

  lemma CreateSentKept(s: Server, u: DatabaseUser, k: Key, databases: map<Key, Database>, secret: Option<Secret>, env: Env)
    requires UserInv(s, k, u) && DetailsFor(u, secret, true, env).Some? && env.ok(SendCreate)
    requires Literate(env.reader) && StartsClean(CreateStart(s, u, k, secret, env), k, databases, env)
    requires u.status.username != [] && u.status.username !in s.accounts
    ensures Kept(s, u, UserCreate(s, u, k, databases, secret, env), k)
  {
    CreateGoesThrough(s, u, k, databases, secret, env);
    CreatedOwned(s, u, k, DetailsFor(u, secret, true, env).value.0, env.ok(SendCreate));
    var (s1, u1) := CreateStart(s, u, k, secret, env).value;
    GrantedKept(s, s1, u, u1, k, databases, env);
  }

  lemma CreateUnsent(s: Server, u: DatabaseUser, k: Key, databases: map<Key, Database>, secret: Option<Secret>, env: Env)
    requires DetailsFor(u, secret, true, env).Some? && !env.ok(SendCreate)
    ensures var (d, u1) := DetailsFor(u, secret, true, env).value;
            var s1 := Send(s, k, u, CreateUser(u.status.username, d), env.ok(SendCreate)).0;
            SameUser(u, u1) && UserCreate(s, u, k, databases, secret, env) == Outcome(s1, u1, false)
  {
  }

  /** Creating a free claimed name: the account is ours and the row follows, whatever the row's name is. */
  lemma CreateKept(s: Server, u: DatabaseUser, k: Key, databases: map<Key, Database>, secret: Option<Secret>, env: Env)
    requires UserInv(s, k, u)
    requires Literate(env.reader) && StartsClean(CreateStart(s, u, k, secret, env), k, databases, env)
    requires u.status.username != [] && u.status.username !in s.accounts
    ensures Kept(s, u, UserCreate(s, u, k, databases, secret, env), k)
  {
    match DetailsFor(u, secret, true, env)
    case None =>
      UserFrameReflexive(s, Actor(k, u));
    case Some((d, u1)) =>
      if env.ok(SendCreate) {
        CreateSentKept(s, u, k, databases, secret, env);
      } else {
        CreateUnsent(s, u, k, databases, secret, env);
        CreatedOwned(s, u, k, d, env.ok(SendCreate));
        NotCreated(s, Send(s, k, u, CreateUser(u.status.username, d), env.ok(SendCreate)).0, u, u1, k);
      }
  }

  lemma NotCreated(s: Server, s1: Server, u: DatabaseUser, u1: DatabaseUser, k: Key)
    requires UserInv(s, k, u) && UserFrame(s, s1, Actor(k, u), false) && SameUser(u, u1)
    requires s1.accounts == s.accounts && s1.managedUsers == s.managedUsers
    ensures Kept(s, u, Outcome(s1, u1, false), k)
  {
  }

  /** Granting to the account just created and saving the row. */
  lemma GrantedKept(s: Server, s1: Server, u: DatabaseUser, u1: DatabaseUser, k: Key, databases: map<Key, Database>, env: Env)
    requires UserFrame(s, s1, Actor(k, u), false)
    requires Literate(env.reader) && !LoopStrays(s1, u1, k, databases, 0, env)
    requires u.spec.username != [] && u.status.username != [] && SameUser(u, u1)
    requires OwnsAccount(s1, u.status.username, Actor(k, u))
    requires u.uid in s1.managedUsers ==> s1.managedUsers[u.uid].owner == k && s1.managedUsers[u.uid].target != []
    ensures var g := GrantAll(s1, u1, k, databases, env);
            Kept(s, u, g.(server := SaveUserRow(g.server, k, u, env.ok(SaveCreatedRow))), k)
  {
    GrantAllTame(s1, u1, k, databases, env);
    var g := GrantAll(s1, u1, k, databases, env);
    UserFrameTransitive(s, s1, g.server, Actor(k, u));
    SaveKeepsFrame(s, g.server, u, k, env.ok(SaveCreatedRow));
  }

  lemma CreatedOwned(s: Server, u: DatabaseUser, k: Key, d: Details, reached: bool)
    requires u.status.username !in s.accounts
    ensures var (s1, sent) := Send(s, k, u, CreateUser(u.status.username, d), reached);
            && UserFrame(s, s1, Actor(k, u), false) && s1.managedUsers == s.managedUsers
            && (sent ==> OwnsAccount(s1, u.status.username, Actor(k, u)))
            && (!sent ==> s1.accounts == s.accounts)
  {
    SendFrame(s, Actor(k, u), OnAccount(CreateUser(u.status.username, d)), reached, false);
  }

  lemma SaveKeepsFrame(s: Server, s1: Server, u: DatabaseUser, k: Key, saved: bool)
    requires UserFrame(s, s1, Actor(k, u), false)
    ensures UserFrame(s, SaveUserRow(s1, k, u, saved), Actor(k, u), false)
  {
  }

  /**
   * RENAME never finds its target taken: only one of the two names exists, and it is the ledger's. The
   * row saved afterwards names the renamed account, whose creator is unchanged.
   */
  lemma RenameKept(s: Server, u: DatabaseUser, k: Key, env: Env)
    requires UserInv(s, k, u) && UserMine(s, k, u)
    requires AccountExists(s, u.status.username) && u.spec.username != u.status.username
    requires env.ok(SaveRenamedRow)
    ensures u.spec.username !in s.accounts
    ensures env.ok(SendRename) ==> Rename(s, u, k, env).ok
    ensures Kept(s, u, Rename(s, u, k, env), k)
    ensures env.ok(SendRename) ==>
              var o := Rename(s, u, k, env);
              && o.server.managedUsers[u.uid] == Row(k, u.spec.username)
              && u.status.username !in o.server.accounts
              && o.server.accounts[u.spec.username] == s.accounts[u.status.username]
  {
    BothNamed(u);
    MineNamesOneAccount(s, k, u);
    MineIsOwned(s, k, u, u.status.username);
    var stmt := RenameUser(u.status.username, u.spec.username);
    assert NamedAccounts(s, OnAccount(stmt)) == {Actor(k, u)};
    SendFrame(s, Actor(k, u), OnAccount(stmt), env.ok(SendRename), false);
    var (s1, sent) := Send(s, k, u, stmt, env.ok(SendRename));
    SaveKeepsFrame(s, s1, u, k, true);
  }

  lemma AlterTame(s: Server, u: DatabaseUser, u1: DatabaseUser, k: Key, d: Details, reached: bool)
    requires OwnsAccount(s, u.status.username, Actor(k, u)) && SameUser(u, u1)
    ensures var (s1, sent) := Send(s, k, u, AlterUser(u.status.username, d), reached);
            Tame(s, u, Outcome(s1, u1, sent), k)
  {
    SendFrame(s, Actor(k, u), OnAccount(AlterUser(u.status.username, d)), reached, false);
  }

  /** An update that renames nothing alters the account, or looks after the permissions, or breaks off. */
  lemma UpdateCases(s: Server, u: DatabaseUser, k: Key, databases: map<Key, Database>, secret: Option<Secret>, env: Env)
    requires u.spec.username == u.status.username
    ensures var o := UserUpdate(s, u, k, databases, secret, env);
            match DetailsFor(u, secret, false, env)
            case None => o == Outcome(s, u, false)
            case Some((d, u1)) =>
              && SameUser(u, u1)
              && if d != NO_DETAILS then
                   var (s1, sent) := Send(s, k, u, AlterUser(u.status.username, d), env.ok(SendAlter));
                   o == Outcome(s1, u1, sent)
                 else
                   o == UpdatePermissions(s, u1, k, databases, env)
                   && UpdateStart(s, u, k, secret, env) == PermissionStart(s, u1, k, env)
  {
  }

  lemma PermissionsTame(s: Server, u: DatabaseUser, u1: DatabaseUser, k: Key, databases: map<Key, Database>, env: Env)
    requires OwnsAccount(s, u.status.username, Actor(k, u)) && SameUser(u, u1)
    requires Literate(env.reader) && StartsClean(PermissionStart(s, u1, k, env), k, databases, env)
    ensures Tame(s, u, UpdatePermissions(s, u1, k, databases, env), k)
  {
    UpdatePermissionsTame(s, u1, k, databases, env);
  }

  /** Without a rename an update leaves owners and ledger as they are. */
  lemma UpdateTame(s: Server, u: DatabaseUser, k: Key, databases: map<Key, Database>, secret: Option<Secret>, env: Env)
    requires OwnsAccount(s, u.status.username, Actor(k, u)) && u.spec.username == u.status.username
    requires Literate(env.reader) && StartsClean(UpdateStart(s, u, k, secret, env), k, databases, env)
    ensures Tame(s, u, UserUpdate(s, u, k, databases, secret, env), k)
  {
    UpdateCases(s, u, k, databases, secret, env);
    match DetailsFor(u, secret, false, env)
    case None =>
      UserFrameReflexive(s, Actor(k, u));
    case Some((d, u1)) =>
      if d != NO_DETAILS {
        AlterTame(s, u, u1, k, d, env.ok(SendAlter));
      } else {
        PermissionsTame(s, u, u1, k, databases, env);
      }
  }

  lemma UpdateKept(s: Server, u: DatabaseUser, k: Key, databases: map<Key, Database>, secret: Option<Secret>, env: Env)
    requires UserInv(s, k, u) && UserMine(s, k, u)
    requires Literate(env.reader) && StartsClean(UpdateStart(s, u, k, secret, env), k, databases, env)
    requires AccountExists(s, u.status.username)
    requires u.spec.username != u.status.username ==> env.ok(SaveRenamedRow)
    ensures Kept(s, u, UserUpdate(s, u, k, databases, secret, env), k)
  {
    BothNamed(u);
    MineIsOwned(s, k, u, u.status.username);
    if u.spec.username != u.status.username {
      RenameKept(s, u, k, env);
    } else {
      UpdateTame(s, u, k, databases, secret, env);
      TameKept(s, u, UserUpdate(s, u, k, databases, secret, env), k);
    }
  }

  lemma ConvergeKept(s: Server, u: DatabaseUser, k: Key, databases: map<Key, Database>, secret: Option<Secret>, env: Env)
    requires UserInv(s, k, u) && LookupsOk(env)
    requires Literate(env.reader) && StartsClean(ConvergeStart(s, u, k, secret, env), k, databases, env)
    requires u.status.username != []
    requires AccountExists(s, u.status.username) && u.spec.username != u.status.username ==> env.ok(SaveRenamedRow)
    ensures Kept(s, u, Converge(s, u, k, databases, secret, env), k)
  {
    var u1 := Observed(s, u, env);
    ConvergeCases(s, u, k, databases, secret, env);
    UserFrameReflexive(s, Actor(k, u));
    if !Seen(s, u, env) {
      CreateKept(s, u1, k, databases, secret, env);
    } else if DecidesUser(s, k, u1, env, 2) {
      DecidesTruly(s, k, u1, env, 2);
      UpdateKept(s, u1, k, databases, secret, env);
    }
  }

  lemma ConvergeCases(s: Server, u: DatabaseUser, k: Key, databases: map<Key, Database>, secret: Option<Secret>, env: Env)
    ensures var u1 := Observed(s, u, env);
            && SameUser(u, u1)
            && Converge(s, u, k, databases, secret, env) ==
               (if !Seen(s, u, env) then UserCreate(s, u1, k, databases, secret, env)
                else if DecidesUser(s, k, u1, env, 2) then UserUpdate(s, u1, k, databases, secret, env)
                else Outcome(s, u1, true))
            && ConvergeStart(s, u, k, secret, env) ==
               (if !Seen(s, u, env) then CreateStart(s, u1, k, secret, env)
                else if DecidesUser(s, k, u1, env, 2) then UpdateStart(s, u1, k, secret, env)
                else None)
  {
  }

  /** The finalizer drops the object's own account, or sends the anonymous drop when no name was claimed. */
  lemma FinalizeKept(s: Server, u: DatabaseUser, k: Key, env: Env)
    requires UserInv(s, k, u) && UserMine(s, k, u) && env.ok(DeleteRow)
    ensures var s1 := FinalizeUser(s, u, k, env);
            UserFrame(s, s1, Actor(k, u), u.status.username == []) && UserInv(s1, k, u) && u.uid !in s1.managedUsers
  {
    if AccountExists(s, u.status.username) {
      BothNamed(u);
      MineIsOwned(s, k, u, u.status.username);
    }
    SendFrame(s, Actor(k, u), OnAccount(DropUser(u.status.username)), env.ok(SendDrop), u.status.username == []);
  }

  // ---------------------------------------------------------------- only the status changes in memory

  predicate OnlyStatus(u: DatabaseUser, u': DatabaseUser) {
    u' == u.(status := u'.status)
  }

  lemma PermissionsOnlyStatus(s: Server, u: DatabaseUser, k: Key, databases: map<Key, Database>, env: Env)
    ensures OnlyStatus(u, UpdatePermissions(s, u, k, databases, env).user)
  {
    var r := Cleared(s, u, k, env);
    UpdatePermissionsCases(s, u, k, databases, env);
    ClearedOnlyStatus(s, u, k, env);
    GrantAllOnlyStatus(r.server, r.user, k, databases, env);
  }

  lemma ClearedOnlyStatus(s: Server, u: DatabaseUser, k: Key, env: Env)
    ensures OnlyStatus(u, Cleared(s, u, k, env).user) && OnlyStatus(u, GrantStatusUpdate(s, u, false, 0, env).0)
  {
  }

  lemma UpdateOnlyStatus(s: Server, u: DatabaseUser, k: Key, databases: map<Key, Database>, secret: Option<Secret>, env: Env)
    ensures OnlyStatus(u, UserUpdate(s, u, k, databases, secret, env).user)
  {
    if u.spec.username == u.status.username {
      match DetailsFor(u, secret, false, env)
      case None =>
      case Some((d, u1)) => PermissionsOnlyStatus(s, u1, k, databases, env);
    }
  }

  lemma CreateOnlyStatus(s: Server, u: DatabaseUser, k: Key, databases: map<Key, Database>, secret: Option<Secret>, env: Env)
    ensures OnlyStatus(u, UserCreate(s, u, k, databases, secret, env).user)
  {
    match DetailsFor(u, secret, true, env)
    case None =>
    case Some((d, u1)) =>
      var s1 := Send(s, k, u, CreateUser(u.status.username, d), env.ok(SendCreate)).0;
      GrantAllOnlyStatus(s1, Tracking(u1, []), k, databases, env);
  }

  lemma GrantAllOnlyStatus(s: Server, u: DatabaseUser, k: Key, databases: map<Key, Database>, env: Env)
    ensures OnlyStatus(u, GrantAll(s, u, k, databases, env).user)
  {
  }

  lemma ConvergeOnlyStatus(s: Server, u: DatabaseUser, k: Key, databases: map<Key, Database>, secret: Option<Secret>, env: Env)
    ensures OnlyStatus(u, Converge(s, u, k, databases, secret, env).user)
  {
    UpdateOnlyStatus(s, Observed(s, u, env), k, databases, secret, env);
    CreateOnlyStatus(s, Observed(s, u, env), k, databases, secret, env);
  }
}
