/**
 * Accounts, ledger rows and DatabaseUser objects in one-to-one correspondence, over runs in which ledger
 * and status keep up with the accounts; and when a deletion leaves an account behind.
 */
module AccountCorrespondence {
  import opened Basics
  import opened SqlTexts
  import opened Model
  import opened Ownership
  import opened Safety
  import opened Runs
  import opened Scenarios
  import US = UserSafety
  import DP = DatabaseReconciler
  import UP = UserPasses

  // ---------------------------------------------------------------- one object

  /** The object has at most one named account, the one it claims, and exactly then a row, which names it. */
  ghost predicate OneAccount(s: Server, k: Key, u: DatabaseUser) {
    && (forall n :: OwnsAccount(s, n, UP.Actor(k, u)) && n != [] ==> n == u.status.username && u.uid in s.managedUsers)
    && (u.uid in s.managedUsers ==>
          && s.managedUsers[u.uid] == Row(k, u.status.username) && u.finalizer
          && OwnsAccount(s, u.status.username, UP.Actor(k, u)))
  }

  /** Steps that leave owners and rows alone keep it. */
  lemma SameOwnersKeep(s: Server, s': Server, k: Key, u: DatabaseUser, u': DatabaseUser)
    requires OneAccount(s, k, u) && US.SameOwners(s, s')
    requires u'.uid == u.uid && u'.status.username == u.status.username && (u.finalizer ==> u'.finalizer)
    ensures OneAccount(s', k, u')
  {
    forall n | OwnsAccount(s', n, UP.Actor(k, u')) && n != [] ensures n == u'.status.username && u'.uid in s'.managedUsers {
      assert n in s.accounts;
      assert OwnsAccount(s, n, UP.Actor(k, u));
    }
  }

  /** The CREATE made the claimed account, owners stayed since, and the row is saved. */
  lemma CreatedKeep(s: Server, s1: Server, s2: Server, k: Key, u: DatabaseUser)
    requires OneAccount(s, k, u) && u.finalizer && u.spec.username == u.status.username && u.status.username !in s.accounts
    requires s1.accounts.Keys == s.accounts.Keys + {u.status.username} && s1.managedUsers == s.managedUsers
    requires OwnsAccount(s1, u.status.username, UP.Actor(k, u))
    requires forall n :: n in s.accounts ==> s1.accounts[n].creator == s.accounts[n].creator
    requires US.SameOwners(s1, s2)
    ensures OneAccount(UP.SaveUserRow(s2, k, u, true), k, u)
  {
    var s3 := UP.SaveUserRow(s2, k, u, true);
    forall n | OwnsAccount(s3, n, UP.Actor(k, u)) && n != [] ensures n == u.status.username && u.uid in s3.managedUsers {
      assert n in s1.accounts;
      if n != u.status.username {
        assert OwnsAccount(s, n, UP.Actor(k, u));
      }
    }
  }

  lemma CreateOne(s: Server, u: DatabaseUser, k: Key, databases: map<Key, Database>, secret: Option<Secret>, env: Env)
    requires OneAccount(s, k, u) && u.finalizer && u.spec.username == u.status.username && u.status.username !in s.accounts
    requires Literate(env.reader) && US.StartsClean(UP.CreateStart(s, u, k, secret, env), k, databases, env) && env.ok(SaveCreatedRow)
    ensures var o := UP.UserCreate(s, u, k, databases, secret, env);
            OneAccount(o.server, k, u) && US.OnlyStatus(u, o.user) && o.user.status.username == u.status.username
  {
    US.CreateOnlyStatus(s, u, k, databases, secret, env);
    if UP.DetailsFor(u, secret, true, env).Some? {
      if env.ok(SendCreate) {
        CreateSentOne(s, u, k, databases, secret, env);
      } else {
        CreateFailed(s, u, k, databases, secret, env);
        SameOwnersKeep(s, UP.UserCreate(s, u, k, databases, secret, env).server, k, u, u);
      }
    }
  }

  lemma CreateFailed(s: Server, u: DatabaseUser, k: Key, databases: map<Key, Database>, secret: Option<Secret>, env: Env)
    requires UP.DetailsFor(u, secret, true, env).Some? && !env.ok(SendCreate)
    ensures var o := UP.UserCreate(s, u, k, databases, secret, env);
            US.SameOwners(s, o.server) && o.user.status.username == u.status.username
  {
  }

  lemma CreateSentOne(s: Server, u: DatabaseUser, k: Key, databases: map<Key, Database>, secret: Option<Secret>, env: Env)
    requires OneAccount(s, k, u) && u.finalizer && u.spec.username == u.status.username && u.status.username !in s.accounts
    requires UP.DetailsFor(u, secret, true, env).Some? && env.ok(SendCreate) && env.ok(SaveCreatedRow)
    requires Literate(env.reader) && US.StartsClean(UP.CreateStart(s, u, k, secret, env), k, databases, env)
    ensures var o := UP.UserCreate(s, u, k, databases, secret, env);
            OneAccount(o.server, k, u) && o.user.status.username == u.status.username
  {
    US.CreateGoesThrough(s, u, k, databases, secret, env);
    var (s1, u1) := UP.CreateStart(s, u, k, secret, env).value;
    US.GrantAllTame(s1, u1, k, databases, env);
    CreatedKeep(s, s1, UP.GrantAll(s1, u1, k, databases, env).server, k, u);
  }

  /** A rename takes account, row and claimed name along, or nothing. */
  lemma RenameOne(s: Server, u: DatabaseUser, k: Key, env: Env)
    requires OneAccount(s, k, u) && US.UserInv(s, k, u) && UserMine(s, k, u)
    requires AccountExists(s, u.status.username) && u.spec.username != u.status.username && env.ok(SaveRenamedRow)
    ensures var o := UP.Rename(s, u, k, env);
            && US.OnlyStatus(u, o.user)
            && (if o.ok then OneAccount(o.server, k, o.user) else OneAccount(o.server, k, u))
  {
    US.RenameKept(s, u, k, env);
    BothNamed(u);
    US.MineIsOwned(s, k, u, u.status.username);
    var o := UP.Rename(s, u, k, env);
    if o.ok {
      forall n | OwnsAccount(o.server, n, UP.Actor(k, u)) && n != [] ensures n == u.spec.username {
        if n != u.spec.username {
          assert OwnsAccount(s, n, UP.Actor(k, u));
        }
      }
    } else {
      SameOwnersKeep(s, o.server, k, u, u);
    }
  }

  // ---------------------------------------------------------------- the server part of a pass

  /** What the server part is asked for: names that agree when the account is made, and saved rows. */
  ghost predicate Sound(s: Server, u: DatabaseUser, k: Key, databases: map<Key, Database>, secret: Option<Secret>, env: Env) {
    && Literate(env.reader) && LookupsOk(env) && US.StartsClean(UP.ConvergeStart(s, u, k, secret, env), k, databases, env)
    && env.ok(SaveCreatedRow) && (Renaming(s, u) ==> env.ok(SaveRenamedRow))
    && (u.status.username !in s.accounts ==> u.spec.username == u.status.username)
  }

  ghost predicate Renaming(s: Server, u: DatabaseUser) {
    AccountExists(s, u.status.username) && u.spec.username != u.status.username
  }

  lemma UpdateOne(s: Server, u: DatabaseUser, k: Key, databases: map<Key, Database>, secret: Option<Secret>, env: Env)
    requires OneAccount(s, k, u) && US.UserInv(s, k, u) && UserMine(s, k, u) && AccountExists(s, u.status.username)
    requires Literate(env.reader) && US.StartsClean(UP.UpdateStart(s, u, k, secret, env), k, databases, env)
    requires u.spec.username != u.status.username ==> env.ok(SaveRenamedRow)
    ensures var o := UP.UserUpdate(s, u, k, databases, secret, env);
            && US.OnlyStatus(u, o.user)
            && (if u.spec.username != u.status.username && o.ok then OneAccount(o.server, k, o.user)
                else OneAccount(o.server, k, u) && (u.spec.username == u.status.username ==> o.user.status.username == u.status.username))
  {
    US.UpdateOnlyStatus(s, u, k, databases, secret, env);
    if u.spec.username != u.status.username {
      RenameOne(s, u, k, env);
    } else {
      BothNamed(u);
      US.MineIsOwned(s, k, u, u.status.username);
      US.UpdateTame(s, u, k, databases, secret, env);
      SameOwnersKeep(s, UP.UserUpdate(s, u, k, databases, secret, env).server, k, u, u);
    }
  }

  lemma ObservedOne(s: Server, k: Key, u: DatabaseUser, env: Env)
    ensures var u1 := UP.Observed(s, u, env);
            && US.SameUser(u, u1) && Names(u1) == Names(u) && (UserMine(s, k, u1) <==> UserMine(s, k, u))
  {
  }

  lemma ConvergeOne(s: Server, u: DatabaseUser, k: Key, databases: map<Key, Database>, secret: Option<Secret>, env: Env)
    requires OneAccount(s, k, u) && US.UserInv(s, k, u) && u.finalizer && u.status.username != []
    requires Sound(s, u, k, databases, secret, env)
    ensures var o := UP.Converge(s, u, k, databases, secret, env);
            && US.OnlyStatus(u, o.user) && (o.ok ==> OneAccount(o.server, k, o.user))
            && (!Renaming(s, u) || !o.ok ==> OneAccount(o.server, k, u))
  {
    var u1 := UP.Observed(s, u, env);
    ObservedOne(s, k, u, env);
    SameOwnersKeep(s, s, k, u, u1);
    US.ConvergeOnlyStatus(s, u, k, databases, secret, env);
    if !UP.Seen(s, u, env) {
      CreateOne(s, u1, k, databases, secret, env);
    } else if DecidesUser(s, k, u1, env, 2) {
      DecidesTruly(s, k, u1, env, 2);
      UpdateOne(s, u1, k, databases, secret, env);
    }
  }

  // ---------------------------------------------------------------- the correspondence

  /** The live DatabaseUser object behind a ledger row: finalizer set, same identity, claiming the row's name. */
  ghost predicate Held(w: World, uid: Uid, row: Row) {
    && row.owner in w.users && w.users[row.owner].uid == uid && w.users[row.owner].finalizer
    && w.users[row.owner].status.username == row.target
  }

  ghost predicate AccountsCorrespond(w: World) {
    && (forall n :: n in w.server.accounts && n != [] && w.server.accounts[n].creator.Cr? ==>
          var c := w.server.accounts[n].creator;
          && c.uid in w.server.managedUsers && w.server.managedUsers[c.uid].target == n
          && w.server.managedUsers[c.uid].owner.namespace == c.namespace)
    && (forall uid :: uid in w.server.managedUsers ==>
          var row := w.server.managedUsers[uid];
          OwnsAccount(w.server, row.target, Cr(uid, row.owner.namespace)) && Held(w, uid, row))
  }

  lemma HasOne(w: World, k: Key)
    requires Inv(w) && AccountsCorrespond(w) && k in w.users
    ensures OneAccount(w.server, k, w.users[k])
  {
    var u := w.users[k];
    assert u.uid in w.server.managedUsers ==> Held(w, u.uid, w.server.managedUsers[u.uid]);
  }

  /** What is left to show for the object of the pass itself. */
  lemma OwnPassCorresponds(w: World, w': World, k: Key, anonymous: bool)
    requires Inv(w) && AccountsCorrespond(w) && k in w.users && OwnUserStep(w, w', k, anonymous)
    requires if k in w'.users then OneAccount(w'.server, k, w'.users[k])
             else OneAccount(w'.server, k, w.users[k]) && w.users[k].uid !in w'.server.managedUsers
    ensures AccountsCorrespond(w')
  {
    var u, s, s' := w.users[k], w.server, w'.server;
    var a := UP.Actor(k, u);
    HasOne(w, k);
    forall uid | uid in s'.managedUsers
      ensures var row := s'.managedUsers[uid]; OwnsAccount(s', row.target, Cr(uid, row.owner.namespace)) && Held(w', uid, row)
    {
      if uid != u.uid {
        var row := s.managedUsers[uid];
        assert Held(w, uid, row) && OwnsAccount(s, row.target, Cr(uid, row.owner.namespace));
        assert row.owner != k;
        assert US.UserInv(s, row.owner, w.users[row.owner]);
      }
    }
    forall n | n in s'.accounts && n != [] && s'.accounts[n].creator.Cr?
      ensures var c := s'.accounts[n].creator;
              && c.uid in s'.managedUsers && s'.managedUsers[c.uid].target == n
              && s'.managedUsers[c.uid].owner.namespace == c.namespace
    {
      var c := s'.accounts[n].creator;
      if c == a {
        var u' := if k in w'.users then w'.users[k] else u;
        assert OwnsAccount(s', n, UP.Actor(k, u'));
      } else {
        assert n in s.accounts && s.accounts[n].creator == c;
        assert Held(w, c.uid, s.managedUsers[c.uid]);
        assert c.uid != u.uid;
      }
    }
  }

  // ---------------------------------------------------------------- one pass

  /**
   * What keeps accounts, rows and claims together: rows are found and saved and drops carried out, the
   * status follows a rename, and an account is made only while claimed and specified name agree.
   */
  ghost predicate Steady(w: World, step: Step) {
    && Benign(w, step) && !Misplaced(w, step)
    && (step.ReconcileUser? && step.key in w.users ==>
          var u, env := w.users[step.key], step.env;
          && env.ok(SaveCreatedRow) && env.ok(SendDrop) && (RenameDue(w, step.key) ==> env.ok(UpdateStatus))
          && (forall i :: env.ok(LookupAccountRow(0, i)))
          && (!u.deleting && u.status.username != [] && u.status.username !in w.server.accounts ==> u.spec.username == u.status.username))
  }

  ghost predicate SteadyRun(w: World, steps: seq<Step>)
    decreases |steps|
  {
    steps == [] || (Steady(w, steps[0]) && SteadyRun(Next(w, steps[0]), steps[1..]))
  }

  /** The specification was edited to another name that exists. */
  predicate EditedToTaken(s: Server, u: DatabaseUser) {
    u.spec.username != u.status.username && AccountExists(s, u.spec.username)
  }

  /** The pass ends the deletion of an object that has an account, while its specification names another one that exists. */
  predicate Leaves(w: World, step: Step) {
    && step.ReconcileUser? && step.key in w.users
    && var u, env := w.users[step.key], step.env;
       && u.deleting && u.finalizer && env.connect && env.ok(UpdateFinalizer)
       && u.uid in w.server.managedUsers && EditedToTaken(w.server, u)
  }

  predicate NeverLeaves(w: World, steps: seq<Step>)
    decreases |steps|
  {
    steps == [] || (!Leaves(w, steps[0]) && NeverLeaves(Next(w, steps[0]), steps[1..]))
  }

  /** An object with a row is its own exactly when its specification was not edited to a taken name. */
  lemma OwnUnlessEdited(s: Server, k: Key, u: DatabaseUser, env: Env)
    requires OneAccount(s, k, u) && US.UserInv(s, k, u) && u.uid in s.managedUsers
    requires LookupsOk(env) && forall i :: env.ok(LookupAccountRow(0, i))
    ensures DecidesUser(s, k, u, env, 0) <==> !EditedToTaken(s, u)
  {
    DecidesTruly(s, k, u, env, 0);
    BothNamed(u);
  }

  lemma DroppedOne(s: Server, k: Key, u: DatabaseUser, env: Env)
    requires OneAccount(s, k, u) && env.ok(SendDrop) && env.ok(DeleteRow)
    ensures OneAccount(UP.FinalizeUser(s, u, k, env), k, u) && u.uid !in UP.FinalizeUser(s, u, k, env).managedUsers
  {
    var s1 := UP.FinalizeUser(s, u, k, env);
    forall n | OwnsAccount(s1, n, UP.Actor(k, u)) && n != [] ensures false {
      assert OwnsAccount(s, n, UP.Actor(k, u));
    }
  }

  lemma DeletionCorresponds(w: World, k: Key, env: Env)
    requires Inv(w) && AccountsCorrespond(w) && k in w.users && w.users[k].deleting && Steady(w, ReconcileUser(k, env))
    requires !Leaves(w, ReconcileUser(k, env))
    ensures AccountsCorrespond(UP.UserPass(w, k, env))
  {
    var u := w.users[k];
    HasOne(w, k);
    UserPassOwn(w, k, env);
    if u.finalizer && env.connect {
      DropUserPass(w, k, env);
      if u.uid in w.server.managedUsers {
        OwnUnlessEdited(w.server, k, u, env);
      }
      if DecidesUser(w.server, k, u, env, 0) {
        DroppedOne(w.server, k, u, env);
      }
      OwnPassCorresponds(w, UP.UserPass(w, k, env), k, AnonymousDue(w, k, env));
    }
  }

  /** A row whose object is gone, for an identity that is never given again. */
  ghost predicate Orphaned(w: World, uid: Uid) {
    && uid in w.server.managedUsers && uid in w.uids
    && (forall x :: x in w.users ==> w.users[x].uid != uid)
  }

  lemma OrphanBreaks(w: World, uid: Uid)
    requires Orphaned(w, uid)
    ensures !AccountsCorrespond(w)
  {
    assert !Held(w, uid, w.server.managedUsers[uid]);
  }

  lemma LeavesOrphan(w: World, step: Step)
    requires Inv(w) && AccountsCorrespond(w) && Steady(w, step) && Leaves(w, step)
    ensures Orphaned(Next(w, step), w.users[step.key].uid)
  {
    var k, u, env := step.key, w.users[step.key], step.env;
    HasOne(w, k);
    OwnUnlessEdited(w.server, k, u, env);
    DropUserPass(w, k, env);
  }

  lemma OrphanStays(w: World, step: Step, uid: Uid)
    requires Inv(w) && Steady(w, step) && Orphaned(w, uid)
    ensures Orphaned(Next(w, step), uid)
  {
    if step.ReconcileUser? {
      if step.key in w.users {
        UserPassOwn(w, step.key, step.env);
      }
    } else if step.ReconcileDatabase? {
      if step.key in w.databases {
        DatabasePassOwn(w, step.key, step.env);
      }
    } else if IsOutside(step) {
      OutsideKeepsOwners(w, step);
    } else {
      OrphanObjectStep(w, step, uid);
    }
  }

  lemma OrphanObjectStep(w: World, step: Step, uid: Uid)
    requires Orphaned(w, uid)
    ensures Orphaned(ObjectStep(w, step), uid)
  {
  }

  lemma {:induction false} OrphanForever(w: World, steps: seq<Step>, uid: Uid)
    requires Inv(w) && SteadyRun(w, steps) && Orphaned(w, uid)
    ensures Orphaned(Run(w, steps), uid)
    decreases |steps|
  {
    if steps != [] {
      OrphanStays(w, steps[0], uid);
      NextInv(w, steps[0]);
      OrphanForever(Next(w, steps[0]), steps[1..], uid);
    }
  }

  lemma LiveCorresponds(w: World, k: Key, env: Env)
    requires Inv(w) && AccountsCorrespond(w) && k in w.users && !w.users[k].deleting && Steady(w, ReconcileUser(k, env))
    ensures AccountsCorrespond(UP.UserPass(w, k, env))
  {
    var u := w.users[k];
    HasOne(w, k);
    LiveCases(w, k, env);
    UserPassOwn(w, k, env);
    assert US.UserInv(w.server, k, u);
    if UP.ServerDue(w, k, env) {
      ConvergeOne(w.server, u, k, w.databases, UP.SecretOf(UP.WithSecret(w, k, u, env).value, k, u), env);
    }
    OwnPassCorresponds(w, UP.UserPass(w, k, env), k, AnonymousDue(w, k, env));
  }

  // ---------------------------------------------------------------- every step

  /** The same accounts of ours and rows, and the objects behind them. */
  ghost predicate Undisturbed(w: World, w': World) {
    && w'.server.managedUsers == w.server.managedUsers
    && (forall n :: n in w.server.accounts && w.server.accounts[n].creator.Cr? ==>
          n in w'.server.accounts && w'.server.accounts[n].creator == w.server.accounts[n].creator)
    && (forall n :: n in w'.server.accounts && w'.server.accounts[n].creator.Cr? ==>
          n in w.server.accounts && w'.server.accounts[n].creator == w.server.accounts[n].creator)
    && (forall k :: k in w.users && w.users[k].finalizer ==>
          && k in w'.users && w'.users[k].finalizer && w'.users[k].uid == w.users[k].uid
          && w'.users[k].status.username == w.users[k].status.username)
  }

  lemma UndisturbedCorresponds(w: World, w': World)
    requires AccountsCorrespond(w) && Undisturbed(w, w')
    ensures AccountsCorrespond(w')
  {
    forall uid | uid in w.server.managedUsers
      ensures var row := w.server.managedUsers[uid];
              OwnsAccount(w'.server, row.target, Cr(uid, row.owner.namespace)) && Held(w', uid, row)
    {
      assert Held(w, uid, w.server.managedUsers[uid]);
    }
  }

  lemma ObjectStepUndisturbed(w: World, step: Step)
    ensures Undisturbed(w, ObjectStep(w, step))
  {
  }

  lemma OutsideStepUndisturbed(w: World, step: Step)
    requires BenignOutside(w, step)
    ensures Undisturbed(w, OutsideStep(w, step))
  {
  }

  lemma NextAccountsCorrespond(w: World, step: Step)
    requires Inv(w) && AccountsCorrespond(w) && Steady(w, step) && !Leaves(w, step)
    ensures Inv(Next(w, step)) && AccountsCorrespond(Next(w, step))
  {
    NextInv(w, step);
    if step.ReconcileUser? {
      if step.key in w.users {
        if w.users[step.key].deleting {
          DeletionCorresponds(w, step.key, step.env);
        } else {
          LiveCorresponds(w, step.key, step.env);
        }
      }
    } else if step.ReconcileDatabase? {
      if step.key in w.databases {
        DatabasePassOwn(w, step.key, step.env);
        UndisturbedCorresponds(w, DP.DatabasePass(w, step.key, step.env));
      }
    } else if IsOutside(step) {
      OutsideStepUndisturbed(w, step);
      UndisturbedCorresponds(w, OutsideStep(w, step));
    } else {
      ObjectStepUndisturbed(w, step);
      UndisturbedCorresponds(w, ObjectStep(w, step));
    }
  }

  /** Accounts, rows and objects correspond after the run exactly when no deletion left an account on the way. */
  lemma {:induction false} RunAccountsCorrespond(w: World, steps: seq<Step>)
    requires Inv(w) && AccountsCorrespond(w) && SteadyRun(w, steps)
    ensures AccountsCorrespond(Run(w, steps)) <==> NeverLeaves(w, steps)
    decreases |steps|
  {
    if steps != [] {
      var w1 := Next(w, steps[0]);
      NextInv(w, steps[0]);
      if Leaves(w, steps[0]) {
        var uid := w.users[steps[0].key].uid;
        LeavesOrphan(w, steps[0]);
        OrphanForever(w1, steps[1..], uid);
        OrphanBreaks(Run(w1, steps[1..]), uid);
      } else {
        NextAccountsCorrespond(w, steps[0]);
        RunAccountsCorrespond(w1, steps[1..]);
      }
    }
  }

  /**
   * No leak, exactly: after a steady run each named account made for a custom resource has its row, and
   * each row its account and a DatabaseUser object with finalizer and identity that claims the name, if
   * and only if no deletion ended while its specification named another account that existed. Then an
   * identity no object carries any more has neither account nor row.
   */
  lemma NoAccountLeak(w: World, steps: seq<Step>)
    requires Initial(w) && SteadyRun(w, steps)
    ensures AccountsCorrespond(Run(w, steps)) <==> NeverLeaves(w, steps)
    ensures NeverLeaves(w, steps) ==> forall uid, namespace, n ::
              (forall k :: k in Run(w, steps).users ==> Run(w, steps).users[k].uid != uid) && n != [] ==>
                uid !in Run(w, steps).server.managedUsers && !OwnsAccount(Run(w, steps).server, n, Cr(uid, namespace))
  {
    InitialInv(w);
    RunAccountsCorrespond(w, steps);
    var r := Run(w, steps);
    if NeverLeaves(w, steps) {
      forall uid, namespace, n | (forall k :: k in r.users ==> r.users[k].uid != uid) && n != []
        ensures uid !in r.server.managedUsers && !OwnsAccount(r.server, n, Cr(uid, namespace))
      {
        assert uid in r.server.managedUsers ==> Held(r, uid, r.server.managedUsers[uid]);
      }
    }
  }

  /**
   * When a deletion leaves the account behind: exactly when the specification was edited to another name
   * that exists, since the object is then not its own.
   */
  lemma DeletionLeaksExactly(w: World, k: Key, env: Env)
    requires Inv(w) && AccountsCorrespond(w) && k in w.users && w.users[k].uid in w.server.managedUsers
    requires var u := w.users[k]; u.deleting && u.finalizer && env.connect
    requires env.ok(SendDrop) && env.ok(UpdateFinalizer) && LookupsOk(env) && forall i :: env.ok(LookupAccountRow(0, i))
    ensures var u := w.users[k];
            var w' := UP.UserPass(w, k, env);
            && k !in w'.users
            && (OwnsAccount(w'.server, u.status.username, UP.Actor(k, u)) <==> EditedToTaken(w.server, u))
  {
    HasOne(w, k);
    OwnUnlessEdited(w.server, k, w.users[k], env);
    DropUserPass(w, k, env);
  }
}
