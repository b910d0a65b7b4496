/**
 * A rename whose status write is lost: the next pass makes a second account under the old name, and the
 * object keeps both for good, out of its own and everybody's reach.
 */
module LostStatus {
  import opened Basics
  import opened Model
  import opened Ownership
  import opened Safety
  import opened Runs
  import opened Recovery
  import US = UserSafety
  import DS = DatabaseSafety
  import DP = DatabaseReconciler
  import UP = UserPasses

  // ---------------------------------------------------------------- stranded accounts

  /**
   * Two accounts were made for this identity, the row names one and the object, as long as it is there,
   * claims the other.
   */
  ghost predicate Stranded(w: World, k: Key, uid: Uid, claimed: Bytes, recorded: Bytes) {
    && claimed != recorded && claimed != [] && recorded != [] && uid in w.uids
    && OwnsAccount(w.server, claimed, Cr(uid, k.namespace)) && OwnsAccount(w.server, recorded, Cr(uid, k.namespace))
    && RowIs(w.server.managedUsers, uid, k, recorded)
    && (forall x :: x in w.users && w.users[x].uid == uid ==> x == k && w.users[x].status.username == claimed)
    && (forall x :: x in w.databases ==> w.databases[x].uid != uid)
  }

  /** No statement of this object was added. */
  ghost predicate SilentSince(s: Server, s': Server, a: Creator) {
    Appends(s, s') && forall i :: |s.issued| <= i < |s'.issued| ==> s'.issued[i].actor != a
  }

  /** Whatever the specification says, the decision is negative, since the claimed account exists. */
  lemma NeverMine(s: Server, k: Key, u: DatabaseUser, recorded: Bytes, env: Env, round: nat)
    requires LookupsOk(env) && u.status.username in s.accounts && u.status.username != []
    requires RowIs(s.managedUsers, u.uid, k, recorded) && u.status.username != recorded
    ensures !DecidesUser(s, k, u, env, round) && UP.Seen(s, u, env)
  {
    BothNamed(u);
    DecidesTruly(s, k, u, env, round);
  }

  lemma OwnPassSilent(w: World, k: Key, uid: Uid, claimed: Bytes, recorded: Bytes, env: Env)
    requires Stranded(w, k, uid, claimed, recorded) && k in w.users && w.users[k].uid == uid && LookupsOk(env)
    ensures UP.UserPass(w, k, env).server == w.server
    ensures Stranded(UP.UserPass(w, k, env), k, uid, claimed, recorded)
  {
    var u := w.users[k];
    NeverMine(w.server, k, u, recorded, env, 0);
    NeverMine(w.server, k, UP.Observed(w.server, u, env), recorded, env, 2);
    UserPassCases(w, k, env);
    OwnPassServer(w, k, env);
  }

  /** A pass that decides against itself leaves the server and the claimed name alone. */
  lemma OwnPassServer(w: World, k: Key, env: Env)
    requires k in w.users && w.users[k].status.username != [] && UP.Seen(w.server, w.users[k], env)
    requires !DecidesUser(w.server, k, w.users[k], env, 0)
    requires !DecidesUser(w.server, k, UP.Observed(w.server, w.users[k], env), env, 2)
    ensures var w' := UP.UserPass(w, k, env);
            && w'.server == w.server && w'.uids == w.uids
            && (k in w'.users ==> w'.users[k].status.username == w.users[k].status.username && w'.users[k].uid == w.users[k].uid)
  {
    if !w.users[k].deleting {
      forall secret ensures UP.Converge(w.server, w.users[k], k, w.databases, secret, env)
                            == UP.Outcome(w.server, UP.Observed(w.server, w.users[k], env), true) {
        LeftAlone(w.server, w.users[k], k, w.databases, secret, env);
      }
      LivePassLeaves(w, k, env);
    }
  }

  lemma LeftAlone(s: Server, u: DatabaseUser, k: Key, databases: map<Key, Database>, secret: Option<Secret>, env: Env)
    requires UP.Seen(s, u, env) && !DecidesUser(s, k, UP.Observed(s, u, env), env, 2)
    ensures UP.Converge(s, u, k, databases, secret, env) == UP.Outcome(s, UP.Observed(s, u, env), true)
  {
  }

  lemma LivePassLeaves(w: World, k: Key, env: Env)
    requires k in w.users && w.users[k].status.username != [] && !w.users[k].deleting
    requires forall secret :: UP.Converge(w.server, w.users[k], k, w.databases, secret, env)
                              == UP.Outcome(w.server, UP.Observed(w.server, w.users[k], env), true)
    ensures var w' := UP.UserPass(w, k, env);
            && w'.server == w.server && w'.uids == w.uids
            && (k in w'.users ==> w'.users[k].status.username == w.users[k].status.username && w'.users[k].uid == w.users[k].uid)
  {
    LiveCases(w, k, env);
  }

  lemma FrameKeepsStranded(w: World, w': World, k: Key, uid: Uid, claimed: Bytes, recorded: Bytes, a: Creator)
    requires Stranded(w, k, uid, claimed, recorded) && a.Cr? && a.uid != uid
    requires UserFrame(w.server, w'.server, a, true)
    requires w.uids <= w'.uids && w'.databases == w.databases
    requires forall x :: x in w'.users && w'.users[x].uid == uid ==> x in w.users && w'.users[x] == w.users[x]
    ensures Stranded(w', k, uid, claimed, recorded) && SilentSince(w.server, w'.server, Cr(uid, k.namespace))
  {
  }

  lemma LogsAny(s: Server, s': Server, a: Creator, anonymous: bool)
    requires UserFrame(s, s', a, anonymous)
    ensures UserFrame(s, s', a, true)
  {
  }

  lemma OtherUserPassKeeps(w: World, x: Key, env: Env, k: Key, uid: Uid, claimed: Bytes, recorded: Bytes)
    requires Inv(w) && Benign(w, ReconcileUser(x, env)) && !Misplaced(w, ReconcileUser(x, env))
    requires Stranded(w, k, uid, claimed, recorded) && x in w.users && w.users[x].uid != uid
    ensures Stranded(UP.UserPass(w, x, env), k, uid, claimed, recorded)
    ensures SilentSince(w.server, UP.UserPass(w, x, env).server, Cr(uid, k.namespace))
  {
    UserPassOwn(w, x, env);
    var a := UP.Actor(x, w.users[x]);
    LogsAny(w.server, UP.UserPass(w, x, env).server, a, AnonymousDue(w, x, env));
    FrameKeepsStranded(w, UP.UserPass(w, x, env), k, uid, claimed, recorded, a);
  }

  /** Accounts, their ledger and their objects are none of a database pass's business. */
  lemma DatabasePassKeeps(w: World, x: Key, env: Env, k: Key, uid: Uid, claimed: Bytes, recorded: Bytes)
    requires Inv(w) && Benign(w, ReconcileDatabase(x, env)) && !Misplaced(w, ReconcileDatabase(x, env))
    requires Stranded(w, k, uid, claimed, recorded) && x in w.databases
    ensures Stranded(DP.DatabasePass(w, x, env), k, uid, claimed, recorded)
    ensures SilentSince(w.server, DP.DatabasePass(w, x, env).server, Cr(uid, k.namespace))
  {
    assert DS.DatabaseInv(w.server, x, w.databases[x]);
    DatabasePassOwn(w, x, env);
    OwnDatabaseStepKeeps(w, DP.DatabasePass(w, x, env), x, k, uid, claimed, recorded);
  }

  lemma OwnDatabaseStepKeeps(w: World, w': World, x: Key, k: Key, uid: Uid, claimed: Bytes, recorded: Bytes)
    requires Stranded(w, k, uid, claimed, recorded) && x in w.databases && OwnDatabaseStep(w, w', x)
    ensures Stranded(w', k, uid, claimed, recorded) && SilentSince(w.server, w'.server, Cr(uid, k.namespace))
  {
  }

  lemma ObjectStepKeeps(w: World, step: Step, k: Key, uid: Uid, claimed: Bytes, recorded: Bytes)
    requires Stranded(w, k, uid, claimed, recorded)
    ensures Stranded(ObjectStep(w, step), k, uid, claimed, recorded) && ObjectStep(w, step).server == w.server
  {
  }

  lemma OutsideStepKeeps(w: World, step: Step, k: Key, uid: Uid, claimed: Bytes, recorded: Bytes)
    requires Stranded(w, k, uid, claimed, recorded) && IsOutside(step) && BenignOutside(w, step)
    ensures Stranded(OutsideStep(w, step), k, uid, claimed, recorded) && OutsideStep(w, step).server.issued == w.server.issued
  {
    OutsideKeepsOwners(w, step);
  }

  lemma StrandedNext(w: World, step: Step, k: Key, uid: Uid, claimed: Bytes, recorded: Bytes)
    requires Inv(w) && Benign(w, step) && !Misplaced(w, step) && Stranded(w, k, uid, claimed, recorded)
    ensures Stranded(Next(w, step), k, uid, claimed, recorded)
    ensures SilentSince(w.server, Next(w, step).server, Cr(uid, k.namespace))
  {
    if step.ReconcileUser? {
      if step.key in w.users {
        if w.users[step.key].uid == uid {
          OwnPassSilent(w, k, uid, claimed, recorded, step.env);
        } else {
          OtherUserPassKeeps(w, step.key, step.env, k, uid, claimed, recorded);
        }
      }
    } else if step.ReconcileDatabase? {
      if step.key in w.databases {
        DatabasePassKeeps(w, step.key, step.env, k, uid, claimed, recorded);
      }
    } else if IsOutside(step) {
      OutsideStepKeeps(w, step, k, uid, claimed, recorded);
    } else {
      ObjectStepKeeps(w, step, k, uid, claimed, recorded);
    }
  }

  lemma SilentTransitive(s: Server, s1: Server, s2: Server, a: Creator)
    requires SilentSince(s, s1, a) && SilentSince(s1, s2, a)
    ensures SilentSince(s, s2, a)
  {
    AppendsTransitive(s, s1, s2);
    forall i | |s.issued| <= i < |s2.issued| ensures s2.issued[i].actor != a {
      if i < |s1.issued| {
        assert s2.issued[i] == s2.issued[..|s1.issued|][i];
      }
    }
  }

  /**
   * Stranded for good: however the run goes on, with the object edited or deleted, both accounts stay and
   * the object sends no statement any more.
   */
  lemma {:induction false} StrandedForever(w: World, steps: seq<Step>, k: Key, uid: Uid, claimed: Bytes, recorded: Bytes)
    requires Inv(w) && BenignRun(w, steps) && NeverMisplaced(w, steps) && Stranded(w, k, uid, claimed, recorded)
    ensures Stranded(Run(w, steps), k, uid, claimed, recorded)
    ensures SilentSince(w.server, Run(w, steps).server, Cr(uid, k.namespace))
    decreases |steps|
  {
    if steps != [] {
      var w1 := Next(w, steps[0]);
      StrandedNext(w, steps[0], k, uid, claimed, recorded);
      NextInv(w, steps[0]);
      StrandedForever(w1, steps[1..], k, uid, claimed, recorded);
      SilentTransitive(w.server, w1.server, Run(w, steps).server, Cr(uid, k.namespace));
    }
  }

  // ---------------------------------------------------------------- the rename and the pass after it

  /** A pass that renames: the object is its own, and every call but the status write goes through. */
  ghost predicate Renames(w: World, k: Key, env: Env) {
    && ReachesServer(w, k, env) && RenameDue(w, k) && UserMine(w.server, k, w.users[k])
    && Benign(w, ReconcileUser(k, env)) && (forall round, i :: env.ok(LookupAccountRow(round, i)))
    && env.ok(SendRename) && env.ok(SaveRenamedRow)
  }

  lemma SeenAsMine(s: Server, k: Key, u: DatabaseUser, env: Env)
    requires LookupsOk(env) && (forall round, i :: env.ok(LookupAccountRow(round, i)))
    requires AccountExists(s, u.status.username) && UserMine(s, k, u)
    ensures UP.Seen(s, u, env) && DecidesUser(s, k, UP.Observed(s, u, env), env, 2)
    ensures US.OnlyStatus(u, UP.Observed(s, u, env)) && UP.Observed(s, u, env).status.username == u.status.username
  {
    var u1 := UP.Observed(s, u, env);
    assert Names(u1) == Names(u);
    DecidesTruly(s, k, u1, env, 2);
  }

  /** Such a pass does nothing else, and starts no grant loop. */
  lemma OnlyRenames(w: World, k: Key, env: Env)
    requires Inv(w) && Renames(w, k, env)
    ensures var u, u1 := w.users[k], UP.Observed(w.server, w.users[k], env);
            var o := UP.Rename(w.server, u1, k, env);
            && US.UserInv(w.server, k, u1) && DecidesUser(w.server, k, u1, env, 2)
            && US.OnlyStatus(u, u1) && u1.status.username == u.status.username
            && AccountExists(w.server, u.status.username) && u.spec.username != u.status.username
            && LookupsOk(env) && env.ok(SendRename) && env.ok(SaveRenamedRow)
            && UP.UserPass(w, k, env) ==
               (if o.ok && env.ok(UpdateStatus) then UP.StoreUser(w.(server := o.server), k, o.user) else w.(server := o.server))
            && !Misplaced(w, ReconcileUser(k, env))
  {
    assert US.UserInv(w.server, k, w.users[k]);
    SeenAsMine(w.server, k, w.users[k], env);
    PassUpdates(w, k, env);
  }

  lemma RenamePass(w: World, k: Key, env: Env)
    requires Inv(w) && Renames(w, k, env)
    ensures !Misplaced(w, ReconcileUser(k, env))
    ensures var u := w.users[k];
            var w1 := UP.UserPass(w, k, env);
            && w1.secrets == w.secrets && w1.databases == w.databases && w1.uids == w.uids
            && k in w1.users && US.OnlyStatus(u, w1.users[k]) && w1.users == w.users[k := w1.users[k]]
            && w1.users[k].status.username == (if env.ok(UpdateStatus) then u.spec.username else u.status.username)
            && (!env.ok(UpdateStatus) ==> w1.users[k] == u)
            && OwnsAccount(w1.server, u.spec.username, UP.Actor(k, u)) && u.status.username !in w1.server.accounts
            && RowIs(w1.server.managedUsers, u.uid, k, u.spec.username)
  {
    OnlyRenames(w, k, env);
    RenameOutcome(w.server, k, UP.Observed(w.server, w.users[k], env), env);
    RenameStored(w, k, UP.Observed(w.server, w.users[k], env), UP.Rename(w.server, UP.Observed(w.server, w.users[k], env), k, env), env);
  }

  lemma RenameStored(w: World, k: Key, u1: DatabaseUser, o: UP.Outcome, env: Env)
    requires k in w.users && US.OnlyStatus(w.users[k], u1) && o.ok && o.user == u1.(status := u1.status.(username := u1.spec.username))
    ensures var u := w.users[k];
            var w1 := if env.ok(UpdateStatus) then UP.StoreUser(w.(server := o.server), k, o.user) else w.(server := o.server);
            && w1.secrets == w.secrets && w1.databases == w.databases && w1.uids == w.uids && w1.server == o.server
            && k in w1.users && US.OnlyStatus(u, w1.users[k]) && w1.users == w.users[k := w1.users[k]]
            && w1.users[k].status.username == (if env.ok(UpdateStatus) then u.spec.username else u.status.username)
            && (!env.ok(UpdateStatus) ==> w1.users[k] == u)
  {
  }

  lemma RenameOutcome(s: Server, k: Key, u: DatabaseUser, env: Env)
    requires US.UserInv(s, k, u) && AccountExists(s, u.status.username) && u.spec.username != u.status.username
    requires DecidesUser(s, k, u, env, 2) && LookupsOk(env) && env.ok(SendRename) && env.ok(SaveRenamedRow)
    ensures var o := UP.Rename(s, u, k, env);
            && o.ok && o.user == u.(status := u.status.(username := u.spec.username))
            && OwnsAccount(o.server, u.spec.username, UP.Actor(k, u)) && u.status.username !in o.server.accounts
            && RowIs(o.server.managedUsers, u.uid, k, u.spec.username)
  {
    DecidesTruly(s, k, u, env, 2);
    BothNamed(u);
    US.MineIsOwned(s, k, u, u.status.username);
    US.RenameKept(s, u, k, env);
  }

  /** With the status stored, the object stays its own through the next pass. */
  lemma StoredStaysMine(w1: World, k: Key, env': Env)
    requires k in w1.users && ReachesServer(w1, k, env') && Benign(w1, ReconcileUser(k, env')) && !Misplaced(w1, ReconcileUser(k, env'))
    requires forall round, i :: env'.ok(LookupAccountRow(round, i))
    requires var u := w1.users[k];
             && u.status.username == u.spec.username && OwnsAccount(w1.server, u.spec.username, UP.Actor(k, u))
             && RowIs(w1.server.managedUsers, u.uid, k, u.spec.username)
    ensures var w2 := UP.UserPass(w1, k, env'); k in w2.users && UserMine(w2.server, k, w2.users[k])
  {
    var u := w1.users[k];
    var u1 := UP.Observed(w1.server, u, env');
    var secret := UP.SecretOf(w1, k, u);
    StillMine(w1.server, w1.server, k, u, u);
    SeenAsMine(w1.server, k, u, env');
    PassUpdates(w1, k, env');
    US.UpdateTame(w1.server, u1, k, w1.databases, secret, env');
    var o := UP.UserUpdate(w1.server, u1, k, w1.databases, secret, env');
    StillMine(w1.server, o.server, k, u, o.user);
    StillMine(w1.server, o.server, k, u, u);
  }

  lemma StillMine(s: Server, s': Server, k: Key, u: DatabaseUser, u': DatabaseUser)
    requires s'.managedUsers == s.managedUsers && u'.uid == u.uid && u'.spec == u.spec && u'.status.username == u.spec.username
    requires RowIs(s.managedUsers, u.uid, k, u.spec.username)
    ensures UserMine(s', k, u')
  {
    assert Names(u') == [u.spec.username];
  }

  /** With the status lost, the next pass makes a second account and strands both. */
  lemma LostStrands(w1: World, k: Key, env': Env)
    requires Inv(w1) && ReachesServer(w1, k, env') && CanCreate(w1, k, env')
    requires var u := w1.users[k];
             && u.status.username !in w1.server.accounts && u.spec.username != u.status.username
             && OwnsAccount(w1.server, u.spec.username, UP.Actor(k, u))
             && RowIs(w1.server.managedUsers, u.uid, k, u.spec.username)
    ensures var u := w1.users[k];
            var w2 := UP.UserPass(w1, k, env');
            && Inv(w2) && Stranded(w2, k, u.uid, u.status.username, u.spec.username)
            && k in w2.users && w2.users[k].spec == u.spec && !UserMine(w2.server, k, w2.users[k])
  {
    var u, s := w1.users[k], w1.server;
    var secret := UP.SecretOf(w1, k, u);
    assert US.UserInv(s, k, u);
    CreatedOutcome(s, u, k, w1.databases, secret, env');
    FreeNamePass(w1, k, env');
    var w2 := UP.UserPass(w1, k, env');
    KeptStep(w1, w2, k, UP.UserCreate(s, u, k, w1.databases, secret, env'));
    OwnUserStepInv(w1, w2, k, false);
    BothNamed(w2.users[k]);
    assert AccountExists(w2.server, u.status.username);
  }

  /**
   * After a rename and one more pass the object is its own if and only if the status write of the rename
   * succeeded. If it did not, the two accounts are stranded, and `StrandedForever` says for how long.
   */
  lemma RenamedThenMine(w: World, k: Key, env: Env, env': Env)
    requires Inv(w) && Renames(w, k, env)
    requires var w1 := UP.UserPass(w, k, env);
             && k in w1.users && ReachesServer(w1, k, env') && Benign(w1, ReconcileUser(k, env')) && !Misplaced(w1, ReconcileUser(k, env'))
             && (forall round, i :: env'.ok(LookupAccountRow(round, i)))
             && (!env.ok(UpdateStatus) ==> CanCreate(w1, k, env'))
    ensures var u := w.users[k];
            var w2 := UP.UserPass(UP.UserPass(w, k, env), k, env');
            && k in w2.users && (UserMine(w2.server, k, w2.users[k]) <==> env.ok(UpdateStatus))
            && (!env.ok(UpdateStatus) ==> Inv(w2) && Stranded(w2, k, u.uid, u.status.username, u.spec.username))
  {
    RenamePass(w, k, env);
    var w1 := UP.UserPass(w, k, env);
    if env.ok(UpdateStatus) {
      StoredStaysMine(w1, k, env');
    } else {
      NextInv(w, ReconcileUser(k, env));
      LostStrands(w1, k, env');
    }
  }
}
