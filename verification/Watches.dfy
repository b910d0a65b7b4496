/** Which DatabaseUser objects a change of a Database object enqueues (findObjectsForDatabase). */
module Watches {
  import opened Basics
  import opened Model
  import UP = UserPasses

  /** One item of the list the API server returns. */
  datatype Item = Item(key: Key, user: DatabaseUser)

  /** The grant loop of this object looks up the Database object. */
  ghost predicate LooksUp(item: Item, dk: Key) {
    exists i :: 0 <= i < |item.user.spec.databaseList| && UP.Listed(item.key, item.user.spec.databaseList[i]) == dk
  }

  /** The objects of one namespace, each once. */
  ghost predicate ListsNamespace(items: seq<Item>, namespace: Bytes) {
    && (forall i :: 0 <= i < |items| ==> items[i].key.namespace == namespace)
    && (forall i, j :: 0 <= i < j < |items| ==> items[i].key != items[j].key)
  }

  /**
   * The requests enqueued are exactly the listed objects whose grant loop would look the Database up,
   * each once; none when the list cannot be read.
   */
  method FindObjectsForDatabase(list: Option<seq<Item>>, database: Key) returns (requests: seq<Key>)
    requires list.Some? ==> ListsNamespace(list.value, database.namespace)
    ensures list.None? ==> requests == []
    ensures list.Some? ==> forall k :: k in requests <==>
              exists i :: 0 <= i < |list.value| && list.value[i].key == k && LooksUp(list.value[i], database)
    ensures forall i, j :: 0 <= i < j < |requests| ==> requests[i] != requests[j]
  {
    requests := [];
    if list.None? {
      return;
    }
    var items := list.value;
    for n := 0 to |items|
      invariant forall k :: k in requests <==> exists i :: 0 <= i < n && items[i].key == k && LooksUp(items[i], database)
      invariant forall i, j :: 0 <= i < j < |requests| ==> requests[i] != requests[j]
    {
      var dbUser := items[n];
      ghost var before := requests;
      var found := false;
      var i := 0;
      while i < |dbUser.user.spec.databaseList|
        invariant 0 <= i <= |dbUser.user.spec.databaseList|
        invariant !found && requests == before
        invariant forall j :: 0 <= j < i ==> dbUser.user.spec.databaseList[j].database != database.name
      {
        if dbUser.user.spec.databaseList[i].database == database.name {
          requests := requests + [dbUser.key];
          found := true;
          assert UP.Listed(dbUser.key, dbUser.user.spec.databaseList[i]) == database;
          break;
        }
        i := i + 1;
      }
      assert found <==> LooksUp(dbUser, database);
      assert dbUser.key !in before;
    }
  }

  /** A grant pass of an object that is not enqueued does not read the Database object: its outcome is independent of it. */
  lemma {:induction false} NotEnqueuedNotAffected(s: Server, item: Item, databases: map<Key, Database>, databases': map<Key, Database>,
                                                 dk: Key, i: nat, env: Env)
    requires !LooksUp(item, dk) && i <= |item.user.spec.databaseList|
    requires forall x :: x != dk ==> (x in databases <==> x in databases') && (x in databases ==> databases[x] == databases'[x])
    ensures UP.GrantFrom(s, item.user, item.key, databases, i, env) == UP.GrantFrom(s, item.user, item.key, databases', i, env)
    decreases |item.user.spec.databaseList| - i
  {
    if i < |item.user.spec.databaseList| {
      assert UP.Listed(item.key, item.user.spec.databaseList[i]) != dk;
      NotEnqueuedNotAffected(UP.GrantOne(s, item.user, item.key, databases, i, env), item, databases, databases', dk, i + 1, env);
    }
  }

  /** Taking away one Database object stops the loop at the first entry that names it. */
  lemma {:induction false} StopsWithout(s: Server, item: Item, databases: map<Key, Database>, dk: Key, i: nat, env: Env)
    requires i <= |item.user.spec.databaseList| && Complete(item, databases, env)
    ensures UP.GrantFrom(s, item.user, item.key, databases, i, env).1
    ensures !UP.GrantFrom(s, item.user, item.key, databases - {dk}, i, env).1 <==>
              exists x :: i <= x < |item.user.spec.databaseList| && Key(item.key.namespace, item.user.spec.databaseList[x].database) == dk
    decreases |item.user.spec.databaseList| - i
  {
    var perms := item.user.spec.databaseList;
    if i < |perms| {
      StopsWithout(UP.GrantOne(s, item.user, item.key, databases, i, env), item, databases, dk, i + 1, env);
      if Key(item.key.namespace, perms[i].database) != dk {
        StopsWithout(UP.GrantOne(s, item.user, item.key, databases - {dk}, i, env), item, databases, dk, i + 1, env);
      }
    }
  }

  /** Everything the object lists is there and can be read. */
  ghost predicate Complete(item: Item, databases: map<Key, Database>, env: Env) {
    forall x :: 0 <= x < |item.user.spec.databaseList| ==>
      env.ok(FetchDatabase(x)) && Key(item.key.namespace, item.user.spec.databaseList[x].database) in databases
  }

  /**
   * The other direction: where everything the object lists is there, its grant loop ends well, and it fails
   * once one Database object is taken away if and only if the object is enqueued for that one.
   */
  lemma EnqueuedIsAffected(s: Server, item: Item, databases: map<Key, Database>, dk: Key, env: Env)
    requires Complete(item, databases, env)
    ensures UP.GrantFrom(s, item.user, item.key, databases, 0, env).1
    ensures !UP.GrantFrom(s, item.user, item.key, databases - {dk}, 0, env).1 <==> LooksUp(item, dk)
  {
    StopsWithout(s, item, databases, dk, 0, env);
  }
}
