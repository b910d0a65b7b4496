/** One pass over a Database object (controllers/database_controller.go). */
module DatabaseReconciler {
  import opened Basics
  import opened SqlText
  import opened SqlTexts
  import opened Model
  import opened Ownership

  function Actor(k: Key, d: Database): Creator { Cr(d.uid, k.namespace) }

  // ---------------------------------------------------------------- specification

  /** The status after reading the schema back, when the lookup finds it. */
  function Observed(s: Server, d: Database, env: Env, round: nat): Database {
    if SchemaSeen(s, d.spec.name, env, round) then
      d.(status := d.status.(characterSet := s.schemas[d.spec.name].characterSet,
                             collate := s.schemas[d.spec.name].collation))
    else d
  }

  function Or(wanted: Bytes, otherwise: Bytes): Bytes { if wanted != [] then wanted else otherwise }

  function WithRow(s: Server, k: Key, d: Database): Server {
    s.(managedDatabases := s.managedDatabases[d.uid := Row(k, d.spec.name)])
  }

  function CreateText(d: Database): Bytes {
    CreateDatabaseText(d.spec.name, d.spec.characterSet, d.spec.collate)
  }

  /** The clause the ALTER needs for one attribute; empty when the attribute is already as wanted. */
  function Change(wanted: Bytes, current: Bytes): Bytes {
    if wanted != [] && wanted != current then wanted else []
  }

  function AlterText(d: Database): Bytes {
    AlterDatabaseText(d.spec.name, Change(d.spec.characterSet, d.status.characterSet), Change(d.spec.collate, d.status.collate))
  }

  function DropText(d: Database): Bytes {
    DropDatabaseText(d.spec.name)
  }

  /** The server reads a statement in the text and carries it out. */
  predicate Accepted(s: Server, text: Bytes, env: Env, reached: bool) {
    reached && env.reader(text).Some? && Accepts(s, env.reader(text).value)
  }

  function Create(s: Server, k: Key, d: Database, env: Env): (Server, Database) {
    var d1 := d.(status := d.status.(characterSet := Or(d.spec.characterSet, d.status.characterSet),
                                     collate := Or(d.spec.collate, d.status.collate)));
    var (s1, sent) := Receive(s, Actor(k, d), CreateText(d), env, env.ok(SendCreate));
    if !sent then (s1, d1)
    else
      var s2 := if env.ok(InsertRow) && d.uid !in s1.managedDatabases then WithRow(s1, k, d1) else s1;
      (s2, Observed(s2, d1, env, 2))
  }

  predicate NeedsAlter(d: Database) {
    Change(d.spec.characterSet, d.status.characterSet) != [] || Change(d.spec.collate, d.status.collate) != []
  }

  function Update(s: Server, k: Key, d: Database, env: Env): (Server, Database) {
    var d1 := d.(status := d.status.(characterSet := Or(Change(d.spec.characterSet, d.status.characterSet), d.status.characterSet),
                                     collate := Or(Change(d.spec.collate, d.status.collate), d.status.collate)));
    if !NeedsAlter(d) then (s, Observed(s, d1, env, 2))
    else
      var (s1, sent) := Receive(s, Actor(k, d), AlterText(d), env, env.ok(SendAlter));
      if sent then (s1, Observed(s1, d1, env, 2)) else (s1, d1)
  }

  /** A failed DROP is only logged: the ledger row goes in any case. */
  function Finalize(s: Server, k: Key, d: Database, env: Env): Server {
    var s1 := Receive(s, Actor(k, d), DropText(d), env, env.ok(SendDrop)).0;
    if env.ok(DeleteRow) then s1.(managedDatabases := s1.managedDatabases - {d.uid}) else s1
  }

  /** The in-memory object when the pass has looked its schema up. */
  function Started(s: Server, d: Database, env: Env): Database {
    var d0 := Observed(s, d, env, 0);
    d0.(status := d0.status.(name := d0.spec.name))
  }

  /** The part of a pass that works on the server: create, take care of, or leave alone. */
  function Converge(s: Server, k: Key, d: Database, env: Env): (Server, Database) {
    var d1 := Started(s, d, env);
    if !SchemaSeen(s, d.spec.name, env, 0) then Create(s, k, d1, env)
    else if DecidesDatabase(s, k, d1, env, 1) then Update(s, k, d1, env)
    else (s, d1)
  }

  /** An object that names no admin connection gets none. */
  predicate Connected(d: Database, env: Env) {
    env.connect && d.spec.connection != []
  }

  /** The server and the stored Database objects after one pass. Without a connection a deletion pass breaks off. */
  function Pass(s: Server, store: map<Key, Database>, k: Key, env: Env): (Server, map<Key, Database>) {
    if k !in store then (s, store)
    else
      var d := store[k];
      if d.deleting then
        if !d.finalizer || !Connected(d, env) then (s, store)
        else
          var s1 := if DecidesDatabase(s, k, d, env, 1) then Finalize(s, k, d, env) else s;
          (s1, if env.ok(UpdateFinalizer) then store - {k} else store)
      else if !Connected(d, env) then (s, store)
      else if !d.finalizer then
        (s, if env.ok(UpdateFinalizer) then store[k := d.(finalizer := true)] else store)
      else
        var (s1, d1) := Converge(s, k, d, env);
        (s1, if env.ok(UpdateStatus) then store[k := d1] else store)
  }

  function DatabasePass(w: World, k: Key, env: Env): World {
    var (s, store) := Pass(w.server, w.databases, k, env);
    w.(server := s, databases := store)
  }

  /** The statement text the server part of a pass sends, if any; it sends no more than one. */
  function ConvergeText(s: Server, k: Key, d: Database, env: Env): Option<Bytes> {
    var d1 := Started(s, d, env);
    if !SchemaSeen(s, d.spec.name, env, 0) then Some(CreateText(d1))
    else if DecidesDatabase(s, k, d1, env, 1) && NeedsAlter(d1) then Some(AlterText(d1))
    else None
  }

  function PassText(s: Server, k: Key, d: Database, env: Env): Option<Bytes> {
    if !d.finalizer || !Connected(d, env) then None
    else if d.deleting then
      if DecidesDatabase(s, k, d, env, 1) then Some(DropText(d)) else None
    else ConvergeText(s, k, d, env)
  }

  // ---------------------------------------------------------------- implementation

  class Reconciler {
    var server: Server
    var store: map<Key, Database>
    var instance: Database
    const key: Key
    const env: Env

    constructor (server: Server, store: map<Key, Database>, key: Key, env: Env, instance: Database)
      ensures this.server == server && this.store == store && this.key == key && this.env == env
      ensures this.instance == instance
    {
      this.server := server;
      this.store := store;
      this.key := key;
      this.env := env;
      this.instance := instance;
    }

    method DatabaseExists(round: nat) returns (exists_: bool)
      modifies this`instance
      ensures exists_ == SchemaSeen(server, old(instance).spec.name, env, round)
      ensures instance == Observed(server, old(instance), env, round)
    {
      if !SchemaSeen(server, instance.spec.name, env, round) {
        return false;
      }
      var schema := server.schemas[instance.spec.name];
      if instance.status.collate == [] || instance.status.collate != schema.collation {
        instance := instance.(status := instance.status.(collate := schema.collation));
      }
      if instance.status.characterSet == [] || instance.status.characterSet != schema.characterSet {
        instance := instance.(status := instance.status.(characterSet := schema.characterSet));
      }
      return true;
    }

    method RunStmt(text: Bytes, reached: bool) returns (sent: bool)
      modifies this`server
      ensures (server, sent) == Receive(old(server), Actor(key, instance), text, env, reached)
    {
      var r := Receive(server, Actor(key, instance), text, env, reached);
      server := r.0;
      sent := r.1;
    }

    method DatabaseUpdate() returns (updated: bool, ok: bool)
      modifies this`server, this`instance
      ensures (server, instance) == Update(old(server), key, old(instance), env)
      ensures ok <==> !NeedsAlter(old(instance)) || Accepted(old(server), AlterText(old(instance)), env, env.ok(SendAlter))
      ensures updated <==> ok && NeedsAlter(old(instance))
    {
      var requireAlter := false;
      var alterQuery := Ascii("ALTER DATABASE `") + instance.spec.name + [BACKTICK];
      var cs, co: Bytes := [], [];
      if instance.spec.characterSet != [] && instance.spec.characterSet != instance.status.characterSet {
        requireAlter := true;
        cs := Ascii(" CHARACTER SET ") + instance.spec.characterSet;
        alterQuery := alterQuery + cs;
        instance := instance.(status := instance.status.(characterSet := instance.spec.characterSet));
      }
      if instance.spec.collate != [] && instance.spec.collate != instance.status.collate {
        requireAlter := true;
        co := Ascii(" COLLATE ") + instance.spec.collate;
        alterQuery := alterQuery + co;
        instance := instance.(status := instance.status.(collate := instance.spec.collate));
      }
      assert alterQuery == AlterText(old(instance)) by {
        Grouped(Ascii("ALTER DATABASE `") + old(instance).spec.name + [BACKTICK], cs, co);
      }
      if requireAlter {
        var sent := RunStmt(alterQuery, env.ok(SendAlter));
        if !sent {
          return false, false;
        }
      }
      var _ := DatabaseExists(2);
      return requireAlter, true;
    }

    method DatabaseCreate() returns (created: bool)
      modifies this`server, this`instance
      ensures (server, instance) == Create(old(server), key, old(instance), env)
      ensures created <==> Accepted(old(server), CreateText(old(instance)), env, env.ok(SendCreate))
                           && SchemaSeen(server, old(instance).spec.name, env, 2)
    {
      var createQuery := Ascii("CREATE DATABASE `") + instance.spec.name + [BACKTICK];
      var cs, co: Bytes := [], [];
      if instance.spec.characterSet != [] {
        cs := Ascii(" CHARACTER SET ") + instance.spec.characterSet;
        createQuery := createQuery + cs;
        instance := instance.(status := instance.status.(characterSet := instance.spec.characterSet));
      }
      if instance.spec.collate != [] {
        co := Ascii(" COLLATE ") + instance.spec.collate;
        createQuery := createQuery + co;
        instance := instance.(status := instance.status.(collate := instance.spec.collate));
      }
      assert createQuery == CreateText(old(instance)) by {
        Grouped(Ascii("CREATE DATABASE `") + old(instance).spec.name + [BACKTICK], cs, co);
      }
      var sent := RunStmt(createQuery, env.ok(SendCreate));
      if !sent {
        return false;
      }
      // A row with the same primary key makes the insert fail, which is only logged.
      if env.ok(InsertRow) && instance.uid !in server.managedDatabases {
        server := server.(managedDatabases := server.managedDatabases[instance.uid := Row(key, instance.spec.name)]);
      }
      created := DatabaseExists(2);
    }

    method FinalizeDatabase()
      modifies this`server
      ensures server == Finalize(old(server), key, instance, env)
    {
      var _ := RunStmt(Ascii("DROP DATABASE IF EXISTS `") + instance.spec.name + [BACKTICK], env.ok(SendDrop));
      if env.ok(DeleteRow) {
        server := server.(managedDatabases := server.managedDatabases - {instance.uid});
      }
    }

    /** The whole pass equals its specification, for every store and every pattern of failing calls. */
    method Reconcile()
      modifies this
      ensures (server, store) == Pass(old(server), old(store), key, env)
    {
      if key !in store {
        return;
      }
      instance := store[key];
      if instance.deleting {
        if instance.finalizer {
          if !Connected(instance, env) {
            return;
          }
          var mine := IsDatabaseMine(server, key, instance, env, 1);
          if mine {
            FinalizeDatabase();
          }
          instance := instance.(finalizer := false);
          if env.ok(UpdateFinalizer) {
            store := store - {key};
          }
        }
        return;
      }
      if !Connected(instance, env) {
        return;
      }
      if !instance.finalizer {
        instance := instance.(finalizer := true);
        if env.ok(UpdateFinalizer) {
          store := store[key := instance];
        }
      } else {
        var found := DatabaseExists(0);
        instance := instance.(status := instance.status.(name := instance.spec.name));
        if !found {
          var _ := DatabaseCreate();
        } else {
          var mine := IsDatabaseMine(server, key, instance, env, 1);
          if mine {
            var _, _ := DatabaseUpdate();
          }
        }
        if env.ok(UpdateStatus) {
          store := store[key := instance];
        }
      }
    }
  }

  /** Appending clause by clause or all at once. */
  lemma Grouped(p: Bytes, a: Bytes, b: Bytes)
    ensures p + a + b == p + (a + b)
    ensures p + a == p + (a + [])
    ensures p + b == p + ([] + b)
    ensures p + ([] + []) == p
  {
  }
}
