/** The connection cache shared by the reconcilers (GetDatabaseConnection in api/v1alpha1/adminconnection_types.go). */
module Connections {
  import opened Basics
  import opened Model

  /** The parts of a configuration that differ between admin connections or over time. */
  datatype Config = Config(address: Bytes, user: Bytes, password: Bytes)

  /** A connection pool ever opened, numbered in order of opening. */
  datatype Pool = Pool(config: Config, open: bool)

  datatype Entry = Entry(pool: nat, config: Config)

  datatype State = State(pools: seq<Pool>, cache: map<Uid, Entry>)

  /** How a fresh connection attempt ends; a failed ping leaves the new pool open, the later failures close it. */
  datatype Outcome = OpenFails | PingFails | SetupFails | Opened

  /**
   * One call: for which admin connection, the configuration it computes (None when a secret cannot be
   * read), and how the calls on the cached pool and on a fresh one turn out.
   */
  datatype Call = Call(uid: Uid, config: Option<Config>, handle: bool, ping: bool, outcome: Outcome)

  // ---------------------------------------------------------------- specification

  function Close(pools: seq<Pool>, p: nat): seq<Pool> {
    if p < |pools| then pools[p := pools[p].(open := false)] else pools
  }

  predicate Reuses(st: State, c: Call) {
    c.config.Some? && c.uid in st.cache && st.cache[c.uid].config == c.config.value && c.handle && c.ping
  }

  /** The pools once the cached one has been dealt with: a changed configuration closes it. */
  function Retired(st: State, c: Call): seq<Pool> {
    if c.config.Some? && c.uid in st.cache && st.cache[c.uid].config != c.config.value && c.handle then
      Close(st.pools, st.cache[c.uid].pool)
    else st.pools
  }

  function Get(st: State, c: Call): (State, Option<nat>) {
    if c.config.None? then (st, None)
    else if Reuses(st, c) then (st, Some(st.cache[c.uid].pool))
    else
      var pools := Retired(st, c);
      var cache := st.cache - {c.uid};
      match c.outcome
      case OpenFails => (State(pools, cache), None)
      case PingFails => (State(pools + [Pool(c.config.value, true)], cache), None)
      case SetupFails => (State(pools + [Pool(c.config.value, false)], cache), None)
      case Opened =>
        (State(pools + [Pool(c.config.value, true)], cache[c.uid := Entry(|pools|, c.config.value)]), Some(|pools|))
  }

  function RunCalls(st: State, calls: seq<Call>): State
    decreases |calls|
  {
    if calls == [] then st else RunCalls(Get(st, calls[0]).0, calls[1..])
  }

  // ---------------------------------------------------------------- implementation

  class ConnectionCache {
    var pools: seq<Pool>
    var cache: map<Uid, Entry>

    function Contents(): State
      reads this
    {
      State(pools, cache)
    }

    constructor ()
      ensures Contents() == State([], map[])
    {
      pools := [];
      cache := map[];
    }

    method CreateFreshConnection(config: Config, outcome: Outcome) returns (pool: Option<nat>)
      modifies this`pools
      ensures outcome == OpenFails ==> pools == old(pools)
      ensures outcome != OpenFails ==> pools == old(pools) + [Pool(config, outcome != SetupFails)]
      ensures pool == if outcome == Opened then Some(|old(pools)|) else None
    {
      if outcome == OpenFails {
        return None;
      }
      var p := |pools|;
      pools := pools + [Pool(config, true)];
      if outcome == PingFails {
        return None;
      }
      if outcome == SetupFails {
        pools := pools[p := pools[p].(open := false)];
        return None;
      }
      return Some(p);
    }

    method GetDatabaseConnection(c: Call) returns (pool: Option<nat>)
      modifies this
      ensures (Contents(), pool) == Get(old(Contents()), c)
    {
      if c.config.None? {
        return None;
      }
      var dbConfig := c.config.value;
      var newConnection := true;
      if c.uid in cache {
        var conn := cache[c.uid];
        if conn.config == dbConfig {
          if c.handle && c.ping {
            newConnection := false;
          }
        } else if c.handle && conn.pool < |pools| {
          pools := pools[conn.pool := pools[conn.pool].(open := false)];
        }
      }
      if !newConnection {
        return Some(cache[c.uid].pool);
      }
      cache := cache - {c.uid};
      pool := CreateFreshConnection(dbConfig, c.outcome);
      if pool.Some? {
        cache := cache[c.uid := Entry(pool.value, dbConfig)];
      }
    }
  }

  // ---------------------------------------------------------------- what every sequence of calls keeps

  /** Every cached pool is open, was opened with the recorded configuration, and belongs to one admin connection. */
  ghost predicate Valid(st: State) {
    && (forall u :: u in st.cache ==>
          var e := st.cache[u];
          e.pool < |st.pools| && st.pools[e.pool].open && st.pools[e.pool].config == e.config)
    && (forall u, u' :: u in st.cache && u' in st.cache && u != u' ==> st.cache[u].pool != st.cache[u'].pool)
  }

  ghost predicate Referenced(cache: map<Uid, Entry>, p: nat) {
    exists u :: u in cache && cache[u].pool == p
  }

  /** Open pools that nothing refers to any more. */
  ghost predicate Lost(st: State, p: nat) {
    p < |st.pools| && st.pools[p].open && !Referenced(st.cache, p)
  }

  /** Forgetting an entry, closing its pool or not, and opening more pools keeps the rest valid. */
  lemma ForgetValid(st: State, uid: Uid, pools: seq<Pool>)
    requires Valid(st) && |st.pools| <= |pools|
    requires forall p :: 0 <= p < |st.pools| && (uid in st.cache ==> p != st.cache[uid].pool) ==> pools[p] == st.pools[p]
    ensures Valid(State(pools, st.cache - {uid}))
  {
  }

  lemma RememberValid(pools: seq<Pool>, cache: map<Uid, Entry>, uid: Uid, config: Config)
    requires Valid(State(pools, cache)) && uid !in cache
    ensures Valid(State(pools + [Pool(config, true)], cache[uid := Entry(|pools|, config)]))
  {
  }

  /** Every call keeps the cache valid and leaves the entries of other admin connections alone. */
  lemma GetValid(st: State, c: Call)
    requires Valid(st)
    ensures Valid(Get(st, c).0)
    ensures Get(st, c).0.cache - {c.uid} == st.cache - {c.uid}
  {
    if c.config.Some? && !Reuses(st, c) {
      var pools := Retired(st, c);
      match c.outcome
      case OpenFails => ForgetValid(st, c.uid, pools);
      case PingFails => ForgetValid(st, c.uid, pools + [Pool(c.config.value, true)]);
      case SetupFails => ForgetValid(st, c.uid, pools + [Pool(c.config.value, false)]);
      case Opened =>
        ForgetValid(st, c.uid, pools);
        RememberValid(pools, st.cache - {c.uid}, c.uid, c.config.value);
    }
  }

  /** What a successful call returns. */
  lemma GetReturns(st: State, c: Call)
    requires Valid(st)
    ensures var (st', pool) := Get(st, c);
            pool.Some? ==>
              && c.config.Some? && c.uid in st'.cache && st'.cache[c.uid] == Entry(pool.value, c.config.value)
              && pool.value < |st'.pools| && st'.pools[pool.value] == Pool(c.config.value, true)
  {
  }

  /** A pool closed once stays closed, and no pool changes its configuration. */
  lemma GetMonotonic(st: State, c: Call, p: nat)
    requires p < |st.pools|
    ensures var st' := Get(st, c).0;
            p < |st'.pools| && st'.pools[p].config == st.pools[p].config && (st'.pools[p].open ==> st.pools[p].open)
  {
  }

  /**
   * Over any sequence of calls, with credentials changing at will: a successful call returns a pool opened
   * with the configuration current at that call, equal to the cached entry; no cached pool was closed;
   * two admin connections never share a pool.
   */
  lemma {:induction false} CallsSound(st: State, calls: seq<Call>, last: Call)
    requires Valid(st)
    ensures var before := RunCalls(st, calls);
            var (after, pool) := Get(before, last);
            && Valid(before) && Valid(after)
            && (pool.Some? ==>
                  && last.config.Some? && last.uid in after.cache && after.cache[last.uid] == Entry(pool.value, last.config.value)
                  && after.pools[pool.value] == Pool(last.config.value, true)
                  && forall u :: u in after.cache && u != last.uid ==> after.cache[u].pool != pool.value)
    decreases |calls|
  {
    if calls == [] {
      GetValid(st, last);
      GetReturns(st, last);
    } else {
      GetValid(st, calls[0]);
      CallsSound(Get(st, calls[0]).0, calls[1..], last);
    }
  }

  // ---------------------------------------------------------------- which pool is returned

  /**
   * The cached pool is returned, and nothing changes, exactly when it was opened with the current
   * configuration and answers; otherwise a pool is returned exactly when a new one could be set up, and it
   * is that one.
   */
  lemma ReturnsCachedExactly(st: State, c: Call)
    requires Valid(st)
    ensures c.uid in st.cache ==>
              (Get(st, c).1 == Some(st.cache[c.uid].pool) <==> c.config == Some(st.cache[c.uid].config) && c.handle && c.ping)
    ensures c.uid in st.cache && c.config == Some(st.cache[c.uid].config) && c.handle && c.ping ==> Get(st, c).0 == st
    ensures !(c.uid in st.cache && c.config == Some(st.cache[c.uid].config) && c.handle && c.ping) ==>
              Get(st, c).1 == if c.config.Some? && c.outcome == Opened then Some(|st.pools|) else None
    ensures c.config.None? ==> Get(st, c).0 == st
  {
  }

  /** The pool of an admin connection goes on answering, and its configuration stays. */
  ghost predicate Steady(calls: seq<Call>, uid: Uid, config: Config) {
    forall i :: 0 <= i < |calls| && calls[i].uid == uid ==> calls[i].config == Some(config) && calls[i].handle && calls[i].ping
  }

  /**
   * Once a call for an admin connection succeeded, and as long as its pool answers and its configuration
   * stays, every later call for it returns that pool and changes nothing, whatever is done for others.
   */
  lemma {:induction false} OnePoolServes(st: State, calls: seq<Call>, uid: Uid, p: nat, i: nat)
    requires Valid(st) && uid in st.cache && st.cache[uid].pool == p && Steady(calls, uid, st.cache[uid].config)
    requires i < |calls| && calls[i].uid == uid
    ensures var before := RunCalls(st, calls[..i]);
            Get(before, calls[i]) == (before, Some(p))
    decreases i
  {
    if i == 0 {
      assert calls[..0] == [];
      ReturnsCachedExactly(st, calls[0]);
    } else {
      var c, rest := calls[0], calls[1..];
      ReturnsCachedExactly(st, c);
      GetValid(st, c);
      assert calls[..i][1..] == rest[..i - 1];
      assert c.uid != uid ==> uid in (st.cache - {c.uid});
      assert c.uid != uid ==> Get(st, c).0.cache[uid] == (Get(st, c).0.cache - {c.uid})[uid];
      assert Steady(rest, uid, st.cache[uid].config);
      OnePoolServes(Get(st, c).0, rest, uid, p, i - 1);
    }
  }

  /** With calls for one admin connection only: no pool is opened, closed or forgotten after the first success. */
  lemma {:induction false} NoMorePools(st: State, first: Call, calls: seq<Call>)
    requires Valid(st) && Get(st, first).1.Some? && Steady(calls, first.uid, first.config.value)
    requires forall i :: 0 <= i < |calls| ==> calls[i].uid == first.uid
    ensures RunCalls(Get(st, first).0, calls) == Get(st, first).0
    decreases |calls|
  {
    if calls != [] {
      var st1, n := Get(st, first).0, |calls| - 1;
      GetValid(st, first);
      GetReturns(st, first);
      NoMorePools(st, first, calls[..n]);
      OnePoolServes(st1, calls, first.uid, Get(st, first).1.value, n);
      RunOneMore(st1, calls);
    }
  }

  lemma {:induction false} RunOneMore(st: State, calls: seq<Call>)
    requires calls != []
    ensures RunCalls(st, calls) == Get(RunCalls(st, calls[..|calls| - 1]), calls[|calls| - 1]).0
    decreases |calls|
  {
    var n := |calls| - 1;
    if n == 0 {
      assert RunCalls(st, calls) == RunCalls(Get(st, calls[0]).0, []);
    } else {
      RunOneMore(Get(st, calls[0]).0, calls[1..]);
      assert calls[1..][..n - 1] == calls[..n][1..];
    }
  }

  // ---------------------------------------------------------------- which pools are lost

  /** The call gives the cached pool up without closing it: it does not answer, or no handle is there to close it by. */
  predicate Abandons(st: State, c: Call) {
    && c.uid in st.cache && c.config.Some?
    && if st.cache[c.uid].config == c.config.value then !(c.handle && c.ping) else !c.handle
  }

  /** No cached pool answers for the current configuration. */
  predicate NeedsPool(st: State, c: Call) {
    c.config.Some? && !(c.uid in st.cache && st.cache[c.uid].config == c.config.value && c.handle && c.ping)
  }

  lemma Forgotten(cache: map<Uid, Entry>, uid: Uid, p: nat)
    requires forall u, u' :: u in cache && u' in cache && u != u' ==> cache[u].pool != cache[u'].pool
    ensures Referenced(cache - {uid}, p) <==> Referenced(cache, p) && !(uid in cache && cache[uid].pool == p)
  {
    if u :| u in cache && cache[u].pool == p && u != uid {
      assert (cache - {uid})[u].pool == p;
    }
  }

  lemma Remembered(cache: map<Uid, Entry>, uid: Uid, e: Entry, p: nat)
    requires uid !in cache && e.pool != p
    ensures Referenced(cache[uid := e], p) <==> Referenced(cache, p)
  {
    if u :| u in cache && cache[u].pool == p {
      assert cache[uid := e][u].pool == p;
    }
  }

  /** A pool opened before the call: newly lost exactly when the call abandons it. */
  lemma LostBefore(st: State, c: Call, p: nat)
    requires Valid(st) && p < |st.pools|
    ensures Lost(Get(st, c).0, p) <==> Lost(st, p) || (Abandons(st, c) && p == st.cache[c.uid].pool)
  {
    if c.config.Some? && !Reuses(st, c) {
      var pools := Retired(st, c);
      Forgotten(st.cache, c.uid, p);
      Remembered(st.cache - {c.uid}, c.uid, Entry(|pools|, c.config.value), p);
      assert Referenced(Get(st, c).0.cache, p) <==> Referenced(st.cache - {c.uid}, p);
      assert Get(st, c).0.pools[p] == pools[p];
      if c.uid in st.cache && st.cache[c.uid].pool == p {
        assert Referenced(st.cache, p);
      }
    }
  }

  /** A pool opened by the call: lost exactly when its first ping failed. */
  lemma LostNew(st: State, c: Call, p: nat)
    requires Valid(st) && p >= |st.pools|
    ensures Lost(Get(st, c).0, p) <==> NeedsPool(st, c) && c.outcome == PingFails && p == |st.pools|
  {
    var st' := Get(st, c).0;
    assert p < |st'.pools| ==> p == |st.pools|;
    if c.config.Some? && !Reuses(st, c) && c.outcome == Opened && p == |st.pools| {
      assert st'.cache[c.uid].pool == p;
    }
  }

  /**
   * Pools leak in exactly two ways: a cached pool is given up without a close, because its ping or handle
   * failed, or a fresh pool fails its first ping.
   */
  lemma LostExactly(st: State, c: Call, p: nat)
    requires Valid(st)
    ensures Lost(Get(st, c).0, p) <==>
              || Lost(st, p)
              || (Abandons(st, c) && p == st.cache[c.uid].pool)
              || (NeedsPool(st, c) && c.outcome == PingFails && p == |st.pools|)
  {
    if p < |st.pools| {
      LostBefore(st, c, p);
    } else {
      LostNew(st, c, p);
    }
  }
}
