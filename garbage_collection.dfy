/**
 * Periodic garbage collection of dead server processes: every pass refreshes
 * this server's own Servers record, collects the records not refreshed in
 * the last five seconds, hands their ids to every registered cleanup hook
 * and deletes them. A hook that throws aborts the rest of the pass.
 */
module GarbageCollection {

  /** A Servers row. `updatedAt` is stamped with the current time on every write. */
  datatype ServerRecord = ServerRecord(id: string, pid: int, hostname: string, updatedAt: int)

  /** A registered hook, identified by what was registered. */
  type HookId = nat

  /** One call `f(deadServers)` of a registered hook. */
  datatype HookCall = HookCall(hook: HookId, deadServers: seq<string>)

  /** How a cleanup pass ended. */
  datatype PassOutcome =
    | NothingDead           // no dead server: no hook ran, nothing removed
    | Completed             // every hook ran and the dead records were removed
    | Aborted(hookIndex: nat) // the hook at this index threw; the pass stopped there

  /** The Servers collection after a pass, the hook calls it made, and how it ended. */
  datatype PassResult = PassResult(servers: seq<ServerRecord>, calls: seq<HookCall>, outcome: PassOutcome)

  /** How long a server may go without a heartbeat before it is presumed dead, in milliseconds. */
  const LivenessWindow: int := 5 * 1000

  /** Ids are the `_id`s of a collection: no two rows share one. */
  predicate DistinctIds(servers: seq<ServerRecord>) {
    forall i, j :: 0 <= i < j < |servers| ==> servers[i].id != servers[j].id
  }

  predicate IsDead(s: ServerRecord, now: int) {
    s.updatedAt < now - LivenessWindow
  }

  /** `Servers.upsert({ _id }, { $set: { pid, hostname } })`, which also stamps `updatedAt`. */
  function Upsert(servers: seq<ServerRecord>, id: string, pid: int, hostname: string, now: int): (r: seq<ServerRecord>)
    ensures ServerRecord(id, pid, hostname, now) in r
    ensures forall s :: s in r ==> s in servers || s == ServerRecord(id, pid, hostname, now)
    ensures forall s :: s in servers && s.id != id ==> s in r
    decreases |servers|
  {
    if |servers| == 0 then [ServerRecord(id, pid, hostname, now)]
    else if servers[0].id == id then
      assert forall s :: s in servers[1..] ==> s in servers;
      assert forall s :: s in servers ==> s == servers[0] || s in servers[1..];
      [ServerRecord(id, pid, hostname, now)] + servers[1..]
    else
      var rest := Upsert(servers[1..], id, pid, hostname, now);
      assert forall s :: s in servers[1..] ==> s in servers;
      assert forall s :: s in servers ==> s == servers[0] || s in servers[1..];
      [servers[0]] + rest
  }

  /** An upsert keeps ids unique, and the only row with this id is the freshly written one. */
  lemma {:induction false} UpsertDistinct(servers: seq<ServerRecord>, id: string, pid: int, hostname: string, now: int)
    requires DistinctIds(servers)
    ensures DistinctIds(Upsert(servers, id, pid, hostname, now))
    ensures forall s :: s in Upsert(servers, id, pid, hostname, now) && s.id == id ==> s == ServerRecord(id, pid, hostname, now)
    decreases |servers|
  {
    if |servers| > 0 {
      TailDistinct(servers);
      if servers[0].id == id {
        UpsertReplacesHead(servers, ServerRecord(id, pid, hostname, now));
      } else {
        UpsertDistinct(servers[1..], id, pid, hostname, now);
        TailAvoidsHead(servers);
        ConsDistinct(servers[0], Upsert(servers[1..], id, pid, hostname, now), servers[1..], id);
      }
    }
  }

  /** Replacing the head of a collection with unique ids by a row with the same id. */
  lemma UpsertReplacesHead(servers: seq<ServerRecord>, rec: ServerRecord)
    requires DistinctIds(servers) && |servers| > 0 && servers[0].id == rec.id
    ensures DistinctIds([rec] + servers[1..])
    ensures forall s :: s in [rec] + servers[1..] && s.id == rec.id ==> s == rec
  {
    var r := [rec] + servers[1..];
    forall i, j | 0 <= i < j < |r| ensures r[i].id != r[j].id {
      assert r[j] == servers[j];
      if i > 0 { assert r[i] == servers[i]; }
    }
  }

  /** Putting back an untouched head row with a different id in front of the upserted tail. */
  lemma ConsDistinct(head: ServerRecord, rest: seq<ServerRecord>, tail: seq<ServerRecord>, id: string)
    requires DistinctIds(rest)
    requires head.id != id
    requires forall s :: s in tail ==> s.id != head.id
    requires forall s :: s in rest ==> s in tail || s.id == id
    ensures DistinctIds([head] + rest)
  {
    var r := [head] + rest;
    forall i, j | 0 <= i < j < |r| ensures r[i].id != r[j].id {
      assert r[j] == rest[j - 1] && r[j] in rest;
      if i > 0 { assert r[i] == rest[i - 1]; }
    }
  }

  /** In a collection with unique ids, no row of the tail shares the head's id. */
  lemma TailAvoidsHead(servers: seq<ServerRecord>)
    requires DistinctIds(servers) && |servers| > 0
    ensures forall s :: s in servers[1..] ==> s.id != servers[0].id
  {
    forall s | s in servers[1..] ensures s.id != servers[0].id {
      var k :| 0 <= k < |servers[1..]| && servers[1..][k] == s;
      assert servers[k + 1] == s;
    }
  }

  lemma TailDistinct(servers: seq<ServerRecord>)
    requires DistinctIds(servers) && |servers| > 0
    ensures DistinctIds(servers[1..])
  {
    forall i, j | 0 <= i < j < |servers[1..]| ensures servers[1..][i].id != servers[1..][j].id {
      assert servers[1..][i] == servers[i + 1] && servers[1..][j] == servers[j + 1];
    }
  }

  /** `Servers.find({ updatedAt: { $lt: now - 5000 } }).map((server) => server._id)`, in collection order. */
  function DeadServers(servers: seq<ServerRecord>, now: int): (r: seq<string>)
    ensures forall x :: x in r ==> exists s :: s in servers && s.id == x && IsDead(s, now)
    ensures forall s :: s in servers && IsDead(s, now) ==> s.id in r
    decreases |servers|
  {
    if |servers| == 0 then []
    else
      var rest := DeadServers(servers[1..], now);
      assert forall s :: s in servers[1..] ==> s in servers;
      assert forall s :: s in servers ==> s == servers[0] || s in servers[1..];
      if IsDead(servers[0], now) then [servers[0].id] + rest else rest
  }

  /** `Servers.remove({ _id: { $in: dead } })`. */
  function RemoveIds(servers: seq<ServerRecord>, dead: seq<string>): (r: seq<ServerRecord>)
    ensures forall s :: s in r <==> s in servers && s.id !in dead
    decreases |servers|
  {
    if |servers| == 0 then []
    else
      var rest := RemoveIds(servers[1..], dead);
      assert forall s :: s in servers ==> s == servers[0] || s in servers[1..];
      if servers[0].id in dead then rest else [servers[0]] + rest
  }

  /** One call per hook, in registration order, each given the same list. */
  function Calls(hooks: seq<HookId>, dead: seq<string>): (r: seq<HookCall>)
    ensures |r| == |hooks|
    ensures forall i :: 0 <= i < |hooks| ==> r[i] == HookCall(hooks[i], dead)
  {
    seq(|hooks|, i requires 0 <= i < |hooks| => HookCall(hooks[i], dead))
  }

  /** The first hook index below `n`, from `i` on, that throws in this pass. */
  function FirstThrowing(throwing: set<nat>, i: nat, n: nat): (r: nat)
    requires i <= n
    ensures i <= r <= n
    ensures r < n ==> r in throwing
    ensures forall j :: i <= j < r ==> j !in throwing
    decreases n - i
  {
    if i == n || i in throwing then i else FirstThrowing(throwing, i + 1, n)
  }

  /** The first throwing index is the one before which none throws and which throws or is the end. */
  lemma {:induction false} FirstThrowingIs(throwing: set<nat>, i: nat, n: nat, r: nat)
    requires i <= r <= n
    requires forall j :: i <= j < r ==> j !in throwing
    requires r < n ==> r in throwing
    ensures FirstThrowing(throwing, i, n) == r
    decreases r - i
  {
    if i < r {
      FirstThrowingIs(throwing, i + 1, n, r);
    }
  }

  /**
   * One `cleanup()` pass, given the collection, the hooks, this server's
   * identity, the clock and the set of hook indices that throw this time.
   */
  function Pass(servers: seq<ServerRecord>, hooks: seq<HookId>, serverId: string, pid: int, hostname: string,
                now: int, throwing: set<nat>): (r: PassResult)
    requires DistinctIds(servers)
    ensures DistinctIds(r.servers)
    ensures ServerRecord(serverId, pid, hostname, now) in r.servers
    ensures r.outcome.NothingDead? <==> DeadServers(Upsert(servers, serverId, pid, hostname, now), now) == []
    ensures r.outcome.NothingDead? ==> r.calls == [] && r.servers == Upsert(servers, serverId, pid, hostname, now)
    ensures r.outcome.Completed? ==>
      (forall i :: 0 <= i < |hooks| ==> i !in throwing) &&
      r.calls == Calls(hooks, DeadServers(Upsert(servers, serverId, pid, hostname, now), now)) &&
      (forall s :: s in r.servers <==> s in Upsert(servers, serverId, pid, hostname, now) && !IsDead(s, now))
    ensures r.outcome.Aborted? ==>
      var i := r.outcome.hookIndex;
      i < |hooks| && i in throwing && (forall j :: 0 <= j < i ==> j !in throwing) &&
      r.calls == Calls(hooks[..i + 1], DeadServers(Upsert(servers, serverId, pid, hostname, now), now)) &&
      r.servers == Upsert(servers, serverId, pid, hostname, now)
  {
    var up := Upsert(servers, serverId, pid, hostname, now);
    UpsertDistinct(servers, serverId, pid, hostname, now);
    var dead := DeadServers(up, now);
    if dead == [] then PassResult(up, [], NothingDead)
    else
      var first := FirstThrowing(throwing, 0, |hooks|);
      if first < |hooks| then PassResult(up, Calls(hooks[..first + 1], dead), Aborted(first))
      else
        RemoveDeadExactly(up, now);
        PassResult(RemoveIds(up, dead), Calls(hooks, dead), Completed)
  }

  /** With unique ids, removing the dead ids removes exactly the dead records and keeps every other one unchanged. */
  lemma RemoveDeadExactly(servers: seq<ServerRecord>, now: int)
    requires DistinctIds(servers)
    ensures DistinctIds(RemoveIds(servers, DeadServers(servers, now)))
    ensures forall s :: s in RemoveIds(servers, DeadServers(servers, now)) <==> s in servers && !IsDead(s, now)
  {
    RemoveKeepsDistinct(servers, DeadServers(servers, now));
  }

  lemma {:induction false} RemoveKeepsDistinct(servers: seq<ServerRecord>, dead: seq<string>)
    requires DistinctIds(servers)
    ensures DistinctIds(RemoveIds(servers, dead))
    decreases |servers|
  {
    if |servers| > 0 {
      TailDistinct(servers);
      RemoveKeepsDistinct(servers[1..], dead);
      var rest := RemoveIds(servers[1..], dead);
      forall s | s in rest ensures s.id != servers[0].id {
        var k :| 0 <= k < |servers[1..]| && servers[1..][k] == s;
        assert servers[k + 1] == s;
      }
    }
  }

  /** This server's own record is stamped with `now`, so a pass never reports it dead. */
  lemma OwnServerNeverDead(servers: seq<ServerRecord>, serverId: string, pid: int, hostname: string, now: int)
    requires DistinctIds(servers)
    ensures serverId !in DeadServers(Upsert(servers, serverId, pid, hostname, now), now)
  {
    var up := Upsert(servers, serverId, pid, hostname, now);
    UpsertDistinct(servers, serverId, pid, hostname, now);
  }

  /** The delay before the next pass, `500 + 1000 * Random.fraction()` milliseconds. */
  function NextDelay(fraction: real): (d: real)
    requires 0.0 <= fraction < 1.0
    ensures 500.0 <= d < 1500.0
  {
    500.0 + 1000.0 * fraction
  }

  /** The module's hook registry, this server's id, and the Servers collection. */
  class Collector {
    const serverId: string
    var hooks: seq<HookId>
    var servers: seq<ServerRecord>
    /** Every hook call made so far, oldest first. */
    var calls: seq<HookCall>

    constructor (id: string, servers0: seq<ServerRecord>)
      requires DistinctIds(servers0)
      ensures serverId == id && hooks == [] && servers == servers0 && calls == []
    {
      serverId := id;
      hooks := [];
      servers := servers0;
      calls := [];
    }

    /** `registerPeriodicCleanupHook(f)`: append to the registry, keeping registration order. */
    method RegisterPeriodicCleanupHook(f: HookId)
      modifies this
      ensures hooks == old(hooks) + [f]
      ensures servers == old(servers) && calls == old(calls)
    {
      hooks := hooks + [f];
    }

    /** `cleanup()`: the pass described by `Pass`. */
    method Cleanup(pid: int, hostname: string, now: int, throwing: set<nat>) returns (outcome: PassOutcome)
      requires DistinctIds(servers)
      modifies this
      ensures var r := Pass(old(servers), old(hooks), serverId, pid, hostname, now, throwing);
              servers == r.servers && calls == old(calls) + r.calls && outcome == r.outcome
      ensures hooks == old(hooks)
    {
      UpsertDistinct(servers, serverId, pid, hostname, now);
      servers := Upsert(servers, serverId, pid, hostname, now);
      var dead := DeadServers(servers, now);
      if |dead| == 0 {
        return NothingDead;
      }
      var first := RunHooks(dead, throwing);
      if first < |hooks| {
        return Aborted(first);
      }
      assert hooks[..first] == hooks;
      servers := RemoveIds(servers, dead);
      outcome := Completed;
    }

    /** The `forEach` over the hooks: each is called with the dead ids until one throws. */
    method RunHooks(dead: seq<string>, throwing: set<nat>) returns (first: nat)
      modifies this
      ensures first == FirstThrowing(throwing, 0, |hooks|)
      ensures calls == old(calls) + Calls(hooks[..if first < |hooks| then first + 1 else first], dead)
      ensures hooks == old(hooks) && servers == old(servers)
    {
      var i := 0;
      while i < |hooks|
        invariant 0 <= i <= |hooks|
        invariant hooks == old(hooks) && servers == old(servers)
        invariant forall j :: 0 <= j < i ==> j !in throwing
        invariant calls == old(calls) + Calls(hooks[..i], dead)
      {
        calls := calls + [HookCall(hooks[i], dead)];
        assert Calls(hooks[..i + 1], dead) == Calls(hooks[..i], dead) + [HookCall(hooks[i], dead)];
        if i in throwing {
          FirstThrowingIs(throwing, 0, |hooks|, i);
          return i;
        }
        i := i + 1;
      }
      FirstThrowingIs(throwing, 0, |hooks|, i);
      first := i;
    }

    /** `periodic()`: the next run is scheduled before this pass, so it is scheduled even when a hook throws. */
    method Periodic(fraction: real, pid: int, hostname: string, now: int, throwing: set<nat>)
      returns (delay: real, outcome: PassOutcome)
      requires 0.0 <= fraction < 1.0
      requires DistinctIds(servers)
      modifies this
      ensures 500.0 <= delay < 1500.0
      ensures var r := Pass(old(servers), old(hooks), serverId, pid, hostname, now, throwing);
              servers == r.servers && calls == old(calls) + r.calls && outcome == r.outcome
    {
      delay := NextDelay(fraction);
      outcome := Cleanup(pid, hostname, now, throwing);
    }
  }
}
