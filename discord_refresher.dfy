/**
 * `DiscordClientRefresher`: the per-process owner of the Discord bot
 * session. It holds the current `client`, the bot `token` from the
 * 'discord.bot' setting and the `wakeup` resolver of the connection attempt
 * that is waiting to be told to stand down. Config and flag events drive
 * `updateBotConfig`, `clearBotConfig` and `refreshClient`; the deferred task
 * that `refreshClient` schedules is modelled as explicit steps taken on a
 * `LockTask`, with lock grants, renewals, logins and gateway signals passed
 * in as inputs.
 */
module DiscordClientRefresher {
  import opened Wrappers
  import Setting
  import DiscordCache

  /** `if (this.token)`: a token is usable only when it is set and not the empty string. */
  predicate Truthy(token: Option<string>) {
    token.Some? && token.value != ""
  }

  /** A discord.js `Client`. `destroy()` clears its token, which the deferred task checks before logging in. */
  class GatewayClient {
    var token: Option<string>
    var destroyed: bool

    constructor (t: string)
      ensures token == Some(t) && !destroyed
    {
      token := Some(t);
      destroyed := false;
    }

    method Destroy()
      modifies this
      ensures token == None && destroyed
    {
      token := None;
      destroyed := true;
    }
  }

  /** Where a deferred connection attempt stands. */
  datatype TaskPhase =
    | Scheduled             // deferred, waiting for the 'discord-bot' lock
    | Bailed                // its client's token was cleared before the lock was granted
    | Connecting            // renewing the lock, logging in and filling the caches
    | Racing                // waiting for the first of `wakeup` and `invalidated`
    | Failed                // login or a cache write threw
    | Finished(wokenUp: bool) // the race settled

  /** Which promise of the race at lines 147-150 settled first. */
  datatype RaceWinner = WakeupFirst | InvalidatedFirst

  /** The function handed to `Meteor.defer` at line 86, for one client. */
  class LockTask {
    const client: GatewayClient
    var phase: TaskPhase
    /** The renewal interval of line 97 is set. */
    var renewing: bool
    /** The resolver this task stored in `wakeup` has been called. */
    var wakeupFired: bool

    constructor (c: GatewayClient)
      ensures client == c && phase == Scheduled && !renewing && !wakeupFired
    {
      client := c;
      phase := Scheduled;
      renewing := false;
      wakeupFired := false;
    }
  }

  /** `Map.set` on a JavaScript map: a new key goes last; an existing key keeps its place and takes the new value. */
  function MapSet(m: DiscordCache.Entries, k: DiscordCache.Snowflake, v: DiscordCache.Snapshot): (r: DiscordCache.Entries)
    requires DiscordCache.DistinctKeys(m)
    ensures DiscordCache.DistinctKeys(r)
    ensures DiscordCache.KeySet(r) == DiscordCache.KeySet(m) + {k}
    ensures exists i :: 0 <= i < |r| && r[i] == (k, v)
    ensures |r| == (if k in DiscordCache.KeySet(m) then |m| else |m| + 1)
    ensures forall j :: 0 <= j < |m| ==> r[j] == if m[j].0 == k then (k, v) else m[j]
    ensures k !in DiscordCache.KeySet(m) ==> r[|m|] == (k, v)
  {
    if exists i :: 0 <= i < |m| && m[i].0 == k then
      var i :| 0 <= i < |m| && m[i].0 == k;
      var r := m[i := (k, v)];
      assert DiscordCache.KeySet(r) == DiscordCache.KeySet(m) by {
        forall x | x in DiscordCache.KeySet(m) ensures x in DiscordCache.KeySet(r) {
          var j :| 0 <= j < |m| && m[j].0 == x;
          assert r[j].0 == x;
        }
      }
      assert r[i] == (k, v);
      r
    else
      var r := m + [(k, v)];
      assert DiscordCache.KeySet(r) == DiscordCache.KeySet(m) + {k} by {
        forall x | x in DiscordCache.KeySet(m) ensures x in DiscordCache.KeySet(r) {
          var j :| 0 <= j < |m| && m[j].0 == x;
          assert r[j].0 == x;
        }
        assert r[|m|].0 == k;
      }
      assert r[|m|] == (k, v);
      r
  }

  function SetAll(m: DiscordCache.Entries, roles: DiscordCache.Entries): (r: DiscordCache.Entries)
    requires DiscordCache.DistinctKeys(m)
    ensures DiscordCache.DistinctKeys(r)
    ensures DiscordCache.KeySet(r) == DiscordCache.KeySet(m) + DiscordCache.KeySet(roles)
    decreases |roles|
  {
    if |roles| == 0 then m
    else
      var r := SetAll(MapSet(m, roles[0].0, roles[0].1), roles[1..]);
      KeySetFirst(roles);
      r
  }

  /** A live cache's keys are its first key and the keys of the rest. */
  lemma KeySetFirst(roles: DiscordCache.Entries)
    requires |roles| > 0
    ensures DiscordCache.KeySet(roles) == {roles[0].0} + DiscordCache.KeySet(roles[1..])
  {
    forall x | x in DiscordCache.KeySet(roles) ensures x in {roles[0].0} + DiscordCache.KeySet(roles[1..]) {
      var j :| 0 <= j < |roles| && roles[j].0 == x;
      if j > 0 { assert roles[1..][j - 1] == roles[j]; }
    }
    forall x | x in DiscordCache.KeySet(roles[1..]) ensures x in DiscordCache.KeySet(roles) {
      var j :| 0 <= j < |roles[1..]| && roles[1..][j].0 == x;
      assert roles[j + 1] == roles[1..][j];
    }
  }

  /**
   * The `reduce` of lines 115-122: one map, and for each guild in turn a
   * `forEach` over its role cache calling `roles.set`.
   */
  method CollectRoles(guildRoles: seq<DiscordCache.Entries>) returns (roles: DiscordCache.Entries)
    ensures roles == AllRoles(guildRoles)
  {
    roles := [];
    var g := 0;
    while g < |guildRoles|
      invariant 0 <= g <= |guildRoles|
      invariant roles == AllRoles(guildRoles[..g])
    {
      roles := SetRoles(roles, guildRoles[g]);
      assert guildRoles[..g + 1][..g] == guildRoles[..g];
      g := g + 1;
    }
    assert guildRoles[..g] == guildRoles;
  }

  /** `guild.roles.cache.forEach((r) => roles.set(r.id, r))` at line 120. */
  method SetRoles(m: DiscordCache.Entries, rs: DiscordCache.Entries) returns (roles: DiscordCache.Entries)
    requires DiscordCache.DistinctKeys(m)
    ensures roles == SetAll(m, rs)
  {
    roles := m;
    var i := 0;
    while i < |rs|
      invariant 0 <= i <= |rs|
      invariant DiscordCache.DistinctKeys(roles)
      invariant SetAll(roles, rs[i..]) == SetAll(m, rs)
    {
      assert rs[i..][1..] == rs[i + 1..];
      roles := MapSet(roles, rs[i].0, rs[i].1);
      i := i + 1;
    }
  }

  /** The union of the role caches of every guild. */
  function RoleKeys(guildRoles: seq<DiscordCache.Entries>): set<DiscordCache.Snowflake>
    decreases |guildRoles|
  {
    if |guildRoles| == 0 then {} else RoleKeys(guildRoles[..|guildRoles| - 1]) + DiscordCache.KeySet(guildRoles[|guildRoles| - 1])
  }

  /**
   * `allRoles` at lines 117-123: every guild's role cache is poured into one
   * map, so a role id occurs once, and the key set is the union of the
   * guilds' role ids.
   */
  function AllRoles(guildRoles: seq<DiscordCache.Entries>): (r: DiscordCache.Entries)
    ensures DiscordCache.DistinctKeys(r)
    ensures DiscordCache.KeySet(r) == RoleKeys(guildRoles)
    decreases |guildRoles|
  {
    if |guildRoles| == 0 then []
    else SetAll(AllRoles(guildRoles[..|guildRoles| - 1]), guildRoles[|guildRoles| - 1])
  }

  class Refresher {
    var client: GatewayClient?
    var token: Option<string>
    var wakeup: LockTask?
    /** The config and feature-flag observers are running. */
    var observing: bool
    /** Every connection attempt `refreshClient` has deferred, oldest first. */
    var tasks: seq<LockTask>

    ghost function TaskClients(): set<GatewayClient>
      reads this
    {
      set t | t in tasks :: t.client
    }

    ghost function TaskSet(): set<LockTask>
      reads this
    {
      set t | t in tasks
    }

    /**
     * The part of the invariant that holds at every step: a stored wakeup
     * belongs to an attempt still in its race and not yet woken; every
     * attempt's client is either destroyed (and then has no token) or is the
     * current client; an attempt renews the lock exactly while it connects
     * or races.
     */
    ghost predicate Coherent()
      reads this, client, wakeup, TaskSet(), TaskClients()
    {
      && (client != null ==> !client.destroyed)
      && (wakeup != null ==> wakeup.phase == Racing && !wakeup.wakeupFired)
      && (forall t :: t in tasks ==> (t.client.destroyed <==> t.client.token == None))
      && (forall t :: t in tasks && !t.client.destroyed ==> t.client == client)
      && (forall t :: t in tasks ==> (t.renewing <==> t.phase == Connecting || t.phase == Racing))
    }

    /** The refresher's invariant: besides `Coherent()`, a live client carries the current, usable token. */
    ghost predicate Valid()
      reads this, client, wakeup, TaskSet(), TaskClients()
    {
      && Coherent()
      && (client != null ==> client.token == token && Truthy(token))
    }

    /**
     * The constructor starts with no client and no token and starts both
     * observers. Starting the settings observer delivers the 'discord.bot'
     * document already stored, if any, to its `added` callback before the
     * constructor returns; `initial` is that document.
     */
    constructor (initial: Option<Setting.Setting>, discordDisabled: bool)
      ensures Valid()
      ensures observing && wakeup == null
      ensures initial.None? ==> client == null && token == None && tasks == []
      ensures initial.Some? && !initial.value.DiscordBot? ==> client == null && token == None && tasks == []
      ensures initial.Some? && initial.value.DiscordBot? ==>
        token == Some(initial.value.token) && Refreshed(null, null, [], discordDisabled)
      ensures Ready() <==> initial.Some? && initial.value.DiscordBot? && !discordDisabled && initial.value.token != ""
    {
      client := null;
      token := None;
      wakeup := null;
      observing := true;
      tasks := [];
      new;
      if initial.Some? {
        UpdateBotConfig(initial.value, discordDisabled);
      }
    }

    /** `ready()`: the refresher has a client. */
    predicate Ready()
      reads this
    {
      client != null
    }

    /** `shutdown()`: stop both observers, then `clearBotConfig()`; no client is left. */
    method Shutdown(discordDisabled: bool)
      requires Valid()
      modifies this, client, wakeup
      ensures Valid()
      ensures !observing && token == None && client == null && wakeup == null && !Ready()
      ensures old(client) != null ==> old(client).destroyed
      ensures old(wakeup) != null ==> old(wakeup).wakeupFired
      ensures tasks == old(tasks)
    {
      observing := false;
      ClearBotConfig(discordDisabled);
    }

    /** `updateBotConfig(doc)`: a document that is not 'discord.bot' is ignored, otherwise the token is replaced and the client refreshed. */
    method UpdateBotConfig(doc: Setting.Setting, discordDisabled: bool)
      requires Valid()
      modifies this, client, wakeup
      ensures Valid()
      ensures !doc.DiscordBot? ==>
        client == old(client) && token == old(token) && wakeup == old(wakeup) && tasks == old(tasks) &&
        (old(client) != null ==> unchanged(old(client))) && (old(wakeup) != null ==> unchanged(old(wakeup)))
      ensures doc.DiscordBot? ==> token == Some(doc.token) && Refreshed(old(client), old(wakeup), old(tasks), discordDisabled)
      ensures doc.DiscordBot? ==> (Ready() <==> !discordDisabled && doc.token != "")
      ensures observing == old(observing)
    {
      if !doc.DiscordBot? {
        return;
      }
      token := Some(doc.token);
      RefreshClient(discordDisabled);
    }

    /** `clearBotConfig()`: the token is unset, then the client refreshed, which leaves no client. */
    method ClearBotConfig(discordDisabled: bool)
      requires Valid()
      modifies this, client, wakeup
      ensures Valid()
      ensures token == None && Refreshed(old(client), old(wakeup), old(tasks), discordDisabled)
      ensures client == null && tasks == old(tasks)
      ensures observing == old(observing)
    {
      token := None;
      RefreshClient(discordDisabled);
    }

    /**
     * The state `refreshClient()` leaves behind, given the client, wakeup
     * and attempts it started from: the old client is destroyed, the old
     * wakeup has been fired and cleared, and a fresh client with the current
     * token (and one new attempt) exists exactly when Discord is not
     * disabled and the token is usable.
     */
    ghost predicate Refreshed(oldClient: GatewayClient?, oldWakeup: LockTask?, oldTasks: seq<LockTask>, discordDisabled: bool)
      reads this, client, oldClient, oldWakeup, TaskSet()
    {
      && (oldClient != null ==> oldClient.destroyed && oldClient.token == None)
      && (oldWakeup != null ==> oldWakeup.wakeupFired)
      && wakeup == null
      && if !discordDisabled && Truthy(token) then
           && client != null && client.token == token && !client.destroyed
           && |tasks| == |oldTasks| + 1 && tasks[..|oldTasks|] == oldTasks
           && tasks[|oldTasks|].client == client && tasks[|oldTasks|].phase == Scheduled
           && !tasks[|oldTasks|].renewing
         else client == null && tasks == oldTasks
    }

    /**
     * `refreshClient()`: destroy and drop any client, fire and drop any
     * pending wakeup, and only then consult 'disable.discord'; with Discord
     * enabled and a usable token, create a client carrying the token and
     * defer one connection attempt for it.
     */
    method RefreshClient(discordDisabled: bool)
      requires Coherent()
      modifies this, client, wakeup
      ensures Valid()
      ensures Refreshed(old(client), old(wakeup), old(tasks), discordDisabled)
      ensures Ready() <==> !discordDisabled && Truthy(token)
      ensures client != null ==> fresh(client) && fresh(tasks[|tasks| - 1])
      ensures token == old(token) && observing == old(observing)
      ensures old(wakeup) != null ==>
        old(wakeup).phase == old(wakeup.phase) && old(wakeup).renewing == old(wakeup.renewing)
    {
      StandDown();
      if discordDisabled {
        return;
      }
      if Truthy(token) {
        var c := new GatewayClient(token.value);
        client := c;
        var t := new LockTask(c);
        tasks := tasks + [t];
        assert tasks[..|old(tasks)|] == old(tasks);
      }
    }

    /** The first half of `refreshClient()`: destroy and drop the client, then fire and drop the wakeup. */
    method StandDown()
      requires Coherent()
      modifies this, client, wakeup
      ensures Coherent() && client == null && wakeup == null
      ensures old(client) != null ==> old(client).destroyed && old(client).token == None
      ensures old(wakeup) != null ==>
        old(wakeup).wakeupFired && old(wakeup).phase == old(wakeup.phase) && old(wakeup).renewing == old(wakeup.renewing)
      ensures token == old(token) && observing == old(observing) && tasks == old(tasks)
    {
      if client != null {
        client.Destroy();
        client := null;
      }
      if wakeup != null {
        wakeup.wakeupFired := true;
        wakeup := null;
      }
    }

    /**
     * The lock was granted and the deferred function starts. If its
     * client's token is gone it returns at once; otherwise it starts renewing
     * the lock and logs in, with `this.token`, which then is the client's own.
     */
    method LockGranted(t: LockTask)
      requires Valid() && t in tasks && t.phase == Scheduled
      modifies t
      ensures Valid()
      ensures old(t.client.token) == None ==> t.phase == Bailed && !t.renewing
      ensures old(t.client.token) != None ==>
        t.phase == Connecting && t.renewing && t.client == client && t.client.token == token
      ensures t.wakeupFired == old(t.wakeupFired)
    {
      if t.client.token == None {
        t.phase := Bailed;
        return;
      }
      t.renewing := true;
      t.phase := Connecting;
    }

    /** A periodic renewal: a failure means the lock was lost, and the client is refreshed. */
    method RenewTick(t: LockTask, renewed: bool, discordDisabled: bool)
      requires Valid() && t in tasks && t.renewing
      modifies this, client, wakeup
      ensures Valid()
      ensures renewed ==> client == old(client) && wakeup == old(wakeup) && tasks == old(tasks) && (old(client) != null ==> unchanged(old(client))) && (old(wakeup) != null ==> unchanged(old(wakeup)))
      ensures !renewed ==> Refreshed(old(client), old(wakeup), old(tasks), discordDisabled)
      ensures token == old(token)
    {
      if !renewed {
        RefreshClient(discordDisabled);
      }
    }

    /** Login, the `ready` wait or a cache write threw: the `finally` clears the renewal interval. */
    method ConnectFailed(t: LockTask)
      requires Valid() && t in tasks && t.phase == Connecting
      modifies t
      ensures Valid()
      ensures t.phase == Failed && !t.renewing
    {
      t.phase := Failed;
      t.renewing := false;
    }

    /**
     * The client is ready: the guild, channel and role caches are resynced,
     * and the task stores a fresh wakeup resolver and enters the race. A
     * wakeup stored by another attempt is overwritten, as at line 144.
     */
    method Connected(t: LockTask, cache: DiscordCache.CacheTable,
                     guilds: DiscordCache.Entries, channels: DiscordCache.Entries,
                     guildRoles: seq<DiscordCache.Entries>)
      requires Valid() && t in tasks && t.phase == Connecting
      requires DiscordCache.DistinctKeys(guilds) && DiscordCache.DistinctKeys(channels)
      modifies this, t, cache
      ensures Valid()
      ensures t.phase == Racing && !t.wakeupFired && t.renewing == old(t.renewing) && wakeup == t
      ensures client == old(client) && token == old(token) && tasks == old(tasks) && observing == old(observing)
      ensures cache.rows == CachedAsWritten(old(cache.rows), guilds, channels, guildRoles)
      ensures DiscordCache.IdsOfType(cache.rows, "guild") ==
        DiscordCache.KeySet(guilds) + (DiscordCache.IdsOfType(old(cache.rows), "guild") * DiscordCache.SpreadKeySet(guilds))
      ensures DiscordCache.IdsOfType(cache.rows, "channel") ==
        DiscordCache.KeySet(channels) + (DiscordCache.IdsOfType(old(cache.rows), "channel") * DiscordCache.SpreadKeySet(channels))
      ensures DiscordCache.IdsOfType(cache.rows, "role") ==
        RoleKeys(guildRoles) + (DiscordCache.IdsOfType(old(cache.rows), "role") * DiscordCache.SpreadKeySet(AllRoles(guildRoles)))
      ensures DiscordCache.NoOneCharIds(old(cache.rows), "guild") ==> DiscordCache.IdsOfType(cache.rows, "guild") == DiscordCache.KeySet(guilds)
      ensures DiscordCache.NoOneCharIds(old(cache.rows), "channel") ==> DiscordCache.IdsOfType(cache.rows, "channel") == DiscordCache.KeySet(channels)
      ensures DiscordCache.NoOneCharIds(old(cache.rows), "role") ==> DiscordCache.IdsOfType(cache.rows, "role") == RoleKeys(guildRoles)
    {
      CacheResources(cache, guilds, channels, guildRoles);
      EnterRace(t);
    }

    /** Lines 142-150: store a fresh wakeup resolver and wait on the race. */
    method EnterRace(t: LockTask)
      requires Valid() && t in tasks && t.phase == Connecting
      modifies this, t
      ensures Valid()
      ensures t.phase == Racing && !t.wakeupFired && t.renewing == old(t.renewing) && wakeup == t
      ensures client == old(client) && token == old(token) && tasks == old(tasks) && observing == old(observing)
    {
      t.wakeupFired := false;
      wakeup := t;
      t.phase := Racing;
    }

    /**
     * The race settles. Woken up first: another `refreshClient` already ran,
     * and nothing more happens. Invalidated first: the task refreshes the
     * client itself. Either way the `finally` clears the renewal interval.
     */
    method RaceSettled(t: LockTask, winner: RaceWinner, discordDisabled: bool)
      requires Valid() && t in tasks && t.phase == Racing
      requires winner == WakeupFirst ==> t.wakeupFired
      modifies this, client, wakeup, t
      ensures Valid()
      ensures t.phase == Finished(winner == WakeupFirst) && !t.renewing
      ensures winner == WakeupFirst ==>
        client == old(client) && wakeup == old(wakeup) && tasks == old(tasks) && (old(client) != null ==> unchanged(old(client)))
      ensures winner == InvalidatedFirst ==> Refreshed(old(client), old(wakeup), old(tasks), discordDisabled)
      ensures token == old(token)
    {
      if winner == InvalidatedFirst {
        RefreshClient(discordDisabled);
      }
      t.renewing := false;
      t.phase := Finished(winner == WakeupFirst);
    }
  }

  /** The part of a Discord user the sync copies. */
  datatype DiscordUser = DiscordUser(id: DiscordCache.Snowflake, username: string, discriminator: string, avatar: Option<string>)

  /** A MeteorUsers document's linked Discord account; `rest` stands for the account's other fields. */
  datatype DiscordAccount = DiscordAccount(id: DiscordCache.Snowflake, username: string, discriminator: string,
                                           avatar: Option<string>, rest: string)
  datatype MeteorUser = MeteorUser(id: string, discordAccount: Option<DiscordAccount>)

  /** A user linked to the Discord account `id`. */
  predicate LinkedTo(u: MeteorUser, id: DiscordCache.Snowflake) {
    u.discordAccount.Some? && u.discordAccount.value.id == id
  }

  /** `updateUser(u)`: a multi-update setting username, discriminator and avatar on every user linked to `u`. */
  function UpdateUser(users: seq<MeteorUser>, u: DiscordUser): (r: seq<MeteorUser>)
    ensures |r| == |users|
    ensures forall k :: 0 <= k < |users| ==> r[k].id == users[k].id && (LinkedTo(r[k], u.id) <==> LinkedTo(users[k], u.id))
    ensures forall k :: 0 <= k < |users| && LinkedTo(users[k], u.id) ==>
      r[k].discordAccount == Some(users[k].discordAccount.value.(username := u.username, discriminator := u.discriminator, avatar := u.avatar))
    ensures forall k :: 0 <= k < |users| && !LinkedTo(users[k], u.id) ==> r[k] == users[k]
  {
    seq(|users|, k requires 0 <= k < |users| =>
      if LinkedTo(users[k], u.id)
      then users[k].(discordAccount := Some(users[k].discordAccount.value.(username := u.username, discriminator := u.discriminator, avatar := u.avatar)))
      else users[k])
  }

  /** `client.users.cache.forEach(updateUser)`, in the cache's order. */
  function UpdateUsers(users: seq<MeteorUser>, cached: seq<DiscordUser>): (r: seq<MeteorUser>)
    ensures |r| == |users|
    decreases |cached|
  {
    if |cached| == 0 then users else UpdateUser(UpdateUsers(users, cached[..|cached| - 1]), cached[|cached| - 1])
  }

  /** The MeteorUsers collection, as the refresher's user sync writes it. */
  class UserCollection {
    var users: seq<MeteorUser>

    constructor (users0: seq<MeteorUser>)
      ensures users == users0
    {
      users := users0;
    }

    /** The `userUpdate` handler of line 139: one `updateUser` call. */
    method UserUpdated(u: DiscordUser)
      modifies this
      ensures users == UpdateUser(old(users), u)
    {
      users := UpdateUser(users, u);
    }

    /** `client.users.cache.forEach(updateUser)` at line 140. */
    method SyncCachedUsers(cached: seq<DiscordUser>)
      modifies this
      ensures users == UpdateUsers(old(users), cached)
    {
      var i := 0;
      while i < |cached|
        invariant 0 <= i <= |cached|
        invariant users == UpdateUsers(old(users), cached[..i])
      {
        assert cached[..i + 1][..i] == cached[..i];
        users := UpdateUser(users, cached[i]);
        i := i + 1;
      }
      assert cached[..i] == cached;
    }
  }

  /** The last cached Discord user with this id. */
  function LastCached(cached: seq<DiscordUser>, id: DiscordCache.Snowflake): (r: Option<DiscordUser>)
    ensures r.None? <==> forall c :: c in cached ==> c.id != id
    ensures r.Some? ==> r.value in cached && r.value.id == id
  {
    if |cached| == 0 then None
    else if cached[|cached| - 1].id == id then Some(cached[|cached| - 1])
    else
      assert forall c :: c in cached <==> c in cached[..|cached| - 1] || c == cached[|cached| - 1];
      LastCached(cached[..|cached| - 1], id)
  }

  /**
   * After the sync, a user linked to a cached Discord user carries that
   * user's (last cached) username, discriminator and avatar; every other
   * user is untouched. Which account a user is linked to never changes.
   */
  lemma {:induction false} UpdateUsersAt(users: seq<MeteorUser>, cached: seq<DiscordUser>, k: nat)
    requires k < |users|
    ensures var r := UpdateUsers(users, cached);
            r[k].id == users[k].id && r[k].discordAccount.Some? == users[k].discordAccount.Some? &&
            (users[k].discordAccount.Some? ==>
              var a := users[k].discordAccount.value;
              var c := LastCached(cached, a.id);
              r[k].discordAccount.value ==
                if c.Some? then a.(username := c.value.username, discriminator := c.value.discriminator, avatar := c.value.avatar)
                else a)
    decreases |cached|
  {
    if |cached| > 0 {
      var init := cached[..|cached| - 1];
      UpdateUsersAt(users, init, k);
    }
  }

  /** The three `cacheResource` calls of lines 113-124, one resource type after another. */
  method CacheResources(cache: DiscordCache.CacheTable, guilds: DiscordCache.Entries, channels: DiscordCache.Entries,
                        guildRoles: seq<DiscordCache.Entries>)
    requires DiscordCache.DistinctKeys(guilds) && DiscordCache.DistinctKeys(channels)
    modifies cache
    ensures cache.rows == CachedAsWritten(old(cache.rows), guilds, channels, guildRoles)
    ensures DiscordCache.IdsOfType(cache.rows, "guild") ==
      DiscordCache.KeySet(guilds) + (DiscordCache.IdsOfType(old(cache.rows), "guild") * DiscordCache.SpreadKeySet(guilds))
    ensures DiscordCache.IdsOfType(cache.rows, "channel") ==
      DiscordCache.KeySet(channels) + (DiscordCache.IdsOfType(old(cache.rows), "channel") * DiscordCache.SpreadKeySet(channels))
    ensures DiscordCache.IdsOfType(cache.rows, "role") ==
      RoleKeys(guildRoles) + (DiscordCache.IdsOfType(old(cache.rows), "role") * DiscordCache.SpreadKeySet(AllRoles(guildRoles)))
    ensures DiscordCache.NoOneCharIds(old(cache.rows), "guild") ==> DiscordCache.IdsOfType(cache.rows, "guild") == DiscordCache.KeySet(guilds)
    ensures DiscordCache.NoOneCharIds(old(cache.rows), "channel") ==> DiscordCache.IdsOfType(cache.rows, "channel") == DiscordCache.KeySet(channels)
    ensures DiscordCache.NoOneCharIds(old(cache.rows), "role") ==> DiscordCache.IdsOfType(cache.rows, "role") == RoleKeys(guildRoles)
  {
    ghost var before := cache.rows;
    cache.ResyncTypeAsWritten("guild", guilds);
    cache.ResyncTypeAsWritten("channel", channels);
    var roles := CollectRoles(guildRoles);
    cache.ResyncTypeAsWritten("role", roles);
    ghost var after := cache.rows;
    assert after == CachedAsWritten(before, guilds, channels, guildRoles);
    CachedIds(before, guilds, channels, guildRoles);
    CachedLiveIds(before, guilds, channels, guildRoles);
  }

  /** The three resyncs of `cacheResource`, as written at line 179, one resource type after another. */
  function CachedAsWritten(rows: DiscordCache.Table, guilds: DiscordCache.Entries, channels: DiscordCache.Entries,
                                 guildRoles: seq<DiscordCache.Entries>): DiscordCache.Table
  {
    DiscordCache.ResyncAsWritten(DiscordCache.ResyncAsWritten(DiscordCache.ResyncAsWritten(rows, "guild", guilds), "channel", channels),
                                 "role", AllRoles(guildRoles))
  }

  /** A resync of type `t` leaves the cached ids of every other type as they were. */
  lemma ResyncOtherIds(rows: DiscordCache.Table, t: string, entries: DiscordCache.Entries, u: string)
    requires DiscordCache.DistinctKeys(entries) && u != t
    ensures DiscordCache.IdsOfType(DiscordCache.ResyncAsWritten(rows, t, entries), u) == DiscordCache.IdsOfType(rows, u)
  {
    DiscordCache.ResyncAsWrittenFrame(rows, t, entries);
    SameIdsOfOtherType(rows, DiscordCache.ResyncAsWritten(rows, t, entries), u, t);
  }

  /** The cached ids of each type after the three resyncs as written. */
  lemma CachedIds(rows: DiscordCache.Table, guilds: DiscordCache.Entries, channels: DiscordCache.Entries,
                  guildRoles: seq<DiscordCache.Entries>)
    requires DiscordCache.DistinctKeys(guilds) && DiscordCache.DistinctKeys(channels)
    ensures DiscordCache.IdsOfType(CachedAsWritten(rows, guilds, channels, guildRoles), "guild") ==
      DiscordCache.KeySet(guilds) + (DiscordCache.IdsOfType(rows, "guild") * DiscordCache.SpreadKeySet(guilds))
    ensures DiscordCache.IdsOfType(CachedAsWritten(rows, guilds, channels, guildRoles), "channel") ==
      DiscordCache.KeySet(channels) + (DiscordCache.IdsOfType(rows, "channel") * DiscordCache.SpreadKeySet(channels))
    ensures DiscordCache.IdsOfType(CachedAsWritten(rows, guilds, channels, guildRoles), "role") ==
      RoleKeys(guildRoles) + (DiscordCache.IdsOfType(rows, "role") * DiscordCache.SpreadKeySet(AllRoles(guildRoles)))
  {
    var roles := AllRoles(guildRoles);
    var afterGuilds := DiscordCache.ResyncAsWritten(rows, "guild", guilds);
    var afterChannels := DiscordCache.ResyncAsWritten(afterGuilds, "channel", channels);
    DiscordCache.ResyncAsWrittenIds(rows, "guild", guilds);
    DiscordCache.ResyncAsWrittenIds(afterGuilds, "channel", channels);
    DiscordCache.ResyncAsWrittenIds(afterChannels, "role", roles);
    ResyncOtherIds(rows, "guild", guilds, "channel");
    ResyncOtherIds(rows, "guild", guilds, "role");
    ResyncOtherIds(afterGuilds, "channel", channels, "guild");
    ResyncOtherIds(afterGuilds, "channel", channels, "role");
    ResyncOtherIds(afterChannels, "role", roles, "guild");
    ResyncOtherIds(afterChannels, "role", roles, "channel");
  }

  /** Without one-character cached ids, each type's cached ids end equal to its live keys. */
  lemma CachedLiveIds(rows: DiscordCache.Table, guilds: DiscordCache.Entries, channels: DiscordCache.Entries,
                      guildRoles: seq<DiscordCache.Entries>)
    requires DiscordCache.DistinctKeys(guilds) && DiscordCache.DistinctKeys(channels)
    ensures DiscordCache.NoOneCharIds(rows, "guild") ==>
      DiscordCache.IdsOfType(CachedAsWritten(rows, guilds, channels, guildRoles), "guild") == DiscordCache.KeySet(guilds)
    ensures DiscordCache.NoOneCharIds(rows, "channel") ==>
      DiscordCache.IdsOfType(CachedAsWritten(rows, guilds, channels, guildRoles), "channel") == DiscordCache.KeySet(channels)
    ensures DiscordCache.NoOneCharIds(rows, "role") ==>
      DiscordCache.IdsOfType(CachedAsWritten(rows, guilds, channels, guildRoles), "role") == RoleKeys(guildRoles)
  {
    CachedIds(rows, guilds, channels, guildRoles);
    if DiscordCache.NoOneCharIds(rows, "guild") { ShortIdsDropOut(rows, "guild", guilds); }
    if DiscordCache.NoOneCharIds(rows, "channel") { ShortIdsDropOut(rows, "channel", channels); }
    if DiscordCache.NoOneCharIds(rows, "role") { ShortIdsDropOut(rows, "role", AllRoles(guildRoles)); }
  }

  /** Without one-character cached ids, no old id survives through the first key's characters. */
  lemma ShortIdsDropOut(rows: DiscordCache.Table, t: string, entries: DiscordCache.Entries)
    requires DiscordCache.NoOneCharIds(rows, t)
    ensures DiscordCache.IdsOfType(rows, t) * DiscordCache.SpreadKeySet(entries) == {}
  {
    forall x | x in DiscordCache.IdsOfType(rows, t) ensures x !in DiscordCache.SpreadKeySet(entries) {
    }
  }

  /** Resyncing another type leaves the cached ids of `t` as they were. */
  lemma SameIdsOfOtherType(before: DiscordCache.Table, after: DiscordCache.Table, t: string, other: string)
    requires t != other
    requires forall k: DiscordCache.Key :: k.0 != other ==> (k in after <==> k in before)
    ensures DiscordCache.IdsOfType(after, t) == DiscordCache.IdsOfType(before, t)
  {
    forall x | x in DiscordCache.IdsOfType(after, t) ensures x in DiscordCache.IdsOfType(before, t) {
      assert (t, x) in after;
    }
    forall x | x in DiscordCache.IdsOfType(before, t) ensures x in DiscordCache.IdsOfType(after, t) {
      assert (t, x) in before;
    }
  }
}
