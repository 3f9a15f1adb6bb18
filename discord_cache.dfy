/**
 * The DiscordCache collection and the resynchronisation that
 * `DiscordClientRefresher.cacheResource` performs on it: a full resync of
 * one resource type against the live discord.js cache, then one upsert or
 * delete per gateway event.
 */
module DiscordCache {

  type Snowflake = string

  /** The `toJSON()` snapshot of a Discord object, whose contents the model does not inspect. */
  datatype Snapshot = Snapshot(json: string)

  /** A live discord.js cache (`ReadonlyMap<Snowflake, T>`) in its iteration order. */
  type Entries = seq<(Snowflake, Snapshot)>

  /** The DiscordCache collection: one row per `(type, snowflake)`, holding `object`. */
  type Key = (string, Snowflake)
  type Table = map<Key, Snapshot>

  /** A JavaScript `Map` never holds a key twice. */
  predicate DistinctKeys(entries: Entries) {
    forall i, j :: 0 <= i < j < |entries| ==> entries[i].0 != entries[j].0
  }

  /** The key set of a live cache. */
  function KeySet(entries: Entries): set<Snowflake> {
    set i | 0 <= i < |entries| :: entries[i].0
  }

  /** `DiscordCache.find({ type }).map((c) => c.snowflake)`, as a set. */
  function IdsOfType(rows: Table, t: string): set<Snowflake> {
    set k | k in rows && k.0 == t :: k.1
  }

  /**
   * `new Set(...cache.keys())` as written: the spread passes the keys as
   * separate arguments, and `Set` only looks at its first one, a string,
   * which it iterates character by character.
   */
  function SpreadKeySet(entries: Entries): (r: set<Snowflake>)
    ensures forall x :: x in r ==> |x| == 1
    ensures entries == [] ==> r == {}
  {
    if |entries| == 0 then {} else set c | c in entries[0].0 :: [c]
  }

  /** `DiscordCache.removeAsync({ type, snowflake: { $in: ids } })`. */
  function RemoveIds(rows: Table, t: string, ids: set<Snowflake>): (r: Table)
    ensures forall k: Key :: k in r <==> k in rows && !(k.0 == t && k.1 in ids)
    ensures forall k: Key :: k in r ==> r[k] == rows[k]
  {
    map k | k in rows && !(k.0 == t && k.1 in ids) :: rows[k]
  }

  /** The sequential upsert of every live entry, in iteration order. */
  function UpsertAll(rows: Table, t: string, entries: Entries): Table
    decreases |entries|
  {
    if |entries| == 0 then rows
    else UpsertAll(rows[(t, entries[0].0) := entries[0].1], t, entries[1..])
  }

  /** Full resync as written at line 179: old ids outside `SpreadKeySet` are deleted, then every live entry is upserted. */
  function ResyncAsWritten(rows: Table, t: string, entries: Entries): Table {
    var toDelete := set x | x in IdsOfType(rows, t) && x !in SpreadKeySet(entries);
    UpsertAll(RemoveIds(rows, t, toDelete), t, entries)
  }

  /** Full resync as intended: the old ids that are not live keys are deleted, then every live entry is upserted. */
  function Resync(rows: Table, t: string, entries: Entries): Table {
    var toDelete := set x | x in IdsOfType(rows, t) && x !in KeySet(entries);
    UpsertAll(RemoveIds(rows, t, toDelete), t, entries)
  }

  /** What the upsert loop leaves: exactly the old rows plus the live keys of `t`, each live key holding its live snapshot. */
  lemma {:induction false} UpsertAllAt(rows: Table, t: string, entries: Entries)
    requires DistinctKeys(entries)
    ensures forall k: Key :: k in UpsertAll(rows, t, entries) <==> k in rows || (k.0 == t && k.1 in KeySet(entries))
    ensures forall i :: 0 <= i < |entries| ==>
      (t, entries[i].0) in UpsertAll(rows, t, entries) && UpsertAll(rows, t, entries)[(t, entries[i].0)] == entries[i].1
    ensures forall k: Key :: k in rows && !(k.0 == t && k.1 in KeySet(entries)) ==> UpsertAll(rows, t, entries)[k] == rows[k]
    decreases |entries|
  {
    if |entries| > 0 {
      var rest := entries[1..];
      var rows' := rows[(t, entries[0].0) := entries[0].1];
      assert DistinctKeys(rest) by {
        forall i, j | 0 <= i < j < |rest| ensures rest[i].0 != rest[j].0 {
          assert rest[i] == entries[i + 1] && rest[j] == entries[j + 1];
        }
      }
      UpsertAllAt(rows', t, rest);
      assert KeySet(entries) == {entries[0].0} + KeySet(rest) by {
        forall x | x in KeySet(entries) ensures x in {entries[0].0} + KeySet(rest) {
          var i :| 0 <= i < |entries| && entries[i].0 == x;
          if i > 0 { assert rest[i - 1] == entries[i]; }
        }
        forall x | x in KeySet(rest) ensures x in KeySet(entries) {
          var i :| 0 <= i < |rest| && rest[i].0 == x;
          assert entries[i + 1] == rest[i];
        }
      }
      assert entries[0].0 !in KeySet(rest) by {
        forall i | 0 <= i < |rest| ensures rest[i].0 != entries[0].0 {
          assert rest[i] == entries[i + 1];
        }
      }
      forall i | 0 <= i < |entries|
        ensures (t, entries[i].0) in UpsertAll(rows, t, entries) && UpsertAll(rows, t, entries)[(t, entries[i].0)] == entries[i].1
      {
        if i > 0 { assert rest[i - 1] == entries[i]; }
      }
    }
  }

  /**
   * After the (intended) full resync, the cached snowflakes of `t` are exactly
   * the live keys, each row holds the live snapshot, and rows of other types
   * are untouched.
   */
  lemma ResyncCorrect(rows: Table, t: string, entries: Entries)
    requires DistinctKeys(entries)
    ensures IdsOfType(Resync(rows, t, entries), t) == KeySet(entries)
    ensures forall i :: 0 <= i < |entries| ==>
      (t, entries[i].0) in Resync(rows, t, entries) && Resync(rows, t, entries)[(t, entries[i].0)] == entries[i].1
    ensures forall k: Key :: k.0 != t ==> (k in Resync(rows, t, entries) <==> k in rows)
    ensures forall k: Key :: k.0 != t && k in rows ==> Resync(rows, t, entries)[k] == rows[k]
  {
    var toDelete := set x | x in IdsOfType(rows, t) && x !in KeySet(entries);
    var removed := RemoveIds(rows, t, toDelete);
    UpsertAllAt(removed, t, entries);
    var r := Resync(rows, t, entries);
    forall x | x in IdsOfType(r, t) ensures x in KeySet(entries) {
      assert (t, x) in r;
    }
    forall x | x in KeySet(entries) ensures x in IdsOfType(r, t) {
      assert (t, x) in r;
    }
  }

  /** Re-running the full resync with an unchanged live cache changes nothing. */
  lemma ResyncIdempotent(rows: Table, t: string, entries: Entries)
    requires DistinctKeys(entries)
    ensures Resync(Resync(rows, t, entries), t, entries) == Resync(rows, t, entries)
  {
    var once := Resync(rows, t, entries);
    var twice := Resync(once, t, entries);
    ResyncCorrect(rows, t, entries);
    ResyncCorrect(once, t, entries);
    forall k | k in twice ensures k in once && twice[k] == once[k] {
      if k.0 == t {
        assert k.1 in IdsOfType(twice, t);
        var i :| 0 <= i < |entries| && entries[i].0 == k.1;
      }
    }
    forall k | k in once ensures k in twice {
      if k.0 == t { assert k.1 in IdsOfType(once, t); }
    }
  }

  /**
   * The line-179 quirk is harmless while no cached snowflake of `t` is a
   * single character: every old id then falls outside `SpreadKeySet`, is
   * deleted, and the live ones are upserted again.
   */
  lemma ResyncAsWrittenAgrees(rows: Table, t: string, entries: Entries)
    requires DistinctKeys(entries)
    requires forall x :: x in IdsOfType(rows, t) ==> |x| != 1
    ensures ResyncAsWritten(rows, t, entries) == Resync(rows, t, entries)
  {
    var written := ResyncAsWritten(rows, t, entries);
    var intended := Resync(rows, t, entries);
    var delW := set x | x in IdsOfType(rows, t) && x !in SpreadKeySet(entries);
    var delI := set x | x in IdsOfType(rows, t) && x !in KeySet(entries);
    UpsertAllAt(RemoveIds(rows, t, delW), t, entries);
    UpsertAllAt(RemoveIds(rows, t, delI), t, entries);
    assert delW == IdsOfType(rows, t);
    forall k | k in written ensures k in intended && written[k] == intended[k] {
      if k.0 == t && k.1 in KeySet(entries) {
        var i :| 0 <= i < |entries| && entries[i].0 == k.1;
      }
    }
    forall k | k in intended ensures k in written {
      if !(k.0 == t && k.1 in KeySet(entries)) {
        assert k in RemoveIds(rows, t, delI);
        assert k.0 == t ==> k.1 in IdsOfType(rows, t);
      }
    }
  }

  /** What the resync as written leaves of the other types: their rows are untouched. */
  lemma ResyncAsWrittenFrame(rows: Table, t: string, entries: Entries)
    requires DistinctKeys(entries)
    ensures forall k: Key :: k.0 != t ==> (k in ResyncAsWritten(rows, t, entries) <==> k in rows)
    ensures forall k: Key :: k.0 != t && k in rows ==> ResyncAsWritten(rows, t, entries)[k] == rows[k]
  {
    var toDelete := set x | x in IdsOfType(rows, t) && x !in SpreadKeySet(entries);
    UpsertAllAt(RemoveIds(rows, t, toDelete), t, entries);
  }

  /**
   * The cached snowflakes of `t` after the resync as written: the live keys,
   * plus every old id that happens to be one of the first key's characters.
   */
  lemma ResyncAsWrittenIds(rows: Table, t: string, entries: Entries)
    requires DistinctKeys(entries)
    ensures IdsOfType(ResyncAsWritten(rows, t, entries), t) == KeySet(entries) + (IdsOfType(rows, t) * SpreadKeySet(entries))
  {
    var toDelete := set x | x in IdsOfType(rows, t) && x !in SpreadKeySet(entries);
    var removed := RemoveIds(rows, t, toDelete);
    UpsertAllAt(removed, t, entries);
    var r := ResyncAsWritten(rows, t, entries);
    forall x | x in IdsOfType(r, t) ensures x in KeySet(entries) + (IdsOfType(rows, t) * SpreadKeySet(entries)) {
      assert (t, x) in r;
      if x !in KeySet(entries) {
        assert (t, x) in removed;
      }
    }
    forall x | x in KeySet(entries) + (IdsOfType(rows, t) * SpreadKeySet(entries)) ensures x in IdsOfType(r, t) {
      if x !in KeySet(entries) {
        assert (t, x) in rows;
        assert (t, x) in removed;
      }
      assert (t, x) in r;
    }
  }

  /** No cached snowflake of `t` is a single character, as holds for Discord's 17-19 digit ids. */
  predicate NoOneCharIds(rows: Table, t: string) {
    forall x :: x in IdsOfType(rows, t) ==> |x| != 1
  }

  /**
   * Counterexample to "the cached ids of `t` equal the live keys" for the
   * code as written: a cached one-character snowflake "1" survives a resync
   * whose first live key is "12".
   */
  lemma ResyncAsWrittenKeepsStaleRow()
    ensures var rows := map[("guild", "1") := Snapshot("stale")];
            var entries := [("12", Snapshot("live"))];
            ("guild", "1") in ResyncAsWritten(rows, "guild", entries) &&
            IdsOfType(ResyncAsWritten(rows, "guild", entries), "guild") != KeySet(entries)
  {
    var rows := map[("guild", "1") := Snapshot("stale")];
    var entries := [("12", Snapshot("live"))];
    assert "12"[0] == '1';
    assert "1" in SpreadKeySet(entries) by { assert ['1'] == "1"; }
    var toDelete := set x | x in IdsOfType(rows, "guild") && x !in SpreadKeySet(entries);
    assert toDelete == {};
    var removed := RemoveIds(rows, "guild", toDelete);
    assert ("guild", "1") in removed;
    UpsertAllAt(removed, "guild", entries);
    var r := ResyncAsWritten(rows, "guild", entries);
    assert ("guild", "1") in r;
    assert "1" in IdsOfType(r, "guild");
    assert KeySet(entries) == {"12"};
    assert "1" != "12";
  }

  /** A gateway event for one resource type after the full resync. */
  datatype Event =
    | Created(id: Snowflake, snapshot: Snapshot)
    | Updated(id: Snowflake, snapshot: Snapshot)
    | Deleted(id: Snowflake)

  /** The single write an event handler performs on the table. */
  function ApplyEvent(rows: Table, t: string, e: Event): (r: Table)
    ensures forall k: Key :: k != (t, e.id) ==> (k in r <==> k in rows)
    ensures forall k: Key :: k != (t, e.id) && k in rows ==> r[k] == rows[k]
    ensures e.Deleted? <==> (t, e.id) !in r
    ensures !e.Deleted? ==> r[(t, e.id)] == e.snapshot
  {
    match e
    case Created(id, s) => rows[(t, id) := s]
    case Updated(id, s) => rows[(t, id) := s]
    case Deleted(id) => rows - {(t, id)}
  }

  function ApplyEvents(rows: Table, t: string, es: seq<Event>): Table
    decreases |es|
  {
    if |es| == 0 then rows else ApplyEvents(ApplyEvent(rows, t, es[0]), t, es[1..])
  }

  /** How the live key set evolves under the same events. */
  function LiveAfter(live: set<Snowflake>, es: seq<Event>): set<Snowflake>
    decreases |es|
  {
    if |es| == 0 then live
    else LiveAfter(if es[0].Deleted? then live - {es[0].id} else live + {es[0].id}, es[1..])
  }

  /** The incremental handlers keep the cached ids of `t` equal to the live key set, and never touch another type. */
  lemma {:induction false} EventsTrackLive(rows: Table, t: string, es: seq<Event>, live: set<Snowflake>)
    requires IdsOfType(rows, t) == live
    ensures IdsOfType(ApplyEvents(rows, t, es), t) == LiveAfter(live, es)
    ensures forall k: Key :: k.0 != t ==> (k in ApplyEvents(rows, t, es) <==> k in rows)
    ensures forall k: Key :: k.0 != t && k in rows ==> ApplyEvents(rows, t, es)[k] == rows[k]
    decreases |es|
  {
    if |es| > 0 {
      var rows' := ApplyEvent(rows, t, es[0]);
      var live' := if es[0].Deleted? then live - {es[0].id} else live + {es[0].id};
      forall x | x in IdsOfType(rows', t) ensures x in live' {
        assert (t, x) in rows';
        if x != es[0].id { assert (t, x) in rows; }
      }
      forall x | x in live' ensures x in IdsOfType(rows', t) {
        assert (t, x) in rows';
      }
      EventsTrackLive(rows', t, es[1..], live');
    }
  }

  /** The DiscordCache collection as a mutable table. */
  class CacheTable {
    var rows: Table

    constructor ()
      ensures rows == map[]
    {
      rows := map[];
    }

    /** The full-resync half of `cacheResource` as written at lines 178-195. */
    method ResyncTypeAsWritten(t: string, entries: Entries)
      modifies this
      ensures rows == ResyncAsWritten(old(rows), t, entries)
    {
      var oldIds := IdsOfType(rows, t);
      var newIds := SpreadKeySet(entries);
      var toDelete := set x | x in oldIds && x !in newIds;
      rows := RemoveIds(rows, t, toDelete);
      UpsertLoop(t, entries);
    }

    /** The full-resync half of `cacheResource` with the key set built as intended. */
    method ResyncType(t: string, entries: Entries)
      modifies this
      ensures rows == Resync(old(rows), t, entries)
    {
      var oldIds := IdsOfType(rows, t);
      var newIds := KeySet(entries);
      var toDelete := set x | x in oldIds && x !in newIds;
      rows := RemoveIds(rows, t, toDelete);
      UpsertLoop(t, entries);
    }

    /** The sequential upsert over `[...cache.entries()]`, one awaited write at a time. */
    method UpsertLoop(t: string, entries: Entries)
      modifies this
      ensures rows == UpsertAll(old(rows), t, entries)
    {
      var i := 0;
      while i < |entries|
        invariant 0 <= i <= |entries|
        invariant UpsertAll(rows, t, entries[i..]) == UpsertAll(old(rows), t, entries)
      {
        assert entries[i..][1..] == entries[i + 1..];
        rows := rows[(t, entries[i].0) := entries[i].1];
        i := i + 1;
      }
    }

    /** The `createEvent` / `updateEvent` / `deleteEvent` handlers registered at lines 197-223. */
    method HandleEvent(t: string, e: Event)
      modifies this
      ensures rows == ApplyEvent(old(rows), t, e)
    {
      match e {
        case Created(id, s) => rows := rows[(t, id) := s];
        case Updated(id, s) => rows := rows[(t, id) := s];
        case Deleted(id) => rows := rows - {(t, id)};
      }
    }
  }
}
