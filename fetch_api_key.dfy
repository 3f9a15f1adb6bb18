/**
 * The `fetchAPIKey` method: return the resolved user's API key, creating
 * one under the per-user lock if there is none, with a re-lookup inside
 * the lock so that a key created meanwhile is returned instead of a
 * second one being inserted.
 */
module FetchAPIKey {
  import opened Wrappers

  datatype APIKey = APIKey(id: string, user: string, key: string)

  /** The length of a generated key, `Random.id(32)`. */
  const KeyLength: nat := 32

  /** The state of APIKeys after a call and what the call returned. */
  datatype FetchResult = FetchResult(keys: seq<APIKey>, result: Result<string>)

  /** `APIKeys.findOne({ user })`: the first record of that user, in table order. */
  function FindByUser(keys: seq<APIKey>, user: string): (r: Option<APIKey>)
    ensures r.None? <==> forall k :: k in keys ==> k.user != user
    ensures r.Some? ==> exists i :: 0 <= i < |keys| && keys[i] == r.value && r.value.user == user &&
                                    forall j :: 0 <= j < i ==> keys[j].user != user
    decreases |keys|
  {
    if |keys| == 0 then None
    else if keys[0].user == user then Some(keys[0])
    else
      var r := FindByUser(keys[1..], user);
      assert forall k :: k in keys <==> k == keys[0] || k in keys[1..];
      if r.Some? then
        var i :| 0 <= i < |keys[1..]| && keys[1..][i] == r.value && r.value.user == user &&
                 forall j :: 0 <= j < i ==> keys[1..][j].user != user;
        assert keys[i + 1] == r.value;
        assert forall j :: 1 <= j < i + 1 ==> keys[j] == keys[1..][j - 1];
        r
      else r
  }

  /** How many records of APIKeys belong to `user`. */
  function CountFor(keys: seq<APIKey>, user: string): (n: nat)
    ensures n == 0 <==> FindByUser(keys, user).None?
  {
    if |keys| == 0 then 0
    else
      assert forall k :: k in keys <==> k == keys[0] || k in keys[1..];
      CountFor(keys[1..], user) + (if keys[0].user == user then 1 else 0)
  }

  lemma {:induction false} CountForAppend(keys: seq<APIKey>, k: APIKey, user: string)
    ensures CountFor(keys + [k], user) == CountFor(keys, user) + (if k.user == user then 1 else 0)
    decreases |keys|
  {
    if |keys| == 0 {
      assert ([] + [k])[1..] == [];
    } else {
      assert (keys + [k])[1..] == keys[1..] + [k];
      CountForAppend(keys[1..], k, user);
    }
  }

  /**
   * One run of the method. `caller` is `this.userId`, `resolved` what
   * `userForKeyOperation` returns or throws, `racing` a record another
   * server inserts between the first lookup and the lock's re-lookup,
   * and `newId`/`newKey` what the insert and `Random.id(32)` generate.
   */
  function Fetch(keys: seq<APIKey>, caller: Option<string>, resolved: Result<string>, racing: Option<APIKey>,
                 newId: string, newKey: string): (r: FetchResult)
    requires |newKey| == KeyLength
    ensures caller.None? ==> r == FetchResult(keys, Err(CheckFailed))
    ensures caller.Some? && resolved.Err? ==> r == FetchResult(keys, Err(resolved.error))
    ensures caller.Some? && resolved.Ok? && FindByUser(keys, resolved.value).Some? ==>
      r == FetchResult(keys, Ok(FindByUser(keys, resolved.value).value.key))
    ensures caller.Some? && resolved.Ok? && FindByUser(keys, resolved.value).None? ==>
      var seen := if racing.Some? then keys + [racing.value] else keys;
      if racing.Some? && racing.value.user == resolved.value then r == FetchResult(seen, Ok(racing.value.key))
      else r == FetchResult(seen + [APIKey(newId, resolved.value, newKey)], Ok(newKey))
  {
    if caller.None? then FetchResult(keys, Err(CheckFailed))
    else if resolved.Err? then FetchResult(keys, Err(resolved.error))
    else
      var user := resolved.value;
      var found := FindByUser(keys, user);
      if found.Some? then FetchResult(keys, Ok(found.value.key))
      else
        var seen := if racing.Some? then keys + [racing.value] else keys;
        var again := FindByUser(seen, user);
        if again.Some? then
          assert again.value == racing.value;
          FetchResult(seen, Ok(again.value.key))
        else FetchResult(seen + [APIKey(newId, user, newKey)], Ok(newKey))
  }

  /**
   * A user with no key ends with exactly one, whether this call created it
   * or a concurrent one did: the re-lookup prevents a second insert.
   */
  lemma FetchLeavesOneKey(keys: seq<APIKey>, caller: Option<string>, user: string, racing: Option<APIKey>,
                          newId: string, newKey: string)
    requires |newKey| == KeyLength
    requires caller.Some? && CountFor(keys, user) == 0
    ensures CountFor(Fetch(keys, caller, Ok(user), racing, newId, newKey).keys, user) == 1
  {
    if racing.Some? {
      CountForAppend(keys, racing.value, user);
      if racing.value.user != user {
        CountForAppend(keys + [racing.value], APIKey(newId, user, newKey), user);
      }
    } else {
      CountForAppend(keys, APIKey(newId, user, newKey), user);
    }
  }

  /** Whatever the call does, the keys of other users are unchanged, and every new record is the racing one or this user's. */
  lemma FetchKeepsOtherKeys(keys: seq<APIKey>, caller: Option<string>, resolved: Result<string>, racing: Option<APIKey>,
                            newId: string, newKey: string)
    requires |newKey| == KeyLength
    ensures var r := Fetch(keys, caller, resolved, racing, newId, newKey);
            |keys| <= |r.keys| && r.keys[..|keys|] == keys &&
            forall k :: k in r.keys[|keys|..] ==> (racing.Some? && k == racing.value) || (resolved.Ok? && k.user == resolved.value)
  {
    var r := Fetch(keys, caller, resolved, racing, newId, newKey);
    if caller.Some? && resolved.Ok? && FindByUser(keys, resolved.value).None? {
      var mine := APIKey(newId, resolved.value, newKey);
      var extra := if racing.None? then [mine]
                   else if racing.value.user == resolved.value then [racing.value]
                   else [racing.value, mine];
      assert r.keys == keys + extra;
      AppendParts(keys, extra);
    } else {
      assert r.keys == keys;
      AppendParts(keys, []);
    }
  }

  lemma AppendParts(keys: seq<APIKey>, extra: seq<APIKey>)
    ensures (keys + extra)[..|keys|] == keys && (keys + extra)[|keys|..] == extra
  {
  }

  /** A second call for the same user returns the same key and inserts nothing. */
  lemma FetchIdempotent(keys: seq<APIKey>, caller: Option<string>, user: string, racing: Option<APIKey>,
                        newId: string, newKey: string, racing2: Option<APIKey>, newId2: string, newKey2: string)
    requires |newKey| == KeyLength && |newKey2| == KeyLength
    requires caller.Some?
    ensures var first := Fetch(keys, caller, Ok(user), racing, newId, newKey);
            Fetch(first.keys, caller, Ok(user), racing2, newId2, newKey2) == first
  {
    var first := Fetch(keys, caller, Ok(user), racing, newId, newKey);
    if FindByUser(keys, user).None? {
      if racing.Some? && racing.value.user == user {
        FindAfterAppend(keys, racing.value, user);
      } else {
        var seen := if racing.Some? then keys + [racing.value] else keys;
        assert FindByUser(seen, user).None?;
        FindAfterAppend(seen, APIKey(newId, user, newKey), user);
      }
    }
  }

  /** Appending a user's first record makes it what `findOne` returns. */
  lemma {:induction false} FindAfterAppend(keys: seq<APIKey>, k: APIKey, user: string)
    requires FindByUser(keys, user).None? && k.user == user
    ensures FindByUser(keys + [k], user) == Some(k)
    decreases |keys|
  {
    if |keys| == 0 {
    } else {
      assert (keys + [k])[1..] == keys[1..] + [k];
      assert keys[0] in keys;
      FindAfterAppend(keys[1..], k, user);
    }
  }

  /** The APIKeys collection. */
  class APIKeyStore {
    var keys: seq<APIKey>

    constructor (keys0: seq<APIKey>)
      ensures keys == keys0
    {
      keys := keys0;
    }

    /** `fetchAPIKey.run({ forUser })`, with `let key` reassigned as the code does. */
    method Run(caller: Option<string>, resolved: Result<string>, racing: Option<APIKey>, newId: string, newKey: string)
      returns (r: Result<string>)
      requires |newKey| == KeyLength
      modifies this
      ensures var f := Fetch(old(keys), caller, resolved, racing, newId, newKey);
              keys == f.keys && r == f.result
    {
      if caller.None? {
        return Err(CheckFailed);
      }
      if resolved.Err? {
        return Err(resolved.error);
      }
      var user := resolved.value;
      var key := FindByUser(keys, user);
      if key.None? {
        // Another server may insert while this one waits for the lock.
        if racing.Some? {
          keys := keys + [racing.value];
        }
        key := FindByUser(keys, user);
        if key.None? {
          keys := keys + [APIKey(newId, user, newKey)];
          FindAfterAppend(keys[..|keys| - 1], APIKey(newId, user, newKey), user);
          assert keys[..|keys| - 1] + [APIKey(newId, user, newKey)] == keys;
          key := FindByUser(keys, user);
        }
      }
      r := Ok(key.value.key);
    }
  }
}
