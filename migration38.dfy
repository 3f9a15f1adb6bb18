/**
 * Migration 38, "Consolidate profiles onto MeteorUsers": clear every
 * non-null `profile` field, then copy the five profile fields of each
 * `jr_profiles` document onto the user with the same id.
 */
module Migration38 {
  import opened Wrappers

  /** A `jr_profiles` document; a field the document lacks stays undefined. The Discord account is a snapshot whose contents the model does not inspect. */
  datatype ProfileDoc = ProfileDoc(id: string, displayName: Option<string>, googleAccount: Option<string>,
                                   discordAccount: Option<string>, phoneNumber: Option<string>,
                                   dingwords: Option<seq<string>>)

  /** What a `profile` field of a user holds. */
  datatype ProfileValue =
    | Legacy(json: string)   // whatever was there before the migration
    | Consolidated(displayName: Option<string>, googleAccount: Option<string>, discordAccount: Option<string>,
                   phoneNumber: Option<string>, dingwords: Option<seq<string>>)

  /** The `profile` field: absent, explicitly null, or holding a value. */
  datatype ProfileField = NoProfile | NullProfile | HasProfile(value: ProfileValue)

  /** A MeteorUsers document: its id, its profile, and the fields the migration leaves alone. */
  datatype User = User(id: string, profile: ProfileField, rest: string)

  /** `{ displayName, googleAccount, discordAccount, phoneNumber, dingwords }` of a profile document. */
  function ProfileOf(d: ProfileDoc): (v: ProfileValue)
    ensures v.Consolidated?
    ensures v.displayName == d.displayName && v.googleAccount == d.googleAccount &&
            v.discordAccount == d.discordAccount && v.phoneNumber == d.phoneNumber && v.dingwords == d.dingwords
  {
    Consolidated(d.displayName, d.googleAccount, d.discordAccount, d.phoneNumber, d.dingwords)
  }

  /** The first loop on one user: `{ profile: { $ne: null } }` matches a present, non-null profile, which is unset. */
  function Unset(u: User): (r: User)
    ensures r.id == u.id && r.rest == u.rest
    ensures !r.profile.HasProfile?
    ensures !u.profile.HasProfile? ==> r == u
  {
    if u.profile.HasProfile? then u.(profile := NoProfile) else u
  }

  /** The profile document the second loop applies last to a user id, if any. */
  function LastDocFor(docs: seq<ProfileDoc>, id: string): (r: Option<ProfileDoc>)
    ensures r.None? <==> forall d :: d in docs ==> d.id != id
    ensures r.Some? ==> r.value in docs && r.value.id == id
  {
    if |docs| == 0 then None
    else if docs[|docs| - 1].id == id then Some(docs[|docs| - 1])
    else
      assert forall d :: d in docs <==> d in docs[..|docs| - 1] || d == docs[|docs| - 1];
      LastDocFor(docs[..|docs| - 1], id)
  }

  /** A user after both loops, where `docs` are the profile documents applied so far. */
  function Migrated(u: User, docs: seq<ProfileDoc>): (r: User)
    ensures r.id == u.id && r.rest == u.rest
    ensures LastDocFor(docs, u.id).Some? ==> r.profile == HasProfile(ProfileOf(LastDocFor(docs, u.id).value))
    ensures LastDocFor(docs, u.id).None? ==> !r.profile.HasProfile? && (r.profile.NullProfile? <==> u.profile.NullProfile?)
  {
    match LastDocFor(docs, u.id)
    case Some(d) => u.(profile := HasProfile(ProfileOf(d)))
    case None => Unset(u)
  }

  /** The second loop's update `MeteorUsers.update(d._id, { $set: { profile } })`: only the user with that id changes. */
  function ApplyDoc(users: seq<User>, d: ProfileDoc): (r: seq<User>)
    ensures |r| == |users|
    ensures forall k :: 0 <= k < |users| ==>
      r[k] == if users[k].id == d.id then users[k].(profile := HasProfile(ProfileOf(d))) else users[k]
  {
    seq(|users|, k requires 0 <= k < |users| =>
      if users[k].id == d.id then users[k].(profile := HasProfile(ProfileOf(d))) else users[k])
  }

  /** A profile document whose id matches no user changes nothing. */
  lemma OrphanDocChangesNothing(users: seq<User>, docs: seq<ProfileDoc>, d: ProfileDoc)
    requires forall k :: 0 <= k < |users| ==> users[k].id != d.id
    ensures forall k :: 0 <= k < |users| ==> Migrated(users[k], docs + [d]) == Migrated(users[k], docs)
  {
    forall k | 0 <= k < |users| ensures Migrated(users[k], docs + [d]) == Migrated(users[k], docs) {
      assert (docs + [d])[..|docs|] == docs;
      assert LastDocFor(docs + [d], users[k].id) == LastDocFor(docs, users[k].id);
    }
  }

  /** Running the migration a second time changes nothing. */
  lemma MigratedIdempotent(u: User, docs: seq<ProfileDoc>)
    ensures Migrated(Migrated(u, docs), docs) == Migrated(u, docs)
  {
  }

  /** The MeteorUsers collection and the `jr_profiles` collection, in table order. */
  class Collections {
    var users: seq<User>
    const profiles: seq<ProfileDoc>

    constructor (users0: seq<User>, profiles0: seq<ProfileDoc>)
      ensures users == users0 && profiles == profiles0
    {
      users := users0;
      profiles := profiles0;
    }

    /** `up()`, without the index creation. */
    method Up()
      modifies this
      ensures |users| == |old(users)|
      ensures forall k :: 0 <= k < |users| ==> users[k] == Migrated(old(users)[k], profiles)
    {
      var i := 0;
      while i < |users|
        invariant 0 <= i <= |users| == |old(users)|
        invariant forall k :: 0 <= k < i ==> users[k] == Unset(old(users)[k])
        invariant forall k :: i <= k < |users| ==> users[k] == old(users)[k]
      {
        if users[i].profile.HasProfile? {
          users := users[i := users[i].(profile := NoProfile)];
        }
        i := i + 1;
      }
      var j := 0;
      while j < |profiles|
        invariant 0 <= j <= |profiles|
        invariant |users| == |old(users)|
        invariant forall k :: 0 <= k < |users| ==> users[k] == Migrated(old(users)[k], profiles[..j])
      {
        assert profiles[..j + 1] == profiles[..j] + [profiles[j]];
        assert (profiles[..j] + [profiles[j]])[..j] == profiles[..j];
        users := ApplyDoc(users, profiles[j]);
        j := j + 1;
      }
      assert profiles[..j] == profiles;
    }
  }
}
