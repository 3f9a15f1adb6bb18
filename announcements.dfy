/**
 * The `postAnnouncement` and `dismissPendingAnnouncement` server methods:
 * an announcement is stored once and fanned out as one pending
 * announcement per member of the hunt; a user dismisses their own.
 */
module Announcements {
  import opened Wrappers

  datatype Announcement = Announcement(id: string, hunt: string, message: string)
  datatype PendingAnnouncement = PendingAnnouncement(id: string, hunt: string, announcement: string, user: string)
  /** The part of a MeteorUsers document the fan-out reads. */
  datatype User = User(id: string, hunts: seq<string>)

  predicate DistinctUserIds(users: seq<User>) {
    forall i, j :: 0 <= i < j < |users| ==> users[i].id != users[j].id
  }

  /**
   * The pending announcements inserted for the users `MeteorUsers.find({ hunts: huntId })`
   * returns, in table order; `pendingIds[i]` is the id the insert for `users[i]` generates.
   */
  function Fanout(users: seq<User>, pendingIds: seq<string>, huntId: string, annId: string): (r: seq<PendingAnnouncement>)
    requires |pendingIds| == |users|
    ensures forall p :: p in r ==> p.hunt == huntId && p.announcement == annId
    ensures |r| <= |users|
    decreases |users|
  {
    if |users| == 0 then []
    else
      var prefix := Fanout(users[..|users| - 1], pendingIds[..|users| - 1], huntId, annId);
      var u := users[|users| - 1];
      if huntId in u.hunts then prefix + [PendingAnnouncement(pendingIds[|users| - 1], huntId, annId, u.id)]
      else prefix
  }

  /** How many of `ps` are addressed to `user`. */
  function CountFor(ps: seq<PendingAnnouncement>, user: string): (n: nat)
    ensures n <= |ps|
    ensures n == 0 <==> forall p :: p in ps ==> p.user != user
  {
    if |ps| == 0 then 0
    else CountFor(ps[..|ps| - 1], user) + (if ps[|ps| - 1].user == user then 1 else 0)
  }

  lemma {:induction false} CountForAppend(ps: seq<PendingAnnouncement>, qs: seq<PendingAnnouncement>, user: string)
    ensures CountFor(ps + qs, user) == CountFor(ps, user) + CountFor(qs, user)
    decreases |qs|
  {
    if |qs| == 0 {
      assert ps + qs == ps;
    } else {
      var init := qs[..|qs| - 1];
      CountForAppend(ps, init, user);
      assert (ps + qs)[..|ps + qs| - 1] == ps + init;
    }
  }

  /** Nobody outside the hunt gets a pending announcement. */
  lemma {:induction false} FanoutOnlyMembers(users: seq<User>, pendingIds: seq<string>, huntId: string, annId: string)
    requires |pendingIds| == |users|
    ensures forall p :: p in Fanout(users, pendingIds, huntId, annId) ==>
      exists i :: 0 <= i < |users| && users[i].id == p.user && huntId in users[i].hunts
    decreases |users|
  {
    if |users| > 0 {
      var n := |users| - 1;
      var init := users[..n];
      FanoutOnlyMembers(init, pendingIds[..n], huntId, annId);
      forall p | p in Fanout(users, pendingIds, huntId, annId)
        ensures exists i :: 0 <= i < |users| && users[i].id == p.user && huntId in users[i].hunts
      {
        if p in Fanout(init, pendingIds[..n], huntId, annId) {
          var k :| 0 <= k < |init| && init[k].id == p.user && huntId in init[k].hunts;
          assert users[k] == init[k];
        } else {
          assert users[n].id == p.user && huntId in users[n].hunts;
        }
      }
    }
  }

  /** Every member of the hunt gets exactly one pending announcement; everyone else none. */
  lemma {:induction false} FanoutExactlyOnePerMember(users: seq<User>, pendingIds: seq<string>, huntId: string, annId: string)
    requires |pendingIds| == |users|
    requires DistinctUserIds(users)
    ensures forall i :: 0 <= i < |users| ==>
      CountFor(Fanout(users, pendingIds, huntId, annId), users[i].id) == (if huntId in users[i].hunts then 1 else 0)
    decreases |users|
  {
    if |users| > 0 {
      var n := |users| - 1;
      var init := users[..n];
      assert DistinctUserIds(init) by {
        forall i, j | 0 <= i < j < |init| ensures init[i].id != init[j].id {
          assert init[i] == users[i] && init[j] == users[j];
        }
      }
      FanoutExactlyOnePerMember(init, pendingIds[..n], huntId, annId);
      forall i | 0 <= i < |users|
        ensures CountFor(Fanout(users, pendingIds, huntId, annId), users[i].id) == (if huntId in users[i].hunts then 1 else 0)
      {
        if i < n {
          assert users[i] == init[i];
        }
        FanoutCountAt(users, pendingIds, huntId, annId, i);
      }
    }
  }

  /** The inductive step of `FanoutExactlyOnePerMember`, for one user. */
  lemma FanoutCountAt(users: seq<User>, pendingIds: seq<string>, huntId: string, annId: string, i: nat)
    requires |pendingIds| == |users| > 0 && i < |users|
    requires DistinctUserIds(users)
    requires i < |users| - 1 ==>
      CountFor(Fanout(users[..|users| - 1], pendingIds[..|users| - 1], huntId, annId), users[i].id) ==
      (if huntId in users[i].hunts then 1 else 0)
    ensures CountFor(Fanout(users, pendingIds, huntId, annId), users[i].id) == (if huntId in users[i].hunts then 1 else 0)
  {
    var n := |users| - 1;
    var prefix := Fanout(users[..n], pendingIds[..n], huntId, annId);
    var u := users[n];
    var tail: seq<PendingAnnouncement> := if huntId in u.hunts then [PendingAnnouncement(pendingIds[n], huntId, annId, u.id)] else [];
    assert Fanout(users, pendingIds, huntId, annId) == prefix + tail;
    CountForAppend(prefix, tail, users[i].id);
    if i < n {
      assert CountFor(tail, users[i].id) == 0;
    } else {
      LastNotInPrefix(users, pendingIds, huntId, annId);
      if huntId in u.hunts {
        assert tail[..0] == [];
      }
    }
  }

  /** The last user of a table with distinct ids gets nothing from the fan-out over the rows before it. */
  lemma LastNotInPrefix(users: seq<User>, pendingIds: seq<string>, huntId: string, annId: string)
    requires |pendingIds| == |users| > 0
    requires DistinctUserIds(users)
    ensures CountFor(Fanout(users[..|users| - 1], pendingIds[..|users| - 1], huntId, annId), users[|users| - 1].id) == 0
  {
    var n := |users| - 1;
    var init := users[..n];
    FanoutOnlyMembers(init, pendingIds[..n], huntId, annId);
    forall p | p in Fanout(init, pendingIds[..n], huntId, annId) ensures p.user != users[n].id {
      var k :| 0 <= k < |init| && init[k].id == p.user && huntId in init[k].hunts;
      assert init[k] == users[k];
    }
  }

  /** `PendingAnnouncements.remove({ _id: id, user: caller })`. */
  function Dismiss(pending: seq<PendingAnnouncement>, caller: string, id: string): (r: seq<PendingAnnouncement>)
    ensures forall p :: p in r <==> p in pending && !(p.id == id && p.user == caller)
    decreases |pending|
  {
    if |pending| == 0 then []
    else
      var rest := Dismiss(pending[1..], caller, id);
      assert forall p :: p in pending <==> p == pending[0] || p in pending[1..];
      if pending[0].id == id && pending[0].user == caller then rest else [pending[0]] + rest
  }

  /** Dismissing twice is dismissing once. */
  lemma {:induction false} DismissIdempotent(pending: seq<PendingAnnouncement>, caller: string, id: string)
    ensures Dismiss(Dismiss(pending, caller, id), caller, id) == Dismiss(pending, caller, id)
    decreases |pending|
  {
    if |pending| > 0 {
      DismissIdempotent(pending[1..], caller, id);
      var rest := Dismiss(pending[1..], caller, id);
      if !(pending[0].id == id && pending[0].user == caller) {
        assert ([pending[0]] + rest)[1..] == rest;
      }
    }
  }

  /** The Announcements and PendingAnnouncements collections, and the users the fan-out reads. */
  class AnnouncementStore {
    var announcements: seq<Announcement>
    var pending: seq<PendingAnnouncement>
    var users: seq<User>

    constructor (users0: seq<User>)
      ensures announcements == [] && pending == [] && users == users0
    {
      announcements := [];
      pending := [];
      users := users0;
    }

    /**
     * `postAnnouncement(huntId, message)`. `mayAdd` is the verdict of
     * `userMayAddAnnouncementToHunt`, `annId` the id the insert generates.
     */
    method PostAnnouncement(caller: Option<string>, huntId: string, message: string, mayAdd: bool,
                            annId: string, pendingIds: seq<string>) returns (r: Result<()>)
      requires |pendingIds| == |users|
      modifies this
      ensures users == old(users)
      ensures caller.None? ==> r == Err(CheckFailed)
      ensures caller.Some? && !mayAdd ==> r == Err(MeteorError(401))
      ensures r.Err? ==> announcements == old(announcements) && pending == old(pending)
      ensures caller.Some? && mayAdd ==>
        r == Ok(()) &&
        announcements == old(announcements) + [Announcement(annId, huntId, message)] &&
        pending == old(pending) + Fanout(users, pendingIds, huntId, annId)
    {
      if caller.None? {
        return Err(CheckFailed);
      }
      if !mayAdd {
        return Err(MeteorError(401));
      }
      announcements := announcements + [Announcement(annId, huntId, message)];
      var i := 0;
      while i < |users|
        invariant 0 <= i <= |users|
        invariant users == old(users) && announcements == old(announcements) + [Announcement(annId, huntId, message)]
        invariant pending == old(pending) + Fanout(users[..i], pendingIds[..i], huntId, annId)
      {
        assert users[..i + 1][..i] == users[..i] && pendingIds[..i + 1][..i] == pendingIds[..i];
        if huntId in users[i].hunts {
          pending := pending + [PendingAnnouncement(pendingIds[i], huntId, annId, users[i].id)];
        }
        i := i + 1;
      }
      assert users[..i] == users && pendingIds[..i] == pendingIds;
      r := Ok(());
    }

    /** `dismissPendingAnnouncement(id)`. */
    method DismissPendingAnnouncement(caller: Option<string>, id: string) returns (r: Result<()>)
      modifies this
      ensures users == old(users) && announcements == old(announcements)
      ensures caller.None? ==> r == Err(CheckFailed) && pending == old(pending)
      ensures caller.Some? ==> r == Ok(()) && pending == Dismiss(old(pending), caller.value, id)
    {
      if caller.None? {
        return Err(CheckFailed);
      }
      pending := Dismiss(pending, caller.value, id);
      r := Ok(());
    }
  }
}
