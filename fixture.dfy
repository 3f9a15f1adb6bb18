/**
 * The `createFixtureHunt` method: load the fixture hunt, its tags and its
 * puzzles with an insert-if-absent and idempotent upserts. The fixture
 * data itself (imports/fixtures) is not part of this model; it is the
 * parameter `data`.
 */
module Fixture {
  import opened Wrappers

  /** The fixed id of the fixture hunt. */
  const FixtureHuntId := "cSB2bWf3BToQ9NBju"

  datatype FixtureTag = FixtureTag(id: string, name: string)
  datatype FixturePuzzle = FixturePuzzle(id: string, title: string, url: string, answer: string, tags: seq<string>)
  datatype FixtureData = FixtureData(title: string, tags: seq<FixtureTag>, puzzles: seq<FixturePuzzle>)

  /** Documents keep the fields the method does not write in `extra`; an upserted document starts without them. */
  datatype Hunt = Hunt(name: string, openSignups: bool, extra: Option<string>)
  datatype Tag = Tag(hunt: string, name: string, extra: Option<string>)
  datatype Puzzle = Puzzle(hunt: string, title: string, url: string, answer: string, tags: seq<string>, extra: Option<string>)

  datatype State = State(hunts: map<string, Hunt>, tags: map<string, Tag>, puzzles: map<string, Puzzle>)

  // ------------------------------------------------------------------ tags

  /** `Tags.upsert({ _id }, { $set: { hunt, name } })`. */
  function UpsertTag(m: map<string, Tag>, huntId: string, t: FixtureTag): (r: map<string, Tag>)
    ensures r.Keys == m.Keys + {t.id}
    ensures r[t.id].hunt == huntId && r[t.id].name == t.name
    ensures t.id in m ==> r[t.id] == m[t.id].(hunt := huntId, name := t.name)
    ensures t.id !in m ==> r[t.id] == Tag(huntId, t.name, None)
    ensures forall id :: id in m && id != t.id ==> r[id] == m[id]
  {
    m[t.id := if t.id in m then m[t.id].(hunt := huntId, name := t.name) else Tag(huntId, t.name, None)]
  }

  /** `data.tags.forEach(upsert)`. */
  function UpsertTags(m: map<string, Tag>, huntId: string, ts: seq<FixtureTag>): map<string, Tag>
    decreases |ts|
  {
    if |ts| == 0 then m else UpsertTag(UpsertTags(m, huntId, ts[..|ts| - 1]), huntId, ts[|ts| - 1])
  }

  /** The last fixture tag with this id. */
  function LastTag(ts: seq<FixtureTag>, id: string): Option<FixtureTag> {
    if |ts| == 0 then None
    else if ts[|ts| - 1].id == id then Some(ts[|ts| - 1])
    else LastTag(ts[..|ts| - 1], id)
  }

  /** Each fixture tag ends with the fixture hunt and its last fixture name; every other tag is unchanged. */
  lemma {:induction false} UpsertTagsAt(m: map<string, Tag>, huntId: string, ts: seq<FixtureTag>, id: string)
    ensures id in UpsertTags(m, huntId, ts) <==> id in m || LastTag(ts, id).Some?
    ensures LastTag(ts, id).Some? ==>
      UpsertTags(m, huntId, ts)[id] ==
        if id in m then m[id].(hunt := huntId, name := LastTag(ts, id).value.name)
        else Tag(huntId, LastTag(ts, id).value.name, None)
    ensures LastTag(ts, id).None? && id in m ==> UpsertTags(m, huntId, ts)[id] == m[id]
    decreases |ts|
  {
    if |ts| > 0 {
      UpsertTagsAt(m, huntId, ts[..|ts| - 1], id);
    }
  }

  /** Upserting the fixture tags twice is upserting them once. */
  lemma UpsertTagsIdempotent(m: map<string, Tag>, huntId: string, ts: seq<FixtureTag>)
    ensures UpsertTags(UpsertTags(m, huntId, ts), huntId, ts) == UpsertTags(m, huntId, ts)
  {
    var once := UpsertTags(m, huntId, ts);
    var twice := UpsertTags(once, huntId, ts);
    forall id ensures (id in twice <==> id in once) && (id in once ==> twice[id] == once[id]) {
      UpsertTagsAt(m, huntId, ts, id);
      UpsertTagsAt(once, huntId, ts, id);
    }
  }

  // --------------------------------------------------------------- puzzles

  /** The position of the first occurrence of `z` in `ys`. */
  function FirstIndex(ys: seq<string>, z: string): (k: nat)
    requires z in ys
    ensures k < |ys| && ys[k] == z
    ensures forall i :: 0 <= i < k ==> ys[i] != z
  {
    if ys[0] == z then 0 else 1 + FirstIndex(ys[1..], z)
  }

  /** Dropping the last element of `ys` does not move the first occurrence of `z`, which stays. */
  lemma FirstIndexPrefix(ys: seq<string>, z: string)
    requires |ys| > 0 && z in ys[..|ys| - 1]
    ensures FirstIndex(ys, z) == FirstIndex(ys[..|ys| - 1], z)
  {
    var ys' := ys[..|ys| - 1];
    var k, k' := FirstIndex(ys, z), FirstIndex(ys', z);
    assert ys[k'] == ys'[k'];
    if k < k' {
      assert ys'[k] == ys[k];
      assert false;
    }
  }

  /**
   * `$addToSet: { tags: { $each: ys } }`: each missing element is appended
   * once, in the order of its first occurrence in `ys`.
   */
  function AddToSet(xs: seq<string>, ys: seq<string>): (r: seq<string>)
    ensures forall z :: z in r <==> z in xs || z in ys
    ensures |r| >= |xs| && r[..|xs|] == xs
    ensures forall i :: |xs| <= i < |r| ==> r[i] !in xs
    ensures forall i, j :: |xs| <= i < j < |r| ==> r[i] != r[j]
    ensures forall i, j :: |xs| <= i < j < |r| ==> r[i] in ys && r[j] in ys && FirstIndex(ys, r[i]) < FirstIndex(ys, r[j])
    decreases |ys|
  {
    if |ys| == 0 then xs
    else
      var ys' := ys[..|ys| - 1];
      var prev := AddToSet(xs, ys');
      assert forall z :: z in ys <==> z in ys' || z == ys[|ys| - 1];
      assert forall z :: z in ys' ==> FirstIndex(ys, z) == FirstIndex(ys', z) by {
        forall z | z in ys' ensures FirstIndex(ys, z) == FirstIndex(ys', z) {
          FirstIndexPrefix(ys, z);
        }
      }
      var y := ys[|ys| - 1];
      if y in prev then prev
      else
        assert y !in xs by { assert prev[..|xs|] == xs; }
        assert y !in ys';
        assert FirstIndex(ys, y) == |ys| - 1;
        assert (prev + [y])[..|xs|] == prev[..|xs|];
        prev + [y]
  }

  lemma {:induction false} AddToSetPresent(xs: seq<string>, ys: seq<string>)
    requires forall y :: y in ys ==> y in xs
    ensures AddToSet(xs, ys) == xs
    decreases |ys|
  {
    if |ys| > 0 {
      assert forall y :: y in ys[..|ys| - 1] ==> y in ys;
      AddToSetPresent(xs, ys[..|ys| - 1]);
    }
  }

  lemma {:induction false} AddToSetConcat(xs: seq<string>, a: seq<string>, b: seq<string>)
    ensures AddToSet(AddToSet(xs, a), b) == AddToSet(xs, a + b)
    decreases |b|
  {
    if |b| > 0 {
      assert (a + b)[..|a + b| - 1] == a + b[..|b| - 1];
      assert (a + b)[|a + b| - 1] == b[|b| - 1];
      AddToSetConcat(xs, a, b[..|b| - 1]);
    } else {
      assert a + b == a;
    }
  }

  /** `Puzzles.upsert({ _id }, { $set: { hunt, title, url, answer }, $addToSet: { tags: { $each } } })`. */
  function UpsertPuzzle(m: map<string, Puzzle>, huntId: string, p: FixturePuzzle): (r: map<string, Puzzle>)
    ensures r.Keys == m.Keys + {p.id}
    ensures r[p.id].hunt == huntId && r[p.id].title == p.title && r[p.id].url == p.url && r[p.id].answer == p.answer
    ensures r[p.id].tags == AddToSet(if p.id in m then m[p.id].tags else [], p.tags)
    ensures r[p.id].extra == if p.id in m then m[p.id].extra else None
    ensures forall id :: id in m && id != p.id ==> r[id] == m[id]
  {
    m[p.id := if p.id in m then m[p.id].(hunt := huntId, title := p.title, url := p.url, answer := p.answer,
                                         tags := AddToSet(m[p.id].tags, p.tags))
              else Puzzle(huntId, p.title, p.url, p.answer, AddToSet([], p.tags), None)]
  }

  /** `data.puzzles.forEach(upsert)`. */
  function UpsertPuzzles(m: map<string, Puzzle>, huntId: string, ps: seq<FixturePuzzle>): map<string, Puzzle>
    decreases |ps|
  {
    if |ps| == 0 then m else UpsertPuzzle(UpsertPuzzles(m, huntId, ps[..|ps| - 1]), huntId, ps[|ps| - 1])
  }

  function LastPuzzle(ps: seq<FixturePuzzle>, id: string): Option<FixturePuzzle> {
    if |ps| == 0 then None
    else if ps[|ps| - 1].id == id then Some(ps[|ps| - 1])
    else LastPuzzle(ps[..|ps| - 1], id)
  }

  /** The fixture tags of every fixture puzzle with this id, in order. */
  function FixtureTagsOf(ps: seq<FixturePuzzle>, id: string): seq<string> {
    if |ps| == 0 then []
    else FixtureTagsOf(ps[..|ps| - 1], id) + (if ps[|ps| - 1].id == id then ps[|ps| - 1].tags else [])
  }

  /** The puzzle a fixture puzzle ends as, given its document before the pass, if any. */
  function Loaded(old_: Option<Puzzle>, huntId: string, p: FixturePuzzle, tags: seq<string>): Puzzle {
    if old_.Some? then old_.value.(hunt := huntId, title := p.title, url := p.url, answer := p.answer,
                                   tags := AddToSet(old_.value.tags, tags))
    else Puzzle(huntId, p.title, p.url, p.answer, AddToSet([], tags), None)
  }

  /**
   * Each fixture puzzle ends with the fixture hunt and its last fixture
   * title, url and answer, and its tags are its existing tags followed by
   * every fixture tag it lacked; every other puzzle is unchanged.
   */
  lemma {:induction false} UpsertPuzzlesAt(m: map<string, Puzzle>, huntId: string, ps: seq<FixturePuzzle>, id: string)
    ensures id in UpsertPuzzles(m, huntId, ps) <==> id in m || LastPuzzle(ps, id).Some?
    ensures LastPuzzle(ps, id).Some? ==>
      UpsertPuzzles(m, huntId, ps)[id] ==
        Loaded(if id in m then Some(m[id]) else None, huntId, LastPuzzle(ps, id).value, FixtureTagsOf(ps, id))
    ensures LastPuzzle(ps, id).None? ==> FixtureTagsOf(ps, id) == [] && (id in m ==> UpsertPuzzles(m, huntId, ps)[id] == m[id])
    decreases |ps|
  {
    if |ps| > 0 {
      var n := |ps| - 1;
      UpsertPuzzlesAt(m, huntId, ps[..n], id);
      if ps[n].id == id {
        var base := if id in m then m[id].tags else [];
        var earlier := FixtureTagsOf(ps[..n], id);
        assert FixtureTagsOf(ps, id) == earlier + ps[n].tags;
        AddToSetConcat(base, earlier, ps[n].tags);
        var prev := UpsertPuzzles(m, huntId, ps[..n]);
        var before := if id in m then Some(m[id]) else None;
        if LastPuzzle(ps[..n], id).None? {
          assert earlier + ps[n].tags == ps[n].tags;
          assert AddToSet(base, []) == base;
        }
        assert id in prev <==> before.Some? || LastPuzzle(ps[..n], id).Some?;
        assert UpsertPuzzles(m, huntId, ps) == UpsertPuzzle(prev, huntId, ps[n]);
        assert LastPuzzle(ps, id) == Some(ps[n]);
        var goal := Loaded(before, huntId, ps[n], earlier + ps[n].tags);
        if id in prev {
          assert prev[id].tags == AddToSet(base, earlier);
          assert prev[id].extra == if before.Some? then before.value.extra else None;
          assert UpsertPuzzle(prev, huntId, ps[n])[id] == goal;
        } else {
          assert before.None? && earlier == [];
          assert UpsertPuzzle(prev, huntId, ps[n])[id] == goal;
        }
      } else {
        assert FixtureTagsOf(ps, id) == FixtureTagsOf(ps[..n], id) + [];
        assert FixtureTagsOf(ps[..n], id) + [] == FixtureTagsOf(ps[..n], id);
      }
    }
  }

  /** Upserting the fixture puzzles twice is upserting them once. */
  lemma UpsertPuzzlesIdempotent(m: map<string, Puzzle>, huntId: string, ps: seq<FixturePuzzle>)
    ensures UpsertPuzzles(UpsertPuzzles(m, huntId, ps), huntId, ps) == UpsertPuzzles(m, huntId, ps)
  {
    var once := UpsertPuzzles(m, huntId, ps);
    var twice := UpsertPuzzles(once, huntId, ps);
    forall id ensures (id in twice <==> id in once) && (id in once ==> twice[id] == once[id]) {
      UpsertPuzzlesAt(m, huntId, ps, id);
      UpsertPuzzlesAt(once, huntId, ps, id);
      if LastPuzzle(ps, id).Some? {
        var tags := FixtureTagsOf(ps, id);
        var base := if id in m then m[id].tags else [];
        AddToSetPresent(AddToSet(base, tags), tags);
      }
    }
  }

  // ----------------------------------------------------------------- method

  /** `Hunts.insert(...)` only if `Hunts.findOne(huntId)` finds nothing. */
  function EnsureHunt(hunts: map<string, Hunt>, data: FixtureData): (r: map<string, Hunt>)
    ensures FixtureHuntId in r
    ensures FixtureHuntId in hunts ==> r == hunts
    ensures FixtureHuntId !in hunts ==> r == hunts[FixtureHuntId := Hunt(data.title, true, None)]
  {
    if FixtureHuntId in hunts then hunts else hunts[FixtureHuntId := Hunt(data.title, true, None)]
  }

  /** One run of `createFixtureHunt`. `permitted` is the verdict of `Roles.checkPermission(userId, 'mongo.hunts.insert')`. */
  function Create(s: State, caller: Option<string>, permitted: bool, data: FixtureData): (r: (Result<()>, State))
    ensures caller.None? ==> r == (Err(CheckFailed), s)
    ensures caller.Some? && !permitted ==> r == (Err(PermissionDenied), s)
    ensures caller.Some? && permitted ==>
      r == (Ok(()), State(EnsureHunt(s.hunts, data), UpsertTags(s.tags, FixtureHuntId, data.tags),
                          UpsertPuzzles(s.puzzles, FixtureHuntId, data.puzzles)))
  {
    if caller.None? then (Err(CheckFailed), s)
    else if !permitted then (Err(PermissionDenied), s)
    else (Ok(()), State(EnsureHunt(s.hunts, data), UpsertTags(s.tags, FixtureHuntId, data.tags),
                        UpsertPuzzles(s.puzzles, FixtureHuntId, data.puzzles)))
  }

  /** Running the method twice yields the same state as running it once. */
  lemma CreateIdempotent(s: State, caller: Option<string>, permitted: bool, data: FixtureData)
    ensures var once := Create(s, caller, permitted, data).1;
            Create(once, caller, permitted, data).1 == once
  {
    if caller.Some? && permitted {
      UpsertTagsIdempotent(s.tags, FixtureHuntId, data.tags);
      UpsertPuzzlesIdempotent(s.puzzles, FixtureHuntId, data.puzzles);
    }
  }

  /** The Hunts, Tags and Puzzles collections. */
  class Store {
    var hunts: map<string, Hunt>
    var tags: map<string, Tag>
    var puzzles: map<string, Puzzle>

    constructor (s: State)
      ensures hunts == s.hunts && tags == s.tags && puzzles == s.puzzles
    {
      hunts := s.hunts;
      tags := s.tags;
      puzzles := s.puzzles;
    }

    /** `createFixtureHunt()`: the checks precede every write. */
    method CreateFixtureHunt(caller: Option<string>, permitted: bool, data: FixtureData) returns (r: Result<()>)
      modifies this
      ensures var c := Create(State(old(hunts), old(tags), old(puzzles)), caller, permitted, data);
              r == c.0 && State(hunts, tags, puzzles) == c.1
    {
      if caller.None? {
        return Err(CheckFailed);
      }
      if !permitted {
        return Err(PermissionDenied);
      }
      if FixtureHuntId !in hunts {
        hunts := hunts[FixtureHuntId := Hunt(data.title, true, None)];
      }
      LoadTags(data.tags);
      LoadPuzzles(data.puzzles);
      r := Ok(());
    }

    /** `data.tags.forEach(...)`: one `Tags.upsert` per fixture tag. */
    method LoadTags(ts: seq<FixtureTag>)
      modifies this
      ensures tags == UpsertTags(old(tags), FixtureHuntId, ts)
      ensures hunts == old(hunts) && puzzles == old(puzzles)
    {
      var i := 0;
      while i < |ts|
        invariant 0 <= i <= |ts|
        invariant hunts == old(hunts) && puzzles == old(puzzles)
        invariant tags == UpsertTags(old(tags), FixtureHuntId, ts[..i])
      {
        assert ts[..i + 1][..i] == ts[..i];
        var t := ts[i];
        tags := tags[t.id := if t.id in tags then tags[t.id].(hunt := FixtureHuntId, name := t.name)
                             else Tag(FixtureHuntId, t.name, None)];
        i := i + 1;
      }
      assert ts[..i] == ts;
    }

    /** `data.puzzles.forEach(...)`: one `Puzzles.upsert` per fixture puzzle. */
    method LoadPuzzles(ps: seq<FixturePuzzle>)
      modifies this
      ensures puzzles == UpsertPuzzles(old(puzzles), FixtureHuntId, ps)
      ensures hunts == old(hunts) && tags == old(tags)
    {
      var j := 0;
      while j < |ps|
        invariant 0 <= j <= |ps|
        invariant hunts == old(hunts) && tags == old(tags)
        invariant puzzles == UpsertPuzzles(old(puzzles), FixtureHuntId, ps[..j])
      {
        assert ps[..j + 1][..j] == ps[..j];
        puzzles := UpsertPuzzle(puzzles, FixtureHuntId, ps[j]);
        j := j + 1;
      }
      assert ps[..j] == ps;
    }
  }
}
