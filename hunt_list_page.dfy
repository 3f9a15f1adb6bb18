/**
 * The hunt list page: the mailing-list text field (joined for display,
 * split on runs of commas and spaces when saved), the edit/new form's ids
 * and title, each hunt's link, the permission-gated buttons, and the
 * `onEdit`/`onAdd` writes to the Hunts collection.
 */
module HuntListPage {
  import opened Wrappers

  /**
   * A hunt as the page sees it. `docId` is the document's `_id`; `id` is
   * the object's separate `id` property, which the form's ids read.
   */
  datatype Hunt = Hunt(docId: string, id: Option<string>, name: string, mailingLists: Option<seq<string>>)

  // ------------------------------------------------------------ mailing lists

  /** A character of the separator class `[, ]`. */
  predicate IsSep(c: char) {
    c == ',' || c == ' '
  }

  predicate NoSep(s: string) {
    forall i :: 0 <= i < |s| ==> !IsSep(s[i])
  }

  /** `mailingLists.join(', ')`. */
  function Join(xs: seq<string>): (r: string)
    ensures |xs| == 1 ==> r == xs[0]
  {
    if |xs| == 0 then ""
    else if |xs| == 1 then xs[0]
    else xs[0] + ", " + Join(xs[1..])
  }

  /** The index of the first separator at or after `k`, or `|s|`. */
  function FirstSep(s: string, k: nat): (i: nat)
    requires k <= |s|
    ensures k <= i <= |s|
    ensures forall m :: k <= m < i ==> !IsSep(s[m])
    ensures i < |s| ==> IsSep(s[i])
    decreases |s| - k
  {
    if k == |s| || IsSep(s[k]) then k else FirstSep(s, k + 1)
  }

  /** The end of the run of separators starting at `k`. */
  function RunEnd(s: string, k: nat): (j: nat)
    requires k <= |s|
    ensures k <= j <= |s|
    ensures forall m :: k <= m < j ==> IsSep(s[m])
    ensures j < |s| ==> !IsSep(s[j])
    decreases |s| - k
  {
    if k == |s| || !IsSep(s[k]) then k else RunEnd(s, k + 1)
  }

  /**
   * `s.split(/[, ]+/)`: the pieces between maximal runs of separators. A
   * leading or trailing run gives an empty piece, and "" gives [""].
   */
  function Split(s: string): (r: seq<string>)
    ensures |r| >= 1
    ensures forall e :: e in r ==> NoSep(e)
    decreases |s|
  {
    var i := FirstSep(s, 0);
    if i == |s| then [s]
    else
      var j := RunEnd(s, i);
      var rest := Split(s[j..]);
      assert NoSep(s[..i]);
      [s[..i]] + rest
  }

  /** A list the text field can carry: at least one entry, each non-empty and free of separators. */
  predicate CleanLists(xs: seq<string>) {
    |xs| >= 1 && forall i :: 0 <= i < |xs| ==> |xs[i]| > 0 && NoSep(xs[i])
  }

  /** Splitting what the form displays gives the stored lists back. */
  lemma {:induction false} SplitJoin(xs: seq<string>)
    requires CleanLists(xs)
    ensures Split(Join(xs)) == xs
    decreases |xs|
  {
    if |xs| == 1 {
      FirstSepNone(xs[0], 0);
      assert Join(xs) == xs[0];
    } else {
      assert CleanLists(xs[1..]) by {
        forall i | 0 <= i < |xs[1..]| ensures |xs[1..][i]| > 0 && NoSep(xs[1..][i]) {
          assert xs[1..][i] == xs[i + 1];
        }
      }
      SplitJoin(xs[1..]);
      JoinStartsClean(xs[1..]);
      SplitSeparated(xs[0], Join(xs[1..]));
    }
  }

  /** A clean entry, ", ", and a text starting with no separator split into the entry and the text's pieces. */
  lemma SplitSeparated(x: string, t: string)
    requires NoSep(x) && |t| > 0 && !IsSep(t[0])
    ensures Split(x + ", " + t) == [x] + Split(t)
  {
    var s := x + ", " + t;
    FirstSepAt(s, x);
    assert s[|x|] == ',' && s[|x| + 1] == ' ';
    assert s[|x| + 2..] == t;
    RunEndAt(s, |x|, |x| + 2);
    assert s[..|x|] == x;
  }

  lemma {:induction false} FirstSepNone(s: string, k: nat)
    requires k <= |s|
    requires forall m :: k <= m < |s| ==> !IsSep(s[m])
    ensures FirstSep(s, k) == |s|
    decreases |s| - k
  {
    if k < |s| {
      FirstSepNone(s, k + 1);
    }
  }

  /** In `x + sep + rest` with `x` free of separators and `sep` starting with one, the first separator is at `|x|`. */
  lemma FirstSepAt(s: string, x: string)
    requires |x| < |s| && s[..|x|] == x && NoSep(x) && IsSep(s[|x|])
    ensures FirstSep(s, 0) == |x|
  {
    var i := FirstSep(s, 0);
    assert forall m :: 0 <= m < |x| ==> s[m] == x[m];
  }

  /** A run of separators from `k` that stops at `j` ends at `j`. */
  lemma {:induction false} RunEndAt(s: string, k: nat, j: nat)
    requires k <= j <= |s|
    requires forall m :: k <= m < j ==> IsSep(s[m])
    requires j < |s| ==> !IsSep(s[j])
    ensures RunEnd(s, k) == j
    decreases j - k
  {
    if k < j {
      RunEndAt(s, k + 1, j);
    }
  }

  /** The join of a clean list starts with a character that is not a separator. */
  lemma JoinStartsClean(xs: seq<string>)
    requires CleanLists(xs)
    ensures |Join(xs)| > 0 && !IsSep(Join(xs)[0])
  {
    if |xs| > 1 {
      assert Join(xs) == xs[0] + ", " + Join(xs[1..]);
      assert Join(xs)[0] == xs[0][0];
    }
  }

  /** An empty list is displayed as "", which saves back as one empty entry. */
  lemma EmptyListSavesEmptyEntry()
    ensures Join([]) == "" && Split("") == [""]
  {
  }

  /** `defaultValue` of the mailing-list field: undefined for a new hunt or a hunt without lists. */
  function MailingListsDefault(hunt: Option<Hunt>): (r: Option<string>)
    ensures r.Some? <==> hunt.Some? && hunt.value.mailingLists.Some?
  {
    if hunt.Some? && hunt.value.mailingLists.Some? then Some(Join(hunt.value.mailingLists.value)) else None
  }

  // ------------------------------------------------------------- form chrome

  /** `${x}` of an optional value: `undefined` prints as "undefined". */
  function Interpolate(o: Option<string>): string {
    if o.Some? then o.value else "undefined"
  }

  /** The prefix of the form's element ids. */
  function IdPrefix(hunt: Option<Hunt>): (r: string)
    ensures hunt.None? ==> r == "jr-hunt-new-modal-"
    ensures hunt.Some? ==> r == "jr-hunt-" + Interpolate(hunt.value.id) + "-modal-"
  {
    if hunt.Some? then "jr-hunt-" + Interpolate(hunt.value.id) + "-modal-" else "jr-hunt-new-modal-"
  }

  /** The form's title. */
  function Title(hunt: Option<Hunt>): (r: string)
    ensures r == "Edit Hunt" <==> hunt.Some?
    ensures r == "New Hunt" <==> hunt.None?
  {
    if hunt.Some? then "Edit Hunt" else "New Hunt"
  }

  /** The edit form of a hunt and the new-hunt form have distinct ids unless the hunt's `id` is "new". */
  lemma IdPrefixesDiffer(h: Hunt)
    ensures IdPrefix(Some(h)) != IdPrefix(None) <==> Interpolate(h.id) != "new"
  {
    var x := Interpolate(h.id);
    var p := IdPrefix(Some(h));
    assert p == "jr-hunt-" + x + "-modal-";
    if |x| == 3 {
      assert p[8..11] == x;
    }
  }

  /** Every hunt object without an `id` property shares one prefix. */
  lemma MissingIdsShareOnePrefix(h1: Hunt, h2: Hunt)
    requires h1.id.None? && h2.id.None?
    ensures IdPrefix(Some(h1)) == IdPrefix(Some(h2)) == "jr-hunt-undefined-modal-"
  {
  }

  /** The element ids and label targets of the form: name label, name input, list label, list input. */
  datatype FormIds = FormIds(nameLabelFor: string, nameInput: string, listsLabelFor: string, listsInput: string)

  /** The ids as written: the list input reuses the name input's id. */
  function FormIdsAsWritten(hunt: Option<Hunt>): FormIds {
    var p := IdPrefix(hunt);
    FormIds(p + "name", p + "name", p + "mailing-lists", p + "name")
  }

  /** The mailing-list label points at no control, and two inputs share one id. */
  lemma FormIdsAsWrittenClash(hunt: Option<Hunt>)
    ensures var f := FormIdsAsWritten(hunt);
            f.nameInput == f.listsInput && f.listsLabelFor != f.listsInput && f.listsLabelFor != f.nameInput
  {
    var p := IdPrefix(hunt);
    assert (p + "mailing-lists")[|p|] == 'm';
    assert (p + "name")[|p|] == 'n';
  }

  /** The ids as intended: each input carries the id its label names. */
  function IntendedFormIds(hunt: Option<Hunt>): (f: FormIds)
    ensures f.nameLabelFor == f.nameInput && f.listsLabelFor == f.listsInput
  {
    var p := IdPrefix(hunt);
    FormIds(p + "name", p + "name", p + "mailing-lists", p + "mailing-lists")
  }

  /** With the intended ids the two inputs are distinct. */
  lemma FormIdsDistinct(hunt: Option<Hunt>)
    ensures IntendedFormIds(hunt).nameInput != IntendedFormIds(hunt).listsInput
  {
    var p := IdPrefix(hunt);
    assert (p + "mailing-lists")[|p|] == 'm';
    assert (p + "name")[|p|] == 'n';
  }

  // ------------------------------------------------------------ links, buttons

  /** Where a hunt's name links: the hunt page for operators, its puzzle list otherwise. */
  function LinkTarget(isOperator: bool, huntId: string): (r: string)
    ensures |r| >= 7 + |huntId| && r[..7] == "/hunts/" && r[7..7 + |huntId|] == huntId
    ensures isOperator <==> |r| == 7 + |huntId|
    ensures !isOperator ==> r[7 + |huntId|..] == "/puzzles"
  {
    if isOperator then "/hunts/" + huntId else "/hunts/" + huntId + "/puzzles"
  }

  /** The index of the first '/' in `s`, or `|s|`. */
  function SlashIndex(s: string): (k: nat)
    ensures k <= |s| && (k < |s| ==> s[k] == '/') && forall m :: 0 <= m < k ==> s[m] != '/'
  {
    if |s| == 0 || s[0] == '/' then 0 else 1 + SlashIndex(s[1..])
  }

  /** The route a link names: `/hunts/:id` (operator view) or `/hunts/:id/puzzles`. */
  function RouteOf(link: string): Option<(bool, string)> {
    if |link| >= 7 && link[..7] == "/hunts/" then
      var rest := link[7..];
      var k := SlashIndex(rest);
      if k == |rest| then Some((true, rest))
      else if rest[k..] == "/puzzles" then Some((false, rest[..k]))
      else None
    else None
  }

  lemma SlashIndexAfter(id: string, t: string)
    requires '/' !in id && (|t| > 0 ==> t[0] == '/')
    ensures SlashIndex(id + t) == |id|
  {
    var s := id + t;
    var k := SlashIndex(s);
    assert forall m :: 0 <= m < |id| ==> s[m] == id[m] && id[m] in id;
    if |t| > 0 {
      assert s[|id|] == t[0];
    }
  }

  /** The link's route reads back the view and the hunt id. */
  lemma RouteOfLinkTarget(isOperator: bool, huntId: string)
    requires '/' !in huntId
    ensures RouteOf(LinkTarget(isOperator, huntId)) == Some((isOperator, huntId))
  {
    var r := LinkTarget(isOperator, huntId);
    var t: string := if isOperator then "" else "/puzzles";
    assert r == "/hunts/" + (huntId + t);
    assert r[7..] == huntId + t;
    SlashIndexAfter(huntId, t);
    assert (huntId + t)[..|huntId|] == huntId && (huntId + t)[|huntId|..] == t;
  }

  /** Operators and other users never share a link for the same hunt, and different hunts never share one. */
  lemma LinkTargetsDistinct(op1: bool, id1: string, op2: bool, id2: string)
    requires LinkTarget(op1, id1) == LinkTarget(op2, id2)
    requires '/' !in id1 && '/' !in id2
    ensures op1 == op2 && id1 == id2
  {
    RouteOfLinkTarget(op1, id1);
    RouteOfLinkTarget(op2, id2);
  }

  datatype Button = EditHunt | DeleteHunt | AddHunt

  /** The permission results the page reads. */
  datatype Permissions = Permissions(isOperator: bool, canUpdate: bool, canRemove: bool, canAdd: bool)

  /** The button group of one hunt: edit, then delete, each only with its permission. */
  function HuntButtons(p: Permissions): (r: seq<Button>)
    ensures EditHunt in r <==> p.canUpdate
    ensures DeleteHunt in r <==> p.canRemove
    ensures AddHunt !in r
    ensures |r| == 2 ==> r == [EditHunt, DeleteHunt]
    ensures |r| <= 2
  {
    (if p.canUpdate then [EditHunt] else []) + (if p.canRemove then [DeleteHunt] else [])
  }

  /** The page's own buttons: add, only with the insert permission. */
  function PageButtons(p: Permissions): (r: seq<Button>)
    ensures AddHunt in r <==> p.canAdd
    ensures |r| <= 1
  {
    if p.canAdd then [AddHunt] else []
  }

  // ----------------------------------------------------------------- writes

  /** A hunt saved from the form. */
  function Edited(h: Hunt, name: string, listsText: string): (r: Hunt)
    ensures r.docId == h.docId && r.id == h.id && r.name == name
    ensures r.mailingLists == Some(Split(listsText))
    ensures r.mailingLists.Some? && forall e :: e in r.mailingLists.value ==> NoSep(e)
  {
    h.(name := name, mailingLists := Some(Split(listsText)))
  }

  /** Saving the edit form unchanged keeps a clean list of mailing lists. */
  lemma SaveUnchangedKeepsLists(h: Hunt)
    requires h.mailingLists.Some? && CleanLists(h.mailingLists.value)
    ensures Edited(h, h.name, MailingListsDefault(Some(h)).value) == h
  {
    SplitJoin(h.mailingLists.value);
  }

  /** The Hunts collection as the page writes it. */
  class HuntsCollection {
    var hunts: seq<Hunt>

    /** `_id` is unique in a collection. */
    predicate Valid()
      reads this
    {
      forall k, j :: 0 <= k < j < |hunts| ==> hunts[k].docId != hunts[j].docId
    }

    constructor (hunts0: seq<Hunt>)
      requires forall k, j :: 0 <= k < j < |hunts0| ==> hunts0[k].docId != hunts0[j].docId
      ensures Valid() && hunts == hunts0
    {
      hunts := hunts0;
    }

    /**
     * `onEdit`: `$set` the name and the split lists on the hunt with that
     * `_id`. The update has no `multi`, and `_id` is unique, so at most one
     * hunt changes.
     */
    method OnEdit(huntId: string, nameText: string, listsText: string)
      requires Valid()
      modifies this
      ensures Valid()
      ensures |hunts| == |old(hunts)|
      ensures forall k :: 0 <= k < |hunts| ==>
        hunts[k] == if old(hunts)[k].docId == huntId then Edited(old(hunts)[k], nameText, listsText) else old(hunts)[k]
      ensures forall k, j :: 0 <= k < j < |hunts| ==> hunts[k] == old(hunts)[k] || hunts[j] == old(hunts)[j]
    {
      var lists := Split(listsText);
      var i := 0;
      while i < |hunts|
        invariant 0 <= i <= |hunts| == |old(hunts)|
        invariant forall k :: 0 <= k < i ==>
          hunts[k] == if old(hunts)[k].docId == huntId then Edited(old(hunts)[k], nameText, listsText) else old(hunts)[k]
        invariant forall k :: i <= k < |hunts| ==> hunts[k] == old(hunts)[k]
      {
        if hunts[i].docId == huntId {
          hunts := hunts[i := hunts[i].(name := nameText, mailingLists := Some(lists))];
        }
        i := i + 1;
      }
    }

    /** `onAdd`: insert a hunt with the name and the split lists, under a fresh id. */
    method OnAdd(newId: string, nameText: string, listsText: string)
      requires Valid() && forall k :: 0 <= k < |hunts| ==> hunts[k].docId != newId
      modifies this
      ensures Valid()
      ensures hunts == old(hunts) + [Hunt(newId, None, nameText, Some(Split(listsText)))]
    {
      hunts := hunts + [Hunt(newId, None, nameText, Some(Split(listsText)))];
    }
  }
}
