/**
 * The puzzle page's decision logic: finding the active puzzle by id, the
 * HH:MM stamp of each chat message, the chat input's Enter-to-send rule,
 * and the chat history's stick-to-bottom scrolling.
 */
module PuzzlePage {
  import opened Wrappers

  /** A puzzle of the hunt; only its `_id` takes part in the lookup. */
  datatype Puzzle = Puzzle(id: string, title: string)

  // ---------------------------------------------------------- findPuzzleById

  /** `puzzles[i]` is the first puzzle with this id. */
  predicate FirstWithId(puzzles: seq<Puzzle>, id: string, i: int) {
    0 <= i < |puzzles| && puzzles[i].id == id && forall k :: 0 <= k < i ==> puzzles[k].id != id
  }

  /** `findPuzzleById`: the first puzzle whose `_id` is `id`, or undefined when none matches. */
  method FindPuzzleById(puzzles: seq<Puzzle>, id: string) returns (r: Option<Puzzle>)
    ensures r.None? <==> forall k :: 0 <= k < |puzzles| ==> puzzles[k].id != id
    ensures r.Some? ==> exists i :: FirstWithId(puzzles, id, i) && r.value == puzzles[i]
  {
    var i := 0;
    while i < |puzzles|
      invariant 0 <= i <= |puzzles|
      invariant forall k :: 0 <= k < i ==> puzzles[k].id != id
    {
      var puzzle := puzzles[i];
      if puzzle.id == id {
        assert FirstWithId(puzzles, id, i);
        return Some(puzzle);
      }
      i := i + 1;
    }
    return None;
  }

  /** At most one index is the first match, so the puzzle found is determined by the list and the id. */
  lemma FirstWithIdUnique(puzzles: seq<Puzzle>, id: string, i: int, j: int)
    requires FirstWithId(puzzles, id, i) && FirstWithId(puzzles, id, j)
    ensures i == j
  {
  }

  // ------------------------------------------------------------- timestamps

  function Digit(d: nat): (c: char)
    requires d < 10
    ensures '0' <= c <= '9' && c as int - '0' as int == d
  {
    "0123456789"[d]
  }

  /** `'' + n`: the decimal digits of a natural number. */
  function Decimal(n: nat): (s: string)
    ensures |s| >= 1 && (n < 10 <==> |s| == 1)
    ensures n < 100 ==> |s| <= 2
  {
    if n < 10 then [Digit(n)] else Decimal(n / 10) + [Digit(n % 10)]
  }

  /** `n < 10 ? '0' + n : '' + n`. */
  function Padded(n: nat): string {
    if n < 10 then "0" + Decimal(n) else Decimal(n)
  }

  predicate IsDigit(c: char) {
    '0' <= c <= '9'
  }

  function DigitValue(c: char): int {
    c as int - '0' as int
  }

  /** Two characters are the zero-padded decimal digits of `n`. */
  predicate TwoDigits(a: char, b: char, n: int) {
    IsDigit(a) && IsDigit(b) && DigitValue(a) * 10 + DigitValue(b) == n
  }

  lemma PaddedDigits(n: nat)
    requires n < 100
    ensures |Padded(n)| == 2 && TwoDigits(Padded(n)[0], Padded(n)[1], n)
  {
    if n >= 10 {
      assert Decimal(n / 10) == [Digit(n / 10)];
      assert Padded(n) == [Digit(n / 10), Digit(n % 10)];
    }
  }

  /** The stamp of a message: hours and minutes of its local time, each as two digits, joined by ':'. */
  function FormatTimestamp(hours: nat, minutes: nat): (r: string)
    requires hours < 24 && minutes < 60
    ensures |r| == 5 && r[2] == ':'
    ensures TwoDigits(r[0], r[1], hours) && TwoDigits(r[3], r[4], minutes)
  {
    PaddedDigits(hours);
    PaddedDigits(minutes);
    var r := Padded(hours) + ":" + Padded(minutes);
    assert r[0] == Padded(hours)[0] && r[1] == Padded(hours)[1];
    assert r[3] == Padded(minutes)[0] && r[4] == Padded(minutes)[1];
    r
  }

  /** Reading a stamp back. */
  function ParseTimestamp(s: string): Option<(int, int)> {
    if |s| == 5 && s[2] == ':' && IsDigit(s[0]) && IsDigit(s[1]) && IsDigit(s[3]) && IsDigit(s[4])
    then Some((DigitValue(s[0]) * 10 + DigitValue(s[1]), DigitValue(s[3]) * 10 + DigitValue(s[4])))
    else None
  }

  /** A stamp reads back as the hours and minutes it shows, so distinct times give distinct stamps. */
  lemma ParseFormatTimestamp(hours: nat, minutes: nat)
    requires hours < 24 && minutes < 60
    ensures ParseTimestamp(FormatTimestamp(hours, minutes)) == Some((hours as int, minutes as int))
  {
  }

  // --------------------------------------------------------------- ChatInput

  /** What a key press does: whether the default is prevented, what is sent, and the text afterwards. */
  datatype KeyOutcome = KeyOutcome(preventDefault: bool, sent: Option<string>, text: string)

  /** `onKeyDown`: Enter without Shift never inserts a newline, and sends a non-empty text, clearing it. */
  function KeyDown(text: string, key: string, shiftKey: bool): (r: KeyOutcome)
    ensures r.preventDefault <==> key == "Enter" && !shiftKey
    ensures r.sent.Some? <==> key == "Enter" && !shiftKey && text != ""
    ensures r.sent.Some? ==> r.sent.value == text && r.text == ""
    ensures r.sent.None? ==> r.text == text
  {
    if key == "Enter" && !shiftKey then
      if text != "" then KeyOutcome(true, Some(text), "") else KeyOutcome(true, None, text)
    else KeyOutcome(false, None, text)
  }

  /** Pressing Enter twice sends once: the second press finds the text empty. */
  lemma EnterTwiceSendsOnce(text: string)
    ensures KeyDown(KeyDown(text, "Enter", false).text, "Enter", false).sent.None?
  {
  }

  /** The chat input of one puzzle, with the `sendChatMessage` calls it has made. */
  class ChatInput {
    const puzzleId: string
    var text: string
    /** `(puzzleId, text)` of each `sendChatMessage` call, oldest first. */
    var calls: seq<(string, string)>

    constructor (puzzle: string)
      ensures puzzleId == puzzle && text == "" && calls == []
    {
      puzzleId := puzzle;
      text := "";
      calls := [];
    }

    /** `onInputChanged`. */
    method OnInputChanged(value: string)
      modifies this
      ensures text == value && calls == old(calls)
    {
      text := value;
    }

    method OnKeyDown(key: string, shiftKey: bool) returns (preventDefault: bool)
      modifies this
      ensures var o := KeyDown(old(text), key, shiftKey);
              preventDefault == o.preventDefault && text == o.text &&
              calls == old(calls) + (if o.sent.Some? then [(puzzleId, o.sent.value)] else [])
    {
      preventDefault := false;
      if key == "Enter" && !shiftKey {
        preventDefault := true;
        if text != "" {
          calls := calls + [(puzzleId, text)];
          text := "";
        }
      }
    }
  }

  // ------------------------------------------------------------- ChatHistory

  /** `clientHeight + scrollTop >= scrollHeight`: the pane shows its last line. */
  predicate AtBottom(clientHeight: int, scrollTop: int, scrollHeight: int) {
    clientHeight + scrollTop >= scrollHeight
  }

  /** The DOM's clamp of an assigned `scrollTop` to `[0, scrollHeight - clientHeight]`. */
  function ClampScroll(want: int, clientHeight: int, scrollHeight: int): (r: int)
    ensures 0 <= r
    ensures r <= want || r == 0
  {
    var max := if scrollHeight - clientHeight > 0 then scrollHeight - clientHeight else 0;
    if want < 0 then 0 else if want > max then max else want
  }

  /** Scrolling to `scrollHeight` always lands at the bottom. */
  lemma ClampedScrollAtBottom(clientHeight: nat, scrollHeight: nat)
    ensures AtBottom(clientHeight, ClampScroll(scrollHeight, clientHeight, scrollHeight), scrollHeight)
  {
  }

  /** The message pane: its three measurements and the component's `shouldScroll` field. */
  class MessagePane {
    var clientHeight: nat
    var scrollTop: nat
    var scrollHeight: nat
    var shouldScroll: bool

    constructor (client: nat, content: nat)
      ensures clientHeight == client && scrollHeight == content && scrollTop == 0 && !shouldScroll
    {
      clientHeight := client;
      scrollHeight := content;
      scrollTop := 0;
      shouldScroll := false;
    }

    /** `saveShouldScroll`. */
    method SaveShouldScroll()
      modifies this
      ensures shouldScroll <==> AtBottom(clientHeight, scrollTop, scrollHeight)
      ensures clientHeight == old(clientHeight) && scrollTop == old(scrollTop) && scrollHeight == old(scrollHeight)
    {
      shouldScroll := clientHeight + scrollTop >= scrollHeight;
    }

    /** `forceScrollBottom`: scroll to the end and stick there. */
    method ForceScrollBottom()
      modifies this
      ensures shouldScroll
      ensures scrollTop == ClampScroll(scrollHeight, clientHeight, scrollHeight)
      ensures AtBottom(clientHeight, scrollTop, scrollHeight)
      ensures clientHeight == old(clientHeight) && scrollHeight == old(scrollHeight)
    {
      scrollTop := ClampScroll(scrollHeight, clientHeight, scrollHeight);
      ClampedScrollAtBottom(clientHeight, scrollHeight);
      shouldScroll := true;
    }

    /** `maybeForceScrollBottom`. */
    method MaybeForceScrollBottom()
      modifies this
      ensures old(shouldScroll) ==> shouldScroll && AtBottom(clientHeight, scrollTop, scrollHeight)
      ensures !old(shouldScroll) ==> scrollTop == old(scrollTop) && !shouldScroll
      ensures clientHeight == old(clientHeight) && scrollHeight == old(scrollHeight)
    {
      if shouldScroll {
        ForceScrollBottom();
      }
    }

    /**
     * A re-render that changes the content's height to `newHeight`:
     * `componentWillUpdate` saves the flag, the new messages arrive (the
     * browser clamps `scrollTop` to the new height), `componentDidUpdate`
     * scrolls. A pane at its bottom before stays at its bottom; one scrolled
     * up keeps its place, clamped, and exactly its place when the content grows.
     */
    method Update(newHeight: nat)
      modifies this
      ensures scrollHeight == newHeight && clientHeight == old(clientHeight)
      ensures AtBottom(old(clientHeight), old(scrollTop), old(scrollHeight)) ==> AtBottom(clientHeight, scrollTop, scrollHeight)
      ensures !AtBottom(old(clientHeight), old(scrollTop), old(scrollHeight)) ==>
        scrollTop == ClampScroll(old(scrollTop), clientHeight, newHeight)
      ensures !AtBottom(old(clientHeight), old(scrollTop), old(scrollHeight)) && newHeight >= old(scrollHeight) ==>
        scrollTop == old(scrollTop)
    {
      SaveShouldScroll();
      scrollHeight := newHeight;
      scrollTop := ClampScroll(scrollTop, clientHeight, newHeight);
      MaybeForceScrollBottom();
    }
  }
}
