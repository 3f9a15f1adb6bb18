/**
 * The decisions of the client's notification center: which toasts it
 * shows and in what order, the record of dismissed guesses, the Discord
 * "Add me" button, and an announcement toast that hides once dismissed.
 * Rendering, subscriptions and the methods the toasts call are not part
 * of this model; what the trackers return is the input `Inputs`.
 */
module NotificationCenter {
  import opened Wrappers

  /** A pending guess; dates are milliseconds. */
  datatype Guess = Guess(id: string, hunt: string, puzzle: string, createdBy: string, createdAt: int, updatedAt: Option<int>)
  datatype PendingAnnouncement = PendingAnnouncement(id: string, announcement: string, user: string)
  datatype ChatNotification = ChatNotification(id: string, hunt: string, puzzle: string, sender: string, timestamp: int)

  /** One toast, in the order the `messages` array receives it. */
  datatype Message =
    | ProfileMissing
    | DiscordSetup
    | GuessToast(guessId: string, createdAt: int)
    | AnnouncementToast(pendingId: string)
    | ChatToast(notificationId: string)

  /**
   * What the trackers and subscriptions return. The three collections are
   * the query results in the query's sort order; `pendingAnnouncements` is
   * the whole client-side collection, which the code filters by user.
   */
  datatype Inputs = Inputs(
    userId: string,
    displayName: Option<string>,
    discordAccount: Option<string>,
    operatorForAnyHunt: bool,
    pendingGuessesLoading: bool,
    pendingAnnouncementsLoading: bool,
    chatNotificationsLoading: bool,
    dingwordsDisabled: bool,
    discordServiceConfigured: bool,
    discordDisabled: bool,
    pendingGuesses: seq<Guess>,
    pendingAnnouncements: seq<PendingAnnouncement>,
    chatNotifications: seq<ChatNotification>)

  /** Any of the three subscriptions is still loading. */
  predicate Loading(inp: Inputs) {
    inp.pendingGuessesLoading || inp.pendingAnnouncementsLoading || inp.chatNotificationsLoading
  }

  /** A Discord service configuration exists and 'disable.discord' is off. */
  predicate DiscordEnabledOnServer(inp: Inputs) {
    inp.discordServiceConfigured && !inp.discordDisabled
  }

  /** `!!(user.displayName)`: the empty name counts as none. */
  predicate HasOwnProfile(inp: Inputs) {
    inp.displayName.Some? && inp.displayName.value != ""
  }

  /** `!!(user.discordAccount)`: any linked account object counts. */
  predicate DiscordConfiguredByUser(inp: Inputs) {
    inp.discordAccount.Some?
  }

  /** `Record<string, Date>` of dismissal times. */
  type Dismissed = map<string, int>

  /**
   * `dismissGuess` as written: a new record holding `now` for the guess,
   * then `Object.assign(newState, prev)`, which copies every earlier entry
   * over it, so an already-dismissed guess keeps its earlier time.
   */
  function DismissGuessAsWritten(prev: Dismissed, guessId: string, now: int): (r: Dismissed)
    ensures r.Keys == prev.Keys + {guessId}
    ensures guessId in r && r[guessId] == (if guessId in prev then prev[guessId] else now)
    ensures forall k :: k in prev ==> r[k] == prev[k]
  {
    map k | k in prev.Keys + {guessId} :: if k in prev then prev[k] else now
  }

  /** `dismissGuess` as intended: the guess's dismissal time becomes `now`, other entries stay. */
  function DismissGuess(prev: Dismissed, guessId: string, now: int): (r: Dismissed)
    ensures r.Keys == prev.Keys + {guessId}
    ensures guessId in r && r[guessId] == now
    ensures forall k :: k in prev && k != guessId ==> r[k] == prev[k]
  {
    prev[guessId := now]
  }

  /** The time a guess last changed, `updatedAt ?? createdAt`. */
  function LastChange(g: Guess): int {
    if g.updatedAt.Some? then g.updatedAt.value else g.createdAt
  }

  /** `operatorActionsHidden[hunt]` is truthy. */
  predicate HuntHidden(hidden: map<string, bool>, hunt: string) {
    hunt in hidden && hidden[hunt]
  }

  /** A pending guess is shown unless it was dismissed after its last change or its hunt's operator actions are hidden. */
  predicate GuessShown(g: Guess, dismissed: Dismissed, hidden: map<string, bool>) {
    !(g.id in dismissed && dismissed[g.id] > LastChange(g)) && !HuntHidden(hidden, g.hunt)
  }

  /** The guess list: empty while loading or for a user who operates no hunt. */
  function Guesses(inp: Inputs): seq<Guess> {
    if Loading(inp) || !inp.operatorForAnyHunt then [] else inp.pendingGuesses
  }

  /** `PendingAnnouncements.find({ user })`, which keeps the collection's order. */
  function ForUser(pas: seq<PendingAnnouncement>, user: string): (r: seq<PendingAnnouncement>)
    ensures forall p :: p in r <==> p in pas && p.user == user
  {
    if |pas| == 0 then []
    else
      var init := pas[..|pas| - 1];
      var last := pas[|pas| - 1];
      assert forall p :: p in pas <==> p in init || p == last;
      ForUser(init, user) + (if last.user == user then [last] else [])
  }

  /** The pending announcement list: empty while loading, otherwise the user's own. */
  function PendingAnnouncements(inp: Inputs): seq<PendingAnnouncement> {
    if Loading(inp) then [] else ForUser(inp.pendingAnnouncements, inp.userId)
  }

  /** The chat notification list: empty while loading or with 'disable.dingwords' active. */
  function ChatNotifications(inp: Inputs): seq<ChatNotification> {
    if Loading(inp) || inp.dingwordsDisabled then [] else inp.chatNotifications
  }

  function GuessToasts(gs: seq<Guess>, dismissed: Dismissed, hidden: map<string, bool>): (r: seq<Message>)
    ensures forall m :: m in r ==> m.GuessToast?
    decreases |gs|
  {
    if |gs| == 0 then []
    else
      var g := gs[|gs| - 1];
      GuessToasts(gs[..|gs| - 1], dismissed, hidden) + (if GuessShown(g, dismissed, hidden) then [GuessToast(g.id, g.createdAt)] else [])
  }

  function AnnouncementToasts(pas: seq<PendingAnnouncement>): (r: seq<Message>)
    ensures |r| == |pas| && forall i :: 0 <= i < |pas| ==> r[i] == AnnouncementToast(pas[i].id)
  {
    seq(|pas|, i requires 0 <= i < |pas| => AnnouncementToast(pas[i].id))
  }

  function ChatToasts(cns: seq<ChatNotification>): (r: seq<Message>)
    ensures |r| == |cns| && forall i :: 0 <= i < |cns| ==> r[i] == ChatToast(cns[i].id)
  {
    seq(|cns|, i requires 0 <= i < |cns| => ChatToast(cns[i].id))
  }

  /** The profile and Discord setup toasts that open the list. */
  function SetupToasts(inp: Inputs, hideProfile: bool, hideDiscord: bool): seq<Message> {
    (if !HasOwnProfile(inp) && !hideProfile then [ProfileMissing] else []) +
    (if DiscordEnabledOnServer(inp) && !DiscordConfiguredByUser(inp) && !hideDiscord then [DiscordSetup] else [])
  }

  /** The toasts shown: nothing while loading, otherwise profile, Discord, guesses, announcements, chat notifications. */
  function Messages(inp: Inputs, hideProfile: bool, hideDiscord: bool, dismissed: Dismissed, hidden: map<string, bool>): seq<Message> {
    if Loading(inp) then []
    else
      SetupToasts(inp, hideProfile, hideDiscord) + GuessToasts(Guesses(inp), dismissed, hidden) +
      AnnouncementToasts(PendingAnnouncements(inp)) + ChatToasts(ChatNotifications(inp))
  }

  /** The position of each kind of toast in the list. */
  function Rank(m: Message): nat {
    match m
    case ProfileMissing => 0
    case DiscordSetup => 1
    case GuessToast(_, _) => 2
    case AnnouncementToast(_) => 3
    case ChatToast(_) => 4
  }

  lemma {:induction false} GuessToastsShown(gs: seq<Guess>, dismissed: Dismissed, hidden: map<string, bool>, id: string, createdAt: int)
    ensures GuessToast(id, createdAt) in GuessToasts(gs, dismissed, hidden) <==>
      exists g :: g in gs && g.id == id && g.createdAt == createdAt && GuessShown(g, dismissed, hidden)
    decreases |gs|
  {
    if |gs| > 0 {
      var init := gs[..|gs| - 1];
      GuessToastsShown(init, dismissed, hidden, id, createdAt);
      assert forall g :: g in gs <==> g in init || g == gs[|gs| - 1];
    }
  }

  /** Guess toasts in non-decreasing createdAt order. */
  predicate CreationSorted(ms: seq<Message>) {
    forall i, j :: 0 <= i < j < |ms| ==> ms[i].GuessToast? && ms[j].GuessToast? && ms[i].createdAt <= ms[j].createdAt
  }

  /** Guess toasts keep the query's createdAt order. */
  lemma {:induction false} GuessToastsSorted(gs: seq<Guess>, dismissed: Dismissed, hidden: map<string, bool>)
    requires forall i, j :: 0 <= i < j < |gs| ==> gs[i].createdAt <= gs[j].createdAt
    ensures CreationSorted(GuessToasts(gs, dismissed, hidden))
    ensures forall m :: m in GuessToasts(gs, dismissed, hidden) ==> exists k :: 0 <= k < |gs| && gs[k].createdAt == m.createdAt
    decreases |gs|
  {
    if |gs| > 0 {
      var n := |gs| - 1;
      var init := gs[..n];
      GuessToastsSorted(init, dismissed, hidden);
      var prev := GuessToasts(init, dismissed, hidden);
      var last: seq<Message> := if GuessShown(gs[n], dismissed, hidden) then [GuessToast(gs[n].id, gs[n].createdAt)] else [];
      var r := GuessToasts(gs, dismissed, hidden);
      assert r == prev + last;
      forall m | m in prev ensures m.createdAt <= gs[n].createdAt {
        var k :| 0 <= k < |init| && init[k].createdAt == m.createdAt;
        assert gs[k] == init[k];
      }
      assert CreationSorted(prev);
      forall i, j | 0 <= i < j < |r| ensures r[i].GuessToast? && r[j].GuessToast? && r[i].createdAt <= r[j].createdAt {
        if j < |prev| {
          assert r[i] == prev[i] && r[j] == prev[j];
        } else {
          assert |last| == 1 && j == |prev|;
          assert r[i] == prev[i] && prev[i] in prev;
          assert prev[i].createdAt <= gs[n].createdAt;
          assert r[j] == last[0] && last[0].createdAt == gs[n].createdAt;
        }
      }
      assert CreationSorted(r);
      forall m | m in r ensures exists k :: 0 <= k < |gs| && gs[k].createdAt == m.createdAt {
        if m in prev {
          var k :| 0 <= k < |init| && init[k].createdAt == m.createdAt;
          assert gs[k] == init[k];
        } else {
          assert m == last[0];
          assert gs[n].createdAt == m.createdAt;
        }
      }
    }
  }

  /** The profile toast shows iff the user has no display name and has not hidden it; none while loading. */
  lemma ProfileToastRule(inp: Inputs, hideProfile: bool, hideDiscord: bool, dismissed: Dismissed, hidden: map<string, bool>)
    ensures ProfileMissing in Messages(inp, hideProfile, hideDiscord, dismissed, hidden) <==>
            !Loading(inp) && !HasOwnProfile(inp) && !hideProfile
    ensures DiscordSetup in Messages(inp, hideProfile, hideDiscord, dismissed, hidden) <==>
            !Loading(inp) && DiscordEnabledOnServer(inp) && !DiscordConfiguredByUser(inp) && !hideDiscord
  {
    if !Loading(inp) {
      var g := GuessToasts(Guesses(inp), dismissed, hidden);
      var a := AnnouncementToasts(PendingAnnouncements(inp));
      var c := ChatToasts(ChatNotifications(inp));
      assert ProfileMissing !in g && DiscordSetup !in g;
      assert ProfileMissing !in a && DiscordSetup !in a;
      assert ProfileMissing !in c && DiscordSetup !in c;
    }
  }

  /** A guess toast shows iff the user operates a hunt and the pending guess passes `GuessShown`; no operator sees any. */
  lemma GuessToastRule(inp: Inputs, hideProfile: bool, hideDiscord: bool, dismissed: Dismissed, hidden: map<string, bool>,
                       id: string, createdAt: int)
    ensures GuessToast(id, createdAt) in Messages(inp, hideProfile, hideDiscord, dismissed, hidden) <==>
      !Loading(inp) && inp.operatorForAnyHunt &&
      exists g :: g in inp.pendingGuesses && g.id == id && g.createdAt == createdAt && GuessShown(g, dismissed, hidden)
  {
    GuessToastsShown(Guesses(inp), dismissed, hidden, id, createdAt);
    if !Loading(inp) {
      var a := AnnouncementToasts(PendingAnnouncements(inp));
      var c := ChatToasts(ChatNotifications(inp));
      assert GuessToast(id, createdAt) !in a && GuessToast(id, createdAt) !in c;
    }
  }

  /** With 'disable.dingwords' active no chat notification toast shows. */
  lemma NoChatToastsWithoutDingwords(inp: Inputs, hideProfile: bool, hideDiscord: bool, dismissed: Dismissed, hidden: map<string, bool>)
    requires inp.dingwordsDisabled
    ensures forall m :: m in Messages(inp, hideProfile, hideDiscord, dismissed, hidden) ==> !m.ChatToast?
  {
  }

  /** Kinds of toast never go backwards along `ms`. */
  predicate RankOrdered(ms: seq<Message>) {
    forall i, j :: 0 <= i < j < |ms| ==> Rank(ms[i]) <= Rank(ms[j])
  }

  /** Appending a block whose toasts all rank at least `k` after a list ranking at most `k` keeps the order. */
  lemma AppendOrdered(xs: seq<Message>, ys: seq<Message>, k: nat)
    requires RankOrdered(xs) && RankOrdered(ys)
    requires forall m :: m in xs ==> Rank(m) <= k
    requires forall m :: m in ys ==> Rank(m) >= k
    ensures RankOrdered(xs + ys)
  {
    var zs := xs + ys;
    forall i, j | 0 <= i < j < |zs| ensures Rank(zs[i]) <= Rank(zs[j]) {
      if j < |xs| {
        assert zs[i] == xs[i] && zs[j] == xs[j];
      } else if i >= |xs| {
        assert zs[i] == ys[i - |xs|] && zs[j] == ys[j - |xs|];
      } else {
        assert zs[i] == xs[i] && zs[i] in xs;
        assert zs[j] == ys[j - |xs|] && zs[j] in ys;
      }
    }
  }

  /** The list runs profile, Discord, guesses, announcements, chat notifications: kinds never go backwards. */
  lemma MessagesOrdered(inp: Inputs, hideProfile: bool, hideDiscord: bool, dismissed: Dismissed, hidden: map<string, bool>)
    ensures RankOrdered(Messages(inp, hideProfile, hideDiscord, dismissed, hidden))
  {
    if !Loading(inp) {
      var p := SetupToasts(inp, hideProfile, hideDiscord);
      var g := GuessToasts(Guesses(inp), dismissed, hidden);
      var a := AnnouncementToasts(PendingAnnouncements(inp));
      var c := ChatToasts(ChatNotifications(inp));
      assert RankOrdered(p) by {
        forall i, j | 0 <= i < j < |p| ensures Rank(p[i]) <= Rank(p[j]) {
          assert p == [ProfileMissing, DiscordSetup];
        }
      }
      assert forall m :: m in p ==> Rank(m) <= 1;
      assert forall m :: m in g ==> Rank(m) == 2;
      assert forall i :: 0 <= i < |a| ==> Rank(a[i]) == 3;
      assert forall i :: 0 <= i < |c| ==> Rank(c[i]) == 4;
      AppendOrdered(p, g, 2);
      AppendOrdered(p + g, a, 3);
      AppendOrdered(p + g + a, c, 4);
    }
  }

  /**
   * The merge as written keeps the first dismissal time: a guess updated
   * at 5 and dismissed at 10 is hidden; once it is updated again at 20 it
   * shows, and dismissing it at 30 leaves it shown.
   */
  lemma RedismissedGuessStillShown()
    ensures var once := DismissGuessAsWritten(map[], "g", 10);
            !GuessShown(Guess("g", "h", "p", "u", 0, Some(5)), once, map[]) &&
            GuessShown(Guess("g", "h", "p", "u", 0, Some(20)), DismissGuessAsWritten(once, "g", 30), map[])
  {
    var once := DismissGuessAsWritten(map[], "g", 10);
    assert once["g"] == 10;
    assert DismissGuessAsWritten(once, "g", 30)["g"] == 10;
  }

  /** With the intended merge, dismissing a guess after its last change hides it, whatever was dismissed before. */
  lemma DismissHidesGuess(prev: Dismissed, g: Guess, now: int, hidden: map<string, bool>)
    requires now > LastChange(g)
    ensures !GuessShown(g, DismissGuess(prev, g.id, now), hidden)
    ensures forall h: Guess :: h.id != g.id ==> (GuessShown(h, DismissGuess(prev, g.id, now), hidden) <==> GuessShown(h, prev, hidden))
  {
  }

  /**
   * The first dismissal of a guess behaves as intended even with the merge
   * as written: the guess hides, and no other guess's visibility changes.
   */
  lemma FirstDismissalHidesGuess(prev: Dismissed, g: Guess, now: int, hidden: map<string, bool>)
    requires g.id !in prev && now > LastChange(g)
    ensures DismissGuessAsWritten(prev, g.id, now) == DismissGuess(prev, g.id, now)
    ensures !GuessShown(g, DismissGuessAsWritten(prev, g.id, now), hidden)
    ensures forall h: Guess :: h.id != g.id ==>
      (GuessShown(h, DismissGuessAsWritten(prev, g.id, now), hidden) <==> GuessShown(h, prev, hidden))
  {
    DismissHidesGuess(prev, g, now, hidden);
  }

  /** The component's own state: the two hide flags and the dismissed guesses. */
  class CenterState {
    var hideDiscordSetupMessage: bool
    var hideProfileSetupMessage: bool
    var dismissedGuesses: Dismissed

    constructor ()
      ensures !hideDiscordSetupMessage && !hideProfileSetupMessage && dismissedGuesses == map[]
    {
      hideDiscordSetupMessage := false;
      hideProfileSetupMessage := false;
      dismissedGuesses := map[];
    }

    method OnHideDiscordSetupMessage()
      modifies this
      ensures hideDiscordSetupMessage
      ensures hideProfileSetupMessage == old(hideProfileSetupMessage) && dismissedGuesses == old(dismissedGuesses)
    {
      hideDiscordSetupMessage := true;
    }

    method OnHideProfileSetupMessage()
      modifies this
      ensures hideProfileSetupMessage
      ensures hideDiscordSetupMessage == old(hideDiscordSetupMessage) && dismissedGuesses == old(dismissedGuesses)
    {
      hideProfileSetupMessage := true;
    }

    /** `dismissGuess(guessId)` at time `now`, with the merge as written: an earlier dismissal time is kept. */
    method DismissGuessAt(guessId: string, now: int)
      modifies this
      ensures dismissedGuesses == DismissGuessAsWritten(old(dismissedGuesses), guessId, now)
      ensures hideDiscordSetupMessage == old(hideDiscordSetupMessage) && hideProfileSetupMessage == old(hideProfileSetupMessage)
    {
      var newState: Dismissed := map[guessId := now];
      dismissedGuesses := newState + dismissedGuesses;
    }

    /** The render: the `messages` array built by `push` in the code's `forEach` loops. */
    method BuildMessages(inp: Inputs, hidden: map<string, bool>) returns (messages: seq<Message>)
      ensures messages == Messages(inp, hideProfileSetupMessage, hideDiscordSetupMessage, dismissedGuesses, hidden)
    {
      if Loading(inp) {
        return [];
      }
      messages := [];
      if !HasOwnProfile(inp) && !hideProfileSetupMessage {
        messages := messages + [ProfileMissing];
      }
      if DiscordEnabledOnServer(inp) && !DiscordConfiguredByUser(inp) && !hideDiscordSetupMessage {
        messages := messages + [DiscordSetup];
      }
      assert messages == SetupToasts(inp, hideProfileSetupMessage, hideDiscordSetupMessage);
      var guessToasts := CollectGuessToasts(Guesses(inp), dismissedGuesses, hidden);
      var announcementToasts := CollectAnnouncementToasts(PendingAnnouncements(inp));
      var chatToasts := CollectChatToasts(ChatNotifications(inp));
      messages := messages + guessToasts + announcementToasts + chatToasts;
    }
  }

  /** The guesses `forEach`: a toast for each guess that passes `GuessShown`, in order. */
  method CollectGuessToasts(guesses: seq<Guess>, dismissed: Dismissed, hidden: map<string, bool>) returns (toasts: seq<Message>)
    ensures toasts == GuessToasts(guesses, dismissed, hidden)
  {
    toasts := [];
    var i := 0;
    while i < |guesses|
      invariant 0 <= i <= |guesses|
      invariant toasts == GuessToasts(guesses[..i], dismissed, hidden)
    {
      assert guesses[..i + 1][..i] == guesses[..i];
      var g := guesses[i];
      var skip := g.id in dismissed && dismissed[g.id] > LastChange(g);
      if !skip && !HuntHidden(hidden, g.hunt) {
        toasts := toasts + [GuessToast(g.id, g.createdAt)];
      }
      i := i + 1;
    }
    assert guesses[..i] == guesses;
  }

  /** The pending announcements `forEach`. */
  method CollectAnnouncementToasts(pas: seq<PendingAnnouncement>) returns (toasts: seq<Message>)
    ensures toasts == AnnouncementToasts(pas)
  {
    toasts := [];
    var j := 0;
    while j < |pas|
      invariant 0 <= j <= |pas|
      invariant toasts == AnnouncementToasts(pas[..j])
    {
      toasts := toasts + [AnnouncementToast(pas[j].id)];
      j := j + 1;
    }
    assert pas[..j] == pas;
  }

  /** The chat notifications `forEach`. */
  method CollectChatToasts(cns: seq<ChatNotification>) returns (toasts: seq<Message>)
    ensures toasts == ChatToasts(cns)
  {
    toasts := [];
    var k := 0;
    while k < |cns|
      invariant 0 <= k <= |cns|
      invariant toasts == ChatToasts(cns[..k])
    {
      toasts := toasts + [ChatToast(cns[k].id)];
      k := k + 1;
    }
    assert cns[..k] == cns;
  }

  // ------------------------------------------------------------ DiscordMessage

  datatype DiscordStatus = Idle | Linking | Failed | Succeeded

  /** `DiscordMessageState`: the status, and the error text shown in the ERROR state. */
  datatype DiscordState = DiscordState(status: DiscordStatus, error: Option<string>)

  /** The "Add me" button is enabled only in IDLE or ERROR. */
  predicate AddMeEnabled(s: DiscordState) {
    s.status == Idle || s.status == Failed
  }

  /** The error text under the button, shown only in ERROR. */
  function ErrorText(s: DiscordState): (r: Option<string>)
    ensures r.Some? ==> s.status == Failed
  {
    if s.status == Failed then s.error else None
  }

  /** `initiateOauthFlow`: the state goes to LINKING. */
  function InitiateOauthFlow(s: DiscordState): (r: DiscordState)
    ensures !AddMeEnabled(r)
  {
    DiscordState(Linking, None)
  }

  /**
   * `requestComplete`: no (or an empty) credential secret goes back to IDLE;
   * otherwise the link call's error, if any, gives ERROR with its message,
   * and success gives IDLE.
   */
  function RequestComplete(s: DiscordState, secret: Option<string>, linkError: Option<string>): (r: DiscordState)
    ensures AddMeEnabled(r)
    ensures r.status == Failed <==> secret.Some? && secret.value != "" && linkError.Some?
    ensures r.status == Failed ==> ErrorText(r) == linkError
  {
    if secret.None? || secret.value == "" then DiscordState(Idle, None)
    else if linkError.Some? then DiscordState(Failed, linkError)
    else DiscordState(Idle, None)
  }

  /** The SUCCESS status is never entered: every completion returns to a state where the button is enabled. */
  lemma NeverSucceeded(s: DiscordState, secret: Option<string>, linkError: Option<string>)
    ensures InitiateOauthFlow(s).status != Succeeded && RequestComplete(s, secret, linkError).status != Succeeded
  {
  }

  // ------------------------------------------------------- AnnouncementMessage

  /** One announcement toast, with its `dismissed` state and the dismissals it has sent. */
  class AnnouncementToastState {
    const id: string
    var dismissed: bool
    /** Ids passed to `dismissPendingAnnouncement`, oldest first. */
    var sent: seq<string>

    constructor (pendingId: string)
      ensures id == pendingId && !dismissed && sent == []
    {
      id := pendingId;
      dismissed := false;
      sent := [];
    }

    /** Whether the toast renders anything. */
    predicate Renders()
      reads this
    {
      !dismissed
    }

    /** `onDismiss`: hide, then ask the server to dismiss the pending announcement. */
    method OnDismiss()
      modifies this
      ensures !Renders()
      ensures sent == old(sent) + [id]
    {
      dismissed := true;
      sent := sent + [id];
    }
  }
}
