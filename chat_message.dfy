/**
 * The `ChatMessage` schema: a message's content tree of mention and text
 * nodes, the `contentFromMessage` constructor for plain text, and the
 * field rules of a stored chat message. The fields `withCommon` adds are
 * not part of this model.
 */
module ChatMessage {
  import opened Wrappers
  import opened Json

  /** `ContentNode`: a mention of a user, or a run of text (possibly empty). */
  datatype ContentNode = Mention(userId: string) | Text(text: string)

  /** `ChatMessageContent`: `{ type: 'message', children }`. */
  datatype Content = Content(children: seq<ContentNode>)

  /** A chat message that passed validation; `timestamp` is the date in milliseconds. */
  datatype ChatMessage = ChatMessage(hunt: string, puzzle: string, text: Option<string>, content: Option<Content>,
                                     sender: Option<string>, timestamp: int)

  /** `MentionBlock`: the literal type 'mention' and a user id. */
  predicate IsMentionBlock(v: Value) {
    v.Obj? && "type" in v.fields && v.fields["type"] == Str("mention") && "userId" in v.fields && IsForeignKey(v.fields["userId"])
  }

  /** `TextBlock`: a `text` string, which may be empty. */
  predicate IsTextBlock(v: Value) {
    v.Obj? && "text" in v.fields && v.fields["text"].Str?
  }

  /** `z.union([MentionBlock, TextBlock])`: the first option that accepts wins, and unknown keys are stripped. */
  function ParseNode(v: Value): (r: Option<ContentNode>)
    ensures r.Some? <==> IsMentionBlock(v) || IsTextBlock(v)
    ensures IsMentionBlock(v) ==> r == Some(Mention(v.fields["userId"].s))
    ensures !IsMentionBlock(v) && IsTextBlock(v) ==> r == Some(Text(v.fields["text"].s))
  {
    if IsMentionBlock(v) then Some(Mention(v.fields["userId"].s))
    else if IsTextBlock(v) then Some(Text(v.fields["text"].s))
    else None
  }

  /** `ContentNode.array()`: every item must parse. */
  function ParseNodes(items: seq<Value>): (r: Option<seq<ContentNode>>)
    ensures r.Some? <==> forall i :: 0 <= i < |items| ==> ParseNode(items[i]).Some?
    ensures r.Some? ==> |r.value| == |items| && forall i :: 0 <= i < |items| ==> r.value[i] == ParseNode(items[i]).value
    decreases |items|
  {
    if |items| == 0 then Some([])
    else
      var head := ParseNode(items[0]);
      var tail := ParseNodes(items[1..]);
      assert forall i :: 1 <= i < |items| ==> items[1..][i - 1] == items[i];
      if head.Some? && tail.Some? then Some([head.value] + tail.value)
      else
        assert head.None? ==> ParseNode(items[0]).None?;
        assert tail.None? ==> exists i :: 1 <= i < |items| && ParseNode(items[i]).None? by {
          if tail.None? {
            var k :| 0 <= k < |items[1..]| && ParseNode(items[1..][k]).None?;
            assert items[k + 1] == items[1..][k];
          }
        }
        None
  }

  /** `ChatMessageContent.parse(v)`. */
  function ParseContent(v: Value): (r: Option<Content>)
    ensures r.Some? <==> v.Obj? && "type" in v.fields && v.fields["type"] == Str("message") &&
                         "children" in v.fields && v.fields["children"].Arr? &&
                         ParseNodes(v.fields["children"].items).Some?
  {
    if v.Obj? && "type" in v.fields && v.fields["type"] == Str("message") &&
       "children" in v.fields && v.fields["children"].Arr?
    then
      var nodes := ParseNodes(v.fields["children"].items);
      if nodes.Some? then Some(Content(nodes.value)) else None
    else None
  }

  function EncodeNode(n: ContentNode): Value {
    match n
    case Mention(u) => Obj(map["type" := Str("mention"), "userId" := Str(u)])
    case Text(t) => Obj(map["text" := Str(t)])
  }

  function EncodeContent(c: Content): (v: Value)
    ensures v.Obj? && "children" in v.fields && v.fields["children"].Arr? && |v.fields["children"].items| == |c.children|
  {
    Obj(map["type" := Str("message"), "children" := Arr(seq(|c.children|, i requires 0 <= i < |c.children| => EncodeNode(c.children[i])))])
  }

  /** Every mention names a user: `foreignKey` rejects the empty id. */
  predicate WellFormedContent(c: Content) {
    forall i :: 0 <= i < |c.children| ==> (c.children[i].Mention? ==> |c.children[i].userId| > 0)
  }

  /** A well-formed content tree survives storage unchanged. */
  lemma ParseEncodeContent(c: Content)
    requires WellFormedContent(c)
    ensures ParseContent(EncodeContent(c)) == Some(c)
  {
    var items := EncodeContent(c).fields["children"].items;
    forall i | 0 <= i < |items| ensures ParseNode(items[i]) == Some(c.children[i]) {
      assert items[i] == EncodeNode(c.children[i]);
      match c.children[i]
      case Mention(u) => assert IsMentionBlock(items[i]);
      case Text(t) => assert !IsMentionBlock(items[i]);
    }
    var r := ParseNodes(items);
    assert r.value == c.children;
  }

  /** `contentFromMessage(msg)`: one text child holding the whole message. */
  function ContentFromMessage(msg: string): (c: Content)
    ensures |c.children| == 1 && c.children[0] == Text(msg)
  {
    Content([Text(msg)])
  }

  /** What `contentFromMessage` builds validates as `ChatMessageContent` for every message, the empty one included. */
  lemma ContentFromMessageValid(msg: string)
    ensures ParseContent(EncodeContent(ContentFromMessage(msg))) == Some(ContentFromMessage(msg))
  {
    ParseEncodeContent(ContentFromMessage(msg));
  }

  /** `ChatMessage.parse(doc)` on the fields this schema declares. */
  function Parse(doc: Value): (r: Option<ChatMessage>)
    ensures r.Some? <==>
      HasNonEmpty(doc, "hunt") && HasNonEmpty(doc, "puzzle") && OptionalNonEmpty(doc, "text") &&
      ("content" !in doc.fields || ParseContent(doc.fields["content"]).Some?) &&
      OptionalNonEmpty(doc, "sender") && "timestamp" in doc.fields && doc.fields["timestamp"].Date?
    ensures r.Some? ==> |r.value.hunt| > 0 && |r.value.puzzle| > 0 &&
                        (r.value.text.Some? ==> |r.value.text.value| > 0) &&
                        (r.value.sender.Some? ==> |r.value.sender.value| > 0)
  {
    if HasNonEmpty(doc, "hunt") && HasNonEmpty(doc, "puzzle") && OptionalNonEmpty(doc, "text") &&
       ("content" !in doc.fields || ParseContent(doc.fields["content"]).Some?) &&
       OptionalNonEmpty(doc, "sender") && "timestamp" in doc.fields && doc.fields["timestamp"].Date?
    then
      Some(ChatMessage(
        doc.fields["hunt"].s, doc.fields["puzzle"].s,
        if "text" in doc.fields then Some(doc.fields["text"].s) else None,
        if "content" in doc.fields then ParseContent(doc.fields["content"]) else None,
        if "sender" in doc.fields then Some(doc.fields["sender"].s) else None,
        doc.fields["timestamp"].ms))
    else None
  }

  /** A message without a sender is a system message. */
  predicate IsSystemMessage(m: ChatMessage) {
    m.sender.None?
  }

  /** The field rules every accepted chat message satisfies. */
  predicate WellFormed(m: ChatMessage) {
    |m.hunt| > 0 && |m.puzzle| > 0 && (m.text.Some? ==> |m.text.value| > 0) &&
    (m.content.Some? ==> WellFormedContent(m.content.value)) && (m.sender.Some? ==> |m.sender.value| > 0)
  }

  /** The document a chat message is stored as; optional fields that are absent are left out. */
  function Encode(m: ChatMessage): Value {
    var base := map["hunt" := Str(m.hunt), "puzzle" := Str(m.puzzle), "timestamp" := Date(m.timestamp)];
    var withContent := if m.content.Some? then base["content" := EncodeContent(m.content.value)] else base;
    Obj(OptField(OptField(withContent, "text", m.text), "sender", m.sender))
  }

  /** The stored document holds the required fields and exactly the optional fields that are present. */
  lemma EncodeFields(m: ChatMessage)
    ensures var f := Encode(m).fields;
            "hunt" in f && f["hunt"] == Str(m.hunt) && "puzzle" in f && f["puzzle"] == Str(m.puzzle) &&
            "timestamp" in f && f["timestamp"] == Date(m.timestamp) &&
            ("text" in f <==> m.text.Some?) && (m.text.Some? ==> f["text"] == Str(m.text.value)) &&
            ("sender" in f <==> m.sender.Some?) && (m.sender.Some? ==> f["sender"] == Str(m.sender.value)) &&
            ("content" in f <==> m.content.Some?) && (m.content.Some? ==> f["content"] == EncodeContent(m.content.value))
  {
    var base := map["hunt" := Str(m.hunt), "puzzle" := Str(m.puzzle), "timestamp" := Date(m.timestamp)];
    var withContent := if m.content.Some? then base["content" := EncodeContent(m.content.value)] else base;
    assert "text" !in withContent && "sender" !in withContent;
    assert "content" in withContent <==> m.content.Some?;
    var withText := OptField(withContent, "text", m.text);
    assert Encode(m).fields == OptField(withText, "sender", m.sender);
  }

  /** A well-formed chat message, system messages included, survives storage unchanged. */
  lemma ParseEncode(m: ChatMessage)
    requires WellFormed(m)
    ensures Parse(Encode(m)) == Some(m)
  {
    EncodeFields(m);
    var doc := Encode(m);
    if m.content.Some? {
      ParseEncodeContent(m.content.value);
    }
    assert ("content" !in doc.fields || ParseContent(doc.fields["content"]).Some?);
  }
}
