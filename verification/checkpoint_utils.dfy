/**
 * The checkpoint summariser: it digests a conversation's message list into
 * the newest human text and the newest AI text (flattened and truncated),
 * and decides which checkpoints the picker UI shows.
 */
module CheckpointUtils {
  import opened Common

  // ---------------------------------------------------------------------------
  // Messages
  // ---------------------------------------------------------------------------

  /** One element of a list-valued message content. */
  datatype Block =
    | DictBlock(blockType: Option<string>, text: Option<string>) // a mapping; either key may be missing
    | StrBlock(s: string)
    | OtherBlock                                                  // any other value

  /** The `content` of a message: a string, a list of blocks, or any other value with its `str()` rendering. */
  datatype Content =
    | TextContent(s: string)
    | BlockList(blocks: seq<Block>)
    | OtherContent(rendered: string)

  /** A message record; `None` stands for a missing `type` or `content` key. */
  datatype Message = Message(msgType: Option<string>, content: Option<Content>)

  const Ellipsis: string := "..."

  /** `msg.get("type", "")`. */
  function TypeOf(m: Message): string {
    m.msgType.GetOr("")
  }

  /** What one block contributes to the flattened text, if anything. */
  function BlockText(b: Block): Option<string> {
    match b
    case DictBlock(t, text) => if t == Some("text") then Some(text.GetOr("")) else None
    case StrBlock(s) => Some(s)
    case OtherBlock => None
  }

  /** The texts the contributing blocks yield, in block order. */
  function TextParts(blocks: seq<Block>): (parts: seq<string>)
    ensures |parts| <= |blocks|
    ensures (forall i :: 0 <= i < |blocks| ==> BlockText(blocks[i]).Some?) ==> |parts| == |blocks|
    ensures (forall i :: 0 <= i < |blocks| ==> BlockText(blocks[i]).None?) ==> parts == []
  {
    if blocks == [] then []
    else
      var init := TextParts(blocks[..|blocks| - 1]);
      match BlockText(blocks[|blocks| - 1])
      case Some(t) => init + [t]
      case None => init
  }

  /** Total length of a list of strings. */
  function TotalLength(parts: seq<string>): nat {
    if parts == [] then 0 else TotalLength(parts[..|parts| - 1]) + |parts[|parts| - 1]|
  }

  /** `" ".join(parts)`. */
  function JoinWithSpace(parts: seq<string>): (r: string)
    ensures parts == [] ==> r == ""
    ensures parts != [] ==> |r| == TotalLength(parts) + |parts| - 1
    ensures |parts| == 1 ==> r == parts[0]
  {
    if parts == [] then ""
    else if |parts| == 1 then parts[0]
    else JoinWithSpace(parts[..|parts| - 1]) + " " + parts[|parts| - 1]
  }

  /** Appending one part to a non-empty list adds one space and that part. */
  lemma JoinSnoc(p: seq<string>, x: string)
    requires p != []
    ensures JoinWithSpace(p + [x]) == JoinWithSpace(p) + " " + x
  {
    var px := p + [x];
    assert px[..|px| - 1] == p && px[|px| - 1] == x;
  }

  /** Joining two non-empty lists of parts puts exactly one space between their joins, in order. */
  lemma {:induction false} JoinWithSpaceAppend(a: seq<string>, b: seq<string>)
    requires a != [] && b != []
    ensures JoinWithSpace(a + b) == JoinWithSpace(a) + " " + JoinWithSpace(b)
    decreases |b|
  {
    var b' := b[..|b| - 1];
    var last := b[|b| - 1];
    assert b == b' + [last];
    assert a + b == (a + b') + [last];
    if b' == [] {
      JoinSnoc(a, last);
    } else {
      JoinWithSpaceAppend(a, b');
      JoinSnoc(a + b', last);
      JoinSnoc(b', last);
    }
  }

  /** The text of a content value before truncation. */
  function Flatten(c: Option<Content>): (r: string)
    ensures c.None? ==> r == ""
    ensures c.Some? && c.value.TextContent? ==> r == c.value.s
    ensures c.Some? && c.value.BlockList? && TextParts(c.value.blocks) == [] ==> r == ""
    ensures c.Some? && c.value.BlockList? && |TextParts(c.value.blocks)| == 1 ==> r == TextParts(c.value.blocks)[0]
    ensures c.Some? && c.value.BlockList? && TextParts(c.value.blocks) != [] ==>
              |r| == TotalLength(TextParts(c.value.blocks)) + |TextParts(c.value.blocks)| - 1
  {
    match c
    case None => ""
    case Some(TextContent(s)) => s
    case Some(BlockList(blocks)) => JoinWithSpace(TextParts(blocks))
    case Some(OtherContent(r)) => r
  }

  /** Python's `s[:k]`: a negative `k` counts from the end, and both ends clamp. */
  function SlicePrefix(s: string, k: int): (r: string)
    ensures r <= s
    ensures |r| == if k >= 0 then (if k <= |s| then k else |s|) else (if |s| + k >= 0 then |s| + k else 0)
  {
    if k >= 0 then (if k <= |s| then s[..k] else s)
    else if |s| + k >= 0 then s[..|s| + k]
    else []
  }

  /** The truncation step of the summariser, for any `maxLength` (Python slice semantics). */
  function Truncate(s: string, maxLength: int): (r: string)
    ensures |s| <= maxLength ==> r == s
    ensures |s| > maxLength ==> |r| >= 3 && r[|r| - 3..] == Ellipsis && r[..|r| - 3] <= s
    ensures |s| > maxLength >= 3 ==>
              |r| == maxLength && r[..maxLength - 3] == s[..maxLength - 3] && r[maxLength - 3..] == Ellipsis
  {
    if |s| > maxLength then SlicePrefix(s, maxLength - 3) + Ellipsis else s
  }

  /** The text a message contributes to a slot: flattened, then truncated. */
  function Processed(m: Message, maxLength: int): (r: string)
    ensures |Flatten(m.content)| <= maxLength ==> r == Flatten(m.content)
    ensures maxLength >= 3 ==> |r| <= maxLength
    ensures |Flatten(m.content)| > maxLength >= 3 ==> |r| == maxLength
  {
    Truncate(Flatten(m.content), maxLength)
  }

  // ---------------------------------------------------------------------------
  // Specification of the reverse scan
  // ---------------------------------------------------------------------------

  /** The pair (last human text, last AI text) being filled. */
  datatype Slots = Slots(human: Option<string>, ai: Option<string>)

  const NoSlots := Slots(None, None)

  predicate Full(s: Slots) {
    s.human.Some? && s.ai.Some?
  }

  /** One iteration of the scan, without the early exit. */
  function Step(s: Slots, m: Message, maxLength: int): (r: Slots)
    ensures s.human.Some? ==> r.human == s.human
    ensures s.ai.Some? ==> r.ai == s.ai
    ensures r.human != s.human ==> TypeOf(m) == "human" && r.human == Some(Processed(m, maxLength)) && r.ai == s.ai
    ensures r.ai != s.ai ==> TypeOf(m) == "ai" && r.ai == Some(Processed(m, maxLength)) && r.human == s.human
    ensures TypeOf(m) == "human" && s.human.None? ==> r.human.Some?
    ensures TypeOf(m) == "ai" && s.ai.None? ==> r.ai.Some?
  {
    var text := Processed(m, maxLength);
    if TypeOf(m) == "human" && s.human.None? then s.(human := Some(text))
    else if TypeOf(m) == "ai" && s.ai.None? then s.(ai := Some(text))
    else s
  }

  /** Scans `ms` from its newest end to its oldest, never stopping early. */
  function ScanBack(s: Slots, ms: seq<Message>, maxLength: int): (r: Slots)
    ensures s.human.Some? ==> r.human == s.human
    ensures s.ai.Some? ==> r.ai == s.ai
    decreases |ms|
  {
    if ms == [] then s
    else ScanBack(Step(s, ms[|ms| - 1], maxLength), ms[..|ms| - 1], maxLength)
  }

  /** Reference definition: the processed text of the newest message of type `t`. */
  function LastOf(ms: seq<Message>, t: string, maxLength: int): Option<string>
    decreases |ms|
  {
    if ms == [] then None
    else if TypeOf(ms[|ms| - 1]) == t then Some(Processed(ms[|ms| - 1], maxLength))
    else LastOf(ms[..|ms| - 1], t, maxLength)
  }

  /** Index `i` holds the newest message of type `t` in `ms`. */
  ghost predicate IsNewestOfType(ms: seq<Message>, t: string, i: int) {
    0 <= i < |ms| && TypeOf(ms[i]) == t && forall j :: i < j < |ms| ==> TypeOf(ms[j]) != t
  }

  // ---------------------------------------------------------------------------
  // Properties
  // ---------------------------------------------------------------------------

  /** Flattening distributes over concatenation of block lists. */
  lemma {:induction false} TextPartsAppend(a: seq<Block>, b: seq<Block>)
    ensures TextParts(a + b) == TextParts(a) + TextParts(b)
    decreases |b|
  {
    if b == [] {
      assert a + b == a;
    } else {
      var b' := b[..|b| - 1];
      assert (a + b)[..|a + b| - 1] == a + b';
      assert (a + b)[|a + b| - 1] == b[|b| - 1];
      TextPartsAppend(a, b');
    }
  }

  /** Every flattened part is the text of some block, and every text block contributes. */
  lemma {:induction false} TextPartsMembers(blocks: seq<Block>)
    ensures forall t :: t in TextParts(blocks) <==> exists i :: 0 <= i < |blocks| && BlockText(blocks[i]) == Some(t)
    decreases |blocks|
  {
    if blocks != [] {
      var init := blocks[..|blocks| - 1];
      TextPartsMembers(init);
      forall t | (exists i :: 0 <= i < |blocks| && BlockText(blocks[i]) == Some(t))
        ensures t in TextParts(blocks)
      {
        var i :| 0 <= i < |blocks| && BlockText(blocks[i]) == Some(t);
        if i < |blocks| - 1 {
          assert init[i] == blocks[i];
        }
      }
    }
  }

  /** Once both slots are filled, further messages change nothing: stopping early equals scanning on. */
  lemma {:induction false} FullSlotsAreFixed(s: Slots, ms: seq<Message>, maxLength: int)
    requires Full(s)
    ensures ScanBack(s, ms, maxLength) == s
    decreases |ms|
  {
    if ms != [] {
      assert Step(s, ms[|ms| - 1], maxLength) == s;
      FullSlotsAreFixed(s, ms[..|ms| - 1], maxLength);
    }
  }

  /** The scan fills each empty slot with the newest message of its type. */
  lemma {:induction false} ScanBackFindsNewest(s: Slots, ms: seq<Message>, maxLength: int)
    ensures ScanBack(s, ms, maxLength).human == if s.human.Some? then s.human else LastOf(ms, "human", maxLength)
    ensures ScanBack(s, ms, maxLength).ai == if s.ai.Some? then s.ai else LastOf(ms, "ai", maxLength)
    decreases |ms|
  {
    if ms != [] {
      ScanBackFindsNewest(Step(s, ms[|ms| - 1], maxLength), ms[..|ms| - 1], maxLength);
    }
  }

  /** A slot stays empty exactly when no message of its type exists (an empty text still counts as found). */
  lemma {:induction false} LastOfNoneIff(ms: seq<Message>, t: string, maxLength: int)
    ensures LastOf(ms, t, maxLength).None? <==> forall i :: 0 <= i < |ms| ==> TypeOf(ms[i]) != t
    decreases |ms|
  {
    if ms != [] {
      var init := ms[..|ms| - 1];
      LastOfNoneIff(init, t, maxLength);
      if TypeOf(ms[|ms| - 1]) != t {
        assert forall i :: 0 <= i < |init| ==> init[i] == ms[i];
      }
    }
  }

  /** A filled slot holds the processed text of the newest message of its type. */
  lemma {:induction false} LastOfIsNewest(ms: seq<Message>, t: string, maxLength: int)
    requires LastOf(ms, t, maxLength).Some?
    ensures exists i :: IsNewestOfType(ms, t, i) && LastOf(ms, t, maxLength) == Some(Processed(ms[i], maxLength))
    decreases |ms|
  {
    var n := |ms| - 1;
    if TypeOf(ms[n]) == t {
      assert IsNewestOfType(ms, t, n);
    } else {
      var init := ms[..n];
      LastOfIsNewest(init, t, maxLength);
      var i :| IsNewestOfType(init, t, i) && LastOf(init, t, maxLength) == Some(Processed(init[i], maxLength));
      assert init[i] == ms[i];
      assert IsNewestOfType(ms, t, i);
    }
  }

  /** A message of another type never changes the slot for `t`, wherever it stands. */
  lemma {:induction false} OtherTypesIgnored(a: seq<Message>, m: Message, b: seq<Message>, t: string, maxLength: int)
    requires TypeOf(m) != t
    ensures LastOf(a + [m] + b, t, maxLength) == LastOf(a + b, t, maxLength)
    decreases |b|
  {
    if b == [] {
      assert (a + [m] + b)[..|a|] == a;
      assert a + b == a;
    } else {
      var b' := b[..|b| - 1];
      assert (a + [m] + b)[..|a + [m] + b| - 1] == a + [m] + b';
      assert (a + b)[..|a + b| - 1] == a + b';
      OtherTypesIgnored(a, m, b', t, maxLength);
    }
  }

  // ---------------------------------------------------------------------------
  // Operations
  // ---------------------------------------------------------------------------

  /** The block loop of `extract_last_messages`: collects the text parts, then joins them with spaces. */
  method JoinTextBlocks(blocks: seq<Block>) returns (joined: string)
    ensures joined == JoinWithSpace(TextParts(blocks))
  {
    var textParts: seq<string> := [];
    for i := 0 to |blocks|
      invariant textParts == TextParts(blocks[..i])
    {
      assert blocks[..i + 1][..i] == blocks[..i];
      match blocks[i] {
        case DictBlock(t, text) =>
          if t == Some("text") {
            textParts := textParts + [if text.Some? then text.value else ""];
          }
        case StrBlock(s) =>
          textParts := textParts + [s];
        case OtherBlock =>
      }
    }
    assert blocks[..|blocks|] == blocks;
    joined := JoinWithSpace(textParts);
  }

  /** The text one message contributes: its content flattened to a string, then truncated. */
  method MessageText(msg: Message, maxLength: int) returns (content: string)
    ensures content == Processed(msg, maxLength)
    ensures maxLength >= 3 ==> |content| <= maxLength
  {
    var raw := if msg.content.Some? then msg.content.value else TextContent("");
    match raw {
      case BlockList(blocks) =>
        content := JoinTextBlocks(blocks);
      case TextContent(s) =>
        content := s;
      case OtherContent(r) =>
        content := r;
    }
    if |content| > maxLength {
      content := SlicePrefix(content, maxLength - 3) + Ellipsis;
    }
  }

  /**
   * `extract_last_messages`: walks the messages newest first, fills the human
   * and AI slots, and stops as soon as both are filled.
   */
  method ExtractLastMessages(messages: seq<Message>, maxLength: int := 100)
    returns (lastHuman: Option<string>, lastAi: Option<string>)
    ensures Slots(lastHuman, lastAi) == ScanBack(NoSlots, messages, maxLength)
    ensures lastHuman == LastOf(messages, "human", maxLength)
    ensures lastAi == LastOf(messages, "ai", maxLength)
  {
    lastHuman, lastAi := None, None;
    var i := |messages|;
    assert messages[..i] == messages;
    while i > 0
      invariant 0 <= i <= |messages|
      invariant ScanBack(Slots(lastHuman, lastAi), messages[..i], maxLength) == ScanBack(NoSlots, messages, maxLength)
    {
      var msg := messages[i - 1];
      var msgType := if msg.msgType.Some? then msg.msgType.value else "";
      var content := MessageText(msg, maxLength);
      ghost var before := Slots(lastHuman, lastAi);
      if msgType == "human" && lastHuman.None? {
        lastHuman := Some(content);
      } else if msgType == "ai" && lastAi.None? {
        lastAi := Some(content);
      }
      assert Slots(lastHuman, lastAi) == Step(before, msg, maxLength);
      assert messages[..i][..i - 1] == messages[..i - 1];
      i := i - 1;
      if lastHuman.Some? && lastAi.Some? {
        FullSlotsAreFixed(Slots(lastHuman, lastAi), messages[..i], maxLength);
        break;
      }
    }
    ScanBackFindsNewest(NoSlots, messages, maxLength);
  }

  // ---------------------------------------------------------------------------
  // Checkpoint filter and summary record
  // ---------------------------------------------------------------------------

  /** Checkpoint sources shown in the picker: user input, an agent step, a fork. */
  const IncludedSources: set<Value> := {Str("input"), Str("loop"), Str("fork")}

  /** `should_include_checkpoint`: a missing `source` reads as `""`, which is not in the allow-list. */
  function ShouldIncludeCheckpoint(metadata: map<string, Value>): (r: bool)
    ensures r <==> "source" in metadata &&
                   (metadata["source"] == Str("input") || metadata["source"] == Str("loop") || metadata["source"] == Str("fork"))
  {
    var source := if "source" in metadata then metadata["source"] else Str("");
    source in IncludedSources
  }

  /** A checkpoint digest for the picker; `createdAt` is a timestamp. */
  datatype CheckpointSummary = CheckpointSummary(
    checkpointId: string,
    threadId: string,
    createdAt: int,
    step: int,
    humanMessage: Option<string>,
    aiMessage: Option<string>,
    bookmarkName: Option<string>)
  {
    /** `to_dict`: one key per field. */
    function ToDict(): (d: map<string, Value>)
      ensures d.Keys == {"checkpoint_id", "thread_id", "created_at", "step", "human_message", "ai_message", "bookmark_name"}
    {
      map[
        "checkpoint_id" := Str(checkpointId),
        "thread_id" := Str(threadId),
        "created_at" := Time(createdAt),
        "step" := Int(step),
        "human_message" := OptionalStr(humanMessage),
        "ai_message" := OptionalStr(aiMessage),
        "bookmark_name" := OptionalStr(bookmarkName)
      ]
    }
  }

  /** The inverse of `ToDict`, for dictionaries of the right shape. */
  function SummaryFromDict(d: map<string, Value>): Option<CheckpointSummary> {
    if "checkpoint_id" in d && "thread_id" in d && "created_at" in d && "step" in d
       && "human_message" in d && "ai_message" in d && "bookmark_name" in d
       && d["checkpoint_id"].Str? && d["thread_id"].Str? && d["created_at"].Time? && d["step"].Int?
       && AsOptionalStr(d["human_message"]).Some? && AsOptionalStr(d["ai_message"]).Some?
       && AsOptionalStr(d["bookmark_name"]).Some?
    then
      Some(CheckpointSummary(
        d["checkpoint_id"].s, d["thread_id"].s, d["created_at"].t, d["step"].i,
        AsOptionalStr(d["human_message"]).value, AsOptionalStr(d["ai_message"]).value,
        AsOptionalStr(d["bookmark_name"]).value))
    else None
  }

  /** Serialising a summary loses nothing. */
  lemma SummaryDictRoundTrip(s: CheckpointSummary)
    ensures SummaryFromDict(s.ToDict()) == Some(s)
  {
  }

  // ---------------------------------------------------------------------------
  // Worked examples
  // ---------------------------------------------------------------------------

  /** A short human text and AI text come back whole. */
  lemma ExampleBothSlots()
    ensures LastOf([Message(Some("human"), Some(TextContent("hi"))), Message(Some("ai"), Some(TextContent("hello there")))], "human", 100) == Some("hi")
    ensures LastOf([Message(Some("human"), Some(TextContent("hi"))), Message(Some("ai"), Some(TextContent("hello there")))], "ai", 100) == Some("hello there")
  {
  }

  /** Text blocks are joined by one space; other block types vanish. */
  lemma ExampleFlattenBlocks()
    ensures Flatten(Some(BlockList([DictBlock(Some("text"), Some("a")), DictBlock(Some("tool_use"), None), DictBlock(Some("text"), Some("b"))]))) == "a b"
  {
    var blocks := [DictBlock(Some("text"), Some("a")), DictBlock(Some("tool_use"), None), DictBlock(Some("text"), Some("b"))];
    assert blocks[..1][..0] == [] && blocks[..2][..1] == blocks[..1] && blocks[..3] == blocks;
    assert TextParts(blocks[..1]) == ["a"];
    assert TextParts(blocks[..2]) == ["a"];
    assert TextParts(blocks) == ["a"] + ["b"];
    JoinSnoc(["a"], "b");
  }
}
