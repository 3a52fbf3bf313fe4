/** What messages and events say. */
module TurnTexts {
  import opened Wrappers
  import opened StreamText
  import Turn

  // The readers of `Turn` and `StreamText` on messages, content blocks, tool calls
  // and stream events of the shapes the agent produces
  // (backend/app/channels/manager.py, `_extract_response_text`, `_extract_artifacts`,
  // `_accumulate_stream_text`).

  // ---- One message ----------------------------------------------------------------------

  /** A message of that type. */
  predicate OfType(m: Json, name: string) {
    m.Object? && "type" in m.fields && m.fields["type"] == Str(name)
  }

  /** A message of the user that is shown as one. */
  predicate FromUser(m: Json) {
    && OfType(m, "human")
    && !("additional_kwargs" in m.fields && m.fields["additional_kwargs"].Object?
         && "hide_from_ui" in m.fields["additional_kwargs"].fields
         && m.fields["additional_kwargs"].fields["hide_from_ui"] == Other("True"))
  }

  predicate Question(m: Json) {
    OfType(m, "tool") && "name" in m.fields && m.fields["name"] == Str("ask_clarification")
  }

  /** The text of a content block, if it is a text. */
  function TextOf(block: Json): string {
    if block.Str? then block.text
    else if OfType(block, "text") && "text" in block.fields && block.fields["text"].Str? then block.fields["text"].text
    else ""
  }

  function TextsOf(blocks: seq<Json>): string {
    if blocks == [] then "" else TextOf(blocks[0]) + TextsOf(blocks[1..])
  }

  /** The text of the message that a reply can consist of. */
  function Says(m: Json): string {
    if !m.Object? || "content" !in m.fields then ""
    else if m.fields["content"].Str? && (OfType(m, "ai") || Question(m)) then m.fields["content"].text
    else if m.fields["content"].List? && OfType(m, "ai") then TextsOf(m.fields["content"].items)
    else ""
  }

  lemma {:induction false} TextsSnoc(blocks: seq<Json>, last: Json)
    ensures TextsOf(blocks + [last]) == TextsOf(blocks) + TextOf(last)
  {
    if blocks == [] {
      assert [] + [last] == [last] && [last][1..] == [];
    } else {
      assert (blocks + [last])[1..] == blocks[1..] + [last];
      TextsSnoc(blocks[1..], last);
    }
  }

  /** Blocks are read in order; a block that is no text adds nothing. */
  lemma {:induction false} BlocksAreRead(blocks: seq<Json>)
    ensures Turn.TextBlocks(blocks) == TextsOf(blocks)
  {
    if blocks != [] {
      var front, last := blocks[..|blocks| - 1], blocks[|blocks| - 1];
      BlocksAreRead(front);
      TextsSnoc(front, last);
      assert blocks == front + [last];
    }
  }

  lemma MessageIsRead(m: Json)
    ensures Turn.OwnText(m) == Says(m) && (Turn.Visible(m) <==> FromUser(m))
  {
    if m.Object? && "content" in m.fields && m.fields["content"].List? {
      BlocksAreRead(m.fields["content"].items);
    }
  }

  // ---- The reply ------------------------------------------------------------------------------

  /** The message at `i` belongs to the turn: the user has said nothing since. */
  ghost predicate InTurn(ms: seq<Json>, i: nat) {
    forall j :: i <= j < |ms| ==> !FromUser(ms[j])
  }

  /** The last message of the turn that says something. */
  ghost predicate LastWord(ms: seq<Json>, i: nat) {
    i < |ms| && InTurn(ms, i) && Says(ms[i]) != "" && forall j :: i < j < |ms| ==> Says(ms[j]) == ""
  }

  lemma {:induction false} ReplyOfLastWord(ms: seq<Json>, i: nat)
    requires LastWord(ms, i)
    ensures Turn.ResponseText(ms) == Says(ms[i])
  {
    var n := |ms| - 1;
    MessageIsRead(ms[n]);
    if i < n {
      var front := ms[..n];
      assert forall j :: 0 <= j < n ==> front[j] == ms[j];
      ReplyOfLastWord(front, i);
    }
  }

  lemma {:induction false} WordOfReply(ms: seq<Json>) returns (i: nat)
    requires Turn.ResponseText(ms) != ""
    ensures LastWord(ms, i)
  {
    var n := |ms| - 1;
    MessageIsRead(ms[n]);
    if Says(ms[n]) != "" {
      i := n;
    } else {
      i := WordOfReply(ms[..n]);
      assert forall j :: 0 <= j < n ==> ms[..n][j] == ms[j];
    }
  }

  /** The reply text is what the last message of the turn with a text says, and
      empty exactly when none of the turn says anything. */
  lemma ReplyIsLastWord(ms: seq<Json>)
    ensures Turn.ResponseText(ms) != "" <==> exists i: nat :: LastWord(ms, i)
    ensures forall i: nat :: LastWord(ms, i) ==> Turn.ResponseText(ms) == Says(ms[i])
  {
    forall i: nat | LastWord(ms, i)
      ensures Turn.ResponseText(ms) == Says(ms[i])
    {
      ReplyOfLastWord(ms, i);
    }
    if Turn.ResponseText(ms) != "" {
      var i := WordOfReply(ms);
    }
  }

  // ---- Files ------------------------------------------------------------------------------------

  /** The call presents the file. */
  predicate Presents(call: Json, path: string) {
    && call.Object? && "name" in call.fields && call.fields["name"] == Str("present_files")
    && "args" in call.fields && call.fields["args"].Object? && "filepaths" in call.fields["args"].fields
    && call.fields["args"].fields["filepaths"].List? && Str(path) in call.fields["args"].fields["filepaths"].items
  }

  /** A call of the agent's message presents the file. */
  predicate MessagePresents(m: Json, path: string) {
    && OfType(m, "ai") && "tool_calls" in m.fields && m.fields["tool_calls"].List?
    && exists call :: call in m.fields["tool_calls"].items && Presents(call, path)
  }

  lemma {:induction false} StringsAre(items: seq<Json>, path: string)
    ensures path in Turn.Strings(items) <==> Str(path) in items
  {
    if items != [] {
      StringsAre(items[..|items| - 1], path);
      assert items == items[..|items| - 1] + [items[|items| - 1]];
    }
  }

  lemma CallPresents(call: Json, path: string)
    ensures path in Turn.PathsOf(call) <==> Presents(call, path)
  {
    var paths := Field(Field(call, "args"), "filepaths");
    if paths.List? {
      StringsAre(paths.items, path);
    }
  }

  lemma {:induction false} CallsPresent(calls: seq<Json>, path: string)
    ensures path in Turn.CallPaths(calls) <==> exists call :: call in calls && Presents(call, path)
  {
    if calls != [] {
      var front, last := calls[..|calls| - 1], calls[|calls| - 1];
      CallsPresent(front, path);
      CallPresents(last, path);
      InSnoc(front, last, calls);
    }
  }

  lemma InSnoc(front: seq<Json>, last: Json, all: seq<Json>)
    requires all != [] && front == all[..|all| - 1] && last == all[|all| - 1]
    ensures forall x :: x in all <==> x in front || x == last
  {
    assert all == front + [last];
  }

  lemma MessagesPresent(m: Json, path: string)
    ensures path in Turn.Presented(m) <==> MessagePresents(m, path)
  {
    if m.Object? && "tool_calls" in m.fields && m.fields["tool_calls"].List? {
      CallsPresent(m.fields["tool_calls"].items, path);
    }
  }

  /** A call of the message at `i` of the turn presents the file. */
  ghost predicate PresentedAt(ms: seq<Json>, i: nat, path: string) {
    i < |ms| && InTurn(ms, i) && MessagePresents(ms[i], path)
  }

  lemma FrontInTurn(ms: seq<Json>, i: nat, path: string)
    requires i + 1 < |ms|
    ensures PresentedAt(ms, i, path) <==> !FromUser(ms[|ms| - 1]) && PresentedAt(ms[..|ms| - 1], i, path)
  {
    var front := ms[..|ms| - 1];
    assert forall j :: 0 <= j < |front| ==> front[j] == ms[j];
  }

  /** Some message of the turn presents the file. */
  ghost predicate PresentedInTurn(ms: seq<Json>, path: string) {
    exists i: nat :: PresentedAt(ms, i, path)
  }

  lemma PresentedSnoc(ms: seq<Json>, path: string)
    requires ms != []
    ensures PresentedInTurn(ms, path)
            <==> !FromUser(ms[|ms| - 1]) && (MessagePresents(ms[|ms| - 1], path) || PresentedInTurn(ms[..|ms| - 1], path))
  {
    var n := |ms| - 1;
    if PresentedInTurn(ms, path) {
      var i: nat :| PresentedAt(ms, i, path);
      if i < n {
        FrontInTurn(ms, i, path);
      }
    } else if PresentedInTurn(ms[..n], path) {
      var i: nat :| PresentedAt(ms[..n], i, path);
      FrontInTurn(ms, i, path);
    } else if !FromUser(ms[n]) && MessagePresents(ms[n], path) {
      assert PresentedAt(ms, n, path);
    }
  }

  lemma ArtifactsMember(ms: seq<Json>, path: string)
    requires ms != []
    ensures path in Turn.Artifacts(ms)
            <==> !FromUser(ms[|ms| - 1]) && (MessagePresents(ms[|ms| - 1], path) || path in Turn.Artifacts(ms[..|ms| - 1]))
  {
    MessageIsRead(ms[|ms| - 1]);
    MessagesPresent(ms[|ms| - 1], path);
  }

  /** A file counts as presented exactly when a call of some message of the turn presents it. */
  lemma {:induction false} FileIff(ms: seq<Json>, path: string)
    ensures path in Turn.Artifacts(ms) <==> PresentedInTurn(ms, path)
  {
    if ms != [] {
      FileIff(ms[..|ms| - 1], path);
      PresentedSnoc(ms, path);
      ArtifactsMember(ms, path);
    }
  }

  lemma Regroup(x: seq<string>, y: seq<string>, z: seq<string>)
    ensures x + (y + z) == x + y + z
  {
  }

  lemma ArtifactsSnoc(front: seq<Json>, last: Json)
    requires !FromUser(last)
    ensures Turn.Artifacts(front + [last]) == Turn.Presented(last) + Turn.Artifacts(front)
  {
    MessageIsRead(last);
    assert (front + [last])[..|front|] == front;
  }

  lemma SplitLast(a: seq<Json>, b: seq<Json>)
    requires b != []
    ensures b == b[..|b| - 1] + [b[|b| - 1]] && a + b == (a + b[..|b| - 1]) + [b[|b| - 1]]
  {
  }

  /** The files of later messages come first. */
  lemma {:induction false} LaterFilesFirst(a: seq<Json>, b: seq<Json>)
    requires forall i :: 0 <= i < |b| ==> !FromUser(b[i])
    ensures Turn.Artifacts(a + b) == Turn.Artifacts(b) + Turn.Artifacts(a)
  {
    if b == [] {
      assert a + b == a;
      Regroup([], [], Turn.Artifacts(a));
    } else {
      var front, last := b[..|b| - 1], b[|b| - 1];
      LaterFilesFirst(a, front);
      SplitLast(a, b);
      ArtifactsSnoc(a + front, last);
      ArtifactsSnoc(front, last);
      Regroup(Turn.Presented(last), Turn.Artifacts(front), Turn.Artifacts(a));
    }
  }

  // ---- Stream events -----------------------------------------------------------------------------

  /** Text of a chunk's content, whatever its blocks are called. */
  function ChunkText(content: Json): string {
    match content
    case Str(text) => text
    case List(items) => ChunkTexts(items)
    case Object(_) => PieceText(content)
    case _ => ""
  }

  function PieceText(block: Json): string {
    if block.Str? then block.text
    else if block.Object? && "text" in block.fields && block.fields["text"].Str? then block.fields["text"].text
    else if block.Object? && "content" in block.fields && block.fields["content"].Str? then block.fields["content"].text
    else ""
  }

  function ChunkTexts(blocks: seq<Json>): string {
    if blocks == [] then "" else PieceText(blocks[0]) + ChunkTexts(blocks[1..])
  }

  lemma {:induction false} PiecesAreRead(blocks: seq<Json>)
    ensures BlocksText(blocks) == ChunkTexts(blocks)
  {
    if blocks != [] {
      PiecesAreRead(blocks[1..]);
    }
  }

  lemma ContentIsRead(content: Json)
    ensures ContentText(content) == ChunkText(content)
  {
    if content.List? {
      PiecesAreRead(content.items);
    }
  }

  lemma WithoutTool(s: string)
    requires forall i :: 0 <= i < |s| ==> s[i] != 't' && s[i] != 'T'
    ensures !MentionsTool(s)
  {
  }

  /** What is made of the payload of an event. */
  lemma ChunkOfPayload(current: Option<string>, data: Json, payload: Json, id: string, text: string)
    requires (if data.List? && data.items != [] then data.items[0] else data) == payload && payload.Object?
    requires !MentionsTool(TypeText(payload)) && IdField(payload) == id && id != ""
    requires ContentText(Field(payload, "content")) == text && text != ""
    ensures Chunk(current, data) == Some((id, text))
  {
  }

  /** A chunk of a message of the agent ("ai", "AIMessageChunk"; no 't' in its
      type): its text goes to the message with its id. */
  lemma ChunkOfMessage(current: Option<string>, data: Json, fields: map<string, Json>, kind: string, id: string)
    requires data == Object(fields) || (data.List? && data.items != [] && data.items[0] == Object(fields))
    requires "type" in fields && fields["type"] == Str(kind) && forall i :: 0 <= i < |kind| ==> kind[i] != 't' && kind[i] != 'T'
    requires "id" in fields && fields["id"] == Str(id) && id != ""
    requires "content" in fields && ChunkText(fields["content"]) != ""
    ensures Chunk(current, data) == Some((id, ChunkText(fields["content"])))
  {
    ContentIsRead(fields["content"]);
    WithoutTool(kind);
    assert TypeText(Object(fields)) == kind;
    ChunkOfPayload(current, data, Object(fields), id, ChunkText(fields["content"]));
  }

  /** Without an id it goes to the message the stream is at, or to a default one. */
  lemma ChunkWithoutId(current: Option<string>, text: string)
    requires text != ""
    ensures Chunk(current, Object(map["type" := Str("ai"), "content" := Str(text)]))
            == Some((if current.Some? && current.value != "" then current.value else "__default__", text))
    ensures Chunk(current, Str(text)) == Some((if current.Some? && current.value != "" then current.value else "__default__", text))
  {
  }

  lemma StartsWithTool(s: string)
    requires |s| >= 4 && (s[..4] == "tool" || s[..4] == "Tool")
    ensures MentionsTool(s)
  {
    assert s[0] == s[..4][0] && s[1] == s[..4][1] && s[2] == s[..4][2] && s[3] == s[..4][3];
    assert 0 + 4 <= |s|;
  }

  /** What tools say is no text of the agent. */
  lemma ChunkOfTool(current: Option<string>, data: Json, fields: map<string, Json>, kind: string)
    requires data == Object(fields) || (data.List? && data.items != [] && data.items[0] == Object(fields))
    requires "type" in fields && fields["type"] == Str(kind) && |kind| >= 4 && (kind[..4] == "tool" || kind[..4] == "Tool")
    ensures Chunk(current, data) == None
  {
    StartsWithTool(kind);
    assert TypeText(Object(fields)) == kind;
  }
}
