/** Assembling streamed AI text (backend/app/channels/manager.py,
    `_merge_stream_text` and `_accumulate_stream_text`): chunks may be deltas or
    cumulative snapshots, and are merged into one buffer per message id. */
module StreamText {
  import opened Wrappers

  // ---- Merging one chunk -----------------------------------------------------------

  predicate EndsWith(s: string, t: string) {
    |t| <= |s| && s[|s| - |t|..] == t
  }

  function Merge(existing: string, chunk: string): string {
    if chunk == "" then existing
    else if existing == "" || chunk == existing then chunk
    else if existing <= chunk then chunk
    else if EndsWith(existing, chunk) then existing
    else existing + chunk
  }

  /** A merge extends the buffer, ends with the chunk, and repeating it changes
      nothing; an extension replaces the buffer, and a suffix adds nothing. */
  lemma MergeExtends(existing: string, chunk: string)
    ensures existing <= Merge(existing, chunk)
    ensures EndsWith(Merge(existing, chunk), chunk)
    ensures Merge(Merge(existing, chunk), chunk) == Merge(existing, chunk)
    ensures existing <= chunk ==> Merge(existing, chunk) == chunk
    ensures EndsWith(existing, chunk) ==> Merge(existing, chunk) == existing
  {
    var r := Merge(existing, chunk);
    if r == existing + chunk {
      assert r[|r| - |chunk|..] == chunk;
    }
    if r <= chunk {
      assert r == chunk;
    }
  }

  /** The buffer after merging chunks in order. */
  function Folded(chunks: seq<string>): string {
    if chunks == [] then "" else Merge(Folded(chunks[..|chunks| - 1]), chunks[|chunks| - 1])
  }

  function Concat(chunks: seq<string>): string {
    if chunks == [] then "" else Concat(chunks[..|chunks| - 1]) + chunks[|chunks| - 1]
  }

  /** A cumulative stream, each snapshot extending the one before, ends at its last snapshot. */
  lemma {:induction false} CumulativeEndsAtLast(chunks: seq<string>)
    requires chunks != [] && forall i, j :: 0 <= i < j < |chunks| ==> chunks[i] <= chunks[j]
    ensures Folded(chunks) == chunks[|chunks| - 1]
  {
    var front := chunks[..|chunks| - 1];
    if front != [] {
      CumulativeEndsAtLast(front);
      assert front[|front| - 1] == chunks[|chunks| - 2];
    }
  }

  /** The chunk is simply appended to the buffer. */
  predicate Plain(existing: string, chunk: string) {
    chunk == "" || existing == "" || (!(existing <= chunk) && !EndsWith(existing, chunk))
  }

  lemma PlainIff(existing: string, chunk: string)
    ensures Merge(existing, chunk) == existing + chunk <==> Plain(existing, chunk)
    ensures |Merge(existing, chunk)| <= |existing| + |chunk|
    ensures |Merge(existing, chunk)| == |existing| + |chunk| ==> Plain(existing, chunk)
  {
  }

  lemma {:induction false} FoldedNeverLonger(chunks: seq<string>)
    ensures Folded(chunks) == Concat(chunks) || |Folded(chunks)| < |Concat(chunks)|
  {
    if chunks != [] {
      var front, last := chunks[..|chunks| - 1], chunks[|chunks| - 1];
      FoldedNeverLonger(front);
      PlainIff(Folded(front), last);
    }
  }

  /** No chunk is a suffix or a full extension of the text before it. */
  predicate AllPlain(chunks: seq<string>) {
    forall i :: 0 <= i < |chunks| ==> Plain(Concat(chunks[..i]), chunks[i])
  }

  lemma AllPlainSnoc(front: seq<string>, last: string)
    ensures AllPlain(front + [last]) <==> AllPlain(front) && Plain(Concat(front), last)
  {
    var chunks := front + [last];
    assert chunks[..|front|] == front && chunks[|front|] == last;
    forall i | 0 <= i < |front|
      ensures Plain(Concat(chunks[..i]), chunks[i]) <==> Plain(Concat(front[..i]), front[i])
    {
      assert chunks[..i] == front[..i];
    }
  }

  /** A delta stream yields the plain concatenation exactly when all its chunks are plain. */
  lemma {:induction false} DeltasConcatenateIff(chunks: seq<string>)
    ensures Folded(chunks) == Concat(chunks) <==> AllPlain(chunks)
  {
    if chunks != [] {
      var front, last := chunks[..|chunks| - 1], chunks[|chunks| - 1];
      assert chunks == front + [last];
      DeltasConcatenateIff(front);
      FoldedNeverLonger(front);
      PlainIff(Folded(front), last);
      AllPlainSnoc(front, last);
    }
  }

  // ---- Reading events ----------------------------------------------------------------

  datatype Json = Null | Str(text: string) | List(items: seq<Json>) | Object(fields: map<string, Json>) | Other(repr: string)

  function Field(j: Json, name: string): Json {
    if j.Object? && name in j.fields then j.fields[name] else Null
  }

  function Or(first: string, second: string): string {
    if first != "" then first else second
  }

  /** The text of one content block. */
  function BlockText(block: Json): string {
    match block
    case Str(text) => text
    case Object(_) =>
      if Field(block, "text").Str? then Field(block, "text").text
      else if Field(block, "content").Str? then Field(block, "content").text
      else ""
    case _ => ""
  }

  function BlocksText(blocks: seq<Json>): string {
    if blocks == [] then "" else BlockText(blocks[0]) + BlocksText(blocks[1..])
  }

  /** `_extract_text_content` */
  function ContentText(content: Json): string {
    match content
    case Str(text) => text
    case List(items) => BlocksText(items)
    case Object(_) => BlockText(content)
    case _ => ""
  }

  function IdField(j: Json): string {
    if Field(j, "id").Str? && Field(j, "id").text != "" then Field(j, "id").text
    else if Field(j, "message_id").Str? then Field(j, "message_id").text
    else ""
  }

  /** `_extract_stream_message_id`, with "" for "none". */
  function MessageId(payload: Json, metadata: Json): string {
    Or(IdField(payload), Or(IdField(metadata), IdField(Field(payload, "kwargs"))))
  }

  function Lower(c: char): char {
    if 'A' <= c <= 'Z' then (c as int + 32) as char else c
  }

  predicate MentionsTool(s: string) {
    exists i :: 0 <= i && i + 4 <= |s| && Lower(s[i]) == 't' && Lower(s[i + 1]) == 'o' && Lower(s[i + 2]) == 'o' && Lower(s[i + 3]) == 'l'
  }

  /** The payload's type, printed. */
  function TypeText(payload: Json): string {
    match Field(payload, "type")
    case Str(text) => text
    case Other(repr) => repr
    case _ => ""
  }

  /** The message id and text chunk an event contributes, if any. */
  function Chunk(current: Option<string>, data: Json): Option<(string, string)> {
    var payload := if data.List? && data.items != [] then data.items[0] else data;
    var metadata := if data.List? && |data.items| > 1 then data.items[1] else Null;
    var fallback := Or(if current.Some? then current.value else "", "__default__");
    if payload.Str? then Some((fallback, payload.text))
    else if !payload.Object? || MentionsTool(TypeText(payload)) then None
    else
      var text := Or(ContentText(Field(payload, "content")), ContentText(Field(Field(payload, "kwargs"), "content")));
      if text == "" then None else Some((Or(MessageId(payload, metadata), fallback), text))
  }

  function Buffer(buffers: map<string, string>, id: string): string {
    if id in buffers then buffers[id] else ""
  }

  /** The per-message buffers of one streamed reply. */
  class Buffers {
    var buffers: map<string, string>

    constructor ()
      ensures buffers == map[]
    {
      buffers := map[];
    }

    /** `_accumulate_stream_text`: the updated text, if any, and the current message id. */
    method Accumulate(current: Option<string>, data: Json) returns (text: Option<string>, id: Option<string>)
      modifies this
      ensures var chunk := Chunk(current, data);
              if chunk.None? then buffers == old(buffers) && text == None && id == current
              else
                var (target, piece) := chunk.value;
                && buffers == old(buffers)[target := Merge(Buffer(old(buffers), target), piece)]
                && text == Some(buffers[target]) && id == Some(target)
    {
      var payload, metadata := data, Null;
      if data.List? {
        if data.items != [] {
          payload := data.items[0];
        }
        if |data.items| > 1 {
          metadata := data.items[1];
        }
      }
      var fallback := Or(if current.Some? then current.value else "", "__default__");
      if payload.Str? {
        buffers := buffers[fallback := Merge(Buffer(buffers, fallback), payload.text)];
        return Some(buffers[fallback]), Some(fallback);
      }
      if !payload.Object? {
        return None, current;
      }
      if MentionsTool(TypeText(payload)) {
        return None, current;
      }
      var piece := ContentText(Field(payload, "content"));
      if piece == "" {
        piece := ContentText(Field(Field(payload, "kwargs"), "content"));
      }
      if piece == "" {
        return None, current;
      }
      var target := Or(MessageId(payload, metadata), fallback);
      buffers := buffers[target := Merge(Buffer(buffers, target), piece)];
      return Some(buffers[target]), Some(target);
    }
  }

  // ---- Whole streams -------------------------------------------------------------------

  /** The current message id after a sequence of events. */
  function Current(events: seq<Json>): Option<string> {
    if events == [] then None
    else
      var before := Current(events[..|events| - 1]);
      var chunk := Chunk(before, events[|events| - 1]);
      if chunk.None? then before else Some(chunk.value.0)
  }

  function AfterEvents(events: seq<Json>): map<string, string> {
    if events == [] then map[]
    else
      var front := events[..|events| - 1];
      var chunk := Chunk(Current(front), events[|events| - 1]);
      var before := AfterEvents(front);
      if chunk.None? then before
      else before[chunk.value.0 := Merge(Buffer(before, chunk.value.0), chunk.value.1)]
  }

  /** The chunks that a sequence of events contributes to one message, in order. */
  function ChunksFor(events: seq<Json>, id: string): seq<string> {
    if events == [] then []
    else
      var front := events[..|events| - 1];
      var chunk := Chunk(Current(front), events[|events| - 1]);
      ChunksFor(front, id) + (if chunk.Some? && chunk.value.0 == id then [chunk.value.1] else [])
  }

  /** Over any event sequence each message's buffer is its own chunks merged in
      order; chunks for other messages never touch it. */
  lemma {:induction false} BufferIsFold(events: seq<Json>, id: string)
    ensures Buffer(AfterEvents(events), id) == Folded(ChunksFor(events, id))
  {
    if events != [] {
      var front := events[..|events| - 1];
      BufferIsFold(front, id);
      var chunk := Chunk(Current(front), events[|events| - 1]);
      if chunk.Some? && chunk.value.0 == id {
        var all := ChunksFor(events, id);
        assert all[..|all| - 1] == ChunksFor(front, id);
      } else {
        assert ChunksFor(events, id) == ChunksFor(front, id);
      }
    }
  }

  /** Buffers only grow, and a buffer that just got a chunk ends with it. */
  lemma {:induction false} BuffersOnlyGrow(events: seq<Json>, n: nat, id: string)
    requires n <= |events|
    ensures Buffer(AfterEvents(events[..n]), id) <= Buffer(AfterEvents(events), id)
    decreases |events|
  {
    if n == |events| {
      assert events[..n] == events;
    } else {
      var front := events[..|events| - 1];
      BuffersOnlyGrow(front, n, id);
      assert front[..n] == events[..n];
      var chunk := Chunk(Current(front), events[|events| - 1]);
      if chunk.Some? && chunk.value.0 == id {
        MergeExtends(Buffer(AfterEvents(front), id), chunk.value.1);
      }
    }
  }
}
