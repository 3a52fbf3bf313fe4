/** The streaming reply loop. */
module Streaming {
  import opened Wrappers
  import opened StreamText
  import Turn

  // The streaming reply loop of the channel manager
  // (backend/app/channels/manager.py, `_handle_streaming_chat`): stream events
  // update the latest text, throttled progress updates are published, and a final
  // message ends the reply, unless the last state cannot be read.

  const MIN_INTERVAL_SECONDS: real := 1.0
  const MIN_CHARS: int := 60
  const CURSOR := " \U{2589}"
  const BUSY_TEXT := "This conversation is already processing another request. Please wait for it to finish and try again."
  const ERROR_TEXT := "An error occurred while processing your request. Please try again."
  const NO_RESPONSE_TEXT := "(No response from agent)"
  const INTERNAL_ERROR_TEXT := "An internal error occurred. Please try again."

  /** What the loop reads from a state: the response text, whether the turn ends
      in a clarification, the artifact paths, and which of those resolve to
      attachments. */
  datatype Snapshot = Snapshot(text: string, clarification: bool, artifacts: seq<string>, resolved: seq<string>)

  /** What is read from a state of the agent, given which of its artifacts resolve. */
  function SnapshotOf(state: Json, resolved: seq<string>): Snapshot {
    var ms := Turn.MessagesIn(state);
    Snapshot(Turn.ResponseText(ms), Turn.Clarifies(ms), Turn.Artifacts(ms), resolved)
  }

  /** What the readers make of a state; None when one of them raises. */
  method ReadSnapshot(state: Json, resolved: seq<string>) returns (snap: Option<Snapshot>)
    ensures snap.Some? <==> Turn.Reads(state)
    ensures snap.Some? ==> snap.value == SnapshotOf(state, resolved)
  {
    Turn.ReadsIff(state);
    var text := Turn.ExtractResponseText(state);
    if text.None? {
      return None;
    }
    var clarification := Turn.HasCurrentTurnClarification(Turn.MessagesIn(state));
    var artifacts := Turn.ExtractArtifacts(state);
    if artifacts.None? {
      return None;
    }
    snap := Some(Snapshot(text.value, clarification, artifacts.value, resolved));
  }

  /** The state made up when the stream brought none: one message of the agent. */
  function OnlyReply(text: string): Json {
    Object(map["messages" := List([Object(map["type" := Str("ai"), "content" := Str(text)])])])
  }

  lemma OnlyReplyIsText(text: string)
    ensures SnapshotOf(OnlyReply(text), []) == Snapshot(text, false, [], []) && Turn.Reads(OnlyReply(text))
  {
    var m := Object(map["type" := Str("ai"), "content" := Str(text)]);
    assert Turn.MessagesIn(OnlyReply(text)) == [m];
    assert [m][..0] == [];
    assert Turn.OwnText(m) == text;
    assert Turn.ResponseText([m]) == text;
    assert Turn.Artifacts([m]) == [];
    assert !Turn.Clarifies([m]);
  }

  /** A stream event; of a state, `resolved` are the artifacts that resolve to attachments. */
  datatype Event = Message(data: Json) | Values(state: Json, resolved: seq<string>) | Unrelated

  /** One stream event and the clock when it was handled. */
  datatype Item = Item(event: Event, now: real)

  /** How the stream ends: normally, with an error, or by cancellation. */
  datatype Ending = Completed | Raised(busy: bool) | Cancelled

  datatype Outbound =
    | Progress(raw: string, at: real)
    | Final(text: string, pendingClarification: bool, attachments: seq<string>)

  /** The text a channel is given to show. */
  function Shown(o: Outbound): string {
    if o.Progress? then o.raw + CURSOR else o.text
  }

  // ---- The final text ----------------------------------------------------------------

  /** Position after the last '/' in `path`. */
  function Basename(path: string): string {
    if path == "" || path[|path| - 1] == '/' then "" else Basename(path[..|path| - 1]) + [path[|path| - 1]]
  }

  function JoinNames(paths: seq<string>): string {
    if paths == [] then ""
    else if |paths| == 1 then Basename(paths[0])
    else Basename(paths[0]) + "\U{3001}" + JoinNames(paths[1..])
  }

  /** `_format_artifact_text` */
  function ArtifactText(paths: seq<string>): (text: string)
    ensures text != ""
  {
    if |paths| == 1 then "Created File: \U{1F4CE} " + Basename(paths[0]) else "Created Files: \U{1F4CE} " + JoinNames(paths)
  }

  function Unresolved(artifacts: seq<string>, resolved: seq<string>): seq<string> {
    if artifacts == [] then []
    else (if artifacts[0] in resolved then [] else [artifacts[0]]) + Unresolved(artifacts[1..], resolved)
  }

  function Appended(text: string, more: string): (r: string)
    ensures more != "" ==> r != ""
  {
    if text != "" then text + "\n\n" + more else more
  }

  /** `_prepare_artifact_delivery`: the text with file names appended, and the attachments. */
  function Delivered(snap: Snapshot): (string, seq<string>) {
    if snap.artifacts == [] then (snap.text, [])
    else
      var missing := Unresolved(snap.artifacts, snap.resolved);
      var text := if missing != [] then Appended(snap.text, ArtifactText(missing)) else snap.text;
      (if snap.resolved != [] then Appended(text, ArtifactText(snap.resolved)) else text, snap.resolved)
  }

  /** The state of the last values event, and which of its artifacts resolve. */
  datatype Held = Held(state: Json, resolved: seq<string>)

  /** The snapshot the final message is built from. */
  function Result(latest: string, values: Option<Held>): Snapshot {
    if values.Some? then SnapshotOf(values.value.state, values.value.resolved) else Snapshot(latest, false, [], [])
  }

  function FinalMessage(latest: string, values: Option<Held>, ending: Ending): Outbound {
    var result := Result(latest, values);
    var (text, attachments) := Delivered(result);
    var shown :=
      if text != "" then text
      else if attachments != [] then ArtifactText(attachments)
      else if ending.Raised? then (if ending.busy then BUSY_TEXT else ERROR_TEXT)
      else if latest != "" then latest
      else NO_RESPONSE_TEXT;
    Final(shown, result.clarification, attachments)
  }

  // ---- What the stream has said so far -------------------------------------------------

  function MessagesOf(items: seq<Item>): seq<Json> {
    if items == [] then []
    else
      MessagesOf(items[..|items| - 1])
      + (if items[|items| - 1].event.Message? then [items[|items| - 1].event.data] else [])
  }

  /** The text the latest message event produced, or "". */
  function Accumulated(messages: seq<Json>, data: Json): string {
    var chunk := Chunk(Current(messages), data);
    if chunk.None? then "" else Merge(Buffer(AfterEvents(messages), chunk.value.0), chunk.value.1)
  }

  function Latest(items: seq<Item>): string {
    if items == [] then ""
    else
      var front := items[..|items| - 1];
      match items[|items| - 1].event
      case Message(data) => Or(Accumulated(MessagesOf(front), data), Latest(front))
      case Values(state, _) =>
        var ms := Turn.MessagesIn(state);
        if IsState(state) && Turn.Clarifies(ms) then Or(Turn.ResponseText(ms), Latest(front)) else Latest(front)
      case Unrelated => Latest(front)
  }

  /** Values data that the loop takes for a state. */
  predicate IsState(data: Json) {
    data.List? || data.Object?
  }

  function LastValues(items: seq<Item>): Option<Held> {
    if items == [] then None
    else
      var event := items[|items| - 1].event;
      if event.Values? && IsState(event.state) then Some(Held(event.state, event.resolved))
      else LastValues(items[..|items| - 1])
  }

  /** The loop raises on the event: the state ends in a clarification, but its text cannot be read. */
  predicate Poison(event: Event) {
    && event.Values? && IsState(event.state)
    && Turn.Clarifies(Turn.MessagesIn(event.state))
    && !(Turn.Walkable(event.state) && Turn.ReadText(Turn.MessagesIn(event.state)).Some?)
  }

  /** How many events the loop gets through before it raises on one, if ever. */
  function Through(items: seq<Item>): (n: nat)
    ensures n <= |items|
  {
    if items == [] then 0
    else
      var last := |items| - 1;
      var n := Through(items[..last]);
      if n < last || Poison(items[last].event) then n else |items|
  }

  /** The last state the loop has kept, the one it raised on included. */
  function Kept(items: seq<Item>): Option<Held> {
    var n := Through(items);
    if n < |items| then LastValues(items[..n + 1]) else LastValues(items)
  }

  /** How the loop ends: as the stream does, unless it raises itself. */
  function EndOf(items: seq<Item>, ending: Ending): Ending {
    if Through(items) < |items| then Raised(false) else ending
  }

  /** The final message, if the last state can be read. */
  function Closing(latest: string, values: Option<Held>, ending: Ending): seq<Outbound> {
    if values.Some? && !Turn.Reads(values.value.state) then [] else [FinalMessage(latest, values, ending)]
  }

  /** Everything the reply publishes. */
  function Published(items: seq<Item>, ending: Ending): seq<Outbound> {
    var heard := items[..Through(items)];
    Updates(heard) + Closing(Latest(heard), Kept(items), EndOf(items, ending))
  }

  /** A progress update is due: there is new text, and it is the first one, or a
      second has passed, or sixty characters have been added. */
  predicate Due(updates: seq<Outbound>, latest: string, now: real)
    requires forall u :: u in updates ==> u.Progress?
  {
    && latest != ""
    && (updates == [] ||
        var last := updates[|updates| - 1];
        assert last in updates;
        latest != last.raw && (now - last.at >= MIN_INTERVAL_SECONDS || |latest| - |last.raw| >= MIN_CHARS))
  }

  function Updates(items: seq<Item>): (updates: seq<Outbound>)
    ensures forall u :: u in updates ==> u.Progress?
  {
    if items == [] then []
    else
      var before := Updates(items[..|items| - 1]);
      var now := items[|items| - 1].now;
      if Due(before, Latest(items), now) then before + [Progress(Latest(items), now)] else before
  }

  // ---- The loop --------------------------------------------------------------------------

  lemma SnocItem(items: seq<Item>, i: nat)
    requires i < |items|
    ensures items[..i + 1][..i] == items[..i] && items[..i + 1][i] == items[i] && |items[..i + 1]| == i + 1
  {
  }

  /** Of a front of the stream the loop gets through as much as it does of the whole. */
  lemma {:induction false} ThroughFront(items: seq<Item>, i: nat)
    requires i <= |items|
    ensures Through(items[..i]) == if Through(items) < i then Through(items) else i
  {
    if i == |items| {
      assert items[..i] == items;
    } else {
      var front := items[..|items| - 1];
      ThroughFront(front, i);
      assert front[..i] == items[..i];
    }
  }

  /** One more event, in a loop that has not raised so far. */
  lemma ThroughStep(items: seq<Item>, i: nat)
    requires i < |items| && i <= Through(items)
    ensures Poison(items[i].event) <==> Through(items) == i
  {
    ThroughFront(items, i);
    ThroughFront(items, i + 1);
    assert items[..i + 1][..i] == items[..i];
  }

  /** Handles the event at `i`: the latest text and state after it, unless it raises. */
  method HandleEvent(buffers: Buffers, ghost items: seq<Item>, ghost i: nat, event: Event,
                     current: Option<string>, latest: string, values: Option<Held>)
    returns (raised: bool, current': Option<string>, latest': string, values': Option<Held>)
    requires i < |items| && items[i].event == event && i <= Through(items)
    requires buffers.buffers == AfterEvents(MessagesOf(items[..i])) && current == Current(MessagesOf(items[..i]))
    requires latest == Latest(items[..i]) && values == LastValues(items[..i])
    modifies buffers
    ensures raised <==> Through(items) == i
    ensures values' == LastValues(items[..i + 1])
    ensures !raised ==> buffers.buffers == AfterEvents(MessagesOf(items[..i + 1])) && current' == Current(MessagesOf(items[..i + 1]))
    ensures latest' == if raised then latest else Latest(items[..i + 1])
  {
    raised, current', latest', values' := false, current, latest, values;
    SnocItem(items, i);
    ThroughStep(items, i);
    match event
    case Message(data) =>
      ghost var before := MessagesOf(items[..i]);
      assert (before + [data])[..|before|] == before;
      var text: Option<string>;
      text, current' := buffers.Accumulate(current, data);
      if text.Some? && text.value != "" {
        latest' := text.value;
      }
    case Values(state, resolved) =>
      assert MessagesOf(items[..i + 1]) == MessagesOf(items[..i]);
      if state.List? || state.Object? {
        values' := Some(Held(state, resolved));
        var clarification := Turn.HasCurrentTurnClarification(Turn.MessagesIn(state));
        if clarification {
          var text := Turn.ExtractResponseText(state);
          Turn.ReadsIff(state);
          if text.None? {
            raised := true;
          } else if text.value != "" && text.value != latest {
            latest' := text.value;
          }
        }
      }
    case Unrelated =>
      assert MessagesOf(items[..i + 1]) == MessagesOf(items[..i]);
  }

  /** The loop: what it publishes and keeps, and whether it raises. */
  method Listen(items: seq<Item>) returns (bus: seq<Outbound>, latest: string, values: Option<Held>, raised: bool)
    ensures var heard := items[..Through(items)]; bus == Updates(heard) && latest == Latest(heard)
    ensures values == Kept(items) && (raised <==> Through(items) < |items|)
  {
    var buffers := new Buffers();
    var current: Option<string>;
    current, latest, values, raised := None, "", None, false;
    var lastText, lastLen, lastAt := "", 0, 0.0;
    bus := [];
    for i := 0 to |items|
      invariant i <= Through(items)
      invariant buffers.buffers == AfterEvents(MessagesOf(items[..i])) && current == Current(MessagesOf(items[..i]))
      invariant latest == Latest(items[..i]) && bus == Updates(items[..i]) && values == LastValues(items[..i])
      invariant LastShown(bus, lastText, lastLen, lastAt)
    {
      raised, current, latest, values := HandleEvent(buffers, items, i, items[i].event, current, latest, values);
      if raised {
        return;
      }
      UpdatesStep(items, i);
      bus, lastText, lastLen, lastAt := Publish(bus, latest, items[i].now, lastText, lastLen, lastAt);
    }
    assert items[..|items|] == items;
  }

  lemma UpdatesStep(items: seq<Item>, i: nat)
    requires i < |items|
    ensures var before, latest, now := Updates(items[..i]), Latest(items[..i + 1]), items[i].now;
            Updates(items[..i + 1]) == if Due(before, latest, now) then before + [Progress(latest, now)] else before
  {
    SnocItem(items, i);
  }

  /** The whole reply, however the stream ends. */
  method HandleStreamingChat(items: seq<Item>, ending: Ending) returns (bus: seq<Outbound>)
    ensures bus == Published(items, ending)
  {
    var latest, values, raised;
    bus, latest, values, raised := Listen(items);
    var closing := BuildFinal(latest, values, if raised then Raised(false) else ending);
    bus := bus + closing;
  }

  /** What the loop remembers of the last update. */
  ghost predicate LastShown(bus: seq<Outbound>, lastText: string, lastLen: int, lastAt: real) {
    && lastLen == |lastText| && (lastText == "" <==> bus == [])
    && (bus != [] ==> bus[|bus| - 1] == Progress(lastText, lastAt))
  }

  /** Publishes the latest text if an update is due. */
  method Publish(bus: seq<Outbound>, latest: string, now: real, lastText: string, lastLen: int, lastAt: real)
    returns (bus': seq<Outbound>, lastText': string, lastLen': int, lastAt': real)
    requires (forall u :: u in bus ==> u.Progress?) && LastShown(bus, lastText, lastLen, lastAt)
    ensures bus' == if Due(bus, latest, now) then bus + [Progress(latest, now)] else bus
    ensures LastShown(bus', lastText', lastLen', lastAt')
  {
    bus', lastText', lastLen', lastAt' := bus, lastText, lastLen, lastAt;
    if latest == "" || latest == lastText {
      return;
    }
    var newChars := |latest| - lastLen;
    if lastText != "" {
      if now - lastAt < MIN_INTERVAL_SECONDS && newChars < MIN_CHARS {
        return;
      }
    }
    bus' := bus + [Progress(latest, now)];
    lastText', lastLen', lastAt' := latest, |latest|, now;
  }

  /** The `finally` clause: it publishes nothing when reading the state raises. */
  method BuildFinal(latest: string, values: Option<Held>, ending: Ending) returns (closing: seq<Outbound>)
    ensures closing == Closing(latest, values, ending)
  {
    OnlyReplyIsText(latest);
    var held := if values.Some? then values.value else Held(OnlyReply(latest), []);
    var result := ReadSnapshot(held.state, held.resolved);
    if result.None? {
      return [];
    }
    var (text, attachments) := Delivered(result.value);
    if text == "" {
      if attachments != [] {
        text := ArtifactText(attachments);
      } else if ending.Raised? {
        text := if ending.busy then BUSY_TEXT else ERROR_TEXT;
      } else {
        text := if latest != "" then latest else NO_RESPONSE_TEXT;
      }
    }
    closing := [Final(text, result.value.clarification, attachments)];
  }

  /** What the user gets in the end, and whether a redelivery of the inbound
      message would be handled again: when reading the last state raises, the
      caller releases the dedupe key and sends an error text. */
  method HandleMessage(items: seq<Item>, ending: Ending) returns (bus: seq<Outbound>, released: bool)
    ensures released <==> Kept(items).Some? && !Turn.Readable(Kept(items).value.state)
    ensures bus == Published(items, ending)
                   + if released then [Final("An internal error occurred. Please try again.", false, [])] else []
  {
    bus := HandleStreamingChat(items, ending);
    FinalIff(items, ending);
    released := bus == [] || bus[|bus| - 1].Progress?;
    if released {
      bus := bus + [Final(INTERNAL_ERROR_TEXT, false, [])];
    }
  }

  // ---- What the published sequence promises ---------------------------------------------------

  /** Consecutive updates show different text and are a second apart or sixty characters longer. */
  ghost predicate Throttled(updates: seq<Outbound>) {
    && (forall i :: 0 <= i < |updates| ==> updates[i].Progress? && updates[i].raw != "")
    && (forall i :: 0 <= i < |updates| - 1 ==>
          && updates[i + 1].raw != updates[i].raw
          && (updates[i + 1].at - updates[i].at >= 1.0 || |updates[i + 1].raw| - |updates[i].raw| >= 60))
  }

  lemma DueIsThrottled(updates: seq<Outbound>, latest: string, now: real)
    requires (forall u :: u in updates ==> u.Progress?) && Throttled(updates) && Due(updates, latest, now)
    ensures Throttled(updates + [Progress(latest, now)])
  {
    var more := updates + [Progress(latest, now)];
    assert forall i :: 0 <= i < |updates| ==> more[i] == updates[i];
    assert more[|updates|] == Progress(latest, now);
  }

  lemma {:induction false} UpdatesAreThrottled(items: seq<Item>)
    ensures Throttled(Updates(items))
  {
    if items != [] {
      var before, now := Updates(items[..|items| - 1]), items[|items| - 1].now;
      UpdatesAreThrottled(items[..|items| - 1]);
      if Due(before, Latest(items), now) {
        DueIsThrottled(before, Latest(items), now);
      }
    }
  }

  /** The final message is never empty. */
  lemma FinalIsNotEmpty(latest: string, values: Option<Held>, ending: Ending)
    ensures var final := FinalMessage(latest, values, ending); final.Final? && Shown(final) != ""
  {
  }

  /** Throttled updates and then exactly one final message, which is not empty. */
  ghost predicate Complete(bus: seq<Outbound>) {
    && bus != [] && bus[|bus| - 1].Final? && Shown(bus[|bus| - 1]) != ""
    && (forall i :: 0 <= i < |bus| - 1 ==> bus[i].Progress?)
    && Throttled(bus[..|bus| - 1])
  }

  lemma UpdatesAndFinal(updates: seq<Outbound>, final: Outbound)
    requires Throttled(updates) && final.Final? && Shown(final) != ""
    ensures Complete(updates + [final])
  {
    assert (updates + [final])[..|updates|] == updates;
  }

  /** For every event stream, clock and ending: the reply is complete exactly
      when no state was kept or the kept one can be read; otherwise it consists
      of throttled updates without a final message. */
  lemma ReplyShape(items: seq<Item>, ending: Ending)
    ensures var bus, kept := Published(items, ending), Kept(items);
            && (Complete(bus) <==> kept.None? || Turn.Readable(kept.value.state))
            && (!Complete(bus) ==> Throttled(bus))
  {
    var heard := items[..Through(items)];
    if Kept(items).Some? {
      Turn.ReadsIff(Kept(items).value.state);
    }
    UpdatesAreThrottled(heard);
    FinalIsNotEmpty(Latest(heard), Kept(items), EndOf(items, ending));
    if Kept(items).Some? && !Turn.Readable(Kept(items).value.state) {
      assert Published(items, ending) == Updates(heard);
    } else {
      UpdatesAndFinal(Updates(heard), FinalMessage(Latest(heard), Kept(items), EndOf(items, ending)));
    }
  }

  lemma FinalIff(items: seq<Item>, ending: Ending)
    ensures var bus, kept := Published(items, ending), Kept(items);
            (bus == [] || bus[|bus| - 1].Progress?) <==> kept.Some? && !Turn.Readable(kept.value.state)
  {
    ReplyShape(items, ending);
  }

  /** With the caller's handler every message is answered: updates, then one
      final message, which is the error text exactly when the key is released. */
  lemma EveryMessageIsAnswered(items: seq<Item>, ending: Ending)
    ensures var kept := Kept(items);
            var released := kept.Some? && !Turn.Readable(kept.value.state);
            Complete(Published(items, ending)
                     + if released then [Final("An internal error occurred. Please try again.", false, [])] else [])
  {
    ReplyShape(items, ending);
    var bus := Published(items, ending);
    if Complete(bus) {
      assert bus + [] == bus;
    } else {
      UpdatesAndFinal(bus, Final(INTERNAL_ERROR_TEXT, false, []));
    }
  }

  lemma PoisonIsUnread(event: Event)
    requires Poison(event)
    ensures event.Values? && IsState(event.state) && !Turn.Readable(event.state)
  {
    Turn.ReadsIff(event.state);
  }

  /** The event the loop raises on. */
  lemma RaisesOn(items: seq<Item>) returns (n: nat)
    requires Through(items) < |items|
    ensures n < |items| && n == Through(items)
    ensures items[n].event.Values? && IsState(items[n].event.state) && !Turn.Readable(items[n].event.state)
  {
    n := Through(items);
    ThroughStep(items, n);
    PoisonIsUnread(items[n].event);
  }

  lemma LastOfFront(items: seq<Item>, n: nat)
    requires n < |items| && items[n].event.Values? && IsState(items[n].event.state)
    ensures LastValues(items[..n + 1]) == Some(Held(items[n].event.state, items[n].event.resolved))
  {
    assert items[..n + 1][n] == items[n];
  }

  lemma KeptWhenRaised(items: seq<Item>, n: nat)
    requires n == Through(items) < |items| && items[n].event.Values? && IsState(items[n].event.state)
    ensures Kept(items) == Some(Held(items[n].event.state, items[n].event.resolved))
  {
    LastOfFront(items, n);
  }

  /** A clarifying state whose text cannot be read also ends the reply without a final message. */
  lemma PoisonIsNeverAnswered(items: seq<Item>, ending: Ending)
    requires Through(items) < |items|
    ensures Kept(items).Some? && !Turn.Readable(Kept(items).value.state) && !Complete(Published(items, ending))
  {
    var n := RaisesOn(items);
    KeptWhenRaised(items, n);
    ReplyShape(items, ending);
  }

  /** For instance: a last state whose messages are null. */
  lemma NullMessagesSilence(now: real, ending: Ending)
    ensures Published([Item(Values(Object(map["messages" := Null]), []), now)], ending) == []
  {
    var state := Object(map["messages" := Null]);
    var items := [Item(Values(state, []), now)];
    Turn.SomeStatesRaise();
    Turn.ReadsIff(state);
    assert items[..0] == [] && items[..1] == items;
    assert Turn.MessagesIn(state) == [];
    assert Through(items) == 1 && Latest(items) == "";
    assert Updates([]) == [];
    assert Kept(items) == Some(Held(state, []));
  }

  /** Nothing is held back without reason: after any event with text, the last
      update shows that text, or it is less than a second old and fewer than
      sixty characters shorter. */
  lemma HeldBackOnlyByThrottle(items: seq<Item>)
    requires items != [] && Latest(items) != ""
    ensures var updates := Updates(items);
            && updates != []
            && var last := updates[|updates| - 1];
               assert last in updates;
               last.raw == Latest(items)
               || (items[|items| - 1].now - last.at < 1.0 && |Latest(items)| - |last.raw| < 60)
  {
  }

  /** No clarification, and every text chunk so far went to message `id`. */
  ghost predicate OneMessage(items: seq<Item>, id: string) {
    && (forall i :: 0 <= i < |items| && items[i].event.Values? && IsState(items[i].event.state) ==>
          !Turn.Clarifies(Turn.MessagesIn(items[i].event.state)))
    && (forall i :: 0 <= i < |items| && items[i].event.Message? ==>
          var chunk := Chunk(Current(MessagesOf(items[..i])), items[i].event.data); chunk.Some? ==> chunk.value.0 == id)
  }

  lemma OneMessagePrefix(items: seq<Item>, id: string, n: nat)
    requires OneMessage(items, id) && n <= |items|
    ensures OneMessage(items[..n], id)
  {
    var front := items[..n];
    forall i | 0 <= i < n
      ensures front[..i] == items[..i] && front[i] == items[i]
    {
    }
  }

  lemma {:induction false} LatestIsTheBuffer(items: seq<Item>, id: string)
    requires OneMessage(items, id)
    ensures Latest(items) == Buffer(AfterEvents(MessagesOf(items)), id)
  {
    if items != [] {
      var n := |items| - 1;
      var front := items[..n];
      OneMessagePrefix(items, id, n);
      LatestIsTheBuffer(front, id);
      if items[n].event.Message? {
        var before, data := MessagesOf(front), items[n].event.data;
        assert (before + [data])[..|before|] == before;
        var chunk := Chunk(Current(before), data);
        if chunk.Some? {
          MergeExtends(Buffer(AfterEvents(before), id), chunk.value.1);
        }
      } else {
        assert MessagesOf(items) == MessagesOf(front);
      }
    }
  }

  lemma {:induction false} MessagesOfPrefix(items: seq<Item>, n: nat)
    requires n <= |items|
    ensures MessagesOf(items[..n]) <= MessagesOf(items)
    decreases |items|
  {
    if n == |items| {
      assert items[..n] == items;
    } else {
      var front := items[..|items| - 1];
      MessagesOfPrefix(front, n);
      assert front[..n] == items[..n];
    }
  }

  /** In an ordinary single-message reply the latest text only ever grows by
      extension, so each update shows an extension of the one before. */
  lemma LatestOnlyGrows(items: seq<Item>, id: string, n: nat)
    requires OneMessage(items, id) && n <= |items|
    ensures Latest(items[..n]) <= Latest(items)
  {
    OneMessagePrefix(items, id, n);
    LatestIsTheBuffer(items[..n], id);
    LatestIsTheBuffer(items, id);
    MessagesOfPrefix(items, n);
    var some, all := MessagesOf(items[..n]), MessagesOf(items);
    assert all[..|some|] == some;
    BuffersOnlyGrow(all, |some|, id);
  }

  // ---- How many updates ------------------------------------------------------------------

  predicate ClockOk(items: seq<Item>) {
    forall i, j :: 0 <= i < j < |items| ==> items[i].now <= items[j].now
  }

  function Positive(n: int): nat {
    if n > 0 then n else 0
  }

  function LastOf(lens: seq<nat>): nat {
    if lens == [] then 0 else lens[|lens| - 1]
  }

  /** By how much a length has grown from nothing, all growth added up. */
  function Growth(lens: seq<nat>): nat {
    if lens == [] then 0
    else Growth(lens[..|lens| - 1]) + Positive(lens[|lens| - 1] - LastOf(lens[..|lens| - 1]))
  }

  function Longest(lens: seq<nat>): nat {
    if lens == [] then 0
    else
      var before := Longest(lens[..|lens| - 1]);
      if lens[|lens| - 1] > before then lens[|lens| - 1] else before
  }

  function Count(flags: seq<bool>): nat {
    if flags == [] then 0 else Count(flags[..|flags| - 1]) + if flags[|flags| - 1] then 1 else 0
  }

  /** The length only shrinks where a flag is set. */
  ghost predicate Steady(lens: seq<nat>, flags: seq<bool>) {
    |lens| == |flags| && forall i :: 0 <= i < |lens| && !flags[i] ==> LastOf(lens[..i]) <= lens[i]
  }

  /** `k` times `a`, added up. */
  function Times(k: nat, a: nat): nat {
    if k == 0 then 0 else Times(k - 1, a) + a
  }

  lemma {:induction false} TimesGrows(k: nat, a: nat, b: nat)
    requires a <= b
    ensures Times(k, a) <= Times(k, b)
  {
    if k > 0 {
      TimesGrows(k - 1, a, b);
    }
  }

  lemma {:induction false} TimesIsProduct(k: nat, a: nat)
    ensures Times(k, a) == k * a
  {
    if k > 0 {
      TimesIsProduct(k - 1, a);
    }
  }

  /** All growth together is at most one longest length per flag, and the last length. */
  lemma {:induction false} GrowthIsBounded(lens: seq<nat>, flags: seq<bool>)
    requires Steady(lens, flags)
    ensures Growth(lens) <= Times(Count(flags), Longest(lens)) + LastOf(lens) && LastOf(lens) <= Longest(lens)
  {
    if lens != [] {
      var n := |lens| - 1;
      SteadyFront(lens, flags);
      GrowthIsBounded(lens[..n], flags[..n]);
      TimesGrows(Count(flags[..n]), Longest(lens[..n]), Longest(lens));
    }
  }

  lemma SteadyFront(lens: seq<nat>, flags: seq<bool>)
    requires Steady(lens, flags) && lens != []
    ensures var n := |lens| - 1; Steady(lens[..n], flags[..n]) && (!flags[n] ==> LastOf(lens[..n]) <= lens[n])
  {
    var n := |lens| - 1;
    assert forall i :: 0 <= i < n ==> lens[..n][..i] == lens[..i] && lens[..n][i] == lens[i];
  }

  /** The length of the latest text after each event. */
  function Lens(items: seq<Item>): (lens: seq<nat>)
    ensures |lens| == |items| && (items != [] ==> lens[|items| - 1] == |Latest(items)|)
  {
    if items == [] then [] else Lens(items[..|items| - 1]) + [|Latest(items)|]
  }

  lemma LensSnoc(items: seq<Item>)
    requires items != []
    ensures Lens(items)[..|items| - 1] == Lens(items[..|items| - 1]) && LastOf(Lens(items)) == |Latest(items)|
    ensures LastOf(Lens(items[..|items| - 1])) == |Latest(items[..|items| - 1])|
  {
  }

  /** Where a text of length `latest` stands after some updates: the updates
      after the first are paid for by seconds and by sixties of characters, and
      what the last update does not show yet is still in hand. */
  ghost predicate PaidFor(updates: seq<Outbound>, latest: int, growth: int, now: real) {
    updates != [] ==>
      var first, last := updates[0], updates[|updates| - 1];
      && first.Progress? && last.Progress? && last.at <= now
      && ((|updates| - 1) as real - (last.at - first.at) / 1.0) * 60.0
         + (Positive(latest - |last.raw|) as real) <= growth as real
  }

  /** More text, more growth. */
  lemma StillPaidFor(updates: seq<Outbound>, latest: int, growth: int, now: real, latest': int, now': real)
    requires PaidFor(updates, latest, growth, now) && now <= now'
    ensures PaidFor(updates, latest', growth + Positive(latest' - latest), now')
  {
  }

  lemma UpdatePaidFor(updates: seq<Outbound>, latest: string, growth: nat, now: real)
    requires (forall u :: u in updates ==> u.Progress?) && PaidFor(updates, |latest|, growth, now) && Due(updates, latest, now)
    ensures PaidFor(updates + [Progress(latest, now)], |latest|, growth, now)
  {
    if updates != [] {
      var first, last := updates[0], updates[|updates| - 1];
      var more := updates + [Progress(latest, now)];
      assert more[0] == first && more[|more| - 1] == Progress(latest, now) && |more| - 1 == |updates|;
      assert (now - first.at) / 1.0 == (last.at - first.at) / 1.0 + (now - last.at) / 1.0;
    }
  }

  /** In every stream under a clock that does not go back, the updates after the
      first are paid for by time and growth. */
  lemma {:induction false} UpdatesByGrowth(items: seq<Item>)
    requires ClockOk(items) && items != []
    ensures PaidFor(Updates(items), |Latest(items)|, Growth(Lens(items)), items[|items| - 1].now)
  {
    var n := |items| - 1;
    var front, now := items[..n], items[n].now;
    LensSnoc(items);
    if front == [] {
      assert Updates(front) == [];
    } else {
      assert forall i :: 0 <= i < n ==> front[i] == items[i];
      UpdatesByGrowth(front);
      StillPaidFor(Updates(front), |Latest(front)|, Growth(Lens(front)), front[n - 1].now, |Latest(items)|, now);
    }
    if Due(Updates(front), Latest(items), now) {
      UpdatePaidFor(Updates(front), Latest(items), Growth(Lens(items)), now);
    }
  }

  /** Where the latest text comes from. */
  datatype Source = Nobody | FromMessage(id: string) | Question

  function SourceOf(items: seq<Item>): Source {
    if items == [] then Nobody
    else
      var front := items[..|items| - 1];
      match items[|items| - 1].event
      case Message(data) =>
        var chunk := Chunk(Current(MessagesOf(front)), data);
        if chunk.Some? && Accumulated(MessagesOf(front), data) != "" then FromMessage(chunk.value.0) else SourceOf(front)
      case Values(state, _) =>
        var ms := Turn.MessagesIn(state);
        if IsState(state) && Turn.Clarifies(ms) && Turn.ResponseText(ms) != "" then Question else SourceOf(front)
      case Unrelated => SourceOf(front)
  }

  lemma {:induction false} LatestOfSource(items: seq<Item>)
    ensures SourceOf(items).Nobody? ==> Latest(items) == ""
    ensures SourceOf(items).FromMessage? ==> Latest(items) == Buffer(AfterEvents(MessagesOf(items)), SourceOf(items).id)
  {
    if items != [] {
      var n := |items| - 1;
      var front := items[..n];
      LatestOfSource(front);
      if items[n].event.Message? {
        MessageKeepsSource(front, items[n].event.data);
        assert MessagesOf(items) == MessagesOf(front) + [items[n].event.data];
      } else {
        assert MessagesOf(items) == MessagesOf(front);
      }
    }
  }

  /** The buffers after one more message event. */
  lemma OneMoreMessage(before: seq<Json>, data: Json)
    ensures var chunk := Chunk(Current(before), data);
            AfterEvents(before + [data])
            == if chunk.None? then AfterEvents(before)
               else AfterEvents(before)[chunk.value.0 := Merge(Buffer(AfterEvents(before), chunk.value.0), chunk.value.1)]
  {
    assert (before + [data])[..|before|] == before;
  }

  /** A message event leaves every buffer as it was except that of its own message. */
  lemma MessageKeepsSource(front: seq<Item>, data: Json)
    ensures var before := MessagesOf(front);
            var chunk := Chunk(Current(before), data);
            var after := AfterEvents(before + [data]);
            && (forall id :: chunk.None? || chunk.value.0 != id ==> Buffer(after, id) == Buffer(AfterEvents(before), id))
            && (chunk.Some? ==> Buffer(after, chunk.value.0) == Accumulated(before, data))
            && (chunk.Some? && Accumulated(before, data) == "" ==> Buffer(AfterEvents(before), chunk.value.0) == "")
  {
    var before := MessagesOf(front);
    OneMoreMessage(before, data);
    var chunk := Chunk(Current(before), data);
    if chunk.Some? {
      MergeExtends(Buffer(AfterEvents(before), chunk.value.0), chunk.value.1);
    }
  }

  /** The last event puts a text from elsewhere in the place of the latest one. */
  predicate Switch(items: seq<Item>)
    requires items != []
  {
    var front := items[..|items| - 1];
    && Latest(items) != Latest(front) && !SourceOf(front).Nobody?
    && !(SourceOf(items).FromMessage? && SourceOf(items) == SourceOf(front))
  }

  /** Which events switch from one message to another, or to or from a question. */
  function Switches(items: seq<Item>): (flags: seq<bool>)
    ensures |flags| == |items|
  {
    if items == [] then [] else Switches(items[..|items| - 1]) + [Switch(items)]
  }

  /** Without a switch the text is only extended. */
  lemma NoSwitchExtends(items: seq<Item>)
    requires items != [] && !Switch(items)
    ensures Latest(items[..|items| - 1]) <= Latest(items)
  {
    var n := |items| - 1;
    var front := items[..n];
    LatestOfSource(front);
    LatestOfSource(items);
    if SourceOf(front).FromMessage? && SourceOf(items) == SourceOf(front) {
      MessagesOfPrefix(items, n);
      var some, all := MessagesOf(front), MessagesOf(items);
      assert all[..|some|] == some;
      BuffersOnlyGrow(all, |some|, SourceOf(items).id);
    }
  }

  /** The text only gets shorter by a switch. */
  lemma {:induction false} OnlySwitchesShorten(items: seq<Item>)
    ensures Steady(Lens(items), Switches(items))
  {
    if items != [] {
      OnlySwitchesShorten(items[..|items| - 1]);
      if !Switch(items) {
        NoSwitchExtends(items);
      }
      LensSnoc(items);
      SteadySnoc(Lens(items[..|items| - 1]), Switches(items[..|items| - 1]), |Latest(items)|, Switch(items));
    }
  }

  lemma SteadySnoc(lens: seq<nat>, flags: seq<bool>, latest: nat, switch: bool)
    requires Steady(lens, flags) && (!switch ==> LastOf(lens) <= latest)
    ensures Steady(lens + [latest], flags + [switch])
  {
    var more := lens + [latest];
    assert forall i :: 0 <= i <= |lens| ==> more[..i] == lens[..i];
    assert lens[..|lens|] == lens;
  }

  lemma {:induction false} UpdatesAreDated(items: seq<Item>)
    requires ClockOk(items)
    ensures forall u :: u in Updates(items) ==> items != [] && items[0].now <= u.at
  {
    if items != [] {
      var n := |items| - 1;
      assert forall i :: 0 <= i < n ==> items[..n][i] == items[i];
      UpdatesAreDated(items[..n]);
    }
  }

  /** One, plus one per second of the stream, plus one per sixty of so many characters. */
  ghost function Budget(items: seq<Item>, characters: nat): real
    requires items != []
  {
    1.0 + (items[|items| - 1].now - items[0].now) / 1.0 + (characters as real) / 60.0
  }

  /** In every stream, the number of updates is at most one, plus one per second,
      plus one per sixty characters of growth. */
  lemma UpdatesByTimeAndGrowth(items: seq<Item>)
    requires ClockOk(items) && items != []
    ensures |Updates(items)| as real <= Budget(items, Growth(Lens(items)))
  {
    UpdatesByGrowth(items);
    UpdatesAreDated(items);
    var updates := Updates(items);
    if updates != [] {
      assert updates[0] in updates;
      assert items[0].now <= updates[0].at;
    }
  }

  lemma MoreCharacters(items: seq<Item>, growth: nat, cost: nat)
    requires items != [] && growth <= cost
    ensures Budget(items, growth) <= Budget(items, cost)
  {
  }

  /** For replies of any number of messages and questions: growth costs at most
      one longest text per switch, and one more. */
  lemma UpdatesAreBounded(items: seq<Item>) returns (characters: nat)
    requires ClockOk(items) && items != []
    ensures characters == (Count(Switches(items)) + 1) * Longest(Lens(items))
    ensures |Updates(items)| as real <= Budget(items, characters)
  {
    characters := GrowthInAll(items);
    var growth := Growth(Lens(items));
    UpdatesByTimeAndGrowth(items);
    MoreCharacters(items, growth, characters);
  }

  lemma GrowthInAll(items: seq<Item>) returns (characters: nat)
    ensures characters == (Count(Switches(items)) + 1) * Longest(Lens(items)) && Growth(Lens(items)) <= characters
  {
    OnlySwitchesShorten(items);
    characters := GrowthCost(Lens(items), Switches(items));
  }

  lemma GrowthCost(lens: seq<nat>, flags: seq<bool>) returns (characters: nat)
    requires Steady(lens, flags)
    ensures characters == (Count(flags) + 1) * Longest(lens) && Growth(lens) <= characters
  {
    GrowthIsBounded(lens, flags);
    characters := Product(Count(flags), Longest(lens));
  }

  lemma Product(k: nat, a: nat) returns (p: nat)
    ensures p == (k + 1) * a == Times(k, a) + a
  {
    TimesIsProduct(k + 1, a);
    p := (k + 1) * a;
  }

  lemma OneMessageStep(items: seq<Item>, id: string)
    requires OneMessage(items, id) && items != []
    ensures var front := items[..|items| - 1];
            OneMessage(front, id) && Lens(items)[..|items| - 1] == Lens(front) && LastOf(Lens(front)) <= LastOf(Lens(items))
  {
    OneMessagePrefix(items, id, |items| - 1);
    LatestOnlyGrows(items, id, |items| - 1);
    LensSnoc(items);
  }

  lemma {:induction false} OneMessageGrows(items: seq<Item>, id: string)
    requires OneMessage(items, id)
    ensures Growth(Lens(items)) == LastOf(Lens(items))
  {
    if items != [] {
      OneMessageStep(items, id);
      OneMessageGrows(items[..|items| - 1], id);
      GrowthSnoc(Lens(items));
    }
  }

  lemma GrowthSnoc(lens: seq<nat>)
    requires lens != [] && LastOf(lens[..|lens| - 1]) <= LastOf(lens) && Growth(lens[..|lens| - 1]) == LastOf(lens[..|lens| - 1])
    ensures Growth(lens) == LastOf(lens)
  {
  }

  /** In particular a single-message reply publishes at most one update, plus one
      per second, plus one per sixty characters of its text. */
  lemma UpdatesAreFew(items: seq<Item>, id: string)
    requires OneMessage(items, id) && ClockOk(items) && items != []
    ensures |Updates(items)| as real <= Budget(items, |Latest(items)|)
  {
    UpdatesByTimeAndGrowth(items);
    OneMessageGrows(items, id);
    LensSnoc(items);
  }
}
