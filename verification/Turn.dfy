/** What is read from the agent's messages. */
module Turn {
  import opened Wrappers
  import opened StreamText

  // What the channel manager reads from a state of the agent's messages
  // (backend/app/channels/manager.py, `_extract_response_text`,
  // `_has_current_turn_clarification`, `_extract_artifacts`): the reply text,
  // whether the turn ends in a clarification, and the files presented.

  predicate HasType(m: Json, name: string) {
    Field(m, "type") == Str(name)
  }

  predicate Human(m: Json) {
    HasType(m, "human")
  }

  /** `_is_hidden_human_control_message` */
  predicate Hidden(m: Json) {
    Human(m) && Field(Field(m, "additional_kwargs"), "hide_from_ui") == Other("True")
  }

  /** A message of the user, which starts a turn. */
  predicate Visible(m: Json) {
    Human(m) && !Hidden(m)
  }

  predicate AsksBack(m: Json) {
    HasType(m, "tool") && Field(m, "name") == Str("ask_clarification")
  }

  /** Python's truth value. */
  predicate Truthy(j: Json) {
    match j
    case Null => false
    case Str(text) => text != ""
    case List(items) => items != []
    case Object(fields) => fields != map[]
    case Other(repr) => repr != "False" && repr != "0" && repr != "0.0"
  }

  function StrOf(j: Json): string {
    if j.Str? then j.text else ""
  }

  /** The text blocks of a content list, joined. */
  function TextBlocks(blocks: seq<Json>): string {
    if blocks == [] then ""
    else
      var block := blocks[|blocks| - 1];
      TextBlocks(blocks[..|blocks| - 1])
      + (if block.Str? then block.text else if HasType(block, "text") then StrOf(Field(block, "text")) else "")
  }

  /** The text a message contributes to the reply, or "". */
  function OwnText(m: Json): string {
    var content := Field(m, "content");
    if AsksBack(m) then StrOf(content)
    else if HasType(m, "ai") then (if content.List? then TextBlocks(content.items) else StrOf(content))
    else ""
  }

  /** The messages of a state: a list, or the `messages` of a mapping. */
  function MessagesIn(state: Json): seq<Json> {
    if state.List? then state.items
    else if Field(state, "messages").List? then Field(state, "messages").items
    else []
  }

  /** `_extract_response_text` */
  function ResponseText(ms: seq<Json>): string {
    if ms == [] then ""
    else
      var front, m := ms[..|ms| - 1], ms[|ms| - 1];
      if Visible(m) then ""
      else if OwnText(m) != "" then OwnText(m)
      else ResponseText(front)
  }

  /** `_has_current_turn_clarification` */
  predicate Clarifies(ms: seq<Json>) {
    if ms == [] then false
    else
      var front, m := ms[..|ms| - 1], ms[|ms| - 1];
      if Human(m) then false
      else if HasType(m, "tool") then AsksBack(m)
      else if HasType(m, "ai") && (Truthy(Field(m, "content")) || Truthy(Field(m, "tool_calls"))) then false
      else Clarifies(front)
  }

  function Strings(items: seq<Json>): seq<string> {
    if items == [] then []
    else
      var last := items[|items| - 1];
      Strings(items[..|items| - 1]) + if last.Str? then [last.text] else []
  }

  /** The paths one tool call presents. */
  function PathsOf(call: Json): seq<string> {
    var paths := Field(Field(call, "args"), "filepaths");
    if Field(call, "name") == Str("present_files") && paths.List? then Strings(paths.items) else []
  }

  function CallPaths(calls: seq<Json>): seq<string> {
    if calls == [] then [] else CallPaths(calls[..|calls| - 1]) + PathsOf(calls[|calls| - 1])
  }

  function Presented(m: Json): seq<string> {
    var calls := Field(m, "tool_calls");
    if HasType(m, "ai") && calls.List? then CallPaths(calls.items) else []
  }

  /** `_extract_artifacts`: newest message first. */
  function Artifacts(ms: seq<Json>): seq<string> {
    if ms == [] then []
    else
      var front, m := ms[..|ms| - 1], ms[|ms| - 1];
      if Visible(m) then [] else Presented(m) + Artifacts(front)
  }

  // ---- States that cannot be read -------------------------------------------------------------

  predicate Has(j: Json, name: string) {
    j.Object? && name in j.fields
  }

  /** Python can loop over it. */
  predicate Iterable(j: Json) {
    j.List? || j.Str? || j.Object?
  }

  /** There are no messages, or something to loop over. */
  predicate Walkable(state: Json) {
    Has(state, "messages") ==> Iterable(Field(state, "messages"))
  }

  /** A text block without a text, or with one that can be joined. */
  predicate GoodBlock(block: Json) {
    HasType(block, "text") && Has(block, "text") ==> Field(block, "text").Str?
  }

  predicate GoodBlocks(blocks: seq<Json>) {
    forall i :: 0 <= i < |blocks| ==> GoodBlock(blocks[i])
  }

  predicate GoodContent(m: Json) {
    HasType(m, "ai") && Field(m, "content").List? ==> GoodBlocks(Field(m, "content").items)
  }

  /** Of a call that presents files, the arguments are absent or a mapping. */
  predicate GoodCall(call: Json) {
    Field(call, "name") == Str("present_files") && Has(call, "args") ==> Field(call, "args").Object?
  }

  predicate GoodCalls(m: Json) {
    HasType(m, "ai") && Has(m, "tool_calls") ==>
      var calls := Field(m, "tool_calls");
      Iterable(calls) && (calls.List? ==> forall i :: 0 <= i < |calls.items| ==> GoodCall(calls.items[i]))
  }

  /** No visible message of the user at `i` or after it. */
  predicate InTurn(ms: seq<Json>, i: nat) {
    forall j :: i <= j < |ms| ==> !Visible(ms[j])
  }

  /** Every message looked at for the reply text, up to the one that has it, can be read. */
  predicate TextReadable(ms: seq<Json>) {
    forall i :: 0 <= i < |ms| && InTurn(ms, i) && (forall j :: i < j < |ms| ==> OwnText(ms[j]) == "") ==> GoodContent(ms[i])
  }

  /** Every message of the turn can be searched for files. */
  predicate FilesReadable(ms: seq<Json>) {
    forall i :: 0 <= i < |ms| && InTurn(ms, i) ==> GoodCalls(ms[i])
  }

  /** None of the readers raises on the state. */
  predicate Readable(state: Json) {
    Walkable(state) && TextReadable(MessagesIn(state)) && FilesReadable(MessagesIn(state))
  }

  /** `_extract_response_text`; None when it raises. */
  function ReadText(ms: seq<Json>): Option<string> {
    if ms == [] then Some("")
    else
      var front, m := ms[..|ms| - 1], ms[|ms| - 1];
      if Visible(m) then Some("")
      else if !GoodContent(m) then None
      else if OwnText(m) != "" then Some(OwnText(m))
      else ReadText(front)
  }

  /** `_extract_artifacts`; None when it raises. */
  function ReadFiles(ms: seq<Json>): Option<seq<string>> {
    if ms == [] then Some([])
    else
      var front, m := ms[..|ms| - 1], ms[|ms| - 1];
      if Visible(m) then Some([])
      else if !GoodCalls(m) then None
      else
        var rest := ReadFiles(front);
        if rest.None? then None else Some(Presented(m) + rest.value)
  }

  /** All readers come through. */
  predicate Reads(state: Json) {
    Walkable(state) && ReadText(MessagesIn(state)).Some? && ReadFiles(MessagesIn(state)).Some?
  }

  /** They do exactly on the readable states. */
  lemma ReadsIff(state: Json)
    ensures Reads(state) <==> Readable(state)
    ensures ReadText(MessagesIn(state)).Some? ==> ReadText(MessagesIn(state)).value == ResponseText(MessagesIn(state))
    ensures ReadFiles(MessagesIn(state)).Some? ==> ReadFiles(MessagesIn(state)).value == Artifacts(MessagesIn(state))
  {
    ReadTextIff(MessagesIn(state));
    ReadFilesIff(MessagesIn(state));
  }

  lemma TurnOfFront(ms: seq<Json>, i: nat)
    requires i < |ms|
    ensures InTurn(ms, i) <==> !Visible(ms[|ms| - 1]) && InTurn(ms[..|ms| - 1], i)
  {
    var front := ms[..|ms| - 1];
    assert forall j :: 0 <= j < |front| ==> front[j] == ms[j];
  }

  /** The text can be read exactly when every message looked at can. */
  lemma {:induction false} ReadTextIff(ms: seq<Json>)
    ensures ReadText(ms) == if TextReadable(ms) then Some(ResponseText(ms)) else None
  {
    if ms != [] {
      var n := |ms| - 1;
      var front, m := ms[..n], ms[n];
      ReadTextIff(front);
      if Visible(m) {
        assert forall i :: 0 <= i < |ms| ==> !InTurn(ms, i);
      } else if !GoodContent(m) {
        assert InTurn(ms, n);
      } else if OwnText(m) == "" {
        TextOfFront(ms);
      }
    }
  }

  lemma TextOfFront(ms: seq<Json>)
    requires ms != [] && !Visible(ms[|ms| - 1]) && GoodContent(ms[|ms| - 1]) && OwnText(ms[|ms| - 1]) == ""
    ensures TextReadable(ms) <==> TextReadable(ms[..|ms| - 1])
  {
    var front := ms[..|ms| - 1];
    forall i | 0 <= i < |front|
      ensures InTurn(ms, i) <==> InTurn(front, i)
      ensures (forall j :: i < j < |ms| ==> OwnText(ms[j]) == "") <==> (forall j :: i < j < |front| ==> OwnText(front[j]) == "")
    {
      TurnOfFront(ms, i);
      assert forall j :: 0 <= j < |front| ==> front[j] == ms[j];
    }
  }

  /** The files can be read exactly when every message of the turn can be searched. */
  lemma {:induction false} ReadFilesIff(ms: seq<Json>)
    ensures ReadFiles(ms) == if FilesReadable(ms) then Some(Artifacts(ms)) else None
  {
    if ms != [] {
      var n := |ms| - 1;
      var front, m := ms[..n], ms[n];
      ReadFilesIff(front);
      if Visible(m) {
        assert forall i :: 0 <= i < |ms| ==> !InTurn(ms, i);
      } else if !GoodCalls(m) {
        assert InTurn(ms, n);
      } else {
        FilesOfFront(ms);
      }
    }
  }

  lemma FilesOfFront(ms: seq<Json>)
    requires ms != [] && !Visible(ms[|ms| - 1]) && GoodCalls(ms[|ms| - 1])
    ensures FilesReadable(ms) <==> FilesReadable(ms[..|ms| - 1])
  {
    var front := ms[..|ms| - 1];
    forall i | 0 <= i < |front|
      ensures front[i] == ms[i] && (InTurn(ms, i) <==> InTurn(front, i))
    {
      TurnOfFront(ms, i);
    }
  }

  /** For instance: messages that are null, a text that is null, calls that are null, arguments that are null. */
  lemma SomeStatesRaise()
    ensures !Readable(Object(map["messages" := Null]))
    ensures forall m :: HasType(m, "ai") && Field(m, "content") == List([Object(map["type" := Str("text"), "text" := Null])]) ==>
              !Readable(List([m]))
    ensures forall m :: HasType(m, "ai") && Has(m, "tool_calls") && Field(m, "tool_calls") == Null ==> !Readable(List([m]))
    ensures forall m :: HasType(m, "ai") && Field(m, "tool_calls") == List([Object(map["name" := Str("present_files"), "args" := Null])]) ==>
              !Readable(List([m]))
  {
    forall m | HasType(m, "ai")
      ensures !GoodContent(m) || !GoodCalls(m) ==> !Readable(List([m]))
    {
      assert InTurn([m], 0);
    }
    var block := Object(map["type" := Str("text"), "text" := Null]);
    var call := Object(map["name" := Str("present_files"), "args" := Null]);
    assert List([block]).items[0] == block && !GoodBlock(block);
    assert List([call]).items[0] == call && !GoodCall(call);
  }

  // ---- The loops ---------------------------------------------------------------------------

  /** `_extract_response_text`; None when it raises. */
  method ExtractResponseText(state: Json) returns (text: Option<string>)
    ensures text == if Walkable(state) then ReadText(MessagesIn(state)) else None
  {
    if state.Object? && "messages" in state.fields && !Iterable(state.fields["messages"]) {
      return None;
    }
    text := WalkForText(MessagesIn(state));
  }

  method WalkForText(ms: seq<Json>) returns (text: Option<string>)
    ensures text == ReadText(ms)
  {
    var n: nat := |ms|;
    assert ms[..n] == ms;
    while n > 0
      invariant n <= |ms| && ReadText(ms) == ReadText(ms[..n])
    {
      var m := ms[n - 1];
      assert ms[..n][..n - 1] == ms[..n - 1];
      n := n - 1;
      if !m.Object? {
        continue;
      }
      if Human(m) {
        if Hidden(m) {
          continue;
        }
        return Some("");
      }
      if AsksBack(m) {
        var content := Field(m, "content");
        if content.Str? && content.text != "" {
          return Some(content.text);
        }
      }
      if HasType(m, "ai") {
        var content := Field(m, "content");
        if content.Str? && content.text != "" {
          return Some(content.text);
        }
        if content.List? {
          text := JoinBlocks(content.items);
          if text.None? || text.value != "" {
            return;
          }
        }
      }
    }
    return Some("");
  }

  /** The text blocks joined; None when one of the parts is no string. */
  method JoinBlocks(blocks: seq<Json>) returns (text: Option<string>)
    ensures text.Some? <==> GoodBlocks(blocks)
    ensures text.Some? ==> text.value == TextBlocks(blocks)
  {
    var joined := "";
    for i := 0 to |blocks|
      invariant joined == TextBlocks(blocks[..i])
      invariant forall k :: 0 <= k < i ==> GoodBlock(blocks[k])
    {
      assert blocks[..i + 1][..i] == blocks[..i];
      var block := blocks[i];
      if block.Object? && HasType(block, "text") {
        if "text" in block.fields && !block.fields["text"].Str? {
          return None;
        }
        joined := joined + StrOf(Field(block, "text"));
      } else if block.Str? {
        joined := joined + block.text;
      }
    }
    assert blocks[..|blocks|] == blocks;
    text := Some(joined);
  }

  /** `_current_turn_messages`, and the backward loop over them. */
  method HasCurrentTurnClarification(ms: seq<Json>) returns (clarifies: bool)
    ensures clarifies == Clarifies(ms)
  {
    var n: nat := |ms|;
    assert ms[..n] == ms;
    while n > 0
      invariant n <= |ms| && Clarifies(ms) == Clarifies(ms[..n])
    {
      var m := ms[n - 1];
      assert ms[..n][..n - 1] == ms[..n - 1];
      n := n - 1;
      if !m.Object? {
        continue;
      }
      if Human(m) {
        return false;
      }
      if HasType(m, "tool") {
        return Field(m, "name") == Str("ask_clarification");
      }
      if HasType(m, "ai") {
        var content := Field(m, "content");
        if content.Str? {
          if content.text != "" {
            return false;
          }
        } else if Truthy(content) {
          return false;
        }
        if Truthy(Field(m, "tool_calls")) {
          return false;
        }
      }
    }
    return false;
  }

  /** `_extract_artifacts`; None when it raises. */
  method ExtractArtifacts(state: Json) returns (artifacts: Option<seq<string>>)
    ensures artifacts == if Walkable(state) then ReadFiles(MessagesIn(state)) else None
  {
    if state.Object? && "messages" in state.fields && !Iterable(state.fields["messages"]) {
      return None;
    }
    artifacts := WalkForFiles(MessagesIn(state));
  }

  /** What is still to come after `sofar`, if nothing raises. */
  function Onto(sofar: seq<string>, rest: Option<seq<string>>): Option<seq<string>> {
    if rest.None? then None else Some(sofar + rest.value)
  }

  lemma FilesStep(ms: seq<Json>, n: nat, sofar: seq<string>)
    requires n < |ms|
    ensures Onto(sofar, ReadFiles(ms[..n + 1]))
            == if Visible(ms[n]) then Some(sofar)
               else if !GoodCalls(ms[n]) then None
               else Onto(sofar + Presented(ms[n]), ReadFiles(ms[..n]))
  {
    assert ms[..n + 1][..n] == ms[..n];
    assert sofar + [] == sofar;
    var rest := ReadFiles(ms[..n]);
    if rest.Some? {
      assert sofar + (Presented(ms[n]) + rest.value) == sofar + Presented(ms[n]) + rest.value;
    }
  }

  /** A message that presents nothing. */
  lemma FilesSkip(ms: seq<Json>, n: nat, sofar: seq<string>)
    requires n < |ms| && !Visible(ms[n]) && GoodCalls(ms[n]) && Presented(ms[n]) == []
    ensures Onto(sofar, ReadFiles(ms[..n + 1])) == Onto(sofar, ReadFiles(ms[..n]))
  {
    FilesStep(ms, n, sofar);
    assert sofar + [] == sofar;
  }

  lemma FilesStart(ms: seq<Json>)
    ensures ReadFiles(ms) == Onto([], ReadFiles(ms[..|ms|]))
  {
    assert ms[..|ms|] == ms;
    if ReadFiles(ms).Some? {
      assert [] + ReadFiles(ms).value == ReadFiles(ms).value;
    }
  }

  lemma FilesEnd(ms: seq<Json>, sofar: seq<string>)
    ensures Onto(sofar, ReadFiles(ms[..0])) == Some(sofar)
  {
    assert sofar + [] == sofar;
  }

  /** What a message of the agent, or any other that is not the user's, presents. */
  lemma PresentedBy(m: Json)
    requires m.Object? && !Human(m)
    ensures if HasType(m, "ai") && "tool_calls" in m.fields then
              var calls := m.fields["tool_calls"];
              && (GoodCalls(m) <==> Iterable(calls) && (calls.List? ==> forall i :: 0 <= i < |calls.items| ==> GoodCall(calls.items[i])))
              && Presented(m) == if calls.List? then CallPaths(calls.items) else []
            else GoodCalls(m) && Presented(m) == []
  {
  }

  method WalkForFiles(ms: seq<Json>) returns (artifacts: Option<seq<string>>)
    ensures artifacts == ReadFiles(ms)
  {
    var found: seq<string> := [];
    var n: nat := |ms|;
    FilesStart(ms);
    while n > 0
      invariant n <= |ms| && ReadFiles(ms) == Onto(found, ReadFiles(ms[..n]))
    {
      n := n - 1;
      var m := ms[n];
      if !m.Object? {
        FilesSkip(ms, n, found);
        continue;
      }
      if Human(m) {
        if Hidden(m) {
          FilesSkip(ms, n, found);
          continue;
        }
        FilesStep(ms, n, found);
        return Some(found);
      }
      PresentedBy(m);
      if HasType(m, "ai") && "tool_calls" in m.fields {
        FilesStep(ms, n, found);
        var paths := CollectPaths(m.fields["tool_calls"]);
        if paths.None? {
          return None;
        }
        found := found + paths.value;
      } else {
        FilesSkip(ms, n, found);
      }
    }
    FilesEnd(ms, found);
    return Some(found);
  }

  /** The paths presented by the calls of one message; None when they cannot be looped over or read. */
  method CollectPaths(calls: Json) returns (paths: Option<seq<string>>)
    ensures paths.Some? <==> Iterable(calls) && (calls.List? ==> forall i :: 0 <= i < |calls.items| ==> GoodCall(calls.items[i]))
    ensures paths.Some? ==> paths.value == if calls.List? then CallPaths(calls.items) else []
  {
    if !Iterable(calls) {
      return None;
    }
    if !calls.List? {
      return Some([]);
    }
    paths := CollectFrom(calls.items);
  }

  lemma CallsSnoc(calls: seq<Json>, i: nat)
    requires i < |calls|
    ensures CallPaths(calls[..i + 1]) == CallPaths(calls[..i]) + PathsOf(calls[i])
  {
    assert calls[..i + 1][..i] == calls[..i];
  }

  method CollectFrom(calls: seq<Json>) returns (paths: Option<seq<string>>)
    ensures paths.Some? <==> forall i :: 0 <= i < |calls| ==> GoodCall(calls[i])
    ensures paths.Some? ==> paths.value == CallPaths(calls)
  {
    var found: seq<string> := [];
    for i := 0 to |calls|
      invariant found == CallPaths(calls[..i])
      invariant forall k :: 0 <= k < i ==> GoodCall(calls[k])
    {
      CallsSnoc(calls, i);
      var call := calls[i];
      if call.Object? && Field(call, "name") == Str("present_files") {
        if "args" in call.fields && !call.fields["args"].Object? {
          return None;
        }
        var listed := Field(Field(call, "args"), "filepaths");
        if listed.List? {
          found := found + Strings(listed.items);
        }
      }
    }
    assert calls[..|calls|] == calls;
    paths := Some(found);
  }

  // ---- Only the current turn ------------------------------------------------------------------

  lemma LastOf(before: seq<Json>, user: Json, turn: seq<Json>)
    requires turn != []
    ensures var all := before + [user] + turn;
            all != [] && all[..|all| - 1] == before + [user] + turn[..|turn| - 1] && all[|all| - 1] == turn[|turn| - 1]
  {
  }

  lemma {:induction false} TextIsLocal(before: seq<Json>, user: Json, turn: seq<Json>)
    requires Visible(user)
    ensures ResponseText(before + [user] + turn) == ResponseText(turn)
  {
    if turn == [] {
      assert (before + [user] + turn)[|before|] == user;
    } else {
      LastOf(before, user, turn);
      TextIsLocal(before, user, turn[..|turn| - 1]);
    }
  }

  lemma {:induction false} ArtifactsAreLocal(before: seq<Json>, user: Json, turn: seq<Json>)
    requires Visible(user)
    ensures Artifacts(before + [user] + turn) == Artifacts(turn)
  {
    if turn == [] {
      assert (before + [user] + turn)[|before|] == user;
    } else {
      LastOf(before, user, turn);
      ArtifactsAreLocal(before, user, turn[..|turn| - 1]);
    }
  }

  lemma {:induction false} ClarificationIsLocal(before: seq<Json>, user: Json, turn: seq<Json>)
    requires Visible(user)
    ensures Clarifies(before + [user] + turn) == Clarifies(turn)
  {
    if turn == [] {
      assert (before + [user] + turn)[|before|] == user;
    } else {
      LastOf(before, user, turn);
      ClarificationIsLocal(before, user, turn[..|turn| - 1]);
    }
  }

  lemma {:induction false} ReadabilityIsLocal(before: seq<Json>, user: Json, turn: seq<Json>)
    requires Visible(user)
    ensures ReadText(before + [user] + turn) == ReadText(turn) && ReadFiles(before + [user] + turn) == ReadFiles(turn)
  {
    if turn == [] {
      assert (before + [user] + turn)[|before|] == user;
    } else {
      LastOf(before, user, turn);
      ReadabilityIsLocal(before, user, turn[..|turn| - 1]);
    }
  }

  /** Nothing said before the user's last message is ever read, nor can it make a reader raise. */
  lemma OnlyTheCurrentTurn(before: seq<Json>, user: Json, turn: seq<Json>)
    requires Visible(user)
    ensures ResponseText(before + [user] + turn) == ResponseText(turn)
    ensures Artifacts(before + [user] + turn) == Artifacts(turn)
    ensures Clarifies(before + [user] + turn) == Clarifies(turn)
    ensures Readable(List(before + [user] + turn)) <==> Readable(List(turn))
  {
    ReadabilityIsLocal(before, user, turn);
    ReadTextIff(before + [user] + turn);
    ReadTextIff(turn);
    ReadFilesIff(before + [user] + turn);
    ReadFilesIff(turn);
    TextIsLocal(before, user, turn);
    ArtifactsAreLocal(before, user, turn);
    ClarificationIsLocal(before, user, turn);
  }

  // ---- When a clarification is announced as one -------------------------------------------------

  /** The reply text is the question of the clarification call at `j`. */
  ghost predicate TextIsQuestion(ms: seq<Json>, j: nat) {
    && j < |ms| && AsksBack(ms[j]) && OwnText(ms[j]) != ""
    && forall i :: j < i < |ms| ==> !Visible(ms[i]) && OwnText(ms[i]) == ""
  }

  /** The message neither ends the turn nor adds to it. */
  predicate Silent(m: Json) {
    && !Human(m) && !HasType(m, "tool")
    && !(HasType(m, "ai") && (Truthy(Field(m, "content")) || Truthy(Field(m, "tool_calls"))))
  }

  lemma {:induction false} QuestionIsText(ms: seq<Json>, j: nat)
    requires TextIsQuestion(ms, j)
    ensures ResponseText(ms) == OwnText(ms[j])
  {
    if j < |ms| - 1 {
      var front := ms[..|ms| - 1];
      assert forall i :: 0 <= i < |front| ==> front[i] == ms[i];
      QuestionIsText(front, j);
    } else {
      assert !Visible(ms[j]);
    }
  }

  /** A clarification call at `k`, with nothing but silence after it. */
  ghost predicate EndsInCall(ms: seq<Json>, k: nat) {
    k < |ms| && AsksBack(ms[k]) && forall i :: k < i < |ms| ==> Silent(ms[i])
  }

  /** The turn counts as ending in a clarification exactly when a clarification call is its last word. */
  lemma {:induction false} ClarifiesIff(ms: seq<Json>)
    ensures Clarifies(ms) <==> exists k: nat :: EndsInCall(ms, k)
  {
    if ms != [] {
      var last := |ms| - 1;
      var front := ms[..last];
      ClarifiesIff(front);
      if AsksBack(ms[last]) {
        assert EndsInCall(ms, last);
      } else if Silent(ms[last]) {
        if k: nat :| EndsInCall(front, k) {
          assert front[k] == ms[k];
          assert EndsInCall(ms, k);
        }
        if k: nat :| EndsInCall(ms, k) {
          assert front[k] == ms[k];
          assert EndsInCall(front, k);
        }
      }
    }
  }

  /** When the reply text is the question of a clarification, the reply is marked
      as pending exactly when that call, or a later one without a question, is
      the turn's last word. */
  lemma QuestionIsPendingIff(ms: seq<Json>, j: nat)
    requires TextIsQuestion(ms, j)
    ensures ResponseText(ms) == OwnText(ms[j])
    ensures Clarifies(ms) <==> exists k: nat :: j <= k && EndsInCall(ms, k)
  {
    QuestionIsText(ms, j);
    ClarifiesIff(ms);
    if k: nat :| EndsInCall(ms, k) {
      assert !Silent(ms[j]);
    }
  }

  /** A hidden control message after the question: the user is shown the question,
      but the reply is not marked as pending. */
  lemma HiddenControlHidesQuestion(front: seq<Json>, question: Json, control: Json)
    requires AsksBack(question) && OwnText(question) != "" && Hidden(control)
    ensures var ms := front + [question, control]; ResponseText(ms) == OwnText(question) && !Clarifies(ms)
  {
    var ms := front + [question, control];
    assert ms[|ms| - 1] == control && ms[|front|] == question;
    assert OwnText(control) == "";
    QuestionIsPendingIff(ms, |front|);
  }
}
