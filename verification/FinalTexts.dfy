/** What a streaming reply shows and ends with. */
module FinalTexts {
  import opened Wrappers
  import opened StreamText
  import opened Streaming
  import Turn

  // Which text, mark and files the messages of a streaming reply carry, in terms of
  // the state of the agent and the streamed text (backend/app/channels/manager.py,
  // `_handle_streaming_chat`, `_prepare_artifact_delivery`, `_format_artifact_text`).

  // ---- File names ---------------------------------------------------------------------

  /** `name` is what follows the last slash of the path. */
  predicate EndsInName(path: string, name: string) {
    && |name| <= |path| && path[|path| - |name|..] == name && '/' !in name
    && (|name| == |path| || path[|path| - |name| - 1] == '/')
  }

  predicate NamedAt(text: string, path: string, i: nat, j: nat) {
    i <= j <= |text| && EndsInName(path, text[i..j])
  }

  /** The name of the file at `path` occurs in the text. */
  ghost predicate Mentions(text: string, path: string) {
    exists i: nat, j: nat :: NamedAt(text, path, i, j)
  }

  lemma NameSnoc(front: string, name: string, last: char)
    requires EndsInName(front, name) && last != '/'
    ensures EndsInName(front + [last], name + [last])
  {
    var path, more, cut := front + [last], name + [last], |front| - |name|;
    assert |path| - |more| == cut;
    assert path[cut..] == front[cut..] + [last];
  }

  lemma {:induction false} BasenameIs(path: string)
    ensures EndsInName(path, Basename(path))
  {
    if path != "" && path[|path| - 1] != '/' {
      var front, last := path[..|path| - 1], path[|path| - 1];
      BasenameIs(front);
      NameSnoc(front, Basename(front), last);
      assert path == front + [last];
    }
  }

  lemma CharsOfName(path: string, name: string)
    requires EndsInName(path, name)
    ensures forall k :: |path| - |name| <= k < |path| ==> path[k] in name
  {
    forall k | |path| - |name| <= k < |path|
      ensures path[k] in name
    {
      assert path[k] == name[k - (|path| - |name|)];
    }
  }

  /** A path has one name. */
  lemma NameIsUnique(path: string, a: string, b: string)
    requires EndsInName(path, a) && EndsInName(path, b)
    ensures a == b
  {
    CharsOfName(path, a);
    CharsOfName(path, b);
  }

  lemma SliceInside(front: string, text: string, back: string, i: nat, j: nat)
    requires i <= j <= |text|
    ensures |front| + j <= |front + text + back| && (front + text + back)[|front| + i..|front| + j] == text[i..j]
  {
  }

  lemma MoreMentions(front: string, text: string, back: string, path: string)
    requires Mentions(text, path)
    ensures Mentions(front + text + back, path)
  {
    var i: nat, j: nat :| NamedAt(text, path, i, j);
    SliceInside(front, text, back, i, j);
    assert NamedAt(front + text + back, path, |front| + i, |front| + j);
  }

  lemma NameMentions(path: string)
    ensures Mentions(Basename(path), path)
  {
    BasenameIs(path);
    var name := Basename(path);
    assert name[0..|name|] == name;
    assert NamedAt(name, path, 0, |name|);
  }

  lemma Regroup(a: string, b: string, c: string)
    ensures a + b + c == "" + a + (b + c) == (a + b) + c + "" == a + (b + c)
  {
  }

  lemma PrefixMentions(front: string, text: string, path: string)
    requires Mentions(text, path)
    ensures Mentions(front + text, path)
  {
    MoreMentions(front, text, "", path);
    Regroup(front, text, "");
    assert front + text + "" == front + text;
  }

  lemma SuffixMentions(text: string, back: string, path: string)
    requires Mentions(text, path)
    ensures Mentions(text + back, path)
  {
    MoreMentions("", text, back, path);
    assert "" + text + back == text + back;
  }

  lemma {:induction false} JoinedNamesMention(paths: seq<string>, k: nat)
    requires k < |paths|
    ensures Mentions(JoinNames(paths), paths[k])
  {
    NameMentions(paths[0]);
    if |paths| > 1 {
      var name, more := Basename(paths[0]), JoinNames(paths[1..]);
      if k == 0 {
        SuffixMentions(name, "\U{3001}" + more, paths[0]);
        Regroup(name, "\U{3001}", more);
      } else {
        JoinedNamesMention(paths[1..], k - 1);
        PrefixMentions(name + "\U{3001}", more, paths[k]);
      }
    }
  }

  lemma ListingIs(paths: seq<string>) returns (intro: string)
    requires paths != []
    ensures ArtifactText(paths) == intro + JoinNames(paths)
  {
    intro := if |paths| == 1 then "Created File: \U{1F4CE} " else "Created Files: \U{1F4CE} ";
  }

  /** Every listed file is mentioned. */
  lemma ListingMentions(paths: seq<string>, k: nat)
    requires k < |paths|
    ensures Mentions(ArtifactText(paths), paths[k])
  {
    var intro := ListingIs(paths);
    JoinedNamesMention(paths, k);
    PrefixMentions(intro, JoinNames(paths), paths[k]);
  }

  lemma {:induction false} UnresolvedIs(files: seq<string>, resolved: seq<string>, k: nat)
    requires k < |files| && files[k] !in resolved
    ensures files[k] in Unresolved(files, resolved)
  {
    if k > 0 {
      UnresolvedIs(files[1..], resolved, k - 1);
    }
  }

  // ---- The delivered text ----------------------------------------------------------------

  /** The part of the delivered text after the reply text. */
  ghost predicate Lists(text: string, delivered: string, path: string) {
    text <= delivered && Mentions(delivered[|text|..], path)
  }

  lemma AfterText(text: string, more: string)
    ensures text <= text + more && (text + more)[|text|..] == more
  {
  }

  lemma AppendedIs(text: string, more: string) returns (gap: string)
    ensures Appended(text, more) == text + (gap + more)
  {
    gap := if text == "" then "" else "\n\n";
    Regroup(text, gap, more);
  }

  lemma AppendedLists(text: string, paths: seq<string>, k: nat)
    requires k < |paths|
    ensures Lists(text, Appended(text, ArtifactText(paths)), paths[k])
  {
    var listing := ArtifactText(paths);
    ListingMentions(paths, k);
    var gap := AppendedIs(text, listing);
    PrefixMentions(gap, listing, paths[k]);
    AfterText(text, gap + listing);
  }

  lemma ExtendedLists(text: string, delivered: string, more: string, path: string)
    requires text <= delivered && (Mentions(delivered[|text|..], path) || Mentions(more, path))
    ensures Lists(text, delivered + more, path)
  {
    var rest := delivered[|text|..];
    assert delivered == text + rest;
    Regroup(text, rest, more);
    AfterText(text, rest + more);
    if Mentions(rest, path) {
      SuffixMentions(rest, more, path);
    } else {
      PrefixMentions(rest, more, path);
    }
  }

  lemma AppendedKeeps(text: string, delivered: string, more: string, path: string)
    requires Lists(text, delivered, path)
    ensures Lists(text, Appended(delivered, more), path)
  {
    var gap := AppendedIs(delivered, more);
    ExtendedLists(text, delivered, gap + more, path);
  }

  lemma LaterLists(text: string, delivered: string, paths: seq<string>, k: nat)
    requires text <= delivered && k < |paths|
    ensures Lists(text, Appended(delivered, ArtifactText(paths)), paths[k])
  {
    var listing := ArtifactText(paths);
    ListingMentions(paths, k);
    var gap := AppendedIs(delivered, listing);
    PrefixMentions(gap, listing, paths[k]);
    ExtendedLists(text, delivered, gap + listing, paths[k]);
  }

  /** The files that did not resolve come after the reply text, then those that did. */
  lemma DeliveredLists(snap: Snapshot, k: nat)
    requires k < |snap.artifacts|
    ensures Lists(snap.text, Delivered(snap).0, snap.artifacts[k]) && Delivered(snap).0 != ""
  {
    var missing := Unresolved(snap.artifacts, snap.resolved);
    var first := if missing != [] then Appended(snap.text, ArtifactText(missing)) else snap.text;
    if snap.artifacts[k] in snap.resolved {
      var i :| 0 <= i < |snap.resolved| && snap.resolved[i] == snap.artifacts[k];
      LaterLists(snap.text, first, snap.resolved, i);
    } else {
      UnresolvedIs(snap.artifacts, snap.resolved, k);
      var i :| 0 <= i < |missing| && missing[i] == snap.artifacts[k];
      AppendedLists(snap.text, missing, i);
      if snap.resolved != [] {
        AppendedKeeps(snap.text, first, ArtifactText(snap.resolved), snap.artifacts[k]);
      }
    }
  }

  // ---- The final message ---------------------------------------------------------------------

  /** The message a reply ends with, if it has one. */
  function LastOf(bus: seq<Outbound>): Option<Outbound> {
    if bus != [] && bus[|bus| - 1].Final? then Some(bus[|bus| - 1]) else None
  }

  lemma LastOfSnoc(bus: seq<Outbound>, o: Outbound)
    requires o.Final?
    ensures LastOf(bus + [o]) == Some(o)
  {
  }

  lemma GoesThrough(items: seq<Item>, ending: Ending)
    requires Kept(items).None? || Turn.Readable(Kept(items).value.state)
    ensures Through(items) == |items|
  {
    if Through(items) < |items| {
      PoisonIsNeverAnswered(items, ending);
    }
  }

  lemma HeardAll(items: seq<Item>, ending: Ending)
    requires Through(items) == |items|
    ensures items[..Through(items)] == items && EndOf(items, ending) == ending
  {
  }

  lemma PublishedIs(items: seq<Item>, ending: Ending)
    requires items[..Through(items)] == items && EndOf(items, ending) == ending
    ensures Published(items, ending) == Updates(items) + Closing(Latest(items), Kept(items), ending)
  {
  }

  lemma ClosingIs(latest: string, kept: Option<Held>, ending: Ending)
    requires kept.None? || Turn.Readable(kept.value.state)
    ensures Closing(latest, kept, ending) == [FinalMessage(latest, kept, ending)]
  {
    if kept.Some? {
      Turn.ReadsIff(kept.value.state);
    }
  }

  /** A stream whose reply has a final message got through all its events. */
  lemma FinalIsLast(items: seq<Item>, ending: Ending)
    requires Kept(items).None? || Turn.Readable(Kept(items).value.state)
    ensures Through(items) == |items|
    ensures LastOf(Published(items, ending)) == Some(FinalMessage(Latest(items), Kept(items), ending))
  {
    GoesThrough(items, ending);
    HeardAll(items, ending);
    PublishedIs(items, ending);
    var final := FinalMessage(Latest(items), Kept(items), ending);
    ClosingIs(Latest(items), Kept(items), ending);
    FinalIsNotEmpty(Latest(items), Kept(items), ending);
    LastOfSnoc(Updates(items), final);
  }

  /** Shown when there is neither text nor a file. */
  function Apology(streamed: string, ending: Ending): string {
    if ending.Raised? && ending.busy then
      "This conversation is already processing another request. Please wait for it to finish and try again."
    else if ending.Raised? then "An error occurred while processing your request. Please try again."
    else if streamed != "" then streamed
    else "(No response from agent)"
  }

  /** What the final message carries when a state was kept: its mark is that of
      the state, its attachments are the files that resolved, its text is the
      reply text of the state if there are no files. With files it begins with the
      reply text and then names each of them. Only without text and files the
      streamed text is shown, or an error text if the stream raised. */
  lemma FinalOfState(items: seq<Item>, ending: Ending)
    requires Kept(items).Some? && Turn.Readable(Kept(items).value.state)
    ensures var Held(state, resolved) := Kept(items).value;
            var ms := Turn.MessagesIn(state);
            var text, files := Turn.ResponseText(ms), Turn.Artifacts(ms);
            var final := LastOf(Published(items, ending));
            && final.Some? && final.value.Final?
            && final.value.pendingClarification == Turn.Clarifies(ms)
            && final.value.attachments == (if files == [] then [] else resolved)
            && (files == [] ==> final.value.text == if text != "" then text else Apology(Latest(items), ending))
            && (forall k :: 0 <= k < |files| ==> Lists(text, final.value.text, files[k]))
  {
    FinalIsLast(items, ending);
    var Held(state, resolved) := Kept(items).value;
    var snap := SnapshotOf(state, resolved);
    forall k | 0 <= k < |snap.artifacts|
      ensures Lists(snap.text, Delivered(snap).0, snap.artifacts[k]) && Delivered(snap).0 != ""
    {
      DeliveredLists(snap, k);
    }
    if snap.artifacts != [] {
      DeliveredLists(snap, 0);
    }
  }

  /** ... and when no state was kept: the streamed text, whatever the ending, or
      what is said without any text. */
  lemma FinalOfStream(items: seq<Item>, ending: Ending)
    requires Kept(items).None?
    ensures LastOf(Published(items, ending))
            == Some(Final(if Latest(items) != "" then Latest(items) else Apology("", ending), false, []))
  {
    FinalIsLast(items, ending);
  }

  /** One file, to the letter: the reply text, a blank line, and the file's name. */
  lemma FinalWithOneFile(items: seq<Item>, ending: Ending, path: string, name: string)
    requires Kept(items).Some? && Turn.Readable(Kept(items).value.state) && EndsInName(path, name)
    requires Turn.Artifacts(Turn.MessagesIn(Kept(items).value.state)) == [path]
    requires Kept(items).value.resolved == [] || Kept(items).value.resolved == [path]
    ensures var text := Turn.ResponseText(Turn.MessagesIn(Kept(items).value.state));
            var final := LastOf(Published(items, ending));
            && final.Some? && final.value.Final?
            && final.value.text == (if text == "" then "" else text + "\n\n") + "Created File: \U{1F4CE} " + name
            && final.value.attachments == Kept(items).value.resolved
  {
    FinalIsLast(items, ending);
    var Held(state, resolved) := Kept(items).value;
    DeliversOne(SnapshotOf(state, resolved), path, name);
  }

  lemma DeliversOne(snap: Snapshot, path: string, name: string)
    requires snap.artifacts == [path] && (snap.resolved == [] || snap.resolved == [path]) && EndsInName(path, name)
    ensures Delivered(snap).0 == (if snap.text == "" then "" else snap.text + "\n\n") + "Created File: \U{1F4CE} " + name
    ensures Delivered(snap).1 == snap.resolved
  {
    BasenameIs(path);
    NameIsUnique(path, name, Basename(path));
    UnresolvedOne(path, snap.resolved);
    assert ArtifactText([path]) == "Created File: \U{1F4CE} " + name;
    OneLine(snap.text, "Created File: \U{1F4CE} ", name);
  }

  lemma UnresolvedOne(path: string, resolved: seq<string>)
    requires resolved == [] || resolved == [path]
    ensures Unresolved([path], resolved) == if resolved == [] then [path] else []
  {
    assert [path][1..] == [];
  }

  lemma OneLine(text: string, intro: string, name: string)
    requires intro != ""
    ensures Appended(text, intro + name) == (if text == "" then "" else text + "\n\n") + intro + name
  {
    assert "" + intro + name == intro + name;
    assert text + "\n\n" + (intro + name) == text + "\n\n" + intro + name;
  }

  // ---- What is kept and what is shown meanwhile ------------------------------------------------

  /** The state kept is that of the last state event the loop came to. */
  lemma {:induction false} LastStateIsHeld(items: seq<Item>, i: nat)
    requires i < |items| && items[i].event.Values? && IsState(items[i].event.state)
    requires forall j :: i < j < |items| ==> !(items[j].event.Values? && IsState(items[j].event.state))
    ensures LastValues(items) == Some(Held(items[i].event.state, items[i].event.resolved))
  {
    if i < |items| - 1 {
      LastStateIsHeld(items[..|items| - 1], i);
    }
  }

  lemma KeptIsTheLastState(items: seq<Item>, i: nat)
    requires Through(items) == |items|
    requires i < |items| && items[i].event.Values? && (items[i].event.state.List? || items[i].event.state.Object?)
    requires forall j :: i < j < |items| ==> !(items[j].event.Values? && (items[j].event.state.List? || items[j].event.state.Object?))
    ensures Kept(items) == Some(Held(items[i].event.state, items[i].event.resolved))
  {
    LastStateIsHeld(items, i);
  }

  /** What the last event makes of the latest text: the buffer of its message, the
      question of a clarifying state, or no change. */
  lemma LatestFollows(items: seq<Item>)
    requires items != []
    ensures var front, event := items[..|items| - 1], items[|items| - 1].event;
            match event
            case Message(data) =>
              var chunk := Chunk(Current(MessagesOf(front)), data);
              var buffer := if chunk.Some? then Buffer(AfterEvents(MessagesOf(items)), chunk.value.0) else "";
              Latest(items) == if buffer != "" then buffer else Latest(front)
            case Values(state, _) =>
              var ms := Turn.MessagesIn(state);
              Latest(items) == if (state.List? || state.Object?) && Turn.Clarifies(ms) && Turn.ResponseText(ms) != ""
                               then Turn.ResponseText(ms) else Latest(front)
            case Unrelated => Latest(items) == Latest(front)
  {
    var front, event := items[..|items| - 1], items[|items| - 1].event;
    if event.Message? {
      MessageKeepsSource(front, event.data);
      assert MessagesOf(items) == MessagesOf(front) + [event.data];
    }
  }

  lemma UpdatesSnoc(items: seq<Item>)
    requires items != []
    ensures var last := |items| - 1;
            Updates(items) == Updates(items[..last])
            || Updates(items) == Updates(items[..last]) + [Progress(Latest(items), items[last].now)]
  {
  }

  /** The update shows the latest text after event `i`, and is dated by it. */
  predicate ShowsEvent(items: seq<Item>, u: Outbound, i: nat) {
    i < |items| && u == Progress(Latest(items[..i + 1]), items[i].now)
  }

  lemma FrontShowsEvent(items: seq<Item>, u: Outbound, i: nat)
    requires items != [] && ShowsEvent(items[..|items| - 1], u, i)
    ensures ShowsEvent(items, u, i)
  {
    assert items[..|items| - 1][..i + 1] == items[..i + 1];
  }

  lemma LastShowsEvent(items: seq<Item>)
    requires items != []
    ensures ShowsEvent(items, Progress(Latest(items), items[|items| - 1].now), |items| - 1)
  {
    assert items[..|items| - 1 + 1] == items;
  }

  lemma {:induction false} UpdateOfEvent(items: seq<Item>, u: Outbound) returns (i: nat)
    requires u in Updates(items)
    ensures ShowsEvent(items, u, i)
  {
    UpdatesSnoc(items);
    if u in Updates(items[..|items| - 1]) {
      i := UpdateOfEvent(items[..|items| - 1], u);
      FrontShowsEvent(items, u, i);
    } else {
      i := |items| - 1;
      LastShowsEvent(items);
    }
  }

  /** Every update shows, with a cursor, the latest text after some event, and is dated by it. */
  lemma UpdateShowsLatest(items: seq<Item>, u: Outbound) returns (i: nat)
    requires u in Updates(items)
    ensures i < |items| && u.Progress? && u.at == items[i].now
    ensures Shown(u) == Latest(items[..i + 1]) + " \U{2589}"
  {
    i := UpdateOfEvent(items, u);
  }
}
