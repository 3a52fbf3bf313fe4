/** Splitting long replies for Discord (backend/app/channels/discord.py,
    `_split_text`). */
module DiscordSplit {

  const MAX_LENGTH: nat := 2000

  predicate Newlines(s: string) {
    forall i :: 0 <= i < |s| ==> s[i] == '\n'
  }

  /** The chunks, each followed by the separator that was dropped after it. */
  ghost function Woven(chunks: seq<string>, seps: seq<string>): string
    requires |chunks| == |seps|
  {
    if chunks == [] then ""
    else Woven(chunks[..|chunks| - 1], seps[..|seps| - 1]) + chunks[|chunks| - 1] + seps[|seps| - 1]
  }

  lemma WovenSnoc(chunks: seq<string>, seps: seq<string>, chunk: string, sep: string)
    requires |chunks| == |seps|
    ensures Woven(chunks + [chunk], seps + [sep]) == Woven(chunks, seps) + chunk + sep
  {
    assert (chunks + [chunk])[..|chunks|] == chunks && (seps + [sep])[..|seps|] == seps;
  }

  /** Each chunk fits and is not empty; each separator is a run of newlines. */
  ghost predicate ChunksOk(chunks: seq<string>, seps: seq<string>) {
    && |chunks| == |seps|
    && forall i :: 0 <= i < |chunks| ==> 1 <= |chunks[i]| <= 2000 && Newlines(seps[i])
  }

  /** A chunk is cut at the length limit or in front of a newline. */
  ghost predicate CutsOk(chunks: seq<string>, seps: seq<string>, n: nat)
    requires n <= |chunks| == |seps|
  {
    forall i :: 0 <= i < n ==> |chunks[i]| == 2000 || seps[i] != ""
  }

  /** `s.rfind("\n", 0, limit)`, with 0 for "not found or at 0". */
  method LastNewline(s: string, limit: nat) returns (at: nat)
    requires limit <= |s|
    ensures at < limit || at == 0
    ensures at > 0 ==> s[at] == '\n'
    ensures forall i :: at < i < limit ==> s[i] != '\n'
  {
    at := limit;
    while at > 0
      invariant at <= limit
      invariant forall i :: at <= i < limit ==> s[i] != '\n'
    {
      at := at - 1;
      if s[at] == '\n' {
        return;
      }
    }
  }

  /** `s.lstrip("\n")` and what it removed. */
  method StripNewlines(s: string) returns (rest: string, ghost run: string)
    ensures s == run + rest && Newlines(run)
    ensures rest != "" ==> rest[0] != '\n'
  {
    rest, run := s, "";
    while rest != "" && rest[0] == '\n'
      invariant s == run + rest && Newlines(run)
      decreases |rest|
    {
      run := run + [rest[0]];
      rest := rest[1..];
    }
  }

  /** The first chunk of over-long text and what is left after it. */
  method CutOne(remaining: string) returns (chunk: string, rest: string, ghost sep: string)
    requires |remaining| > 2000
    ensures remaining == chunk + sep + rest && Newlines(sep) && 1 <= |chunk| <= 2000
    ensures |chunk| == 2000 || remaining[|chunk|] == '\n'
    ensures forall i :: (|chunk| < i < 2000 || (|chunk| == 2000 && 0 < i < 2000)) ==> remaining[i] != '\n'
    ensures |chunk| == 2000 || sep != ""
    ensures rest != "" ==> rest[0] != '\n'
  {
    var splitAt := LastNewline(remaining, MAX_LENGTH);
    if splitAt == 0 {
      splitAt := MAX_LENGTH;
    }
    chunk := remaining[..splitAt];
    rest, sep := StripNewlines(remaining[splitAt..]);
    assert remaining == chunk + remaining[splitAt..];
    assert splitAt < MAX_LENGTH ==> remaining[splitAt..][0] == '\n';
  }

  /** The chunks cut off so far, and what remains of the text. */
  ghost predicate CutSoFar(text: string, chunks: seq<string>, seps: seq<string>, remaining: string) {
    && ChunksOk(chunks, seps) && CutsOk(chunks, seps, |chunks|) && Woven(chunks, seps) + remaining == text
    && (|text| <= 2000 ==> chunks == [] && remaining == text)
  }

  lemma Regroup(a: string, b: string, c: string)
    ensures a + (b + c) == a + b + c
  {
  }

  lemma WovenWith(text: string, chunks: seq<string>, seps: seq<string>, chunk: string, sep: string, rest: string)
    requires |chunks| == |seps| && Woven(chunks, seps) + (chunk + sep + rest) == text
    ensures Woven(chunks + [chunk], seps + [sep]) + rest == text
  {
    WovenSnoc(chunks, seps, chunk, sep);
    Regroup(Woven(chunks, seps), chunk + sep, rest);
    Regroup(Woven(chunks, seps), chunk, sep);
  }

  lemma NextChunk(text: string, chunks: seq<string>, seps: seq<string>, remaining: string, chunk: string, sep: string, rest: string)
    requires CutSoFar(text, chunks, seps, remaining) && |remaining| > 2000
    requires remaining == chunk + sep + rest && Newlines(sep) && 1 <= |chunk| <= 2000 && (|chunk| == 2000 || sep != "")
    ensures CutSoFar(text, chunks + [chunk], seps + [sep], rest)
  {
    WovenWith(text, chunks, seps, chunk, sep, rest);
  }

  lemma LastChunk(text: string, chunks: seq<string>, seps: seq<string>, remaining: string)
    requires CutSoFar(text, chunks, seps, remaining) && 0 < |remaining| <= 2000
    ensures ChunksOk(chunks + [remaining], seps + [""]) && Woven(chunks + [remaining], seps + [""]) == text
    ensures CutsOk(chunks + [remaining], seps + [""], |chunks|)
  {
    assert remaining + "" + "" == remaining;
    WovenWith(text, chunks, seps, remaining, "", "");
    var woven := Woven(chunks + [remaining], seps + [""]);
    assert woven + "" == woven;
  }

  /** Non-empty text comes back as chunks of 1 to 2000 characters, in order,
      separated in the text only by runs of newlines. */
  method SplitText(text: string) returns (chunks: seq<string>, ghost seps: seq<string>)
    ensures |text| <= 2000 ==> chunks == [text]
    ensures text != "" ==> ChunksOk(chunks, seps) && Woven(chunks, seps) == text
    ensures text != "" && chunks != [] ==> CutsOk(chunks, seps, |chunks| - 1)
  {
    if text == "" {
      return [""], [];
    }
    chunks, seps := [], [];
    var remaining := text;
    assert Woven([], []) + text == text;
    while |remaining| > MAX_LENGTH
      invariant CutSoFar(text, chunks, seps, remaining)
      decreases |remaining|
    {
      var chunk, rest;
      ghost var sep;
      chunk, rest, sep := CutOne(remaining);
      NextChunk(text, chunks, seps, remaining, chunk, sep, rest);
      chunks, seps, remaining := chunks + [chunk], seps + [sep], rest;
    }
    if remaining == "" {
      assert Woven(chunks, seps) + "" == Woven(chunks, seps);
      return;
    }
    LastChunk(text, chunks, seps, remaining);
    chunks, seps := chunks + [remaining], seps + [""];
  }
}
