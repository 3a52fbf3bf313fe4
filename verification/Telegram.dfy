/** In-place stream editing of the Telegram adapter
    (backend/app/channels/telegram.py). The platform is a map from messages to
    the text they show; API calls succeed or fail nondeterministically. */
module Telegram {
  import opened Wrappers
  import opened Sequences

  const MAX_LENGTH: nat := 4096
  const EDIT_INTERVAL: real := 1.0
  const GROUP_EDIT_INTERVAL: real := 3.0
  const MAX_TRACKED: nat := 256
  const ELLIPSIS := '\U{2026}'

  /** A message on the platform: chat and message id. */
  type Ref = (int, int)

  datatype EditResult = Edited | NotModified | RetryAfter | EditFailed

  /** The Bot API. A failed call changes nothing; "not modified" is only
      answered when the message already shows the text; text over the limit is
      always refused. A bot that is `up` serves every other call. */
  class Bot {
    const up: bool
    var shown: map<Ref, string>
    var next: int
    /** Whether text over the limit has ever been offered. */
    ghost var overlong: bool

    ghost predicate Valid()
      reads this
    {
      forall r :: r in shown ==> r.1 < next && |shown[r]| <= MAX_LENGTH
    }

    constructor (up: bool)
      ensures Valid() && shown == map[] && !overlong && this.up == up
    {
      this.up, shown, next, overlong := up, map[], 0, false;
    }

    method SendMessage(chat: int, text: string) returns (id: Option<int>)
      requires Valid()
      modifies this
      ensures Valid() && overlong == (old(overlong) || |text| > MAX_LENGTH)
      ensures |text| > MAX_LENGTH ==> id.None?
      ensures up && |text| <= MAX_LENGTH ==> id.Some?
      ensures id.None? ==> shown == old(shown)
      ensures id.Some? ==> (chat, id.value) !in old(shown) && shown == old(shown)[(chat, id.value) := text]
    {
      overlong := overlong || |text| > MAX_LENGTH;
      var ok: bool := *;
      if |text| > MAX_LENGTH || !(ok || up) {
        return None;
      }
      id := Some(next);
      shown := shown[(chat, next) := text];
      next := next + 1;
    }

    method EditMessageText(chat: int, id: int, text: string) returns (result: EditResult)
      requires Valid()
      modifies this
      ensures Valid() && overlong == (old(overlong) || |text| > MAX_LENGTH)
      ensures |text| > MAX_LENGTH ==> result == EditFailed
      ensures up && |text| <= MAX_LENGTH && (chat, id) in old(shown) ==> result.Edited? || result.NotModified?
      ensures result.Edited? ==> (chat, id) in old(shown) && shown == old(shown)[(chat, id) := text]
      ensures !result.Edited? ==> shown == old(shown)
      ensures result.NotModified? ==> (chat, id) in shown && shown[(chat, id)] == text
    {
      overlong := overlong || |text| > MAX_LENGTH;
      var ok: bool, limited: bool := *, *;
      if |text| > MAX_LENGTH || (chat, id) !in shown {
        return EditFailed;
      }
      if !(ok || up) {
        return if limited then RetryAfter else EditFailed;
      }
      if shown[(chat, id)] == text {
        return NotModified;
      }
      shown := shown[(chat, id) := text];
      return Edited;
    }
  }

  // ---- Splitting -----------------------------------------------------------------------

  /** `_split_message` */
  function Split(text: string): seq<string> {
    if |text| <= MAX_LENGTH then [text] else [text[..MAX_LENGTH]] + Split(text[MAX_LENGTH..])
  }

  function Joined(pieces: seq<string>): string {
    if pieces == [] then "" else pieces[0] + Joined(pieces[1..])
  }

  /** The pieces fit and concatenate to the text; only the last one may be short. */
  lemma {:induction false} SplitJoins(text: string)
    ensures Split(text) != [] && Joined(Split(text)) == text
    ensures forall i :: 0 <= i < |Split(text)| ==> |Split(text)[i]| <= 4096
    ensures forall i :: 0 <= i < |Split(text)| - 1 ==> |Split(text)[i]| == 4096
    ensures |text| > 0 ==> |Split(text)[|Split(text)| - 1]| > 0
    decreases |text|
  {
    if |text| <= MAX_LENGTH {
      assert [text][1..] == [];
      assert text + "" == text;
    } else {
      SplitJoins(text[MAX_LENGTH..]);
      assert Split(text)[1..] == Split(text[MAX_LENGTH..]);
      assert text == text[..MAX_LENGTH] + text[MAX_LENGTH..];
    }
  }

  /** What a progress update shows: over-long text is cut and marked. */
  function Display(text: string): (display: string)
    ensures |display| <= MAX_LENGTH
  {
    if |text| > MAX_LENGTH then text[..MAX_LENGTH - 1] + [ELLIPSIS] else text
  }

  // ---- Tracked streams -------------------------------------------------------------------

  /** The chat and inbound message a streamed reply belongs to. */
  datatype Key = Key(chatId: string, threadTs: string)

  datatype Stream = Stream(key: Key, messageId: int, lastEditAt: real, lastText: string)

  function Find(streams: seq<Stream>, key: Key): (i: Option<nat>)
    ensures i.Some? ==> i.value < |streams| && streams[i.value].key == key
    ensures i.None? ==> forall j :: 0 <= j < |streams| ==> streams[j].key != key
  {
    if streams == [] then None
    else if streams[|streams| - 1].key == key then Some(|streams| - 1)
    else Find(streams[..|streams| - 1], key)
  }

  lemma LastIsFound(streams: seq<Stream>, key: Key)
    requires streams != [] && streams[|streams| - 1].key == key
    ensures Find(streams, key) == Some(|streams| - 1)
  {
  }

  /** The streams of the other keys, in order. */
  function Others(streams: seq<Stream>, key: Key): seq<Stream> {
    if Find(streams, key).Some? then Cut(streams, Find(streams, key).value) else streams
  }

  /** At most the newest `n`. */
  function Newest(streams: seq<Stream>, n: nat): seq<Stream> {
    if |streams| > n then streams[|streams| - n..] else streams
  }

  function Cut(streams: seq<Stream>, i: nat): seq<Stream>
    requires i < |streams|
  {
    streams[..i] + streams[i + 1..]
  }

  /** The stream was edited less than a second ago, or three in a group chat. */
  predicate Waits(streams: seq<Stream>, key: Key, chat: int, now: real) {
    && Find(streams, key).Some?
    && now - streams[Find(streams, key).value].lastEditAt < if chat < 0 then 3.0 else 1.0
  }

  /** The key is tracked, and its message shows the text, cut to 4096 characters. */
  ghost predicate ShowsProgress(number: string -> Option<int>, shown: map<Ref, string>, streams: seq<Stream>, key: Key, text: string) {
    && Find(streams, key).Some?
    && var s := streams[Find(streams, key).value];
       && s.lastText == (if |text| > 4096 then text[..4095] + "\U{2026}" else text)
       && RefOf(number, s) in shown && shown[RefOf(number, s)] == s.lastText
  }

  /** The message a stream edits, given how chat ids are read as numbers. */
  function RefOf(number: string -> Option<int>, s: Stream): Ref {
    (if number(s.key.chatId).Some? then number(s.key.chatId).value else 0, s.messageId)
  }

  /** The stream's recorded text is what its message shows. */
  ghost predicate Faithful(number: string -> Option<int>, shown: map<Ref, string>, s: Stream) {
    && number(s.key.chatId).Some?
    && RefOf(number, s) in shown && shown[RefOf(number, s)] == s.lastText
  }

  ghost predicate Consistent(number: string -> Option<int>, shown: map<Ref, string>, streams: seq<Stream>) {
    && (forall i :: 0 <= i < |streams| ==> Faithful(number, shown, streams[i]))
    && (forall i, j :: 0 <= i < j < |streams| ==>
          streams[i].key != streams[j].key && RefOf(number, streams[i]) != RefOf(number, streams[j]))
  }

  lemma CutStaysConsistent(number: string -> Option<int>, shown: map<Ref, string>, streams: seq<Stream>, i: nat)
    requires Consistent(number, shown, streams) && i < |streams|
    ensures Consistent(number, shown, Cut(streams, i))
    ensures forall j :: 0 <= j < |Cut(streams, i)| ==>
              Cut(streams, i)[j].key != streams[i].key && RefOf(number, Cut(streams, i)[j]) != RefOf(number, streams[i])
  {
    var cut := Cut(streams, i);
    forall j | 0 <= j < |cut|
      ensures cut[j] == streams[if j < i then j else j + 1]
    {
    }
    forall j | 0 <= j < |cut|
      ensures Faithful(number, shown, cut[j])
    {
      assert Faithful(number, shown, streams[if j < i then j else j + 1]);
    }
  }

  /** Messages no stream refers to can be added or changed. */
  lemma OtherMessagesAreFree(number: string -> Option<int>, shown: map<Ref, string>, streams: seq<Stream>, r: Ref, text: string)
    requires Consistent(number, shown, streams)
    requires forall i :: 0 <= i < |streams| ==> RefOf(number, streams[i]) != r
    ensures Consistent(number, shown[r := text], streams)
  {
    forall i | 0 <= i < |streams|
      ensures Faithful(number, shown[r := text], streams[i])
    {
      assert Faithful(number, shown, streams[i]);
    }
  }

  lemma AppendStaysConsistent(number: string -> Option<int>, shown: map<Ref, string>, streams: seq<Stream>, s: Stream)
    requires Consistent(number, shown, streams) && Faithful(number, shown, s)
    requires forall i :: 0 <= i < |streams| ==> streams[i].key != s.key && RefOf(number, streams[i]) != RefOf(number, s)
    ensures Consistent(number, shown, streams + [s])
  {
  }

  lemma ReplaceStaysConsistent(number: string -> Option<int>, shown: map<Ref, string>, streams: seq<Stream>, i: nat, s: Stream)
    requires i < |streams| && s.key == streams[i].key && Faithful(number, shown, s)
    requires Consistent(number, shown, Cut(streams, i))
    requires forall j :: 0 <= j < |Cut(streams, i)| ==>
               Cut(streams, i)[j].key != s.key && RefOf(number, Cut(streams, i)[j]) != RefOf(number, s)
    ensures Consistent(number, shown, streams[i := s])
  {
    var cut := Cut(streams, i);
    forall j | 0 <= j < |streams| && j != i
      ensures streams[j] == cut[if j < i then j else j - 1] && Faithful(number, shown, streams[j])
    {
      assert Faithful(number, shown, cut[if j < i then j else j - 1]);
    }
    var changed := streams[i := s];
    forall j, k | 0 <= j < k < |changed|
      ensures changed[j].key != changed[k].key && RefOf(number, changed[j]) != RefOf(number, changed[k])
    {
      var j', k' := if j < i then j else j - 1, if k < i then k else k - 1;
      if j != i && k != i {
        assert streams[j] == cut[j'] && streams[k] == cut[k'];
      } else if j == i {
        assert streams[k] == cut[k'];
      } else {
        assert streams[j] == cut[j'];
      }
    }
  }

  // ---- The channel ---------------------------------------------------------------------------

  /** The texts shown by a sequence of messages. */
  function TextsOf(shown: map<Ref, string>, refs: seq<Ref>): seq<string>
    requires forall r :: r in refs ==> r in shown
  {
    seq(|refs|, i requires 0 <= i < |refs| => assert refs[i] in refs; shown[refs[i]])
  }

  function Interval(chat: int): real {
    if chat < 0 then GROUP_EDIT_INTERVAL else EDIT_INTERVAL
  }

  class Channel {
    const bot: Bot
    /** `int(chat_id)` */
    const number: string -> Option<int>
    /** The tracked streams, in insertion order. */
    var streams: seq<Stream>
    var lastBotMessage: map<string, int>

    ghost predicate Valid()
      reads this, bot
    {
      bot.Valid() && |streams| <= MAX_TRACKED && Consistent(number, bot.shown, streams)
    }

    constructor (bot: Bot, number: string -> Option<int>)
      requires bot.Valid()
      ensures Valid() && this.bot == bot && this.number == number && streams == []
    {
      this.bot, this.number, streams, lastBotMessage := bot, number, [], map[];
    }

    /** `_register_stream_message`: the newest entry replaces the key's old one;
        the oldest are dropped when there are too many. */
    method Register(key: Key, messageId: int, lastText: string, at: real)
      requires Valid()
      requires Faithful(number, bot.shown, Stream(key, messageId, at, lastText))
      requires forall i :: 0 <= i < |streams| ==> RefOf(number, streams[i]) != RefOf(number, Stream(key, messageId, at, lastText))
      modifies this`streams
      ensures Valid()
      ensures streams == Newest(Others(old(streams), key), 255) + [Stream(key, messageId, at, lastText)]
      ensures forall s :: s in streams ==> s in old(streams) || s == Stream(key, messageId, at, lastText)
    {
      ghost var r := RefOf(number, Stream(key, messageId, at, lastText));
      var i := Find(streams, key);
      if i.Some? {
        CutStaysConsistent(number, bot.shown, streams, i.value);
        streams := Cut(streams, i.value);
      }
      assert forall s :: s in streams ==> s in old(streams);
      assert forall j :: 0 <= j < |streams| ==> streams[j] in streams;
      while |streams| >= MAX_TRACKED
        invariant |streams| <= MAX_TRACKED && Consistent(number, bot.shown, streams)
        invariant forall s :: s in streams ==> s in old(streams)
        invariant Newest(streams, 255) == Newest(Others(old(streams), key), 255)
        invariant forall j :: 0 <= j < |streams| ==> streams[j].key != key && RefOf(number, streams[j]) != r
      {
        CutStaysConsistent(number, bot.shown, streams, 0);
        assert streams[1..] == Cut(streams, 0);
        streams := streams[1..];
      }
      AppendStaysConsistent(number, bot.shown, streams, Stream(key, messageId, at, lastText));
      streams := streams + [Stream(key, messageId, at, lastText)];
    }

    /** Sends a message that starts a stream, such as the "Working on it..." reply. */
    method StartStream(chat: int, key: Key, text: string, at: real) returns (sent: bool)
      requires Valid() && number(key.chatId) == Some(chat) && |text| <= MAX_LENGTH
      modifies this`streams, bot
      ensures Valid() && bot.overlong == old(bot.overlong)
      ensures bot.up ==> sent
      ensures forall r :: r in old(bot.shown) ==> r in bot.shown && bot.shown[r] == old(bot.shown)[r]
      ensures !sent ==> streams == old(streams) && bot.shown == old(bot.shown)
      ensures sent ==> streams != [] && streams[|streams| - 1].key == key && streams[|streams| - 1].lastText == text
      ensures sent ==> streams[|streams| - 1].lastEditAt == at && Newest(Others(old(streams), key), 255) == streams[..|streams| - 1]
      ensures sent ==> RefOf(number, streams[|streams| - 1]) !in old(bot.shown)
      ensures sent ==> bot.shown == old(bot.shown)[RefOf(number, streams[|streams| - 1]) := text]
      ensures forall s :: s in streams ==> s in old(streams) || s.key == key
    {
      var id := bot.SendMessage(chat, text);
      sent := id.Some?;
      if sent {
        FreshForStreams(old(bot.shown), (chat, id.value));
        OtherMessagesAreFree(number, old(bot.shown), streams, (chat, id.value), text);
        Register(key, id.value, text, at);
      }
    }

    lemma FreshForStreams(shown: map<Ref, string>, r: Ref)
      requires Consistent(number, shown, streams) && r !in shown
      ensures forall i :: 0 <= i < |streams| ==> RefOf(number, streams[i]) != r
    {
      forall i | 0 <= i < |streams|
        ensures RefOf(number, streams[i]) != r
      {
        assert Faithful(number, shown, streams[i]);
      }
    }

    /** Rewrites the entry at `i`, whose message (possibly a new one) now shows its text. */
    method Rewrite(i: nat, s: Stream, ghost before: map<Ref, string>)
      requires i < |streams| && |streams| <= MAX_TRACKED && s.key == streams[i].key && bot.Valid()
      requires Consistent(number, before, streams) && number(s.key.chatId).Some?
      requires bot.shown == before[RefOf(number, s) := s.lastText]
      requires RefOf(number, s) == RefOf(number, streams[i]) || RefOf(number, s) !in before
      modifies this`streams
      ensures Valid() && streams == old(streams)[i := s]
    {
      CutStaysConsistent(number, before, streams, i);
      FreshForCut(i, RefOf(number, s), before);
      OtherMessagesAreFree(number, before, Cut(streams, i), RefOf(number, s), s.lastText);
      ReplaceStaysConsistent(number, bot.shown, streams, i, s);
      streams := streams[i := s];
    }

    lemma FreshForCut(i: nat, r: Ref, before: map<Ref, string>)
      requires i < |streams| && Consistent(number, before, streams)
      requires r == RefOf(number, streams[i]) || r !in before
      ensures forall j :: 0 <= j < |Cut(streams, i)| ==>
                Cut(streams, i)[j].key != streams[i].key && RefOf(number, Cut(streams, i)[j]) != r
    {
      CutStaysConsistent(number, before, streams, i);
      var cut := Cut(streams, i);
      forall j | 0 <= j < |cut|
        ensures RefOf(number, cut[j]) != r
      {
        assert Faithful(number, before, cut[j]);
      }
    }

    /** `_send_stream_update` for a tracked key: throttled, best effort. */
    method UpdateTracked(chat: int, i: nat, display: string, now: real, later: real)
      requires Valid() && i < |streams| && number(streams[i].key.chatId) == Some(chat) && |display| <= MAX_LENGTH
      modifies this`streams, bot
      ensures bot.overlong == old(bot.overlong)
      ensures Valid() && |streams| == |old(streams)| && streams == old(streams)[i := streams[i]]
      ensures streams[i].key == old(streams)[i].key
      ensures now - old(streams)[i].lastEditAt < (if chat < 0 then 3.0 else 1.0) ==>
                streams == old(streams) && bot.shown == old(bot.shown)
      ensures bot.up && now - old(streams)[i].lastEditAt >= (if chat < 0 then 3.0 else 1.0) ==>
                streams[i].lastText == display && RefOf(number, streams[i]) == RefOf(number, old(streams)[i])
      ensures streams != old(streams) ==> streams[i].lastEditAt == later
      ensures (streams == old(streams) && bot.shown == old(bot.shown)) || streams[i].lastText == display
      ensures forall r :: r in old(bot.shown) && r != RefOf(number, old(streams)[i]) ==>
                r in bot.shown && bot.shown[r] == old(bot.shown)[r]
    {
      var state := streams[i];
      ghost var before := bot.shown;
      assert Faithful(number, before, state);
      if now - state.lastEditAt < Interval(chat) || display == state.lastText {
        return;
      }
      var result := bot.EditMessageText(chat, state.messageId, display);
      match result
      case NotModified =>
        // The message would already show `display`, but it shows `lastText`.
        assert false;
      case RetryAfter =>
        return;
      case EditFailed =>
        var id := bot.SendMessage(chat, display);
        if id.None? {
          return;
        }
        Rewrite(i, state.(messageId := id.value, lastEditAt := later, lastText := display), before);
      case Edited =>
        Rewrite(i, state.(lastEditAt := later, lastText := display), before);
    }

    /** `_send_stream_update` */
    method SendStreamUpdate(chat: int, key: Key, text: string, now: real, later: real)
      requires Valid() && number(key.chatId) == Some(chat)
      modifies this`streams, bot
      ensures Valid() && bot.overlong == old(bot.overlong)
      ensures text == "" ==> streams == old(streams) && bot.shown == old(bot.shown)
      ensures (streams == old(streams) && bot.shown == old(bot.shown))
              || (Find(streams, key).Some? && streams[Find(streams, key).value].lastText == Display(text))
      ensures Waits(old(streams), key, chat, now) ==> streams == old(streams) && bot.shown == old(bot.shown)
      ensures bot.up && text != "" && !Waits(old(streams), key, chat, now) ==> ShowsProgress(number, bot.shown, streams, key, text)
      ensures bot.up && Find(streams, key).Some? && Find(old(streams), key).Some? ==>
                RefOf(number, streams[Find(streams, key).value]) == RefOf(number, old(streams)[Find(old(streams), key).value])
      ensures forall s :: s in streams && s.key != key ==> s in old(streams)
      ensures forall r :: r in old(bot.shown) && (Find(old(streams), key).Some? ==> r != RefOf(number, old(streams)[Find(old(streams), key).value]))
                ==> r in bot.shown && bot.shown[r] == old(bot.shown)[r]
    {
      if text == "" {
        return;
      }
      var i := Find(streams, key);
      if i.None? {
        var sent := StartStream(chat, key, Display(text), later);
        if sent {
          LastIsFound(streams, key);
        }
      } else {
        UpdateTracked(chat, i.value, Display(text), now, later);
      }
    }

    /** `_send_new_message` with the shared retry policy; None when every attempt failed. */
    method SendNewMessage(chat: int, chatKey: string, text: string, maxRetries: nat) returns (id: Option<int>)
      requires Valid()
      modifies this`lastBotMessage, bot
      ensures Valid()
      ensures bot.overlong == (old(bot.overlong) || (maxRetries > 0 && |text| > MAX_LENGTH))
      ensures |text| > MAX_LENGTH ==> id.None?
      ensures bot.up && |text| <= MAX_LENGTH && maxRetries > 0 ==> id.Some?
      ensures id.None? ==> bot.shown == old(bot.shown) && lastBotMessage == old(lastBotMessage)
      ensures id.Some? ==> (chat, id.value) !in old(bot.shown) && bot.shown == old(bot.shown)[(chat, id.value) := text]
      ensures id.Some? ==> lastBotMessage == old(lastBotMessage)[chatKey := id.value]
    {
      for attempt := 0 to maxRetries
        invariant bot.Valid() && bot.shown == old(bot.shown) && lastBotMessage == old(lastBotMessage)
        invariant bot.overlong == (old(bot.overlong) || (attempt > 0 && |text| > MAX_LENGTH))
        invariant bot.up && |text| <= MAX_LENGTH ==> attempt == 0
      {
        id := bot.SendMessage(chat, text);
        if id.Some? {
          FreshForStreams(old(bot.shown), (chat, id.value));
          OtherMessagesAreFree(number, old(bot.shown), streams, (chat, id.value), text);
          lastBotMessage := lastBotMessage[chatKey := id.value];
          return;
        }
      }
      return None;
    }

    /** `_edit_final_chunk`: one retry when rate-limited. */
    method EditFinalChunk(chat: int, id: int, text: string) returns (applied: bool)
      requires bot.Valid() && |text| <= MAX_LENGTH
      modifies bot
      ensures bot.Valid() && bot.overlong == old(bot.overlong)
      ensures bot.up && (chat, id) in old(bot.shown) ==> applied
      ensures applied ==> (chat, id) in old(bot.shown) && bot.shown == old(bot.shown)[(chat, id) := text]
      ensures !applied ==> bot.shown == old(bot.shown)
    {
      for attempt := 0 to 2
        invariant bot.Valid() && bot.shown == old(bot.shown) && bot.overlong == old(bot.overlong)
        invariant bot.up && (chat, id) in bot.shown ==> attempt == 0
      {
        var result := bot.EditMessageText(chat, id, text);
        if result.Edited? {
          return true;
        }
        if result.NotModified? {
          assert bot.shown == old(bot.shown)[(chat, id) := text];
          return true;
        }
        if !(result.RetryAfter? && attempt == 0) {
          return false;
        }
      }
      return false;
    }

    /** The first piece of a final text: edit the streamed message, or replace it if that fails. */
    method PlaceFirst(chat: int, chatKey: string, state: Stream, chunk: string) returns (ref: Option<Ref>)
      requires Valid() && number(state.key.chatId) == Some(chat) && Faithful(number, bot.shown, state)
      requires forall i :: 0 <= i < |streams| ==> RefOf(number, streams[i]) != RefOf(number, state)
      requires |chunk| <= MAX_LENGTH
      modifies this`lastBotMessage, bot
      ensures Valid() && bot.overlong == old(bot.overlong)
      ensures bot.up ==> ref == Some(RefOf(number, state))
      ensures ref.None? ==> bot.shown == old(bot.shown)
      ensures ref.Some? ==> bot.shown == old(bot.shown)[ref.value := chunk]
      ensures ref.Some? ==> ref.value == RefOf(number, state) || ref.value !in old(bot.shown)
    {
      ghost var before := bot.shown;
      var edited := true;
      if chunk != state.lastText {
        edited := EditFinalChunk(chat, state.messageId, chunk);
        if edited {
          OtherMessagesAreFree(number, before, streams, (chat, state.messageId), chunk);
        }
      } else {
        assert before == before[(chat, state.messageId) := chunk];
      }
      if edited {
        lastBotMessage := lastBotMessage[chatKey := state.messageId];
        return Some((chat, state.messageId));
      }
      var id := SendNewMessage(chat, chatKey, chunk, 3);
      return if id.None? then None else Some((chat, id.value));
    }

    /** The remaining pieces, each as a new message. */
    method SendRest(chat: int, chatKey: string, chunks: seq<string>) returns (ok: bool, refs: seq<Ref>)
      requires Valid() && forall i :: 0 <= i < |chunks| ==> |chunks[i]| <= MAX_LENGTH
      modifies this`lastBotMessage, bot
      ensures Valid() && bot.overlong == old(bot.overlong)
      ensures bot.up ==> ok
      ensures ok ==> Shows(bot.shown, refs, chunks) && Distinct(refs)
      ensures forall r :: r in refs ==> r !in old(bot.shown)
      ensures forall r :: r in old(bot.shown) ==> r in bot.shown && bot.shown[r] == old(bot.shown)[r]
    {
      refs := [];
      for k := 0 to |chunks|
        invariant Valid() && bot.overlong == old(bot.overlong)
        invariant Shows(bot.shown, refs, chunks[..k]) && Distinct(refs)
        invariant forall r :: r in refs ==> r !in old(bot.shown)
        invariant forall r :: r in old(bot.shown) ==> r in bot.shown && bot.shown[r] == old(bot.shown)[r]
      {
        var id := SendNewMessage(chat, chatKey, chunks[k], 3);
        if id.None? {
          return false, refs;
        }
        refs := refs + [(chat, id.value)];
        assert chunks[..k + 1] == chunks[..k] + [chunks[k]];
      }
      assert chunks[..|chunks|] == chunks;
      ok := true;
    }

    /** `_finalize_stream_message` for a stream that has been popped from the
        tracker: the edited (or replaced) message and the follow-ups show the
        text in pieces; no other message changes. */
    method Finalize(chat: int, chatKey: string, state: Stream, text: string) returns (ok: bool, refs: seq<Ref>)
      requires Valid() && number(state.key.chatId) == Some(chat) && Faithful(number, bot.shown, state)
      requires forall i :: 0 <= i < |streams| ==> RefOf(number, streams[i]) != RefOf(number, state)
      modifies this`lastBotMessage, bot
      ensures Valid() && bot.overlong == old(bot.overlong)
      ensures bot.up ==> ok
      ensures ok ==> Shows(bot.shown, refs, Split(text)) && Distinct(refs)
      ensures ok && refs != [] ==> refs[0] == RefOf(number, state) || refs[0] !in old(bot.shown)
      ensures bot.up && refs != [] ==> refs[0] == RefOf(number, state)
      ensures forall i :: 0 < i < |refs| ==> refs[i] !in old(bot.shown)
      ensures forall r :: r in old(bot.shown) && r != RefOf(number, state) ==> r in bot.shown && bot.shown[r] == old(bot.shown)[r]
    {
      var chunks := Split(text);
      SplitJoins(text);
      var first := PlaceFirst(chat, chatKey, state, chunks[0]);
      if first.None? {
        return false, [];
      }
      ghost var placed := bot.shown;
      var rest;
      ok, rest := SendRest(chat, chatKey, chunks[1..]);
      refs := [first.value] + rest;
      if ok {
        FirstAndRest(placed, bot.shown, first.value, rest, chunks);
      }
      assert forall i :: 0 < i < |refs| ==> refs[i] == rest[i - 1] && rest[i - 1] in rest;
    }

    /** `send`: progress goes to the tracked stream; a final message closes it. */
    method Send(chatId: string, threadTs: string, text: string, isFinal: bool, now: real, later: real) returns (ok: bool, refs: seq<Ref>)
      requires Valid()
      modifies this, bot
      ensures Valid()
      ensures number(chatId).None? ==> streams == old(streams) && bot.shown == old(bot.shown)
      ensures isFinal && number(chatId).Some? ==> Find(streams, Key(chatId, threadTs)).None?
      ensures bot.overlong == (old(bot.overlong) || Oversized(old(streams), number, chatId, threadTs, text, isFinal))
      ensures Oversized(old(streams), number, chatId, threadTs, text, isFinal) ==> !ok && bot.shown == old(bot.shown)
      ensures bot.up ==> (ok <==> !Oversized(old(streams), number, chatId, threadTs, text, isFinal))
      ensures isFinal && number(chatId).Some? && ok && Find(old(streams), Key(chatId, threadTs)).Some? ==>
                Shows(bot.shown, refs, Split(text)) && Distinct(refs)
      ensures isFinal && number(chatId).Some? && bot.up && Find(old(streams), Key(chatId, threadTs)).Some? ==>
                refs != [] && refs[0] == RefOf(number, old(streams)[Find(old(streams), Key(chatId, threadTs)).value])
      ensures !isFinal && number(chatId).Some? && bot.up && text != "" && !Waits(old(streams), Key(chatId, threadTs), number(chatId).value, now) ==>
                ShowsProgress(number, bot.shown, streams, Key(chatId, threadTs), text)
      ensures !isFinal && number(chatId).Some? && (text == "" || Waits(old(streams), Key(chatId, threadTs), number(chatId).value, now)) ==>
                streams == old(streams) && bot.shown == old(bot.shown)
      ensures isFinal && number(chatId).Some? && ok && Find(old(streams), Key(chatId, threadTs)).None? ==>
                |refs| == 1 && Shows(bot.shown, refs, [text]) && refs[0] !in old(bot.shown)
    {
      ok, refs := true, [];
      var chat := number(chatId);
      if chat.None? {
        return;
      }
      var key := Key(chatId, threadTs);
      if !isFinal {
        SendStreamUpdate(chat.value, key, text, now, later);
        return;
      }
      var i := Find(streams, key);
      if i.Some? {
        var state := streams[i.value];
        assert Faithful(number, bot.shown, state);
        CutStaysConsistent(number, bot.shown, streams, i.value);
        streams := Cut(streams, i.value);
        ok, refs := Finalize(chat.value, chatId, state, text);
        return;
      }
      var id := SendNewMessage(chat.value, chatId, text, 3);
      if id.None? {
        return false, [];
      }
      refs := [(chat.value, id.value)];
    }
  }

  /** The first message, still shown, and the new ones after it show all the pieces. */
  lemma FirstAndRest(placed: map<Ref, string>, shown: map<Ref, string>, first: Ref, rest: seq<Ref>, pieces: seq<string>)
    requires pieces != [] && first in placed && placed[first] == pieces[0]
    requires Shows(shown, rest, pieces[1..]) && Distinct(rest)
    requires forall r :: r in rest ==> r !in placed
    requires forall r :: r in placed ==> r in shown && shown[r] == placed[r]
    ensures Shows(shown, [first] + rest, pieces) && Distinct([first] + rest)
  {
    var refs := [first] + rest;
    forall i | 0 < i < |refs|
      ensures refs[i] == rest[i - 1] && refs[i] in rest && pieces[i] == pieces[1..][i - 1]
    {
    }
  }

  /** The one kind of send the platform can never accept: a final text over the
      limit that no stream is tracked for, which goes out unsplit. */
  predicate Oversized(streams: seq<Stream>, number: string -> Option<int>, chatId: string, threadTs: string, text: string, isFinal: bool) {
    isFinal && number(chatId).Some? && Find(streams, Key(chatId, threadTs)).None? && |text| > MAX_LENGTH
  }

  /** Messages `refs` show `pieces`, one each. */
  ghost predicate Shows(shown: map<Ref, string>, refs: seq<Ref>, pieces: seq<string>) {
    |refs| == |pieces| && forall i :: 0 <= i < |refs| ==> refs[i] in shown && shown[refs[i]] == pieces[i]
  }

  /** What a successful final send leaves on screen reads, message by message, as
      the whole text, in pieces that fit. */
  lemma FinalReadsAsText(shown: map<Ref, string>, refs: seq<Ref>, text: string)
    requires Shows(shown, refs, Split(text))
    ensures refs != [] && forall r :: r in refs ==> r in shown && |shown[r]| <= MAX_LENGTH
    ensures Joined(TextsOf(shown, refs)) == text
  {
    SplitJoins(text);
    forall r | r in refs
      ensures r in shown && |shown[r]| <= MAX_LENGTH
    {
      var i :| 0 <= i < |refs| && refs[i] == r;
      assert shown[r] == Split(text)[i];
    }
    assert TextsOf(shown, refs) == Split(text);
  }
}
