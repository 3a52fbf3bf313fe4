/** What interleaved Telegram sends put up. */
module EditTexts {
  import opened Wrappers
  import opened StreamEdits
  import Telegram

  // Which texts the steps of `StreamEdits` edit and send: the pieces of a final send
  // join to its text, and what the tracker records is the text of an update
  // (backend/app/channels/telegram.py, `send`, `_send_stream_update` and
  // `_finalize_stream_message`).

  function TextsOf(done: seq<(nat, string)>): seq<string> {
    seq(|done|, i requires 0 <= i < |done| => done[i].1)
  }

  /** The pieces a final send has put up or still has to. */
  function Pieces(call: Call): Option<seq<string>> {
    if call.FinalEditing? || call.FinalAnswered? then Some([call.text] + call.rest)
    else if call.Sending? then Some(TextsOf(call.done) + call.rest)
    else None
  }

  /** The text a progress update is putting up. */
  function Progress(call: Call): Option<string> {
    if call.Starting? || call.Editing? || call.Answered? || call.Replacing? then Some(call.text) else None
  }

  // ---- One step ------------------------------------------------------------------------

  lemma OnwardKeeps(call: Call)
    requires call.Answered? || call.FinalAnswered?
    ensures Pieces(Onward(call)) == Pieces(call)
    ensures Progress(Onward(call)).Some? ==> Progress(Onward(call)) == Progress(call)
  {
    if call.FinalAnswered? {
      assert TextsOf([(call.m, call.text)]) == [call.text];
      assert TextsOf([]) + ([call.text] + call.rest) == [call.text] + call.rest;
    }
  }

  lemma SendKeeps(done: seq<(nat, string)>, m: nat, rest: seq<string>)
    requires rest != []
    ensures TextsOf(done + [(m, rest[0])]) + rest[1..] == TextsOf(done) + rest
  {
    assert TextsOf(done + [(m, rest[0])]) == TextsOf(done) + [rest[0]];
    assert rest == [rest[0]] + rest[1..];
  }

  /** A send that goes on keeps its pieces, an update its text. */
  ghost predicate Keeps(before: Call, after: Call) {
    && (Pieces(after).Some? ==> Pieces(after) == Pieces(before))
    && (Progress(after).Some? ==> Progress(after) == Progress(before))
  }

  lemma SentKeeps(s: State, c: nat)
    requires c in s.jobs && CanSend(s.jobs[c].call)
    ensures c in SentOk(s, c).jobs && Keeps(s.jobs[c].call, SentOk(s, c).jobs[c].call)
  {
    var call := s.jobs[c].call;
    if call.Sending? {
      SendKeeps(call.done, s.nextMsg, call.rest);
    }
  }

  lemma ResumedKeeps(s: State, c: nat)
    requires c in s.jobs && (s.jobs[c].call.Answered? || s.jobs[c].call.FinalAnswered?)
    ensures c in Resumed(s, c).jobs && Keeps(s.jobs[c].call, Resumed(s, c).jobs[c].call)
  {
    OnwardKeeps(s.jobs[c].call);
  }

  lemma ContinueKeeps(w: World, s: State, a: Action)
    requires Enabled(w, s, a) && a.Continues()
    ensures a.c in s.jobs && a.c in Step(w, s, a).jobs && Keeps(s.jobs[a.c].call, Step(w, s, a).jobs[a.c].call)
  {
    match a
    case Apply(c, outcome) =>
    case Resume(c) => ResumedKeeps(s, c);
    case Send(c, sent, orphan) =>
      if sent {
        SentKeeps(s, c);
      }
  }

  lemma FinalBegins(s: State, key: string, text: string)
    ensures var pieces := Pieces(FinalCall(s, key, text)); pieces.Some? && Telegram.Joined(pieces.value) == text
    ensures Progress(FinalCall(s, key, text)).None?
  {
    Telegram.SplitJoins(text);
    var split := Telegram.Split(text);
    assert [split[0]] + split[1..] == split;
    assert TextsOf([]) + [text] == [text];
    assert [text][1..] == [] && text + "" == text;
    if key in s.tracker && s.tracker[key] in s.entries {
      var m := s.entries[s.tracker[key]].msg;
      assert TextsOf([(m, split[0])]) == [split[0]];
    }
  }

  lemma UpdateBegins(s: State, key: string, text: string, throttled: bool)
    ensures Pieces(UpdateCall(s, key, text, throttled)).None?
    ensures Progress(UpdateCall(s, key, text, throttled)).Some? ==> Progress(UpdateCall(s, key, text, throttled)).value == text
  {
  }

  // ---- Whole runs -------------------------------------------------------------------------

  /** Job `c` of the stream began with action `i`, and its call says what was asked for. */
  ghost predicate StemsFrom(run: seq<Action>, i: nat, c: nat, job: Job) {
    && i < |run| && run[i].Begins() && run[i].c == c && run[i].key == job.key
    && (Pieces(job.call).Some? ==> run[i].Final? && Telegram.Joined(Pieces(job.call).value) == run[i].text)
    && (Progress(job.call).Some? ==> run[i].Update? && Progress(job.call).value == run[i].text)
  }

  lemma StemsStill(run: seq<Action>, i: nat, c: nat, job: Job, job': Job)
    requires run != [] && StemsFrom(run[..|run| - 1], i, c, job) && job'.key == job.key && Keeps(job.call, job'.call)
    ensures StemsFrom(run, i, c, job')
  {
  }

  lemma BeginStems(w: World, s: State, run: seq<Action>)
    requires run != [] && run[|run| - 1].Begins() && Enabled(w, s, run[|run| - 1])
    ensures var a := run[|run| - 1];
            a.c in Step(w, s, a).jobs && StemsFrom(run, |run| - 1, a.c, Step(w, s, a).jobs[a.c])
  {
    var a := run[|run| - 1];
    match a
    case Update(c, key, text, throttled) => UpdateBegins(s, key, text, throttled);
    case Final(c, key, text) => FinalBegins(s, key, text);
  }

  lemma JobMoves(w: World, s: State, a: Action, c: nat)
    requires Enabled(w, s, a) && c in Step(w, s, a).jobs && !(a.Begins() && a.c == c)
    ensures c in s.jobs && Step(w, s, a).jobs[c].key == s.jobs[c].key && Keeps(s.jobs[c].call, Step(w, s, a).jobs[c].call)
  {
    if a.Continues() && a.c == c {
      ContinueKeeps(w, s, a);
      ActorMoves(w, s, a);
    } else {
      OtherJobs(w, s, a, c);
    }
  }

  /** In every run and world, each send puts up what it was asked to: an update
      its text, a final send the pieces of its text. */
  lemma {:induction false} EveryJobStems(w: World, run: seq<Action>, c: nat) returns (i: nat)
    requires After(w, run).Some? && c in After(w, run).value.jobs
    ensures StemsFrom(run, i, c, After(w, run).value.jobs[c])
  {
    var front, a := run[..|run| - 1], run[|run| - 1];
    var s := After(w, front).value;
    if a.Begins() && a.c == c {
      BeginStems(w, s, run);
      i := |run| - 1;
    } else {
      JobMoves(w, s, a, c);
      i := EveryJobStems(w, front, c);
      StemsStill(run, i, c, s.jobs[c], Step(w, s, a).jobs[c]);
    }
  }

  /** In every run: a final text that counts as delivered was put up in pieces
      that join to it, and if the stream has neither hazard the messages still
      show these pieces. */
  lemma DeliveredJoins(w: World, run: seq<Action>, c: nat) returns (i: nat)
    requires After(w, run).Some? && c in After(w, run).value.jobs && After(w, run).value.jobs[c].call.Delivered()
    ensures var job := After(w, run).value.jobs[c];
            && i < |run| && run[i].Final? && run[i].c == c && run[i].key == job.key
            && Telegram.Joined(TextsOf(job.call.done)) == run[i].text
            && (job.key !in w.overlapping && job.key !in w.halfFailing ==> AllShown(After(w, run).value, job.call.done))
  {
    i := EveryJobStems(w, run, c);
    var job := After(w, run).value.jobs[c];
    assert TextsOf(job.call.done) + [] == TextsOf(job.call.done);
    if job.key !in w.overlapping && job.key !in w.halfFailing {
      FinalsStandIff(w, job.key);
      assert FinalsStand(After(w, run).value, job.key);
    }
  }

  // ---- What is recorded --------------------------------------------------------------------

  /** The text of the entry was asked for by an update of its stream. */
  ghost predicate Asked(run: seq<Action>, i: nat, e: Entry) {
    i < |run| && run[i].Update? && run[i].key == e.key && run[i].text == e.text
  }

  /** A step leaves an entry as it is, or writes the text of the acting update into it. */
  lemma EntryMoves(w: World, s: State, a: Action, o: nat)
    requires Known(s) && Enabled(w, s, a) && o in Step(w, s, a).entries
    ensures var e := Step(w, s, a).entries[o];
            || (o in s.entries && s.entries[o].text == e.text && s.entries[o].key == e.key)
            || (a.Continues() && a.c in s.jobs && s.jobs[a.c].key == e.key && Progress(s.jobs[a.c].call) == Some(e.text))
  {
    if a.Continues() {
      assert Linked(s, s.jobs[a.c]);
    }
    if a.Resume? {
      ResumeWrites(s, a.c, o);
    } else if a.Send? && a.sent {
      SentWrites(s, a.c, o);
    }
  }

  lemma ResumeWrites(s: State, c: nat, o: nat)
    requires c in s.jobs && (s.jobs[c].call.Answered? || s.jobs[c].call.FinalAnswered?) && Linked(s, s.jobs[c])
    requires o in Resumed(s, c).entries
    ensures var e := Resumed(s, c).entries[o];
            && o in s.entries && s.entries[o].key == e.key
            && (s.entries[o].text == e.text || (s.jobs[c].key == e.key && Progress(s.jobs[c].call) == Some(e.text)))
  {
  }

  lemma SentWrites(s: State, c: nat, o: nat)
    requires c in s.jobs && CanSend(s.jobs[c].call) && o in SentOk(s, c).entries
    ensures var e := SentOk(s, c).entries[o];
            || (o in s.entries && s.entries[o] == e)
            || (s.jobs[c].key == e.key && Progress(s.jobs[c].call) == Some(e.text))
  {
  }

  /** In every run and world, whatever the tracker records was asked for by an
      update of its own stream. */
  lemma {:induction false} RecordedWasAsked(w: World, run: seq<Action>, o: nat) returns (i: nat)
    requires After(w, run).Some? && o in After(w, run).value.entries
    ensures Asked(run, i, After(w, run).value.entries[o])
  {
    var front, a := run[..|run| - 1], run[|run| - 1];
    var s := After(w, front).value;
    RunKeepsKnown(w, front);
    EntryMoves(w, s, a, o);
    var e := Step(w, s, a).entries[o];
    if o in s.entries && s.entries[o].text == e.text && s.entries[o].key == e.key {
      i := RecordedWasAsked(w, front, o);
    } else {
      i := EveryJobStems(w, front, a.c);
    }
    assert front[i] == run[i];
  }

  // ---- What an answer leaves behind ---------------------------------------------------------

  /** The entry records the text of the update `run[i]`, for a message of its own stream. */
  ghost predicate Records(s: State, o: nat, run: seq<Action>, i: nat, c: nat) {
    && o in s.entries && i < |run| && run[i].Update? && run[i].c == c
    && s.entries[o].key == run[i].key && s.entries[o].text == run[i].text
  }

  /** The entry's message is new and shows the recorded text. */
  ghost predicate PutUp(s: State, s': State, o: nat) {
    && o in s'.entries && s'.entries[o].msg !in s.shown && s'.entries[o].msg in s'.shown
    && s'.shown[s'.entries[o].msg] == s'.entries[o].text
  }

  /** The send of an update comes back: it has shown its text in a new message, and
      the entry it held, or the one now tracked, is for that message and text. */
  lemma ProgressIsPutUp(w: World, run: seq<Action>) returns (o: nat, i: nat)
    requires run != [] && After(w, run).Some? && run[|run| - 1].Send? && run[|run| - 1].sent
    requires var s := After(w, run[..|run| - 1]).value; Progress(s.jobs[run[|run| - 1].c].call).Some?
    ensures var (s, s', c) := (After(w, run[..|run| - 1]).value, After(w, run).value, run[|run| - 1].c);
            && Records(s', o, run, i, c) && PutUp(s, s', o) && !s'.jobs[c].call.InFlight()
            && (if s.jobs[c].call.Replacing? then s.jobs[c].call.o == o
                else s'.jobs[c].key in s'.tracker && s'.tracker[s'.jobs[c].key] == o)
  {
    var (front, c) := (run[..|run| - 1], run[|run| - 1].c);
    var s := After(w, front).value;
    RunKeepsKnown(w, front);
    i := EveryJobStems(w, front, c);
    o := if s.jobs[c].call.Replacing? then s.jobs[c].call.o else s.nextEntry;
    assert front[i] == run[i];
  }

  /** The edit of an update is answered: carried out, or already as wanted, its text is
      recorded; rate-limited, it is dropped; failed, the text goes into a new message. */
  lemma AnswerIsRecorded(w: World, run: seq<Action>) returns (i: nat)
    requires run != [] && After(w, run).Some? && run[|run| - 1].Resume?
    requires After(w, run[..|run| - 1]).value.jobs[run[|run| - 1].c].call.Answered?
    ensures var (s, s', c) := (After(w, run[..|run| - 1]).value, After(w, run).value, run[|run| - 1].c);
            var call := s.jobs[c].call;
            && i < |run| && run[i].Update? && run[i].c == c && run[i].text == call.text
            && (call.outcome.Ok? || call.outcome.NotModified? ==> Records(s', call.o, run, i, c) && s'.jobs[c].call == Ended)
            && (call.outcome.Limited? ==> s'.entries == s.entries && s'.jobs[c].call == Ended)
            && (call.outcome.Failed? ==> s'.entries == s.entries && s'.jobs[c].call == Replacing(call.o, run[i].text))
  {
    var (front, c) := (run[..|run| - 1], run[|run| - 1].c);
    var s := After(w, front).value;
    RunKeepsKnown(w, front);
    assert Linked(s, s.jobs[c]);
    i := EveryJobStems(w, front, c);
    assert front[i] == run[i];
  }

  /** The entry's message is to show the first piece: it does, or it is being edited. */
  ghost predicate TakesOver(call: Call, e: Entry, text: string) {
    var first := Telegram.Split(text)[0];
    if e.text == first then call.Sending? && call.done == [(e.msg, first)]
    else call.FinalEditing? && call.m == e.msg && call.text == first
  }

  /** A final text of one stream begun: the stream is not tracked any more, and the
      message it tracked keeps its place as the first piece, edited only when it
      shows something else. */
  lemma FinalTakesTheEntry(w: World, run: seq<Action>)
    requires run != [] && After(w, run).Some? && run[|run| - 1].Final?
    ensures var (s, s', a) := (After(w, run[..|run| - 1]).value, After(w, run).value, run[|run| - 1]);
            var call := s'.jobs[a.c].call;
            && a.key !in s'.tracker && s'.shown == s.shown
            && (a.key in s.tracker ==> s.tracker[a.key] in s.entries && TakesOver(call, s.entries[s.tracker[a.key]], a.text))
            && (a.key !in s.tracker ==> call.Sending? && call.done == [] && call.rest == [a.text])
  {
    RunKeepsKnown(w, run[..|run| - 1]);
  }
}
