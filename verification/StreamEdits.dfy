/** Telegram stream editing, interleaved. */
module StreamEdits {
  import opened Wrappers
  import Telegram

  // Telegram stream editing with sends in flight at the same time
  // (backend/app/channels/telegram.py). `Telegram` runs one send at a time; here
  // any number of them interleave at their awaits, entries are evicted at any
  // moment, and a failed call may still have been carried out. A message is unknown
  // to everyone before its send returns, so a send is one step; an edit is two: the
  // platform carries it out, and the coroutine gets the answer.

  /** What may happen, stream by stream: sends of the stream in flight together;
      calls of the stream that fail and are carried out all the same. */
  datatype World = World(overlapping: set<string>, halfFailing: set<string>)

  /** A rate-limited call is never carried out; one that fails otherwise, with a timeout, may be. */
  datatype Outcome = Ok | NotModified | Limited | Failed(applied: bool)

  /** Where a coroutine stands. `o` names the entry (a dictionary object) it
      holds, `m` the message it read from it; `rest` are the pieces of a final
      text still to send. */
  datatype Call =
    | Starting(text: string)
    | Editing(o: nat, m: nat, text: string)
    | Answered(o: nat, m: nat, text: string, outcome: Outcome)
    | Replacing(o: nat, text: string)
    | FinalEditing(o: nat, m: nat, text: string, rest: seq<string>, retried: bool)
    | FinalAnswered(o: nat, m: nat, text: string, rest: seq<string>, retried: bool, outcome: Outcome)
    | Sending(closed: Option<nat>, done: seq<(nat, string)>, rest: seq<string>)
    | Ended
    | Undelivered(closed: Option<nat>)
  {
    predicate InFlight() {
      !Ended? && !Undelivered? && (Sending? ==> rest != [])
    }

    /** All pieces of the final text have been sent. */
    predicate Delivered() {
      Sending? && rest == []
    }

    /** The entry the call works on. */
    function Entry(): Option<nat> {
      if Editing? || Answered? || Replacing? || FinalEditing? || FinalAnswered? then Some(o) else None
    }

    predicate Closes(e: nat) {
      ((FinalEditing? || FinalAnswered?) && o == e) || ((Sending? || Undelivered?) && closed == Some(e))
    }

    predicate Holds(e: nat) {
      Entry() == Some(e) || Closes(e)
    }

    /** The message has been changed, but the entry does not say so yet. */
    predicate Owes(e: nat) {
      Closes(e) || (Answered? && o == e && outcome.Ok?)
    }
  }

  datatype Job = Job(key: string, call: Call)

  datatype Entry = Entry(key: string, msg: nat, text: string)

  datatype State = State(
    tracker: map<string, nat>,      // the tracked entry of each stream
    entries: map<nat, Entry>,       // every entry object, tracked or not
    shown: map<nat, string>,        // the platform: what each message shows
    home: map<nat, Option<nat>>,    // history: the entry each message was sent for, if any
    nextMsg: nat,
    nextEntry: nat,
    jobs: map<nat, Job>)

  const Init := State(map[], map[], map[], map[], 0, 0, map[])

  datatype Action =
    | Update(c: nat, key: string, text: string, throttled: bool)
    | Final(c: nat, key: string, text: string)
    | Apply(c: nat, outcome: Outcome)             // the platform handles an edit
    | Resume(c: nat)                              // its answer arrives
    | Send(c: nat, sent: bool, orphan: bool)      // a send comes back; a failed one may leave a message
    | Evict(key: string)
  {
    predicate Begins() {
      Update? || Final?
    }

    predicate Continues() {
      Apply? || Resume? || Send?
    }
  }

  /** No coroutine of the stream is in flight. */
  predicate Quiet(s: State, key: string) {
    forall c :: c in s.jobs && s.jobs[c].key == key ==> !s.jobs[c].call.InFlight()
  }

  predicate Possible(w: World, s: State, key: string, m: nat, text: string, outcome: Outcome) {
    match outcome
    case Ok => true
    case NotModified => m in s.shown && s.shown[m] == text
    case Limited => true
    case Failed(applied) => applied ==> key in w.halfFailing
  }

  predicate CanSend(call: Call) {
    call.Starting? || call.Replacing? || (call.Sending? && call.rest != [])
  }

  predicate Enabled(w: World, s: State, a: Action) {
    match a
    case Update(c, key, _, _) => c !in s.jobs && (key in w.overlapping || Quiet(s, key))
    case Final(c, key, _) => c !in s.jobs && (key in w.overlapping || Quiet(s, key))
    case Apply(c, outcome) =>
      && c in s.jobs && (s.jobs[c].call.Editing? || s.jobs[c].call.FinalEditing?)
      && Possible(w, s, s.jobs[c].key, s.jobs[c].call.m, s.jobs[c].call.text, outcome)
    case Resume(c) => c in s.jobs && (s.jobs[c].call.Answered? || s.jobs[c].call.FinalAnswered?)
    case Send(c, sent, orphan) =>
      c in s.jobs && CanSend(s.jobs[c].call) && (orphan ==> !sent && s.jobs[c].key in w.halfFailing)
    case Evict(key) => key in s.tracker
  }

  function At(s: State, c: nat, call: Call): State
    requires c in s.jobs
  {
    s.(jobs := s.jobs[c := s.jobs[c].(call := call)])
  }

  /** The platform shows a new message, sent for an entry or for none. */
  function Shown(s: State, text: string, home: Option<nat>): State {
    s.(shown := s.shown[s.nextMsg := text], home := s.home[s.nextMsg := home], nextMsg := s.nextMsg + 1)
  }

  /** The call with which a progress update begins. */
  function UpdateCall(s: State, key: string, text: string, throttled: bool): Call {
    if key in s.tracker && s.tracker[key] in s.entries then
      var o := s.tracker[key];
      if throttled || text == s.entries[o].text then Ended else Editing(o, s.entries[o].msg, text)
    else Starting(text)
  }

  /** The call with which a final send begins; its entry leaves the tracker. An
      untracked text goes out unsplit. */
  function FinalCall(s: State, key: string, text: string): Call {
    if key in s.tracker && s.tracker[key] in s.entries then
      var o := s.tracker[key];
      var (first, rest) := (FirstPiece(text), Telegram.Split(text)[1..]);
      if first == s.entries[o].text then Sending(Some(o), [(s.entries[o].msg, first)], rest)
      else FinalEditing(o, s.entries[o].msg, first, rest, false)
    else Sending(None, [], [text])
  }

  function FirstPiece(text: string): string {
    Telegram.Split(text)[0]
  }

  predicate Applies(outcome: Outcome) {
    outcome.Ok? || (outcome.Failed? && outcome.applied)
  }

  predicate Carried(outcome: Outcome) {
    outcome.Ok? || outcome.NotModified?
  }

  function Applied(s: State, c: nat, outcome: Outcome): State
    requires c in s.jobs && (s.jobs[c].call.Editing? || s.jobs[c].call.FinalEditing?)
  {
    var call := s.jobs[c].call;
    var next := if call.Editing? then Answered(call.o, call.m, call.text, outcome)
                else FinalAnswered(call.o, call.m, call.text, call.rest, call.retried, outcome);
    At(s, c, next).(shown := if Applies(outcome) then s.shown[call.m := call.text] else s.shown)
  }

  function Recorded(entries: map<nat, Entry>, o: nat, text: string): map<nat, Entry> {
    if o in entries then entries[o := entries[o].(text := text)] else entries
  }

  /** Where the coroutine goes on with an answer. */
  function Onward(call: Call): Call
    requires call.Answered? || call.FinalAnswered?
  {
    match call
    case Answered(o, _, text, outcome) =>
      if Carried(outcome) || outcome.Limited? then Ended else Replacing(o, text)
    case FinalAnswered(o, m, text, rest, retried, outcome) =>
      if Carried(outcome) then Sending(Some(o), [(m, text)], rest)
      else if outcome.Limited? && !retried then FinalEditing(o, m, text, rest, true)
      else Sending(None, [], [text] + rest)
  }

  /** Only a progress update records the text its edit has put up. */
  function Resumed(s: State, c: nat): State
    requires c in s.jobs && (s.jobs[c].call.Answered? || s.jobs[c].call.FinalAnswered?)
  {
    var call := s.jobs[c].call;
    At(s, c, Onward(call)).(
      entries := if call.Answered? && Carried(call.outcome) then Recorded(s.entries, call.o, call.text) else s.entries)
  }

  function SentOk(s: State, c: nat): State
    requires c in s.jobs && CanSend(s.jobs[c].call)
  {
    var key := s.jobs[c].key;
    match s.jobs[c].call
    case Starting(text) =>
      Shown(At(s, c, Ended), text, Some(s.nextEntry)).(
        entries := s.entries[s.nextEntry := Entry(key, s.nextMsg, text)],
        tracker := s.tracker[key := s.nextEntry],
        nextEntry := s.nextEntry + 1)
    case Replacing(o, text) =>
      Shown(At(s, c, Ended), text, Some(o)).(entries := s.entries[o := Entry(key, s.nextMsg, text)])
    case Sending(closed, done, rest) =>
      Shown(At(s, c, Sending(closed, done + [(s.nextMsg, rest[0])], rest[1..])), rest[0], None)
  }

  function TextOf(call: Call): string
    requires CanSend(call)
  {
    if call.Sending? then call.rest[0] else call.text
  }

  function SentFailed(s: State, c: nat, orphan: bool): State
    requires c in s.jobs && CanSend(s.jobs[c].call)
  {
    var call := s.jobs[c].call;
    var s' := At(s, c, if call.Sending? then Undelivered(call.closed) else Ended);
    if orphan then Shown(s', TextOf(call), None) else s'
  }

  function Step(w: World, s: State, a: Action): State
    requires Enabled(w, s, a)
  {
    match a
    case Update(c, key, text, throttled) => s.(jobs := s.jobs[c := Job(key, UpdateCall(s, key, text, throttled))])
    case Final(c, key, text) => s.(jobs := s.jobs[c := Job(key, FinalCall(s, key, text))], tracker := s.tracker - {key})
    case Apply(c, outcome) => Applied(s, c, outcome)
    case Resume(c) => Resumed(s, c)
    case Send(c, sent, orphan) => if sent then SentOk(s, c) else SentFailed(s, c, orphan)
    case Evict(key) => s.(tracker := s.tracker - {key})
  }

  function After(w: World, run: seq<Action>): Option<State> {
    if run == [] then Some(Init)
    else
      var before := After(w, run[..|run| - 1]);
      if before.Some? && Enabled(w, before.value, run[|run| - 1]) then Some(Step(w, before.value, run[|run| - 1])) else None
  }

  /** The stream an action belongs to. */
  function StreamOf(s: State, a: Action): string
    requires a.Continues() ==> a.c in s.jobs
  {
    if a.Continues() then s.jobs[a.c].key else a.key
  }

  // ---- The two promises --------------------------------------------------------------

  /** If the stream is tracked and nothing of it is in flight, the recorded text is what its message shows. */
  ghost predicate Truthful(s: State, key: string) {
    key in s.tracker && Quiet(s, key) ==>
      var o := s.tracker[key];
      && o in s.entries && s.entries[o].msg in s.shown
      && s.shown[s.entries[o].msg] == s.entries[o].text
  }

  /** Every piece of a delivered final text of the stream is still shown. */
  ghost predicate FinalsStand(s: State, key: string) {
    forall c :: c in s.jobs && s.jobs[c].key == key && s.jobs[c].call.Delivered() ==> AllShown(s, s.jobs[c].call.done)
  }

  ghost predicate AllShown(s: State, done: seq<(nat, string)>) {
    forall i :: 0 <= i < |done| ==> done[i].0 in s.shown && s.shown[done[i].0] == done[i].1
  }

  // ---- What holds in every world -------------------------------------------------------

  /** Message `m` was sent for `home`. */
  ghost predicate SentFor(s: State, m: nat, home: Option<nat>) {
    m in s.shown && m in s.home && s.home[m] == home
  }

  /** The entry exists and belongs to the stream. */
  ghost predicate Of(s: State, o: nat, key: string) {
    o in s.entries && s.entries[o].key == key
  }

  /** Messages sent for the closed entry or for none. */
  ghost predicate Homes(s: State, closed: Option<nat>, done: seq<(nat, string)>) {
    forall i :: 0 <= i < |done| ==> SentFor(s, done[i].0, None) || (closed.Some? && SentFor(s, done[i].0, closed))
  }

  /** What a job holds exists and belongs to its stream. */
  ghost predicate Linked(s: State, job: Job) {
    match job.call
    case Editing(o, m, _) => Of(s, o, job.key) && SentFor(s, m, Some(o))
    case Answered(o, m, _, _) => Of(s, o, job.key) && SentFor(s, m, Some(o))
    case Replacing(o, _) => Of(s, o, job.key)
    case FinalEditing(o, m, _, _, _) => Of(s, o, job.key) && SentFor(s, m, Some(o))
    case FinalAnswered(o, m, _, _, _, _) => Of(s, o, job.key) && SentFor(s, m, Some(o))
    case Sending(closed, done, _) => (closed.Some? ==> Of(s, closed.value, job.key)) && Homes(s, closed, done)
    case Undelivered(closed) => closed.Some? ==> Of(s, closed.value, job.key)
    case _ => true
  }

  ghost predicate Numbered(s: State) {
    && (forall m :: m in s.shown <==> m in s.home)
    && (forall m :: m in s.shown ==> m < s.nextMsg)
    && (forall o :: o in s.entries ==> o < s.nextEntry && SentFor(s, s.entries[o].msg, Some(o)))
    && (forall key :: key in s.tracker ==> Of(s, s.tracker[key], key))
  }

  ghost predicate Known(s: State) {
    Numbered(s) && forall c :: c in s.jobs ==> Linked(s, s.jobs[c])
  }

  /** Nothing vanishes: entries keep their stream, messages what they were sent for. */
  ghost predicate Grows(s: State, s': State) {
    && (forall o :: o in s.entries ==> Of(s', o, s.entries[o].key))
    && (forall m :: m in s.shown && m in s.home ==> SentFor(s', m, s.home[m]))
  }

  lemma LinkedStays(s: State, s': State, job: Job)
    requires Grows(s, s') && Linked(s, job)
    ensures Linked(s', job)
  {
  }

  lemma BeginKnows(w: World, s: State, a: Action)
    requires Known(s) && Enabled(w, s, a) && (a.Begins() || a.Evict?)
    ensures Grows(s, Step(w, s, a)) && Numbered(Step(w, s, a))
    ensures !a.Evict? ==> Linked(Step(w, s, a), Step(w, s, a).jobs[a.c])
  {
  }

  lemma ApplyKnows(s: State, c: nat, outcome: Outcome)
    requires Known(s) && c in s.jobs && (s.jobs[c].call.Editing? || s.jobs[c].call.FinalEditing?)
    ensures var s' := Applied(s, c, outcome); Grows(s, s') && Numbered(s') && Linked(s', s'.jobs[c])
  {
    assert Linked(s, s.jobs[c]);
  }

  /** The acting job knows what it works with. */
  lemma ResumeLinks(s: State, c: nat)
    requires Known(s) && c in s.jobs && (s.jobs[c].call.Answered? || s.jobs[c].call.FinalAnswered?)
    ensures Linked(s, Job(s.jobs[c].key, Onward(s.jobs[c].call)))
  {
    assert Linked(s, s.jobs[c]);
    if s.jobs[c].call.FinalAnswered? && Carried(s.jobs[c].call.outcome) {
      assert Homes(s, Some(s.jobs[c].call.o), [(s.jobs[c].call.m, s.jobs[c].call.text)]);
    }
  }

  /** Only the recorded texts may differ. */
  lemma ResumeRewrites(s: State, c: nat)
    requires c in s.jobs && (s.jobs[c].call.Answered? || s.jobs[c].call.FinalAnswered?)
    ensures var s' := Resumed(s, c);
            && s' == s.(jobs := s.jobs[c := Job(s.jobs[c].key, s'.jobs[c].call)], entries := s'.entries)
            && s'.entries.Keys == s.entries.Keys
            && forall o :: o in s.entries ==> s'.entries[o].(text := s.entries[o].text) == s.entries[o]
  {
  }

  lemma RewriteKnows(s: State, s': State)
    requires Numbered(s) && s' == s.(jobs := s'.jobs, entries := s'.entries) && s'.entries.Keys == s.entries.Keys
    requires forall o :: o in s.entries ==> s'.entries[o].(text := s.entries[o].text) == s.entries[o]
    ensures Grows(s, s') && Numbered(s')
  {
    forall o | o in s.entries
      ensures s'.entries[o].key == s.entries[o].key && s'.entries[o].msg == s.entries[o].msg
    {
      assert s'.entries[o].(text := s.entries[o].text) == s.entries[o];
    }
  }

  lemma ResumeKnows(s: State, c: nat)
    requires Known(s) && c in s.jobs && (s.jobs[c].call.Answered? || s.jobs[c].call.FinalAnswered?)
    ensures var s' := Resumed(s, c); Grows(s, s') && Numbered(s') && Linked(s', s'.jobs[c])
  {
    var s' := Resumed(s, c);
    ResumeRewrites(s, c);
    RewriteKnows(s, s');
    ResumeLinks(s, c);
    LinkedStays(s, s', s'.jobs[c]);
  }

  /** A new message, and perhaps a new or moved entry for it. */
  lemma StartedKnows(s: State, c: nat)
    requires Known(s) && c in s.jobs && s.jobs[c].call.Starting?
    ensures Grows(s, SentOk(s, c)) && Numbered(SentOk(s, c))
  {
  }

  lemma ReplacedKnows(s: State, c: nat)
    requires Known(s) && c in s.jobs && s.jobs[c].call.Replacing?
    ensures Grows(s, SentOk(s, c)) && Numbered(SentOk(s, c))
  {
    assert Linked(s, s.jobs[c]);
  }

  lemma PieceKnows(s: State, c: nat)
    requires Known(s) && c in s.jobs && s.jobs[c].call.Sending? && s.jobs[c].call.rest != []
    ensures var s' := SentOk(s, c); Grows(s, s') && Numbered(s') && Linked(s', s'.jobs[c])
  {
    assert Linked(s, s.jobs[c]);
    LinkedStays(s, SentOk(s, c), s.jobs[c]);
  }

  lemma SentKnows(s: State, c: nat)
    requires Known(s) && c in s.jobs && CanSend(s.jobs[c].call)
    ensures var s' := SentOk(s, c); Grows(s, s') && Numbered(s') && Linked(s', s'.jobs[c])
  {
    if s.jobs[c].call.Starting? {
      StartedKnows(s, c);
    } else if s.jobs[c].call.Replacing? {
      ReplacedKnows(s, c);
    } else {
      PieceKnows(s, c);
    }
  }

  lemma FailedKnows(s: State, c: nat, orphan: bool)
    requires Known(s) && c in s.jobs && CanSend(s.jobs[c].call)
    ensures var s' := SentFailed(s, c, orphan); Grows(s, s') && Numbered(s') && Linked(s', s'.jobs[c])
  {
    assert Linked(s, s.jobs[c]);
  }

  lemma ActorKnows(w: World, s: State, a: Action)
    requires Known(s) && Enabled(w, s, a)
    ensures Grows(s, Step(w, s, a)) && Numbered(Step(w, s, a))
    ensures !a.Evict? ==> a.c in Step(w, s, a).jobs && Linked(Step(w, s, a), Step(w, s, a).jobs[a.c])
  {
    match a
    case Update(_, _, _, _) => BeginKnows(w, s, a);
    case Final(_, _, _) => BeginKnows(w, s, a);
    case Evict(_) => BeginKnows(w, s, a);
    case Apply(c, outcome) => ApplyKnows(s, c, outcome);
    case Resume(c) => ResumeKnows(s, c);
    case Send(c, sent, orphan) =>
      if sent {
        SentKnows(s, c);
      } else {
        FailedKnows(s, c, orphan);
      }
  }

  lemma StepKeepsKnown(w: World, s: State, a: Action)
    requires Known(s) && Enabled(w, s, a)
    ensures Known(Step(w, s, a))
  {
    var s' := Step(w, s, a);
    ActorKnows(w, s, a);
    forall d | d in s'.jobs
      ensures Linked(s', s'.jobs[d])
    {
      if a.Evict? || d != a.c {
        OtherJobs(w, s, a, d);
        LinkedStays(s, s', s.jobs[d]);
      }
    }
  }

  /** In every world, whatever is held or tracked exists and stays with its stream. */
  lemma {:induction false} RunKeepsKnown(w: World, run: seq<Action>)
    requires After(w, run).Some?
    ensures Known(After(w, run).value)
  {
    if run != [] {
      RunKeepsKnown(w, run[..|run| - 1]);
      StepKeepsKnown(w, After(w, run[..|run| - 1]).value, run[|run| - 1]);
    }
  }

  // ---- Jobs -------------------------------------------------------------------------------

  /** Only job `c` moves, within its stream, and holds nothing it did not hold before. */
  ghost predicate Moves(s: State, s': State, c: nat) {
    && c in s.jobs && c in s'.jobs && s'.jobs == s.jobs[c := Job(s.jobs[c].key, s'.jobs[c].call)]
    && s.jobs[c].call.InFlight()
    && (forall o :: s'.jobs[c].call.Holds(o) ==> s.jobs[c].call.Holds(o))
    && (forall o :: s'.jobs[c].call.Closes(o) ==> s.jobs[c].call.Closes(o))
  }

  lemma ApplyMoves(s: State, c: nat, outcome: Outcome)
    requires c in s.jobs && (s.jobs[c].call.Editing? || s.jobs[c].call.FinalEditing?)
    ensures Moves(s, Applied(s, c, outcome), c)
  {
  }

  lemma OnwardHolds(call: Call, o: nat)
    requires call.Answered? || call.FinalAnswered?
    ensures Onward(call).Holds(o) ==> call.Holds(o)
    ensures Onward(call).Closes(o) ==> call.Closes(o)
  {
  }

  lemma ResumeMoves(s: State, c: nat)
    requires c in s.jobs && (s.jobs[c].call.Answered? || s.jobs[c].call.FinalAnswered?)
    ensures Moves(s, Resumed(s, c), c)
  {
    forall o
      ensures Resumed(s, c).jobs[c].call.Holds(o) ==> s.jobs[c].call.Holds(o)
      ensures Resumed(s, c).jobs[c].call.Closes(o) ==> s.jobs[c].call.Closes(o)
    {
      OnwardHolds(s.jobs[c].call, o);
    }
  }

  lemma SentMoves(s: State, c: nat)
    requires c in s.jobs && CanSend(s.jobs[c].call)
    ensures Moves(s, SentOk(s, c), c)
  {
  }

  lemma FailedMoves(s: State, c: nat, orphan: bool)
    requires c in s.jobs && CanSend(s.jobs[c].call)
    ensures Moves(s, SentFailed(s, c, orphan), c)
  {
  }

  lemma ActorMoves(w: World, s: State, a: Action)
    requires Enabled(w, s, a) && a.Continues()
    ensures Moves(s, Step(w, s, a), a.c)
  {
    match a
    case Apply(c, outcome) => ApplyMoves(s, c, outcome);
    case Resume(c) => ResumeMoves(s, c);
    case Send(c, sent, orphan) =>
      if sent {
        SentMoves(s, c);
      } else {
        FailedMoves(s, c, orphan);
      }
  }

  /** An action moves at most one job. */
  lemma OtherJobs(w: World, s: State, a: Action, d: nat)
    requires Enabled(w, s, a) && (a.Evict? || d != a.c)
    ensures d in Step(w, s, a).jobs <==> d in s.jobs
    ensures d in s.jobs ==> Step(w, s, a).jobs[d] == s.jobs[d]
  {
    if a.Continues() {
      ActorMoves(w, s, a);
    }
  }

  /** The acting job belongs to the action's stream, and was in flight unless it is new. */
  lemma ActorJob(w: World, s: State, a: Action)
    requires Enabled(w, s, a) && !a.Evict?
    ensures a.c in Step(w, s, a).jobs && Step(w, s, a).jobs[a.c].key == StreamOf(s, a)
    ensures a.Begins() ==> a.c !in s.jobs
    ensures a.Continues() ==> a.c in s.jobs && s.jobs[a.c].call.InFlight()
  {
    if a.Continues() {
      ActorMoves(w, s, a);
    }
  }

  /** What the acting job holds afterwards it held before, or took from the tracker. */
  lemma ActorGains(w: World, s: State, a: Action, o: nat)
    requires Enabled(w, s, a) && !a.Evict? && a.c in Step(w, s, a).jobs && Step(w, s, a).jobs[a.c].call.Holds(o)
    ensures (a.c in s.jobs && s.jobs[a.c].call.Holds(o)) || (a.Begins() && a.key in s.tracker && s.tracker[a.key] == o)
  {
    if a.Continues() {
      ActorMoves(w, s, a);
    }
  }

  /** Whoever holds an entry belongs to the entry's stream. */
  lemma HolderIsOf(s: State, c: nat, o: nat)
    requires Known(s) && c in s.jobs && s.jobs[c].call.Holds(o)
    ensures Of(s, o, s.jobs[c].key)
  {
    assert Linked(s, s.jobs[c]);
  }

  // ---- The invariant of one stream -----------------------------------------------------------

  ghost predicate OneInFlight(s: State, key: string) {
    forall c, d | c in s.jobs && d in s.jobs && s.jobs[c].key == s.jobs[d].key == key
                  && s.jobs[c].call.InFlight() && s.jobs[d].call.InFlight() :: c == d
  }

  ghost predicate SoleHolder(s: State, key: string) {
    forall c, d, o | c in s.jobs && d in s.jobs && s.jobs[c].key == s.jobs[d].key == key
                     && s.jobs[c].call.Holds(o) && s.jobs[d].call.Holds(o) :: c == d
  }

  ghost predicate ClosedUntracked(s: State, key: string) {
    forall c :: c in s.jobs && s.jobs[c].key == key && key in s.tracker ==> !s.jobs[c].call.Closes(s.tracker[key])
  }

  /** The message shows the entry's text. */
  ghost predicate EntryTrue(s: State, o: nat) {
    o in s.entries && Shows(s, s.entries[o].msg, s.entries[o].text)
  }

  ghost predicate Shows(s: State, m: nat, text: string) {
    m in s.shown && s.shown[m] == text
  }

  ghost predicate JobOk(s: State, job: Job) {
    match job.call
    case Editing(o, m, _) => EntryTrue(s, o) && m == s.entries[o].msg
    case Answered(o, m, text, outcome) =>
      o in s.entries && m == s.entries[o].msg && if Carried(outcome) then Shows(s, m, text) else EntryTrue(s, o)
    case Replacing(o, _) => EntryTrue(s, o)
    case FinalEditing(o, m, _, _, _) => EntryTrue(s, o) && m == s.entries[o].msg
    case FinalAnswered(o, m, text, _, _, outcome) =>
      o in s.entries && m == s.entries[o].msg && if Carried(outcome) then Shows(s, m, text) else EntryTrue(s, o)
    case Sending(_, done, _) => AllShown(s, done)
    case _ => true
  }

  /** Some job has changed the entry's message without recording it, or has closed the entry. */
  ghost predicate Unsettled(s: State, o: nat) {
    exists c :: c in s.jobs && s.jobs[c].call.Owes(o)
  }

  ghost predicate EntryOk(s: State, o: nat) {
    EntryTrue(s, o) || Unsettled(s, o)
  }

  ghost predicate Structured(s: State, key: string) {
    OneInFlight(s, key) && SoleHolder(s, key) && ClosedUntracked(s, key)
  }

  ghost predicate JobsOk(s: State, key: string) {
    forall c :: c in s.jobs && s.jobs[c].key == key ==> JobOk(s, s.jobs[c])
  }

  ghost predicate EntriesOk(s: State, key: string) {
    forall o :: o in s.entries && s.entries[o].key == key ==> EntryOk(s, o)
  }

  ghost predicate Inv(s: State, key: string) {
    Structured(s, key) && JobsOk(s, key) && EntriesOk(s, key)
  }

  // ---- Who touches what ------------------------------------------------------------------

  /** The entry an action works on. */
  function Touched(s: State, a: Action): Option<nat>
    requires a.Continues() ==> a.c in s.jobs
  {
    if a.Continues() then s.jobs[a.c].call.Entry() else None
  }

  /** Only entry `t` and the messages sent for it may differ. */
  ghost predicate OnlyTouches(s: State, s': State, t: Option<nat>) {
    && (forall o :: o in s.entries ==> o in s'.entries && (t != Some(o) ==> s'.entries[o] == s.entries[o]))
    && (forall m :: m in s.shown && m in s.home ==> m in s'.shown)
    && (forall m :: m in s.shown && m in s.home && (s.home[m].None? || s.home[m] != t) ==> s'.shown[m] == s.shown[m])
  }

  lemma ApplyTouches(s: State, c: nat, outcome: Outcome)
    requires Known(s) && c in s.jobs && (s.jobs[c].call.Editing? || s.jobs[c].call.FinalEditing?)
    ensures OnlyTouches(s, Applied(s, c, outcome), Some(s.jobs[c].call.o))
  {
    assert Linked(s, s.jobs[c]);
  }

  lemma ResumeTouches(s: State, c: nat)
    requires c in s.jobs && (s.jobs[c].call.Answered? || s.jobs[c].call.FinalAnswered?)
    ensures OnlyTouches(s, Resumed(s, c), Some(s.jobs[c].call.o))
  {
  }

  lemma SentTouches(s: State, c: nat)
    requires Known(s) && c in s.jobs && CanSend(s.jobs[c].call)
    ensures OnlyTouches(s, SentOk(s, c), s.jobs[c].call.Entry())
  {
    assert Linked(s, s.jobs[c]);
  }

  lemma FailedTouches(s: State, c: nat, orphan: bool)
    requires Known(s) && c in s.jobs && CanSend(s.jobs[c].call)
    ensures OnlyTouches(s, SentFailed(s, c, orphan), None)
  {
  }

  lemma StepTouches(w: World, s: State, a: Action)
    requires Known(s) && Enabled(w, s, a)
    ensures OnlyTouches(s, Step(w, s, a), Touched(s, a))
  {
    if a.Apply? {
      ApplyTouches(s, a.c, a.outcome);
    } else if a.Resume? {
      ResumeTouches(s, a.c);
    } else if a.Send? && a.sent {
      SentTouches(s, a.c);
    } else if a.Send? {
      FailedTouches(s, a.c, a.orphan);
    }
  }

  lemma JobFrame(s: State, s': State, t: Option<nat>, job: Job)
    requires OnlyTouches(s, s', t) && Known(s) && Linked(s, job) && JobOk(s, job) && (t.Some? ==> !job.call.Holds(t.value))
    ensures JobOk(s', job)
  {
  }

  lemma EntryFrame(s: State, s': State, t: Option<nat>, o: nat)
    requires OnlyTouches(s, s', t) && Known(s) && EntryTrue(s, o) && t != Some(o)
    ensures EntryTrue(s', o)
  {
  }

  // ---- Each step keeps the structure --------------------------------------------------------

  lemma StepKeepsOneInFlight(w: World, s: State, a: Action, key: string)
    requires key !in w.overlapping && OneInFlight(s, key) && Enabled(w, s, a)
    ensures OneInFlight(Step(w, s, a), key)
  {
    var s' := Step(w, s, a);
    if !a.Evict? {
      ActorJob(w, s, a);
    }
    forall c, d | c in s'.jobs && d in s'.jobs && s'.jobs[c].key == s'.jobs[d].key == key
                  && s'.jobs[c].call.InFlight() && s'.jobs[d].call.InFlight()
      ensures c == d
    {
      if a.Evict? || c != a.c {
        OtherJobs(w, s, a, c);
      }
      if a.Evict? || d != a.c {
        OtherJobs(w, s, a, d);
      }
    }
  }

  /** Nobody holds the tracked entry of a quiet stream. */
  lemma TrackedIsFree(s: State, key: string, d: nat)
    requires Known(s) && Structured(s, key) && key in s.tracker && Quiet(s, key) && d in s.jobs
    ensures !s.jobs[d].call.Holds(s.tracker[key])
  {
    if s.jobs[d].call.Holds(s.tracker[key]) {
      HolderIsOf(s, d, s.tracker[key]);
    }
  }

  lemma StepKeepsSoleHolder(w: World, s: State, a: Action, key: string)
    requires key !in w.overlapping && Known(s) && Structured(s, key) && Enabled(w, s, a)
    ensures SoleHolder(Step(w, s, a), key)
  {
    var s' := Step(w, s, a);
    if !a.Evict? {
      ActorJob(w, s, a);
    }
    forall c, d, o | c in s'.jobs && d in s'.jobs && s'.jobs[c].key == s'.jobs[d].key == key
                     && s'.jobs[c].call.Holds(o) && s'.jobs[d].call.Holds(o)
      ensures c == d
    {
      if a.Evict? || (c != a.c && d != a.c) {
        OtherJobs(w, s, a, c);
        OtherJobs(w, s, a, d);
      } else if c != d {
        var other := if c == a.c then d else c;
        OtherJobs(w, s, a, other);
        ActorGains(w, s, a, o);
        if a.Begins() {
          TrackedIsFree(s, a.key, other);
        }
        assert false;
      }
    }
  }

  /** Tracked entries were tracked before, or are new. */
  lemma TrackerStep(w: World, s: State, a: Action, key: string)
    requires Known(s) && Enabled(w, s, a) && key in Step(w, s, a).tracker
    ensures (key in s.tracker && Step(w, s, a).tracker[key] == s.tracker[key]) || Step(w, s, a).tracker[key] !in s.entries
    ensures a.Final? ==> key != a.key
  {
  }

  lemma HeldExists(s: State, d: nat, o: nat)
    requires Known(s) && d in s.jobs && s.jobs[d].call.Closes(o)
    ensures o in s.entries
  {
    HolderIsOf(s, d, o);
  }

  lemma StepKeepsClosedUntracked(w: World, s: State, a: Action, key: string)
    requires Known(s) && ClosedUntracked(s, key) && Enabled(w, s, a)
    ensures ClosedUntracked(Step(w, s, a), key)
  {
    var s' := Step(w, s, a);
    forall c | c in s'.jobs && s'.jobs[c].key == key && key in s'.tracker && s'.jobs[c].call.Closes(s'.tracker[key])
      ensures false
    {
      TrackerStep(w, s, a, key);
      if a.Evict? || c != a.c {
        OtherJobs(w, s, a, c);
        HeldExists(s, c, s'.tracker[key]);
      } else if a.Continues() {
        ActorMoves(w, s, a);
        HeldExists(s, c, s'.tracker[key]);
      } else {
        BeginCloses(w, s, a, key);
      }
    }
  }

  /** A job that begins by closing an entry has taken it from its own stream's tracker. */
  lemma BeginCloses(w: World, s: State, a: Action, key: string)
    requires Known(s) && Enabled(w, s, a) && a.Begins() && key in Step(w, s, a).tracker
    requires Step(w, s, a).jobs[a.c].key == key
    ensures !Step(w, s, a).jobs[a.c].call.Closes(Step(w, s, a).tracker[key])
  {
  }

  // ---- Each step keeps the truth ------------------------------------------------------------

  /** The tracked entry of a quiet stream tells the truth. */
  lemma TrackedIsTrue(s: State, key: string)
    requires Known(s) && Inv(s, key) && key in s.tracker && Quiet(s, key)
    ensures EntryTrue(s, s.tracker[key])
  {
    var o := s.tracker[key];
    assert EntryOk(s, o);
    if Unsettled(s, o) {
      var d :| d in s.jobs && s.jobs[d].call.Owes(o);
      TrackedIsFree(s, key, d);
      assert false;
    }
  }

  lemma BeginOk(w: World, s: State, a: Action)
    requires Known(s) && Enabled(w, s, a) && a.Begins() && a.key !in w.overlapping && Inv(s, a.key)
    ensures JobOk(Step(w, s, a), Step(w, s, a).jobs[a.c])
  {
    if a.key in s.tracker {
      TrackedIsTrue(s, a.key);
    }
  }

  lemma ApplyOk(w: World, s: State, c: nat, outcome: Outcome)
    requires Known(s) && Enabled(w, s, Apply(c, outcome)) && s.jobs[c].key !in w.halfFailing && JobOk(s, s.jobs[c])
    ensures JobOk(Applied(s, c, outcome), Applied(s, c, outcome).jobs[c])
    ensures EntryOk(Applied(s, c, outcome), s.jobs[c].call.o)
  {
    assert Linked(s, s.jobs[c]);
    var s', o := Applied(s, c, outcome), s.jobs[c].call.o;
    if outcome.Ok? || s.jobs[c].call.FinalEditing? {
      assert s'.jobs[c].call.Owes(o);
      assert Unsettled(s', o);
    }
  }

  lemma ResumeOk(s: State, c: nat)
    requires Known(s) && c in s.jobs && (s.jobs[c].call.Answered? || s.jobs[c].call.FinalAnswered?) && JobOk(s, s.jobs[c])
    ensures JobOk(Resumed(s, c), Resumed(s, c).jobs[c])
    ensures EntryOk(Resumed(s, c), s.jobs[c].call.o)
  {
    assert Linked(s, s.jobs[c]);
    var s', o := Resumed(s, c), s.jobs[c].call.o;
    if s'.jobs[c].call.Closes(o) {
      assert Unsettled(s', o);
    }
  }

  lemma SentIsTrue(s: State, c: nat)
    requires Known(s) && c in s.jobs && CanSend(s.jobs[c].call) && JobOk(s, s.jobs[c])
    ensures var s' := SentOk(s, c);
            && JobOk(s', s'.jobs[c])
            && (s.jobs[c].call.Replacing? ==> EntryTrue(s', s.jobs[c].call.o))
  {
    assert Linked(s, s.jobs[c]);
  }

  lemma FailedIsTrue(s: State, c: nat, orphan: bool)
    requires Known(s) && c in s.jobs && CanSend(s.jobs[c].call) && JobOk(s, s.jobs[c])
    ensures var s' := SentFailed(s, c, orphan);
            && JobOk(s', s'.jobs[c])
            && (s.jobs[c].call.Replacing? ==> EntryTrue(s', s.jobs[c].call.o))
  {
    assert Linked(s, s.jobs[c]);
  }

  /** A new entry tells the truth from the start. */
  lemma NewIsTrue(w: World, s: State, a: Action, o: nat)
    requires Known(s) && Enabled(w, s, a) && o in Step(w, s, a).entries && o !in s.entries
    ensures EntryTrue(Step(w, s, a), o)
  {
    if a.Continues() {
      assert Linked(s, s.jobs[a.c]);
    }
  }

  lemma ActorOk(w: World, s: State, a: Action)
    requires Known(s) && Enabled(w, s, a) && !a.Evict?
    requires StreamOf(s, a) !in w.overlapping && StreamOf(s, a) !in w.halfFailing && Inv(s, StreamOf(s, a))
    ensures a.c in Step(w, s, a).jobs && JobOk(Step(w, s, a), Step(w, s, a).jobs[a.c])
    ensures Touched(s, a).Some? ==> EntryOk(Step(w, s, a), Touched(s, a).value)
  {
    if a.Continues() {
      assert JobOk(s, s.jobs[a.c]);
    }
    match a
    case Update(_, _, _, _) => BeginOk(w, s, a);
    case Final(_, _, _) => BeginOk(w, s, a);
    case Apply(c, outcome) => ApplyOk(w, s, c, outcome);
    case Resume(c) => ResumeOk(s, c);
    case Send(c, sent, orphan) =>
      if sent {
        SentIsTrue(s, c);
      } else {
        FailedIsTrue(s, c, orphan);
      }
  }

  /** A job of the stream other than the acting one does not hold what is touched. */
  lemma OtherDoesNotHold(w: World, s: State, a: Action, key: string, d: nat)
    requires Known(s) && SoleHolder(s, key) && Enabled(w, s, a) && Touched(s, a).Some?
    requires d in s.jobs && s.jobs[d].key == key && d != a.c
    ensures !s.jobs[d].call.Holds(Touched(s, a).value)
  {
    var t := Touched(s, a).value;
    assert s.jobs[a.c].call.Holds(t);
    HolderIsOf(s, a.c, t);
    if s.jobs[d].call.Holds(t) {
      HolderIsOf(s, d, t);
    }
  }

  lemma UntouchedJob(w: World, s: State, a: Action, key: string, d: nat)
    requires Known(s) && SoleHolder(s, key) && Enabled(w, s, a)
    requires d in s.jobs && s.jobs[d].key == key && JobOk(s, s.jobs[d]) && (a.Evict? || d != a.c)
    ensures d in Step(w, s, a).jobs && JobOk(Step(w, s, a), Step(w, s, a).jobs[d])
  {
    StepTouches(w, s, a);
    OtherJobs(w, s, a, d);
    if Touched(s, a).Some? {
      OtherDoesNotHold(w, s, a, key, d);
    }
    assert Linked(s, s.jobs[d]);
    JobFrame(s, Step(w, s, a), Touched(s, a), s.jobs[d]);
  }

  /** A job that owes something to an untouched entry is not the acting one. */
  lemma WitnessRests(w: World, s: State, a: Action, d: nat, o: nat)
    requires Enabled(w, s, a) && Touched(s, a) != Some(o) && d in s.jobs && s.jobs[d].call.Owes(o)
    ensures a.Evict? || d != a.c || (a.Send? && s.jobs[d].call.Sending?)
  {
  }

  /** Sending a further piece, or giving up, leaves a closed entry closed. */
  lemma SendKeepsClosed(w: World, s: State, a: Action, o: nat)
    requires Enabled(w, s, a) && a.Send? && s.jobs[a.c].call.Sending? && s.jobs[a.c].call.Owes(o)
    ensures a.c in Step(w, s, a).jobs && Step(w, s, a).jobs[a.c].call.Owes(o)
  {
  }

  lemma UntouchedEntry(w: World, s: State, a: Action, o: nat)
    requires Known(s) && Enabled(w, s, a) && o in s.entries && EntryOk(s, o) && Touched(s, a) != Some(o)
    ensures EntryOk(Step(w, s, a), o)
  {
    StepTouches(w, s, a);
    var s' := Step(w, s, a);
    if EntryTrue(s, o) {
      EntryFrame(s, s', Touched(s, a), o);
    } else {
      var d :| d in s.jobs && s.jobs[d].call.Owes(o);
      WitnessRests(w, s, a, d, o);
      if a.Evict? || d != a.c {
        OtherJobs(w, s, a, d);
      } else {
        SendKeepsClosed(w, s, a, o);
      }
      assert Unsettled(s', o);
    }
  }

  lemma StepKeepsJobs(w: World, s: State, a: Action, key: string)
    requires key !in w.overlapping && key !in w.halfFailing && Known(s) && Inv(s, key) && Enabled(w, s, a)
    ensures JobsOk(Step(w, s, a), key)
  {
    var s' := Step(w, s, a);
    if !a.Evict? {
      ActorJob(w, s, a);
    }
    forall d | d in s'.jobs && s'.jobs[d].key == key
      ensures JobOk(s', s'.jobs[d])
    {
      if a.Evict? || d != a.c {
        OtherJobs(w, s, a, d);
        UntouchedJob(w, s, a, key, d);
      } else {
        ActorOk(w, s, a);
      }
    }
  }

  lemma StepKeepsEntries(w: World, s: State, a: Action, key: string)
    requires key !in w.overlapping && key !in w.halfFailing && Known(s) && Inv(s, key) && Enabled(w, s, a)
    ensures EntriesOk(Step(w, s, a), key)
  {
    var s' := Step(w, s, a);
    ActorKnows(w, s, a);
    forall o | o in s'.entries && s'.entries[o].key == key
      ensures EntryOk(s', o)
    {
      if o !in s.entries {
        NewIsTrue(w, s, a, o);
      } else if Touched(s, a) != Some(o) {
        UntouchedEntry(w, s, a, o);
      } else {
        HolderIsOf(s, a.c, o);
        ActorOk(w, s, a);
      }
    }
  }

  lemma StepKeepsInv(w: World, s: State, a: Action, key: string)
    requires key !in w.overlapping && key !in w.halfFailing && Known(s) && Inv(s, key) && Enabled(w, s, a)
    ensures Inv(Step(w, s, a), key)
  {
    StepKeepsOneInFlight(w, s, a, key);
    StepKeepsSoleHolder(w, s, a, key);
    StepKeepsClosedUntracked(w, s, a, key);
    StepKeepsJobs(w, s, a, key);
    StepKeepsEntries(w, s, a, key);
  }

  /** Whatever the other streams do, a stream without overlap and half-failed
      calls of its own keeps one holder per entry, its closed entries untracked,
      and everything it knows true. */
  lemma {:induction false} RunKeepsInv(w: World, run: seq<Action>, key: string)
    requires key !in w.overlapping && key !in w.halfFailing && After(w, run).Some?
    ensures Inv(After(w, run).value, key)
  {
    if run != [] {
      RunKeepsInv(w, run[..|run| - 1], key);
      RunKeepsKnown(w, run[..|run| - 1]);
      StepKeepsInv(w, After(w, run[..|run| - 1]).value, run[|run| - 1], key);
    }
  }

  lemma InvIsTruthful(s: State, key: string)
    requires Known(s) && Inv(s, key)
    ensures Truthful(s, key) && FinalsStand(s, key)
  {
    if key in s.tracker && Quiet(s, key) {
      TrackedIsTrue(s, key);
    }
    forall c | c in s.jobs && s.jobs[c].key == key && s.jobs[c].call.Delivered()
      ensures AllShown(s, s.jobs[c].call.done)
    {
      assert JobOk(s, s.jobs[c]);
    }
  }

  // ---- Four ways to go wrong ------------------------------------------------------------------

  lemma Extend(w: World, run: seq<Action>, s: State, a: Action)
    requires After(w, run) == Some(s) && Enabled(w, s, a)
    ensures After(w, run + [a]) == Some(Step(w, s, a))
  {
    assert (run + [a])[..|run|] == run;
  }

  lemma Two(w: World, run: seq<Action>, s: State, a: Action, b: Action) returns (run': seq<Action>, s': State)
    requires After(w, run) == Some(s) && Enabled(w, s, a) && Enabled(w, Step(w, s, a), b)
    ensures After(w, run') == Some(s') && s' == Step(w, Step(w, s, a), b)
  {
    Extend(w, run, s, a);
    Extend(w, run + [a], Step(w, s, a), b);
    run', s' := run + [a] + [b], Step(w, Step(w, s, a), b);
  }

  /** The stream's message shows "a". */
  lemma Started(w: World, key: string) returns (run: seq<Action>, s: State)
    ensures After(w, run) == Some(s)
    ensures s == State(map[key := 0], map[0 := Entry(key, 0, "a")], map[0 := "a"], map[0 := Some(0)], 1, 1, map[0 := Job(key, Ended)])
  {
    run, s := Two(w, [], Init, Update(0, key, "a", false), Send(0, true, false));
    assert s.jobs == map[0 := Job(key, Ended)];
  }

  /** ... and an update to "b" is on its way. */
  lemma Updating(w: World, key: string) returns (run: seq<Action>, s: State)
    ensures After(w, run) == Some(s)
    ensures s.tracker == map[key := 0] && s.entries == map[0 := Entry(key, 0, "a")] && s.shown == map[0 := "a"]
    ensures s.jobs == map[0 := Job(key, Ended), 1 := Job(key, Editing(0, 0, "b"))]
  {
    var r, t := Started(w, key);
    var a := Update(1, key, "b", false);
    Extend(w, r, t, a);
    run, s := r + [a], Step(w, t, a);
  }

  /** Two updates in flight, both carried out in order. */
  lemma BothApplied(w: World, key: string) returns (run: seq<Action>, s: State)
    requires key in w.overlapping
    ensures After(w, run) == Some(s)
    ensures s.tracker == map[key := 0] && s.entries == map[0 := Entry(key, 0, "a")] && s.shown == map[0 := "c"]
    ensures s.jobs == map[0 := Job(key, Ended), 1 := Job(key, Answered(0, 0, "b", Ok)), 2 := Job(key, Answered(0, 0, "c", Ok))]
  {
    var r, t := Updating(w, key);
    var second := Update(2, key, "c", false);
    Extend(w, r, t, second);
    var t2 := Step(w, t, second);
    assert t2.jobs[2] == Job(key, Editing(0, 0, "c"));
    run, s := Two(w, r + [second], t2, Apply(1, Ok), Apply(2, Ok));
  }

  /** Their answers come back in the wrong order. */
  lemma OverlapLies(w: World, key: string) returns (run: seq<Action>)
    requires key in w.overlapping
    ensures After(w, run).Some? && !Truthful(After(w, run).value, key)
  {
    var r, t := BothApplied(w, key);
    var s;
    run, s := Two(w, r, t, Resume(2), Resume(1));
    assert s.entries == map[0 := Entry(key, 0, "b")] && s.shown == map[0 := "c"];
    assert forall c :: c in s.jobs ==> s.jobs[c].call == Ended;
    assert key in s.tracker && Quiet(s, key);
  }

  /** An edit times out although it was carried out ... */
  lemma TimedOut(w: World, key: string) returns (run: seq<Action>, s: State)
    requires key in w.halfFailing
    ensures After(w, run) == Some(s)
    ensures s.tracker == map[key := 0] && s.entries == map[0 := Entry(key, 0, "a")] && s.shown == map[0 := "b"]
    ensures s.jobs == map[0 := Job(key, Ended), 1 := Job(key, Replacing(0, "b"))]
  {
    var r, t := Updating(w, key);
    run, s := Two(w, r, t, Apply(1, Failed(true)), Resume(1));
  }

  /** ... and the message that should replace it cannot be sent: the old one
      shows "b", the entry says "a". */
  lemma HalfFailure(w: World, key: string) returns (run: seq<Action>, s: State)
    requires key in w.halfFailing
    ensures After(w, run) == Some(s)
    ensures s.tracker == map[key := 0] && s.entries == map[0 := Entry(key, 0, "a")] && s.shown == map[0 := "b"]
    ensures s.jobs == map[0 := Job(key, Ended), 1 := Job(key, Ended)]
  {
    var r, t := TimedOut(w, key);
    var a := Send(1, false, false);
    Extend(w, r, t, a);
    run, s := r + [a], Step(w, t, a);
  }

  lemma HalfFailureLies(w: World, key: string) returns (run: seq<Action>)
    requires key in w.halfFailing
    ensures After(w, run).Some? && !Truthful(After(w, run).value, key)
  {
    var s;
    run, s := HalfFailure(w, key);
    assert key in s.tracker && Quiet(s, key);
  }

  /** Then a final text "a" is taken to be shown already. */
  lemma HalfFailureLosesFinal(w: World, key: string) returns (run: seq<Action>)
    requires key in w.halfFailing
    ensures After(w, run).Some? && !FinalsStand(After(w, run).value, key)
  {
    var r, t := HalfFailure(w, key);
    var final := Final(2, key, "a");
    Extend(w, r, t, final);
    run := r + [final];
    var s := Step(w, t, final);
    assert Telegram.Split("a") == ["a"] && ["a"][1..] == [];
    assert s.jobs[2] == Job(key, Sending(Some(0), [(0, "a")], [])) && s.shown == map[0 := "b"];
    assert s.jobs[2].call.done[0] == (0, "a");
  }

  /** An update still in flight overwrites the final text. */
  lemma OverlapLosesFinal(w: World, key: string) returns (run: seq<Action>)
    requires key in w.overlapping
    ensures After(w, run).Some? && !FinalsStand(After(w, run).value, key)
  {
    var r, t := Updating(w, key);
    var final := Final(2, key, "c");
    Extend(w, r, t, final);
    var t2 := Step(w, t, final);
    assert Telegram.Split("c") == ["c"] && ["c"][1..] == [];
    assert t2.jobs[2] == Job(key, FinalEditing(0, 0, "c", [], false));
    var r3, t3 := Two(w, r + [final], t2, Apply(2, Ok), Resume(2));
    assert t3.jobs[2] == Job(key, Sending(Some(0), [(0, "c")], []));
    Extend(w, r3, t3, Apply(1, Ok));
    run := r3 + [Apply(1, Ok)];
    var s := Step(w, t3, Apply(1, Ok));
    assert s.jobs[2].call.Delivered() && s.jobs[2].call.done[0] == (0, "c") && s.shown[0] == "b";
  }

  // ---- The results ----------------------------------------------------------------------------

  /** For every stream, whatever the others do: in every run its recorded text,
      whenever it is quiet, is what its message shows, exactly when its own sends
      do not overlap and none of its own failed calls is carried out. */
  lemma TruthfulIff(w: World, key: string)
    ensures (forall run :: After(w, run).Some? ==> Truthful(After(w, run).value, key)) <==> key !in w.overlapping && key !in w.halfFailing
  {
    if key in w.overlapping {
      var run := OverlapLies(w, key);
    } else if key in w.halfFailing {
      var run := HalfFailureLies(w, key);
    } else {
      forall run | After(w, run).Some?
        ensures Truthful(After(w, run).value, key)
      {
        RunKeepsInv(w, run, key);
        RunKeepsKnown(w, run);
        InvIsTruthful(After(w, run).value, key);
      }
    }
  }

  /** ... and exactly then every piece of every delivered final text stays what its message shows. */
  lemma FinalsStandIff(w: World, key: string)
    ensures (forall run :: After(w, run).Some? ==> FinalsStand(After(w, run).value, key)) <==> key !in w.overlapping && key !in w.halfFailing
  {
    if key in w.overlapping {
      var run := OverlapLosesFinal(w, key);
    } else if key in w.halfFailing {
      var run := HalfFailureLosesFinal(w, key);
    } else {
      forall run | After(w, run).Some?
        ensures FinalsStand(After(w, run).value, key)
      {
        RunKeepsInv(w, run, key);
        RunKeepsKnown(w, run);
        InvIsTruthful(After(w, run).value, key);
      }
    }
  }
}
