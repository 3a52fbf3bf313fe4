/** The running cards of Feishu. */
module RunningCard {
  import opened Wrappers

  // The "one running card per source message" protocol of the Feishu adapter
  // (backend/app/channels/feishu.py): background creation tasks, their
  // done-callbacks, recorded card ids, and the sends that patch or replace the
  // card. Everything runs on one event loop; a step is what happens between two
  // awaits.

  type Source = string
  type Card = nat
  type Task = nat

  datatype Status = Running | Returned(card: Option<Card>) | Raised

  datatype Creation = Creation(source: Source, text: string, status: Status)

  datatype Outbound = Outbound(source: Source, text: string, final: bool)

  /** Program points of `_send_card_message`. */
  datatype Pc =
    | Awaiting(task: Task)   // for a card another caller is creating
    | Creating(task: Task)   // for a card this send asked for
    | Patching(card: Card)
    | Replying
    | Finished
    | Failed

  datatype Send = Send(msg: Outbound, pc: Pc)

  /** History: a running card was created for a source; a final send dropped its record. */
  datatype Event = Created(source: Source, card: Card) | Dropped(source: Source)

  datatype State = State(
    ids: map<Source, Card>,           // recorded running cards
    tasks: map<Source, Task>,         // recorded creation tasks
    creations: map<Task, Creation>,   // every creation task ever started
    called: set<Task>,                // tasks whose done-callback has run
    sends: map<nat, Send>,
    cards: map<Card, Source>,         // the platform: whose message each card replies to
    shown: map<Card, string>,         // the platform: the text each card shows
    nextCard: Card,
    log: seq<Event>)

  const Init := State(map[], map[], map[], {}, map[], map[], map[], 0, [])

  datatype Reply = GotCard | GotNothing | GotError

  datatype Action =
    | Start(source: Source, task: Task)           // `_ensure_running_card_started` on an inbound message
    | Settle(task: Task, reply: Reply)            // the creating call comes back
    | Callback(task: Task)                        // its done-callback runs
    | Begin(send: nat, msg: Outbound, task: Task) // a send starts (or is retried)
    | Resume(send: nat)                           // the awaited task is done
    | Patch(send: nat, ok: bool)
    | Answer(send: nat, reply: Reply)

  predicate Enabled(s: State, a: Action) {
    match a
    case Start(_, task) => task !in s.creations
    case Settle(task, _) => task in s.creations && s.creations[task].status.Running?
    case Callback(task) => task in s.creations && !s.creations[task].status.Running? && task !in s.called
    case Begin(n, _, task) => n !in s.sends && task !in s.creations
    case Resume(n) =>
      && n in s.sends && (s.sends[n].pc.Awaiting? || s.sends[n].pc.Creating?)
      && s.sends[n].pc.task in s.creations && !s.creations[s.sends[n].pc.task].status.Running?
    case Patch(n, _) => n in s.sends && s.sends[n].pc.Patching?
    case Answer(n, _) => n in s.sends && s.sends[n].pc.Replying?
  }

  /** `_ensure_running_card_started`: nothing if a card or a task is recorded. */
  function Ensured(s: State, source: Source, text: string, task: Task): State {
    if source in s.ids || source in s.tasks then s
    else s.(creations := s.creations[task := Creation(source, text, Running)], tasks := s.tasks[source := task])
  }

  function At(s: State, n: nat, pc: Pc): State
    requires n in s.sends
  {
    s.(sends := s.sends[n := s.sends[n].(pc := pc)])
  }

  /** The end of a send that went through: a final one drops the recorded card. */
  function Ended(s: State, n: nat): State
    requires n in s.sends
  {
    var msg := s.sends[n].msg;
    At(s, n, Finished).(
      ids := if msg.final then s.ids - {msg.source} else s.ids,
      log := if msg.final then s.log + [Dropped(msg.source)] else s.log)
  }

  /** The platform creates a card replying to `source`. */
  function WithCard(s: State, source: Source, text: string): State {
    s.(cards := s.cards[s.nextCard := source], shown := s.shown[s.nextCard := text], nextCard := s.nextCard + 1)
  }

  function Settled(s: State, task: Task, reply: Reply): State
    requires task in s.creations
  {
    var Creation(source, text, _) := s.creations[task];
    match reply
    case GotCard =>
      WithCard(s, source, text).(
        ids := s.ids[source := s.nextCard],
        creations := s.creations[task := Creation(source, text, Returned(Some(s.nextCard)))],
        log := s.log + [Created(source, s.nextCard)])
    case GotNothing => s.(creations := s.creations[task := Creation(source, text, Returned(None))])
    case GotError => s.(creations := s.creations[task := Creation(source, text, Raised)])
  }

  /** Where `_send_card_message` gets to first. */
  function BeginPc(s: State, msg: Outbound, task: Task): Pc {
    if msg.source in s.ids then Patching(s.ids[msg.source])
    else if msg.source in s.tasks then Awaiting(s.tasks[msg.source])
    else if msg.final then Replying
    else Creating(task)
  }

  function Begun(s: State, n: nat, msg: Outbound, task: Task): State {
    var pc := BeginPc(s, msg, task);
    (if pc.Creating? then Ensured(s, msg.source, msg.text, task) else s).(sends := s.sends[n := Send(msg, pc)])
  }

  /** Where it goes on when the awaited task is done. */
  function ResumePc(send: Send, status: Status): Pc
    requires !status.Running?
  {
    if status.Raised? then Failed
    else if send.pc.Creating? then Finished
    else if status.card.Some? then Patching(status.card.value)
    else if send.msg.final then Replying
    else Finished
  }

  function Resumed(s: State, n: nat): State
    requires Enabled(s, Resume(n))
  {
    At(s, n, ResumePc(s.sends[n], s.creations[s.sends[n].pc.task].status))
  }

  function Step(s: State, a: Action): State
    requires Enabled(s, a)
  {
    match a
    case Start(source, task) => Ensured(s, source, "thinking...", task)
    case Settle(task, reply) => Settled(s, task, reply)
    case Callback(task) =>
      var source := s.creations[task].source;
      s.(called := s.called + {task},
         tasks := if source in s.tasks && s.tasks[source] == task then s.tasks - {source} else s.tasks)
    case Begin(n, msg, task) => Begun(s, n, msg, task)
    case Resume(n) => Resumed(s, n)
    case Patch(n, ok) =>
      if ok then Ended(s.(shown := s.shown[s.sends[n].pc.card := s.sends[n].msg.text]), n)
      else if s.sends[n].msg.final then At(s, n, Replying)
      else At(s, n, Failed)
    case Answer(n, reply) =>
      if reply.GotError? then At(s, n, Failed)
      else if reply.GotCard? then Ended(WithCard(s, s.sends[n].msg.source, s.sends[n].msg.text), n)
      else Ended(s, n)
  }

  function After(run: seq<Action>): Option<State> {
    if run == [] then Some(Init)
    else
      var before := After(run[..|run| - 1]);
      if before.Some? && Enabled(before.value, run[|run| - 1]) then Some(Step(before.value, run[|run| - 1])) else None
  }

  /** How many running cards were created for `source` since its record was last dropped. */
  function CreatedSinceDrop(log: seq<Event>, source: Source): nat {
    if log == [] then 0
    else
      var before := CreatedSinceDrop(log[..|log| - 1], source);
      match log[|log| - 1]
      case Created(s, _) => if s == source then before + 1 else before
      case Dropped(s) => if s == source then 0 else before
  }

  // ---- The invariant -------------------------------------------------------------

  ghost predicate InFlight(s: State, task: Task, source: Source) {
    task in s.creations && s.creations[task].source == source && s.creations[task].status.Running?
  }

  /** A creation in flight is the recorded one, and no card is recorded meanwhile. */
  ghost predicate OneCreation(s: State) {
    forall task, source :: InFlight(s, task, source) ==>
      source !in s.ids && source in s.tasks && s.tasks[source] == task
  }

  /** Card `c` replies to `source`. */
  ghost predicate Owns(s: State, source: Source, c: Card) {
    c in s.cards && s.cards[c] == source
  }

  ghost predicate CardsFresh(s: State) {
    forall c :: c in s.cards ==> c < s.nextCard
  }

  ghost predicate IdsOwn(s: State) {
    forall source :: source in s.ids ==> Owns(s, source, s.ids[source])
  }

  ghost predicate ResultOwn(s: State, creation: Creation) {
    creation.status.Returned? && creation.status.card.Some? ==> Owns(s, creation.source, creation.status.card.value)
  }

  ghost predicate ResultsOwn(s: State) {
    forall t :: t in s.creations ==> ResultOwn(s, s.creations[t])
  }

  ghost predicate TasksOwn(s: State) {
    forall source :: source in s.tasks ==> s.tasks[source] in s.creations && s.creations[s.tasks[source]].source == source
  }

  ghost predicate SendOwn(s: State, send: Send) {
    && (send.pc.Awaiting? || send.pc.Creating? ==>
          send.pc.task in s.creations && s.creations[send.pc.task].source == send.msg.source)
    && (send.pc.Patching? ==> Owns(s, send.msg.source, send.pc.card))
  }

  ghost predicate SendsOwn(s: State) {
    forall n :: n in s.sends ==> SendOwn(s, s.sends[n])
  }

  ghost predicate OwnCards(s: State) {
    CardsFresh(s) && IdsOwn(s) && ResultsOwn(s) && TasksOwn(s) && SendsOwn(s)
  }

  ghost predicate Counted(s: State) {
    forall source :: CreatedSinceDrop(s.log, source) == if source in s.ids then 1 else 0
  }

  ghost predicate Inv(s: State) {
    OneCreation(s) && OwnCards(s) && Counted(s)
  }

  lemma SnocCount(log: seq<Event>, e: Event, source: Source)
    ensures CreatedSinceDrop(log + [e], source)
            == match e
               case Created(s, _) => CreatedSinceDrop(log, source) + (if s == source then 1 else 0)
               case Dropped(s) => if s == source then 0 else CreatedSinceDrop(log, source)
  {
    assert (log + [e])[..|log|] == log;
  }

  lemma SettleIds(s: State, task: Task, reply: Reply)
    requires task in s.creations
    ensures Settled(s, task, reply).ids == if reply.GotCard? then s.ids[s.creations[task].source := s.nextCard] else s.ids
    ensures Settled(s, task, reply).tasks == s.tasks
  {
  }

  /** Only a settle adds a recorded card; the other steps at most drop one. */
  lemma OtherIds(s: State, a: Action, source: Source)
    requires Enabled(s, a) && !a.Settle? && source in Step(s, a).ids
    ensures source in s.ids && Step(s, a).ids[source] == s.ids[source]
  {
    if a.Patch? || a.Answer? {
      SendIds(s, a, source);
    }
  }

  lemma SendIds(s: State, a: Action, source: Source)
    requires Enabled(s, a) && (a.Patch? || a.Answer?) && source in Step(s, a).ids
    ensures source in s.ids && Step(s, a).ids[source] == s.ids[source]
  {
  }

  /** A recorded task stays until its own callback runs. */
  lemma TaskStays(s: State, a: Action, source: Source)
    requires Enabled(s, a) && source in s.tasks && (a.Callback? ==> a.task != s.tasks[source])
    ensures source in Step(s, a).tasks && Step(s, a).tasks[source] == s.tasks[source]
  {
    if a.Patch? || a.Answer? || a.Resume? {
      SendTasks(s, a);
    }
  }

  lemma SendTasks(s: State, a: Action)
    requires Enabled(s, a) && (a.Patch? || a.Answer? || a.Resume?)
    ensures Step(s, a).tasks == s.tasks && Step(s, a).creations == s.creations
  {
    if a.Resume? {
      ResumeFrame(s, a.send);
    } else if a.Answer? {
      AnswerFrame(s, a.send, a.reply);
    }
  }

  lemma ResumeFrame(s: State, n: nat)
    requires Enabled(s, Resume(n))
    ensures Resumed(s, n).tasks == s.tasks && Resumed(s, n).creations == s.creations
  {
  }

  lemma AnswerFrame(s: State, n: nat, reply: Reply)
    requires Enabled(s, Answer(n, reply))
    ensures Step(s, Answer(n, reply)).tasks == s.tasks && Step(s, Answer(n, reply)).creations == s.creations
  {
  }

  /** A creation that was already in flight stays the recorded one. */
  lemma OldFlight(s: State, a: Action, task: Task, source: Source)
    requires OneCreation(s) && Enabled(s, a) && InFlight(s, task, source) && InFlight(Step(s, a), task, source)
    ensures source !in Step(s, a).ids && source in Step(s, a).tasks && Step(s, a).tasks[source] == task
  {
    if a.Settle? {
      assert InFlight(s, a.task, s.creations[a.task].source);
      SettleIds(s, a.task, a.reply);
    } else {
      if source in Step(s, a).ids {
        OtherIds(s, a, source);
      }
      TaskStays(s, a, source);
    }
  }

  /** A creation just started is recorded. */
  lemma NewFlight(s: State, a: Action, task: Task, source: Source)
    requires Enabled(s, a) && task !in s.creations && InFlight(Step(s, a), task, source)
    ensures source !in Step(s, a).ids && source in Step(s, a).tasks && Step(s, a).tasks[source] == task
  {
    if !a.Start? && !a.Begin? && !a.Settle? {
      SameCreations(s, a);
    }
  }

  lemma StepKeepsFlight(s: State, a: Action, task: Task, source: Source)
    requires OneCreation(s) && Enabled(s, a) && InFlight(Step(s, a), task, source)
    ensures source !in Step(s, a).ids && source in Step(s, a).tasks && Step(s, a).tasks[source] == task
  {
    if task in s.creations {
      if !(a.Settle? && a.task == task) {
        OtherCreations(s, a, task);
        OldFlight(s, a, task, source);
      }
    } else {
      NewFlight(s, a, task, source);
    }
  }

  lemma StepKeepsOneCreation(s: State, a: Action)
    requires OneCreation(s) && Enabled(s, a)
    ensures OneCreation(Step(s, a))
  {
    var s' := Step(s, a);
    forall task, source | InFlight(s', task, source)
      ensures source !in s'.ids && source in s'.tasks && s'.tasks[source] == task
    {
      StepKeepsFlight(s, a, task, source);
    }
  }

  lemma CardLogs(s: State, a: Action) returns (source: Source, c: Card)
    requires OneCreation(s) && Enabled(s, a) && a.Settle? && a.reply.GotCard?
    ensures source !in s.ids
    ensures Step(s, a).log == s.log + [Created(source, c)] && Step(s, a).ids == s.ids[source := c]
  {
    source, c := s.creations[a.task].source, s.nextCard;
    assert InFlight(s, a.task, source);
  }

  lemma SendLogs(s: State, a: Action) returns (source: Source)
    requires Enabled(s, a) && ((a.Patch? && a.ok) || (a.Answer? && !a.reply.GotError?)) && s.sends[a.send].msg.final
    ensures Step(s, a).log == s.log + [Dropped(source)] && Step(s, a).ids == s.ids - {source}
  {
    source := s.sends[a.send].msg.source;
  }

  /** How one step moves the record of cards and the history together. */
  lemma StepLogs(s: State, a: Action)
    requires OneCreation(s) && Enabled(s, a)
    ensures var s' := Step(s, a);
            || (s'.log == s.log && s'.ids == s.ids)
            || (exists source, c :: source !in s.ids && s'.log == s.log + [Created(source, c)] && s'.ids == s.ids[source := c])
            || (exists source :: s'.log == s.log + [Dropped(source)] && s'.ids == s.ids - {source})
  {
    if a.Settle? && a.reply.GotCard? {
      var source, c := CardLogs(s, a);
    } else if ((a.Patch? && a.ok) || (a.Answer? && !a.reply.GotError?)) && s.sends[a.send].msg.final {
      var source := SendLogs(s, a);
    }
  }

  lemma StepKeepsCounted(s: State, a: Action)
    requires OneCreation(s) && Counted(s) && Enabled(s, a)
    ensures Counted(Step(s, a))
  {
    StepLogs(s, a);
    var s' := Step(s, a);
    forall source
      ensures CreatedSinceDrop(s'.log, source) == if source in s'.ids then 1 else 0
    {
      if s'.log != s.log {
        SnocCount(s.log, s'.log[|s.log|], source);
      }
    }
  }

  /** A step adds at most one card, with a fresh id. */
  lemma StepCards(s: State, a: Action)
    requires Enabled(s, a)
    ensures var s' := Step(s, a);
            || (s'.cards == s.cards && s'.nextCard == s.nextCard)
            || (s'.nextCard == s.nextCard + 1 && s.nextCard in s'.cards
                && s'.cards == s.cards[s.nextCard := s'.cards[s.nextCard]])
  {
    if a.Settle? {
      SettleCards(s, a.task, a.reply);
    } else if a.Answer? {
      AnswerCards(s, a.send, a.reply);
    }
  }

  lemma SettleCards(s: State, task: Task, reply: Reply)
    requires task in s.creations
    ensures Settled(s, task, reply).cards == if reply.GotCard? then s.cards[s.nextCard := s.creations[task].source] else s.cards
    ensures Settled(s, task, reply).nextCard == if reply.GotCard? then s.nextCard + 1 else s.nextCard
  {
  }

  lemma AnswerCards(s: State, n: nat, reply: Reply)
    requires Enabled(s, Answer(n, reply))
    ensures Step(s, Answer(n, reply)).cards == if reply.GotCard? then s.cards[s.nextCard := s.sends[n].msg.source] else s.cards
    ensures Step(s, Answer(n, reply)).nextCard == if reply.GotCard? then s.nextCard + 1 else s.nextCard
  {
  }

  lemma BeginCreations(s: State, n: nat, msg: Outbound, task: Task)
    ensures var after := Begun(s, n, msg, task).creations;
            after == s.creations || after == s.creations[task := Creation(msg.source, msg.text, Running)]
  {
  }

  lemma SettleCreations(s: State, task: Task, reply: Reply)
    requires task in s.creations
    ensures var after := Settled(s, task, reply).creations;
            && task in after && after == s.creations[task := after[task]]
            && after[task].source == s.creations[task].source && !after[task].status.Running?
  {
  }

  /** A creation task keeps its source; only a start adds one, only a settle changes one. */
  lemma StepCreations(s: State, a: Action)
    requires Enabled(s, a)
    ensures forall t :: t in s.creations ==> t in Step(s, a).creations && Step(s, a).creations[t].source == s.creations[t].source
  {
    match a
    case Start(_, _) =>
    case Begin(n, msg, task) => BeginCreations(s, n, msg, task);
    case Settle(task, reply) => SettleCreations(s, task, reply);
    case Callback(_) => SameCreations(s, a);
    case Resume(_) => SameCreations(s, a);
    case Patch(_, _) => SameCreations(s, a);
    case Answer(_, _) => SameCreations(s, a);
  }

  lemma SameCreations(s: State, a: Action)
    requires Enabled(s, a) && !a.Start? && !a.Begin? && !a.Settle?
    ensures Step(s, a).creations == s.creations
  {
    if !a.Callback? {
      SendTasks(s, a);
    }
  }

  /** Cards and creation tasks stay what they are. */
  lemma StepFrame(s: State, a: Action)
    requires CardsFresh(s) && Enabled(s, a)
    ensures CardsFresh(Step(s, a))
    ensures forall source, c :: Owns(s, source, c) ==> Owns(Step(s, a), source, c)
    ensures forall t :: t in s.creations ==> t in Step(s, a).creations && Step(s, a).creations[t].source == s.creations[t].source
  {
    StepCards(s, a);
    StepCreations(s, a);
  }

  lemma StepKeepsIds(s: State, a: Action)
    requires OneCreation(s) && OwnCards(s) && Enabled(s, a)
    ensures IdsOwn(Step(s, a))
  {
    StepFrame(s, a);
    forall source | source in Step(s, a).ids
      ensures Owns(Step(s, a), source, Step(s, a).ids[source])
    {
      if a.Settle? {
        SettleIds(s, a.task, a.reply);
        SettleCards(s, a.task, a.reply);
      } else {
        OtherIds(s, a, source);
      }
      assert source in s.ids ==> Owns(s, source, s.ids[source]);
    }
  }

  lemma EnsuredKeepsTasks(s: State, source: Source, text: string, task: Task)
    requires TasksOwn(s) && task !in s.creations
    ensures TasksOwn(Ensured(s, source, text, task))
  {
  }

  lemma StepKeepsTasks(s: State, a: Action)
    requires TasksOwn(s) && Enabled(s, a)
    ensures TasksOwn(Step(s, a))
  {
    if a.Start? {
      EnsuredKeepsTasks(s, a.source, "thinking...", a.task);
    } else if a.Begin? {
      EnsuredKeepsTasks(s, a.msg.source, a.msg.text, a.task);
    } else {
      StepCreations(s, a);
      StepTasks(s, a);
    }
  }

  lemma StepTasks(s: State, a: Action)
    requires Enabled(s, a) && !a.Start? && !a.Begin?
    ensures forall source :: source in Step(s, a).tasks ==> source in s.tasks && Step(s, a).tasks[source] == s.tasks[source]
  {
  }

  lemma StepKeepsResults(s: State, a: Action)
    requires OwnCards(s) && Enabled(s, a)
    ensures ResultsOwn(Step(s, a))
  {
    StepFrame(s, a);
    var s' := Step(s, a);
    forall t | t in s'.creations
      ensures ResultOwn(s', s'.creations[t])
    {
      if a.Settle? && a.task == t {
        SettleCards(s, t, a.reply);
      } else {
        OtherCreations(s, a, t);
        assert t in s.creations ==> ResultOwn(s, s.creations[t]);
      }
    }
  }

  /** A creation is new and running, or unchanged, unless it is the one that settles. */
  lemma OtherCreations(s: State, a: Action, t: Task)
    requires Enabled(s, a) && t in Step(s, a).creations && !(a.Settle? && a.task == t)
    ensures if t in s.creations then Step(s, a).creations[t] == s.creations[t] else Step(s, a).creations[t].status.Running?
  {
    match a
    case Start(_, _) =>
    case Begin(n, msg, task) => BeginCreations(s, n, msg, task);
    case Settle(task, reply) => SettleCreations(s, task, reply);
    case Callback(_) => SameCreations(s, a);
    case Resume(_) => SameCreations(s, a);
    case Patch(_, _) => SameCreations(s, a);
    case Answer(_, _) => SameCreations(s, a);
  }

  /** Nothing is left to own at this point. */
  predicate HoldsNothing(pc: Pc) {
    pc.Replying? || pc.Finished? || pc.Failed?
  }

  /** A patch or an answer moves its send on, to a point that holds no card. */
  lemma PatchSends(s: State, n: nat, ok: bool)
    requires Enabled(s, Patch(n, ok))
    ensures var sends := Step(s, Patch(n, ok)).sends;
            n in sends && sends == s.sends[n := sends[n]] && HoldsNothing(sends[n].pc)
  {
  }

  lemma AnswerSends(s: State, n: nat, reply: Reply)
    requires Enabled(s, Answer(n, reply))
    ensures var sends := Step(s, Answer(n, reply)).sends;
            n in sends && sends == s.sends[n := sends[n]] && HoldsNothing(sends[n].pc)
  {
  }

  lemma ResumeSends(s: State, n: nat)
    requires Enabled(s, Resume(n))
    ensures n in Resumed(s, n).sends && Resumed(s, n).sends == s.sends[n := Resumed(s, n).sends[n]]
  {
  }

  lemma BeginSends(s: State, n: nat, msg: Outbound, task: Task)
    ensures n in Begun(s, n, msg, task).sends && Begun(s, n, msg, task).sends == s.sends[n := Begun(s, n, msg, task).sends[n]]
  {
  }

  lemma StepKeepsOther(s: State, a: Action, send: Send)
    requires CardsFresh(s) && Enabled(s, a) && SendOwn(s, send)
    ensures SendOwn(Step(s, a), send)
  {
    StepFrame(s, a);
  }

  lemma BeginKeepsSends(s: State, n: nat, msg: Outbound, task: Task)
    requires OwnCards(s) && Enabled(s, Begin(n, msg, task))
    ensures SendOwn(Begun(s, n, msg, task), Begun(s, n, msg, task).sends[n])
  {
    if msg.source in s.ids {
      assert Owns(s, msg.source, s.ids[msg.source]);
    }
  }

  lemma ResumeKeepsSend(s: State, n: nat)
    requires OwnCards(s) && Enabled(s, Resume(n))
    ensures SendOwn(Resumed(s, n), Resumed(s, n).sends[n])
  {
    assert SendOwn(s, s.sends[n]);
    assert ResultOwn(s, s.creations[s.sends[n].pc.task]);
  }

  lemma StepKeepsSends(s: State, a: Action)
    requires OwnCards(s) && Enabled(s, a)
    ensures SendsOwn(Step(s, a))
  {
    match a
    case Begin(n, msg, task) =>
      BeginSends(s, n, msg, task);
      BeginKeepsSends(s, n, msg, task);
      MovedKeepsSends(s, a, n);
    case Resume(n) =>
      ResumeSends(s, n);
      ResumeKeepsSend(s, n);
      MovedKeepsSends(s, a, n);
    case Patch(n, ok) =>
      PatchSends(s, n, ok);
      MovedKeepsSends(s, a, n);
    case Answer(n, reply) =>
      AnswerSends(s, n, reply);
      MovedKeepsSends(s, a, n);
    case Start(_, _) => StillKeepsSends(s, a);
    case Settle(_, _) => StillKeepsSends(s, a);
    case Callback(_) => StillKeepsSends(s, a);
  }

  lemma StillKeepsSends(s: State, a: Action)
    requires OwnCards(s) && Enabled(s, a) && Step(s, a).sends == s.sends
    ensures SendsOwn(Step(s, a))
  {
    forall m | m in s.sends
      ensures SendOwn(Step(s, a), s.sends[m])
    {
      StepKeepsOther(s, a, s.sends[m]);
    }
  }

  /** Only the send `n` moves. */
  lemma MovedKeepsSends(s: State, a: Action, n: nat)
    requires OwnCards(s) && Enabled(s, a)
    requires n in Step(s, a).sends && SendOwn(Step(s, a), Step(s, a).sends[n])
    requires Step(s, a).sends == s.sends[n := Step(s, a).sends[n]]
    ensures SendsOwn(Step(s, a))
  {
    forall m | m in s.sends
      ensures SendOwn(Step(s, a), s.sends[m])
    {
      StepKeepsOther(s, a, s.sends[m]);
    }
  }

  lemma StepKeepsInv(s: State, a: Action)
    requires Inv(s) && Enabled(s, a)
    ensures Inv(Step(s, a))
  {
    StepKeepsOneCreation(s, a);
    StepKeepsCounted(s, a);
    StepFrame(s, a);
    StepKeepsIds(s, a);
    StepKeepsTasks(s, a);
    StepKeepsResults(s, a);
    StepKeepsSends(s, a);
  }

  lemma {:induction false} RunKeepsInv(run: seq<Action>)
    requires After(run).Some?
    ensures var s := After(run).value; OneCreation(s) && OwnCards(s) && Counted(s)
  {
    if run != [] {
      RunKeepsInv(run[..|run| - 1]);
      StepKeepsInv(After(run[..|run| - 1]).value, run[|run| - 1]);
    }
  }

  // ---- The adapter's dictionaries ------------------------------------------------

  /** The two dictionaries the adapter updates in place. Each method is the part
      of a coroutine or callback between two awaits, and takes the protocol one
      step further; `state` is that protocol state. */
  class Adapter {
    var ids: map<Source, Card>
    var tasks: map<Source, Task>
    ghost var state: State

    ghost predicate Valid()
      reads this
    {
      ids == state.ids && tasks == state.tasks && Inv(state)
    }

    constructor ()
      ensures Valid() && state == Init
    {
      ids, tasks, state := map[], map[], Init;
    }

    /** `_ensure_running_card_started`; `task` is the task object it would create. */
    method EnsureRunningCardStarted(source: Source, task: Task) returns (running: Option<Task>)
      requires Valid() && Enabled(state, Start(source, task))
      modifies this
      ensures Valid() && state == Step(old(state), Start(source, task))
      ensures running == if source in old(ids) then None else Some(if source in old(tasks) then old(tasks)[source] else task)
      ensures InFlight(state, task, source) <==> source !in old(ids) && source !in old(tasks)
      ensures InFlight(state, task, source) ==> state.creations[task].text == "thinking..."
    {
      StepKeepsInv(state, Start(source, task));
      state := Step(state, Start(source, task));
      if source in ids {
        return None;
      }
      if source in tasks {
        return Some(tasks[source]);
      }
      tasks := tasks[source := task];
      return Some(task);
    }

    /** The end of `_create_running_card`, run by `task`. */
    method CardReplied(source: Source, card: Option<Card>, ghost task: Task)
      requires Valid() && Enabled(state, Settle(task, if card.Some? then GotCard else GotNothing))
      requires source == state.creations[task].source && (card.Some? ==> card.value == state.nextCard)
      modifies this
      ensures Valid() && state == Step(old(state), Settle(task, if card.Some? then GotCard else GotNothing))
      ensures card.Some? ==> source !in old(ids)
    {
      ghost var a := Settle(task, if card.Some? then GotCard else GotNothing);
      assert InFlight(state, task, source);
      StepKeepsInv(state, a);
      state := Step(state, a);
      if card.Some? {
        ids := ids[source := card.value];
      }
    }

    /** `_finalize_running_card_task` */
    method FinalizeTask(source: Source, task: Task)
      requires Valid() && Enabled(state, Callback(task)) && source == state.creations[task].source
      modifies this
      ensures Valid() && state == Step(old(state), Callback(task))
    {
      StepKeepsInv(state, Callback(task));
      state := Step(state, Callback(task));
      if source in tasks && tasks[source] == task {
        tasks := tasks - {source};
      }
    }

    /** `_send_card_message` up to its first await: what it waits for. */
    method BeginSend(msg: Outbound, task: Task, ghost n: nat) returns (pc: Pc)
      requires Valid() && Enabled(state, Begin(n, msg, task))
      modifies this
      ensures Valid() && state == Step(old(state), Begin(n, msg, task)) && n in state.sends && state.sends[n].pc == pc
      ensures msg.source in old(ids) ==> pc == Patching(old(ids)[msg.source])
      ensures msg.source !in old(ids) && msg.source in old(tasks) ==> pc == Awaiting(old(tasks)[msg.source])
      ensures msg.source !in old(ids) && msg.source !in old(tasks) && msg.final ==> pc == Replying
      ensures msg.source !in old(ids) && msg.source !in old(tasks) && !msg.final ==>
                pc == Creating(task) && InFlight(state, task, msg.source) && state.creations[task].text == msg.text
    {
      ghost var a := Begin(n, msg, task);
      StepKeepsInv(state, a);
      BeginSends(state, n, msg, task);
      state := Step(state, a);
      if msg.source in ids {
        return Patching(ids[msg.source]);
      }
      if msg.source in tasks {
        return Awaiting(tasks[msg.source]);
      }
      if msg.final {
        return Replying;
      }
      tasks := tasks[msg.source := task];
      return Creating(task);
    }

    /** The end of `_send_card_message` after a patch or a reply that went through. */
    method EndSend(msg: Outbound, ghost a: Action)
      requires Valid() && Enabled(state, a) && ((a.Patch? && a.ok) || (a.Answer? && !a.reply.GotError?))
      requires state.sends[a.send].msg == msg
      modifies this
      ensures Valid() && state == Step(old(state), a)
      ensures msg.final ==> msg.source !in ids && CreatedSinceDrop(state.log, msg.source) == 0
    {
      StepKeepsInv(state, a);
      state := Step(state, a);
      if msg.final {
        ids := ids - {msg.source};
      }
    }
  }

  // ---- The results ---------------------------------------------------------------

  /** A source never has two creations in flight, nor one while a card is recorded. */
  lemma AtMostOneInFlight(run: seq<Action>, source: Source, t: Task, u: Task)
    requires After(run).Some? && InFlight(After(run).value, t, source)
    ensures source !in After(run).value.ids
    ensures InFlight(After(run).value, u, source) ==> t == u
  {
    RunKeepsInv(run);
  }

  /** Between two final sends for a source at most one running card is created. */
  lemma AtMostOneCardBetweenFinals(run: seq<Action>, source: Source)
    requires After(run).Some?
    ensures CreatedSinceDrop(After(run).value.log, source) <= 1
  {
    RunKeepsInv(run);
  }

  /** A send only ever patches a card that replies to its own source message. */
  lemma SendsPatchOwnCards(run: seq<Action>, n: nat)
    requires After(run).Some? && n in After(run).value.sends && After(run).value.sends[n].pc.Patching?
    ensures var s := After(run).value;
            s.sends[n].pc.card in s.cards && s.cards[s.sends[n].pc.card] == s.sends[n].msg.source
  {
    RunKeepsInv(run);
    assert SendOwn(After(run).value, After(run).value.sends[n]);
  }
}
