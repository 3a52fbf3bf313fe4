/** What the Feishu cards show. */
module CardTexts {
  import opened Wrappers
  import opened RunningCard

  // Which card a send ends up on in a run of `RunningCard`, why, and what is shown
  // there (backend/app/channels/feishu.py, `_send_card_message`).

  // ---- Why a send is where it is ----------------------------------------------------------

  predicate MovesSend(a: Action, n: nat) {
    (a.Begin? || a.Resume? || a.Patch? || a.Answer?) && a.send == n
  }

  /** The task the send was waiting for is done, with that outcome. */
  predicate Woke(s: State, a: Action, n: nat, creating: bool, status: Status) {
    && a == Resume(n) && n in s.sends
    && (if creating then s.sends[n].pc.Creating? else s.sends[n].pc.Awaiting?)
    && s.sends[n].pc.task in s.creations && s.creations[s.sends[n].pc.task].status == status
  }

  /** The send starts while neither a card nor a creation is recorded for its source. */
  predicate FindsNothing(s: State, a: Action, send: Send) {
    a.Begin? && a.msg == send.msg && send.msg.source !in s.ids && send.msg.source !in s.tasks
  }

  /** Why action `a` in state `s` has put the send `n` where it is. */
  ghost predicate Because(s: State, a: Action, n: nat, send: Send) {
    var source := send.msg.source;
    match send.pc
    case Patching(card) =>
      || (a.Begin? && a.msg == send.msg && source in s.ids && s.ids[source] == card)
      || Woke(s, a, n, false, Returned(Some(card)))
    case Replying =>
      send.msg.final && (FindsNothing(s, a, send) || Woke(s, a, n, false, Returned(None)) || a == Patch(n, false))
    case Awaiting(task) =>
      a.Begin? && a.msg == send.msg && source !in s.ids && source in s.tasks && s.tasks[source] == task
    case Creating(task) => !send.msg.final && FindsNothing(s, a, send) && a.task == task
    case Finished =>
      || a == Patch(n, true) || a == Answer(n, GotCard) || a == Answer(n, GotNothing)
      || (!send.msg.final && Woke(s, a, n, false, Returned(None)))
      || exists card :: Woke(s, a, n, true, Returned(card))
    case Failed =>
      || (!send.msg.final && a == Patch(n, false)) || a == Answer(n, GotError)
      || Woke(s, a, n, false, Raised) || Woke(s, a, n, true, Raised)
  }

  lemma BeginBecause(s: State, n: nat, msg: Outbound, task: Task)
    requires Enabled(s, Begin(n, msg, task))
    ensures var s' := Step(s, Begin(n, msg, task)); n in s'.sends && Because(s, Begin(n, msg, task), n, s'.sends[n])
  {
    BeginSends(s, n, msg, task);
  }

  lemma ResumeBecause(s: State, n: nat)
    requires Enabled(s, Resume(n))
    ensures var s' := Step(s, Resume(n)); n in s'.sends && Because(s, Resume(n), n, s'.sends[n])
  {
    ResumeSends(s, n);
    var Send(_, pc) := s.sends[n];
    var status := s.creations[pc.task].status;
    assert Woke(s, Resume(n), n, pc.Creating?, status);
  }

  lemma PatchBecause(s: State, n: nat, ok: bool)
    requires Enabled(s, Patch(n, ok))
    ensures var s' := Step(s, Patch(n, ok)); n in s'.sends && Because(s, Patch(n, ok), n, s'.sends[n])
  {
    PatchMoves(s, n, ok);
  }

  lemma PatchMoves(s: State, n: nat, ok: bool)
    requires Enabled(s, Patch(n, ok))
    ensures n in Step(s, Patch(n, ok)).sends
    ensures Step(s, Patch(n, ok)).sends[n]
            == Send(s.sends[n].msg, if ok then Finished else if s.sends[n].msg.final then Replying else Failed)
  {
  }

  lemma AnswerBecause(s: State, n: nat, reply: Reply)
    requires Enabled(s, Answer(n, reply))
    ensures var s' := Step(s, Answer(n, reply)); n in s'.sends && Because(s, Answer(n, reply), n, s'.sends[n])
  {
  }

  lemma MoveBecause(s: State, a: Action, n: nat)
    requires Enabled(s, a) && MovesSend(a, n)
    ensures n in Step(s, a).sends && Because(s, a, n, Step(s, a).sends[n])
  {
    match a
    case Begin(_, msg, task) => BeginBecause(s, n, msg, task);
    case Resume(_) => ResumeBecause(s, n);
    case Patch(_, ok) => PatchBecause(s, n, ok);
    case Answer(_, reply) => AnswerBecause(s, n, reply);
  }

  /** A send rests unless it is the one that moves. */
  lemma Rests(s: State, a: Action, n: nat)
    requires Enabled(s, a) && !MovesSend(a, n)
    ensures n in Step(s, a).sends <==> n in s.sends
    ensures n in s.sends ==> Step(s, a).sends[n] == s.sends[n]
  {
    match a
    case Begin(m, msg, task) => BeginSends(s, m, msg, task);
    case Resume(m) => ResumeSends(s, m);
    case Patch(m, ok) => PatchSends(s, m, ok);
    case Answer(m, reply) => AnswerSends(s, m, reply);
    case Start(_, _) =>
    case Settle(_, _) =>
    case Callback(_) =>
  }

  /** Action `i` of the run takes the state before it to the state after it. */
  ghost predicate Transition(run: seq<Action>, i: nat) {
    && i < |run| && After(run[..i]).Some? && After(run[..i + 1]).Some?
    && Enabled(After(run[..i]).value, run[i])
    && After(run[..i + 1]).value == Step(After(run[..i]).value, run[i])
  }

  lemma LastTransition(run: seq<Action>)
    requires run != [] && After(run).Some?
    ensures Transition(run, |run| - 1) && run[..|run| - 1 + 1] == run
  {
    var last := |run| - 1;
    assert run[..last + 1] == run;
    assert After(run[..last + 1]) == After(run);
  }

  lemma EarlierTransition(run: seq<Action>, i: nat)
    requires run != [] && Transition(run[..|run| - 1], i)
    ensures Transition(run, i)
  {
    var front := run[..|run| - 1];
    assert front[..i] == run[..i] && front[..i + 1] == run[..i + 1];
  }

  /** In every run each send is where its last move has put it, for one of these
      reasons: a send that found a card recorded, or awaited a creation that
      brought one, patches that card; it replies with a new card only if it is
      final and there was no card to be had or the patch failed. */
  lemma {:induction false} EverySendHasItsReason(run: seq<Action>, n: nat) returns (i: nat)
    requires After(run).Some? && n in After(run).value.sends
    ensures Transition(run, i) && MovesSend(run[i], n)
    ensures n in After(run[..i + 1]).value.sends && After(run[..i + 1]).value.sends[n] == After(run).value.sends[n]
    ensures Because(After(run[..i]).value, run[i], n, After(run).value.sends[n])
  {
    var last := |run| - 1;
    LastTransition(run);
    if MovesSend(run[last], n) {
      i := last;
      MoveBecause(After(run[..last]).value, run[last], n);
    } else {
      Rests(After(run[..last]).value, run[last], n);
      i := EverySendHasItsReason(run[..last], n);
      EarlierTransition(run, i);
      assert run[..last][..i] == run[..i] && run[..last][..i + 1] == run[..i + 1];
    }
  }

  // ---- What the cards show ------------------------------------------------------------------

  ghost predicate Shows(s: State, c: Card, source: Source, text: string) {
    c in s.cards && s.cards[c] == source && c in s.shown && s.shown[c] == text
  }

  ghost predicate AllShown(s: State) {
    && (forall c :: c in s.cards ==> c in s.shown)
    && (forall c :: c in s.shown ==> c < s.nextCard)
  }

  /** The send that patches the card. */
  predicate Patches(s: State, a: Action, c: Card) {
    a.Patch? && a.ok && a.send in s.sends && s.sends[a.send].pc == Patching(c)
  }

  lemma SettleShows(s: State, task: Task, reply: Reply)
    requires task in s.creations
    ensures Settled(s, task, reply).shown == if reply.GotCard? then s.shown[s.nextCard := s.creations[task].text] else s.shown
  {
  }

  lemma AnswerShows(s: State, n: nat, reply: Reply)
    requires Enabled(s, Answer(n, reply))
    ensures Step(s, Answer(n, reply)).shown == if reply.GotCard? then s.shown[s.nextCard := s.sends[n].msg.text] else s.shown
  {
  }

  lemma PatchShows(s: State, n: nat, ok: bool)
    requires Enabled(s, Patch(n, ok))
    ensures Step(s, Patch(n, ok)).shown == if ok then s.shown[s.sends[n].pc.card := s.sends[n].msg.text] else s.shown
  {
  }

  lemma OthersShow(s: State, a: Action)
    requires Enabled(s, a) && !a.Settle? && !a.Answer? && !a.Patch?
    ensures Step(s, a).shown == s.shown
  {
  }

  lemma StepKeepsShown(s: State, a: Action)
    requires AllShown(s) && OwnCards(s) && Enabled(s, a)
    ensures AllShown(Step(s, a))
    ensures forall c :: c in s.shown && !Patches(s, a, c) ==> c in Step(s, a).shown && Step(s, a).shown[c] == s.shown[c]
  {
    StepCards(s, a);
    match a
    case Settle(task, reply) =>
      SettleShows(s, task, reply);
      SettleCards(s, task, reply);
    case Answer(n, reply) =>
      AnswerShows(s, n, reply);
      AnswerCards(s, n, reply);
    case Patch(n, ok) =>
      PatchShows(s, n, ok);
      assert SendOwn(s, s.sends[n]);
      SameCards(s, a);
    case Start(_, _) => OthersRest(s, a);
    case Callback(_) => OthersRest(s, a);
    case Begin(_, _, _) => OthersRest(s, a);
    case Resume(_) => OthersRest(s, a);
  }

  lemma OthersRest(s: State, a: Action)
    requires Enabled(s, a) && !a.Settle? && !a.Answer? && !a.Patch?
    ensures Step(s, a).shown == s.shown && Step(s, a).cards == s.cards && Step(s, a).nextCard == s.nextCard
  {
    OthersShow(s, a);
    SameCards(s, a);
  }

  lemma SameCards(s: State, a: Action)
    requires Enabled(s, a) && !a.Settle? && !a.Answer?
    ensures Step(s, a).cards == s.cards && Step(s, a).nextCard == s.nextCard
  {
  }

  lemma {:induction false} RunKeepsShown(run: seq<Action>)
    requires After(run).Some?
    ensures AllShown(After(run).value)
  {
    if run != [] {
      LastTransition(run);
      RunKeepsShown(run[..|run| - 1]);
      RunKeepsInv(run[..|run| - 1]);
      StepKeepsShown(After(run[..|run| - 1]).value, run[|run| - 1]);
    }
  }

  /** After the first `k` actions nobody patches the card. */
  ghost predicate LeftAlone(run: seq<Action>, k: nat, c: Card) {
    forall j: nat :: k <= j && Transition(run, j) ==> !Patches(After(run[..j]).value, run[j], c)
  }

  lemma FrontLeftAlone(run: seq<Action>, k: nat, c: Card)
    requires run != [] && LeftAlone(run, k, c)
    ensures LeftAlone(run[..|run| - 1], k, c)
  {
    var front := run[..|run| - 1];
    forall j: nat | k <= j && Transition(front, j)
      ensures !Patches(After(front[..j]).value, front[j], c)
    {
      EarlierTransition(run, j);
      assert front[..j] == run[..j];
    }
  }

  lemma StepShows(s: State, a: Action, c: Card, source: Source, text: string)
    requires AllShown(s) && OwnCards(s) && Enabled(s, a) && Shows(s, c, source, text) && !Patches(s, a, c)
    ensures Shows(Step(s, a), c, source, text)
  {
    StepKeepsShown(s, a);
    StepFrame(s, a);
    assert Owns(s, source, c);
  }

  /** A card shows what it does until a send patches it. */
  lemma {:induction false} ShowsUntilPatched(run: seq<Action>, k: nat, c: Card, source: Source, text: string)
    requires After(run).Some? && k <= |run| && After(run[..k]).Some? && Shows(After(run[..k]).value, c, source, text)
    requires LeftAlone(run, k, c)
    ensures Shows(After(run).value, c, source, text)
    decreases |run|
  {
    if k == |run| {
      assert run[..k] == run;
    } else {
      var last := |run| - 1;
      var front := run[..last];
      LastTransition(run);
      FrontLeftAlone(run, k, c);
      assert front[..k] == run[..k];
      ShowsUntilPatched(front, k, c, source, text);
      RunKeepsShown(front);
      RunKeepsInv(front);
      StepShows(After(front).value, run[last], c, source, text);
    }
  }

  // ---- The results ----------------------------------------------------------------------------

  /** The move that ends a final send shows its text: on the patched card, which
      is the one recorded for the source or brought by the awaited creation, or on
      a new card that replies to the source. */
  lemma EndShows(s: State, a: Action, n: nat)
    requires OwnCards(s) && Enabled(s, a) && n in s.sends && s.sends[n].msg.final
    ensures a == Patch(n, true) ==> Shows(Step(s, a), s.sends[n].pc.card, s.sends[n].msg.source, s.sends[n].msg.text)
    ensures a == Answer(n, GotCard) ==> Shows(Step(s, a), s.nextCard, s.sends[n].msg.source, s.sends[n].msg.text)
  {
    if a == Patch(n, true) {
      PatchShows(s, n, true);
      SameCards(s, a);
      assert SendOwn(s, s.sends[n]);
    } else if a == Answer(n, GotCard) {
      AnswerShows(s, n, GotCard);
      AnswerCards(s, n, GotCard);
    }
  }

  lemma FinishedBecause(s: State, a: Action, n: nat, send: Send)
    requires Enabled(s, a) && MovesSend(a, n) && Because(s, a, n, send) && send.pc.Finished? && send.msg.final && OwnCards(s)
    requires n in Step(s, a).sends && Step(s, a).sends[n] == send && OnlyUpdatesCreate(s)
    ensures a == Patch(n, true) || a == Answer(n, GotCard) || a == Answer(n, GotNothing)
    ensures n in s.sends && s.sends[n].msg == send.msg
  {
  }

  /** Only a progress update waits for a card of its own making. */
  ghost predicate OnlyUpdatesCreate(s: State) {
    forall n :: n in s.sends && s.sends[n].pc.Creating? ==> !s.sends[n].msg.final
  }

  lemma {:induction false} UpdatesCreate(run: seq<Action>)
    requires After(run).Some?
    ensures OnlyUpdatesCreate(After(run).value)
  {
    forall n | n in After(run).value.sends && After(run).value.sends[n].pc.Creating?
      ensures !After(run).value.sends[n].msg.final
    {
      var i := EverySendHasItsReason(run, n);
    }
  }

  /** In every run: when a final send is over, a card that replies to its source
      shows its text, and goes on showing it until another send patches that card.
      The card is the patched one whenever there was one to patch and the patch
      went through. The one exception is a reply of which no card id came back. */
  lemma FinalIsShown(run: seq<Action>, n: nat) returns (i: nat, c: Card)
    requires After(run).Some? && n in After(run).value.sends
    requires After(run).value.sends[n].msg.final && After(run).value.sends[n].pc.Finished?
    ensures Transition(run, i) && n in After(run[..i]).value.sends
    ensures run[i] == Patch(n, true) || run[i] == Answer(n, GotCard) || run[i] == Answer(n, GotNothing)
    ensures run[i] == Patch(n, true) ==> After(run[..i]).value.sends[n].pc == Patching(c)
    ensures var msg := After(run).value.sends[n].msg;
            run[i] != Answer(n, GotNothing) ==>
              && Shows(After(run[..i + 1]).value, c, msg.source, msg.text)
              && (LeftAlone(run, i + 1, c) ==> Shows(After(run).value, c, msg.source, msg.text))
  {
    i := EverySendHasItsReason(run, n);
    var s, msg := After(run[..i]).value, After(run).value.sends[n].msg;
    RunKeepsInv(run[..i]);
    UpdatesCreate(run[..i]);
    FinishedBecause(s, run[i], n, After(run).value.sends[n]);
    EndShows(s, run[i], n);
    c := if run[i].Patch? then s.sends[n].pc.card else s.nextCard;
    if run[i] != Answer(n, GotNothing) && LeftAlone(run, i + 1, c) {
      ShowsUntilPatched(run, i + 1, c, msg.source, msg.text);
    }
  }

  /** The "thinking..." card of an inbound message, or the first update's, is what
      a creation puts up. */
  lemma CreationShows(s: State, task: Task)
    requires Enabled(s, Settle(task, GotCard))
    ensures var s' := Step(s, Settle(task, GotCard));
            && Shows(s', s.nextCard, s.creations[task].source, s.creations[task].text)
            && s.creations[task].source in s'.ids && s'.ids[s.creations[task].source] == s.nextCard
  {
    SettleShows(s, task, GotCard);
    SettleCards(s, task, GotCard);
    SettleIds(s, task, GotCard);
  }
}
