/** Pending clarifications of Feishu. */
module Clarifications {
  import opened Wrappers

  // Pending clarifications of the Feishu adapter (backend/app/channels/feishu.py,
  // `_remember_pending_clarification` and `_consume_pending_clarification`): a
  // queue per chat and user whose expired entries are dropped only when a consumer
  // walks past them.

  const TTL_SECONDS: real := 1800.0

  datatype Key = Key(chat: string, user: string)

  datatype Pending = Pending(threadId: string, topicId: string, sourceId: string, cardId: string, createdAt: real)

  /** An outbound message, as far as it is read; `None` stands for a missing or blank field. */
  datatype Outbound = Outbound(
    final: bool, clarifies: bool, chat: string, user: Option<string>, topic: Option<string>,
    threadId: string, threadTs: Option<string>, messageId: Option<string>)

  predicate Fresh(p: Pending, now: real) {
    now - p.createdAt <= TTL_SECONDS
  }

  /** What a final clarifying message leaves behind, if it names everything needed. */
  function Remembered(msg: Outbound, card: string, now: real): Option<(Key, Pending)> {
    var source := if msg.threadTs.Some? then msg.threadTs else msg.messageId;
    if msg.final && msg.clarifies && msg.user.Some? && msg.topic.Some? && msg.threadId != "" && source.Some? && card != ""
    then Some((Key(msg.chat, msg.user.value), Pending(msg.threadId, msg.topic.value, source.value, card, now)))
    else None
  }

  /** The position of the first fresh entry, or the length. */
  function FirstFresh(items: seq<Pending>, now: real): (i: nat)
    ensures i <= |items| && (i < |items| ==> Fresh(items[i], now))
  {
    if items == [] || Fresh(items[0], now) then 0 else 1 + FirstFresh(items[1..], now)
  }

  function Answer(items: seq<Pending>, now: real): Option<Pending> {
    var i := FirstFresh(items, now);
    if i < |items| then Some(items[i]) else None
  }

  /** The queue after a consumer: everything up to the entry handed out is gone. */
  function Left(items: seq<Pending>, now: real): seq<Pending> {
    var i := FirstFresh(items, now);
    if i < |items| then items[i + 1..] else []
  }

  function QueueOf(pending: map<Key, seq<Pending>>, key: Key): seq<Pending> {
    if key in pending then pending[key] else []
  }

  /** What the adapter is asked to do. */
  datatype Op = Recall(msg: Outbound, card: string, now: real) | Ask(key: Key, now: real)

  /** What an operation makes of the queue of one chat and user. */
  function NextQueue(before: seq<Pending>, op: Op, key: Key): seq<Pending> {
    match op
    case Recall(msg, card, now) =>
      var r := Remembered(msg, card, now);
      if r.Some? && r.value.0 == key then before + [r.value.1] else before
    case Ask(k, now) => if k == key then Left(before, now) else before
  }

  /** The queue of one chat and user after some operations on all of them. */
  function Queue(ops: seq<Op>, key: Key): seq<Pending> {
    if ops == [] then [] else NextQueue(Queue(ops[..|ops| - 1], key), ops[|ops| - 1], key)
  }

  lemma QueueSnoc(ops: seq<Op>, op: Op)
    ensures forall key :: Queue(ops + [op], key) == NextQueue(Queue(ops, key), op, key)
  {
    assert (ops + [op])[..|ops|] == ops;
  }

  class Store {
    var pending: map<Key, seq<Pending>>
    ghost var ops: seq<Op>

    ghost predicate Valid()
      reads this
    {
      forall key :: QueueOf(pending, key) == Queue(ops, key)
    }

    constructor ()
      ensures Valid() && pending == map[] && ops == []
    {
      pending, ops := map[], [];
    }

    method Remember(msg: Outbound, card: string, now: real)
      requires Valid()
      modifies this
      ensures Valid() && ops == old(ops) + [Recall(msg, card, now)]
      ensures var r := Remembered(msg, card, now);
              if r.None? then pending == old(pending)
              else pending == old(pending)[r.value.0 := QueueOf(old(pending), r.value.0) + [r.value.1]]
    {
      QueueSnoc(ops, Recall(msg, card, now));
      ops := ops + [Recall(msg, card, now)];
      if !msg.final || !msg.clarifies {
        return;
      }
      var source := if msg.threadTs.Some? then msg.threadTs else msg.messageId;
      if msg.user.None? || msg.topic.None? || msg.threadId == "" || source.None? || card == "" {
        return;
      }
      var key := Key(msg.chat, msg.user.value);
      pending := pending[key := QueueOf(pending, key) + [Pending(msg.threadId, msg.topic.value, source.value, card, now)]];
    }

    /** Other queues stay; an emptied queue leaves the dictionary. */
    method Consume(key: Key, now: real) returns (answer: Option<Pending>)
      requires Valid()
      modifies this
      ensures Valid() && ops == old(ops) + [Ask(key, now)]
      ensures answer == Answer(QueueOf(old(pending), key), now)
      ensures QueueOf(pending, key) == Left(QueueOf(old(pending), key), now)
      ensures forall k :: k != key ==> QueueOf(pending, k) == QueueOf(old(pending), k)
      ensures QueueOf(old(pending), key) != [] ==> (key in pending <==> Left(QueueOf(old(pending), key), now) != [])
    {
      QueueSnoc(ops, Ask(key, now));
      ops := ops + [Ask(key, now)];
      answer := TakeFrom(key, now);
    }

    /** The loop of `_consume_pending_clarification`. */
    method TakeFrom(key: Key, now: real) returns (answer: Option<Pending>)
      modifies this`pending
      ensures answer == Answer(QueueOf(old(pending), key), now)
      ensures QueueOf(pending, key) == Left(QueueOf(old(pending), key), now)
      ensures forall k :: k != key ==> QueueOf(pending, k) == QueueOf(old(pending), k)
      ensures QueueOf(old(pending), key) != [] ==> (key in pending <==> Left(QueueOf(old(pending), key), now) != [])
    {
      if key !in pending || pending[key] == [] {
        return None;
      }
      var items := pending[key];
      while items != []
        invariant Answer(items, now) == Answer(old(pending[key]), now)
        invariant Left(items, now) == Left(old(pending[key]), now)
        decreases |items|
      {
        var first := items[0];
        items := items[1..];
        if Fresh(first, now) {
          pending := if items != [] then pending[key := items] else pending - {key};
          return Some(first);
        }
      }
      pending := pending - {key};
      return None;
    }
  }

  // ---- One conversation over time --------------------------------------------------

  /** What happens to the queue of one chat and user. */
  datatype Event = Add(item: Pending) | Take(now: real)

  /** The queue the adapter holds. */
  function Held(log: seq<Event>): seq<Pending> {
    if log == [] then []
    else
      var before := Held(log[..|log| - 1]);
      match log[|log| - 1]
      case Add(p) => before + [p]
      case Take(now) => Left(before, now)
  }

  /** The items without the one a consumer at time `now` should get. */
  function Minus(items: seq<Pending>, now: real): seq<Pending> {
    var i := FirstFresh(items, now);
    if i < |items| then items[..i] + items[i + 1..] else items
  }

  /** The intended bookkeeping: everything remembered and not handed out, however old. */
  function Outstanding(log: seq<Event>): seq<Pending> {
    if log == [] then []
    else
      var before := Outstanding(log[..|log| - 1]);
      match log[|log| - 1]
      case Add(p) => before + [p]
      case Take(now) => Minus(before, now)
  }

  /** What the adapter handed out, in order. */
  function HandedOut(log: seq<Event>): seq<Pending> {
    if log == [] then []
    else
      var front := log[..|log| - 1];
      match log[|log| - 1]
      case Add(_) => HandedOut(front)
      case Take(now) =>
        var answer := Answer(Held(front), now);
        HandedOut(front) + if answer.Some? then [answer.value] else []
  }

  function Added(log: seq<Event>): seq<Pending> {
    if log == [] then []
    else
      var front := log[..|log| - 1];
      match log[|log| - 1]
      case Add(p) => Added(front) + [p]
      case Take(_) => Added(front)
  }

  /** Consumers see a clock that does not go back, up to `now`. */
  predicate ClockOk(log: seq<Event>, now: real) {
    log == [] ||
      match log[|log| - 1]
      case Add(_) => ClockOk(log[..|log| - 1], now)
      case Take(t) => t <= now && ClockOk(log[..|log| - 1], t)
  }

  /** `items` is `all` without some entries that are no longer fresh at `now`. */
  ghost predicate Thinned(items: seq<Pending>, all: seq<Pending>, now: real)
    decreases |all|
  {
    if all == [] then items == []
    else
      || (items != [] && items[0] == all[0] && Thinned(items[1..], all[1..], now))
      || (!Fresh(all[0], now) && Thinned(items, all[1..], now))
  }

  lemma {:induction false} StaysThinned(items: seq<Pending>, all: seq<Pending>, t: real, now: real)
    requires Thinned(items, all, t)
    requires forall p :: p in all && !Fresh(p, t) ==> !Fresh(p, now)
    ensures Thinned(items, all, now)
    decreases |all|
  {
    if all != [] {
      assert all[0] in all;
      if items != [] && items[0] == all[0] && Thinned(items[1..], all[1..], t) {
        StaysThinned(items[1..], all[1..], t, now);
      } else {
        StaysThinned(items, all[1..], t, now);
      }
    }
  }

  lemma {:induction false} ThinnedSnoc(items: seq<Pending>, all: seq<Pending>, now: real, p: Pending)
    requires Thinned(items, all, now)
    ensures Thinned(items + [p], all + [p], now)
    decreases |all|
  {
    if all == [] {
      assert Thinned([p][1..], [p][1..], now);
    } else {
      assert (all + [p])[1..] == all[1..] + [p];
      if items != [] && items[0] == all[0] && Thinned(items[1..], all[1..], now) {
        assert (items + [p])[1..] == items[1..] + [p];
        ThinnedSnoc(items[1..], all[1..], now, p);
      } else {
        ThinnedSnoc(items, all[1..], now, p);
      }
    }
  }

  /** Dropped entries do not change what the next consumer gets. */
  lemma {:induction false} SameAnswer(items: seq<Pending>, all: seq<Pending>, now: real)
    requires Thinned(items, all, now)
    ensures Answer(items, now) == Answer(all, now)
    decreases |all|
  {
    if all != [] {
      if items != [] && items[0] == all[0] && Thinned(items[1..], all[1..], now) {
        SameAnswer(items[1..], all[1..], now);
      } else {
        SameAnswer(items, all[1..], now);
      }
    }
  }

  /** A consumer drops stale entries and takes the same one on both sides. */
  lemma {:induction false} TakeThins(items: seq<Pending>, all: seq<Pending>, now: real)
    requires Thinned(items, all, now)
    ensures Thinned(Left(items, now), Minus(all, now), now)
    decreases |all|
  {
    if all != [] {
      if items != [] && items[0] == all[0] && Thinned(items[1..], all[1..], now) {
        if Fresh(all[0], now) {
          TakeFirst(items, now);
          TakeFirst(all, now);
        } else {
          TakeThins(items[1..], all[1..], now);
          MinusStale(all, now);
          LeftStale(items, now);
        }
      } else {
        TakeThins(items, all[1..], now);
        MinusStale(all, now);
      }
    }
  }

  lemma TakeFirst(all: seq<Pending>, now: real)
    requires all != [] && Fresh(all[0], now)
    ensures Minus(all, now) == all[1..] == Left(all, now)
  {
  }

  lemma LeftStale(items: seq<Pending>, now: real)
    requires items != [] && !Fresh(items[0], now)
    ensures Left(items, now) == Left(items[1..], now)
  {
  }

  lemma MinusStale(all: seq<Pending>, now: real)
    requires all != [] && !Fresh(all[0], now)
    ensures Minus(all, now) != [] && Minus(all, now)[0] == all[0] && Minus(all, now)[1..] == Minus(all[1..], now)
  {
    var rest := all[1..];
    var i := FirstFresh(rest, now);
    if i < |rest| {
      assert all[..i + 1] + all[i + 2..] == [all[0]] + (rest[..i] + rest[i + 1..]);
    }
  }

  lemma {:induction false} RunThins(log: seq<Event>, now: real)
    requires ClockOk(log, now)
    ensures Thinned(Held(log), Outstanding(log), now)
  {
    if log != [] {
      var front := log[..|log| - 1];
      match log[|log| - 1]
      case Add(p) =>
        RunThins(front, now);
        ThinnedSnoc(Held(front), Outstanding(front), now, p);
      case Take(t) =>
        RunThins(front, t);
        TakeThins(Held(front), Outstanding(front), t);
        StaysThinned(Held(log), Outstanding(log), t, now);
    }
  }

  // ---- The results -----------------------------------------------------------------

  /** The first item of the list that is at most half an hour old. */
  ghost predicate IsOldestFresh(all: seq<Pending>, i: nat, now: real) {
    && i < |all| && now - all[i].createdAt <= 1800.0
    && forall j: nat :: j < i ==> now - all[j].createdAt > 1800.0
  }

  /** What should be handed out of the list: its oldest fresh item, if it has one. */
  ghost predicate Due(all: seq<Pending>, answer: Option<Pending>, now: real) {
    match answer
    case None => forall j: nat :: j < |all| ==> now - all[j].createdAt > 1800.0
    case Some(p) => exists i: nat :: IsOldestFresh(all, i, now) && all[i] == p
  }

  lemma AnswerIsDue(all: seq<Pending>, now: real)
    ensures Due(all, Answer(all, now), now)
  {
    var i := FirstFresh(all, now);
    forall j: nat | j < i
      ensures now - all[j].createdAt > 1800.0
    {
      StaleBefore(all, now, j);
    }
    if i < |all| {
      assert IsOldestFresh(all, i, now);
    }
  }

  /** A consumer gets the oldest clarification that was remembered, is not yet
      handed out and is still fresh, and nothing exactly when there is none. */
  lemma OldestFreshIsHandedOut(log: seq<Event>, now: real)
    requires ClockOk(log, now)
    ensures Due(Outstanding(log), Answer(Held(log), now), now)
  {
    RunThins(log, now);
    SameAnswer(Held(log), Outstanding(log), now);
    AnswerIsDue(Outstanding(log), now);
  }

  lemma {:induction false} StaleBefore(items: seq<Pending>, now: real, j: nat)
    requires j < FirstFresh(items, now)
    ensures !Fresh(items[j], now)
  {
    if j > 0 {
      StaleBefore(items[1..], now, j - 1);
    }
  }

  /** Everything remembered is outstanding or was handed out, exactly once. */
  lemma {:induction false} HandedOutOnce(log: seq<Event>, now: real)
    requires ClockOk(log, now)
    ensures multiset(Added(log)) == multiset(Outstanding(log)) + multiset(HandedOut(log))
  {
    if log != [] {
      var front := log[..|log| - 1];
      match log[|log| - 1]
      case Add(p) => HandedOutOnce(front, now);
      case Take(t) =>
        HandedOutOnce(front, t);
        RunThins(front, t);
        SameAnswer(Held(front), Outstanding(front), t);
        TakenFromOutstanding(Outstanding(front), t);
    }
  }

  lemma TakenFromOutstanding(all: seq<Pending>, now: real)
    ensures multiset(all) == multiset(Minus(all, now))
                             + multiset(if Answer(all, now).Some? then [Answer(all, now).value] else [])
  {
    var i := FirstFresh(all, now);
    if i < |all| {
      assert all == all[..i] + [all[i]] + all[i + 1..];
    }
  }

  // ---- Exactly which clocks are good enough ------------------------------------------

  /** The clock readings of the consumers. */
  function TakeTimes(log: seq<Event>): seq<real> {
    if log == [] then []
    else
      match log[|log| - 1]
      case Add(_) => TakeTimes(log[..|log| - 1])
      case Take(t) => TakeTimes(log[..|log| - 1]) + [t]
  }

  predicate NonDecreasing(times: seq<real>) {
    |times| < 2 || (times[|times| - 2] <= times[|times| - 1] && NonDecreasing(times[..|times| - 1]))
  }

  /** Every consumer of the history gets what it should. */
  ghost predicate AllAnswered(log: seq<Event>) {
    forall n: nat :: n < |log| && log[n].Take? ==> Answer(Held(log[..n]), log[n].now) == Answer(Outstanding(log[..n]), log[n].now)
  }

  lemma {:induction false} TimesMakeAClock(log: seq<Event>, now: real)
    requires NonDecreasing(TakeTimes(log))
    requires TakeTimes(log) != [] ==> TakeTimes(log)[|TakeTimes(log)| - 1] <= now
    ensures ClockOk(log, now)
  {
    if log != [] {
      var front := log[..|log| - 1];
      match log[|log| - 1]
      case Add(_) => TimesMakeAClock(front, now);
      case Take(t) =>
        assert TakeTimes(log)[..|TakeTimes(log)| - 1] == TakeTimes(front);
        TimesMakeAClock(front, t);
    }
  }

  lemma FrontTimes(log: seq<Event>)
    requires log != [] && NonDecreasing(TakeTimes(log))
    ensures NonDecreasing(TakeTimes(log[..|log| - 1]))
    ensures log[|log| - 1].Take? ==> ClockOk(log[..|log| - 1], log[|log| - 1].now)
  {
    var front, last := log[..|log| - 1], log[|log| - 1];
    if last.Take? {
      assert TakeTimes(log)[..|TakeTimes(log)| - 1] == TakeTimes(front);
      TimesMakeAClock(front, last.now);
    }
  }

  lemma {:induction false} GoodClockAnswers(log: seq<Event>, n: nat)
    requires NonDecreasing(TakeTimes(log)) && n < |log| && log[n].Take?
    ensures Answer(Held(log[..n]), log[n].now) == Answer(Outstanding(log[..n]), log[n].now)
  {
    var front := log[..|log| - 1];
    FrontTimes(log);
    if n == |front| {
      RunThins(front, log[n].now);
      SameAnswer(Held(front), Outstanding(front), log[n].now);
    } else {
      GoodClockAnswers(front, n);
      assert front[n] == log[n] && front[..n] == log[..n];
    }
  }

  lemma GoodClockAnswersAll(log: seq<Event>)
    requires NonDecreasing(TakeTimes(log))
    ensures AllAnswered(log)
  {
    forall n: nat | n < |log| && log[n].Take?
      ensures Answer(Held(log[..n]), log[n].now) == Answer(Outstanding(log[..n]), log[n].now)
    {
      GoodClockAnswers(log, n);
    }
  }

  function Takes(times: seq<real>): seq<Event> {
    if times == [] then [] else Takes(times[..|times| - 1]) + [Take(times[|times| - 1])]
  }

  /** Consumers of an empty queue leave it empty. */
  lemma {:induction false} TakesOnly(times: seq<real>)
    ensures TakeTimes(Takes(times)) == times && Held(Takes(times)) == [] && Outstanding(Takes(times)) == []
  {
    if times != [] {
      TakesOnly(times[..|times| - 1]);
      assert Takes(times)[..|Takes(times)| - 1] == Takes(times[..|times| - 1]);
    }
  }

  lemma {:induction false} TakeTimesConcat(a: seq<Event>, b: seq<Event>)
    ensures TakeTimes(a + b) == TakeTimes(a) + TakeTimes(b)
  {
    if b == [] {
      assert a + b == a;
    } else {
      TakeTimesConcat(a, b[..|b| - 1]);
      assert (a + b)[..|a + b| - 1] == a + b[..|b| - 1];
    }
  }

  lemma {:induction false} FindStepBack(times: seq<real>) returns (i: nat)
    requires !NonDecreasing(times)
    ensures i + 1 < |times| && times[i] > times[i + 1]
  {
    if times[|times| - 2] > times[|times| - 1] {
      i := |times| - 2;
    } else {
      i := FindStepBack(times[..|times| - 1]);
    }
  }

  /** A clarification that just expires for one consumer and is fresh for the next, whose clock is behind. */
  lemma StepBackLoses(before: seq<real>, t: real, now: real, p: Pending)
    requires t > now && p.createdAt == now - 1800.0
    ensures var log := Takes(before) + [Add(p), Take(t)];
            Answer(Held(log), now) == None && Answer(Outstanding(log), now) == Some(p)
  {
    TakesOnly(before);
    var log := Takes(before) + [Add(p), Take(t)];
    var added := Takes(before) + [Add(p)];
    assert log[..|log| - 1] == added && added[..|added| - 1] == Takes(before);
    assert Held(added) == [p] && Outstanding(added) == [p];
    assert FirstFresh([p], t) == 1 + FirstFresh([p][1..], t);
    assert FirstFresh([p], now) == 0;
  }

  /** For any consumer clock readings: every consumer of every history with those
      readings gets what it should exactly when the readings never go back. */
  lemma ClockMustNotGoBack(times: seq<real>)
    ensures (forall log :: TakeTimes(log) == times ==> AllAnswered(log)) <==> NonDecreasing(times)
  {
    if NonDecreasing(times) {
      forall log | TakeTimes(log) == times
        ensures AllAnswered(log)
      {
        GoodClockAnswersAll(log);
      }
    } else {
      var i := FindStepBack(times);
      var lost, log := StepBackLog(times, i);
      MissedIsNotAnswered(log, |lost|);
    }
  }

  lemma MissedIsNotAnswered(log: seq<Event>, n: nat)
    requires n < |log| && log[n].Take?
    requires Answer(Held(log[..n]), log[n].now) != Answer(Outstanding(log[..n]), log[n].now)
    ensures !AllAnswered(log)
  {
  }

  lemma SnocTimes(log: seq<Event>, p: Pending, t: real)
    ensures TakeTimes(log + [Add(p)]) == TakeTimes(log)
    ensures TakeTimes(log + [Take(t)]) == TakeTimes(log) + [t]
  {
    assert (log + [Add(p)])[..|log|] == log && (log + [Take(t)])[..|log|] == log;
  }

  /** A history with the given readings in which a step back loses a clarification. */
  lemma StepBackLog(times: seq<real>, i: nat) returns (lost: seq<Event>, log: seq<Event>)
    requires i + 1 < |times| && times[i] > times[i + 1]
    ensures TakeTimes(log) == times && |lost| < |log| && log[..|lost|] == lost && log[|lost|] == Take(times[i + 1])
    ensures Answer(Held(lost), times[i + 1]) != Answer(Outstanding(lost), times[i + 1])
  {
    var p := Pending("", "", "", "", times[i + 1] - 1800.0);
    var front, rest := Takes(times[..i]), Takes(times[i + 2..]);
    lost := front + [Add(p), Take(times[i])];
    StepBackLoses(times[..i], times[i], times[i + 1], p);
    TakesOnly(times[..i]);
    LostTimes(front, p, times[i]);
    var next := lost + [Take(times[i + 1])];
    SnocTimes(lost, p, times[i + 1]);
    log := next + rest;
    TakesOnly(times[i + 2..]);
    TakeTimesConcat(next, rest);
    Reassembled(times, i);
    InFront(lost, Take(times[i + 1]), rest);
  }

  lemma LostTimes(front: seq<Event>, p: Pending, t: real)
    ensures TakeTimes(front + [Add(p), Take(t)]) == TakeTimes(front) + [t]
  {
    SnocTimes(front, p, 0.0);
    SnocTimes(front + [Add(p)], p, t);
    assert front + [Add(p), Take(t)] == front + [Add(p)] + [Take(t)];
  }

  lemma Reassembled(times: seq<real>, i: nat)
    requires i + 1 < |times|
    ensures times[..i] + [times[i]] + [times[i + 1]] + times[i + 2..] == times
  {
  }

  lemma InFront(lost: seq<Event>, e: Event, rest: seq<Event>)
    ensures var log := lost + [e] + rest; |lost| < |log| && log[..|lost|] == lost && log[|lost|] == e
  {
  }

  /** For two consumers in a row: any step back, however small, can lose a
      clarification that is still fresh for the second one. */
  lemma ClockBackLoses(t: real, now: real)
    ensures (exists p :: Answer(Held([Add(p), Take(t)]), now) != Answer(Outstanding([Add(p), Take(t)]), now))
            <==> t > now
  {
    if t > now {
      var p := Pending("", "", "", "", now - 1800.0);
      StepBackLoses([], t, now, p);
      assert Takes([]) + [Add(p), Take(t)] == [Add(p), Take(t)];
    } else {
      forall p
        ensures Answer(Held([Add(p), Take(t)]), now) == Answer(Outstanding([Add(p), Take(t)]), now)
      {
        var log := [Add(p), Take(t)];
        assert log[..1] == [Add(p)] && [Add(p)][..0] == [];
        assert ClockOk([Add(p)], t) && ClockOk(log, now);
        RunThins(log, now);
        SameAnswer(Held(log), Outstanding(log), now);
      }
    }
  }

  // ---- One clock for both sides -------------------------------------------------------

  /** Whoever acts, producer or consumer, reads the same clock. */
  function Reading(e: Event): real {
    match e
    case Add(p) => p.createdAt
    case Take(t) => t
  }

  function Readings(log: seq<Event>): seq<real> {
    seq(|log|, k requires 0 <= k < |log| => Reading(log[k]))
  }

  /** What was remembered at one reading is stale at a second and fresh again at a third. */
  ghost predicate Revives(times: seq<real>) {
    exists p: nat, i: nat, j: nat ::
      p < i < j < |times| && times[i] - times[p] > 1800.0 && times[j] - times[p] <= 1800.0
  }

  lemma {:induction false} OutstandingWasAdded(log: seq<Event>, p: Pending) returns (k: nat)
    requires p in Outstanding(log)
    ensures k < |log| && log[k] == Add(p)
  {
    var last := |log| - 1;
    if log[last] == Add(p) {
      k := last;
    } else {
      k := OutstandingWasAdded(log[..last], p);
    }
  }

  lemma StaleForGood(log: seq<Event>, n: nat, j: nat, p: Pending)
    requires n < j < |log| && !Revives(Readings(log)) && log[n].Take?
    requires p in Outstanding(log[..n + 1]) && !Fresh(p, log[n].now)
    ensures !Fresh(p, Reading(log[j]))
  {
    var k := OutstandingWasAdded(log[..n + 1], p);
    var times := Readings(log);
    assert times[k] == p.createdAt && times[n] == log[n].now && times[j] == Reading(log[j]);
  }

  /** What was dropped so far is stale at every later reading. */
  lemma {:induction false} PrefixThins(log: seq<Event>, n: nat, j: nat)
    requires n <= j < |log| && !Revives(Readings(log))
    ensures Thinned(Held(log[..n]), Outstanding(log[..n]), Reading(log[j]))
  {
    if n > 0 {
      var last := n - 1;
      assert log[..n][..last] == log[..last];
      match log[last]
      case Add(p) =>
        PrefixThins(log, last, j);
        ThinnedSnoc(Held(log[..last]), Outstanding(log[..last]), Reading(log[j]), p);
      case Take(t) =>
        PrefixThins(log, last, last);
        TakeThins(Held(log[..last]), Outstanding(log[..last]), t);
        forall p | p in Outstanding(log[..n]) && !Fresh(p, t)
          ensures !Fresh(p, Reading(log[j]))
        {
          StaleForGood(log, last, j, p);
        }
        StaysThinned(Held(log[..n]), Outstanding(log[..n]), t, Reading(log[j]));
    }
  }

  const LOST := "lost"

  /** The k-th event of a history with the given readings: consumers of an empty
      queue, then the clarification remembered at `p`, the consumers at `i` and
      `j`, and other clarifications. */
  function StoryEvent(times: seq<real>, p: nat, i: nat, j: nat, k: nat): Event
    requires k < |times|
  {
    if k < p || k == i || k == j then Take(times[k]) else Add(Pending(if k == p then LOST else "", "", "", "", times[k]))
  }

  function Story(times: seq<real>, p: nat, i: nat, j: nat): seq<Event> {
    seq(|times|, k requires 0 <= k < |times| => StoryEvent(times, p, i, j, k))
  }

  lemma StoryFront(times: seq<real>, p: nat, i: nat, j: nat, k: nat)
    requires k < |times|
    ensures var log := Story(times, p, i, j); log[..k + 1][..k] == log[..k] && log[..k + 1][k] == StoryEvent(times, p, i, j, k)
  {
  }

  lemma {:induction false} NothingYet(times: seq<real>, p: nat, i: nat, j: nat, k: nat)
    requires k <= p < |times|
    ensures Held(Story(times, p, i, j)[..k]) == [] && Outstanding(Story(times, p, i, j)[..k]) == []
  {
    if k > 0 {
      StoryFront(times, p, i, j, k - 1);
      NothingYet(times, p, i, j, k - 1);
    }
  }

  /** Until the consumer at `i` comes, the clarification heads the queue and is there once. */
  lemma {:induction false} HeadsTheQueue(times: seq<real>, p: nat, i: nat, j: nat, k: nat)
    requires p < k <= i < j < |times|
    ensures var held := Held(Story(times, p, i, j)[..k]);
            held != [] && held[0] == Pending(LOST, "", "", "", times[p]) && forall q :: q in held[1..] ==> q.threadId != LOST
  {
    StoryFront(times, p, i, j, k - 1);
    if k - 1 == p {
      NothingYet(times, p, i, j, p);
    } else {
      HeadsTheQueue(times, p, i, j, k - 1);
      var held := Held(Story(times, p, i, j)[..k - 1]);
      var other := Pending("", "", "", "", times[k - 1]);
      assert (held + [other])[1..] == held[1..] + [other];
    }
  }

  lemma LeftIsPart(items: seq<Pending>, now: real)
    ensures forall q :: q in Left(items, now) ==> q in items
  {
  }

  /** Afterwards it is gone. */
  lemma {:induction false} GoneAfter(times: seq<real>, p: nat, i: nat, j: nat, k: nat)
    requires p < i < k <= j < |times| && times[i] - times[p] > 1800.0
    ensures forall q :: q in Held(Story(times, p, i, j)[..k]) ==> q.threadId != LOST
  {
    StoryFront(times, p, i, j, k - 1);
    if k - 1 == i {
      HeadsTheQueue(times, p, i, j, i);
      var held := Held(Story(times, p, i, j)[..i]);
      LeftStale(held, times[i]);
      LeftIsPart(held[1..], times[i]);
    } else {
      GoneAfter(times, p, i, j, k - 1);
    }
  }

  /** ... but still owed. */
  lemma {:induction false} StillOwed(times: seq<real>, p: nat, i: nat, j: nat, k: nat)
    requires p < k <= j < |times| && p < i < j && times[i] - times[p] > 1800.0
    ensures var owed := Outstanding(Story(times, p, i, j)[..k]); owed != [] && owed[0] == Pending(LOST, "", "", "", times[p])
  {
    StoryFront(times, p, i, j, k - 1);
    if k - 1 == p {
      NothingYet(times, p, i, j, p);
    } else {
      StillOwed(times, p, i, j, k - 1);
      if k - 1 == i {
        MinusStale(Outstanding(Story(times, p, i, j)[..i]), times[i]);
      }
    }
  }

  lemma ReviveLoses(times: seq<real>, p: nat, i: nat, j: nat)
    requires p < i < j < |times| && times[i] - times[p] > 1800.0 && times[j] - times[p] <= 1800.0
    ensures Readings(Story(times, p, i, j)) == times && !AllAnswered(Story(times, p, i, j))
  {
    var log := Story(times, p, i, j);
    GoneAfter(times, p, i, j, j);
    StillOwed(times, p, i, j, j);
    var owed := Outstanding(log[..j]);
    assert Fresh(owed[0], times[j]) && Answer(owed, times[j]) == Some(owed[0]);
    var answer := Answer(Held(log[..j]), times[j]);
    assert answer.Some? ==> answer.value in Held(log[..j]);
    MissedIsNotAnswered(log, j);
  }

  /** With one clock for producers and consumers, whatever its readings: every
      consumer of every history with those readings gets what it should exactly
      when nothing that expired at one reading is fresh again at a later one. */
  lemma SharedClockIff(times: seq<real>)
    ensures (forall log :: Readings(log) == times ==> AllAnswered(log)) <==> !Revives(times)
  {
    if Revives(times) {
      var p: nat, i: nat, j: nat :|
        p < i < j < |times| && times[i] - times[p] > 1800.0 && times[j] - times[p] <= 1800.0;
      ReviveLoses(times, p, i, j);
    } else {
      forall log: seq<Event> | Readings(log) == times
        ensures AllAnswered(log)
      {
        forall n: nat | n < |log| && log[n].Take?
          ensures Answer(Held(log[..n]), log[n].now) == Answer(Outstanding(log[..n]), log[n].now)
        {
          PrefixThins(log, n, n);
          SameAnswer(Held(log[..n]), Outstanding(log[..n]), log[n].now);
        }
      }
    }
  }

  // ---- Whose clarification it is ---------------------------------------------------------

  /** The message leaves exactly this behind for that chat and user. */
  predicate LeavesBehind(msg: Outbound, card: string, now: real, key: Key, p: Pending) {
    && msg.final && msg.clarifies && msg.chat == key.chat && msg.user == Some(key.user)
    && msg.topic == Some(p.topicId) && p.threadId == msg.threadId && p.threadId != ""
    && (if msg.threadTs.Some? then msg.threadTs == Some(p.sourceId) else msg.messageId == Some(p.sourceId))
    && p.cardId == card && card != "" && p.createdAt == now
  }

  lemma RememberedIff(msg: Outbound, card: string, now: real, key: Key, p: Pending)
    ensures Remembered(msg, card, now) == Some((key, p)) <==> LeavesBehind(msg, card, now, key, p)
  {
  }

  /** What happened to one queue. */
  function EventsOf(ops: seq<Op>, key: Key): seq<Event> {
    if ops == [] then []
    else
      var before := EventsOf(ops[..|ops| - 1], key);
      match ops[|ops| - 1]
      case Recall(msg, card, now) =>
        var r := Remembered(msg, card, now);
        if r.Some? && r.value.0 == key then before + [Add(r.value.1)] else before
      case Ask(k, now) => if k == key then before + [Take(now)] else before
  }

  /** Each chat and user has a queue of its own. */
  lemma {:induction false} QueueIsHeld(ops: seq<Op>, key: Key)
    ensures Queue(ops, key) == Held(EventsOf(ops, key))
  {
    if ops != [] {
      QueueIsHeld(ops[..|ops| - 1], key);
      var before, after := EventsOf(ops[..|ops| - 1], key), EventsOf(ops, key);
      if after != before {
        assert after[..|after| - 1] == before;
      }
    }
  }

  /** What a queue holds was left behind by an earlier message of its own chat and user. */
  lemma {:induction false} QueuedWasRemembered(ops: seq<Op>, key: Key, p: Pending) returns (i: nat)
    requires p in Queue(ops, key)
    ensures i < |ops| && ops[i].Recall? && LeavesBehind(ops[i].msg, ops[i].card, ops[i].now, key, p)
  {
    var front, op := ops[..|ops| - 1], ops[|ops| - 1];
    if p in Queue(front, key) {
      i := QueuedWasRemembered(front, key, p);
    } else if op.Recall? {
      RememberedIff(op.msg, op.card, op.now, key, p);
      i := |front|;
    } else {
      LeftIsPart(Queue(front, key), op.now);
      assert false;
    }
  }

  /** Over any operations on any chats and users: whatever a consumer is handed
      was left behind by an earlier message to its own chat and user, at most half
      an hour before. */
  lemma AnswerIsOwn(ops: seq<Op>, key: Key, now: real) returns (i: nat)
    requires Answer(Queue(ops, key), now).Some?
    ensures var p := Answer(Queue(ops, key), now).value;
            && now - p.createdAt <= 1800.0
            && i < |ops| && ops[i].Recall? && LeavesBehind(ops[i].msg, ops[i].card, ops[i].now, key, p)
  {
    var items := Queue(ops, key);
    var p := Answer(items, now).value;
    assert items[FirstFresh(items, now)] == p;
    i := QueuedWasRemembered(ops, key, p);
  }
}
