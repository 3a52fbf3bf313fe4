/** Batching of inbound Feishu files. */
module FeishuBatching {
  import opened Wrappers
  import opened Sequences

  // Batching of inbound file messages in the Feishu adapter
  // (backend/app/channels/feishu.py). The lark thread queues messages under a lock
  // and then schedules work on the main loop; timers on the main loop flush
  // batches. The main loop is taken to be running.

  const WINDOW_SECONDS: real := 0.75

  datatype Key = Key(chat: string, user: string)

  /** A batchable message carries one placeholder text and one file. */
  datatype Msg = Msg(id: string, key: Key, text: string, file: string)

  datatype Inbound = Inbound(text: string, files: seq<string>, batchedIds: seq<string>)

  datatype Batch = Batch(key: Key, anchor: string, createdAt: real, inbound: Inbound,
                         messageIds: seq<string>, textParts: seq<string>)

  /** `"\n\n".join(part for part in parts if part)` */
  function JoinParts(parts: seq<string>): string {
    if parts == [] then ""
    else
      var before := JoinParts(parts[..|parts| - 1]);
      var last := parts[|parts| - 1];
      if last == "" then before else if before == "" then last else before + "\n\n" + last
  }

  function Opened(m: Msg, now: real): Batch {
    Batch(m.key, m.id, now, Inbound(m.text, [m.file], [m.id]), [m.id], [m.text])
  }

  function Extended(b: Batch, m: Msg): Batch {
    var ids, parts := b.messageIds + [m.id], b.textParts + [m.text];
    b.(messageIds := ids, textParts := parts,
       inbound := Inbound(JoinParts(parts), b.inbound.files + [m.file], ids))
  }

  predicate InWindow(b: Batch, now: real) {
    now - b.createdAt <= WINDOW_SECONDS
  }

  predicate Joins(pending: map<Key, Batch>, m: Msg, now: real) {
    m.key in pending && InWindow(pending[m.key], now)
  }

  /** The pending batches after the locked part of queueing `m`. */
  function Queued(pending: map<Key, Batch>, m: Msg, now: real): map<Key, Batch> {
    pending[m.key := if Joins(pending, m, now) then Extended(pending[m.key], m) else Opened(m, now)]
  }

  /** The batch that queueing `m` replaces because its window has passed. */
  function Replaced(pending: map<Key, Batch>, m: Msg, now: real): Option<Batch> {
    if m.key in pending && !InWindow(pending[m.key], now) then Some(pending[m.key]) else None
  }

  /** The batch a timer for `anchor` would take. */
  function Taken(pending: map<Key, Batch>, key: Key, anchor: string): Option<Batch> {
    if key in pending && pending[key].anchor == anchor then Some(pending[key]) else None
  }

  // ---- The two threads -----------------------------------------------------------

  /** Where the lark thread is: between messages, or about to schedule the flush
      timer of a new batch, or about to hand over a replaced batch. */
  datatype Lark =
    | Idle
    | Scheduling(key: Key, anchor: string, expired: Option<Batch>)
    | Handing(batch: Batch)

  datatype State = State(
    pending: map<Key, Batch>,
    lark: Lark,
    timers: multiset<(Key, string)>, // outstanding flush timers
    preparing: seq<Batch>,           // batches handed to `_prepare_inbound`
    published: seq<Batch>,           // batches published to the bus
    lost: seq<Batch>,                // batches whose preparation failed
    arrivals: seq<Msg>,              // history: queued messages
    closed: seq<Batch>)              // history: batches in the order they left `pending`

  const Init := State(map[], Idle, multiset{}, [], [], [], [], [])

  datatype Action =
    | Queue(msg: Msg, now: real)
    | ScheduleFlush
    | HandOver
    | Fire(key: Key, anchor: string)
    | Publish(i: nat)
    | Lose(i: nat) // `_prepare_inbound` raises or is cancelled before it publishes

  predicate Enabled(s: State, a: Action) {
    match a
    case Queue(_, _) => s.lark.Idle?
    case ScheduleFlush => s.lark.Scheduling?
    case HandOver => s.lark.Handing?
    case Fire(key, anchor) => (key, anchor) in s.timers
    case Publish(i) => i < |s.preparing|
    case Lose(i) => i < |s.preparing|
  }

  function Step(s: State, a: Action): State
    requires Enabled(s, a)
  {
    match a
    case Queue(m, now) =>
      var expired := Replaced(s.pending, m, now);
      s.(pending := Queued(s.pending, m, now),
         arrivals := s.arrivals + [m],
         lark := if Joins(s.pending, m, now) then Idle else Scheduling(m.key, m.id, expired),
         closed := if expired.Some? then s.closed + [expired.value] else s.closed)
    case ScheduleFlush =>
      s.(timers := s.timers + multiset{(s.lark.key, s.lark.anchor)},
         lark := if s.lark.expired.Some? then Handing(s.lark.expired.value) else Idle)
    case HandOver => s.(preparing := s.preparing + [s.lark.batch], lark := Idle)
    case Fire(key, anchor) =>
      var taken := Taken(s.pending, key, anchor);
      var s' := s.(timers := s.timers - multiset{(key, anchor)});
      if taken.None? then s'
      else s'.(pending := s.pending - {key}, preparing := s.preparing + [taken.value], closed := s.closed + [taken.value])
    case Publish(i) =>
      s.(preparing := s.preparing[..i] + s.preparing[i + 1..], published := s.published + [s.preparing[i]])
    case Lose(i) =>
      s.(preparing := s.preparing[..i] + s.preparing[i + 1..], lost := s.lost + [s.preparing[i]])
  }

  function After(run: seq<Action>): Option<State> {
    if run == [] then Some(Init)
    else
      var before := After(run[..|run| - 1]);
      if before.Some? && Enabled(before.value, run[|run| - 1]) then Some(Step(before.value, run[|run| - 1])) else None
  }

  // ---- The invariant -------------------------------------------------------------

  datatype Entry = Entry(id: string, text: string, file: string)

  /** A batch publishes its ids, its joined texts and one file per message. */
  ghost predicate BatchOk(b: Batch) {
    && |b.messageIds| == |b.textParts| == |b.inbound.files| > 0
    && b.anchor == b.messageIds[0]
    && b.inbound.batchedIds == b.messageIds
    && b.inbound.text == JoinParts(b.textParts)
  }

  /** The messages of a batch, as published. */
  ghost function Entries(b: Batch): seq<Entry>
    requires BatchOk(b)
  {
    seq(|b.messageIds|, i requires 0 <= i < |b.messageIds| => Entry(b.messageIds[i], b.textParts[i], b.inbound.files[i]))
  }

  ghost predicate AllOk(batches: seq<Batch>) {
    forall i :: 0 <= i < |batches| ==> BatchOk(batches[i])
  }

  /** The messages of the given batches of one conversation, one after another. */
  ghost function Flat(batches: seq<Batch>, key: Key): seq<Entry>
    requires AllOk(batches)
  {
    if batches == [] then []
    else
      var last := batches[|batches| - 1];
      Flat(batches[..|batches| - 1], key) + (if last.key == key then Entries(last) else [])
  }

  ghost function ArrivalsOf(arrivals: seq<Msg>, key: Key): seq<Entry> {
    if arrivals == [] then []
    else
      var m := arrivals[|arrivals| - 1];
      ArrivalsOf(arrivals[..|arrivals| - 1], key) + (if m.key == key then [Entry(m.id, m.text, m.file)] else [])
  }

  ghost predicate PendingOk(s: State) {
    forall k :: k in s.pending ==> s.pending[k].key == k && BatchOk(s.pending[k])
  }

  ghost function Waiting(s: State, key: Key): seq<Entry>
    requires PendingOk(s)
  {
    if key in s.pending then Entries(s.pending[key]) else []
  }

  /** Closed batches and the pending one cut the arrivals of a conversation into consecutive pieces. */
  ghost predicate Partitioned(s: State) {
    && PendingOk(s) && AllOk(s.closed)
    && forall key :: ArrivalsOf(s.arrivals, key) == Flat(s.closed, key) + Waiting(s, key)
  }

  ghost function Held(lark: Lark): multiset<Batch> {
    if lark.Handing? then multiset{lark.batch}
    else if lark.Scheduling? && lark.expired.Some? then multiset{lark.expired.value}
    else multiset{}
  }

  /** Each closed batch is in exactly one place. */
  ghost predicate Conserved(s: State) {
    multiset(s.closed) == multiset(s.preparing) + multiset(s.published) + multiset(s.lost) + Held(s.lark)
  }

  /** Every pending batch has a timer with its anchor, or the lark thread is just about to set it. */
  ghost predicate Timed(s: State) {
    forall k :: k in s.pending ==>
      (k, s.pending[k].anchor) in s.timers || (s.lark.Scheduling? && s.lark.key == k && s.lark.anchor == s.pending[k].anchor)
  }

  ghost predicate Inv(s: State) {
    Partitioned(s) && Conserved(s) && Timed(s)
  }

  lemma FlatSnoc(batches: seq<Batch>, b: Batch, key: Key)
    requires AllOk(batches) && BatchOk(b)
    ensures AllOk(batches + [b])
    ensures Flat(batches + [b], key) == Flat(batches, key) + (if b.key == key then Entries(b) else [])
  {
    assert (batches + [b])[..|batches|] == batches;
  }

  lemma ArrivalsSnoc(arrivals: seq<Msg>, m: Msg, key: Key)
    ensures ArrivalsOf(arrivals + [m], key)
            == ArrivalsOf(arrivals, key) + (if m.key == key then [Entry(m.id, m.text, m.file)] else [])
  {
    assert (arrivals + [m])[..|arrivals|] == arrivals;
  }

  lemma OpenedOk(m: Msg, now: real)
    ensures BatchOk(Opened(m, now)) && Entries(Opened(m, now)) == [Entry(m.id, m.text, m.file)]
  {
    assert [m.text][..0] == [];
    assert JoinParts([m.text]) == m.text;
  }

  lemma ExtendedOk(b: Batch, m: Msg)
    requires BatchOk(b)
    ensures BatchOk(Extended(b, m)) && Entries(Extended(b, m)) == Entries(b) + [Entry(m.id, m.text, m.file)]
  {
  }

  lemma QueueKeepsPending(s: State, m: Msg, now: real)
    requires PendingOk(s) && AllOk(s.closed) && s.lark.Idle?
    ensures PendingOk(Step(s, Queue(m, now))) && AllOk(Step(s, Queue(m, now)).closed)
  {
    OpenedOk(m, now);
    if Joins(s.pending, m, now) {
      ExtendedOk(s.pending[m.key], m);
    }
  }

  lemma QueueKeepsOtherKey(s: State, m: Msg, now: real, key: Key)
    requires Partitioned(s) && s.lark.Idle? && key != m.key
    requires PendingOk(Step(s, Queue(m, now))) && AllOk(Step(s, Queue(m, now)).closed)
    ensures var s' := Step(s, Queue(m, now));
            ArrivalsOf(s'.arrivals, key) == Flat(s'.closed, key) + Waiting(s', key)
  {
    var s' := Step(s, Queue(m, now));
    ArrivalsSnoc(s.arrivals, m, key);
    if Replaced(s.pending, m, now).Some? {
      FlatSnoc(s.closed, s.pending[m.key], key);
    }
    assert Waiting(s', key) == Waiting(s, key);
  }

  lemma JoinKeepsKey(s: State, m: Msg, now: real)
    requires Partitioned(s) && s.lark.Idle? && Joins(s.pending, m, now)
    requires PendingOk(Step(s, Queue(m, now))) && AllOk(Step(s, Queue(m, now)).closed)
    ensures var s' := Step(s, Queue(m, now));
            ArrivalsOf(s'.arrivals, m.key) == Flat(s'.closed, m.key) + Waiting(s', m.key)
  {
    var s' := Step(s, Queue(m, now));
    var last := [Entry(m.id, m.text, m.file)];
    ArrivalsSnoc(s.arrivals, m, m.key);
    ExtendedOk(s.pending[m.key], m);
    assert s'.closed == s.closed && s'.arrivals == s.arrivals + [m];
    assert Waiting(s', m.key) == Waiting(s, m.key) + last;
    Regroup(Flat(s.closed, m.key), Waiting(s, m.key), last);
  }

  lemma Regroup(a: seq<Entry>, b: seq<Entry>, c: seq<Entry>)
    ensures a + (b + c) == a + b + c
  {
  }

  lemma OpenKeepsKey(s: State, m: Msg, now: real)
    requires Partitioned(s) && s.lark.Idle? && !Joins(s.pending, m, now)
    requires PendingOk(Step(s, Queue(m, now))) && AllOk(Step(s, Queue(m, now)).closed)
    ensures var s' := Step(s, Queue(m, now));
            ArrivalsOf(s'.arrivals, m.key) == Flat(s'.closed, m.key) + Waiting(s', m.key)
  {
    ArrivalsSnoc(s.arrivals, m, m.key);
    OpenedOk(m, now);
    if m.key in s.pending {
      FlatSnoc(s.closed, s.pending[m.key], m.key);
    }
  }

  lemma QueueKeepsKey(s: State, m: Msg, now: real, key: Key)
    requires Partitioned(s) && s.lark.Idle?
    requires PendingOk(Step(s, Queue(m, now))) && AllOk(Step(s, Queue(m, now)).closed)
    ensures var s' := Step(s, Queue(m, now));
            ArrivalsOf(s'.arrivals, key) == Flat(s'.closed, key) + Waiting(s', key)
  {
    if key != m.key {
      QueueKeepsOtherKey(s, m, now, key);
    } else if Joins(s.pending, m, now) {
      JoinKeepsKey(s, m, now);
    } else {
      OpenKeepsKey(s, m, now);
    }
  }

  lemma QueueKeepsPartition(s: State, m: Msg, now: real)
    requires Partitioned(s) && s.lark.Idle?
    ensures Partitioned(Step(s, Queue(m, now)))
  {
    QueueKeepsPending(s, m, now);
    forall key
      ensures var s' := Step(s, Queue(m, now)); ArrivalsOf(s'.arrivals, key) == Flat(s'.closed, key) + Waiting(s', key)
    {
      QueueKeepsKey(s, m, now, key);
    }
  }

  lemma FireKeepsPartition(s: State, key: Key, anchor: string)
    requires Partitioned(s) && Enabled(s, Fire(key, anchor))
    ensures Partitioned(Step(s, Fire(key, anchor)))
  {
    var s' := Step(s, Fire(key, anchor));
    if Taken(s.pending, key, anchor).Some? {
      forall k
        ensures AllOk(s'.closed)
        ensures ArrivalsOf(s'.arrivals, k) == Flat(s'.closed, k) + Waiting(s', k)
      {
        FlatSnoc(s.closed, s.pending[key], k);
      }
    }
  }

  lemma Snoc(batches: seq<Batch>, b: Batch)
    ensures multiset(batches + [b]) == multiset(batches) + multiset{b}
  {
  }

  lemma CutOut(batches: seq<Batch>, i: nat)
    requires i < |batches|
    ensures multiset(batches) == multiset(batches[..i] + batches[i + 1..]) + multiset{batches[i]}
  {
    assert batches == batches[..i] + [batches[i]] + batches[i + 1..];
  }

  lemma QueueKeepsConserved(s: State, m: Msg, now: real)
    requires Conserved(s) && s.lark.Idle?
    ensures Conserved(Step(s, Queue(m, now)))
  {
    var expired := Replaced(s.pending, m, now);
    if expired.Some? {
      Snoc(s.closed, expired.value);
    }
  }

  lemma FireKeepsConserved(s: State, key: Key, anchor: string)
    requires Conserved(s) && Enabled(s, Fire(key, anchor))
    ensures Conserved(Step(s, Fire(key, anchor)))
  {
    var taken := Taken(s.pending, key, anchor);
    if taken.Some? {
      Snoc(s.closed, taken.value);
      Snoc(s.preparing, taken.value);
    }
  }

  lemma PublishKeepsConserved(s: State, i: nat)
    requires Conserved(s) && i < |s.preparing|
    ensures Conserved(Step(s, Publish(i)))
  {
    CutOut(s.preparing, i);
    Snoc(s.published, s.preparing[i]);
  }

  lemma LoseKeepsConserved(s: State, i: nat)
    requires Conserved(s) && i < |s.preparing|
    ensures Conserved(Step(s, Lose(i)))
  {
    CutOut(s.preparing, i);
    Snoc(s.lost, s.preparing[i]);
  }

  lemma StepKeepsConserved(s: State, a: Action)
    requires Conserved(s) && Enabled(s, a)
    ensures Conserved(Step(s, a))
  {
    match a
    case Queue(m, now) => QueueKeepsConserved(s, m, now);
    case ScheduleFlush =>
    case HandOver => Snoc(s.preparing, s.lark.batch);
    case Fire(key, anchor) => FireKeepsConserved(s, key, anchor);
    case Publish(i) => PublishKeepsConserved(s, i);
    case Lose(i) => LoseKeepsConserved(s, i);
  }

  lemma StepKeepsTimed(s: State, a: Action)
    requires Timed(s) && PendingOk(s) && Enabled(s, a)
    ensures Timed(Step(s, a))
  {
    if a.Queue? {
      QueueKeepsTimed(s, a.msg, a.now);
    } else if a.Fire? {
      FireKeepsTimed(s, a.key, a.anchor);
    }
  }

  lemma QueueKeepsTimed(s: State, m: Msg, now: real)
    requires Timed(s) && PendingOk(s) && s.lark.Idle?
    ensures Timed(Step(s, Queue(m, now)))
  {
  }

  lemma FireKeepsTimed(s: State, key: Key, anchor: string)
    requires Timed(s) && (key, anchor) in s.timers
    ensures Timed(Step(s, Fire(key, anchor)))
  {
  }

  /** Only queueing and firing touch what the partition speaks of. */
  lemma PartitionUnmoved(s: State, s': State)
    requires Partitioned(s) && s'.pending == s.pending && s'.arrivals == s.arrivals && s'.closed == s.closed
    ensures Partitioned(s')
  {
    forall key
      ensures ArrivalsOf(s'.arrivals, key) == Flat(s'.closed, key) + Waiting(s', key)
    {
      assert Waiting(s', key) == Waiting(s, key);
    }
  }

  lemma StepKeepsPartition(s: State, a: Action)
    requires Partitioned(s) && Enabled(s, a)
    ensures Partitioned(Step(s, a))
  {
    if a.Queue? {
      QueueKeepsPartition(s, a.msg, a.now);
    } else if a.Fire? {
      FireKeepsPartition(s, a.key, a.anchor);
    } else {
      PartitionUnmoved(s, Step(s, a));
    }
  }

  lemma StepKeepsInv(s: State, a: Action)
    requires Inv(s) && Enabled(s, a)
    ensures Inv(Step(s, a))
  {
    StepKeepsConserved(s, a);
    StepKeepsTimed(s, a);
    StepKeepsPartition(s, a);
  }

  lemma {:induction false} RunKeepsInv(run: seq<Action>)
    requires After(run).Some?
    ensures Inv(After(run).value)
  {
    if run != [] {
      RunKeepsInv(run[..|run| - 1]);
      StepKeepsInv(After(run[..|run| - 1]).value, run[|run| - 1]);
    }
  }

  lemma QueueStep(s: State, m: Msg, now: real)
    requires Inv(s) && s.lark.Idle?
    ensures var s' := Step(s, Queue(m, now));
            && Inv(s') && s'.pending == Queued(s.pending, m, now)
            && (!Joins(s.pending, m, now) ==> s'.lark == Scheduling(m.key, m.id, Replaced(s.pending, m, now)))
  {
    StepKeepsInv(s, Queue(m, now));
  }

  // ---- What queueing a message means -------------------------------------------------

  /** Two texts with a blank line between them, unless one is empty. */
  function Glued(a: string, b: string): string {
    if a == "" then b else if b == "" then a else a + "\n\n" + b
  }

  /** `b'` is the batch `b` with one message more. */
  predicate GainsMessage(b: Batch, b': Batch, m: Msg) {
    && b'.key == b.key && b'.anchor == b.anchor && b'.createdAt == b.createdAt
    && b'.messageIds == b.messageIds + [m.id] && b'.textParts == b.textParts + [m.text]
    && b'.inbound == Inbound(Glued(b.inbound.text, m.text), b.inbound.files + [m.file], b.messageIds + [m.id])
  }

  /** `b` holds that one message. */
  predicate HoldsOnly(b: Batch, m: Msg, now: real) {
    && b.key == m.key && b.anchor == m.id && b.createdAt == now
    && b.messageIds == [m.id] && b.textParts == [m.text] && b.inbound == Inbound(m.text, [m.file], [m.id])
  }

  /** The conversation's batch was opened at most three quarters of a second ago. */
  predicate BatchIsYoung(pending: map<Key, Batch>, key: Key, now: real) {
    key in pending && now - pending[key].createdAt <= 0.75
  }

  lemma JoinPartsSnoc(parts: seq<string>, text: string)
    ensures JoinParts(parts + [text]) == Glued(JoinParts(parts), text)
  {
    assert (parts + [text])[..|parts|] == parts;
  }

  lemma QueuedIs(pending: map<Key, Batch>, m: Msg, now: real)
    requires m.key in pending ==> pending[m.key].key == m.key && BatchOk(pending[m.key])
    ensures Joins(pending, m, now) <==> BatchIsYoung(pending, m.key, now)
    ensures var after := Queued(pending, m, now);
            && after == pending[m.key := after[m.key]]
            && (if BatchIsYoung(pending, m.key, now) then GainsMessage(pending[m.key], after[m.key], m)
                else HoldsOnly(after[m.key], m, now))
    ensures Replaced(pending, m, now)
            == if m.key in pending && !BatchIsYoung(pending, m.key, now) then Some(pending[m.key]) else None
  {
    if m.key in pending {
      JoinPartsSnoc(pending[m.key].textParts, m.text);
    }
  }

  // ---- The adapter's dictionary ----------------------------------------------------

  /** The dictionary of pending batches, updated in place under the thread lock.
      `state` is the protocol state that the methods take one step further. */
  class Batches {
    var pending: map<Key, Batch>
    ghost var state: State

    ghost predicate Valid()
      reads this
    {
      pending == state.pending && Inv(state)
    }

    constructor ()
      ensures Valid() && pending == map[] && state == Init
    {
      pending, state := map[], Init;
    }

    /** The locked part of `_queue_file_inbound_batch`. */
    method Queue(m: Msg, now: real) returns (scheduleFlush: bool, expired: Option<Batch>)
      requires Valid() && state.lark.Idle?
      modifies this
      ensures Valid() && state == Step(old(state), Action.Queue(m, now))
      ensures scheduleFlush ==> state.lark == Scheduling(m.key, m.id, expired)
      ensures scheduleFlush == !BatchIsYoung(old(pending), m.key, now)
      ensures m.key in pending && pending == old(pending)[m.key := pending[m.key]]
      ensures if scheduleFlush then HoldsOnly(pending[m.key], m, now) else GainsMessage(old(pending)[m.key], pending[m.key], m)
      ensures expired == if scheduleFlush && m.key in old(pending) then Some(old(pending)[m.key]) else None
    {
      QueueStep(state, m, now);
      QueuedIs(pending, m, now);
      state := Step(state, Action.Queue(m, now));
      expired := None;
      if m.key in pending {
        var batch := pending[m.key];
        if now - batch.createdAt <= WINDOW_SECONDS {
          var ids := batch.messageIds + [m.id];
          var parts := batch.textParts + [m.text];
          var inbound := Inbound(JoinParts(parts), batch.inbound.files + [m.file], ids);
          pending := pending[m.key := Batch(batch.key, batch.anchor, batch.createdAt, inbound, ids, parts)];
          return false, None;
        }
        expired := Some(batch);
      }
      pending := pending[m.key := Batch(m.key, m.id, now, Inbound(m.text, [m.file], [m.id]), [m.id], [m.text])];
      scheduleFlush := true;
    }

    /** `_pop_pending_inbound_batch` */
    method Pop(key: Key, anchor: Option<string>) returns (batch: Option<Batch>)
      modifies this`pending
      ensures anchor.Some? ==> batch == Taken(old(pending), key, anchor.value)
      ensures anchor.None? ==> batch == if key in old(pending) then Some(old(pending)[key]) else None
      ensures pending == if batch.Some? then old(pending) - {key} else old(pending)
    {
      if key !in pending {
        return None;
      }
      if anchor.Some? && pending[key].anchor != anchor.value {
        return None;
      }
      batch := Some(pending[key]);
      pending := pending - {key};
    }

    /** `_flush_pending_inbound_batch_after`, when its sleep is over: the batch to prepare, if any. */
    method Flush(key: Key, anchor: string) returns (batch: Option<Batch>)
      requires Valid() && Enabled(state, Fire(key, anchor))
      modifies this
      ensures Valid() && state == Step(old(state), Fire(key, anchor))
      ensures batch == Taken(old(pending), key, anchor)
      ensures state.preparing == old(state.preparing) + if batch.Some? then [batch.value] else []
    {
      StepKeepsInv(state, Fire(key, anchor));
      state := Step(state, Fire(key, anchor));
      batch := Pop(key, Some(anchor));
    }
  }

  // ---- The results ---------------------------------------------------------------

  /** While the lark thread is between messages, every pending batch has an
      outstanding timer carrying its anchor. */
  lemma EveryBatchHasItsTimer(run: seq<Action>, key: Key)
    requires After(run).Some? && After(run).value.lark.Idle? && key in After(run).value.pending
    ensures (key, After(run).value.pending[key].anchor) in After(run).value.timers
  {
    RunKeepsInv(run);
  }

  ghost predicate DistinctIds(entries: seq<Entry>) {
    DistinctBy(entries, (e: Entry) => e.id)
  }

  /** The anchor of a closed batch is the id of one of its conversation's closed messages. */
  lemma {:induction false} AnchorIsFlat(batches: seq<Batch>, i: nat, key: Key) returns (p: nat)
    requires AllOk(batches) && i < |batches| && batches[i].key == key
    ensures p < |Flat(batches, key)| && Flat(batches, key)[p].id == batches[i].anchor
  {
    var front := batches[..|batches| - 1];
    if i < |front| {
      p := AnchorIsFlat(front, i, key);
    } else {
      p := |Flat(front, key)|;
      assert Entries(batches[i])[0].id == batches[i].anchor;
    }
  }

  /** When message ids do not repeat, a timer left over from a batch that was
      replaced or already flushed does nothing but disappear. */
  lemma StaleTimerDoesNothing(run: seq<Action>, i: nat)
    requires After(run).Some?
    requires forall key :: DistinctIds(ArrivalsOf(After(run).value.arrivals, key))
    requires i < |After(run).value.closed|
    requires Enabled(After(run).value, Fire(After(run).value.closed[i].key, After(run).value.closed[i].anchor))
    ensures var s := After(run).value;
            var (key, anchor) := (s.closed[i].key, s.closed[i].anchor);
            Step(s, Fire(key, anchor)) == s.(timers := s.timers - multiset{(key, anchor)})
  {
    RunKeepsInv(run);
    var s := After(run).value;
    var (key, anchor) := (s.closed[i].key, s.closed[i].anchor);
    if key in s.pending {
      var p := AnchorIsFlat(s.closed, i, key);
      var flat, waiting := Flat(s.closed, key), Entries(s.pending[key]);
      assert waiting[0].id == s.pending[key].anchor;
      assert (flat + waiting)[p] == flat[p] && (flat + waiting)[|flat|] == waiting[0];
    }
  }

  // ---- When a left-over timer can still do something --------------------------------

  /** Timers of closed batches only disappear. */
  ghost predicate StaleTimersInert(s: State) {
    forall i :: 0 <= i < |s.closed| && (s.closed[i].key, s.closed[i].anchor) in s.timers ==>
      Step(s, Fire(s.closed[i].key, s.closed[i].anchor)) == s.(timers := s.timers - multiset{(s.closed[i].key, s.closed[i].anchor)})
  }

  /** No conversation sees a message id twice. */
  ghost predicate NoRedelivery(ms: seq<Msg>) {
    forall i, j :: 0 <= i < j < |ms| && ms[i].key == ms[j].key ==> ms[i].id != ms[j].id
  }

  lemma {:induction false} ArrivalsAreMessages(ms: seq<Msg>, key: Key)
    ensures forall e :: e in ArrivalsOf(ms, key) ==> exists i :: 0 <= i < |ms| && ms[i].key == key && ms[i].id == e.id
  {
    if ms != [] {
      var front := ms[..|ms| - 1];
      ArrivalsAreMessages(front, key);
      forall e | e in ArrivalsOf(ms, key)
        ensures exists i :: 0 <= i < |ms| && ms[i].key == key && ms[i].id == e.id
      {
        if e in ArrivalsOf(front, key) {
          var i :| 0 <= i < |front| && front[i].key == key && front[i].id == e.id;
          assert ms[i] == front[i];
        }
      }
    }
  }

  lemma {:induction false} DistinctArrivals(ms: seq<Msg>, key: Key)
    requires NoRedelivery(ms)
    ensures DistinctIds(ArrivalsOf(ms, key))
  {
    if ms != [] {
      var front, last := ms[..|ms| - 1], ms[|ms| - 1];
      DistinctArrivals(front, key);
      ArrivalsAreMessages(front, key);
      var before := ArrivalsOf(front, key);
      forall i | 0 <= i < |before| && last.key == key
        ensures before[i].id != last.id
      {
        assert before[i] in before;
      }
    }
  }

  lemma AfterSnoc(run: seq<Action>, s: State, a: Action)
    requires After(run) == Some(s) && Enabled(s, a)
    ensures After(run + [a]) == Some(Step(s, a))
  {
    assert (run + [a])[..|run|] == run;
  }

  /** A message whose conversation has no batch in its window. */
  lemma QueueOpens(run: seq<Action>, s: State, m: Msg, now: real) returns (run': seq<Action>, s': State)
    requires After(run) == Some(s) && s.lark.Idle? && !Joins(s.pending, m, now)
    ensures After(run') == Some(s') && OpensInto(s, s', m, now)
  {
    AfterSnoc(run, s, Queue(m, now));
    run', s' := run + [Queue(m, now)], Step(s, Queue(m, now));
    AfterSnoc(run', s', ScheduleFlush);
    run', s' := run' + [ScheduleFlush], Step(s', ScheduleFlush);
    if s'.lark.Handing? {
      AfterSnoc(run', s', HandOver);
      run', s' := run' + [HandOver], Step(s', HandOver);
    }
  }

  /** The message's batch was opened at time `k` and is still there, its timer too. */
  ghost predicate Left(s: State, m: Msg, k: nat) {
    && m.key in s.pending
    && (Opened(m, k as real) in s.closed || s.pending[m.key] == Opened(m, k as real))
    && (m.key, m.id) in s.timers
  }

  /** The first `n` messages came a second apart: each opened a batch of its own. */
  ghost predicate SecondsApart(s: State, ms: seq<Msg>, n: nat) {
    && n <= |ms| && s.lark.Idle? && s.arrivals == ms[..n]
    && (forall key :: key in s.pending ==> s.pending[key].createdAt <= n as real - 1.0)
    && (forall k: nat {:trigger Left(s, ms[k], k)} :: k < n ==> Left(s, ms[k], k))
    && (n > 0 ==> ms[n - 1].key in s.pending && s.pending[ms[n - 1].key] == Opened(ms[n - 1], (n - 1) as real))
  }

  lemma NextOpens(s: State, ms: seq<Msg>, n: nat)
    requires SecondsApart(s, ms, n) && n < |ms|
    ensures !Joins(s.pending, ms[n], n as real)
  {
  }

  /** `s` is `t` after another message has opened a batch. */
  ghost predicate OpensInto(t: State, s: State, m: Msg, now: real) {
    && s.lark.Idle? && s.arrivals == t.arrivals + [m]
    && s.pending == t.pending[m.key := Opened(m, now)]
    && s.timers == t.timers + multiset{(m.key, m.id)}
    && s.closed == t.closed + if m.key in t.pending then [t.pending[m.key]] else []
  }

  lemma OneSecondLater(t: State, s: State, ms: seq<Msg>, n: nat)
    requires SecondsApart(t, ms, n) && n < |ms| && OpensInto(t, s, ms[n], n as real)
    ensures SecondsApart(s, ms, n + 1)
  {
    assert ms[..n + 1] == ms[..n] + [ms[n]];
    forall k: nat | k < n + 1
      ensures Left(s, ms[k], k)
    {
      if k < n {
        assert Left(t, ms[k], k);
        OpenKeepsLeft(t, s, ms[n], n as real, ms[k], k);
      }
    }
  }

  lemma {:induction false} SecondApart(ms: seq<Msg>, n: nat) returns (run: seq<Action>, s: State)
    requires n <= |ms|
    ensures After(run) == Some(s) && SecondsApart(s, ms, n)
  {
    if n == 0 {
      run, s := [], Init;
    } else {
      var before, t := SecondApart(ms, n - 1);
      NextOpens(t, ms, n - 1);
      run, s := QueueOpens(before, t, ms[n - 1], (n - 1) as real);
      OneSecondLater(t, s, ms, n - 1);
    }
  }

  lemma OpenKeepsLeft(t: State, s: State, m: Msg, now: real, earlier: Msg, k: nat)
    requires Left(t, earlier, k) && OpensInto(t, s, m, now)
    ensures Left(s, earlier, k)
  {
    if Opened(earlier, k as real) in t.closed {
      assert Opened(earlier, k as real) in s.closed;
    } else if earlier.key == m.key {
      assert s.closed[|t.closed|] == t.pending[m.key];
    }
  }

  lemma RedeliveryFires(ms: seq<Msg>, i: nat, j: nat) returns (run: seq<Action>, s: State)
    requires i < j < |ms| && ms[i].key == ms[j].key && ms[i].id == ms[j].id
    ensures After(run) == Some(s) && s.arrivals <= ms && !StaleTimersInert(s)
  {
    var n := j + 1;
    run, s := SecondApart(ms, n);
    ArrivalsAreFront(s, ms, n);
    RedeliveryIsStale(s, ms, i, j, n);
  }

  lemma ArrivalsAreFront(s: State, ms: seq<Msg>, n: nat)
    requires SecondsApart(s, ms, n)
    ensures s.arrivals <= ms
  {
  }

  lemma RedeliveryIsStale(s: State, ms: seq<Msg>, i: nat, j: nat, n: nat)
    requires i < j < |ms| && ms[i].key == ms[j].key && ms[i].id == ms[j].id && n == j + 1 && SecondsApart(s, ms, n)
    ensures !StaleTimersInert(s)
  {
    assert Left(s, ms[i], i);
    EarlierBatchFires(s, OpenedAt(ms[i], i), OpenedAt(ms[j], j));
  }

  /** The batch a message opens at time `k`. */
  function OpenedAt(m: Msg, k: nat): (b: Batch)
    ensures b == Opened(m, k as real) && b.key == m.key && b.anchor == m.id && b.createdAt == k as real
  {
    Opened(m, k as real)
  }

  /** A later batch of the conversation is pending under the anchor of an earlier one. */
  lemma EarlierBatchFires(s: State, first: Batch, second: Batch)
    requires first.key in s.pending && s.pending[first.key] == second && second.anchor == first.anchor
    requires first.createdAt < second.createdAt
    requires first in s.closed || s.pending[first.key] == first
    requires (first.key, first.anchor) in s.timers
    ensures !StaleTimersInert(s)
  {
    assert first in s.closed;
    SharedAnchorFires(s, first);
  }

  lemma SharedAnchorFires(s: State, b: Batch)
    requires b in s.closed && (b.key, b.anchor) in s.timers && Taken(s.pending, b.key, b.anchor).Some?
    ensures !StaleTimersInert(s)
  {
    var c :| 0 <= c < |s.closed| && s.closed[c] == b;
    assert b.key !in Step(s, Fire(b.key, b.anchor)).pending;
  }

  /** For any messages: left-over timers are harmless in every interleaving of
      their arrival exactly when no conversation sees a message id twice. */
  lemma StaleTimersInertIff(ms: seq<Msg>)
    ensures (forall run :: After(run).Some? && After(run).value.arrivals <= ms ==> StaleTimersInert(After(run).value))
            <==> NoRedelivery(ms)
  {
    if NoRedelivery(ms) {
      forall run | After(run).Some? && After(run).value.arrivals <= ms
        ensures StaleTimersInert(After(run).value)
      {
        var s := After(run).value;
        assert NoRedelivery(s.arrivals);
        forall key
          ensures DistinctIds(ArrivalsOf(s.arrivals, key))
        {
          DistinctArrivals(s.arrivals, key);
        }
        forall i: nat | i < |s.closed| && (s.closed[i].key, s.closed[i].anchor) in s.timers
          ensures Step(s, Fire(s.closed[i].key, s.closed[i].anchor)) == s.(timers := s.timers - multiset{(s.closed[i].key, s.closed[i].anchor)})
        {
          StaleTimerDoesNothing(run, i);
        }
      }
    } else {
      var i, j :| 0 <= i < j < |ms| && ms[i].key == ms[j].key && ms[i].id == ms[j].id;
      var run, s := RedeliveryFires(ms, i, j);
    }
  }

  /** The messages a batch contributes to one conversation. */
  ghost function Own(b: Batch, key: Key): multiset<Entry>
    requires BatchOk(b)
  {
    if b.key == key then multiset(Entries(b)) else multiset{}
  }

  /** The messages of the given batches of one conversation, in no order. */
  ghost function Bag(batches: seq<Batch>, key: Key): multiset<Entry>
    requires AllOk(batches)
  {
    multiset(Flat(batches, key))
  }

  lemma BagSnoc(batches: seq<Batch>, b: Batch, key: Key)
    requires AllOk(batches) && BatchOk(b)
    ensures AllOk(batches + [b]) && Bag(batches + [b], key) == Bag(batches, key) + Own(b, key)
  {
    FlatSnoc(batches, b, key);
  }

  lemma CutOk(batches: seq<Batch>, i: nat)
    requires AllOk(batches) && i < |batches|
    ensures AllOk(batches[..i] + batches[i + 1..])
  {
  }

  lemma {:induction false} BagCut(batches: seq<Batch>, i: nat, key: Key)
    requires AllOk(batches) && i < |batches|
    ensures AllOk(batches[..i] + batches[i + 1..])
    ensures Bag(batches, key) == Bag(batches[..i] + batches[i + 1..], key) + Own(batches[i], key)
  {
    CutOk(batches, i);
    var n := |batches| - 1;
    var front, last := batches[..n], batches[n];
    assert batches == front + [last];
    BagSnoc(front, last, key);
    if i == n {
      assert batches[..i] + batches[i + 1..] == front;
    } else {
      BagCut(front, i, key);
      var rest := front[..i] + front[i + 1..];
      assert batches[..i] + batches[i + 1..] == rest + [last];
      BagSnoc(rest, last, key);
    }
  }

  lemma Peel(front: seq<Batch>, last: Batch, b: seq<Batch>, i: nat)
    requires multiset(front + [last]) == multiset(b) && i < |b| && b[i] == last
    ensures multiset(front) == multiset(b[..i] + b[i + 1..])
  {
    Snoc(front, last);
    CutOut(b, i);
    assert multiset(front) == multiset(b) - multiset{last};
  }

  /** Which messages a collection of batches holds does not depend on their order. */
  lemma {:induction false} BagOfPermutation(a: seq<Batch>, b: seq<Batch>, key: Key)
    requires AllOk(a) && AllOk(b) && multiset(a) == multiset(b)
    ensures Bag(a, key) == Bag(b, key)
  {
    if a == [] {
      assert |multiset(b)| == 0;
    } else {
      var front, last := a[..|a| - 1], a[|a| - 1];
      assert a == front + [last];
      assert last in multiset(a);
      assert last in b;
      var i :| 0 <= i < |b| && b[i] == last;
      var rest := b[..i] + b[i + 1..];
      CutOk(b, i);
      Peel(front, last, b, i);
      BagOfPermutation(front, rest, key);
      BagSnoc(front, last, key);
      BagCut(b, i, key);
    }
  }

  lemma OkOfPermutation(a: seq<Batch>, b: seq<Batch>)
    requires AllOk(a) && multiset(b) == multiset(a)
    ensures AllOk(b)
  {
    forall i | 0 <= i < |b|
      ensures BatchOk(b[i])
    {
      assert b[i] in multiset(b);
      assert b[i] in a;
      var j :| 0 <= j < |a| && a[j] == b[i];
    }
  }

  lemma {:induction false} BagConcat(a: seq<Batch>, b: seq<Batch>, key: Key)
    requires AllOk(a) && AllOk(b)
    ensures AllOk(a + b) && Bag(a + b, key) == Bag(a, key) + Bag(b, key)
  {
    if b == [] {
      assert a + b == a;
    } else {
      var front, last := b[..|b| - 1], b[|b| - 1];
      assert b == front + [last] && a + b == (a + front) + [last];
      BagConcat(a, front, key);
      BagSnoc(a + front, last, key);
      BagSnoc(front, last, key);
    }
  }

  lemma OkOfParts(a: seq<Batch>, b: seq<Batch>)
    requires AllOk(a + b)
    ensures AllOk(a) && AllOk(b)
  {
    assert forall i :: 0 <= i < |a| ==> (a + b)[i] == a[i];
    assert forall i :: 0 <= i < |b| ==> (a + b)[|a| + i] == b[i];
  }

  /** Once no timer is outstanding and nothing is in flight, the published and
      the lost batches together hold every queued message exactly once. */
  lemma QuiescentMeansPublishedOrLost(run: seq<Action>, key: Key)
    requires After(run).Some?
    requires var s := After(run).value; s.lark.Idle? && s.timers == multiset{} && s.preparing == []
    ensures var s := After(run).value;
            && s.pending == map[]
            && AllOk(s.closed) && AllOk(s.published) && AllOk(s.lost)
            && multiset(s.published + s.lost) == multiset(s.closed)
            && ArrivalsOf(s.arrivals, key) == Flat(s.closed, key)
            && Bag(s.published, key) + Bag(s.lost, key) == multiset(ArrivalsOf(s.arrivals, key))
  {
    RunKeepsInv(run);
    var s := After(run).value;
    assert forall k :: k !in s.pending;
    assert Flat(s.closed, key) + [] == Flat(s.closed, key);
    OkOfPermutation(s.closed, s.published + s.lost);
    OkOfParts(s.published, s.lost);
    BagOfPermutation(s.closed, s.published + s.lost, key);
    BagConcat(s.published, s.lost, key);
  }

  lemma LostIsMissing(b: Batch, batches: seq<Batch>)
    requires AllOk(batches) && b in batches
    ensures Bag(batches, b.key) != multiset{}
  {
    var i :| 0 <= i < |batches| && batches[i] == b;
    BagCut(batches, i, b.key);
    assert Entries(b)[0] in Own(b, b.key);
  }

  /** At rest, every queued message of every conversation has been published
      exactly once if and only if no preparation failed. */
  lemma QuiescentMeansAllPublished(run: seq<Action>)
    requires After(run).Some?
    requires var s := After(run).value; s.lark.Idle? && s.timers == multiset{} && s.preparing == []
    ensures var s := After(run).value;
            && AllOk(s.published)
            && ((forall key :: Bag(s.published, key) == multiset(ArrivalsOf(s.arrivals, key))) <==> s.lost == [])
  {
    var s := After(run).value;
    QuiescentMeansPublishedOrLost(run, Key("", ""));
    forall key
      ensures Bag(s.published, key) + Bag(s.lost, key) == multiset(ArrivalsOf(s.arrivals, key))
    {
      QuiescentMeansPublishedOrLost(run, key);
    }
    if s.lost != [] {
      var b := s.lost[0];
      assert b in s.lost;
      LostIsMissing(b, s.lost);
      assert Bag(s.published, b.key) != multiset(ArrivalsOf(s.arrivals, b.key));
    } else {
      assert forall key :: Bag(s.lost, key) == multiset{};
    }
  }

  /** In every reachable state nothing vanishes and nothing is doubled: the
      arrivals of a conversation are its closed batches in order followed by its
      pending one, and each closed batch is in exactly one place. */
  lemma NothingLostNothingDoubled(run: seq<Action>, key: Key)
    requires After(run).Some?
    ensures var s := After(run).value;
            && PendingOk(s) && AllOk(s.closed)
            && ArrivalsOf(s.arrivals, key) == Flat(s.closed, key) + Waiting(s, key)
            && multiset(s.closed) == multiset(s.preparing) + multiset(s.published) + multiset(s.lost) + Held(s.lark)
  {
    RunKeepsInv(run);
  }
}
