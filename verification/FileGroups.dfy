/** Which Feishu files travel together. */
module FileGroups {
  import opened Wrappers
  import opened FeishuBatching

  // The grouping that `FeishuBatching` brings about, in terms of the times at which
  // messages are queued (backend/app/channels/feishu.py, `_queue_file_inbound_batch`).

  lemma Reached(run: seq<Action>, s: State, key: Key)
    requires After(run) == Some(s) && key in s.pending
    ensures s.pending[key].key == key && BatchOk(s.pending[key])
  {
    RunKeepsInv(run);
  }

  /** Nothing but the pending batch of the conversation and the history of arrivals changes. */
  ghost predicate JoinsOnly(s: State, s': State, m: Msg) {
    && m.key in s.pending && m.key in s'.pending && GainsMessage(s.pending[m.key], s'.pending[m.key], m)
    && s' == s.(pending := s.pending[m.key := s'.pending[m.key]], arrivals := s.arrivals + [m])
  }

  /** The message has a batch of its own and will have a timer; an older batch of
      the conversation is closed and will be handed over. */
  ghost predicate StartsAnew(s: State, s': State, m: Msg, now: real) {
    var expired := if m.key in s.pending then Some(s.pending[m.key]) else None;
    && m.key in s'.pending && HoldsOnly(s'.pending[m.key], m, now)
    && s' == s.(pending := s.pending[m.key := s'.pending[m.key]], arrivals := s.arrivals + [m],
                lark := Scheduling(m.key, m.id, expired),
                closed := s.closed + if expired.Some? then [expired.value] else [])
  }

  /** In every reachable state: a queued message joins the pending batch of its
      conversation exactly when that was opened at most 0.75 seconds before, and
      starts a batch of its own otherwise. */
  lemma JoinsIff(run: seq<Action>, m: Msg, now: real)
    requires After(run).Some? && After(run).value.lark.Idle?
    ensures var s := After(run).value;
            var s' := Step(s, Queue(m, now));
            && (JoinsOnly(s, s', m) <==> m.key in s.pending && now - s.pending[m.key].createdAt <= 0.75)
            && (StartsAnew(s, s', m, now) <==> !(m.key in s.pending && now - s.pending[m.key].createdAt <= 0.75))
  {
    var s := After(run).value;
    if m.key in s.pending {
      Reached(run, s, m.key);
    }
    QueuedIs(s.pending, m, now);
  }

  // ---- A whole group --------------------------------------------------------------------

  /** The messages of the conversation queued by the given actions, in order. */
  function QueuedOf(acts: seq<Action>, key: Key): seq<Msg> {
    if acts == [] then []
    else
      var last := acts[|acts| - 1];
      QueuedOf(acts[..|acts| - 1], key) + if last.Queue? && last.msg.key == key then [last.msg] else []
  }

  function IdsOf(ms: seq<Msg>): seq<string> {
    seq(|ms|, i requires 0 <= i < |ms| => ms[i].id)
  }

  function FilesOf(ms: seq<Msg>): seq<string> {
    seq(|ms|, i requires 0 <= i < |ms| => ms[i].file)
  }

  /** No timer for the batch opened by `m` at `now` fires, and messages of its
      conversation are queued at most 0.75 seconds later. */
  ghost predicate Gathering(acts: seq<Action>, m: Msg, now: real) {
    forall i :: 0 <= i < |acts| ==>
      acts[i] != Fire(m.key, m.id) && (acts[i].Queue? && acts[i].msg.key == m.key ==> acts[i].now - now <= 0.75)
  }

  /** The batch opened by `m` at `now` holds exactly the given messages. */
  ghost predicate Gathered(b: Batch, m: Msg, now: real, ms: seq<Msg>) {
    && b.key == m.key && b.anchor == m.id && b.createdAt == now
    && b.messageIds == IdsOf(ms) && b.inbound.files == FilesOf(ms) && b.inbound.batchedIds == IdsOf(ms)
  }

  lemma GatheredGrows(b: Batch, b': Batch, m: Msg, now: real, ms: seq<Msg>, next: Msg)
    requires Gathered(b, m, now, ms) && GainsMessage(b, b', next)
    ensures Gathered(b', m, now, ms + [next])
  {
    assert IdsOf(ms + [next]) == IdsOf(ms) + [next.id];
    assert FilesOf(ms + [next]) == FilesOf(ms) + [next.file];
  }

  /** Actions other than queueing in the conversation and its timer leave the batch alone. */
  lemma BatchStays(s: State, a: Action, key: Key)
    requires Enabled(s, a) && key in s.pending && !(a.Queue? && a.msg.key == key) && a != Fire(key, s.pending[key].anchor)
    ensures key in Step(s, a).pending && Step(s, a).pending[key] == s.pending[key]
  {
  }

  lemma LastStep(run: seq<Action>, a: Action)
    requires After(run + [a]).Some?
    ensures After(run).Some? && Enabled(After(run).value, a) && After(run + [a]).value == Step(After(run).value, a)
  {
    assert (run + [a])[..|run|] == run;
  }

  lemma FirstOfBatch(run: seq<Action>, m: Msg, now: real)
    requires After(run).Some? && After(run + [Queue(m, now)]).Some?
    requires !(m.key in After(run).value.pending && now - After(run).value.pending[m.key].createdAt <= 0.75)
    ensures var s := After(run + [Queue(m, now)]).value;
            m.key in s.pending && Gathered(s.pending[m.key], m, now, [m] + QueuedOf([], m.key))
  {
    LastStep(run, Queue(m, now));
    JoinsIff(run, m, now);
    assert IdsOf([m]) == [m.id] && FilesOf([m]) == [m.file];
    assert [m] + QueuedOf([], m.key) == [m];
  }

  /** A message that starts a batch, and everything its conversation queues within
      0.75 seconds of it while no timer of the batch fires, are in one batch, in order. */
  lemma {:induction false} OneBatch(run: seq<Action>, m: Msg, now: real, acts: seq<Action>)
    requires After(run).Some? && After(run + [Queue(m, now)] + acts).Some? && Gathering(acts, m, now)
    requires !(m.key in After(run).value.pending && now - After(run).value.pending[m.key].createdAt <= 0.75)
    ensures var s := After(run + [Queue(m, now)] + acts).value;
            m.key in s.pending && Gathered(s.pending[m.key], m, now, [m] + QueuedOf(acts, m.key))
    decreases |acts|
  {
    if acts == [] {
      assert run + [Queue(m, now)] + acts == run + [Queue(m, now)];
      FirstOfBatch(run, m, now);
    } else {
      var front := acts[..|acts| - 1];
      var before := run + [Queue(m, now)] + front;
      assert run + [Queue(m, now)] + acts == before + [acts[|acts| - 1]];
      LastStep(before, acts[|acts| - 1]);
      OneBatch(run, m, now, front);
      OneMore(before, acts[|acts| - 1], m, now, QueuedOf(front, m.key));
    }
  }

  lemma OneMore(run: seq<Action>, a: Action, m: Msg, now: real, ms: seq<Msg>)
    requires After(run).Some? && Enabled(After(run).value, a)
    requires a != Fire(m.key, m.id) && (a.Queue? && a.msg.key == m.key ==> a.now - now <= 0.75)
    requires m.key in After(run).value.pending && Gathered(After(run).value.pending[m.key], m, now, [m] + ms)
    ensures var s' := Step(After(run).value, a);
            m.key in s'.pending
            && Gathered(s'.pending[m.key], m, now, [m] + if a.Queue? && a.msg.key == m.key then ms + [a.msg] else ms)
  {
    var s := After(run).value;
    if a.Queue? && a.msg.key == m.key {
      JoinsIff(run, a.msg, a.now);
      GatheredGrows(s.pending[m.key], Step(s, a).pending[m.key], m, now, [m] + ms, a.msg);
      assert [m] + ms + [a.msg] == [m] + (ms + [a.msg]);
    } else {
      BatchStays(s, a, m.key);
      assert ms + [] == ms;
    }
  }

  /** When the timer of that batch then fires, one inbound message with all these
      ids and files is handed over for publishing. */
  lemma OneInbound(run: seq<Action>, m: Msg, now: real, acts: seq<Action>)
    requires After(run).Some? && After(run + [Queue(m, now)] + acts).Some? && Gathering(acts, m, now)
    requires !(m.key in After(run).value.pending && now - After(run).value.pending[m.key].createdAt <= 0.75)
    requires Enabled(After(run + [Queue(m, now)] + acts).value, Fire(m.key, m.id))
    ensures var s := After(run + [Queue(m, now)] + acts).value;
            var ms := [m] + QueuedOf(acts, m.key);
            exists b :: Step(s, Fire(m.key, m.id)).preparing == s.preparing + [b] && Gathered(b, m, now, ms)
  {
    OneBatch(run, m, now, acts);
    var s := After(run + [Queue(m, now)] + acts).value;
    assert Step(s, Fire(m.key, m.id)).preparing == s.preparing + [s.pending[m.key]];
  }
}
