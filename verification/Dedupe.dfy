/** The inbound dedupe index of the channel manager
    (backend/app/channels/manager.py, `_is_duplicate_inbound` and
    `_release_inbound_dedupe_key`): an insertion-ordered dictionary from message
    keys to arrival times that is only ever trimmed from the front. */
module Dedupe {
  import opened Wrappers
  import opened Sequences

  const TTL_SECONDS: real := 600.0
  const MAX_ENTRIES: nat := 4096

  datatype Key = Key(channel: string, workspace: string, chat: string, message: string)

  datatype Entry = Entry(key: Key, at: real)

  predicate Has(events: seq<Entry>, key: Key) {
    exists i :: 0 <= i < |events| && events[i].key == key
  }

  function DropExpired(events: seq<Entry>, now: real): (kept: seq<Entry>)
    ensures |kept| <= |events| && kept == events[|events| - |kept|..]
  {
    if events != [] && now - events[0].at > TTL_SECONDS then DropExpired(events[1..], now) else events
  }

  function DropExcess(events: seq<Entry>): seq<Entry> {
    if |events| > MAX_ENTRIES then events[|events| - MAX_ENTRIES..] else events
  }

  function Trim(events: seq<Entry>, now: real): seq<Entry> {
    DropExcess(DropExpired(events, now))
  }

  /** The index without `key`. */
  function Without(events: seq<Entry>, key: Key): (rest: seq<Entry>)
    ensures forall e :: e in rest <==> e in events && e.key != key
  {
    if events == [] then []
    else if events[0].key == key then Without(events[1..], key)
    else [events[0]] + Without(events[1..], key)
  }

  function Checked(events: seq<Entry>, key: Key, now: real): seq<Entry> {
    var kept := Trim(events, now);
    if Has(kept, key) then kept else kept + [Entry(key, now)]
  }

  predicate DistinctKeys(events: seq<Entry>) {
    DistinctBy(events, (e: Entry) => e.key)
  }

  lemma WithoutKeepsDistinct(events: seq<Entry>, key: Key)
    requires DistinctKeys(events)
    ensures DistinctKeys(Without(events, key))
  {
    if events != [] {
      WithoutKeepsDistinct(events[1..], key);
      var rest := Without(events[1..], key);
      assert forall e :: e in rest ==> e in events[1..];
    }
  }

  /** The index as the manager holds it. */
  class Index {
    var events: seq<Entry>

    ghost predicate Valid()
      reads this
    {
      DistinctKeys(events)
    }

    constructor ()
      ensures Valid() && events == []
    {
      events := [];
    }

    /** Pop expired entries from the front. */
    method EvictExpired(now: real)
      requires Valid()
      modifies this
      ensures Valid() && events == DropExpired(old(events), now)
    {
      while events != [] && now - events[0].at > TTL_SECONDS
        invariant DistinctKeys(events)
        invariant DropExpired(events, now) == DropExpired(old(events), now)
        decreases |events|
      {
        events := events[1..];
      }
    }

    /** Pop the oldest entries while there are too many. */
    method EvictExcess()
      requires Valid()
      modifies this
      ensures Valid() && events == DropExcess(old(events))
    {
      while |events| > MAX_ENTRIES
        invariant DistinctKeys(events)
        invariant |events| <= |old(events)| && events == old(events)[|old(events)| - |events|..]
        invariant |old(events)| > MAX_ENTRIES ==> |events| >= MAX_ENTRIES
        invariant |old(events)| <= MAX_ENTRIES ==> events == old(events)
        decreases |events|
      {
        events := events[1..];
      }
    }

    /** A message without a key is never a duplicate and leaves the index alone. */
    method IsDuplicate(key: Option<Key>, now: real) returns (duplicate: bool)
      requires Valid()
      modifies this
      ensures Valid()
      ensures key.None? ==> !duplicate && events == old(events)
      ensures key.Some? ==> duplicate == Has(Trim(old(events), now), key.value)
      ensures key.Some? ==> events == Checked(old(events), key.value, now)
    {
      if key.None? {
        return false;
      }
      EvictExpired(now);
      EvictExcess();
      duplicate := Has(events, key.value);
      if !duplicate {
        events := events + [Entry(key.value, now)];
      }
    }

    method Release(key: Option<Key>)
      requires Valid()
      modifies this
      ensures Valid()
      ensures events == if key.Some? then Without(old(events), key.value) else old(events)
    {
      if key.Some? {
        WithoutKeepsDistinct(events, key.value);
        events := Without(events, key.value);
      }
    }
  }

  // ---- Histories -------------------------------------------------------------

  /** What an observer of the index sees: checks answered "new" or "duplicate", and releases. */
  datatype Event = Accept(key: Key, now: real) | Ignore(key: Key, now: real) | Release(key: Key)

  function After(log: seq<Event>): seq<Entry> {
    if log == [] then []
    else
      var before := After(log[..|log| - 1]);
      var e := log[|log| - 1];
      if e.Release? then Without(before, e.key) else Checked(before, e.key, e.now)
  }

  /** The index gives each check of the log the answer the log records. */
  predicate Answers(log: seq<Event>) {
    forall i :: 0 <= i < |log| && !log[i].Release? ==>
      (log[i].Ignore? <==> Has(Trim(After(log[..i]), log[i].now), log[i].key))
  }

  predicate ClockOk(log: seq<Event>) {
    forall i, j :: 0 <= i < j < |log| && !log[i].Release? && !log[j].Release? ==> log[i].now <= log[j].now
  }

  /** `key` was last accepted by event `j` and not released since. */
  ghost predicate Live(log: seq<Event>, key: Key, j: nat) {
    && j < |log| && log[j].Accept? && log[j].key == key
    && forall i :: j < i < |log| ==> log[i].Ignore? || log[i].key != key
  }

  /** The keys accepted after event `j`. */
  ghost function AcceptedSince(log: seq<Event>, j: nat): set<Key> {
    set i | j < i < |log| && log[i].Accept? :: log[i].key
  }

  ghost predicate Expired(log: seq<Event>, j: nat)
    requires j < |log| && log[j].Accept?
  {
    exists i :: j < i < |log| && !log[i].Release? && log[i].now - log[j].now > 600.0
  }

  /** Entry `e` was put there by event `j`. */
  ghost predicate Source(log: seq<Event>, e: Entry, j: nat) {
    Live(log, e.key, j) && log[j].now == e.at
  }

  /** `idx` names, entry by entry, the event that accepted it. */
  ghost predicate Matches(log: seq<Event>, events: seq<Entry>, idx: seq<nat>) {
    && |idx| == |events|
    && (forall p, q :: 0 <= p < q < |idx| ==> idx[p] < idx[q])
    && (forall p :: 0 <= p < |idx| ==> Source(log, events[p], idx[p]))
  }

  ghost predicate Sorted(events: seq<Entry>) {
    forall i, j :: 0 <= i < j < |events| ==> events[i].at <= events[j].at
  }

  /** The event was lost lawfully: expired, or followed by 4096 other keys. */
  ghost predicate Excused(log: seq<Event>, j: nat)
    requires j < |log| && log[j].Accept?
  {
    Expired(log, j) || |AcceptedSince(log, j)| >= 4096
  }

  ghost predicate Complete(log: seq<Event>, events: seq<Entry>) {
    forall key, j :: Live(log, key, j) ==> Has(events, key) || Excused(log, j)
  }

  ghost predicate Inv(log: seq<Event>, events: seq<Entry>, idx: seq<nat>) {
    && Sorted(events) && DistinctKeys(events) && |events| <= MAX_ENTRIES + 1
    && Matches(log, events, idx)
    && Complete(log, events)
  }

  // ---- Trimming ------------------------------------------------------------

  lemma TrimIsSuffix(events: seq<Entry>, now: real)
    ensures |Trim(events, now)| <= |events| && Trim(events, now) == events[|events| - |Trim(events, now)|..]
  {
  }

  lemma {:induction false} ExpiredPrefix(events: seq<Entry>, now: real, p: nat)
    requires p < |events| - |DropExpired(events, now)|
    ensures now - events[p].at > TTL_SECONDS
  {
    if p > 0 {
      ExpiredPrefix(events[1..], now, p - 1);
    }
  }

  lemma {:induction false} HeadIsFresh(events: seq<Entry>, now: real)
    ensures var kept := DropExpired(events, now); kept != [] ==> now - kept[0].at <= TTL_SECONDS
  {
    if events != [] && now - events[0].at > TTL_SECONDS {
      HeadIsFresh(events[1..], now);
    }
  }

  lemma UnexpiredIsFresh(events: seq<Entry>, now: real, q: nat)
    requires Sorted(events) && |events| - |DropExpired(events, now)| <= q < |events|
    ensures now - events[q].at <= TTL_SECONDS
  {
    HeadIsFresh(events, now);
    var kept := DropExpired(events, now);
    assert kept[0] == events[|events| - |kept|];
  }

  lemma TrimKeepsFewer(events: seq<Entry>, now: real)
    ensures |Trim(events, now)| <= |DropExpired(events, now)|
  {
  }

  lemma Cardinality<T>(a: set<T>, b: set<T>)
    requires a <= b
    ensures |a| <= |b|
  {
    assert b == a + (b - a);
  }

  lemma {:induction false} KeysCount(events: seq<Entry>)
    requires DistinctKeys(events)
    ensures |set e | e in events :: e.key| == |events|
  {
    if events != [] {
      var rest := events[1..];
      KeysCount(rest);
      var restKeys := set e | e in rest :: e.key;
      assert events[0].key !in restKeys;
      assert (set e | e in events :: e.key) == restKeys + {events[0].key};
    }
  }

  /** Entries later in the index were accepted later, so they count as accepted since. */
  lemma LaterEntriesCount(log: seq<Event>, events: seq<Entry>, idx: seq<nat>, p: nat)
    requires Matches(log, events, idx) && p < |events| && DistinctKeys(events)
    ensures |AcceptedSince(log, idx[p])| >= |events| - p - 1
  {
    var later := events[p + 1..];
    var since := AcceptedSince(log, idx[p]);
    forall q | 0 <= q < |later|
      ensures later[q].key in since
    {
      assert Source(log, events[p + 1 + q], idx[p + 1 + q]);
    }
    KeysCount(later);
    Cardinality(set e | e in later :: e.key, since);
  }

  /** What a trim can lose: only expired entries and entries followed by 4096 others. */
  lemma TrimLoses(log: seq<Event>, events: seq<Entry>, idx: seq<nat>, now: real, p: nat)
    requires Matches(log, events, idx) && DistinctKeys(events) && |events| <= MAX_ENTRIES + 1
    requires p < |events| - |Trim(events, now)|
    ensures now - events[p].at > TTL_SECONDS || |AcceptedSince(log, idx[p])| >= MAX_ENTRIES
  {
    if p < |events| - |DropExpired(events, now)| {
      ExpiredPrefix(events, now, p);
    } else {
      LaterEntriesCount(log, events, idx, p);
    }
  }

  lemma HasAfterTrim(events: seq<Entry>, now: real, p: nat)
    requires |events| - |Trim(events, now)| <= p < |events|
    ensures Has(Trim(events, now), events[p].key)
  {
    TrimIsSuffix(events, now);
    var kept := Trim(events, now);
    assert kept[p - (|events| - |kept|)] == events[p];
  }

  /** A live key survives a trim at time `now`, unless excused or too old. */
  lemma TrimComplete(log: seq<Event>, events: seq<Entry>, idx: seq<nat>, now: real, key: Key, j: nat)
    requires Inv(log, events, idx) && Live(log, key, j)
    ensures Has(Trim(events, now), key) || now - log[j].now > TTL_SECONDS || Excused(log, j)
  {
    if Has(events, key) {
      var p :| 0 <= p < |events| && events[p].key == key;
      assert Source(log, events[p], idx[p]);
      assert idx[p] == j;
      if p < |events| - |Trim(events, now)| {
        TrimLoses(log, events, idx, now, p);
      } else {
        HasAfterTrim(events, now, p);
      }
    }
  }

  // ---- One more event ------------------------------------------------------

  lemma ExtendLive(log: seq<Event>, e: Event, key: Key, j: nat)
    requires j < |log|
    ensures Live(log + [e], key, j) <==> Live(log, key, j) && (e.Ignore? || e.key != key)
  {
    var log' := log + [e];
    assert log'[|log|] == e;
    assert forall i :: 0 <= i < |log| ==> log'[i] == log[i];
  }

  lemma ExtendExcused(log: seq<Event>, e: Event, j: nat)
    requires j < |log| && log[j].Accept?
    ensures Excused(log, j) || (!e.Release? && e.now - log[j].now > TTL_SECONDS) ==> Excused(log + [e], j)
  {
    var log' := log + [e];
    assert forall i :: 0 <= i < |log| ==> log'[i] == log[i];
    assert log'[|log|] == e;
    if Expired(log, j) {
      var i :| j < i < |log| && !log[i].Release? && log[i].now - log[j].now > TTL_SECONDS;
      assert !log'[i].Release?;
    }
    forall key | key in AcceptedSince(log, j)
      ensures key in AcceptedSince(log', j)
    {
      var i :| j < i < |log| && log[i].Accept? && log[i].key == key;
      assert log'[i].Accept?;
    }
    Cardinality(AcceptedSince(log, j), AcceptedSince(log', j));
  }

  lemma SubMatches(log: seq<Event>, events: seq<Entry>, idx: seq<nat>, a: nat, b: nat)
    requires Matches(log, events, idx) && a <= b <= |events|
    ensures Matches(log, events[..a] + events[b..], idx[..a] + idx[b..])
  {
    var kept, idx' := events[..a] + events[b..], idx[..a] + idx[b..];
    forall p | 0 <= p < |kept|
      ensures Source(log, kept[p], idx'[p])
    {
      var q := if p < a then p else p - a + b;
      assert kept[p] == events[q] && idx'[p] == idx[q];
      assert Source(log, events[q], idx[q]);
    }
  }

  lemma ExtendMatches(log: seq<Event>, e: Event, events: seq<Entry>, idx: seq<nat>)
    requires Matches(log, events, idx)
    requires e.Ignore? || !Has(events, e.key)
    ensures Matches(log + [e], events, idx)
  {
    forall p | 0 <= p < |idx|
      ensures Source(log + [e], events[p], idx[p])
    {
      assert Source(log, events[p], idx[p]);
      ExtendLive(log, e, events[p].key, idx[p]);
    }
  }

  lemma AppendMatches(log: seq<Event>, e: Event, events: seq<Entry>, idx: seq<nat>)
    requires Matches(log, events, idx) && e.Accept? && !Has(events, e.key)
    ensures Matches(log + [e], events + [Entry(e.key, e.now)], idx + [|log|])
  {
    ExtendMatches(log, e, events, idx);
    var log' := log + [e];
    assert Source(log', Entry(e.key, e.now), |log|);
    forall p | 0 <= p < |idx|
      ensures idx[p] < |log|
    {
      assert Source(log, events[p], idx[p]);
    }
  }

  lemma CheckKeepsLive(log: seq<Event>, e: Event, events: seq<Entry>, idx: seq<nat>, key: Key, j: nat)
    requires Inv(log, events, idx) && !e.Release? && j < |log| && Live(log + [e], key, j)
    ensures Has(Trim(events, e.now), key) || Excused(log + [e], j)
  {
    ExtendLive(log, e, key, j);
    ExtendExcused(log, e, j);
    TrimComplete(log, events, idx, e.now, key, j);
  }

  lemma HasChecked(events: seq<Entry>, key: Key, now: real)
    ensures Has(Checked(events, key, now), key)
    ensures forall k :: Has(Trim(events, now), k) ==> Has(Checked(events, key, now), k)
  {
    var kept := Trim(events, now);
    var events' := Checked(events, key, now);
    forall k | Has(kept, k)
      ensures Has(events', k)
    {
      var p :| 0 <= p < |kept| && kept[p].key == k;
      assert events'[p].key == k;
    }
    if !Has(kept, key) {
      assert events'[|kept|].key == key;
    }
  }

  lemma CheckKeepsComplete(log: seq<Event>, e: Event, events: seq<Entry>, idx: seq<nat>)
    requires Inv(log, events, idx) && !e.Release?
    ensures Complete(log + [e], Checked(events, e.key, e.now))
  {
    var log' := log + [e];
    HasChecked(events, e.key, e.now);
    forall key, j: nat | Live(log', key, j)
      ensures Has(Checked(events, e.key, e.now), key) || Excused(log', j)
    {
      if j < |log| {
        CheckKeepsLive(log, e, events, idx, key, j);
      }
    }
  }

  lemma NowIsLatest(log: seq<Event>, e: Event, events: seq<Entry>, idx: seq<nat>)
    requires Matches(log, events, idx) && !e.Release? && ClockOk(log + [e])
    ensures forall x :: x in events ==> x.at <= e.now
  {
    var log' := log + [e];
    forall x | x in events
      ensures x.at <= e.now
    {
      var p :| 0 <= p < |events| && events[p] == x;
      assert Source(log, events[p], idx[p]);
      assert log'[idx[p]] == log[idx[p]] && log'[|log|] == e;
    }
  }

  lemma SuffixKeepsOrder(events: seq<Entry>, d: nat)
    requires Sorted(events) && DistinctKeys(events) && d <= |events|
    ensures Sorted(events[d..]) && DistinctKeys(events[d..])
  {
    forall i, j | 0 <= i < j < |events[d..]|
      ensures events[d..][i].at <= events[d..][j].at && events[d..][i].key != events[d..][j].key
    {
      assert events[d..][i] == events[d + i] && events[d..][j] == events[d + j];
    }
  }

  lemma AppendKeepsOrder(events: seq<Entry>, e: Entry)
    requires Sorted(events) && DistinctKeys(events) && !Has(events, e.key)
    requires forall x :: x in events ==> x.at <= e.at
    ensures Sorted(events + [e]) && DistinctKeys(events + [e])
  {
  }

  lemma TrimKeepsOrder(events: seq<Entry>, now: real)
    requires Sorted(events) && DistinctKeys(events)
    ensures Sorted(Trim(events, now)) && DistinctKeys(Trim(events, now)) && |Trim(events, now)| <= MAX_ENTRIES
    ensures forall e :: e in Trim(events, now) ==> e in events
  {
    TrimIsSuffix(events, now);
    SuffixKeepsOrder(events, |events| - |Trim(events, now)|);
  }

  lemma CheckKeepsOrder(events: seq<Entry>, key: Key, now: real)
    requires Sorted(events) && DistinctKeys(events)
    requires forall e :: e in events ==> e.at <= now
    ensures Sorted(Checked(events, key, now)) && DistinctKeys(Checked(events, key, now))
    ensures |Checked(events, key, now)| <= MAX_ENTRIES + 1
  {
    TrimKeepsOrder(events, now);
    if !Has(Trim(events, now), key) {
      AppendKeepsOrder(Trim(events, now), Entry(key, now));
    }
  }

  lemma CheckKeepsInv(log: seq<Event>, e: Event, events: seq<Entry>, idx: seq<nat>) returns (idx': seq<nat>)
    requires Inv(log, events, idx) && !e.Release? && ClockOk(log + [e])
    requires e.Ignore? <==> Has(Trim(events, e.now), e.key)
    ensures Inv(log + [e], Checked(events, e.key, e.now), idx')
  {
    var kept := Trim(events, e.now);
    TrimIsSuffix(events, e.now);
    var d := |events| - |kept|;
    SubMatches(log, events, idx, 0, d);
    assert events[..0] + events[d..] == kept;
    idx' := idx[..0] + idx[d..];
    if e.Accept? {
      AppendMatches(log, e, kept, idx');
      idx' := idx' + [|log|];
    } else {
      ExtendMatches(log, e, kept, idx');
    }
    NowIsLatest(log, e, events, idx);
    CheckKeepsOrder(events, e.key, e.now);
    CheckKeepsComplete(log, e, events, idx);
  }

  lemma CutFromTail(events: seq<Entry>, p: nat)
    requires 0 < p < |events|
    ensures events[..p] + events[p + 1..] == [events[0]] + (events[1..][..p - 1] + events[1..][p..])
  {
  }

  /** A distinct tail, and the key of an entry found one place earlier in it. */
  lemma TailKeepsDistinct(events: seq<Entry>)
    requires DistinctKeys(events) && events != []
    ensures DistinctKeys(events[1..]) && !Has(events[1..], events[0].key)
  {
  }

  /** Releasing a present key removes its one entry. */
  lemma {:induction false} WithoutAt(events: seq<Entry>, p: nat)
    requires DistinctKeys(events) && p < |events|
    ensures Without(events, events[p].key) == events[..p] + events[p + 1..]
  {
    TailKeepsDistinct(events);
    if p == 0 {
      WithoutAbsent(events[1..], events[0].key);
    } else {
      WithoutAt(events[1..], p - 1);
      CutFromTail(events, p);
    }
  }

  lemma {:induction false} WithoutAbsent(events: seq<Entry>, key: Key)
    requires !Has(events, key)
    ensures Without(events, key) == events
  {
    if events != [] {
      assert events[0].key != key;
      forall i | 0 <= i < |events[1..]|
        ensures events[1..][i].key != key
      {
        assert events[1..][i] == events[i + 1];
      }
      WithoutAbsent(events[1..], key);
    }
  }

  lemma ReleaseKeepsComplete(log: seq<Event>, e: Event, events: seq<Entry>)
    requires Complete(log, events) && e.Release?
    ensures Complete(log + [e], Without(events, e.key))
  {
    var log' := log + [e];
    var events' := Without(events, e.key);
    forall key, j: nat | Live(log', key, j)
      ensures Has(events', key) || Excused(log', j)
    {
      assert log'[|log|] == e;
      ExtendLive(log, e, key, j);
      ExtendExcused(log, e, j);
      if Has(events, key) {
        var p :| 0 <= p < |events| && events[p].key == key;
        assert events[p] in events';
      }
    }
  }

  lemma CutKeepsOrder(events: seq<Entry>, p: nat)
    requires Sorted(events) && DistinctKeys(events) && p < |events|
    ensures var cut := events[..p] + events[p + 1..]; Sorted(cut) && DistinctKeys(cut) && !Has(cut, events[p].key)
  {
  }

  lemma ReleaseKeepsInv(log: seq<Event>, e: Event, events: seq<Entry>, idx: seq<nat>) returns (idx': seq<nat>)
    requires Inv(log, events, idx) && e.Release?
    ensures Inv(log + [e], Without(events, e.key), idx')
  {
    ReleaseKeepsComplete(log, e, events);
    if p :| 0 <= p < |events| && events[p].key == e.key {
      WithoutAt(events, p);
      CutKeepsOrder(events, p);
      SubMatches(log, events, idx, p, p + 1);
      idx' := idx[..p] + idx[p + 1..];
      ExtendMatches(log, e, events[..p] + events[p + 1..], idx');
    } else {
      WithoutAbsent(events, e.key);
      idx' := idx;
      ExtendMatches(log, e, events, idx);
    }
  }

  lemma {:induction false} LogKeepsInv(log: seq<Event>) returns (idx: seq<nat>)
    requires Answers(log) && ClockOk(log)
    ensures Inv(log, After(log), idx)
  {
    if log == [] {
      idx := [];
    } else {
      var n := |log| - 1;
      var before, e := log[..n], log[n];
      assert log == before + [e];
      PrefixAnswers(before, e);
      idx := LogKeepsInv(before);
      if e.Release? {
        idx := ReleaseKeepsInv(before, e, After(before), idx);
      } else {
        idx := CheckKeepsInv(before, e, After(before), idx);
      }
    }
  }

  lemma PrefixAnswers(log: seq<Event>, e: Event)
    ensures Answers(log + [e]) ==>
              Answers(log) && (!e.Release? ==> (e.Ignore? <==> Has(Trim(After(log), e.now), e.key)))
  {
    var log' := log + [e];
    assert log'[..|log|] == log && log'[|log|] == e;
    forall i | 0 <= i < |log|
      ensures log'[..i] == log[..i] && log'[i] == log[i]
    {
    }
  }

  // ---- The results ---------------------------------------------------------

  /** Under a clock that never goes back, the index stays chronological, names
      each key once and holds at most 4097 entries. */
  lemma IndexStaysBounded(log: seq<Event>)
    requires Answers(log) && ClockOk(log)
    ensures Sorted(After(log)) && DistinctKeys(After(log)) && |After(log)| <= 4097
  {
    var _ := LogKeepsInv(log);
  }

  /** "Duplicate" is only answered for a key accepted at most 600 seconds ago and not released since. */
  lemma DuplicateIsRecent(log: seq<Event>, key: Key, now: real)
    requires Answers(log + [Ignore(key, now)]) && ClockOk(log + [Ignore(key, now)])
    ensures exists j: nat :: Live(log, key, j) && now - log[j].now <= 600.0
  {
    PrefixAnswers(log, Ignore(key, now));
    ClockPrefix(log, Ignore(key, now));
    var idx := LogKeepsInv(log);
    var events := After(log);
    var kept := Trim(events, now);
    var p :| 0 <= p < |kept| && kept[p].key == key;
    var q := KeptIsFresh(events, now, p);
    assert Source(log, events[q], idx[q]);
  }

  /** An entry that survives a trim is an entry of the index not yet expired. */
  lemma KeptIsFresh(events: seq<Entry>, now: real, p: nat) returns (q: nat)
    requires Sorted(events) && p < |Trim(events, now)|
    ensures q < |events| && events[q] == Trim(events, now)[p] && now - events[q].at <= 600.0
  {
    TrimIsSuffix(events, now);
    q := p + |events| - |Trim(events, now)|;
    TrimKeepsFewer(events, now);
    UnexpiredIsFresh(events, now, q);
  }

  /** A key is accepted again within the TTL and without a release only after
      at least 4096 other keys were accepted in between. */
  lemma AcceptedAgainNeeds4096(log: seq<Event>, key: Key, now: real, j: nat)
    requires Answers(log + [Accept(key, now)]) && ClockOk(log + [Accept(key, now)])
    requires Live(log, key, j) && now - log[j].now <= 600.0
    ensures |AcceptedSince(log, j)| >= 4096 && key !in AcceptedSince(log, j)
  {
    var e := Accept(key, now);
    PrefixAnswers(log, e);
    ClockPrefix(log, e);
    var idx := LogKeepsInv(log);
    TrimComplete(log, After(log), idx, now, key, j);
    NotYetExpired(log, e, j);
  }

  lemma NotYetExpired(log: seq<Event>, e: Event, j: nat)
    requires ClockOk(log + [e]) && !e.Release? && j < |log| && log[j].Accept? && e.now - log[j].now <= 600.0
    ensures !Expired(log, j)
  {
    var log' := log + [e];
    assert log'[|log|] == e;
    forall i | j < i < |log| && !log[i].Release?
      ensures log[i].now <= e.now
    {
      assert log'[i] == log[i];
    }
  }

  lemma ClockPrefix(log: seq<Event>, e: Event)
    ensures ClockOk(log + [e]) ==> ClockOk(log)
  {
    var log' := log + [e];
    assert forall i :: 0 <= i < |log| ==> log'[i] == log[i];
  }
}
