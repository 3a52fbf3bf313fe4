/** Which messages talk into one thread. */
module Conversations {
  import opened Wrappers
  import opened ThreadCreation
  import ChannelStore

  // What the slots, locks and threads of `ThreadCreation` mean for the messages
  // themselves: their channel, chat, topic, connection and owner
  // (backend/app/channels/manager.py, `_lookup_thread_id`, `_store_thread_id` and
  // `_get_or_create_thread`).

  predicate Given(s: Option<string>) {
    s.Some? && |s.value| > 0
  }

  /** An empty topic is no topic. */
  predicate SameTopic(s: Option<string>, t: Option<string>) {
    s == t || (!Given(s) && !Given(t))
  }

  /** The thread is kept by the connection repository. */
  predicate ByConnection(w: World, m: Msg) {
    w.repo && Given(m.connection)
  }

  /** Both messages belong to one conversation: chat and topic agree, and the
      connection or, without a connection, the channel. */
  predicate SameConversation(w: World, m: Msg, n: Msg) {
    && m.chat == n.chat && SameTopic(m.topic, n.topic)
    && ByConnection(w, m) == ByConnection(w, n)
    && if ByConnection(w, m) then m.connection == n.connection else m.channel == n.channel
  }

  /** Channel and chat hold no colon, so that printed keys can be told apart. */
  ghost predicate Plain(m: Msg) {
    ChannelStore.ColonFree(m.channel) && ChannelStore.ColonFree(m.chat)
  }

  ghost predicate AllPlain(w: World) {
    forall m :: m in w.msgs ==> Plain(m)
  }

  // ---- What a slot says ---------------------------------------------------------------

  /** Printed keys agree exactly when channel, chat and topic do. */
  lemma LocalSlotIff(m: Msg, n: Msg)
    requires Plain(m) && Plain(n)
    ensures LocalSlot(m) == LocalSlot(n) <==> m.channel == n.channel && m.chat == n.chat && SameTopic(m.topic, n.topic)
  {
    var s := if Given(m.topic) then m.topic else None;
    var t := if Given(n.topic) then n.topic else None;
    assert ChannelStore.Key(m.channel, m.chat, m.topic) == ChannelStore.Key(m.channel, m.chat, s);
    assert ChannelStore.Key(n.channel, n.chat, n.topic) == ChannelStore.Key(n.channel, n.chat, t);
    if ChannelStore.Key(m.channel, m.chat, s) == ChannelStore.Key(n.channel, n.chat, t) {
      ChannelStore.KeysAreInjective(
        ChannelStore.Conversation(m.channel, m.chat, s), ChannelStore.Conversation(n.channel, n.chat, t));
    }
  }

  /** Two messages look their thread up in one place exactly when they belong to one conversation. */
  lemma ReadTogetherIff(w: World, m: Msg, n: Msg)
    requires Plain(m) && Plain(n)
    ensures ReadSlot(w, m) == ReadSlot(w, n) <==> SameConversation(w, m, n)
  {
    LocalSlotIff(m, n);
  }

  /** The thread stored for `m` is the one found for `n`: exactly when they belong
      to one conversation and a connection comes with an owner, or `m` has a
      connection without an owner and `n`, without one, has its channel, chat and topic. */
  lemma StoredForIff(w: World, m: Msg, n: Msg)
    requires Plain(m) && Plain(n)
    ensures WriteSlot(w, m) == ReadSlot(w, n)
            <==> if ByConnection(w, m) && !Given(m.owner) then Stray(w, m, n) else SameConversation(w, m, n)
  {
    LocalSlotIff(m, n);
  }

  /** A thread made for a connection without an owner is stored for the bare chat. */
  predicate Stray(w: World, m: Msg, n: Msg) {
    && ByConnection(w, m) && !Given(m.owner) && !ByConnection(w, n)
    && m.channel == n.channel && m.chat == n.chat && SameTopic(m.topic, n.topic)
  }

  // ---- Which messages may arrive together ------------------------------------------------

  /** The condition of `AtMostOneIff` in terms of the messages: connections come
      with owners, and messages of one conversation have the same channel, chat
      and topic to the letter, other messages do not. */
  ghost predicate Harmless(w: World) {
    && (w.mayFail ==> w.msgs == {})
    && (forall m :: m in w.msgs && ByConnection(w, m) ==> Given(m.owner))
    && (forall m, n :: m in w.msgs && n in w.msgs ==>
          (SameConversation(w, m, n) <==> m.channel == n.channel && m.chat == n.chat && m.topic == n.topic))
  }

  lemma SafeIffHarmless(w: World)
    requires AllPlain(w)
    ensures Safe(w) <==> Harmless(w)
  {
    forall m, n | m in w.msgs && n in w.msgs
      ensures ReadSlot(w, m) == ReadSlot(w, n) <==> SameConversation(w, m, n)
    {
      ReadTogetherIff(w, m, n);
    }
    forall m, n | m in w.msgs && n in w.msgs
      ensures KeyOf(m) == KeyOf(n) <==> m.channel == n.channel && m.chat == n.chat && m.topic == n.topic
    {
    }
    forall m | m in w.msgs
      ensures ReadSlot(w, m) == WriteSlot(w, m) <==> (ByConnection(w, m) ==> Given(m.owner))
    {
    }
  }

  /** At most one thread is created per conversation in every interleaving
      exactly when the messages are harmless. */
  lemma OneCreationIff(w: World)
    requires AllPlain(w)
    ensures AtMostOnePerConversation(w) <==> Harmless(w)
  {
    SafeIffHarmless(w);
    AtMostOneIff(w);
  }

  // ---- Where an id comes from ---------------------------------------------------------------

  predicate Carries(pc: Pc, id: ThreadId) {
    || ((pc.Looked? || pc.Checked?) && pc.found == Some(id))
    || ((pc.Made? || pc.Saved? || pc.Done?) && pc.id == id)
  }

  /** The id is neither stored nor held by a task. */
  ghost predicate Unused(s: State, id: ThreadId) {
    && (forall slot :: slot in s.threads ==> s.threads[slot] != id)
    && (forall t :: t in s.tasks ==> !Carries(s.tasks[t].pc, id))
  }

  ghost predicate NoneAhead(s: State) {
    forall k: nat :: k >= s.nextId ==> Unused(s, Minted(k))
  }

  /** Whoever has the id made it, or reads where its maker stores. */
  predicate From(w: World, m: Msg, maker: Msg) {
    m == maker || ReadSlot(w, m) == WriteSlot(w, maker)
  }

  ghost predicate StoredBy(w: World, s: State, id: ThreadId, maker: Msg) {
    forall slot :: slot in s.threads && s.threads[slot] == id ==> slot == WriteSlot(w, maker)
  }

  ghost predicate HeldFrom(w: World, s: State, id: ThreadId, maker: Msg) {
    forall t :: t in s.tasks && Carries(s.tasks[t].pc, id) ==>
      From(w, s.tasks[t].msg, maker) && (s.tasks[t].pc.Made? ==> s.tasks[t].msg == maker)
  }

  ghost predicate MadeBy(w: World, s: State, id: ThreadId, maker: Msg) {
    StoredBy(w, s, id, maker) && HeldFrom(w, s, id, maker)
  }

  /** The step that mints `id`. */
  predicate Mints(s: State, a: Action, id: ThreadId) {
    a.Create? && a.t in s.tasks && IdFor(s.tasks[a.t].msg, s.nextId) == id
  }

  lemma StepKeepsStored(w: World, s: State, a: Action, id: ThreadId, maker: Msg)
    requires MadeBy(w, s, id, maker) && Enabled(w, s, a)
    ensures StoredBy(w, Step(w, s, a), id, maker)
  {
    if a.Save? {
      assert s.tasks[a.t].pc.Made?;
    }
  }

  lemma StepKeepsHeld(w: World, s: State, a: Action, id: ThreadId, maker: Msg)
    requires MadeBy(w, s, id, maker) && Enabled(w, s, a) && !Mints(s, a, id)
    ensures HeldFrom(w, Step(w, s, a), id, maker)
  {
    var s' := Step(w, s, a);
    forall t | t in s'.tasks && Carries(s'.tasks[t].pc, id)
      ensures From(w, s'.tasks[t].msg, maker) && (s'.tasks[t].pc.Made? ==> s'.tasks[t].msg == maker)
    {
      if t != a.t {
        assert t in s.tasks && s'.tasks[t] == s.tasks[t];
      } else if a.Lookup? || a.Recheck? {
        Looks(w, s, a, id);
      } else {
        Moves(w, s, a, id);
      }
    }
  }

  /** A lookup finds the id where the task reads. */
  lemma Looks(w: World, s: State, a: Action, id: ThreadId)
    requires Enabled(w, s, a) && (a.Lookup? || a.Recheck?) && Carries(Step(w, s, a).tasks[a.t].pc, id)
    ensures Step(w, s, a).tasks[a.t].msg == s.tasks[a.t].msg && !Step(w, s, a).tasks[a.t].pc.Made?
    ensures ReadSlot(w, s.tasks[a.t].msg) in s.threads && s.threads[ReadSlot(w, s.tasks[a.t].msg)] == id
  {
  }

  /** Any other step but a creation leaves a task with an id it had before. */
  lemma Moves(w: World, s: State, a: Action, id: ThreadId)
    requires Enabled(w, s, a) && !a.Lookup? && !a.Recheck? && !Mints(s, a, id)
    requires a.t in Step(w, s, a).tasks && Carries(Step(w, s, a).tasks[a.t].pc, id)
    ensures a.t in s.tasks && Step(w, s, a).tasks[a.t].msg == s.tasks[a.t].msg && Carries(s.tasks[a.t].pc, id)
    ensures !Step(w, s, a).tasks[a.t].pc.Made?
  {
  }

  /** A new id has been used by nobody. */
  lemma StepKeepsUnused(w: World, s: State, a: Action, id: ThreadId)
    requires Unused(s, id) && Enabled(w, s, a) && !Mints(s, a, id)
    ensures Unused(Step(w, s, a), id)
  {
    var s' := Step(w, s, a);
    forall t | t in s'.tasks
      ensures !Carries(s'.tasks[t].pc, id)
    {
      if t == a.t && Carries(s'.tasks[t].pc, id) {
        if a.Lookup? || a.Recheck? {
          Looks(w, s, a, id);
        } else {
          Moves(w, s, a, id);
        }
      }
    }
    forall slot | slot in s'.threads
      ensures s'.threads[slot] != id
    {
      if a.Save? {
        assert !Carries(s.tasks[a.t].pc, id);
      }
    }
  }

  lemma StepKeepsNoneAhead(w: World, s: State, a: Action)
    requires NoneAhead(s) && Enabled(w, s, a)
    ensures NoneAhead(Step(w, s, a))
  {
    forall k: nat | k >= Step(w, s, a).nextId
      ensures Unused(Step(w, s, a), Minted(k))
    {
      assert k >= s.nextId;
      StepKeepsUnused(w, s, a, Minted(k));
    }
  }

  lemma {:induction false} RunKeepsNoneAhead(w: World, run: seq<Action>)
    requires After(w, map[], run).Some?
    ensures NoneAhead(After(w, map[], run).value)
  {
    if run != [] {
      RunKeepsNoneAhead(w, run[..|run| - 1]);
      StepKeepsNoneAhead(w, After(w, map[], run[..|run| - 1]).value, run[|run| - 1]);
    }
  }

  /** From nobody to the task that has just made the id. */
  lemma MintedByActor(w: World, s: State, a: Action, k: nat)
    requires NoneAhead(s) && Enabled(w, s, a) && Mints(s, a, Minted(k))
    ensures MadeBy(w, Step(w, s, a), Minted(k), s.tasks[a.t].msg)
  {
    assert k == s.nextId && Unused(s, Minted(k));
  }

  /** Every minted id has a maker. */
  lemma {:induction false} Maker(w: World, run: seq<Action>, k: nat) returns (maker: Msg)
    requires After(w, map[], run).Some?
    ensures MadeBy(w, After(w, map[], run).value, Minted(k), maker)
  {
    if run == [] {
      maker := Msg("", "", None, None, None, None);
    } else {
      var front, a := run[..|run| - 1], run[|run| - 1];
      var s := After(w, map[], front).value;
      maker := Maker(w, front, k);
      if Mints(s, a, Minted(k)) {
        RunKeepsNoneAhead(w, front);
        MintedByActor(w, s, a, k);
        maker := s.tasks[a.t].msg;
      } else {
        StepKeepsStored(w, s, a, Minted(k), maker);
        StepKeepsHeld(w, s, a, Minted(k), maker);
      }
    }
  }

  // ---- The results ----------------------------------------------------------------------------

  /** A finished task of the run. */
  predicate Finished(s: State, t: nat) {
    t in s.tasks && s.tasks[t].pc.Done?
  }

  lemma {:induction false} TasksArrived(w: World, run: seq<Action>)
    requires After(w, map[], run).Some?
    ensures forall t :: t in After(w, map[], run).value.tasks ==> After(w, map[], run).value.tasks[t].msg in w.msgs
  {
    if run != [] {
      var front, a := run[..|run| - 1], run[|run| - 1];
      TasksArrived(w, front);
      var s := After(w, map[], front).value;
      forall t | t in Step(w, s, a).tasks
        ensures Step(w, s, a).tasks[t].msg in w.msgs
      {
        ArrivedStays(w, s, a, t);
      }
    }
  }

  lemma ArrivedStays(w: World, s: State, a: Action, t: nat)
    requires Enabled(w, s, a) && t in Step(w, s, a).tasks
    ensures if t in s.tasks then Step(w, s, a).tasks[t].msg == s.tasks[t].msg else Step(w, s, a).tasks[t].msg in w.msgs
  {
  }

  lemma SharedSource(w: World, m: Msg, n: Msg, maker: Msg)
    requires Plain(m) && Plain(n) && From(w, m, maker) && From(w, n, maker)
    ensures SameConversation(w, m, n) || Stray(w, m, n) || Stray(w, n, m)
  {
    ReadTogetherIff(w, m, n);
    StoredForIff(w, m, n);
    StoredForIff(w, n, m);
  }

  /** In every run from an empty store, whatever fails or interleaves: two tasks
      that end with one minted thread have messages of one conversation; the one
      exception is a message whose connection has no owner, which may share with
      its bare chat. */
  lemma OneThreadOneConversation(w: World, run: seq<Action>, t: nat, u: nat)
    requires AllPlain(w) && After(w, map[], run).Some?
    requires Finished(After(w, map[], run).value, t) && Finished(After(w, map[], run).value, u)
    requires After(w, map[], run).value.tasks[t].pc.id == After(w, map[], run).value.tasks[u].pc.id
    requires After(w, map[], run).value.tasks[t].pc.id.Minted?
    ensures var s := After(w, map[], run).value;
            var (m, n) := (s.tasks[t].msg, s.tasks[u].msg);
            SameConversation(w, m, n) || Stray(w, m, n) || Stray(w, n, m)
  {
    var s := After(w, map[], run).value;
    var maker := Maker(w, run, s.tasks[t].pc.id.n);
    TasksArrived(w, run);
    assert Carries(s.tasks[t].pc, s.tasks[t].pc.id) && Carries(s.tasks[u].pc, s.tasks[t].pc.id);
    SharedSource(w, s.tasks[t].msg, s.tasks[u].msg, maker);
  }

  lemma StaysMinted(w: World, s: State, a: Action, name: string)
    requires Unused(s, Preferred(name)) && Enabled(w, s, a) && (forall m :: m in w.msgs ==> !Given(m.preferred))
    requires forall t :: t in s.tasks ==> s.tasks[t].msg in w.msgs
    ensures Unused(Step(w, s, a), Preferred(name))
  {
    StepKeepsUnused(w, s, a, Preferred(name));
  }

  lemma {:induction false} NothingPreferred(w: World, run: seq<Action>, name: string)
    requires After(w, map[], run).Some? && forall m :: m in w.msgs ==> !Given(m.preferred)
    ensures Unused(After(w, map[], run).value, Preferred(name))
  {
    if run != [] {
      var front := run[..|run| - 1];
      NothingPreferred(w, front, name);
      TasksArrived(w, front);
      StaysMinted(w, After(w, map[], front).value, run[|run| - 1], name);
    }
  }

  /** For harmless messages without a preferred id: two finished tasks have one
      thread exactly when their messages belong to one conversation. */
  lemma SameThreadIff(w: World, run: seq<Action>, t: nat, u: nat)
    requires AllPlain(w) && Harmless(w) && forall m :: m in w.msgs ==> !Given(m.preferred)
    requires After(w, map[], run).Some?
    requires Finished(After(w, map[], run).value, t) && Finished(After(w, map[], run).value, u)
    ensures var s := After(w, map[], run).value;
            s.tasks[t].pc.id == s.tasks[u].pc.id <==> SameConversation(w, s.tasks[t].msg, s.tasks[u].msg)
  {
    var s := After(w, map[], run).value;
    SafeIffHarmless(w);
    TasksArrived(w, run);
    if SameConversation(w, s.tasks[t].msg, s.tasks[u].msg) {
      ReadTogetherIff(w, s.tasks[t].msg, s.tasks[u].msg);
      FinishedTasksAgree(w, map[], run, t);
      FinishedTasksAgree(w, map[], run, u);
    } else if s.tasks[t].pc.id == s.tasks[u].pc.id {
      if s.tasks[t].pc.id.Preferred? {
        NothingPreferred(w, run, s.tasks[t].pc.id.name);
        assert Carries(s.tasks[t].pc, s.tasks[t].pc.id);
      } else {
        OneThreadOneConversation(w, run, t, u);
      }
    }
  }

  // ---- What `created` says ----------------------------------------------------------------------

  predicate IsCreate(a: Action, t: nat) {
    a.Create? && a.t == t
  }

  /** The task has asked the Gateway for a thread. */
  ghost predicate HasCreated(run: seq<Action>, t: nat) {
    exists i :: 0 <= i < |run| && IsCreate(run[i], t)
  }

  predicate PastCreation(pc: Pc) {
    pc.Made? || pc.Saved? || (pc.Done? && pc.created)
  }

  lemma SearchMoves(w: World, s: State, a: Action)
    requires Enabled(w, s, a) && (a.Lookup? || a.Enter? || a.Acquire? || a.Recheck?)
    ensures var (pc, pc') := (s.tasks[a.t].pc, Step(w, s, a).tasks[a.t].pc);
            !pc.Dead? && !PastCreation(pc) && !PastCreation(pc')
  {
  }

  lemma FinishMoves(w: World, s: State, a: Action)
    requires Enabled(w, s, a) && (a.Create? || a.Save? || a.Exit?)
    ensures var (pc, pc') := (s.tasks[a.t].pc, Step(w, s, a).tasks[a.t].pc);
            !pc.Dead? && (PastCreation(pc') <==> PastCreation(pc) || a.Create?)
  {
  }

  lemma OthersStay(w: World, s: State, a: Action, t: nat)
    requires Enabled(w, s, a) && t in s.tasks && t != a.t
    ensures t in Step(w, s, a).tasks && Step(w, s, a).tasks[t] == s.tasks[t]
  {
  }

  lemma CreationMoves(w: World, s: State, a: Action, t: nat)
    requires Enabled(w, s, a) && t in s.tasks
    ensures t in Step(w, s, a).tasks
    ensures !Step(w, s, a).tasks[t].pc.Dead? ==>
              && !s.tasks[t].pc.Dead?
              && (PastCreation(Step(w, s, a).tasks[t].pc) <==> PastCreation(s.tasks[t].pc) || IsCreate(a, t))
  {
    if t != a.t {
      OthersStay(w, s, a, t);
    } else if a.Fail? {
      assert Step(w, s, a).tasks[t].pc.Dead?;
    } else if a.Create? || a.Save? || a.Exit? {
      FinishMoves(w, s, a);
    } else {
      SearchMoves(w, s, a);
    }
  }

  lemma ArrivalHasNotCreated(w: World, s: State, a: Action, t: nat)
    requires Enabled(w, s, a) && t !in s.tasks
    ensures !IsCreate(a, t) && (t in Step(w, s, a).tasks ==> !PastCreation(Step(w, s, a).tasks[t].pc))
  {
  }

  lemma HasCreatedSnoc(run: seq<Action>, t: nat)
    requires run != []
    ensures HasCreated(run, t) <==> HasCreated(run[..|run| - 1], t) || IsCreate(run[|run| - 1], t)
  {
    var front := run[..|run| - 1];
    if HasCreated(front, t) {
      var i :| 0 <= i < |front| && IsCreate(front[i], t);
      assert IsCreate(run[i], t);
    }
    if HasCreated(run, t) && !IsCreate(run[|run| - 1], t) {
      var i :| 0 <= i < |run| && IsCreate(run[i], t);
      assert IsCreate(front[i], t);
    }
  }

  /** In every world and run: a task that has not failed is past its creation
      exactly when it performed one, and so a finished task answers `created`
      exactly when its own request made the thread. */
  lemma {:induction false} CreatedIff(w: World, stored: map<Slot, ThreadId>, run: seq<Action>, t: nat)
    requires After(w, stored, run).Some?
    ensures var tasks := After(w, stored, run).value.tasks;
            && (t !in tasks ==> !HasCreated(run, t))
            && (t in tasks && !tasks[t].pc.Dead? ==> (PastCreation(tasks[t].pc) <==> HasCreated(run, t)))
            && (t in tasks && tasks[t].pc.Done? ==> (tasks[t].pc.created <==> HasCreated(run, t)))
  {
    if run != [] {
      var front, a := run[..|run| - 1], run[|run| - 1];
      var s := After(w, stored, front).value;
      CreatedIff(w, stored, front, t);
      HasCreatedSnoc(run, t);
      if t !in s.tasks {
        ArrivalHasNotCreated(w, s, a, t);
      } else {
        CreationMoves(w, s, a, t);
      }
    }
  }
}
