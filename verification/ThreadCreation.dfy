/** Creating the thread of a conversation. */
module ThreadCreation {
  import opened Wrappers
  import ChannelStore

  // Getting or creating the Gateway thread of a conversation
  // (backend/app/channels/manager.py, `_get_or_create_thread`).
  //
  // Every inbound message runs as its own task; a task can be interrupted at each
  // `await`. The protocol is a labelled step system: `Step` is one uninterrupted
  // piece of one task, and a run is any sequence of enabled steps of any number of
  // tasks.

  datatype Msg = Msg(channel: string, chat: string, topic: Option<string>,
                     connection: Option<string>, owner: Option<string>, preferred: Option<string>)

  predicate Truthy(s: Option<string>) {
    s.Some? && s.value != ""
  }

  /** Where a conversation's thread id is kept: the connection repository or the local store. */
  datatype Slot = Linked(connection: string, chat: string, topic: string) | Local(key: string)

  datatype ThreadId = Minted(n: nat) | Preferred(name: string)

  /** What is fixed during a run: whether a connection repository is attached,
      whether awaited calls may raise or tasks be cancelled, and which
      messages may arrive. */
  datatype World = World(repo: bool, mayFail: bool, msgs: set<Msg>)

  function LinkedSlot(m: Msg): Slot
    requires Truthy(m.connection)
  {
    Linked(m.connection.value, m.chat, if m.topic.Some? then m.topic.value else "")
  }

  function LocalSlot(m: Msg): Slot {
    Local(ChannelStore.Key(m.channel, m.chat, m.topic))
  }

  /** Where `_lookup_thread_id` reads. */
  function ReadSlot(w: World, m: Msg): Slot {
    if Truthy(m.connection) && w.repo then LinkedSlot(m) else LocalSlot(m)
  }

  /** Where `_store_thread_id` writes. */
  function WriteSlot(w: World, m: Msg): Slot {
    if Truthy(m.connection) && Truthy(m.owner) && w.repo then LinkedSlot(m) else LocalSlot(m)
  }

  datatype LockKey = LockKey(channel: string, chat: string, topic: Option<string>)

  function KeyOf(m: Msg): LockKey {
    LockKey(m.channel, m.chat, m.topic)
  }

  /** Program points of one task. `found` is what the last lookup returned. */
  datatype Pc =
    | Start
    | Looked(found: Option<ThreadId>)
    | Waiting(lock: nat)
    | Holding(lock: nat)
    | Checked(lock: nat, found: Option<ThreadId>)
    | Made(lock: nat, id: ThreadId)
    | Saved(lock: nat, id: ThreadId)
    | Done(id: ThreadId, created: bool)
    | Dead
  {
    predicate HasLock() { Waiting? || Owns() }
    predicate Owns() { Holding? || Checked? || Made? || Saved? }
  }

  datatype Task = Task(msg: Msg, pc: Pc)

  datatype State = State(
    tasks: map<nat, Task>,
    registry: map<LockKey, nat>,    // the lock objects, by conversation
    held: set<nat>,                 // lock objects now held
    nextLock: nat,
    nextId: nat,
    threads: map<Slot, ThreadId>,   // stored thread ids
    made: map<Slot, seq<ThreadId>>) // history: ids obtained from the Gateway for tasks reading a slot

  /** No task yet; `stored` are the ids kept from earlier, each obtained once. */
  function Init(stored: map<Slot, ThreadId>): State {
    State(map[], map[], {}, 0, 0, stored, map slot | slot in stored :: [stored[slot]])
  }

  datatype Action =
    | Spawn(t: nat, msg: Msg)
    | Lookup(t: nat)
    | Enter(t: nat)
    | Acquire(t: nat)
    | Recheck(t: nat)
    | Create(t: nat, conflict: bool)
    | Save(t: nat)
    | Exit(t: nat)
    | Fail(t: nat)

  function Find<K, V>(m: map<K, V>, k: K): Option<V> {
    if k in m then Some(m[k]) else None
  }

  function MadeFor(s: State, slot: Slot): seq<ThreadId> {
    if slot in s.made then s.made[slot] else []
  }

  /** The id a creation comes back with: the preferred one, even when it exists already, or a new one. */
  function IdFor(m: Msg, n: nat): ThreadId {
    if Truthy(m.preferred) then Preferred(m.preferred.value) else Minted(n)
  }

  predicate Enabled(w: World, s: State, a: Action) {
    if a.Spawn? then a.t !in s.tasks && a.msg in w.msgs
    else
      && a.t in s.tasks
      && var Task(m, pc) := s.tasks[a.t];
         match a
         case Spawn(_, _) => false
         case Lookup(_) => pc.Start?
         case Enter(_) => pc.Looked?
         case Acquire(_) => pc.Waiting? && pc.lock !in s.held
         case Recheck(_) => pc.Holding?
         case Create(_, conflict) => pc.Checked? && pc.found.None? && (conflict ==> Truthy(m.preferred))
         case Save(_) => pc.Made?
         case Exit(_) => pc.Saved? || (pc.Checked? && pc.found.Some?)
         case Fail(_) => w.mayFail && !pc.Done? && !pc.Dead?
  }

  function At(s: State, t: nat, pc: Pc): State
    requires t in s.tasks
  {
    s.(tasks := s.tasks[t := s.tasks[t].(pc := pc)])
  }

  /** Leaving `async with lock` and the `finally` that pops the registry entry. */
  function Leave(s: State, t: nat, pc: Pc): State
    requires t in s.tasks
  {
    var Task(m, was) := s.tasks[t];
    var s' := At(s, t, pc);
    if !was.HasLock() then s'
    else s'.(registry := s.registry - {KeyOf(m)},
             held := if was.Owns() then s.held - {was.lock} else s.held)
  }

  function Step(w: World, s: State, a: Action): State
    requires Enabled(w, s, a)
  {
    if a.Spawn? then s.(tasks := s.tasks[a.t := Task(a.msg, Start)])
    else
      var t := a.t;
      var Task(m, pc) := s.tasks[t];
      match a
      case Lookup(_) => At(s, t, Looked(Find(s.threads, ReadSlot(w, m))))
      case Enter(_) =>
        if pc.found.Some? then At(s, t, Done(pc.found.value, false))
        else if KeyOf(m) in s.registry then At(s, t, Waiting(s.registry[KeyOf(m)]))
        else At(s, t, Waiting(s.nextLock)).(registry := s.registry[KeyOf(m) := s.nextLock], nextLock := s.nextLock + 1)
      case Acquire(_) => At(s, t, Holding(pc.lock)).(held := s.held + {pc.lock})
      case Recheck(_) => At(s, t, Checked(pc.lock, Find(s.threads, ReadSlot(w, m))))
      case Create(_, _) =>
        var id := IdFor(m, s.nextId);
        var slot := ReadSlot(w, m);
        At(s, t, Made(pc.lock, id)).(nextId := s.nextId + 1, made := s.made[slot := MadeFor(s, slot) + [id]])
      case Save(_) => At(s, t, Saved(pc.lock, pc.id)).(threads := s.threads[WriteSlot(w, m) := pc.id])
      case Exit(_) => Leave(s, t, if pc.Saved? then Done(pc.id, true) else Done(pc.found.value, false))
      case Fail(_) => Leave(s, t, Dead)
  }

  /** The state after a run, if every step of it was enabled. */
  function After(w: World, stored: map<Slot, ThreadId>, run: seq<Action>): Option<State> {
    if run == [] then Some(Init(stored))
    else
      var before := After(w, stored, run[..|run| - 1]);
      var a := run[|run| - 1];
      if before.Some? && Enabled(w, before.value, a) then Some(Step(w, before.value, a)) else None
  }

  ghost predicate AtMostOnePerConversation(w: World) {
    forall stored, run :: After(w, stored, run).Some? ==>
      forall slot :: |MadeFor(After(w, stored, run).value, slot)| <= 1
  }

  /** The condition a caller can check on the messages: what is written is what
      is read, and two messages share a slot just when they share a lock. */
  ghost predicate Coherent(w: World) {
    && (forall m :: m in w.msgs ==> ReadSlot(w, m) == WriteSlot(w, m))
    && (forall m, n :: m in w.msgs && n in w.msgs ==> (ReadSlot(w, m) == ReadSlot(w, n) <==> KeyOf(m) == KeyOf(n)))
  }

  ghost predicate Safe(w: World) {
    Coherent(w) && (w.mayFail ==> w.msgs == {})
  }

  // ---- The invariant -------------------------------------------------------

  ghost predicate LocksBounded(s: State) {
    && (forall k :: k in s.registry ==> s.registry[k] < s.nextLock)
    && (forall t :: t in s.tasks && s.tasks[t].pc.HasLock() ==> s.tasks[t].pc.lock < s.nextLock)
  }

  ghost predicate OwnsLock(s: State, t: nat, lock: nat) {
    t in s.tasks && s.tasks[t].pc.Owns() && s.tasks[t].pc.lock == lock
  }

  /** A lock has one owner while it is held, and none while it is free. */
  ghost predicate Exclusive(s: State) {
    && (forall t, lock :: OwnsLock(s, t, lock) ==> lock in s.held)
    && (forall t, u, lock :: OwnsLock(s, t, lock) && OwnsLock(s, u, lock) ==> t == u)
    && (forall lock :: lock in s.held ==> exists t :: OwnsLock(s, t, lock))
  }

  /** Until a conversation's id is stored, all its tasks wait on the registered lock. */
  ghost predicate OneLock(w: World, s: State) {
    forall t :: t in s.tasks && s.tasks[t].pc.HasLock() && ReadSlot(w, s.tasks[t].msg) !in s.threads ==>
      KeyOf(s.tasks[t].msg) in s.registry && s.registry[KeyOf(s.tasks[t].msg)] == s.tasks[t].pc.lock
  }

  /** What one task's program point says about its conversation. */
  ghost predicate TaskOk(w: World, s: State, task: Task) {
    var slot := ReadSlot(w, task.msg);
    && task.msg in w.msgs
    && !task.pc.Dead?
    && ((task.pc.Looked? || task.pc.Checked?) && task.pc.found.Some? ==> slot in s.threads && s.threads[slot] == task.pc.found.value)
    && (task.pc.Checked? && task.pc.found.None? ==> slot !in s.threads && MadeFor(s, slot) == [])
    && (task.pc.Made? ==> slot !in s.threads && MadeFor(s, slot) == [task.pc.id])
    && (task.pc.Saved? || task.pc.Done? ==> slot in s.threads && s.threads[slot] == task.pc.id)
  }

  ghost predicate SlotOk(w: World, s: State, slot: Slot) {
    && |MadeFor(s, slot)| <= 1
    && (slot in s.threads ==> MadeFor(s, slot) == [s.threads[slot]])
    && (slot !in s.threads && MadeFor(s, slot) != [] ==>
          exists t :: t in s.tasks && s.tasks[t].pc.Made? && ReadSlot(w, s.tasks[t].msg) == slot)
  }

  ghost predicate Inv(w: World, s: State) {
    && LocksBounded(s)
    && Exclusive(s)
    && OneLock(w, s)
    && (forall t :: t in s.tasks ==> TaskOk(w, s, s.tasks[t]))
    && (forall slot :: SlotOk(w, s, slot))
  }

  lemma StepKeepsBounds(w: World, s: State, a: Action)
    requires LocksBounded(s) && Enabled(w, s, a)
    ensures LocksBounded(Step(w, s, a))
  {
  }

  /** A step either takes a free lock, or gives one back, or changes no ownership. */
  lemma StepOwnership(w: World, s: State, a: Action)
    requires Enabled(w, s, a)
    ensures var s' := Step(w, s, a);
            && (forall t, lock :: t != a.t ==> (OwnsLock(s', t, lock) <==> OwnsLock(s, t, lock)))
            && (|| (s'.held == s.held && forall lock :: OwnsLock(s', a.t, lock) <==> OwnsLock(s, a.t, lock))
                || (exists l :: l !in s.held && s'.held == s.held + {l} && forall lock :: OwnsLock(s', a.t, lock) <==> lock == l)
                || (exists l :: OwnsLock(s, a.t, l) && s'.held == s.held - {l} && forall lock :: !OwnsLock(s', a.t, lock)))
  {
    var s' := Step(w, s, a);
    if a.t in s.tasks && s.tasks[a.t].pc.HasLock() {
      var l := s.tasks[a.t].pc.lock;
      if a.Acquire? {
        assert forall lock :: OwnsLock(s', a.t, lock) <==> lock == l;
      } else if s.tasks[a.t].pc.Owns() && (a.Exit? || a.Fail?) {
        assert OwnsLock(s, a.t, l);
      }
    }
  }

  lemma StepKeepsExclusion(w: World, s: State, a: Action)
    requires Exclusive(s) && Enabled(w, s, a)
    ensures Exclusive(Step(w, s, a))
  {
    StepOwnership(w, s, a);
    var s' := Step(w, s, a);
    forall lock | lock in s'.held
      ensures exists t :: OwnsLock(s', t, lock)
    {
      if lock in s.held {
        var t :| OwnsLock(s, t, lock);
        assert OwnsLock(s', t, lock);
      } else {
        assert OwnsLock(s', a.t, lock);
      }
    }
  }

  lemma StepKeepsOneLock(w: World, s: State, a: Action)
    requires Safe(w) && Inv(w, s) && Enabled(w, s, a)
    ensures OneLock(w, Step(w, s, a))
  {
    if a.Exit? {
      ExitKeepsOneLock(w, s, a.t);
    } else if a.Enter? {
      EnterKeepsOneLock(w, s, a.t);
    }
  }

  /** A task leaves only once the id of its conversation is stored. */
  lemma ExitKeepsOneLock(w: World, s: State, t: nat)
    requires Safe(w) && Inv(w, s) && Enabled(w, s, Exit(t))
    ensures OneLock(w, Step(w, s, Exit(t)))
  {
    assert TaskOk(w, s, s.tasks[t]);
  }

  lemma EnterKeepsOneLock(w: World, s: State, t: nat)
    requires Safe(w) && Inv(w, s) && Enabled(w, s, Enter(t))
    ensures OneLock(w, Step(w, s, Enter(t)))
  {
  }

  /** Two tasks of one conversation cannot both be past the re-check before the id is stored. */
  lemma SoleOwner(w: World, s: State, t: nat, u: nat)
    requires Safe(w) && Inv(w, s) && t in s.tasks && u in s.tasks
    requires s.tasks[t].pc.Owns() && s.tasks[u].pc.Owns()
    requires ReadSlot(w, s.tasks[t].msg) == ReadSlot(w, s.tasks[u].msg) && ReadSlot(w, s.tasks[t].msg) !in s.threads
    ensures t == u
  {
    assert TaskOk(w, s, s.tasks[t]) && TaskOk(w, s, s.tasks[u]);
    var lock := s.tasks[t].pc.lock;
    assert OwnsLock(s, t, lock) && OwnsLock(s, u, lock);
  }

  /** Stored ids are never replaced, and only a creating task adds to the history of its own slot. */
  lemma StepFrame(w: World, s: State, a: Action)
    requires Safe(w) && Inv(w, s) && Enabled(w, s, a)
    ensures forall slot :: slot in s.threads ==> slot in Step(w, s, a).threads && Step(w, s, a).threads[slot] == s.threads[slot]
    ensures forall slot :: slot !in s.threads && slot in Step(w, s, a).threads ==>
              a.Save? && slot == ReadSlot(w, s.tasks[a.t].msg)
    ensures forall slot :: MadeFor(Step(w, s, a), slot) != MadeFor(s, slot) ==>
              a.Create? && slot == ReadSlot(w, s.tasks[a.t].msg)
  {
    if a.t in s.tasks {
      assert TaskOk(w, s, s.tasks[a.t]);
    }
  }

  lemma StepKeepsOther(w: World, s: State, a: Action, t: nat)
    requires Safe(w) && Inv(w, s) && Enabled(w, s, a) && t in s.tasks && t != a.t
    ensures TaskOk(w, Step(w, s, a), s.tasks[t])
  {
    assert TaskOk(w, s, s.tasks[t]);
    StepFrame(w, s, a);
    var slot := ReadSlot(w, s.tasks[t].msg);
    if (a.Save? || a.Create?) && s.tasks[t].pc.Owns() && slot == ReadSlot(w, s.tasks[a.t].msg) {
      assert TaskOk(w, s, s.tasks[a.t]);
      SoleOwner(w, s, t, a.t);
    }
  }

  lemma StepKeepsActor(w: World, s: State, a: Action)
    requires Safe(w) && Inv(w, s) && Enabled(w, s, a)
    ensures TaskOk(w, Step(w, s, a), Step(w, s, a).tasks[a.t])
  {
    if a.Create? || a.Save? || a.Exit? {
      OwnerMoves(w, s, a);
    } else if a.t in s.tasks {
      assert TaskOk(w, s, s.tasks[a.t]);
      if s.tasks[a.t].pc.Holding? {
        HolderIsFirst(w, s, a.t);
      }
    }
  }

  lemma OwnerMoves(w: World, s: State, a: Action)
    requires Safe(w) && Inv(w, s) && Enabled(w, s, a) && (a.Create? || a.Save? || a.Exit?)
    ensures TaskOk(w, Step(w, s, a), Step(w, s, a).tasks[a.t])
  {
    assert TaskOk(w, s, s.tasks[a.t]);
    assert SlotOk(w, s, ReadSlot(w, s.tasks[a.t].msg));
  }

  /** A task that has just got the lock finds the id stored or nothing made yet. */
  lemma HolderIsFirst(w: World, s: State, t: nat)
    requires Safe(w) && Inv(w, s) && t in s.tasks && s.tasks[t].pc.Holding?
    ensures var slot := ReadSlot(w, s.tasks[t].msg); slot in s.threads || MadeFor(s, slot) == []
  {
    var slot := ReadSlot(w, s.tasks[t].msg);
    assert SlotOk(w, s, slot);
    if slot !in s.threads && MadeFor(s, slot) != [] {
      var u :| u in s.tasks && s.tasks[u].pc.Made? && ReadSlot(w, s.tasks[u].msg) == slot;
      SoleOwner(w, s, t, u);
    }
  }

  lemma StepKeepsTasks(w: World, s: State, a: Action)
    requires Safe(w) && Inv(w, s) && Enabled(w, s, a)
    ensures forall t :: t in Step(w, s, a).tasks ==> TaskOk(w, Step(w, s, a), Step(w, s, a).tasks[t])
  {
    var s' := Step(w, s, a);
    forall t | t in s'.tasks
      ensures TaskOk(w, s', s'.tasks[t])
    {
      if t == a.t {
        StepKeepsActor(w, s, a);
      } else {
        assert s'.tasks[t] == s.tasks[t];
        StepKeepsOther(w, s, a, t);
      }
    }
  }

  /** A task holding a fresh thread stays where it is until it stores the id. */
  lemma MakerStays(w: World, s: State, a: Action, t: nat)
    requires Enabled(w, s, a) && !a.Fail? && t in s.tasks && s.tasks[t].pc.Made? && a != Save(t)
    ensures t in Step(w, s, a).tasks && Step(w, s, a).tasks[t] == s.tasks[t]
  {
  }

  lemma CreateKeepsSlot(w: World, s: State, t: nat, conflict: bool)
    requires Safe(w) && Inv(w, s) && Enabled(w, s, Create(t, conflict))
    ensures SlotOk(w, Step(w, s, Create(t, conflict)), ReadSlot(w, s.tasks[t].msg))
  {
    assert TaskOk(w, s, s.tasks[t]);
    assert Step(w, s, Create(t, conflict)).tasks[t].pc.Made?;
  }

  lemma SaveKeepsSlot(w: World, s: State, t: nat)
    requires Safe(w) && Inv(w, s) && Enabled(w, s, Save(t))
    ensures SlotOk(w, Step(w, s, Save(t)), ReadSlot(w, s.tasks[t].msg))
  {
    assert TaskOk(w, s, s.tasks[t]);
  }

  lemma StepKeepsOtherSlot(w: World, s: State, a: Action, slot: Slot)
    requires Safe(w) && Inv(w, s) && Enabled(w, s, a)
    requires a.Create? || a.Save? ==> slot != ReadSlot(w, s.tasks[a.t].msg)
    ensures SlotOk(w, Step(w, s, a), slot)
  {
    assert SlotOk(w, s, slot);
    StepFrame(w, s, a);
    if slot !in s.threads && MadeFor(s, slot) != [] {
      var t :| t in s.tasks && s.tasks[t].pc.Made? && ReadSlot(w, s.tasks[t].msg) == slot;
      MakerStays(w, s, a, t);
    }
  }

  lemma StepKeepsSlots(w: World, s: State, a: Action)
    requires Safe(w) && Inv(w, s) && Enabled(w, s, a)
    ensures forall slot :: SlotOk(w, Step(w, s, a), slot)
  {
    forall slot
      ensures SlotOk(w, Step(w, s, a), slot)
    {
      if a.Create? && slot == ReadSlot(w, s.tasks[a.t].msg) {
        CreateKeepsSlot(w, s, a.t, a.conflict);
      } else if a.Save? && slot == ReadSlot(w, s.tasks[a.t].msg) {
        SaveKeepsSlot(w, s, a.t);
      } else {
        StepKeepsOtherSlot(w, s, a, slot);
      }
    }
  }

  lemma StepKeepsInv(w: World, s: State, a: Action)
    requires Safe(w) && Inv(w, s) && Enabled(w, s, a)
    ensures Inv(w, Step(w, s, a))
  {
    StepKeepsBounds(w, s, a);
    StepKeepsExclusion(w, s, a);
    StepKeepsOneLock(w, s, a);
    StepKeepsTasks(w, s, a);
    StepKeepsSlots(w, s, a);
  }

  lemma {:induction false} RunKeepsInv(w: World, stored: map<Slot, ThreadId>, run: seq<Action>)
    requires Safe(w) && After(w, stored, run).Some?
    ensures Inv(w, After(w, stored, run).value)
  {
    if run != [] {
      var before := run[..|run| - 1];
      RunKeepsInv(w, stored, before);
      StepKeepsInv(w, After(w, stored, before).value, run[|run| - 1]);
    }
  }

  // ---- The manager's dictionaries -------------------------------------------

  /** The lock registry and the stored ids the manager updates in place. Each
      method is the part of `_get_or_create_thread` between two awaits and
      takes the protocol one step further; `state` is that protocol state. */
  class Manager {
    ghost const w: World
    const repo: bool
    var locks: map<LockKey, nat>
    var nextLock: nat
    var threads: map<Slot, ThreadId>
    ghost var state: State

    ghost predicate Valid()
      reads this
    {
      && repo == w.repo && locks == state.registry && nextLock == state.nextLock && threads == state.threads
      && (Safe(w) ==> Inv(w, state))
    }

    constructor (repo: bool, stored: map<Slot, ThreadId>, ghost w: World)
      requires repo == w.repo
      ensures Valid() && state == Init(stored) && this.w == w
    {
      this.w, this.repo := w, repo;
      locks, nextLock, threads, state := map[], 0, stored, Init(stored);
    }

    ghost method Advance(a: Action)
      requires Enabled(w, state, a) && (Safe(w) ==> Inv(w, state))
      modifies this`state
      ensures state == Step(w, old(state), a) && (Safe(w) ==> Inv(w, state))
    {
      if Safe(w) {
        StepKeepsInv(w, state, a);
      }
      state := Step(w, state, a);
    }

    /** `_lookup_thread_id`, before the lock or under it. */
    method LookupThreadId(msg: Msg, ghost a: Action) returns (found: Option<ThreadId>)
      requires Valid() && Enabled(w, state, a) && (a.Lookup? || a.Recheck?) && state.tasks[a.t].msg == msg
      modifies this`state
      ensures Valid() && state == Step(w, old(state), a) && a.t in state.tasks
      ensures state.tasks[a.t].pc == if a.Lookup? then Looked(found) else Checked(old(state).tasks[a.t].pc.lock, found)
    {
      Advance(a);
      var slot := if Truthy(msg.connection) && repo then LinkedSlot(msg) else LocalSlot(msg);
      found := if slot in threads then Some(threads[slot]) else None;
    }

    /** `setdefault` on the lock registry: the lock the task then waits for. */
    method RegisteredLock(msg: Msg, ghost t: nat) returns (lock: nat)
      requires Valid() && Enabled(w, state, Enter(t)) && state.tasks[t] == Task(msg, Looked(None))
      modifies this
      ensures Valid() && state == Step(w, old(state), Enter(t)) && t in state.tasks
      ensures state.tasks[t].pc == Waiting(lock)
    {
      Advance(Enter(t));
      if KeyOf(msg) !in locks {
        locks := locks[KeyOf(msg) := nextLock];
        nextLock := nextLock + 1;
      }
      lock := locks[KeyOf(msg)];
    }

    /** `_store_thread_id` */
    method StoreThreadId(msg: Msg, id: ThreadId, ghost t: nat)
      requires Valid() && Enabled(w, state, Save(t)) && state.tasks[t].msg == msg && state.tasks[t].pc.id == id
      modifies this
      ensures Valid() && state == Step(w, old(state), Save(t))
    {
      Advance(Save(t));
      var slot := if Truthy(msg.connection) && Truthy(msg.owner) && repo then LinkedSlot(msg) else LocalSlot(msg);
      threads := threads[slot := id];
    }

    /** The `finally` clause: the registry entry goes, whoever still waits on its lock. */
    method DropLock(msg: Msg, ghost a: Action)
      requires Valid() && Enabled(w, state, a) && (a.Exit? || a.Fail?)
      requires state.tasks[a.t].msg == msg && state.tasks[a.t].pc.HasLock()
      modifies this
      ensures Valid() && state == Step(w, old(state), a)
    {
      Advance(a);
      locks := locks - {KeyOf(msg)};
    }
  }

  // ---- What the invariant gives --------------------------------------------

  /** In a safe world every finished task returns the one id obtained for its
      conversation, which is also the stored one. */
  lemma FinishedTasksAgree(w: World, stored: map<Slot, ThreadId>, run: seq<Action>, t: nat)
    requires Safe(w) && After(w, stored, run).Some?
    requires t in After(w, stored, run).value.tasks && After(w, stored, run).value.tasks[t].pc.Done?
    ensures var s := After(w, stored, run).value;
            var slot := ReadSlot(w, s.tasks[t].msg);
            && slot in s.threads && s.threads[slot] == s.tasks[t].pc.id
            && MadeFor(s, slot) == [s.tasks[t].pc.id]
  {
    RunKeepsInv(w, stored, run);
    var s := After(w, stored, run).value;
    assert TaskOk(w, s, s.tasks[t]);
    assert SlotOk(w, s, ReadSlot(w, s.tasks[t].msg));
  }

  /** No task is ever stuck: while one is unfinished, some step other than a new arrival is enabled. */
  lemma NoDeadlock(w: World, stored: map<Slot, ThreadId>, run: seq<Action>, t: nat)
    requires Safe(w) && After(w, stored, run).Some?
    requires t in After(w, stored, run).value.tasks && !After(w, stored, run).value.tasks[t].pc.Done?
    ensures exists a: Action :: !a.Spawn? && !a.Fail? && Enabled(w, After(w, stored, run).value, a)
  {
    RunKeepsInv(w, stored, run);
    var s := After(w, stored, run).value;
    assert TaskOk(w, s, s.tasks[t]);
    var pc := s.tasks[t].pc;
    if pc.Waiting? && pc.lock in s.held {
      var u :| OwnsLock(s, u, pc.lock);
      OwnerCanMove(w, s, u);
    } else if pc.Owns() {
      OwnerCanMove(w, s, t);
    } else if pc.Waiting? {
      assert Enabled(w, s, Acquire(t));
    } else if pc.Start? {
      assert Enabled(w, s, Lookup(t));
    } else {
      assert Enabled(w, s, Enter(t));
    }
  }

  lemma OwnerCanMove(w: World, s: State, t: nat)
    requires t in s.tasks && s.tasks[t].pc.Owns()
    ensures exists a: Action :: !a.Spawn? && !a.Fail? && Enabled(w, s, a)
  {
    var pc := s.tasks[t].pc;
    var a := if pc.Holding? then Recheck(t)
             else if pc.Made? then Save(t)
             else if pc.Checked? && pc.found.None? then Create(t, false)
             else Exit(t);
    assert Enabled(w, s, a);
  }

  // ---- The four ways to get two threads ------------------------------------

  /** `run` leads to `s`. */
  ghost predicate Leads(w: World, run: seq<Action>, s: State) {
    After(w, map[], run) == Some(s)
  }

  lemma Extend(w: World, run: seq<Action>, s: State, a: Action)
    requires Leads(w, run, s) && Enabled(w, s, a)
    ensures Leads(w, run + [a], Step(w, s, a))
  {
    assert (run + [a])[..|run + [a]| - 1] == run;
  }

  /** A fresh task of an unstored conversation reads "nothing" and gets to its lock. */
  lemma Approach(w: World, run: seq<Action>, s: State, t: nat, m: Msg) returns (run': seq<Action>, s': State, lock: nat)
    requires Leads(w, run, s) && t !in s.tasks && m in w.msgs && ReadSlot(w, m) !in s.threads
    ensures Leads(w, run', s')
    ensures lock == if KeyOf(m) in s.registry then s.registry[KeyOf(m)] else s.nextLock
    ensures s' == s.(tasks := s.tasks[t := Task(m, Waiting(lock))],
                     registry := s.registry[KeyOf(m) := lock],
                     nextLock := if KeyOf(m) in s.registry then s.nextLock else s.nextLock + 1)
  {
    Extend(w, run, s, Spawn(t, m));
    var s1 := Step(w, s, Spawn(t, m));
    Extend(w, run + [Spawn(t, m)], s1, Lookup(t));
    var s2 := Step(w, s1, Lookup(t));
    Extend(w, run + [Spawn(t, m)] + [Lookup(t)], s2, Enter(t));
    run', s' := run + [Spawn(t, m)] + [Lookup(t)] + [Enter(t)], Step(w, s2, Enter(t));
    lock := if KeyOf(m) in s.registry then s.registry[KeyOf(m)] else s.nextLock;
    assert s'.tasks == s.tasks[t := Task(m, Waiting(lock))];
    assert s'.registry == s.registry[KeyOf(m) := lock];
  }

  /** A task waiting on a free lock while its conversation is unstored obtains a thread. */
  lemma Obtain(w: World, run: seq<Action>, s: State, t: nat) returns (run': seq<Action>, s': State, id: ThreadId)
    requires Leads(w, run, s) && t in s.tasks && s.tasks[t].pc.Waiting? && s.tasks[t].pc.lock !in s.held
    requires ReadSlot(w, s.tasks[t].msg) !in s.threads
    ensures Leads(w, run', s') && id == IdFor(s.tasks[t].msg, s.nextId)
    ensures var slot := ReadSlot(w, s.tasks[t].msg);
            var lock := s.tasks[t].pc.lock;
            s' == s.(tasks := s.tasks[t := s.tasks[t].(pc := Made(lock, id))],
                     held := s.held + {lock},
                     nextId := s.nextId + 1,
                     made := s.made[slot := MadeFor(s, slot) + [id]])
  {
    var lock := s.tasks[t].pc.lock;
    Extend(w, run, s, Acquire(t));
    var s1 := Step(w, s, Acquire(t));
    Extend(w, run + [Acquire(t)], s1, Recheck(t));
    var s2 := Step(w, s1, Recheck(t));
    Extend(w, run + [Acquire(t)] + [Recheck(t)], s2, Create(t, false));
    run', s' := run + [Acquire(t)] + [Recheck(t)] + [Create(t, false)], Step(w, s2, Create(t, false));
    id := s'.tasks[t].pc.id;
    assert s'.tasks == s.tasks[t := s.tasks[t].(pc := Made(lock, id))];
  }

  /** A task holding a fresh thread stores it and leaves, popping the registry entry. */
  lemma Finish(w: World, run: seq<Action>, s: State, t: nat) returns (run': seq<Action>, s': State)
    requires Leads(w, run, s) && t in s.tasks && s.tasks[t].pc.Made?
    ensures Leads(w, run', s')
    ensures var Task(m, pc) := s.tasks[t];
            s' == s.(tasks := s.tasks[t := Task(m, Done(pc.id, true))],
                     registry := s.registry - {KeyOf(m)},
                     held := s.held - {pc.lock},
                     threads := s.threads[WriteSlot(w, m) := pc.id])
  {
    var Task(m, pc) := s.tasks[t];
    Extend(w, run, s, Save(t));
    var s1 := Step(w, s, Save(t));
    Extend(w, run + [Save(t)], s1, Exit(t));
    run', s' := run + [Save(t)] + [Exit(t)], Step(w, s1, Exit(t));
    assert s'.tasks == s.tasks[t := Task(m, Done(pc.id, true))];
  }

  lemma Twice(w: World, run: seq<Action>, s: State, slot: Slot)
    requires Leads(w, run, s) && |MadeFor(s, slot)| == 2
    ensures !AtMostOnePerConversation(w)
  {
    assert After(w, map[], run).Some?;
  }

  /** Writing elsewhere than reading: a second message creates again. */
  lemma MismatchedSlotsDuplicate(w: World, m: Msg)
    requires m in w.msgs && ReadSlot(w, m) != WriteSlot(w, m)
    ensures !AtMostOnePerConversation(w)
  {
    var r1, s1, _ := Approach(w, [], Init(map[]), 0, m);
    var r2, s2, _ := Obtain(w, r1, s1, 0);
    var r3, s3 := Finish(w, r2, s2, 0);
    var r4, s4, _ := Approach(w, r3, s3, 1, m);
    var r5, s5, _ := Obtain(w, r4, s4, 1);
    Twice(w, r5, s5, ReadSlot(w, m));
  }

  /** Two lock keys for one slot: both tasks create at once. */
  lemma SplitLocksDuplicate(w: World, m: Msg, n: Msg)
    requires m in w.msgs && n in w.msgs && ReadSlot(w, m) == ReadSlot(w, n) && KeyOf(m) != KeyOf(n)
    ensures !AtMostOnePerConversation(w)
  {
    var r1, s1, _ := Approach(w, [], Init(map[]), 0, m);
    var r2, s2, _ := Obtain(w, r1, s1, 0);
    var r3, s3, _ := Approach(w, r2, s2, 1, n);
    var r4, s4, _ := Obtain(w, r3, s3, 1);
    Twice(w, r4, s4, ReadSlot(w, m));
  }

  /** A task left waiting on a lock that is no longer registered does not
      exclude the next arrival, which gets a lock of its own. */
  lemma StrandedWaiterDuplicates(w: World, run: seq<Action>, s: State, t: nat, u: nat)
    requires Leads(w, run, s) && t in s.tasks && s.tasks[t].pc.Waiting? && s.tasks[t].pc.lock !in s.held
    requires u !in s.tasks && s.tasks[t].msg in w.msgs && KeyOf(s.tasks[t].msg) !in s.registry
    requires ReadSlot(w, s.tasks[t].msg) !in s.threads && MadeFor(s, ReadSlot(w, s.tasks[t].msg)) == []
    requires s.held == {} && s.tasks[t].pc.lock < s.nextLock
    ensures !AtMostOnePerConversation(w)
  {
    var m := s.tasks[t].msg;
    var r1, s1, _ := Obtain(w, run, s, t);
    var r2, s2, lock := Approach(w, r1, s1, u, m);
    var r3, s3, _ := Obtain(w, r2, s2, u);
    Twice(w, r3, s3, ReadSlot(w, m));
  }

  /** Two slots behind one lock: finishing the first conversation strands the
      waiters of the second (two connections in one group chat). */
  lemma SharedLockDuplicates(w: World, m: Msg, n: Msg)
    requires m in w.msgs && n in w.msgs && ReadSlot(w, m) != ReadSlot(w, n) && KeyOf(m) == KeyOf(n)
    requires ReadSlot(w, m) == WriteSlot(w, m)
    ensures !AtMostOnePerConversation(w)
  {
    var r1, s1, _ := Approach(w, [], Init(map[]), 0, m);
    var r2, s2, _ := Approach(w, r1, s1, 1, n);
    var r3, s3, _ := Obtain(w, r2, s2, 0);
    var r4, s4 := Finish(w, r3, s3, 0);
    StrandedWaiterDuplicates(w, r4, s4, 1, 2);
  }

  /** A failed creation strands the waiters of its own conversation. */
  lemma FailureDuplicates(w: World, m: Msg)
    requires m in w.msgs && w.mayFail
    ensures !AtMostOnePerConversation(w)
  {
    var r1, s1, lock := Approach(w, [], Init(map[]), 0, m);
    var r2, s2, _ := Approach(w, r1, s1, 1, m);
    Extend(w, r2, s2, Acquire(0));
    var s3 := Step(w, s2, Acquire(0));
    Extend(w, r2 + [Acquire(0)], s3, Fail(0));
    var s4 := Step(w, s3, Fail(0));
    StrandedWaiterDuplicates(w, r2 + [Acquire(0)] + [Fail(0)], s4, 1, 2);
  }

  /** For any set of messages that may arrive, at most one thread is obtained
      per conversation in every interleaving exactly when the messages are
      coherent and nothing can fail. */
  lemma AtMostOneIff(w: World)
    ensures AtMostOnePerConversation(w) <==> Safe(w)
  {
    if Safe(w) {
      forall stored, run, slot | After(w, stored, run).Some?
        ensures |MadeFor(After(w, stored, run).value, slot)| <= 1
      {
        RunKeepsInv(w, stored, run);
        assert SlotOk(w, After(w, stored, run).value, slot);
      }
    } else if w.mayFail && w.msgs != {} {
      var m :| m in w.msgs;
      FailureDuplicates(w, m);
    } else if exists m :: m in w.msgs && ReadSlot(w, m) != WriteSlot(w, m) {
      var m :| m in w.msgs && ReadSlot(w, m) != WriteSlot(w, m);
      MismatchedSlotsDuplicate(w, m);
    } else {
      var m, n :| m in w.msgs && n in w.msgs && !(ReadSlot(w, m) == ReadSlot(w, n) <==> KeyOf(m) == KeyOf(n));
      if KeyOf(m) == KeyOf(n) {
        SharedLockDuplicates(w, m, n);
      } else {
        SplitLocksDuplicate(w, m, n);
      }
    }
  }

  /** Messages of one conversation (same connection, chat and topic, owner set
      whenever the connection is) form a safe world when nothing fails. */
  lemma OneConversationIsSafe(w: World)
    requires !w.mayFail
    requires forall m, n :: m in w.msgs && n in w.msgs ==> KeyOf(m) == KeyOf(n) && m.connection == n.connection
    requires forall m :: m in w.msgs && Truthy(m.connection) ==> Truthy(m.owner)
    ensures AtMostOnePerConversation(w)
  {
    AtMostOneIff(w);
  }
}
