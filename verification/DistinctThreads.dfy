/** How many threads a conversation ends up with. */
module DistinctThreads {
  import opened Wrappers
  import opened ThreadCreation

  // How many different threads a conversation can end up with
  // (backend/app/channels/manager.py, `_get_or_create_thread`). `ThreadCreation`
  // counts the creations; a creation with a preferred id that exists already comes
  // back with that same thread, so here the ids are compared.

  ghost predicate AllSame(ids: seq<ThreadId>) {
    forall i, j :: 0 <= i < j < |ids| ==> ids[i] == ids[j]
  }

  /** In every run all ids obtained for a conversation are one and the same. */
  ghost predicate OneThread(w: World) {
    forall stored, run, slot :: After(w, stored, run).Some? ==> AllSame(MadeFor(After(w, stored, run).value, slot))
  }

  // ---- The condition on the messages -------------------------------------------------

  /** Both messages ask for the same thread. */
  predicate SameThread(m: Msg, n: Msg) {
    Truthy(m.preferred) && m.preferred == n.preferred
  }

  predicate Reads(w: World, m: Msg, slot: Slot) {
    m in w.msgs && ReadSlot(w, m) == slot
  }

  /** A message of another slot that uses the lock of this one. */
  predicate Guest(w: World, m: Msg, n: Msg) {
    n in w.msgs && ReadSlot(w, n) != ReadSlot(w, m) && KeyOf(n) == KeyOf(m)
  }

  /** Nobody but `n` itself can end the search of `n`. */
  predicate NeverFinds(w: World, n: Msg) {
    forall x :: x in w.msgs ==> WriteSlot(w, x) != ReadSlot(w, n)
  }

  /** One lock covers all readers of the slot until an id is stored there. */
  ghost predicate Guarded(w: World, slot: Slot) {
    && !w.mayFail
    && (forall m :: Reads(w, m, slot) ==> WriteSlot(w, m) == slot)
    && (forall m, n :: Reads(w, m, slot) && Reads(w, n, slot) ==> KeyOf(m) == KeyOf(n))
    && (forall m, n :: Reads(w, m, slot) && Guest(w, m, n) ==> WriteSlot(w, n) == slot && NeverFinds(w, n))
  }

  ghost predicate Unambiguous(w: World) {
    forall m, n :: m in w.msgs && n in w.msgs && ReadSlot(w, m) == ReadSlot(w, n) ==>
      SameThread(m, n) || Guarded(w, ReadSlot(w, m))
  }

  // ---- A guarded slot -------------------------------------------------------------------

  /** A task that has found nothing under the lock and not stored anything yet. */
  predicate Creating(pc: Pc) {
    (pc.Checked? && pc.found.None?) || pc.Made?
  }

  ghost predicate Inside(w: World, s: State, slot: Slot, t: nat) {
    t in s.tasks && ReadSlot(w, s.tasks[t].msg) == slot && Creating(s.tasks[t].pc)
  }

  ghost predicate Open(w: World, s: State, slot: Slot) {
    slot !in s.threads || exists t :: Inside(w, s, slot, t)
  }

  /** All tasks with the lock key wait for, or hold, the registered lock. */
  ghost predicate OnRegistered(s: State, key: LockKey) {
    forall t :: t in s.tasks && s.tasks[t].pc.HasLock() && KeyOf(s.tasks[t].msg) == key ==>
      key in s.registry && s.registry[key] == s.tasks[t].pc.lock
  }

  ghost predicate ReaderOk(s: State, slot: Slot, pc: Pc) {
    && (pc.Checked? && pc.found.None? ==> MadeFor(s, slot) == [])
    && (pc.Made? ==> MadeFor(s, slot) == [pc.id])
    && ((pc.Checked? && pc.found.Some?) || pc.Saved? ==> slot in s.threads)
  }

  ghost predicate GuestOk(w: World, s: State, slot: Slot, task: Task) {
    && (task.pc.HasLock() || (task.pc.Looked? && task.pc.found.None?) ==> ReadSlot(w, task.msg) !in s.threads || task.pc.Saved?)
    && (task.pc.Checked? ==> task.pc.found.None?)
    && (task.pc.Saved? ==> slot in s.threads)
  }

  ghost predicate TaskFine(w: World, s: State, slot: Slot, key: LockKey, task: Task) {
    && task.msg in w.msgs && !task.pc.Dead?
    && (ReadSlot(w, task.msg) == slot ==> ReaderOk(s, slot, task.pc))
    && (ReadSlot(w, task.msg) != slot && KeyOf(task.msg) == key ==> GuestOk(w, s, slot, task))
  }

  ghost predicate TasksFine(w: World, s: State, slot: Slot, key: LockKey) {
    forall t :: t in s.tasks ==> TaskFine(w, s, slot, key, s.tasks[t])
  }

  ghost predicate OnceMade(w: World, s: State, slot: Slot) {
    && |MadeFor(s, slot)| <= 1
    && (MadeFor(s, slot) != [] && slot !in s.threads ==> exists t :: Inside(w, s, slot, t) && s.tasks[t].pc.Made?)
  }

  ghost predicate GuardInv(w: World, s: State, slot: Slot, key: LockKey) {
    && LocksBounded(s) && Exclusive(s) && TasksFine(w, s, slot, key) && OnceMade(w, s, slot)
    && (Open(w, s, slot) ==> OnRegistered(s, key))
  }

  /** The slot is guarded by the lock of its readers. */
  ghost predicate GuardedBy(w: World, slot: Slot, key: LockKey) {
    Guarded(w, slot) && exists m :: Reads(w, m, slot) && KeyOf(m) == key
  }

  lemma GuardFacts(w: World, slot: Slot, key: LockKey, n: Msg)
    requires GuardedBy(w, slot, key) && n in w.msgs
    ensures ReadSlot(w, n) == slot ==> WriteSlot(w, n) == slot && KeyOf(n) == key
    ensures ReadSlot(w, n) != slot && KeyOf(n) == key ==> WriteSlot(w, n) == slot && NeverFinds(w, n)
  {
    var m :| Reads(w, m, slot) && KeyOf(m) == key;
    assert ReadSlot(w, n) == slot ==> Reads(w, n, slot);
    assert ReadSlot(w, n) != slot && KeyOf(n) == key ==> Guest(w, m, n);
  }

  /** While a reader is inside, nobody else with the lock key is past the lock. */
  lemma InsideAlone(w: World, s: State, slot: Slot, key: LockKey, t: nat, u: nat)
    requires GuardedBy(w, slot, key) && GuardInv(w, s, slot, key) && Inside(w, s, slot, t)
    requires u in s.tasks && s.tasks[u].pc.Owns() && KeyOf(s.tasks[u].msg) == key
    ensures t == u
  {
    assert TaskFine(w, s, slot, key, s.tasks[t]);
    GuardFacts(w, slot, key, s.tasks[t].msg);
    assert OwnsLock(s, t, s.registry[key]) && OwnsLock(s, u, s.registry[key]);
  }

  /** A reader with the lock that finds nothing is the first: nothing has been obtained yet. */
  lemma FirstInside(w: World, s: State, slot: Slot, key: LockKey, t: nat)
    requires GuardedBy(w, slot, key) && GuardInv(w, s, slot, key) && slot !in s.threads
    requires t in s.tasks && s.tasks[t].pc.Holding? && ReadSlot(w, s.tasks[t].msg) == slot
    ensures MadeFor(s, slot) == []
  {
    if MadeFor(s, slot) != [] {
      var u :| Inside(w, s, slot, u) && s.tasks[u].pc.Made?;
      assert TaskFine(w, s, slot, key, s.tasks[t]);
      GuardFacts(w, slot, key, s.tasks[t].msg);
      InsideAlone(w, s, slot, key, u, t);
    }
  }

  /** What a step does to the ids of the slot and to the stored ones. */
  lemma Effects(w: World, s: State, slot: Slot, a: Action)
    requires Enabled(w, s, a)
    ensures forall x :: x in s.threads ==> x in Step(w, s, a).threads
    ensures forall x :: x in Step(w, s, a).threads && x !in s.threads ==> a.Save? && x == WriteSlot(w, s.tasks[a.t].msg)
    ensures MadeFor(Step(w, s, a), slot) ==
            if a.Create? && ReadSlot(w, s.tasks[a.t].msg) == slot then MadeFor(s, slot) + [IdFor(s.tasks[a.t].msg, s.nextId)]
            else MadeFor(s, slot)
  {
  }

  lemma OthersStay(w: World, s: State, a: Action, t: nat)
    requires Enabled(w, s, a) && t != a.t
    ensures t in Step(w, s, a).tasks <==> t in s.tasks
    ensures t in s.tasks ==> Step(w, s, a).tasks[t] == s.tasks[t]
  {
  }

  /** The acting task keeps its message. */
  lemma ActorStays(w: World, s: State, a: Action)
    requires Enabled(w, s, a)
    ensures a.t in Step(w, s, a).tasks
    ensures Step(w, s, a).tasks[a.t].msg == if a.Spawn? then a.msg else s.tasks[a.t].msg
  {
  }

  lemma OtherFine(w: World, s: State, slot: Slot, key: LockKey, a: Action, t: nat)
    requires GuardedBy(w, slot, key) && GuardInv(w, s, slot, key) && Enabled(w, s, a) && t in s.tasks && t != a.t
    ensures TaskFine(w, Step(w, s, a), slot, key, s.tasks[t])
  {
    assert TaskFine(w, s, slot, key, s.tasks[t]);
    Effects(w, s, slot, a);
    GuardFacts(w, slot, key, s.tasks[t].msg);
    if a.Save? {
      assert TaskFine(w, s, slot, key, s.tasks[a.t]);
    }
    if a.Create? && ReadSlot(w, s.tasks[a.t].msg) == slot && Inside(w, s, slot, t) {
      InsideAlone(w, s, slot, key, a.t, t);
    }
  }

  lemma ReaderMoves(w: World, s: State, slot: Slot, key: LockKey, a: Action)
    requires GuardedBy(w, slot, key) && GuardInv(w, s, slot, key) && Enabled(w, s, a) && a.t in s.tasks
    requires ReadSlot(w, s.tasks[a.t].msg) == slot
    ensures ReaderOk(Step(w, s, a), slot, Step(w, s, a).tasks[a.t].pc)
  {
    assert TaskFine(w, s, slot, key, s.tasks[a.t]);
    GuardFacts(w, slot, key, s.tasks[a.t].msg);
    Effects(w, s, slot, a);
    if a.Recheck? && slot !in s.threads {
      FirstInside(w, s, slot, key, a.t);
    }
  }

  lemma GuestMoves(w: World, s: State, slot: Slot, key: LockKey, a: Action)
    requires GuardedBy(w, slot, key) && GuardInv(w, s, slot, key) && Enabled(w, s, a) && a.t in s.tasks
    requires ReadSlot(w, s.tasks[a.t].msg) != slot && KeyOf(s.tasks[a.t].msg) == key
    ensures GuestOk(w, Step(w, s, a), slot, Step(w, s, a).tasks[a.t])
  {
    assert TaskFine(w, s, slot, key, s.tasks[a.t]);
    GuardFacts(w, slot, key, s.tasks[a.t].msg);
    Effects(w, s, slot, a);
    ActorStays(w, s, a);
  }

  lemma StepKeepsTasksFine(w: World, s: State, slot: Slot, key: LockKey, a: Action)
    requires GuardedBy(w, slot, key) && GuardInv(w, s, slot, key) && Enabled(w, s, a)
    ensures TasksFine(w, Step(w, s, a), slot, key)
  {
    var s' := Step(w, s, a);
    ActorStays(w, s, a);
    forall t | t in s'.tasks
      ensures TaskFine(w, s', slot, key, s'.tasks[t])
    {
      if t != a.t {
        OthersStay(w, s, a, t);
        OtherFine(w, s, slot, key, a, t);
      } else if !a.Spawn? {
        assert TaskFine(w, s, slot, key, s.tasks[t]);
        if ReadSlot(w, s.tasks[t].msg) == slot {
          ReaderMoves(w, s, slot, key, a);
        } else if KeyOf(s.tasks[t].msg) == key {
          GuestMoves(w, s, slot, key, a);
        }
      }
    }
  }

  lemma StepKeepsOnce(w: World, s: State, slot: Slot, key: LockKey, a: Action)
    requires GuardedBy(w, slot, key) && GuardInv(w, s, slot, key) && Enabled(w, s, a)
    ensures OnceMade(w, Step(w, s, a), slot)
  {
    var s' := Step(w, s, a);
    Effects(w, s, slot, a);
    ActorStays(w, s, a);
    if a.Create? && ReadSlot(w, s.tasks[a.t].msg) == slot {
      assert TaskFine(w, s, slot, key, s.tasks[a.t]);
      assert Inside(w, s', slot, a.t);
    } else if MadeFor(s, slot) != [] && slot !in s'.threads {
      var t :| Inside(w, s, slot, t) && s.tasks[t].pc.Made?;
      assert TaskFine(w, s, slot, key, s.tasks[t]);
      GuardFacts(w, slot, key, s.tasks[t].msg);
      if t != a.t {
        OthersStay(w, s, a, t);
      }
      assert Inside(w, s', slot, t);
    }
  }

  /** The slot opens only by being so already. */
  lemma StaysClosed(w: World, s: State, slot: Slot, key: LockKey, a: Action)
    requires GuardedBy(w, slot, key) && GuardInv(w, s, slot, key) && Enabled(w, s, a) && Open(w, Step(w, s, a), slot)
    ensures Open(w, s, slot)
  {
    Effects(w, s, slot, a);
    if slot in s.threads {
      var t :| Inside(w, Step(w, s, a), slot, t);
      if t != a.t {
        OthersStay(w, s, a, t);
      }
      assert Inside(w, s, slot, t);
    }
  }

  /** A task with the lock key leaves only when the slot is no longer open. */
  lemma LeavesClosed(w: World, s: State, slot: Slot, key: LockKey, a: Action)
    requires GuardedBy(w, slot, key) && GuardInv(w, s, slot, key) && Enabled(w, s, a) && a.Exit?
    requires KeyOf(s.tasks[a.t].msg) == key
    ensures !Open(w, s, slot)
  {
    assert TaskFine(w, s, slot, key, s.tasks[a.t]);
    if t :| Inside(w, s, slot, t) {
      InsideAlone(w, s, slot, key, t, a.t);
    }
  }

  /** Entering takes the registered lock, or registers one when nobody has any. */
  lemma EnterKeepsRegistered(w: World, s: State, key: LockKey, a: Action)
    requires Enabled(w, s, a) && !a.Exit? && !a.Fail? && OnRegistered(s, key)
    ensures OnRegistered(Step(w, s, a), key)
  {
  }

  lemma ExitKeepsRegistered(w: World, s: State, key: LockKey, a: Action)
    requires Enabled(w, s, a) && a.Exit? && OnRegistered(s, key) && KeyOf(s.tasks[a.t].msg) != key
    ensures OnRegistered(Step(w, s, a), key)
  {
  }

  lemma StepKeepsRegistered(w: World, s: State, slot: Slot, key: LockKey, a: Action)
    requires GuardedBy(w, slot, key) && GuardInv(w, s, slot, key) && Enabled(w, s, a) && Open(w, Step(w, s, a), slot)
    ensures OnRegistered(Step(w, s, a), key)
  {
    StaysClosed(w, s, slot, key, a);
    if !a.Exit? {
      EnterKeepsRegistered(w, s, key, a);
    } else {
      if KeyOf(s.tasks[a.t].msg) == key {
        LeavesClosed(w, s, slot, key, a);
      }
      ExitKeepsRegistered(w, s, key, a);
    }
  }

  lemma StepKeepsGuard(w: World, s: State, slot: Slot, key: LockKey, a: Action)
    requires GuardedBy(w, slot, key) && GuardInv(w, s, slot, key) && Enabled(w, s, a)
    ensures GuardInv(w, Step(w, s, a), slot, key)
  {
    StepKeepsBounds(w, s, a);
    StepKeepsExclusion(w, s, a);
    StepKeepsTasksFine(w, s, slot, key, a);
    StepKeepsOnce(w, s, slot, key, a);
    if Open(w, Step(w, s, a), slot) {
      StepKeepsRegistered(w, s, slot, key, a);
    }
  }

  /** A guarded slot has one creation in every run, whatever happens elsewhere. */
  lemma {:induction false} RunKeepsGuard(w: World, stored: map<Slot, ThreadId>, run: seq<Action>, slot: Slot, key: LockKey)
    requires GuardedBy(w, slot, key) && After(w, stored, run).Some?
    ensures GuardInv(w, After(w, stored, run).value, slot, key)
  {
    if run != [] {
      RunKeepsGuard(w, stored, run[..|run| - 1], slot, key);
      StepKeepsGuard(w, After(w, stored, run[..|run| - 1]).value, slot, key, run[|run| - 1]);
    }
  }

  // ---- A slot whose readers all ask for one thread ------------------------------------------

  ghost predicate Pinned(w: World, slot: Slot, name: string) {
    forall m :: Reads(w, m, slot) ==> Truthy(m.preferred) && m.preferred.value == name
  }

  /** Under the lock every reader of the slot has found an id. */
  ghost predicate AllFound(w: World, s: State, slot: Slot) {
    forall t :: t in s.tasks && ReadSlot(w, s.tasks[t].msg) == slot && s.tasks[t].pc.Checked? ==> s.tasks[t].pc.found.Some?
  }

  ghost predicate PinInv(w: World, stored: map<Slot, ThreadId>, s: State, slot: Slot, name: string) {
    && (forall t :: t in s.tasks ==> s.tasks[t].msg in w.msgs)
    && if slot in stored then
         slot in s.threads && MadeFor(s, slot) == [stored[slot]] && AllFound(w, s, slot)
       else forall id :: id in MadeFor(s, slot) ==> id == Preferred(name)
  }

  lemma StepKeepsFound(w: World, s: State, slot: Slot, a: Action)
    requires slot in s.threads && AllFound(w, s, slot) && Enabled(w, s, a)
    ensures AllFound(w, Step(w, s, a), slot)
  {
  }

  lemma StepKeepsMessages(w: World, s: State, a: Action)
    requires (forall t :: t in s.tasks ==> s.tasks[t].msg in w.msgs) && Enabled(w, s, a)
    ensures forall t :: t in Step(w, s, a).tasks ==> Step(w, s, a).tasks[t].msg in w.msgs
  {
    ActorStays(w, s, a);
    forall t | t in Step(w, s, a).tasks && t != a.t
      ensures Step(w, s, a).tasks[t].msg in w.msgs
    {
      OthersStay(w, s, a, t);
    }
  }

  lemma StepKeepsPin(w: World, stored: map<Slot, ThreadId>, s: State, slot: Slot, name: string, a: Action)
    requires Pinned(w, slot, name) && PinInv(w, stored, s, slot, name) && Enabled(w, s, a)
    ensures PinInv(w, stored, Step(w, s, a), slot, name)
  {
    Effects(w, s, slot, a);
    StepKeepsMessages(w, s, a);
    if slot in stored {
      StepKeepsFound(w, s, slot, a);
    }
    if a.Create? && ReadSlot(w, s.tasks[a.t].msg) == slot {
      assert Reads(w, s.tasks[a.t].msg, slot);
    }
  }

  lemma {:induction false} RunKeepsPin(w: World, stored: map<Slot, ThreadId>, run: seq<Action>, slot: Slot, name: string)
    requires Pinned(w, slot, name) && After(w, stored, run).Some?
    ensures PinInv(w, stored, After(w, stored, run).value, slot, name)
  {
    if run != [] {
      RunKeepsPin(w, stored, run[..|run| - 1], slot, name);
      StepKeepsPin(w, stored, After(w, stored, run[..|run| - 1]).value, slot, name, run[|run| - 1]);
    }
  }

  lemma PinIsOne(w: World, stored: map<Slot, ThreadId>, run: seq<Action>, slot: Slot, name: string)
    requires Pinned(w, slot, name) && After(w, stored, run).Some?
    ensures AllSame(MadeFor(After(w, stored, run).value, slot))
  {
    RunKeepsPin(w, stored, run, slot, name);
    var ids := MadeFor(After(w, stored, run).value, slot);
    if slot !in stored {
      forall i | 0 <= i < |ids|
        ensures ids[i] == Preferred(name)
      {
        assert ids[i] in ids;
      }
    }
  }

  lemma UnambiguousIsOne(w: World, stored: map<Slot, ThreadId>, run: seq<Action>, slot: Slot)
    requires Unambiguous(w) && After(w, stored, run).Some?
    ensures AllSame(MadeFor(After(w, stored, run).value, slot))
  {
    if m, n :| Reads(w, m, slot) && Reads(w, n, slot) && !SameThread(m, n) {
      assert Guarded(w, slot);
      RunKeepsGuard(w, stored, run, slot, KeyOf(m));
    } else if m :| Reads(w, m, slot) {
      assert SameThread(m, m);
      assert forall n :: Reads(w, n, slot) ==> SameThread(m, n);
      PinIsOne(w, stored, run, slot, m.preferred.value);
    } else {
      PinIsOne(w, stored, run, slot, "");
    }
  }

  // ---- Two threads whenever the condition fails ------------------------------------------------

  /** Of two messages with different threads one differs from any third. */
  lemma Other(m: Msg, a: Msg, b: Msg) returns (c: Msg)
    requires !SameThread(a, b)
    ensures c in {a, b} && !SameThread(m, c)
  {
    c := if SameThread(m, a) then b else a;
  }

  lemma DifferentIds(m: Msg, n: Msg, i: nat, j: nat)
    requires !SameThread(m, n) && i != j
    ensures IdFor(m, i) != IdFor(n, j)
  {
  }

  lemma TwoThreads(w: World, run: seq<Action>, s: State, slot: Slot)
    requires Leads(w, run, s) && |MadeFor(s, slot)| == 2 && MadeFor(s, slot)[0] != MadeFor(s, slot)[1]
    ensures !OneThread(w)
  {
    assert After(w, map[], run).Some?;
    assert !AllSame(MadeFor(s, slot));
  }

  /** A reader that stores elsewhere leaves the slot to the next one. */
  lemma StoredElsewhere(w: World, m: Msg, n: Msg)
    requires m in w.msgs && n in w.msgs && ReadSlot(w, m) == ReadSlot(w, n) && !SameThread(m, n)
    requires WriteSlot(w, m) != ReadSlot(w, m)
    ensures !OneThread(w)
  {
    var r1, s1, _ := Approach(w, [], Init(map[]), 0, m);
    var r2, s2, x := Obtain(w, r1, s1, 0);
    var r3, s3 := Finish(w, r2, s2, 0);
    var r4, s4, _ := Approach(w, r3, s3, 1, n);
    var r5, s5, y := Obtain(w, r4, s4, 1);
    DifferentIds(m, n, 0, s4.nextId);
    TwoThreads(w, r5, s5, ReadSlot(w, m));
  }

  /** Readers with different locks create at the same time. */
  lemma SeparateLocks(w: World, m: Msg, n: Msg)
    requires m in w.msgs && n in w.msgs && ReadSlot(w, m) == ReadSlot(w, n) && !SameThread(m, n)
    requires KeyOf(m) != KeyOf(n)
    ensures !OneThread(w)
  {
    var r1, s1, _ := Approach(w, [], Init(map[]), 0, m);
    var r2, s2, x := Obtain(w, r1, s1, 0);
    var r3, s3, _ := Approach(w, r2, s2, 1, n);
    var r4, s4, y := Obtain(w, r3, s3, 1);
    DifferentIds(m, n, 0, s3.nextId);
    TwoThreads(w, r4, s4, ReadSlot(w, m));
  }

  /** A waiter on a lock that is no longer registered, and a newcomer. */
  lemma Stranded(w: World, run: seq<Action>, s: State, t: nat, u: nat, n: Msg)
    requires Leads(w, run, s) && t in s.tasks && s.tasks[t].pc.Waiting? && s.held == {} && s.tasks[t].pc.lock < s.nextLock
    requires u !in s.tasks && n in w.msgs && KeyOf(n) !in s.registry
    requires ReadSlot(w, s.tasks[t].msg) == ReadSlot(w, n) && !SameThread(s.tasks[t].msg, n)
    requires ReadSlot(w, n) !in s.threads && MadeFor(s, ReadSlot(w, n)) == []
    ensures !OneThread(w)
  {
    var r1, s1, x := Obtain(w, run, s, t);
    var r2, s2, _ := Approach(w, r1, s1, u, n);
    var r3, s3, y := Obtain(w, r2, s2, u);
    DifferentIds(s.tasks[t].msg, n, s.nextId, s2.nextId);
    TwoThreads(w, r3, s3, ReadSlot(w, n));
  }

  lemma FailureStrands(w: World, m: Msg, n: Msg)
    requires w.mayFail && m in w.msgs && n in w.msgs && ReadSlot(w, m) == ReadSlot(w, n) && !SameThread(m, n)
    ensures !OneThread(w)
  {
    var r1, s1, _ := Approach(w, [], Init(map[]), 0, m);
    var r2, s2, _ := Approach(w, r1, s1, 1, m);
    Extend(w, r2, s2, Acquire(0));
    var s3 := Step(w, s2, Acquire(0));
    Extend(w, r2 + [Acquire(0)], s3, Fail(0));
    Stranded(w, r2 + [Acquire(0)] + [Fail(0)], Step(w, s3, Fail(0)), 1, 2, n);
  }

  /** A guest that stores elsewhere pops the lock the readers wait for. */
  lemma GuestStrands(w: World, guest: Msg, m: Msg, n: Msg)
    requires m in w.msgs && n in w.msgs && ReadSlot(w, m) == ReadSlot(w, n) && !SameThread(m, n) && KeyOf(m) == KeyOf(n)
    requires Guest(w, m, guest) && WriteSlot(w, guest) != ReadSlot(w, m)
    ensures !OneThread(w)
  {
    var r1, s1, _ := Approach(w, [], Init(map[]), 0, guest);
    var r2, s2, _ := Approach(w, r1, s1, 1, m);
    var r3, s3, _ := Obtain(w, r2, s2, 0);
    var r4, s4 := Finish(w, r3, s3, 0);
    Stranded(w, r4, s4, 1, 2, n);
  }

  /** Under the lock the id is found after all: the task leaves without storing, and pops the registry entry. */
  lemma Find(w: World, run: seq<Action>, s: State, t: nat) returns (run': seq<Action>, s': State)
    requires Leads(w, run, s) && t in s.tasks && s.tasks[t].pc.Waiting? && s.held == {}
    requires ReadSlot(w, s.tasks[t].msg) in s.threads
    ensures Leads(w, run', s')
    ensures s' == s.(tasks := s.tasks[t := s.tasks[t].(pc := Done(s.threads[ReadSlot(w, s.tasks[t].msg)], false))],
                     registry := s.registry - {KeyOf(s.tasks[t].msg)})
  {
    Extend(w, run, s, Acquire(t));
    var s1 := Step(w, s, Acquire(t));
    Extend(w, run + [Acquire(t)], s1, Recheck(t));
    var s2 := Step(w, s1, Recheck(t));
    Extend(w, run + [Acquire(t)] + [Recheck(t)], s2, Exit(t));
    run', s' := run + [Acquire(t)] + [Recheck(t)] + [Exit(t)], Step(w, s2, Exit(t));
    assert s'.tasks == s.tasks[t := s.tasks[t].(pc := Done(s.threads[ReadSlot(w, s.tasks[t].msg)], false))];
  }

  /** A guest whose own id turns up while it waits leaves without storing anything. */
  lemma FindingGuestStrands(w: World, guest: Msg, x: Msg, m: Msg, n: Msg)
    requires m in w.msgs && n in w.msgs && ReadSlot(w, m) == ReadSlot(w, n) && !SameThread(m, n) && KeyOf(m) == KeyOf(n)
    requires Guest(w, m, guest) && x in w.msgs && WriteSlot(w, x) == ReadSlot(w, guest)
    requires ReadSlot(w, x) != ReadSlot(w, m) && KeyOf(x) != KeyOf(m)
    ensures !OneThread(w)
  {
    var r1, s1, _ := Approach(w, [], Init(map[]), 0, guest);
    var r2, s2, _ := Approach(w, r1, s1, 1, m);
    var r3, s3, _ := Approach(w, r2, s2, 2, x);
    var r4, s4, _ := Obtain(w, r3, s3, 2);
    var r5, s5 := Finish(w, r4, s4, 2);
    var r6, s6 := Find(w, r5, s5, 0);
    Stranded(w, r6, s6, 1, 3, n);
  }

  lemma GuestFails(w: World, guest: Msg, m: Msg, n: Msg)
    requires m in w.msgs && n in w.msgs && ReadSlot(w, m) == ReadSlot(w, n) && !SameThread(m, n) && KeyOf(m) == KeyOf(n)
    requires forall h :: Reads(w, h, ReadSlot(w, m)) ==> WriteSlot(w, h) == ReadSlot(w, m)
    requires Guest(w, m, guest) && !(WriteSlot(w, guest) == ReadSlot(w, m) && NeverFinds(w, guest))
    ensures !OneThread(w)
  {
    if WriteSlot(w, guest) != ReadSlot(w, m) {
      GuestStrands(w, guest, m, n);
    } else {
      var x :| x in w.msgs && WriteSlot(w, x) == ReadSlot(w, guest);
      assert !Reads(w, x, ReadSlot(w, m));
      if KeyOf(x) == KeyOf(m) {
        GuestStrands(w, x, m, n);
      } else {
        FindingGuestStrands(w, guest, x, m, n);
      }
    }
  }

  lemma UnguardedHasTwo(w: World, m: Msg, n: Msg)
    requires m in w.msgs && n in w.msgs && ReadSlot(w, m) == ReadSlot(w, n) && !SameThread(m, n)
    requires !Guarded(w, ReadSlot(w, m))
    ensures !OneThread(w)
  {
    var slot := ReadSlot(w, m);
    if w.mayFail {
      FailureStrands(w, m, n);
    } else if h :| Reads(w, h, slot) && WriteSlot(w, h) != slot {
      var c := Other(h, m, n);
      StoredElsewhere(w, h, c);
    } else if KeyOf(m) != KeyOf(n) {
      SeparateLocks(w, m, n);
    } else if h :| Reads(w, h, slot) && KeyOf(h) != KeyOf(m) {
      var c := Other(h, m, n);
      SeparateLocks(w, h, c);
    } else {
      var h, guest :| Reads(w, h, slot) && Guest(w, h, guest) && !(WriteSlot(w, guest) == slot && NeverFinds(w, guest));
      GuestFails(w, guest, m, n);
    }
  }

  /** For any set of messages that may arrive: in every interleaving all ids a
      conversation obtains are one thread exactly when any two messages of one
      slot ask for the same thread or the slot is guarded by one lock. */
  lemma OneThreadIff(w: World)
    ensures OneThread(w) <==> Unambiguous(w)
  {
    if Unambiguous(w) {
      forall stored, run, slot | After(w, stored, run).Some?
        ensures AllSame(MadeFor(After(w, stored, run).value, slot))
      {
        UnambiguousIsOne(w, stored, run, slot);
      }
    } else {
      var m, n :| m in w.msgs && n in w.msgs && ReadSlot(w, m) == ReadSlot(w, n)
                  && !SameThread(m, n) && !Guarded(w, ReadSlot(w, m));
      UnguardedHasTwo(w, m, n);
    }
  }
}
