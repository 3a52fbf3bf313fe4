/** Giving ownerless threads to the admin. */
module Migration {
  import opened Wrappers
  import opened Sequences

  // Giving ownerless threads to the admin at startup (backend/app/gateway/app.py,
  // `_iter_store_items` and `_migrate_orphaned_threads`): a paginated walk that
  // rewrites items of the store while it iterates over it.

  /** A stored thread: the `user_id` of its metadata, if there is one, and everything else. */
  datatype Thread = Thread(userId: Option<string>, rest: string)

  /** The owner is set and not empty. */
  predicate Owned(t: Thread) {
    t.userId.Some? && t.userId.value != ""
  }

  function Adopted(t: Thread, admin: string): Thread {
    t.(userId := Some(admin))
  }

  /** What the migration makes of a thread. */
  function Migrated(t: Thread, admin: string): Thread {
    if Owned(t) then t else Adopted(t, admin)
  }

  function AllMigrated(items: map<string, Thread>, admin: string): map<string, Thread> {
    map k | k in items :: Migrated(items[k], admin)
  }

  function Orphans(items: map<string, Thread>): set<string> {
    set k | k in items && !Owned(items[k])
  }

  /** Where a rewritten item goes in the listing: it stays (insertion order),
      moves to the front (newest first) or to the end (newest last). */
  datatype Listing = Stays | MovesToFront | MovesToEnd

  function Elements(s: seq<string>): set<string> {
    set k | k in s
  }

  lemma ElementsAre(s: seq<string>, k: string)
    ensures k in Elements(s) <==> k in s
  {
  }

  lemma ElementsConcat(a: seq<string>, b: seq<string>)
    ensures Elements(a + b) == Elements(a) + Elements(b)
  {
  }

  lemma NotBefore(s: seq<string>, i: nat)
    requires Distinct(s) && i < |s|
    ensures s[i] !in Elements(s[..i])
  {
    ElementsAre(s[..i], s[i]);
  }

  lemma DistinctSlice(s: seq<string>, n: nat)
    requires Distinct(s) && n <= |s|
    ensures Distinct(s[..n])
  {
  }

  // ---- The store ---------------------------------------------------------------------------

  /** The store's items and the order in which it lists them. */
  datatype Shelf = Shelf(order: seq<string>, items: map<string, Thread>)

  ghost predicate ShelfOk(s: Shelf) {
    Distinct(s.order) && Elements(s.order) == s.items.Keys
  }

  /** Position of the first `key`, or the length. */
  function Index(order: seq<string>, key: string): (i: nat)
    ensures i <= |order|
  {
    if order == [] || order[0] == key then 0 else 1 + Index(order[1..], key)
  }

  lemma {:induction false} IndexIsFirst(order: seq<string>, key: string)
    ensures Index(order, key) < |order| ==> order[Index(order, key)] == key
    ensures forall j :: 0 <= j < Index(order, key) ==> order[j] != key
  {
    if order != [] && order[0] != key {
      IndexIsFirst(order[1..], key);
    }
  }

  /** The listing after the item at position `i` is rewritten. */
  function Relisted(order: seq<string>, i: nat, listing: Listing): (r: seq<string>)
    requires i < |order|
    ensures |r| == |order|
  {
    match listing
    case Stays => order
    case MovesToFront => [order[i]] + order[..i] + order[i + 1..]
    case MovesToEnd => order[..i] + order[i + 1..] + [order[i]]
  }

  /** The store after an existing item is rewritten. */
  function Rewritten(s: Shelf, key: string, value: Thread, listing: Listing): (r: Shelf)
    ensures |r.order| == |s.order|
  {
    var i := Index(s.order, key);
    if i < |s.order| then Shelf(Relisted(s.order, i, listing), s.items[key := value]) else s
  }

  lemma ToFrontStaysDistinct(a: seq<string>, x: string, b: seq<string>)
    requires Distinct(a + [x] + b)
    ensures Distinct([x] + a + b)
  {
    var s, r := a + [x] + b, [x] + a + b;
    assert forall i :: 0 <= i < |r| ==> r[i] == s[if i == 0 then |a| else if i <= |a| then i - 1 else i];
  }

  lemma ToEndStaysDistinct(a: seq<string>, x: string, b: seq<string>)
    requires Distinct(a + [x] + b)
    ensures Distinct(a + b + [x])
  {
    var s, r := a + [x] + b, a + b + [x];
    assert forall i :: 0 <= i < |r| ==> r[i] == s[if i < |a| then i else if i < |a| + |b| then i + 1 else |a|];
  }

  lemma SameElements(a: seq<string>, x: string, b: seq<string>)
    ensures Elements([x] + a + b) == Elements(a + b + [x]) == Elements(a + [x] + b)
  {
    ElementsConcat(a + [x], b);
    ElementsConcat(a, [x]);
    ElementsConcat([x] + a, b);
    ElementsConcat([x], a);
    ElementsConcat(a + b, [x]);
    ElementsConcat(a, b);
  }

  lemma RelistedIsSameSet(order: seq<string>, i: nat, listing: Listing)
    requires i < |order|
    ensures Elements(Relisted(order, i, listing)) == Elements(order)
  {
    var a, x, b := order[..i], order[i], order[i + 1..];
    assert order == a + [x] + b;
    SameElements(a, x, b);
    match listing
    case Stays =>
    case MovesToFront => assert Relisted(order, i, listing) == [x] + a + b;
    case MovesToEnd => assert Relisted(order, i, listing) == a + b + [x];
  }

  lemma RelistedIsDistinct(order: seq<string>, i: nat, listing: Listing)
    requires Distinct(order) && i < |order|
    ensures Distinct(Relisted(order, i, listing))
  {
    var a, x, b := order[..i], order[i], order[i + 1..];
    assert order == a + [x] + b;
    ToFrontStaysDistinct(a, x, b);
    ToEndStaysDistinct(a, x, b);
  }

  lemma RelistedIsSame(order: seq<string>, i: nat, listing: Listing)
    requires Distinct(order) && i < |order|
    ensures Distinct(Relisted(order, i, listing)) && Elements(Relisted(order, i, listing)) == Elements(order)
  {
    RelistedIsSameSet(order, i, listing);
    RelistedIsDistinct(order, i, listing);
  }

  lemma RewrittenOk(s: Shelf, key: string, value: Thread, listing: Listing)
    requires ShelfOk(s)
    ensures ShelfOk(Rewritten(s, key, value, listing))
    ensures key in s.items ==> Rewritten(s, key, value, listing).items == s.items[key := value]
  {
    ElementsAre(s.order, key);
    IndexIsFirst(s.order, key);
    var i := Index(s.order, key);
    if i < |s.order| {
      RelistedIsSame(s.order, i, listing);
    }
  }

  /** Rewriting an item keeps every prefix of the listing that holds it the same
      as a set, if rewritten items do not move to the end or nothing is behind the prefix. */
  lemma RelistKeepsPrefix(order: seq<string>, i: nat, listing: Listing, n: nat)
    requires i < n <= |order| && (listing != MovesToEnd || n == |order|)
    ensures Elements(Relisted(order, i, listing)[..n]) == Elements(order[..n])
  {
    var a, x, b := order[..i], order[i], order[i + 1..n];
    assert order[..n] == a + [x] + b;
    SameElements(a, x, b);
    match listing
    case Stays =>
    case MovesToFront => assert Relisted(order, i, listing)[..n] == [x] + a + b;
    case MovesToEnd => assert Relisted(order, i, listing)[..n] == a + b + [x];
  }

  lemma RewriteKeepsPrefix(s: Shelf, key: string, value: Thread, listing: Listing, n: nat)
    requires n <= |s.order| && key in Elements(s.order[..n])
    requires listing != MovesToEnd || n == |s.order|
    ensures Elements(Rewritten(s, key, value, listing).order[..n]) == Elements(s.order[..n])
  {
    ElementsAre(s.order[..n], key);
    IndexIsFirst(s.order, key);
    var i := Index(s.order, key);
    RelistKeepsPrefix(s.order, i, listing, n);
  }

  /** A listed item, as read. */
  datatype Item = Item(key: string, value: Thread)

  function KeysOf(batch: seq<Item>): (keys: seq<string>)
    ensures |keys| == |batch|
  {
    if batch == [] then [] else KeysOf(batch[..|batch| - 1]) + [batch[|batch| - 1].key]
  }

  /** The listed items with these keys; every listed key has a value. */
  function ItemsAt(keys: seq<string>, items: map<string, Thread>): (batch: seq<Item>)
    ensures |batch| == |keys| && KeysOf(batch) == keys
  {
    if keys == [] then []
    else
      var front, last := keys[..|keys| - 1], keys[|keys| - 1];
      var before := ItemsAt(front, items);
      var item := Item(last, if last in items then items[last] else Thread(None, ""));
      assert (before + [item])[..|before|] == before;
      before + [item]
  }

  /** The keys on the page of at most `limit` items at `offset`. */
  function PageKeys(order: seq<string>, limit: nat, offset: nat): seq<string> {
    if offset >= |order| then []
    else if offset + limit <= |order| then order[offset..offset + limit]
    else order[offset..]
  }

  /** One page of the listing: keys with their current values. */
  function Page(s: Shelf, limit: nat, offset: nat): (batch: seq<Item>)
    ensures KeysOf(batch) == PageKeys(s.order, limit, offset)
  {
    ItemsAt(PageKeys(s.order, limit, offset), s.items)
  }

  // ---- The migration as a function ------------------------------------------------------------

  function HandleOne(s: Shelf, item: Item, admin: string, listing: Listing): (r: Shelf)
    ensures |r.order| == |s.order|
  {
    if Owned(item.value) then s else Rewritten(s, item.key, Adopted(item.value, admin), listing)
  }

  /** The store after the items of a page, as read, are handled in turn. */
  function HandleAll(s: Shelf, batch: seq<Item>, admin: string, listing: Listing): (r: Shelf)
    ensures |r.order| == |s.order|
  {
    if batch == [] then s
    else HandleOne(HandleAll(s, batch[..|batch| - 1], admin, listing), batch[|batch| - 1], admin, listing)
  }

  function Ownerless(batch: seq<Item>): nat {
    if batch == [] then 0 else Ownerless(batch[..|batch| - 1]) + if Owned(batch[|batch| - 1].value) then 0 else 1
  }

  lemma {:induction false} HandleAllOk(s: Shelf, batch: seq<Item>, admin: string, listing: Listing)
    requires ShelfOk(s)
    ensures ShelfOk(HandleAll(s, batch, admin, listing))
  {
    if batch != [] {
      var front, item := batch[..|batch| - 1], batch[|batch| - 1];
      HandleAllOk(s, front, admin, listing);
      RewrittenOk(HandleAll(s, front, admin, listing), item.key, Adopted(item.value, admin), listing);
    }
  }

  /** Where the walk stands: the store, the keys visited in turn, the number of
      items rewritten, the offset of the next page, and whether the walk is over. */
  datatype Walker = Walker(shelf: Shelf, visited: seq<string>, migrated: nat, offset: nat, done: bool)

  /** One page further; a page that is not full is the last one. */
  function Turned(w: Walker, pageSize: nat, admin: string, listing: Listing): Walker {
    var batch := Page(w.shelf, pageSize, w.offset);
    Walker(HandleAll(w.shelf, batch, admin, listing), w.visited + KeysOf(batch), w.migrated + Ownerless(batch),
           w.offset + pageSize, |batch| < pageSize)
  }

  function TurnOf(pageSize: nat, admin: string, listing: Listing): Walker -> Walker {
    (w: Walker) => Turned(w, pageSize, admin, listing)
  }

  function Start(s: Shelf): Walker {
    Walker(s, [], 0, 0, false)
  }

  /** After at most `k` pages, whatever is done with a page. */
  function Pages(s: Shelf, k: nat, turn: Walker -> Walker): Walker {
    if k == 0 then Start(s)
    else
      var w := Pages(s, k - 1, turn);
      if w.done then w else turn(w)
  }

  /** What holds at the start and is kept by every page holds all the way. */
  lemma {:induction false} PagesKeep(s: Shelf, k: nat, turn: Walker -> Walker, p: Walker -> bool)
    requires p(Start(s)) && forall w :: p(w) && !w.done ==> p(turn(w))
    ensures p(Pages(s, k, turn))
  {
    if k > 0 {
      PagesKeep(s, k - 1, turn, p);
    }
  }

  /** ... and from any page on. */
  lemma {:induction false} PagesKeepFrom(s: Shelf, k: nat, n: nat, turn: Walker -> Walker, p: Walker -> bool)
    requires k <= n && p(Pages(s, k, turn)) && forall w :: p(w) && !w.done ==> p(turn(w))
    ensures p(Pages(s, n, turn))
    decreases n
  {
    if k < n {
      PagesKeepFrom(s, k, n - 1, turn, p);
    }
  }

  lemma PageLength(s: Shelf, limit: nat, offset: nat)
    ensures |Page(s, limit, offset)| == if offset >= |s.order| then 0 else if offset + limit <= |s.order| then limit else |s.order| - offset
  {
    assert |KeysOf(Page(s, limit, offset))| == |Page(s, limit, offset)|;
  }

  lemma NextPage(s: Shelf, k: nat, turn: Walker -> Walker, w: Walker)
    requires w == Pages(s, k, turn)
    ensures Pages(s, k + 1, turn) == if w.done then w else turn(w)
  {
  }

  lemma {:induction false} DoneStays(s: Shelf, k: nat, n: nat, turn: Walker -> Walker)
    requires k <= n && Pages(s, k, turn).done
    ensures Pages(s, n, turn) == Pages(s, k, turn)
    decreases n
  {
    if k < n {
      DoneStays(s, k, n - 1, turn);
    }
  }

  /** A walk that is not over has an offset within the listing, which it does not lengthen. */
  predicate Within(w: Walker, length: nat) {
    |w.shelf.order| == length && (!w.done ==> w.offset <= length)
  }

  lemma TurnStaysWithin(w: Walker, length: nat, pageSize: nat, admin: string, listing: Listing)
    requires Within(w, length) && !w.done
    ensures Within(Turned(w, pageSize, admin, listing), length)
  {
    PageLength(w.shelf, pageSize, w.offset);
  }

  lemma PagesStayWithin(s: Shelf, k: nat, pageSize: nat, admin: string, listing: Listing)
    ensures Within(Pages(s, k, TurnOf(pageSize, admin, listing)), |s.order|)
  {
    var turn := TurnOf(pageSize, admin, listing);
    forall w: Walker | Within(w, |s.order|) && !w.done
      ensures Within(turn(w), |s.order|)
    {
      TurnStaysWithin(w, |s.order|, pageSize, admin, listing);
    }
    PagesKeep(s, k, turn, (w: Walker) => Within(w, |s.order|));
  }

  /** Every page of a walk that goes on was full. */
  lemma {:induction false} OffsetGrows(s: Shelf, k: nat, turn: Walker -> Walker)
    requires forall w :: turn(w).offset > w.offset
    ensures !Pages(s, k, turn).done ==> k <= Pages(s, k, turn).offset
  {
    if k > 0 {
      OffsetGrows(s, k - 1, turn);
    }
  }

  lemma TurnAdvances(pageSize: nat, admin: string, listing: Listing)
    requires pageSize > 0
    ensures forall w: Walker :: TurnOf(pageSize, admin, listing)(w).offset > w.offset
  {
    forall w: Walker
      ensures TurnOf(pageSize, admin, listing)(w).offset > w.offset
    {
      assert TurnOf(pageSize, admin, listing)(w) == Turned(w, pageSize, admin, listing);
    }
  }

  lemma PagesInAll(s: Shelf, k: nat, pageSize: nat, admin: string, listing: Listing)
    requires pageSize > 0 && !Pages(s, k, TurnOf(pageSize, admin, listing)).done
    ensures k <= |s.order|
  {
    TurnAdvances(pageSize, admin, listing);
    OffsetGrows(s, k, TurnOf(pageSize, admin, listing));
    PagesStayWithin(s, k, pageSize, admin, listing);
  }

  /** The walk comes to an end: there are never more full pages than items. */
  lemma WalkIsDone(s: Shelf, pageSize: nat, admin: string, listing: Listing) returns (k: nat)
    requires pageSize > 0
    ensures 0 < k <= |s.order| + 1 && Pages(s, k, TurnOf(pageSize, admin, listing)).done
  {
    k := |s.order| + 1;
    if !Pages(s, k, TurnOf(pageSize, admin, listing)).done {
      PagesInAll(s, k, pageSize, admin, listing);
    }
  }

  /** A walk that is over stays as it is, so it ends in one way only. */
  lemma WalkEndsOnce(s: Shelf, k: nat, n: nat, turn: Walker -> Walker)
    requires Pages(s, k, turn).done && Pages(s, n, turn).done
    ensures Pages(s, k, turn) == Pages(s, n, turn)
  {
    if k <= n {
      DoneStays(s, k, n, turn);
    } else {
      DoneStays(s, n, k, turn);
    }
  }

  /** What one page does to the walk. */
  lemma OnePage(s: Shelf, k: nat, pageSize: nat, admin: string, listing: Listing, w: Walker, batch: seq<Item>) returns (next: Walker)
    requires w == Pages(s, k, TurnOf(pageSize, admin, listing)) && !w.done && batch == Page(w.shelf, pageSize, w.offset)
    ensures next == Pages(s, k + 1, TurnOf(pageSize, admin, listing))
    ensures next.shelf == HandleAll(w.shelf, batch, admin, listing) && next.migrated == w.migrated + Ownerless(batch)
    ensures next.offset == w.offset + pageSize && next.done == (|batch| < pageSize)
  {
    var turn := TurnOf(pageSize, admin, listing);
    NextPage(s, k, turn, w);
    next := Turned(w, pageSize, admin, listing);
    assert turn(w) == next;
  }

  // ---- The methods ------------------------------------------------------------------------------

  class Store {
    const listing: Listing
    var shelf: Shelf

    constructor (listing: Listing)
      ensures ShelfOk(shelf) && shelf == Shelf([], map[]) && this.listing == listing
    {
      this.listing, shelf := listing, Shelf([], map[]);
    }

    /** One page of the listing: keys with their current values. */
    method Search(limit: nat, offset: nat) returns (batch: seq<Item>)
      ensures batch == Page(shelf, limit, offset)
    {
      batch := ItemsAt(PageKeys(shelf.order, limit, offset), shelf.items);
    }

    /** Rewrites an existing item. */
    method Put(key: string, value: Thread)
      requires key in shelf.order
      modifies this
      ensures shelf == Rewritten(old(shelf), key, value, listing)
    {
      var j := Position(shelf.order, key);
      shelf := Shelf(Relisted(shelf.order, j, listing), shelf.items[key := value]);
    }
  }

  method Position(order: seq<string>, key: string) returns (j: nat)
    requires key in order
    ensures j < |order| && j == Index(order, key)
  {
    j := 0;
    while order[j] != key
      invariant j < |order| && key in order[j..] && Index(order, key) == j + Index(order[j..], key)
      decreases |order| - j
    {
      assert order[j..][1..] == order[j + 1..];
      j := j + 1;
    }
  }

  /** Handles the items of one page, in the order read. */
  method MigrateBatch(store: Store, admin: string, batch: seq<Item>) returns (migrated: nat)
    requires Elements(KeysOf(batch)) <= Elements(store.shelf.order)
    modifies store
    ensures store.shelf == HandleAll(old(store.shelf), batch, admin, store.listing)
    ensures |store.shelf.order| == |old(store.shelf.order)|
    ensures migrated == Ownerless(batch)
  {
    migrated := 0;
    for i := 0 to |batch|
      invariant Elements(store.shelf.order) == old(Elements(store.shelf.order))
      invariant store.shelf == HandleAll(old(store.shelf), batch[..i], admin, store.listing)
      invariant migrated == Ownerless(batch[..i])
    {
      assert batch[..i + 1][..i] == batch[..i];
      var item := batch[i];
      if !Owned(item.value) {
        KeyIsListed(batch, i);
        ElementsAre(store.shelf.order, item.key);
        RelistKeepsElements(store.shelf.order, item.key, store.listing);
        store.Put(item.key, Adopted(item.value, admin));
        migrated := migrated + 1;
      }
    }
    assert batch[..|batch|] == batch;
  }

  lemma RelistKeepsElements(order: seq<string>, key: string, listing: Listing)
    requires key in order
    ensures Index(order, key) < |order| && Elements(Relisted(order, Index(order, key), listing)) == Elements(order)
  {
    IndexIsFirst(order, key);
    RelistedIsSameSet(order, Index(order, key), listing);
  }

  lemma PageIsListed(order: seq<string>, limit: nat, offset: nat)
    ensures Elements(PageKeys(order, limit, offset)) <= Elements(order)
  {
    forall k | k in Elements(PageKeys(order, limit, offset))
      ensures k in Elements(order)
    {
      ElementsAre(order, k);
      ElementsAre(PageKeys(order, limit, offset), k);
    }
  }

  /** One round of the loop: a page is read and its items are handled. */
  method MigratePage(store: Store, admin: string, pageSize: nat, offset: nat, ghost start: Shelf, ghost k: nat, ghost w: Walker)
    returns (size: nat, migrated: nat, ghost next: Walker)
    requires w == Pages(start, k, TurnOf(pageSize, admin, store.listing)) && !w.done
    requires w.shelf == store.shelf && w.offset == offset
    modifies store
    ensures next == Pages(start, k + 1, TurnOf(pageSize, admin, store.listing))
    ensures next.shelf == store.shelf && next.migrated == w.migrated + migrated
    ensures next.offset == offset + pageSize && next.done == (size < pageSize)
    ensures |store.shelf.order| == |old(store.shelf.order)| && (size == pageSize > 0 ==> offset < |store.shelf.order|)
  {
    PageLength(store.shelf, pageSize, offset);
    PageIsListed(store.shelf.order, pageSize, offset);
    var batch := store.Search(pageSize, offset);
    next := OnePage(start, k, pageSize, admin, store.listing, w, batch);
    migrated := MigrateBatch(store, admin, batch);
    size := |batch|;
  }

  /** `_migrate_orphaned_threads`; `k` is the number of pages it took. */
  method Migrate(store: Store, admin: string, pageSize: nat) returns (migrated: nat, ghost k: nat)
    requires pageSize > 0
    modifies store
    ensures var w := Pages(old(store.shelf), k, TurnOf(pageSize, admin, store.listing));
            w.done && store.shelf == w.shelf && migrated == w.migrated
  {
    var offset: nat := 0;
    migrated, k := 0, 0;
    ghost var start, w := store.shelf, Start(store.shelf);
    while true
      invariant w == Pages(start, k, TurnOf(pageSize, admin, store.listing)) && !w.done
      invariant w.shelf == store.shelf && w.migrated == migrated && w.offset == offset
      decreases |store.shelf.order| - offset
    {
      var size, n;
      size, n, w := MigratePage(store, admin, pageSize, offset, start, k, w);
      k := k + 1;
      migrated := migrated + n;
      if size < pageSize {
        return;
      }
      offset := offset + pageSize;
    }
  }

  // ---- What the walk does -------------------------------------------------------------------------

  /** The items after the keys `visited` have been handled, one after the other. */
  function Handled(before: map<string, Thread>, admin: string, visited: seq<string>): map<string, Thread> {
    if visited == [] then before
    else
      var items := Handled(before, admin, visited[..|visited| - 1]);
      var key := visited[|visited| - 1];
      if key in items then items[key := Migrated(items[key], admin)] else items
  }

  /** How many of the keys `visited` were ownerless. */
  function Count(before: map<string, Thread>, visited: seq<string>): nat {
    if visited == [] then 0
    else Count(before, visited[..|visited| - 1]) + if visited[|visited| - 1] in Orphans(before) then 1 else 0
  }

  lemma {:induction false} HandledAt(before: map<string, Thread>, admin: string, visited: seq<string>, k: string)
    ensures var items := Handled(before, admin, visited);
            && (k in items <==> k in before)
            && (k in before ==> items[k] == if k in Elements(visited) then Migrated(before[k], admin) else before[k])
  {
    if visited != [] {
      HandledAt(before, admin, visited[..|visited| - 1], k);
    }
  }

  lemma {:induction false} CountIsCardinality(before: map<string, Thread>, visited: seq<string>)
    requires Distinct(visited)
    ensures Count(before, visited) == |Orphans(before) * Elements(visited)|
  {
    if visited != [] {
      var n := |visited| - 1;
      var rest := visited[..n];
      NotBefore(visited, n);
      DistinctSlice(visited, n);
      CountIsCardinality(before, rest);
      if visited[n] in Orphans(before) {
        assert Orphans(before) * Elements(visited) == Orphans(before) * Elements(rest) + {visited[n]};
      } else {
        assert Orphans(before) * Elements(visited) == Orphans(before) * Elements(rest);
      }
    }
  }

  /** Where the walk stands after visiting the keys `visited`. */
  ghost predicate Progress(before: map<string, Thread>, items: map<string, Thread>, admin: string, visited: seq<string>, migrated: nat) {
    items == Handled(before, admin, visited) && migrated == Count(before, visited)
  }

  /** The keys visited are, as a set, the front of the listing. */
  ghost predicate Covers(order: seq<string>, visited: seq<string>) {
    |visited| <= |order| && Elements(order[..|visited|]) == Elements(visited)
  }

  /** One more key, not visited before. */
  lemma ProgressOne(before: map<string, Thread>, items: map<string, Thread>, admin: string, visited: seq<string>, migrated: nat, key: string)
    requires Progress(before, items, admin, visited, migrated) && key in before && key !in Elements(visited)
    ensures key in items && items[key] == before[key]
    ensures Owned(before[key]) ==> Progress(before, items, admin, visited + [key], migrated)
    ensures !Owned(before[key]) ==> Progress(before, items[key := Adopted(before[key], admin)], admin, visited + [key], migrated + 1)
  {
    HandledAt(before, admin, visited, key);
    assert (visited + [key])[..|visited|] == visited;
    assert items[key := items[key]] == items;
  }

  /** The whole listing visited: everything is migrated and counted. */
  lemma WalkDone(before: map<string, Thread>, items: map<string, Thread>, admin: string, order: seq<string>, visited: seq<string>, migrated: nat)
    requires Progress(before, items, admin, visited, migrated) && Covers(order, visited) && |visited| == |order|
    requires Distinct(visited) && Elements(order) == items.Keys
    ensures items == AllMigrated(before, admin) && migrated == |Orphans(before)|
  {
    assert order[..|order|] == order;
    forall k
      ensures k in items <==> k in before
      ensures k in before ==> items[k] == Migrated(before[k], admin)
    {
      HandledAt(before, admin, visited, k);
    }
    CountIsCardinality(before, visited);
    assert Orphans(before) * Elements(visited) == Orphans(before);
  }

  /** A page at the end of the visited keys extends them without repeats. */
  lemma PageExtends(order: seq<string>, visited: seq<string>, page: seq<string>)
    requires Distinct(order) && Covers(order, visited) && Distinct(visited)
    requires |visited| + |page| <= |order| && page == order[|visited|..|visited| + |page|]
    ensures Covers(order, visited + page) && Distinct(visited + page)
  {
    var n := |visited| + |page|;
    assert order[..n] == order[..|visited|] + page;
    ElementsConcat(order[..|visited|], page);
    ElementsConcat(visited, page);
    forall i, j | 0 <= i < |visited| && 0 <= j < |page|
      ensures visited[i] != page[j]
    {
      ElementsAre(visited, visited[i]);
      ElementsAre(order[..|visited|], visited[i]);
      assert page[j] == order[|visited| + j];
    }
    assert forall j :: 0 <= j < |page| ==> page[j] == order[|visited| + j];
  }

  lemma {:induction false} KeyAt(batch: seq<Item>, i: nat)
    requires i < |batch|
    ensures KeysOf(batch)[i] == batch[i].key
  {
    if i < |batch| - 1 {
      KeyAt(batch[..|batch| - 1], i);
    }
  }

  lemma {:induction false} KeysOfPrefix(batch: seq<Item>, i: nat)
    requires i <= |batch|
    ensures KeysOf(batch[..i]) == KeysOf(batch)[..i]
  {
    if i == |batch| {
      assert batch[..i] == batch;
    } else {
      KeysOfPrefix(batch[..|batch| - 1], i);
      assert batch[..|batch| - 1][..i] == batch[..i];
    }
  }

  lemma KeyIsListed(batch: seq<Item>, i: nat)
    requires i < |batch|
    ensures batch[i].key in Elements(KeysOf(batch))
  {
    KeyAt(batch, i);
    ElementsAre(KeysOf(batch), batch[i].key);
  }

  /** The items of the page have the values found in `items`. */
  ghost predicate Reads(items: map<string, Thread>, batch: seq<Item>) {
    forall item :: item in batch ==> item.key in items && item.value == items[item.key]
  }

  lemma {:induction false} ItemsAtRead(keys: seq<string>, items: map<string, Thread>)
    requires Elements(keys) <= items.Keys
    ensures Reads(items, ItemsAt(keys, items))
  {
    if keys != [] {
      ItemsAtRead(keys[..|keys| - 1], items);
    }
  }

  /** The next key of a page is new and among the keys the page covers. */
  lemma NextKey(visited: seq<string>, batch: seq<Item>, i: nat)
    requires Distinct(visited + KeysOf(batch)) && i < |batch|
    ensures batch[i].key !in Elements(visited + KeysOf(batch[..i]))
    ensures batch[i].key in Elements(visited + KeysOf(batch))
    ensures visited + KeysOf(batch[..i + 1]) == visited + KeysOf(batch[..i]) + [batch[i].key]
  {
    KeysUpTo(batch, i);
    NextIn(visited, KeysOf(batch), i, batch[i].key, KeysOf(batch[..i]), KeysOf(batch[..i + 1]));
  }

  lemma KeysUpTo(batch: seq<Item>, i: nat)
    requires i < |batch|
    ensures KeysOf(batch)[i] == batch[i].key && KeysOf(batch[..i]) == KeysOf(batch)[..i] && KeysOf(batch[..i + 1]) == KeysOf(batch)[..i + 1]
  {
    KeyAt(batch, i);
    KeysOfPrefix(batch, i);
    KeysOfPrefix(batch, i + 1);
  }

  lemma NextIn(visited: seq<string>, page: seq<string>, i: nat, key: string, some: seq<string>, more: seq<string>)
    requires Distinct(visited + page) && i < |page| && key == page[i] && some == page[..i] && more == page[..i + 1]
    ensures key !in Elements(visited + some) && key in Elements(visited + page)
    ensures visited + more == visited + some + [key]
  {
    var all := visited + page;
    assert all[|visited| + i] == key;
    NotBefore(all, |visited| + i);
    assert all[..|visited| + i] == visited + some;
    ElementsAre(all, key);
  }

  /** What the page read is what was there before the walk. */
  lemma PageIsUntouched(before: map<string, Thread>, admin: string, visited: seq<string>, batch: seq<Item>)
    requires Distinct(visited + KeysOf(batch)) && Reads(Handled(before, admin, visited), batch)
    ensures Reads(before, batch)
  {
    forall item | item in batch
      ensures item.key in before && item.value == before[item.key]
    {
      var i :| 0 <= i < |batch| && batch[i] == item;
      NextKey(visited, batch, i);
      ElementsConcat(visited, KeysOf(batch[..i]));
      HandledAt(before, admin, visited, item.key);
    }
  }

  /** The first `i` items of a page that ends at `n` handled. */
  lemma {:induction false} HandlePrefix(before: map<string, Thread>, s: Shelf, admin: string, listing: Listing,
                                        visited: seq<string>, migrated: nat, batch: seq<Item>, i: nat)
    requires ShelfOk(s) && Progress(before, s.items, admin, visited, migrated) && Reads(before, batch) && i <= |batch|
    requires Covers(s.order, visited + KeysOf(batch)) && Distinct(visited + KeysOf(batch))
    requires listing != MovesToEnd || |visited + KeysOf(batch)| == |s.order|
    ensures var s' := HandleAll(s, batch[..i], admin, listing);
            && ShelfOk(s') && Covers(s'.order, visited + KeysOf(batch))
            && Progress(before, s'.items, admin, visited + KeysOf(batch[..i]), migrated + Ownerless(batch[..i]))
  {
    if i == 0 {
      assert visited + KeysOf(batch[..0]) == visited;
    } else {
      HandlePrefix(before, s, admin, listing, visited, migrated, batch, i - 1);
      var front, item := batch[..i - 1], batch[i - 1];
      assert batch[..i][..i - 1] == front;
      NextKey(visited, batch, i - 1);
      HandleNext(before, HandleAll(s, front, admin, listing), admin, listing, visited + KeysOf(front),
                 migrated + Ownerless(front), visited + KeysOf(batch), item);
    }
  }

  lemma HandleNext(before: map<string, Thread>, s: Shelf, admin: string, listing: Listing,
                   visited: seq<string>, migrated: nat, ahead: seq<string>, item: Item)
    requires ShelfOk(s) && Progress(before, s.items, admin, visited, migrated) && Covers(s.order, ahead)
    requires item.key in before && item.value == before[item.key] && item.key !in Elements(visited) && item.key in Elements(ahead)
    requires listing != MovesToEnd || |ahead| == |s.order|
    ensures var s' := HandleOne(s, item, admin, listing);
            && ShelfOk(s') && Covers(s'.order, ahead)
            && Progress(before, s'.items, admin, visited + [item.key], migrated + if Owned(item.value) then 0 else 1)
  {
    ProgressOne(before, s.items, admin, visited, migrated, item.key);
    if !Owned(item.value) {
      RewrittenOk(s, item.key, Adopted(item.value, admin), listing);
      RewriteKeepsPrefix(s, item.key, Adopted(item.value, admin), listing, |ahead|);
    }
  }

  lemma PageReads(before: map<string, Thread>, s: Shelf, pageSize: nat, admin: string, visited: seq<string>)
    requires ShelfOk(s) && Covers(s.order, visited) && Distinct(visited) && s.items == Handled(before, admin, visited)
    ensures var batch := Page(s, pageSize, |visited|);
            && Reads(before, batch) && Covers(s.order, visited + KeysOf(batch)) && Distinct(visited + KeysOf(batch))
            && (|s.order| <= |visited| + pageSize ==> |visited + KeysOf(batch)| == |s.order|)
  {
    var batch := Page(s, pageSize, |visited|);
    PageLength(s, pageSize, |visited|);
    PageIsListed(s.order, pageSize, |visited|);
    PageExtends(s.order, visited, KeysOf(batch));
    ItemsAtRead(PageKeys(s.order, pageSize, |visited|), s.items);
    PageIsUntouched(before, admin, visited, batch);
  }

  /** A page of a store whose front is the visited keys. */
  lemma HandlePage(before: map<string, Thread>, s: Shelf, pageSize: nat, admin: string, listing: Listing, visited: seq<string>, migrated: nat)
    requires ShelfOk(s) && Covers(s.order, visited) && Distinct(visited) && Progress(before, s.items, admin, visited, migrated)
    requires listing != MovesToEnd || |s.order| <= |visited| + pageSize
    ensures var batch := Page(s, pageSize, |visited|);
            var s', ahead := HandleAll(s, batch, admin, listing), visited + KeysOf(batch);
            && ShelfOk(s') && Covers(s'.order, ahead) && Distinct(ahead)
            && Progress(before, s'.items, admin, ahead, migrated + Ownerless(batch))
  {
    var batch := Page(s, pageSize, |visited|);
    PageReads(before, s, pageSize, admin, visited);
    HandlePrefix(before, s, admin, listing, visited, migrated, batch, |batch|);
    assert batch[..|batch|] == batch;
  }

  /** Everything visited so far was visited once, in the order of the listing,
      and handled and counted; a walk that is over has visited everything. */
  ghost predicate OnTrack(s: Shelf, admin: string, w: Walker) {
    && ShelfOk(w.shelf) && Covers(w.shelf.order, w.visited) && Distinct(w.visited)
    && Progress(s.items, w.shelf.items, admin, w.visited, w.migrated)
    && |w.shelf.order| == |s.order|
    && |w.visited| == if w.done then |s.order| else w.offset
  }

  lemma TurnKeepsTrack(s: Shelf, pageSize: nat, admin: string, listing: Listing, w: Walker)
    requires OnTrack(s, admin, w) && !w.done && (listing != MovesToEnd || |s.order| <= pageSize)
    ensures OnTrack(s, admin, Turned(w, pageSize, admin, listing))
  {
    PageLength(w.shelf, pageSize, w.offset);
    HandlePage(s.items, w.shelf, pageSize, admin, listing, w.visited, w.migrated);
  }

  lemma PagesKeepTrack(s: Shelf, k: nat, pageSize: nat, admin: string, listing: Listing)
    requires ShelfOk(s) && (listing != MovesToEnd || |s.order| <= pageSize)
    ensures OnTrack(s, admin, Pages(s, k, TurnOf(pageSize, admin, listing)))
  {
    var turn := TurnOf(pageSize, admin, listing);
    StartOnTrack(s, admin);
    forall w | OnTrack(s, admin, w) && !w.done
      ensures OnTrack(s, admin, turn(w))
    {
      TurnKeepsTrack(s, pageSize, admin, listing, w);
    }
    PagesKeep(s, k, turn, (w: Walker) => OnTrack(s, admin, w));
  }

  lemma StartOnTrack(s: Shelf, admin: string)
    requires ShelfOk(s)
    ensures OnTrack(s, admin, Start(s))
  {
  }

  /** Every thread was visited exactly once, exactly the ownerless ones went to the admin, and they were counted. */
  ghost predicate Migrates(s: Shelf, admin: string, w: Walker) {
    && Distinct(w.visited) && Elements(w.visited) == s.items.Keys
    && w.shelf.items == AllMigrated(s.items, admin) && w.migrated == |Orphans(s.items)|
    && ShelfOk(w.shelf) && |w.shelf.order| == |s.order|
  }

  lemma DoneMigrates(s: Shelf, admin: string, w: Walker)
    requires OnTrack(s, admin, w) && w.done
    ensures Migrates(s, admin, w)
  {
    WalkDone(s.items, w.shelf.items, admin, w.shelf.order, w.visited, w.migrated);
    assert w.shelf.order[..|w.shelf.order|] == w.shelf.order;
  }

  /** Whatever the page size, a finished walk migrates the store; if rewritten items
      move to the end of the listing, when one page holds the whole store. */
  lemma EveryThreadOnce(s: Shelf, k: nat, pageSize: nat, admin: string, listing: Listing) returns (w: Walker)
    requires ShelfOk(s) && (listing != MovesToEnd || |s.order| <= pageSize)
    requires Pages(s, k, TurnOf(pageSize, admin, listing)).done
    ensures w == Pages(s, k, TurnOf(pageSize, admin, listing)) && Migrates(s, admin, w)
  {
    PagesKeepTrack(s, k, pageSize, admin, listing);
    w := Pages(s, k, TurnOf(pageSize, admin, listing));
    DoneMigrates(s, admin, w);
  }

  /** A second walk over the same store rewrites nothing exactly when the admin
      id is not empty or nothing was ownerless in the first place. */
  lemma SecondRunIsIdleIff(s: Shelf, k: nat, n: nat, pageSize: nat, admin: string, listing: Listing, first: Walker, second: Walker)
    requires ShelfOk(s) && (listing != MovesToEnd || |s.order| <= pageSize)
    requires first == Pages(s, k, TurnOf(pageSize, admin, listing)) && first.done
    requires second == Pages(first.shelf, n, TurnOf(pageSize, admin, listing)) && second.done
    ensures second.migrated == 0 <==> admin != "" || Orphans(s.items) == {}
  {
    var _ := EveryThreadOnce(s, k, pageSize, admin, listing);
    var _ := EveryThreadOnce(first.shelf, n, pageSize, admin, listing);
    OrphansLeft(s.items, admin);
  }

  lemma OrphansLeft(items: map<string, Thread>, admin: string)
    ensures Orphans(AllMigrated(items, admin)) == if admin == "" then Orphans(items) else {}
  {
  }

  // ---- What becomes of one thread -------------------------------------------------------------

  /** Everything but the owner is kept, and a thread with an owner entirely. */
  ghost predicate OnlyOrphansMove(before: map<string, Thread>, after: map<string, Thread>, admin: string) {
    && before.Keys == after.Keys
    && forall k :: k in before ==> Spared(before[k], after[k]) || GoesTo(before[k], after[k], admin)
  }

  ghost predicate Spared(was: Thread, now: Thread) {
    now.userId == was.userId && now.rest == was.rest
  }

  /** A thread without an owner, or with an empty one, now belongs to the admin. */
  ghost predicate GoesTo(was: Thread, now: Thread, admin: string) {
    (was.userId == None || was.userId == Some("")) && now.userId == Some(admin) && now.rest == was.rest
  }

  /** A page read from the store, some of whose items may have been handled since. */
  ghost predicate PageOf(before: map<string, Thread>, batch: seq<Item>, admin: string) {
    forall item :: item in batch ==>
      item.key in before && (Spared(before[item.key], item.value) || GoesTo(before[item.key], item.value, admin))
  }

  lemma HandleOneSpares(before: map<string, Thread>, s: Shelf, item: Item, admin: string, listing: Listing)
    requires ShelfOk(s) && OnlyOrphansMove(before, s.items, admin) && PageOf(before, [item], admin)
    ensures OnlyOrphansMove(before, HandleOne(s, item, admin, listing).items, admin)
    ensures ShelfOk(HandleOne(s, item, admin, listing))
  {
    assert item in [item];
    RewrittenOk(s, item.key, Adopted(item.value, admin), listing);
  }

  lemma {:induction false} HandleAllSpares(before: map<string, Thread>, s: Shelf, batch: seq<Item>, admin: string, listing: Listing)
    requires ShelfOk(s) && OnlyOrphansMove(before, s.items, admin) && PageOf(before, batch, admin)
    ensures OnlyOrphansMove(before, HandleAll(s, batch, admin, listing).items, admin)
    ensures ShelfOk(HandleAll(s, batch, admin, listing))
  {
    if batch != [] {
      var front := batch[..|batch| - 1];
      HandleAllSpares(before, s, front, admin, listing);
      HandleOneSpares(before, HandleAll(s, front, admin, listing), batch[|batch| - 1], admin, listing);
    }
  }

  lemma {:induction false} ItemsAtAreOf(before: map<string, Thread>, items: map<string, Thread>, keys: seq<string>, admin: string)
    requires OnlyOrphansMove(before, items, admin) && Elements(keys) <= items.Keys
    ensures PageOf(before, ItemsAt(keys, items), admin)
  {
    if keys != [] {
      var front, last := keys[..|keys| - 1], keys[|keys| - 1];
      ItemsAtAreOf(before, items, front, admin);
      assert last in Elements(keys);
    }
  }

  lemma TurnSpares(before: map<string, Thread>, w: Walker, pageSize: nat, admin: string, listing: Listing)
    requires ShelfOk(w.shelf) && OnlyOrphansMove(before, w.shelf.items, admin)
    ensures ShelfOk(Turned(w, pageSize, admin, listing).shelf)
    ensures OnlyOrphansMove(before, Turned(w, pageSize, admin, listing).shelf.items, admin)
  {
    PageIsListed(w.shelf.order, pageSize, w.offset);
    ItemsAtAreOf(before, w.shelf.items, PageKeys(w.shelf.order, pageSize, w.offset), admin);
    HandleAllSpares(before, w.shelf, Page(w.shelf, pageSize, w.offset), admin, listing);
  }

  ghost predicate SparedSoFar(before: map<string, Thread>, admin: string, w: Walker) {
    ShelfOk(w.shelf) && OnlyOrphansMove(before, w.shelf.items, admin)
  }

  /** At any point of the walk, for every page size and listing: no thread is
      lost or new, none changes but in its owner, and only one without an owner
      changes, to the admin. */
  lemma NothingElseChanges(s: Shelf, k: nat, pageSize: nat, admin: string, listing: Listing)
    requires ShelfOk(s)
    ensures OnlyOrphansMove(s.items, Pages(s, k, TurnOf(pageSize, admin, listing)).shelf.items, admin)
  {
    var turn := TurnOf(pageSize, admin, listing);
    var p := (w: Walker) => SparedSoFar(s.items, admin, w);
    forall w | p(w) && !w.done
      ensures p(turn(w))
    {
      TurnSpares(s.items, w, pageSize, admin, listing);
    }
    PagesKeep(s, k, turn, p);
  }

  /** ... and when it is over each thread without an owner has changed (if
      rewritten items move to the end, when one page holds the store). */
  lemma OrphansGoToAdmin(s: Shelf, k: nat, pageSize: nat, admin: string, listing: Listing, key: string) returns (w: Walker)
    requires ShelfOk(s) && (listing != MovesToEnd || |s.order| <= pageSize) && key in s.items
    requires Pages(s, k, TurnOf(pageSize, admin, listing)).done
    ensures w == Pages(s, k, TurnOf(pageSize, admin, listing)) && key in w.shelf.items
    ensures w.shelf.items[key].rest == s.items[key].rest
    ensures w.shelf.items[key].userId
            == if s.items[key].userId == None || s.items[key].userId == Some("") then Some(admin) else s.items[key].userId
  {
    w := EveryThreadOnce(s, k, pageSize, admin, listing);
  }

  // ---- When rewritten items move to the end -----------------------------------------------------

  /** A key left behind the walk, still to be found in front of `offset`. */
  ghost predicate Behind(s: Shelf, offset: nat, key: string) {
    offset <= |s.order| && key in s.order[..offset]
  }

  lemma RewriteKeepsBehind(s: Shelf, offset: nat, key: string, other: string, value: Thread)
    requires Behind(s, offset, key) && key != other
    ensures Behind(Rewritten(s, other, value, MovesToEnd), offset, key)
  {
    var j :| 0 <= j < offset && s.order[j] == key;
    IndexIsFirst(s.order, other);
    var i := Index(s.order, other);
    if i < |s.order| {
      var order' := Rewritten(s, other, value, MovesToEnd).order;
      assert order'[if j < i then j else j - 1] == key;
      assert order'[..offset][if j < i then j else j - 1] == key;
    }
  }

  lemma {:induction false} HandleKeepsBehind(s: Shelf, batch: seq<Item>, admin: string, offset: nat, key: string)
    requires Behind(s, offset, key) && key !in Elements(KeysOf(batch))
    ensures var s' := HandleAll(s, batch, admin, MovesToEnd);
            Behind(s', offset, key) && (key in s'.items <==> key in s.items) && (key in s.items ==> s'.items[key] == s.items[key])
  {
    if batch != [] {
      var front, item := batch[..|batch| - 1], batch[|batch| - 1];
      assert KeysOf(batch)[..|batch| - 1] == KeysOf(front);
      HandleKeepsBehind(s, front, admin, offset, key);
      RewriteKeepsBehind(HandleAll(s, front, admin, MovesToEnd), offset, key, item.key, Adopted(item.value, admin));
    }
  }

  lemma BehindIsNotOnPage(s: Shelf, offset: nat, pageSize: nat, key: string)
    requires ShelfOk(s) && Behind(s, offset, key)
    ensures key !in Elements(PageKeys(s.order, pageSize, offset))
  {
    var page := PageKeys(s.order, pageSize, offset);
    ElementsAre(page, key);
    var j :| 0 <= j < offset && s.order[j] == key;
    assert forall i :: 0 <= i < |page| ==> page[i] == s.order[offset + i];
  }

  lemma PageKeepsBehind(s: Shelf, offset: nat, pageSize: nat, admin: string, key: string)
    requires ShelfOk(s) && Behind(s, offset, key) && key in s.items && offset + pageSize <= |s.order|
    ensures var s' := HandleAll(s, Page(s, pageSize, offset), admin, MovesToEnd);
            ShelfOk(s') && Behind(s', offset + pageSize, key) && key in s'.items && s'.items[key] == s.items[key]
  {
    var batch := Page(s, pageSize, offset);
    BehindIsNotOnPage(s, offset, pageSize, key);
    HandleKeepsBehind(s, batch, admin, offset, key);
    HandleAllOk(s, batch, admin, MovesToEnd);
    var s' := HandleAll(s, batch, admin, MovesToEnd);
    assert s'.order[..offset] <= s'.order[..offset + pageSize];
  }

  lemma LastPageKeepsBehind(s: Shelf, offset: nat, pageSize: nat, admin: string, key: string)
    requires ShelfOk(s) && Behind(s, offset, key) && key in s.items
    ensures var s' := HandleAll(s, Page(s, pageSize, offset), admin, MovesToEnd); key in s'.items && s'.items[key] == s.items[key]
  {
    BehindIsNotOnPage(s, offset, pageSize, key);
    HandleKeepsBehind(s, Page(s, pageSize, offset), admin, offset, key);
  }

  /** The key is behind the walk and has its old value. */
  ghost predicate LeftBehind(w: Walker, key: string, value: Thread) {
    && ShelfOk(w.shelf) && key in w.shelf.items && w.shelf.items[key] == value
    && (!w.done ==> Behind(w.shelf, w.offset, key))
  }

  lemma TurnLeavesBehind(w: Walker, pageSize: nat, admin: string, key: string, value: Thread)
    requires LeftBehind(w, key, value) && !w.done
    ensures LeftBehind(Turned(w, pageSize, admin, MovesToEnd), key, value)
  {
    PageLength(w.shelf, pageSize, w.offset);
    HandleAllOk(w.shelf, Page(w.shelf, pageSize, w.offset), admin, MovesToEnd);
    LastPageKeepsBehind(w.shelf, w.offset, pageSize, admin, key);
    if w.offset + pageSize <= |w.shelf.order| {
      PageKeepsBehind(w.shelf, w.offset, pageSize, admin, key);
    }
  }

  /** The walk never comes back to a key behind it. */
  lemma BehindIsNeverVisited(s: Shelf, k: nat, n: nat, pageSize: nat, admin: string, key: string, value: Thread) returns (w: Walker)
    requires k <= n && LeftBehind(Pages(s, k, TurnOf(pageSize, admin, MovesToEnd)), key, value)
    ensures w == Pages(s, n, TurnOf(pageSize, admin, MovesToEnd)) && LeftBehind(w, key, value)
  {
    var turn := TurnOf(pageSize, admin, MovesToEnd);
    forall v | LeftBehind(v, key, value) && !v.done
      ensures LeftBehind(turn(v), key, value)
    {
      TurnLeavesBehind(v, pageSize, admin, key, value);
    }
    PagesKeepFrom(s, k, n, turn, (w: Walker) => LeftBehind(w, key, value));
    w := Pages(s, n, turn);
  }

  lemma FirstToEnd(s: Shelf, order: seq<string>, n: nat, value: Thread)
    requires n < |order| && s.order == order[n..] + order[..n]
    ensures Rewritten(s, order[n], value, MovesToEnd).order == order[n + 1..] + order[..n + 1]
  {
    assert s.order[0] == order[n];
    assert Index(s.order, order[n]) == 0;
    assert s.order[..0] + s.order[1..] + [order[n]] == order[n + 1..] + order[..n + 1];
  }

  /** Handling ownerless items from the front rotates the listing. */
  lemma {:induction false} FrontRotates(s: Shelf, batch: seq<Item>, admin: string)
    requires Distinct(s.order) && |batch| <= |s.order| && KeysOf(batch) == s.order[..|batch|]
    requires forall item :: item in batch ==> !Owned(item.value)
    ensures HandleAll(s, batch, admin, MovesToEnd).order == s.order[|batch|..] + s.order[..|batch|]
  {
    if batch != [] {
      var n := |batch| - 1;
      var front, item := batch[..n], batch[n];
      assert KeysOf(batch)[..n] == KeysOf(front) && KeysOf(batch)[n] == item.key;
      FrontRotates(s, front, admin);
      FirstToEnd(HandleAll(s, front, admin, MovesToEnd), s.order, n, Adopted(item.value, admin));
    }
  }

  // ---- Exactly the stores of one page -------------------------------------------------------------

  /** A store of `n` ownerless threads. */
  lemma OwnerlessStore(n: nat) returns (s: Shelf)
    ensures ShelfOk(s) && |s.order| == n && forall k :: k in s.items ==> s.items[k] == Thread(None, "")
    ensures forall k :: k in s.order ==> |k| < n
  {
    if n == 0 {
      s := Shelf([], map[]);
    } else {
      var t := OwnerlessStore(n - 1);
      var name := seq(n - 1, _ => 'x');
      ElementsAre(t.order, name);
      s := Shelf(t.order + [name], t.items[name := Thread(None, "")]);
      assert s.order[..n - 1] == t.order;
    }
  }

  lemma {:induction false} ReadOwnerless(keys: seq<string>, items: map<string, Thread>)
    requires Elements(keys) <= items.Keys && forall k :: k in items ==> items[k] == Thread(None, "")
    ensures forall item :: item in ItemsAt(keys, items) ==> !Owned(item.value)
  {
    if keys != [] {
      ReadOwnerless(keys[..|keys| - 1], items);
    }
  }

  /** In a store of ownerless threads that does not fit on one page, the first
      thread after the page is never migrated. */
  lemma NextThreadIsSkipped(s: Shelf, k: nat, pageSize: nat, admin: string) returns (w: Walker)
    requires ShelfOk(s) && 0 < pageSize < |s.order| && forall k :: k in s.items ==> s.items[k] == Thread(None, "")
    requires k > 0
    ensures w == Pages(s, k, TurnOf(pageSize, admin, MovesToEnd)) && w.shelf.items != AllMigrated(s.items, admin)
  {
    var key := s.order[pageSize];
    ElementsAre(s.order, key);
    FirstPageRotates(s, pageSize, admin);
    FirstPageLeaves(s, pageSize, admin, key);
    w := BehindIsNeverVisited(s, 1, k, pageSize, admin, key, Thread(None, ""));
    NotMigrated(s.items, w.shelf.items, admin, key);
  }

  lemma NotMigrated(before: map<string, Thread>, items: map<string, Thread>, admin: string, key: string)
    requires key in before && key in items && before[key] == items[key] == Thread(None, "")
    ensures items != AllMigrated(before, admin)
  {
    assert AllMigrated(before, admin)[key] == Thread(Some(admin), "");
  }

  lemma FirstPageLeaves(s: Shelf, pageSize: nat, admin: string, key: string)
    requires pageSize > 0 && pageSize <= |s.order|
    requires var s' := HandleAll(s, Page(s, pageSize, 0), admin, MovesToEnd);
             ShelfOk(s') && Behind(s', pageSize, key) && key in s'.items && s'.items[key] == Thread(None, "")
    ensures LeftBehind(Pages(s, 1, TurnOf(pageSize, admin, MovesToEnd)), key, Thread(None, ""))
  {
    var turn := TurnOf(pageSize, admin, MovesToEnd);
    PageLength(s, pageSize, 0);
    NextPage(s, 0, turn, Start(s));
    assert turn(Start(s)) == Turned(Start(s), pageSize, admin, MovesToEnd);
  }

  lemma FirstPageRotates(s: Shelf, pageSize: nat, admin: string)
    requires ShelfOk(s) && 0 < pageSize < |s.order| && forall k :: k in s.items ==> s.items[k] == Thread(None, "")
    ensures var s', key := HandleAll(s, Page(s, pageSize, 0), admin, MovesToEnd), s.order[pageSize];
            ShelfOk(s') && Behind(s', pageSize, key) && key in s'.items && s'.items[key] == Thread(None, "")
  {
    var key, batch := s.order[pageSize], Page(s, pageSize, 0);
    ElementsAre(s.order, key);
    PageLength(s, pageSize, 0);
    PageIsListed(s.order, pageSize, 0);
    ReadOwnerless(PageKeys(s.order, pageSize, 0), s.items);
    assert KeysOf(batch) == s.order[..pageSize];
    FrontRotates(s, batch, admin);
    HandleAllOk(s, batch, admin, MovesToEnd);
    var s' := HandleAll(s, batch, admin, MovesToEnd);
    assert s'.order[..pageSize][0] == key;
    ElementsAre(s.order[..pageSize], key);
    UnvisitedIsKept(s, batch, admin, key);
  }

  lemma {:induction false} UnvisitedIsKept(s: Shelf, batch: seq<Item>, admin: string, key: string)
    requires key !in Elements(KeysOf(batch)) && key in s.items
    ensures var s' := HandleAll(s, batch, admin, MovesToEnd); key in s'.items && s'.items[key] == s.items[key]
  {
    if batch != [] {
      assert KeysOf(batch)[..|batch| - 1] == KeysOf(batch[..|batch| - 1]);
      UnvisitedIsKept(s, batch[..|batch| - 1], admin, key);
    }
  }

  /** If the walk is over after `k` pages, everything is migrated. */
  ghost predicate EndsMigrated(s: Shelf, k: nat, pageSize: nat, admin: string, listing: Listing) {
    var w := Pages(s, k, TurnOf(pageSize, admin, listing));
    w.done ==> w.shelf.items == AllMigrated(s.items, admin)
  }

  lemma OnePageEndsMigrated(s: Shelf, k: nat, pageSize: nat, admin: string)
    requires ShelfOk(s) && |s.order| <= pageSize
    ensures EndsMigrated(s, k, pageSize, admin, MovesToEnd)
  {
    if Pages(s, k, TurnOf(pageSize, admin, MovesToEnd)).done {
      var w := EveryThreadOnce(s, k, pageSize, admin, MovesToEnd);
    }
  }

  lemma MorePagesDoNot(n: nat, pageSize: nat, admin: string) returns (s: Shelf, k: nat)
    requires 0 < pageSize < n
    ensures ShelfOk(s) && |s.order| == n && !EndsMigrated(s, k, pageSize, admin, MovesToEnd)
  {
    s := OwnerlessStore(n);
    k := WalkIsDone(s, pageSize, admin, MovesToEnd);
    SkippedIsNotMigrated(s, k, pageSize, admin);
  }

  lemma SkippedIsNotMigrated(s: Shelf, k: nat, pageSize: nat, admin: string)
    requires ShelfOk(s) && 0 < pageSize < |s.order| && forall k :: k in s.items ==> s.items[k] == Thread(None, "")
    requires k > 0 && Pages(s, k, TurnOf(pageSize, admin, MovesToEnd)).done
    ensures !EndsMigrated(s, k, pageSize, admin, MovesToEnd)
  {
    var w := NextThreadIsSkipped(s, k, pageSize, admin);
  }

  /** Where rewritten items move to the end of the listing: every walk over every
      store of `n` threads migrates it exactly when one page holds them all. */
  lemma EndListingIff(n: nat, pageSize: nat, admin: string)
    requires pageSize > 0
    ensures (forall s, k: nat :: ShelfOk(s) && |s.order| == n ==> EndsMigrated(s, k, pageSize, admin, MovesToEnd)) <==> n <= pageSize
  {
    if n <= pageSize {
      forall s, k: nat | ShelfOk(s) && |s.order| == n
        ensures EndsMigrated(s, k, pageSize, admin, MovesToEnd)
      {
        OnePageEndsMigrated(s, k, pageSize, admin);
      }
    } else {
      var s, k := MorePagesDoNot(n, pageSize, admin);
    }
  }
}
