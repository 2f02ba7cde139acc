/**
  Giving threads without an owner to the admin, page by page, while the pages are read from the store the same loop
  updates (_iter_store_items and _migrate_orphaned_threads, backend/app/gateway/app.py).

  The store is external: it lists its items in some order, and an update may move the updated item. Where it moves is
  the function place, given the listing with the item updated in its old position.
 */
module Migration {
  // owner is metadata["user_id"], "" when it is missing or empty; rest stands for everything else in the item.
  datatype Item = Item(key: string, owner: string, rest: string)

  type Listing = seq<Item>

  type Place = (Listing, nat) -> Listing

  function Keys(s: Listing): set<string> {
    set i | 0 <= i < |s| :: s[i].key
  }

  // No key is listed twice.
  predicate Valid(s: Listing) {
    |Keys(s)| == |s|
  }

  // next rearranges s.
  predicate Rearranges(s: Listing, next: Listing) {
    |next| == |s| && multiset(next) == multiset(s)
  }

  // next agrees with s from position end on.
  predicate SameFrom(s: Listing, next: Listing, end: nat) {
    |next| == |s| && forall j :: end <= j < |s| ==> next[j] == s[j]
  }

  // An update only rearranges the listing.
  ghost predicate Permutes(place: Place) {
    forall s, i: nat {:trigger place(s, i)} :: i < |s| ==> Rearranges(s, place(s, i))
  }

  // A page ends here, or the first one begins.
  predicate Boundary(end: nat, pageSize: nat)
    requires pageSize > 0
  {
    end == 0 || (end >= pageSize && Boundary(end - pageSize, pageSize))
  }

  // In listings of n items, an update of an item before the end of a page disturbs nothing listed after that page.
  ghost predicate KeepsNextPages(place: Place, pageSize: nat, n: nat)
    requires pageSize > 0
  {
    forall s, i: nat, end: nat :: |s| == n && i < n && i < end && Boundary(end, pageSize) ==>
      SameFrom(s, place(s, i), end)
  }

  function IndexOf(s: Listing, key: string): (i: nat)
    ensures i <= |s| && (i < |s| ==> s[i].key == key) && forall j :: 0 <= j < i ==> s[j].key != key
  {
    if s == [] || s[0].key == key then 0 else 1 + IndexOf(s[1..], key)
  }

  // store.aput: update the item with this key, or add it.
  function Put(s: Listing, item: Item, place: Place): Listing {
    var i := IndexOf(s, item.key);
    if i < |s| then place(s[i := item], i) else s + [item]
  }

  // store.asearch
  function Page(s: Listing, limit: nat, offset: nat): (batch: Listing)
    ensures offset < |s| ==> |batch| == (if limit < |s| - offset then limit else |s| - offset)
    ensures forall i :: 0 <= i < |batch| ==> offset + i < |s| && batch[i] == s[offset + i]
  {
    if offset >= |s| then [] else if limit < |s| - offset then s[offset..offset + limit] else s[offset..]
  }

  function Owned(item: Item, admin: string): Item {
    if item.owner == "" then item.(owner := admin) else item
  }

  // ---- Specification -------------------------------------------------------------------

  datatype Outcome = Outcome(listing: Listing, migrated: nat, visited: Listing)

  function Visit(s: Listing, item: Item, admin: string, place: Place): Listing {
    if item.owner == "" then Put(s, item.(owner := admin), place) else s
  }

  // Visiting the items of one page in turn.
  function VisitBatch(s: Listing, batch: Listing, admin: string, place: Place): Outcome
    decreases |batch|
  {
    if batch == [] then Outcome(s, 0, [])
    else
      var rest := VisitBatch(Visit(s, batch[0], admin, place), batch[1..], admin, place);
      Outcome(rest.listing, (if batch[0].owner == "" then 1 else 0) + rest.migrated, [batch[0]] + rest.visited)
  }

  lemma RearrangedKeys(s: Listing, next: Listing)
    requires Rearranges(s, next)
    ensures Keys(next) == Keys(s)
  {
    forall i | 0 <= i < |s| ensures s[i].key in Keys(next) {
      assert s[i] in multiset(next);
    }
    forall i | 0 <= i < |s| ensures next[i].key in Keys(s) {
      assert next[i] in multiset(s);
    }
  }

  lemma VisitKeys(s: Listing, item: Item, admin: string, place: Place)
    requires Permutes(place) && item.key in Keys(s)
    ensures Keys(Visit(s, item, admin, place)) == Keys(s) && |Visit(s, item, admin, place)| == |s|
  {
    var i := IndexOf(s, item.key);
    var updated := s[i := item.(owner := admin)];
    assert forall j :: 0 <= j < |s| ==> updated[j].key == s[j].key;
    assert Keys(updated) == Keys(s);
    RearrangedKeys(updated, place(updated, i));
  }

  lemma {:induction false} BatchKeys(s: Listing, batch: Listing, admin: string, place: Place)
    requires Permutes(place) && Keys(batch) <= Keys(s)
    ensures Keys(VisitBatch(s, batch, admin, place).listing) == Keys(s) &&
            |VisitBatch(s, batch, admin, place).listing| == |s|
    decreases |batch|
  {
    if batch != [] {
      assert batch[0].key in Keys(batch) && forall j :: 0 <= j < |batch| - 1 ==> batch[1..][j] == batch[j + 1];
      VisitKeys(s, batch[0], admin, place);
      BatchKeys(Visit(s, batch[0], admin, place), batch[1..], admin, place);
    }
  }

  ghost function Pages(s: Listing, offset: nat, pageSize: nat, admin: string, place: Place): Outcome
    requires Permutes(place) && pageSize > 0
    decreases |s| - offset
  {
    var batch := Page(s, pageSize, offset);
    if batch == [] then Outcome(s, 0, [])
    else
      var page := VisitBatch(s, batch, admin, place);
      BatchKeys(s, batch, admin, place);
      if |batch| < pageSize then page
      else
        var rest := Pages(page.listing, offset + pageSize, pageSize, admin, place);
        Outcome(rest.listing, page.migrated + rest.migrated, page.visited + rest.visited)
  }

  // ---- The code ------------------------------------------------------------------------

  class ThreadStore {
    var listing: Listing
    const place: Place

    constructor (listing: Listing, place: Place)
      ensures this.listing == listing && this.place == place
    {
      this.listing := listing;
      this.place := place;
    }

    method Search(limit: nat, offset: nat) returns (batch: Listing)
      ensures batch == Page(listing, limit, offset)
    {
      batch := Page(listing, limit, offset);
    }

    method Update(item: Item)
      modifies this
      ensures listing == Put(old(listing), item, place)
    {
      listing := Put(listing, item, place);
    }
  }

  method VisitPage(store: ThreadStore, batch: Listing, admin: string) returns (migrated: nat)
    modifies store
    ensures store.listing == VisitBatch(old(store.listing), batch, admin, store.place).listing
    ensures migrated == VisitBatch(old(store.listing), batch, admin, store.place).migrated
  {
    migrated := 0;
    ghost var page := VisitBatch(store.listing, batch, admin, store.place);
    for i := 0 to |batch|
      invariant VisitBatch(store.listing, batch[i..], admin, store.place).listing == page.listing
      invariant migrated + VisitBatch(store.listing, batch[i..], admin, store.place).migrated == page.migrated
    {
      assert batch[i..][0] == batch[i] && batch[i..][1..] == batch[i + 1..];
      var item := batch[i];
      if item.owner == "" {
        store.Update(item.(owner := admin));
        migrated := migrated + 1;
      }
    }
  }

  // _migrate_orphaned_threads, which leaves pageSize at 500.
  method MigrateOrphanedThreads(store: ThreadStore, pageSize: nat, admin: string) returns (migrated: nat)
    requires Permutes(store.place) && pageSize > 0
    modifies store
    ensures store.listing == Pages(old(store.listing), 0, pageSize, admin, store.place).listing
    ensures migrated == Pages(old(store.listing), 0, pageSize, admin, store.place).migrated
  {
    hide Permutes, VisitBatch;
    migrated := 0;
    var offset := 0;
    ghost var all := Pages(store.listing, 0, pageSize, admin, store.place);
    while true
      invariant Pages(store.listing, offset, pageSize, admin, store.place).listing == all.listing
      invariant migrated + Pages(store.listing, offset, pageSize, admin, store.place).migrated == all.migrated
      decreases |store.listing| - offset
    {
      var batch := store.Search(pageSize, offset);
      if batch == [] {
        return;
      }
      BatchKeys(store.listing, batch, admin, store.place);
      var more := VisitPage(store, batch, admin);
      migrated := migrated + more;
      if |batch| < pageSize {
        return;
      }
      offset := offset + pageSize;
    }
  }

  // ---- What it achieves ----------------------------------------------------------------

  lemma {:induction false} AtMostOneKeyEach(s: Listing)
    ensures |Keys(s)| <= |s|
  {
    if s != [] {
      var front := s[..|s| - 1];
      AtMostOneKeyEach(front);
      assert Keys(s) == Keys(front) + {s[|s| - 1].key};
    }
  }

  lemma RepeatedKey(s: Listing, i: nat, j: nat)
    requires i < |s| && j < |s| && i != j && s[i].key == s[j].key
    ensures |Keys(s)| < |s|
  {
    var others := s[..j] + s[j + 1..];
    AtMostOneKeyEach(others);
    assert forall k :: 0 <= k < |s| && k != j ==> s[k] == others[if k < j then k else k - 1];
    assert Keys(s) == Keys(others);
  }

  lemma KeyListedOnce(s: Listing, i: nat, j: nat)
    requires Valid(s) && i < |s| && j < |s| && s[i].key == s[j].key
    ensures i == j
  {
    if i != j {
      RepeatedKey(s, i, j);
    }
  }

  // init with the first k items owned.
  function Progress(init: Listing, k: nat, admin: string): Listing {
    seq(|init|, i requires 0 <= i < |init| => if i < k then Owned(init[i], admin) else init[i])
  }

  // After k visits the store holds exactly what it held, with those k items owned, and lists what comes after the page
  // being visited where it listed it.
  predicate Swept(init: Listing, s: Listing, k: nat, end: nat, admin: string) {
    Rearranges(Progress(init, k, admin), s) && SameFrom(init, s, end)
  }

  lemma ProgressKeys(init: Listing, k: nat, admin: string)
    ensures Keys(Progress(init, k, admin)) == Keys(init)
  {
    assert forall i :: 0 <= i < |init| ==> Progress(init, k, admin)[i].key == init[i].key;
  }

  // The next item to visit stands before the end of its page, as it was.
  lemma NextToVisit(init: Listing, s: Listing, k: nat, end: nat, admin: string)
    requires Valid(init) && k < end && k < |init| && Swept(init, s, k, end, admin)
    ensures var i := IndexOf(s, init[k].key);
            i < |s| && i < end && s[i] == init[k]
  {
    var progress := Progress(init, k, admin);
    ProgressKeys(init, k, admin);
    RearrangedKeys(progress, s);
    assert progress[k] == init[k] && init[k] in multiset(progress);
    assert init[k] in s;
    var j :| 0 <= j < |s| && s[j] == init[k];
    KeyListedOnce(s, j, IndexOf(s, init[k].key));
    if j >= end {
      KeyListedOnce(init, j, k);
    }
  }

  lemma ReplaceOne(a: Listing, s: Listing, k: nat, i: nat, item: Item)
    requires multiset(a) == multiset(s) && k < |a| && i < |s| && a[k] == s[i]
    ensures multiset(a[k := item]) == multiset(s[i := item])
  {
  }

  lemma SweepOne(init: Listing, s: Listing, k: nat, end: nat, pageSize: nat, admin: string, place: Place)
    requires Valid(init) && Permutes(place) && pageSize > 0 && KeepsNextPages(place, pageSize, |init|)
    requires k < end && k < |init| && Boundary(end, pageSize) && Swept(init, s, k, end, admin)
    ensures Swept(init, Visit(s, init[k], admin, place), k + 1, end, admin)
  {
    hide Valid, Progress, IndexOf, Visit, Owned, Boundary;
    var owned := Owned(init[k], admin);
    ProgressStep(init, k, admin);
    NextToVisit(init, s, k, end, admin);
    var i := IndexOf(s, init[k].key);
    var updated := s[i := owned];
    ReplaceOne(Progress(init, k, admin), s, k, i, owned);
    VisitIs(s, init[k], admin, place);
    if init[k].owner == "" {
      assert Rearranges(updated, place(updated, i)) && SameFrom(updated, place(updated, i), end);
    } else {
      assert updated == s;
    }
  }

  lemma ProgressStep(init: Listing, k: nat, admin: string)
    requires k < |init|
    ensures Progress(init, k, admin)[k] == init[k]
    ensures Progress(init, k + 1, admin) == Progress(init, k, admin)[k := Owned(init[k], admin)]
  {
    hide Owned;
  }

  lemma VisitIs(s: Listing, item: Item, admin: string, place: Place)
    requires IndexOf(s, item.key) < |s|
    ensures var i := IndexOf(s, item.key);
            var owned := Owned(item, admin);
            && (item.owner == "" ==> Visit(s, item, admin, place) == place(s[i := owned], i))
            && (item.owner != "" ==> owned == item && Visit(s, item, admin, place) == s)
  {
    hide IndexOf;
  }

  // The number of items without an owner.
  function Orphans(s: Listing): nat {
    if s == [] then 0 else (if s[0].owner == "" then 1 else 0) + Orphans(s[1..])
  }

  lemma {:induction false} OrphansConcat(a: Listing, b: Listing)
    ensures Orphans(a + b) == Orphans(a) + Orphans(b)
  {
    if a == [] {
      assert a + b == b;
    } else {
      assert (a + b)[1..] == a[1..] + b;
      OrphansConcat(a[1..], b);
    }
  }

  // Every item of a page is visited, and the orphans among them are counted.
  lemma {:induction false} BatchCounts(s: Listing, batch: Listing, admin: string, place: Place)
    ensures VisitBatch(s, batch, admin, place).visited == batch
    ensures VisitBatch(s, batch, admin, place).migrated == Orphans(batch)
    decreases |batch|
  {
    if batch != [] {
      BatchCounts(Visit(s, batch[0], admin, place), batch[1..], admin, place);
    }
  }

  lemma {:induction false} SweepBatch(init: Listing, s: Listing, k: nat, end: nat, batch: Listing, pageSize: nat,
                                      admin: string, place: Place)
    requires Valid(init) && Permutes(place) && pageSize > 0 && KeepsNextPages(place, pageSize, |init|)
    requires Boundary(end, pageSize) && Swept(init, s, k, end, admin)
    requires k + |batch| <= |init| && k + |batch| <= end && batch == init[k..k + |batch|]
    ensures Swept(init, VisitBatch(s, batch, admin, place).listing, k + |batch|, end, admin)
    decreases |batch|
  {
    hide Swept, Permutes, KeepsNextPages, Valid, Visit;
    if batch != [] {
      SweepOne(init, s, k, end, pageSize, admin, place);
      assert batch[1..] == init[k + 1..k + |batch|];
      SweepBatch(init, Visit(s, batch[0], admin, place), k + 1, end, batch[1..], pageSize, admin, place);
    }
  }

  // The next page is read from where it always stood.
  lemma SweptPage(init: Listing, s: Listing, k: nat, pageSize: nat, admin: string)
    requires Swept(init, s, k, k, admin) && k <= |init|
    ensures var batch := Page(s, pageSize, k);
            && |s| == |init| && k + |batch| <= |init| && batch == init[k..k + |batch|]
            && |batch| <= pageSize && (|batch| < pageSize ==> k + |batch| == |init|)
  {
  }

  lemma SweptWider(init: Listing, s: Listing, k: nat, end: nat, later: nat, admin: string)
    requires Swept(init, s, k, end, admin) && end <= later
    ensures Swept(init, s, k, later, admin)
  {
  }

  lemma NextBoundary(k: nat, pageSize: nat)
    requires pageSize > 0 && Boundary(k, pageSize)
    ensures Boundary(k + pageSize, pageSize)
  {
  }

  // A short page ends the run; a full one is followed by the pages after it.
  lemma PagesStep(s: Listing, offset: nat, pageSize: nat, admin: string, place: Place)
    requires Permutes(place) && pageSize > 0
    ensures var batch := Page(s, pageSize, offset);
            var page := VisitBatch(s, batch, admin, place);
            var o := Pages(s, offset, pageSize, admin, place);
            if |batch| < pageSize then
              o.listing == page.listing && o.migrated == page.migrated && o.visited == page.visited
            else
              var rest := Pages(page.listing, offset + pageSize, pageSize, admin, place);
              o.listing == rest.listing && o.migrated == page.migrated + rest.migrated &&
                o.visited == page.visited + rest.visited
  {
  }

  lemma {:induction false} SweepPages(init: Listing, s: Listing, k: nat, pageSize: nat, admin: string, place: Place)
    requires Valid(init) && Permutes(place) && pageSize > 0 && KeepsNextPages(place, pageSize, |init|)
    requires k <= |init| && Boundary(k, pageSize) && Swept(init, s, k, k, admin)
    ensures var o := Pages(s, k, pageSize, admin, place);
            && Rearranges(Progress(init, |init|, admin), o.listing)
            && o.visited == init[k..] && o.migrated == Orphans(init[k..])
    decreases |init| - k
  {
    hide *;
    var batch := Page(s, pageSize, k);
    var end := k + pageSize;
    NextBoundary(k, pageSize);
    SweptPage(init, s, k, pageSize, admin);
    SweptWider(init, s, k, k, end, admin);
    SweepBatch(init, s, k, end, batch, pageSize, admin, place);
    BatchCounts(s, batch, admin, place);
    PagesStep(s, k, pageSize, admin, place);
    var next := VisitBatch(s, batch, admin, place).listing;
    if |batch| == pageSize {
      SweepPages(init, next, end, pageSize, admin, place);
      OrphansConcat(batch, init[end..]);
      assert init[k..] == batch + init[end..];
    } else {
      SweptAll(init, next, end, admin);
      assert init[k..] == batch;
    }
  }

  lemma SweptAll(init: Listing, s: Listing, end: nat, admin: string)
    requires Swept(init, s, |init|, end, admin)
    ensures Rearranges(Progress(init, |init|, admin), s)
  {
  }

  // If updates leave the pages after the one being visited alone, paging visits every item exactly once, in the
  // original order; afterwards the store holds the same items, those without an owner given to the admin; the count is
  // the number of orphans.
  lemma EveryThreadOnce(s: Listing, pageSize: nat, admin: string, place: Place)
    requires Valid(s) && Permutes(place) && pageSize > 0 && KeepsNextPages(place, pageSize, |s|)
    ensures var o := Pages(s, 0, pageSize, admin, place);
            && o.visited == s && o.migrated == Orphans(s)
            && Rearranges(Progress(s, |s|, admin), o.listing)
  {
    assert Progress(s, 0, admin) == s;
    SweepPages(s, s, 0, pageSize, admin, place);
    assert s[0..] == s;
  }

  predicate HaveOwners(s: Listing) {
    forall i :: 0 <= i < |s| ==> s[i].owner != ""
  }

  lemma {:induction false} NoOrphans(s: Listing)
    requires HaveOwners(s)
    ensures Orphans(s) == 0
  {
    if s != [] {
      NoOrphans(s[1..]);
    }
  }

  // Afterwards the listing is valid and everything in it has an owner.
  lemma AllOwned(s: Listing, next: Listing, admin: string)
    requires Valid(s) && admin != "" && Rearranges(Progress(s, |s|, admin), next)
    ensures Valid(next) && HaveOwners(next)
  {
    var progress := Progress(s, |s|, admin);
    assert forall i :: 0 <= i < |s| ==> progress[i].key == s[i].key;
    assert Keys(progress) == Keys(s);
    RearrangedKeys(progress, next);
    forall i | 0 <= i < |next| ensures next[i].owner != "" {
      assert next[i] in multiset(next);
      assert next[i] in progress;
    }
  }

  // Nothing but the missing owners has changed, and nothing was lost or added.
  lemma ItemsKept(s: Listing, next: Listing, admin: string, item: Item)
    requires Rearranges(Progress(s, |s|, admin), next)
    ensures |next| == |s|
    ensures item in next <==>
            exists i :: 0 <= i < |s| &&
                        item == Item(s[i].key, if s[i].owner == "" then admin else s[i].owner, s[i].rest)
  {
    var progress := Progress(s, |s|, admin);
    assert item in next <==> item in multiset(next);
    assert item in progress <==> item in multiset(progress);
    assert forall i :: 0 <= i < |s| ==>
      progress[i] == Item(s[i].key, if s[i].owner == "" then admin else s[i].owner, s[i].rest);
  }

  // Run again, it migrates nothing.
  method MigrateTwice(store: ThreadStore, pageSize: nat, admin: string) returns (first: nat, second: nat)
    requires Valid(store.listing) && Permutes(store.place) && admin != ""
    requires pageSize > 0 && KeepsNextPages(store.place, pageSize, |store.listing|)
    modifies store
    ensures first == Orphans(old(store.listing))
    ensures second == 0
  {
    EveryThreadOnce(store.listing, pageSize, admin, store.place);
    ghost var before := store.listing;
    first := MigrateOrphanedThreads(store, pageSize, admin);
    AllOwned(before, store.listing, admin);
    EveryThreadOnce(store.listing, pageSize, admin, store.place);
    NoOrphans(store.listing);
    second := MigrateOrphanedThreads(store, pageSize, admin);
  }

  // ---- Which stores qualify ------------------------------------------------------------

  function Stable(s: Listing, i: nat): Listing {
    s
  }

  function MoveToFront(s: Listing, i: nat): Listing {
    if i < |s| then [s[i]] + s[..i] + s[i + 1..] else s
  }

  function MoveToBack(s: Listing, i: nat): Listing {
    if i < |s| then s[..i] + s[i + 1..] + [s[i]] else s
  }

  lemma Moved(s: Listing, i: nat)
    requires i < |s|
    ensures multiset(MoveToFront(s, i)) == multiset(s) == multiset(MoveToBack(s, i))
  {
    assert s == s[..i] + [s[i]] + s[i + 1..];
  }

  // Stores that keep their order, or move an updated item to the front, qualify for every page size.
  lemma StableAndMoveToFrontQualify(pageSize: nat, n: nat)
    requires pageSize > 0
    ensures Permutes(Stable) && KeepsNextPages(Stable, pageSize, n)
    ensures Permutes(MoveToFront) && KeepsNextPages(MoveToFront, pageSize, n)
    ensures forall s, i: nat | i < |s| :: MoveToFront(s, i)[0] == s[i] && MoveToFront(s, i)[1..] == s[..i] + s[i + 1..]
  {
    forall s, i: nat | i < |s| ensures Rearranges(s, MoveToFront(s, i)) {
      Moved(s, i);
    }
  }

  // Every store qualifies for listings that fit one page.
  lemma OnePageQualifies(place: Place, pageSize: nat, n: nat)
    requires Permutes(place) && 0 < pageSize && n <= pageSize
    ensures KeepsNextPages(place, pageSize, n)
  {
    forall s, i: nat, end: nat | |s| == n && i < n && i < end && Boundary(end, pageSize)
      ensures SameFrom(s, place(s, i), end)
    {
      assert Rearranges(s, place(s, i));
      assert end >= pageSize;
    }
  }

  // ---- A store that does not -----------------------------------------------------------

  lemma MoveToBackPermutes()
    ensures Permutes(MoveToBack)
  {
    forall s, i: nat | i < |s| ensures Rearranges(s, MoveToBack(s, i)) {
      Moved(s, i);
    }
  }

  predicate AllOrphans(s: Listing) {
    forall i :: 0 <= i < |s| ==> s[i].owner == ""
  }

  // A page with o orphans makes the paging skip the next o items, for the orphans leave and those items move up: no
  // item skipped is an orphan.
  predicate NoneSkipped(s: Listing, pageSize: nat)
    requires pageSize > 0
  {
    |s| <= pageSize ||
    var o, rest := Orphans(s[..pageSize]), s[pageSize..];
    if o >= |rest| then HaveOwners(rest) else HaveOwners(rest[..o]) && NoneSkipped(rest[o..], pageSize)
  }

  function Kept(batch: Listing): Listing {
    if batch == [] then [] else (if batch[0].owner == "" then [] else [batch[0]]) + Kept(batch[1..])
  }

  // The orphans of a page, given to the admin.
  function Given(batch: Listing, admin: string): Listing {
    if batch == [] then []
    else (if batch[0].owner == "" then [batch[0].(owner := admin)] else []) + Given(batch[1..], admin)
  }

  lemma {:induction false} KeptAndGiven(batch: Listing, admin: string)
    ensures |Given(batch, admin)| == Orphans(batch) && |Kept(batch)| + |Given(batch, admin)| == |batch|
    ensures HaveOwners(Kept(batch)) && (admin != "" ==> HaveOwners(Given(batch, admin)))
  {
    if batch != [] {
      KeptAndGiven(batch[1..], admin);
    }
  }

  lemma KeyedFirst(s: Listing, k: nat)
    requires Valid(s) && k < |s|
    ensures IndexOf(s, s[k].key) == k
  {
    KeyListedOnce(s, IndexOf(s, s[k].key), k);
  }

  // Visiting an orphan moves it to the back.
  lemma VisitMoves(a: Listing, item: Item, z: Listing, admin: string)
    requires Valid(a + [item] + z)
    ensures Visit(a + [item] + z, item, admin, MoveToBack) ==
            if item.owner == "" then a + z + [item.(owner := admin)] else a + [item] + z
    ensures Valid(Visit(a + [item] + z, item, admin, MoveToBack))
  {
    var s := a + [item] + z;
    assert s[|a|] == item;
    hide IndexOf;
    KeyedFirst(s, |a|);
    MoveToBackPermutes();
    VisitKeys(s, item, admin, MoveToBack);
  }

  lemma BatchStep(s: Listing, batch: Listing, admin: string, place: Place)
    ensures VisitBatch(s, batch, admin, place).listing ==
            if batch == [] then s else VisitBatch(Visit(s, batch[0], admin, place), batch[1..], admin, place).listing
  {
    hide Visit;
  }

  lemma Regroup(a: Listing, b: Listing, c: Listing)
    ensures (a + b) + c == a + (b + c)
  {
  }

  lemma FirstOfBatch(batch: Listing, admin: string)
    requires batch != []
    ensures batch == [batch[0]] + batch[1..]
    ensures Kept(batch) == (if batch[0].owner == "" then [] else [batch[0]]) + Kept(batch[1..])
    ensures Given(batch, admin) ==
            (if batch[0].owner == "" then [batch[0].(owner := admin)] else []) + Given(batch[1..], admin)
  {
  }

  lemma NothingGiven(a: Listing, z: Listing, admin: string)
    ensures a + [] + z == a + Kept([]) + z + Given([], admin)
  {
  }

  // Visiting a page moves its orphans to the back, in their order.
  lemma {:induction false} BatchMoves(a: Listing, batch: Listing, z: Listing, admin: string)
    requires Valid(a + batch + z)
    ensures VisitBatch(a + batch + z, batch, admin, MoveToBack).listing == a + Kept(batch) + z + Given(batch, admin)
    decreases |batch|, 0
  {
    hide *;
    BatchStep(a + batch + z, batch, admin, MoveToBack);
    if batch == [] {
      NothingGiven(a, z, admin);
    } else {
      var item, more := batch[0], batch[1..];
      FirstOfBatch(batch, admin);
      Regroup(a, [item], more);
      Regroup(a + [item], more, z);
      VisitMoves(a, item, more + z, admin);
      if item.owner == "" {
        BatchMovesOn(a, item, more, z, admin);
      } else {
        BatchMoves(a + [item], more, z, admin);
        Regroup(a, [item], Kept(more));
        assert [] + Given(more, admin) == Given(more, admin);
      }
    }
  }

  // The first item of the page has moved.
  lemma {:induction false} BatchMovesOn(a: Listing, item: Item, more: Listing, z: Listing, admin: string)
    requires Valid(a + (more + z) + [item.(owner := admin)]) && item.owner == ""
    ensures VisitBatch(a + (more + z) + [item.(owner := admin)], more, admin, MoveToBack).listing ==
            a + ([] + Kept(more)) + z + ([item.(owner := admin)] + Given(more, admin))
    decreases |more|, 1
  {
    hide *;
    var given := [item.(owner := admin)];
    Regroup(a, more, z);
    Regroup(a + more, z, given);
    BatchMoves(a, more, z + given, admin);
    Regroup(a + Kept(more), z, given);
    Regroup(a + Kept(more) + z, given, Given(more, admin));
    assert [] + Kept(more) == Kept(more);
  }

  lemma BothHaveOwners(a: Listing, b: Listing)
    ensures HaveOwners(a + b) <==> HaveOwners(a) && HaveOwners(b)
  {
    if HaveOwners(a + b) {
      assert forall i :: 0 <= i < |a| ==> (a + b)[i] == a[i];
      assert forall i :: 0 <= i < |b| ==> (a + b)[|a| + i] == b[i];
    }
  }

  // From here on a listing is cut in three: a is what stands before the offset, x is as it was at first, and y is what
  // was moved to the back.
  lemma PageIs(a: Listing, b: Listing, z: Listing, pageSize: nat)
    requires |b| == pageSize || (z == [] && |b| < pageSize)
    ensures Page(a + b + z, pageSize, |a|) == b
  {
  }

  // A page that holds all of x leaves only items with owners behind it.
  lemma PageOfAll(a: Listing, x: Listing, y: Listing, pageSize: nat, admin: string) returns (after: Listing)
    requires Valid(a + x + y) && (admin != "" ==> HaveOwners(y)) && pageSize > 0 && |x| <= pageSize
    ensures var batch := Page(a + x + y, pageSize, |a|);
            && VisitBatch(a + x + y, batch, admin, MoveToBack).listing == a + after
            && |batch| == if |x| + |y| < pageSize then |x| + |y| else pageSize
    ensures |after| == |x| + |y| && (admin != "" ==> HaveOwners(after))
  {
    hide VisitBatch, Valid, HaveOwners, Page;
    var c := if |x| + |y| < pageSize then |y| else pageSize - |x|;
    var batch, z := x + y[..c], y[c..];
    assert a + x + y == a + batch + z;
    PageIs(a, batch, z, pageSize);
    BatchMoves(a, batch, z, admin);
    KeptAndGiven(batch, admin);
    BothHaveOwners(y[..c], z);
    assert y[..c] + z == y;
    after := Kept(batch) + z + Given(batch, admin);
    BothHaveOwners(Kept(batch), z);
    BothHaveOwners(Kept(batch) + z, Given(batch, admin));
    assert a + Kept(batch) + z + Given(batch, admin) == a + after;
  }

  // The o items after front are skipped; rest is as it was at first.
  lemma SkipSome(front: Listing, rest: Listing, later: Listing, o: nat, pageSize: nat)
    returns (a: Listing, x: Listing, y: Listing)
    requires o <= |rest| + |later| && pageSize > 0
    ensures a + x + y == front + rest + later && |a| == |front| + o && front <= a
    ensures HaveOwners(later) ==> HaveOwners(y)
    ensures HaveOwners(later) ==>
            (HaveOwners(a) && NoneSkipped(x, pageSize) <==>
             HaveOwners(front) &&
             if o >= |rest| then HaveOwners(rest) else HaveOwners(rest[..o]) && NoneSkipped(rest[o..], pageSize))
  {
    hide HaveOwners, Orphans;
    if o >= |rest| {
      var c := o - |rest|;
      a, x, y := front + rest + later[..c], [], later[c..];
      assert later[..c] + y == later && a + [] == a;
      Regroup(front + rest, later[..c], y);
      BothHaveOwners(later[..c], y);
      BothHaveOwners(front, rest);
      BothHaveOwners(front + rest, later[..c]);
    } else {
      a, x, y := front + rest[..o], rest[o..], later;
      assert rest[..o] + x == rest;
      Regroup(front, rest[..o], x);
      BothHaveOwners(front, rest[..o]);
    }
  }

  // A full page of x: what moves up into its place is skipped.
  lemma PageOfSome(a: Listing, x: Listing, y: Listing, pageSize: nat, admin: string)
    returns (a': Listing, x': Listing, y': Listing)
    requires Valid(a + x + y) && (admin != "" ==> HaveOwners(y)) && 0 < pageSize < |x|
    ensures var batch := Page(a + x + y, pageSize, |a|);
            |batch| == pageSize && VisitBatch(a + x + y, batch, admin, MoveToBack).listing == a' + x' + y'
    ensures |a'| == |a| + pageSize && a <= a' && (admin != "" ==> HaveOwners(y'))
    ensures admin != "" ==>
            (HaveOwners(a') && NoneSkipped(x', pageSize) <==> HaveOwners(a) && NoneSkipped(x, pageSize))
  {
    hide VisitBatch, Valid, HaveOwners, Page, Kept, Given, Orphans, NoneSkipped;
    var batch, rest := x[..pageSize], x[pageSize..];
    SomeMoves(a, x, y, pageSize, admin);
    KeptAndGiven(batch, admin);
    BothHaveOwners(y, Given(batch, admin));
    BothHaveOwners(a, Kept(batch));
    SkippedStep(x, pageSize);
    a', x', y' := SkipSome(a + Kept(batch), rest, y + Given(batch, admin), Orphans(batch), pageSize);
  }

  lemma SkippedStep(x: Listing, pageSize: nat)
    requires 0 < pageSize < |x|
    ensures var o, rest := Orphans(x[..pageSize]), x[pageSize..];
            NoneSkipped(x, pageSize) <==>
            if o >= |rest| then HaveOwners(rest) else HaveOwners(rest[..o]) && NoneSkipped(rest[o..], pageSize)
  {
    hide Orphans, HaveOwners;
  }

  lemma SomeMoves(a: Listing, x: Listing, y: Listing, pageSize: nat, admin: string)
    requires Valid(a + x + y) && 0 < pageSize <= |x|
    ensures Page(a + x + y, pageSize, |a|) == x[..pageSize]
    ensures VisitBatch(a + x + y, x[..pageSize], admin, MoveToBack).listing ==
            (a + Kept(x[..pageSize])) + x[pageSize..] + (y + Given(x[..pageSize], admin))
  {
    hide *;
    var batch, rest := x[..pageSize], x[pageSize..];
    assert batch + rest == x;
    Regroup(a, batch, rest);
    Regroup(a + batch, rest, y);
    PageIs(a, batch, rest + y, pageSize);
    BatchMoves(a, batch, rest + y, admin);
    Regroup(a + Kept(batch), rest, y);
    Regroup(a + Kept(batch) + rest, y, Given(batch, admin));
  }

  lemma VisitedValid(s: Listing, pageSize: nat, offset: nat, admin: string)
    requires Valid(s)
    ensures var next := VisitBatch(s, Page(s, pageSize, offset), admin, MoveToBack).listing;
            Valid(next) && |next| == |s|
  {
    MoveToBackPermutes();
    BatchKeys(s, Page(s, pageSize, offset), admin, MoveToBack);
  }

  // From offset |a| on, what stands before it stays, and everything ends with an owner exactly when nothing without
  // one stands before it or is skipped.
  lemma {:induction false} PagesComplete(a: Listing, x: Listing, y: Listing, pageSize: nat, admin: string)
    requires Valid(a + x + y) && (admin != "" ==> HaveOwners(y)) && pageSize > 0 && Permutes(MoveToBack)
    ensures var next := Pages(a + x + y, |a|, pageSize, admin, MoveToBack).listing;
            a <= next && (admin != "" ==> (HaveOwners(next) <==> HaveOwners(a) && NoneSkipped(x, pageSize)))
    decreases |x| + |y|
  {
    hide VisitBatch, Valid, Page, Pages, Permutes, HaveOwners, MoveToBack;
    PagesStep(a + x + y, |a|, pageSize, admin, MoveToBack);
    VisitedValid(a + x + y, pageSize, |a|, admin);
    if |x| <= pageSize {
      var after := PageOfAll(a, x, y, pageSize, admin);
      BothHaveOwners(a, after);
      if |x| + |y| >= pageSize {
        var a', y' := a + after[..pageSize], after[pageSize..];
        assert after[..pageSize] + y' == after;
        BothHaveOwners(after[..pageSize], y');
        BothHaveOwners(a, after[..pageSize]);
        assert a' + [] + y' == a + after;
        PagesComplete(a', [], y', pageSize, admin);
      }
    } else {
      var a', x', y' := PageOfSome(a, x, y, pageSize, admin);
      PagesComplete(a', x', y', pageSize, admin);
    }
  }

  // After a run over such a store every item has an owner exactly when no page's orphans make it skip another orphan.
  lemma MoveToBackIff(s: Listing, pageSize: nat, admin: string)
    requires Valid(s) && pageSize > 0 && admin != ""
    ensures Permutes(MoveToBack)
    ensures HaveOwners(Pages(s, 0, pageSize, admin, MoveToBack).listing) <==> NoneSkipped(s, pageSize)
  {
    hide Pages, Valid, NoneSkipped, MoveToBack, Permutes;
    MoveToBackPermutes();
    assert [] + s + [] == s;
    PagesComplete([], s, [], pageSize, admin);
  }

  lemma {:induction false} AllAreOrphans(s: Listing)
    requires AllOrphans(s)
    ensures Orphans(s) == |s| && Kept(s) == []
  {
    if s != [] {
      AllAreOrphans(s[1..]);
    }
  }

  // For orphans alone that is when they fit one page.
  lemma OrphansFitOnePage(s: Listing, pageSize: nat)
    requires AllOrphans(s) && pageSize > 0
    ensures NoneSkipped(s, pageSize) <==> |s| <= pageSize
  {
    if |s| > pageSize {
      AllAreOrphans(s[..pageSize]);
      assert s[pageSize..][0] == s[pageSize];
    }
  }

  // With more orphans than a page holds, the first one after page one comes to stand first, and is never read.
  lemma MoveToBackSkips(s: Listing, pageSize: nat, admin: string)
    requires Valid(s) && AllOrphans(s) && 0 < pageSize < |s|
    ensures Permutes(MoveToBack)
    ensures var next := Pages(s, 0, pageSize, admin, MoveToBack).listing;
            next != [] && next[0] == s[pageSize] && next[0].owner == ""
  {
    hide Pages, Valid, VisitBatch, Page, Permutes, MoveToBack, NoneSkipped, Kept, Given;
    MoveToBackPermutes();
    FirstPageLeaves(s, pageSize, admin);
    VisitedValid(s, pageSize, 0, admin);
    PagesStep(s, 0, pageSize, admin, MoveToBack);
    var next := VisitBatch(s, Page(s, pageSize, 0), admin, MoveToBack).listing;
    assert next[..pageSize] + next[pageSize..] + [] == next;
    PagesComplete(next[..pageSize], next[pageSize..], [], pageSize, admin);
  }

  lemma FirstPageLeaves(s: Listing, pageSize: nat, admin: string)
    requires Valid(s) && AllOrphans(s) && 0 < pageSize < |s|
    ensures var batch := Page(s, pageSize, 0);
            var next := VisitBatch(s, batch, admin, MoveToBack).listing;
            |batch| == pageSize && next != [] && next[0] == s[pageSize]
  {
    hide Valid, VisitBatch, Page, MoveToBack, Kept, Given;
    var batch := s[..pageSize];
    assert [] + s + [] == s;
    SomeMoves([], s, [], pageSize, admin);
    AllAreOrphans(batch);
    assert [] + [] + s[pageSize..] == s[pageSize..];
  }
}
