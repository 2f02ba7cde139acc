/**
  Dependency layering of report sections: FrozenStructure.get_dependency_order and get_section
  (writing-service/app/schemas/structure.py).

  The reference notions are paths along depends_on: a section is Blocked when a path leads from it to an
  unknown id or runs into a cycle, and the depth of an unblocked section is its longest dependency chain.
  Neither mentions batches; the method is proved against both.
 */
module Layering {
  import opened Common

  datatype Section = Section(sectionId: string, dependsOn: seq<string>)

  function IdSet(sections: seq<Section>): set<string> {
    set i | 0 <= i < |sections| :: sections[i].sectionId
  }

  // The field is described as the section's unique identifier.
  ghost predicate DistinctIds(sections: seq<Section>) {
    forall i, j :: 0 <= i < j < |sections| ==> sections[i].sectionId != sections[j].sectionId
  }

  // id is a section that lists dep among its dependencies.
  ghost predicate DependsOn(sections: seq<Section>, id: string, dep: string) {
    exists i :: 0 <= i < |sections| && sections[i].sectionId == id && dep in sections[i].dependsOn
  }

  // ---- Paths, blocked sections, chains -------------------------------------------------

  ghost predicate IsPath(sections: seq<Section>, p: seq<string>) {
    |p| > 0 && forall i, j :: 0 <= i < j < |p| && j == i + 1 ==> DependsOn(sections, p[i], p[j])
  }

  // A path ending in an unknown id, or visiting an id twice.
  ghost predicate BadPath(sections: seq<Section>, p: seq<string>) {
    IsPath(sections, p) && (p[|p| - 1] !in IdSet(sections) || !NoRepeats(p))
  }

  // id can reach a dependency cycle or an unknown id.
  ghost predicate Blocked(sections: seq<Section>, id: string) {
    exists p :: BadPath(sections, p) && p[0] == id
  }

  ghost predicate PathFrom(sections: seq<Section>, id: string, p: seq<string>, n: nat) {
    IsPath(sections, p) && p[0] == id && |p| == n + 1
  }

  ghost predicate HasChain(sections: seq<Section>, id: string, n: nat) {
    exists p :: PathFrom(sections, id, p, n)
  }

  // The longest dependency chain starting at id has n links.
  ghost predicate LongestChain(sections: seq<Section>, id: string, n: nat) {
    HasChain(sections, id, n) && forall m: nat :: HasChain(sections, id, m) ==> m <= n
  }

  lemma PathTail(sections: seq<Section>, p: seq<string>)
    requires IsPath(sections, p) && |p| > 1
    ensures IsPath(sections, p[1..]) && DependsOn(sections, p[0], p[1])
    ensures p[0] in IdSet(sections)
  {
  }

  lemma PathCons(sections: seq<Section>, id: string, p: seq<string>)
    requires IsPath(sections, p) && DependsOn(sections, id, p[0])
    ensures IsPath(sections, [id] + p)
  {
  }

  // Being blocked passes from a dependency to the section that lists it.
  lemma BlockedByDependency(sections: seq<Section>, id: string, dep: string)
    requires DependsOn(sections, id, dep)
    requires Blocked(sections, dep) || dep !in IdSet(sections)
    ensures Blocked(sections, id)
  {
    if dep !in IdSet(sections) {
      assert BadPath(sections, [id, dep]);
    } else {
      var p :| BadPath(sections, p) && p[0] == dep;
      PathCons(sections, id, p);
      var q := [id] + p;
      assert q[|q| - 1] == p[|p| - 1];
      NoRepeatsTail(id, p);
      assert BadPath(sections, q);
    }
  }

  lemma NoRepeatsTail(x: string, p: seq<string>)
    ensures NoRepeats([x] + p) ==> NoRepeats(p)
  {
    var q := [x] + p;
    if NoRepeats(q) {
      forall i, j | 0 <= i < j < |p| ensures p[i] != p[j] {
        assert q[i + 1] != q[j + 1];
      }
    }
  }

  // A set of sections closed under depends_on traps every path that starts in it.
  ghost predicate Closed(sections: seq<Section>, s: set<string>) {
    s <= IdSet(sections) && forall id, dep :: id in s && DependsOn(sections, id, dep) ==> dep in s
  }

  lemma {:induction false} PathStaysIn(sections: seq<Section>, s: set<string>, p: seq<string>)
    requires Closed(sections, s) && IsPath(sections, p) && p[0] in s
    ensures forall x :: x in p ==> x in s
  {
    if |p| > 1 {
      PathTail(sections, p);
      PathStaysIn(sections, s, p[1..]);
      assert p == [p[0]] + p[1..];
    }
  }

  // A section whose dependencies all lie in a closed set of unblocked sections is unblocked, unless it is in that set.
  lemma UnblockedStep(sections: seq<Section>, s: set<string>, id: string)
    requires id in IdSet(sections) && id !in s && Closed(sections, s)
    requires forall x :: x in s ==> !Blocked(sections, x)
    requires forall dep :: DependsOn(sections, id, dep) ==> dep in s
    ensures !Blocked(sections, id)
  {
    forall p | IsPath(sections, p) && p[0] == id ensures !BadPath(sections, p) {
      if |p| > 1 {
        PathTail(sections, p);
        var q := p[1..];
        PathStaysIn(sections, s, q);
        assert q[0] in s && !BadPath(sections, q);
        assert p == [id] + q && p[|p| - 1] == q[|q| - 1];
        assert forall j :: 0 < j < |p| ==> p[j] == q[j - 1] && q[j - 1] in q;
      }
    }
  }

  lemma ChainExtends(sections: seq<Section>, id: string, dep: string, n: nat)
    requires DependsOn(sections, id, dep) && HasChain(sections, dep, n)
    ensures HasChain(sections, id, n + 1)
  {
    var p :| PathFrom(sections, dep, p, n);
    PathCons(sections, id, p);
    assert PathFrom(sections, id, [id] + p, n + 1);
  }

  lemma ChainShrinks(sections: seq<Section>, id: string, n: nat)
    requires HasChain(sections, id, n) && n > 0
    ensures exists dep :: DependsOn(sections, id, dep) && HasChain(sections, dep, n - 1)
  {
    var p :| PathFrom(sections, id, p, n);
    PathTail(sections, p);
    assert PathFrom(sections, p[1], p[1..], n - 1);
  }

  lemma PathSnoc(sections: seq<Section>, p: seq<string>, dep: string)
    requires IsPath(sections, p) && DependsOn(sections, p[|p| - 1], dep)
    ensures IsPath(sections, p + [dep])
  {
    hide DependsOn;
    var q := p + [dep];
    forall i, j | 0 <= i < j < |q| && j == i + 1 ensures DependsOn(sections, q[i], q[j]) {
      if j < |p| {
        assert DependsOn(sections, p[i], p[j]);
      }
    }
  }

  lemma RoomToWalk(s: set<string>, walk: seq<string>)
    requires NoRepeats(walk) && forall x :: x in walk ==> x in s
    ensures |walk| <= |s|
  {
    NoRepeatSize(walk);
    SubsetSize((set x | x in walk), s);
  }

  lemma BadPathBlocks(sections: seq<Section>, p: seq<string>)
    requires BadPath(sections, p)
    ensures Blocked(sections, p[0])
  {
  }

  // When nothing in s can be scheduled, every section in s is blocked: walk along unscheduled
  // dependencies until the walk leaves the structure or meets itself.
  lemma StuckIsBlocked(sections: seq<Section>, s: set<string>, walk: seq<string>)
    requires forall id :: id in s ==>
             exists dep :: DependsOn(sections, id, dep) && (dep in s || dep !in IdSet(sections))
    requires IsPath(sections, walk) && NoRepeats(walk) && (forall x :: x in walk ==> x in s)
    ensures Blocked(sections, walk[0])
    decreases |s| - |walk|
  {
    hide DependsOn, IdSet, Blocked, NoRepeats;
    var last := walk[|walk| - 1];
    assert last in walk;
    var dep :| DependsOn(sections, last, dep) && (dep in s || dep !in IdSet(sections));
    var longer := walk + [dep];
    PathSnoc(sections, walk, dep);
    hide IsPath;
    if dep !in IdSet(sections) || !NoRepeats(longer) {
      BadPathBlocks(sections, longer);
    } else {
      RoomToWalk(s, longer);
      StuckIsBlocked(sections, s, longer);
    }
  }

  lemma {:induction false} NoRepeatSize(p: seq<string>)
    requires NoRepeats(p)
    ensures |set x | x in p| == |p|
  {
    if p != [] {
      var q := p[..|p| - 1];
      var last := p[|p| - 1];
      assert forall i :: 0 <= i < |q| ==> q[i] == p[i];
      NoRepeatSize(q);
      assert last !in q;
      assert (set x | x in p) == (set x | x in q) + {last} by { assert p == q + [last]; }
    }
  }

  lemma {:induction false} SubsetSize(a: set<string>, b: set<string>)
    requires a <= b
    ensures |a| <= |b|
  {
    if a != {} {
      var x :| x in a;
      SubsetSize(a - {x}, b - {x});
    }
  }

  // ---- What a dependency order is ------------------------------------------------------

  ghost function Elements(batch: seq<string>): set<string> {
    set x | x in batch
  }

  // The ids placed in the first k batches.
  ghost function Placed(batches: seq<seq<string>>, k: nat): set<string>
    requires k <= |batches|
  {
    if k == 0 then {} else Placed(batches, k - 1) + Elements(batches[k - 1])
  }

  lemma {:induction false} PlacedWhere(batches: seq<seq<string>>, k: nat)
    requires k <= |batches|
    ensures forall x :: x in Placed(batches, k) <==> exists j :: 0 <= j < k && x in batches[j]
  {
    if k > 0 {
      PlacedWhere(batches, k - 1);
    }
  }

  lemma {:induction false} PlacedAppend(batches: seq<seq<string>>, batch: seq<string>, k: nat)
    requires k <= |batches|
    ensures Placed(batches + [batch], k) == Placed(batches, k)
  {
    if k > 0 {
      PlacedAppend(batches, batch, k - 1);
    }
  }

  // Every section stands in exactly one batch, exactly once.
  ghost predicate Partition(sections: seq<Section>, batches: seq<seq<string>>) {
    && Placed(batches, |batches|) == IdSet(sections)
    && (forall k :: 0 <= k < |batches| ==> batches[k] != [] && NoRepeats(batches[k]))
    && (forall j, k, x :: 0 <= j < k < |batches| && x in batches[j] ==> x !in batches[k])
  }

  // x is listed before y in the structure.
  ghost predicate Before(sections: seq<Section>, x: string, y: string) {
    exists i, j :: 0 <= i < j < |sections| && sections[i].sectionId == x && sections[j].sectionId == y
  }

  ghost predicate StructureOrder(sections: seq<Section>, batch: seq<string>) {
    forall i, j :: 0 <= i < j < |batch| ==> Before(sections, batch[i], batch[j])
  }

  // Batches cover the sections; an unblocked section sits in the batch numbered by its longest
  // dependency chain, in structure order; the blocked ones, if any, are exactly the last batch.
  ghost predicate DependencyOrder(sections: seq<Section>, batches: seq<seq<string>>) {
    && Partition(sections, batches)
    && (forall k, id :: 0 <= k < |batches| && id in batches[k] && !Blocked(sections, id) ==>
        LongestChain(sections, id, k))
    && (forall k, id :: 0 <= k < |batches| && id in batches[k] && Blocked(sections, id) ==>
          k == |batches| - 1 && forall x :: x in batches[k] ==> Blocked(sections, x))
    && (forall k :: 0 <= k < |batches| && (forall x :: x in batches[k] ==> !Blocked(sections, x)) ==>
          StructureOrder(sections, batches[k]))
  }

  // ---- The algorithm -------------------------------------------------------------------

  method GetSection(sections: seq<Section>, sectionId: string) returns (section: Option<Section>)
    ensures section.Some? <==> sectionId in IdSet(sections)
    ensures section.Some? ==>
            exists i :: 0 <= i < |sections| && section.value == sections[i] && sections[i].sectionId == sectionId
                                && forall j :: 0 <= j < i ==> sections[j].sectionId != sectionId
  {
    for i := 0 to |sections|
      invariant forall j :: 0 <= j < i ==> sections[j].sectionId != sectionId
    {
      if sections[i].sectionId == sectionId {
        return Some(sections[i]);
      }
    }
    return None;
  }

  // Some entry among the first n carries the id x and has all its dependencies processed.
  ghost predicate ReadyBy(sections: seq<Section>, processed: set<string>, x: string, n: nat)
    requires n <= |sections|
  {
    exists i :: 0 <= i < n && sections[i].sectionId == x && (forall d :: d in sections[i].dependsOn ==> d in processed)
  }

  // One pass over the structure: the remaining sections whose dependencies are all processed.
  ghost predicate IsReadyList(sections: seq<Section>, processed: set<string>, remaining: set<string>,
                              ready: seq<string>, n: nat)
    requires n <= |sections|
  {
    && (forall x :: x in ready <==> x in remaining && ReadyBy(sections, processed, x, n))
    && NoRepeats(ready)
    && StructureOrder(sections, ready)
  }

  method FindReady(sections: seq<Section>, processed: set<string>, remaining: set<string>) returns (ready: seq<string>)
    requires DistinctIds(sections)
    ensures IsReadyList(sections, processed, remaining, ready, |sections|)
  {
    ready := [];
    for n := 0 to |sections|
      invariant IsReadyList(sections, processed, remaining, ready, n)
      invariant forall x :: x in ready ==> exists i :: 0 <= i < n && sections[i].sectionId == x
    {
      var section := sections[n];
      if section.sectionId in remaining {
        var deps := set d | d in section.dependsOn;
        if deps <= processed {
          ghost var before := ready;
          assert section.sectionId !in before;
          ready := ready + [section.sectionId];
          ReadyGrows(sections, processed, remaining, before, n);
        } else {
          assert exists d :: d in section.dependsOn && d !in processed by {
            var d :| d in deps && d !in processed;
          }
        }
      }
    }
  }

  lemma ReadyGrows(sections: seq<Section>, processed: set<string>, remaining: set<string>, ready: seq<string>, n: nat)
    requires n < |sections| && DistinctIds(sections)
    requires IsReadyList(sections, processed, remaining, ready, n)
    requires forall x :: x in ready ==> exists i :: 0 <= i < n && sections[i].sectionId == x
    requires sections[n].sectionId in remaining && forall d :: d in sections[n].dependsOn ==> d in processed
    ensures IsReadyList(sections, processed, remaining, ready + [sections[n].sectionId], n + 1)
  {
    var id := sections[n].sectionId;
    var longer := ready + [id];
    assert NoRepeats(longer) by {
      assert forall i :: 0 <= i < |ready| ==> ready[i] in ready;
    }
    forall i, j | 0 <= i < j < |longer| ensures Before(sections, longer[i], longer[j]) {
      if j == |ready| {
        assert longer[i] in ready;
      } else {
        assert Before(sections, ready[i], ready[j]);
      }
    }
    assert forall x :: x in longer <==> x in ready || x == id;
    assert forall x :: ReadyBy(sections, processed, x, n) ==> ReadyBy(sections, processed, x, n + 1);
    assert ReadyBy(sections, processed, id, n + 1);
  }

  ghost predicate Depths(sections: seq<Section>, batches: seq<seq<string>>) {
    forall k, id :: 0 <= k < |batches| && id in batches[k] ==> !Blocked(sections, id) && LongestChain(sections, id, k)
  }

  // What holds between rounds: everything processed is unblocked and placed by depth; everything
  // remaining is blocked or still has a chain at least as long as the number of rounds so far.
  ghost predicate Rounds(sections: seq<Section>, batches: seq<seq<string>>, processed: set<string>,
                         remaining: set<string>) {
    && processed == Placed(batches, |batches|)
    && processed !! remaining && processed + remaining == IdSet(sections)
    && Closed(sections, processed)
    && (forall k :: 0 <= k < |batches| ==>
        batches[k] != [] && NoRepeats(batches[k]) && StructureOrder(sections, batches[k]))
    && (forall j, k, x :: 0 <= j < k < |batches| && x in batches[j] ==> x !in batches[k])
    && Depths(sections, batches)
    && (forall id :: id in remaining ==> Blocked(sections, id) || HasChain(sections, id, |batches|))
  }

  lemma ReadyIsUnscheduled(sections: seq<Section>, processed: set<string>, remaining: set<string>, ready: seq<string>)
    requires DistinctIds(sections) && remaining <= IdSet(sections)
    requires IsReadyList(sections, processed, remaining, ready, |sections|)
    ensures forall id :: id in ready ==>
            id in remaining && forall dep :: DependsOn(sections, id, dep) ==> dep in processed
    ensures forall id :: id in remaining && id !in ready ==>
            exists dep :: DependsOn(sections, id, dep) && dep !in processed
  {
  }

  lemma RoundPreserved(sections: seq<Section>, batches: seq<seq<string>>, processed: set<string>,
                       remaining: set<string>, ready: seq<string>)
    requires DistinctIds(sections)
    requires Rounds(sections, batches, processed, remaining)
    requires IsReadyList(sections, processed, remaining, ready, |sections|) && ready != []
    ensures Rounds(sections, batches + [ready], processed + Elements(ready), remaining - Elements(ready))
  {
    hide DependsOn, Blocked, HasChain, Depths, DistinctIds, ReadyBy, NoRepeats, StructureOrder, Placed, IdSet, Closed;
    ReadyIsUnscheduled(sections, processed, remaining, ready);
    RoundDepths(sections, batches, processed, remaining, ready);
    RoundShape(sections, batches, processed, remaining, ready);
    assert forall x :: x in ready <==> x in Elements(ready);
  }

  // The part of Rounds that is about chains.
  lemma RoundDepths(sections: seq<Section>, batches: seq<seq<string>>, processed: set<string>,
                    remaining: set<string>, ready: seq<string>)
    requires Rounds(sections, batches, processed, remaining)
    requires forall id :: id in ready ==>
             id in remaining && forall dep :: DependsOn(sections, id, dep) ==> dep in processed
    requires forall id :: id in remaining && id !in ready ==>
             exists dep :: DependsOn(sections, id, dep) && dep !in processed
    ensures Depths(sections, batches + [ready])
    ensures forall id :: id in remaining - Elements(ready) ==>
            Blocked(sections, id) || HasChain(sections, id, |batches| + 1)
  {
    hide DependsOn, Blocked, HasChain, LongestChain, NoRepeats, StructureOrder, Placed, IdSet, Closed;
    forall id | id in ready ensures !Blocked(sections, id) && LongestChain(sections, id, |batches|) {
      ReadyDepth(sections, batches, processed, remaining, id);
    }
    forall id | id in remaining - Elements(ready)
      ensures Blocked(sections, id) || HasChain(sections, id, |batches| + 1)
    {
      StillWaiting(sections, batches, processed, remaining, id);
    }
    hide Rounds;
  }

  // The part of Rounds that is about the batches as sets.
  lemma RoundShape(sections: seq<Section>, batches: seq<seq<string>>, processed: set<string>, remaining: set<string>,
                   ready: seq<string>)
    requires processed == Placed(batches, |batches|)
    requires processed !! remaining && processed + remaining == IdSet(sections) && Closed(sections, processed)
    requires forall x :: x in ready ==> x in remaining && forall dep :: DependsOn(sections, x, dep) ==> dep in processed
    ensures Placed(batches + [ready], |batches| + 1) == processed + Elements(ready)
    ensures Closed(sections, processed + Elements(ready))
    ensures forall j, x :: 0 <= j < |batches| && x in batches[j] ==> x !in ready
  {
    PlacedAppend(batches, ready, |batches|);
    PlacedWhere(batches, |batches|);
  }

  lemma StillWaiting(sections: seq<Section>, batches: seq<seq<string>>, processed: set<string>, remaining: set<string>,
                     id: string)
    requires Rounds(sections, batches, processed, remaining)
    requires exists dep :: DependsOn(sections, id, dep) && dep !in processed
    ensures Blocked(sections, id) || HasChain(sections, id, |batches| + 1)
  {
    var dep :| DependsOn(sections, id, dep) && dep !in processed;
    if dep !in IdSet(sections) || Blocked(sections, dep) {
      BlockedByDependency(sections, id, dep);
    } else {
      ChainExtends(sections, id, dep, |batches|);
    }
  }

  lemma ReadyDepth(sections: seq<Section>, batches: seq<seq<string>>, processed: set<string>, remaining: set<string>,
                   id: string)
    requires Rounds(sections, batches, processed, remaining)
    requires id in remaining && forall dep :: DependsOn(sections, id, dep) ==> dep in processed
    ensures !Blocked(sections, id) && LongestChain(sections, id, |batches|)
  {
    var n := |batches|;
    PlacedWhere(batches, n);
    UnblockedStep(sections, processed, id);
    forall m: nat | HasChain(sections, id, m) ensures m <= n {
      if m > 0 {
        ChainShrinks(sections, id, m);
        var dep :| DependsOn(sections, id, dep) && HasChain(sections, dep, m - 1);
        var k :| 0 <= k < n && dep in batches[k];
        assert LongestChain(sections, dep, k);
      }
    }
  }

  lemma AllBlocked(sections: seq<Section>, processed: set<string>, remaining: set<string>)
    requires DistinctIds(sections) && remaining <= IdSet(sections) && processed + remaining == IdSet(sections)
    requires IsReadyList(sections, processed, remaining, [], |sections|)
    ensures forall id :: id in remaining ==> Blocked(sections, id)
  {
    hide DependsOn, Blocked, IdSet, DistinctIds, IsReadyList;
    ReadyIsUnscheduled(sections, processed, remaining, []);
    forall id | id in remaining ensures Blocked(sections, id) {
      StuckIsBlocked(sections, remaining, [id]);
    }
  }

  // The fallback: no remaining section is ready, so all of them are blocked.
  lemma FallbackPreserved(sections: seq<Section>, batches: seq<seq<string>>, processed: set<string>,
                          remaining: set<string>, ready: seq<string>)
    requires DistinctIds(sections)
    requires Rounds(sections, batches, processed, remaining) && remaining != {}
    requires IsReadyList(sections, processed, remaining, [], |sections|)
    requires Elements(ready) == remaining && NoRepeats(ready)
    ensures DependencyOrder(sections, batches + [ready])
    ensures forall id :: id in remaining ==> Blocked(sections, id)
  {
    hide DependsOn, Blocked, IdSet, DistinctIds, IsReadyList, LongestChain, HasChain, NoRepeats, StructureOrder, Closed;
    AllBlocked(sections, processed, remaining);
    FallbackPartition(sections, batches, processed, remaining, ready);
    assert forall x :: x in ready <==> x in Elements(ready);
    assert forall k, id :: 0 <= k < |batches| && id in batches[k] ==> !Blocked(sections, id);
    hide Placed, Partition;
  }

  lemma FallbackPartition(sections: seq<Section>, batches: seq<seq<string>>, processed: set<string>,
                          remaining: set<string>, ready: seq<string>)
    requires Rounds(sections, batches, processed, remaining) && remaining != {}
    requires Elements(ready) == remaining && NoRepeats(ready)
    ensures Partition(sections, batches + [ready])
  {
    hide DependsOn, Blocked, IdSet, NoRepeats, StructureOrder, Closed, Depths, HasChain;
    PlacedAppend(batches, ready, |batches|);
    PlacedWhere(batches, |batches|);
    assert forall x :: x in ready <==> x in Elements(ready);
    var longer := batches + [ready];
    assert Placed(longer, |longer|) == Placed(batches, |batches|) + Elements(ready);
    hide Placed;
  }

  lemma AllPlaced(sections: seq<Section>, batches: seq<seq<string>>, processed: set<string>)
    requires Rounds(sections, batches, processed, {})
    ensures DependencyOrder(sections, batches)
  {
  }

  lemma NoRounds(sections: seq<Section>)
    ensures Rounds(sections, [], {}, set i | 0 <= i < |sections| :: sections[i].sectionId)
  {
    forall id | id in IdSet(sections) ensures HasChain(sections, id, 0) {
      assert PathFrom(sections, id, [id], 0);
    }
  }

  lemma AllListed(list: seq<string>, s: set<string>)
    requires (forall x :: x in list <==> x in s) && s != {}
    ensures Elements(list) == s && list != []
  {
  }

  // The sections found ready are among the remaining ones.
  lemma ReadyRemain(sections: seq<Section>, processed: set<string>, remaining: set<string>, ready: seq<string>)
    requires IsReadyList(sections, processed, remaining, ready, |sections|)
    ensures forall x :: x in ready ==> x in remaining
  {
  }

  method GetDependencyOrder(sections: seq<Section>) returns (result: seq<seq<string>>)
    requires DistinctIds(sections)
    ensures DependencyOrder(sections, result)
  {
    hide *;
    var processed: set<string> := {};
    result := [];
    var remaining := set i | 0 <= i < |sections| :: sections[i].sectionId;
    ghost var fellBack := false;
    NoRounds(sections);
    while remaining != {}
      invariant !fellBack ==> Rounds(sections, result, processed, remaining)
      invariant fellBack ==> remaining == {} && DependencyOrder(sections, result)
      decreases |remaining|
    {
      var ready := FindReady(sections, processed, remaining);
      ghost var before := result;
      if ready == [] {
        ready := ListOf(remaining);
        AllListed(ready, remaining);
        FallbackPreserved(sections, before, processed, remaining, ready);
        fellBack := true;
      } else {
        RoundPreserved(sections, before, processed, remaining, ready);
        ReadyRemain(sections, processed, remaining, ready);
      }
      assert ready[0] in ready && ready[0] in remaining;
      result := result + [ready];
      processed, remaining := MarkProcessed(ready, processed, remaining);
    }
    if !fellBack {
      AllPlaced(sections, result, processed);
    }
  }

  // The sections of the new batch count as processed and no longer wait.
  method MarkProcessed(ready: seq<string>, processed: set<string>, remaining: set<string>)
    returns (processed': set<string>, remaining': set<string>)
    ensures processed' == processed + Elements(ready)
    ensures remaining' == remaining - Elements(ready)
    ensures (exists x :: x in ready && x in remaining) ==> |remaining'| < |remaining|
  {
    processed', remaining' := processed, remaining;
    for i := 0 to |ready|
      invariant processed' == processed + Elements(ready[..i])
      invariant remaining' == remaining - Elements(ready[..i])
    {
      assert Elements(ready[..i + 1]) == Elements(ready[..i]) + {ready[i]} by {
        assert ready[..i + 1] == ready[..i] + [ready[i]];
      }
      processed' := processed' + {ready[i]};
      remaining' := remaining' - {ready[i]};
    }
    assert ready[..|ready|] == ready;
    if x :| x in ready && x in remaining {
      assert remaining' <= remaining - {x};
      SubsetSize(remaining', remaining - {x});
    }
  }

  // ---- What callers get from a dependency order ----------------------------------------

  // The fallback fires exactly when some section is blocked, and then the last batch is exactly those sections.
  lemma LastBatchIsBlocked(sections: seq<Section>, batches: seq<seq<string>>)
    requires DependencyOrder(sections, batches)
    requires exists id :: id in IdSet(sections) && Blocked(sections, id)
    ensures batches != []
    ensures Elements(batches[|batches| - 1]) == set id | id in IdSet(sections) && Blocked(sections, id)
  {
    hide IdSet, Blocked, LongestChain, StructureOrder, NoRepeats;
    PlacedWhere(batches, |batches|);
    hide Placed;
    var id :| id in IdSet(sections) && Blocked(sections, id);
    var k :| 0 <= k < |batches| && id in batches[k];
    var last := batches[|batches| - 1];
    forall x ensures x in Elements(last) <==> x in IdSet(sections) && Blocked(sections, x) {
      if x in IdSet(sections) && Blocked(sections, x) {
        var j :| 0 <= j < |batches| && x in batches[j];
      }
    }
  }

  // An unblocked section has every dependency in a strictly earlier batch.
  lemma DependenciesEarlier(sections: seq<Section>, batches: seq<seq<string>>, k: nat, id: string, dep: string)
    requires DependencyOrder(sections, batches)
    requires k < |batches| && id in batches[k] && !Blocked(sections, id)
    requires DependsOn(sections, id, dep)
    ensures exists j :: 0 <= j < k && dep in batches[j]
  {
    hide DependsOn, Blocked, IdSet, HasChain, StructureOrder, NoRepeats;
    if Blocked(sections, dep) || dep !in IdSet(sections) {
      BlockedByDependency(sections, id, dep);
    }
    PlacedWhere(batches, |batches|);
    hide Placed;
    var j :| 0 <= j < |batches| && dep in batches[j];
    assert LongestChain(sections, dep, j);
    ChainExtends(sections, id, dep, j);
    assert HasChain(sections, id, j + 1);
  }

  // Without blocked sections, no two sections of one batch depend on each other, however indirectly.
  lemma BatchIndependent(sections: seq<Section>, batches: seq<seq<string>>, k: nat, p: seq<string>)
    requires DependencyOrder(sections, batches) && k < |batches|
    requires IsPath(sections, p) && |p| > 1 && p[0] in batches[k] && !Blocked(sections, p[0])
    ensures p[|p| - 1] !in batches[k]
    ensures exists j :: 0 <= j < k && p[|p| - 1] in batches[j]
  {
    PathTail(sections, p);
    DependenciesEarlier(sections, batches, k, p[0], p[1]);
    var j :| 0 <= j < k && p[1] in batches[j];
    if Blocked(sections, p[1]) {
      BlockedByDependency(sections, p[0], p[1]);
    }
    if |p| > 2 {
      BatchIndependent(sections, batches, j, p[1..]);
      assert p[1..][|p[1..]| - 1] == p[|p| - 1];
    }
  }

  // A batching that respects dependencies: every dependency stands in a strictly earlier batch.
  ghost predicate RespectsDependencies(sections: seq<Section>, other: seq<set<string>>) {
    forall k, id, dep :: 0 <= k < |other| && id in other[k] && DependsOn(sections, id, dep) ==>
      exists j :: 0 <= j < k && dep in other[j]
  }

  lemma {:induction false} ChainForcesIndex(sections: seq<Section>, other: seq<set<string>>, k: nat, id: string, n: nat)
    requires RespectsDependencies(sections, other)
    requires k < |other| && id in other[k] && HasChain(sections, id, n)
    ensures n <= k
  {
    if n > 0 {
      ChainShrinks(sections, id, n);
      var dep :| DependsOn(sections, id, dep) && HasChain(sections, dep, n - 1);
      var j :| 0 <= j < k && dep in other[j];
      ChainForcesIndex(sections, other, j, dep, n - 1);
    }
  }

  // No batching that respects dependencies is shorter, or places any section earlier.
  lemma FewestBatches(sections: seq<Section>, batches: seq<seq<string>>, other: seq<set<string>>)
    requires DependencyOrder(sections, batches)
    requires forall id :: id in IdSet(sections) ==> !Blocked(sections, id)
    requires RespectsDependencies(sections, other)
    requires forall id :: id in IdSet(sections) ==> exists k :: 0 <= k < |other| && id in other[k]
    ensures |batches| <= |other|
    ensures forall i, k, id :: 0 <= i < |batches| && id in batches[i] && 0 <= k < |other| && id in other[k] ==> i <= k
  {
    PlacedWhere(batches, |batches|);
    forall i, k, id | 0 <= i < |batches| && id in batches[i] && 0 <= k < |other| && id in other[k] ensures i <= k {
      assert id in IdSet(sections);
      assert LongestChain(sections, id, i);
      ChainForcesIndex(sections, other, k, id, i);
    }
    if batches != [] {
      var id := batches[|batches| - 1][0];
      assert id in batches[|batches| - 1];
      assert id in IdSet(sections);
      var k :| 0 <= k < |other| && id in other[k];
    }
  }
}
