/** Making room in a bounded table: first what is stale goes, and if that is not enough, the half ranked lowest. */
module Eviction {
  // kept is table without half of its entries, and no dropped entry is ranked above a kept one.
  ghost predicate DropsLowestHalf<T(!new)>(table: map<string, T>, kept: map<string, T>, rank: T -> real) {
    && kept.Keys <= table.Keys && (forall key :: key in kept ==> kept[key] == table[key])
    && |kept| == |table| - |table| / 2
    && (forall out, stays :: out in table && out !in kept && stays in kept ==> rank(table[out]) <= rank(table[stays]))
  }

  // current is what of the table is not stale.
  ghost predicate Evicts<T(!new)>(table: map<string, T>, current: map<string, T>, limit: nat, kept: map<string, T>,
                                  rank: T -> real) {
    if |table| < limit then kept == table
    else if |current| < limit then kept == current
    else DropsLowestHalf(current, kept, rank)
  }

  // What is kept is what was there.
  lemma EvictsWithin<T(!new)>(table: map<string, T>, current: map<string, T>, limit: nat, kept: map<string, T>,
                              rank: T -> real)
    requires Evicts(table, current, limit, kept, rank)
    requires forall key :: key in current ==> key in table && current[key] == table[key]
    ensures forall key :: key in kept ==> key in table && kept[key] == table[key]
  {
  }

  lemma {:induction false} Lowest<T(!new)>(table: map<string, T>, rank: T -> real) returns (low: string)
    requires table != map[]
    ensures low in table && forall key :: key in table ==> rank(table[low]) <= rank(table[key])
    decreases |table|
  {
    var first :| first in table;
    var rest := table - {first};
    assert rest.Keys == table.Keys - {first} && |rest| == |rest.Keys|;
    low := first;
    if rest != map[] {
      var key := Lowest(rest, rank);
      assert key in rest.Keys;
      low := if rank(table[key]) < rank(table[first]) then key else first;
      forall k | k in table ensures rank(table[low]) <= rank(table[k]) {
        assert k == first || k in rest.Keys;
      }
    } else {
      assert rest.Keys == {};
    }
  }

  // The n entries ranked lowest can be dropped from any table.
  lemma {:induction false} LowestDropped<T(!new)>(table: map<string, T>, n: nat, rank: T -> real)
    returns (kept: map<string, T>)
    requires n <= |table|
    ensures kept.Keys <= table.Keys && (forall key :: key in kept ==> kept[key] == table[key])
    ensures |kept| == |table| - n
    ensures forall out, stays :: out in table && out !in kept && stays in kept ==>
              rank(table[out]) <= rank(table[stays])
  {
    kept := table;
    if n > 0 {
      var before := LowestDropped(table, n - 1, rank);
      var low := Lowest(before, rank);
      kept := before - {low};
      assert kept.Keys == before.Keys - {low} && |kept| == |kept.Keys|;
    }
  }

  lemma EvictionPossible<T(!new)>(table: map<string, T>, current: map<string, T>, limit: nat, rank: T -> real)
    returns (kept: map<string, T>)
    ensures Evicts(table, current, limit, kept, rank)
  {
    if |table| < limit {
      kept := table;
    } else if |current| < limit {
      kept := current;
    } else {
      kept := LowestDropped(current, |current| / 2, rank);
    }
  }
}
