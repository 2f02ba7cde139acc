/** Shared by the other modules: the conventional Option type, and lists without repetition. */
module Common {
  datatype Option<+T> = None | Some(value: T)

  predicate NoRepeats<T(==)>(s: seq<T>) {
    forall i, j :: 0 <= i < j < |s| ==> s[i] != s[j]
  }

  lemma AppendNew<T>(s: seq<T>, x: T)
    requires NoRepeats(s) && x !in s
    ensures NoRepeats(s + [x])
  {
  }

  // list(xs): the elements of a set, in an order nothing is known about.
  method ListOf<T(==)>(xs: set<T>) returns (list: seq<T>)
    ensures NoRepeats(list) && forall x :: x in list <==> x in xs
  {
    hide NoRepeats;
    list := [];
    NothingRepeats<T>();
    var rest := xs;
    while rest != {}
      invariant NoRepeats(list) && rest <= xs && forall x :: x in list <==> x in xs && x !in rest
      decreases |rest|
    {
      var x :| x in rest;
      AppendNew(list, x);
      list, rest := list + [x], rest - {x};
    }
  }

  lemma NothingRepeats<T>()
    ensures NoRepeats<T>([])
  {
  }
}
