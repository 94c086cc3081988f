/** Small shared vocabulary. */
module Common {

  datatype Option<+T> = None | Some(value: T)

  /** A subset of a finite set has at most as many elements. */
  lemma SubsetSize<T>(a: set<T>, b: set<T>)
    requires a <= b
    ensures |a| <= |b|
  {
    if a != {} {
      var x :| x in a;
      SubsetSize(a - {x}, b - {x});
    }
  }

  /** A sequence is empty or has a member. */
  lemma HasMember<T>(s: seq<T>)
    ensures s == [] || exists x :: x in s
  {
    if s != [] {
      assert s[0] in s;
    }
  }

  ghost function Elements<T>(s: seq<T>): set<T> {
    set x | x in s
  }

  lemma ElementsEmpty<T>(s: seq<T>)
    ensures Elements(s) == {} <==> s == []
  {
    if s != [] {
      assert s[0] in Elements(s);
    }
  }

  ghost predicate StrictlySorted<T(!new)>(less: (T, T) -> bool, s: seq<T>) {
    forall i, j :: 0 <= i < j < |s| ==> less(s[i], s[j])
  }

  ghost predicate Asymmetric<T(!new)>(less: (T, T) -> bool) {
    forall a, b :: less(a, b) ==> !less(b, a)
  }

  /** The last element of a strictly sorted sequence is above all others. */
  lemma LastIsGreatest<T(!new)>(less: (T, T) -> bool, s: seq<T>)
    requires Asymmetric(less) && StrictlySorted(less, s) && s != []
    ensures var x := s[|s| - 1];
            && x in Elements(s) && (forall y :: y in Elements(s) ==> y == x || less(y, x))
            && Elements(s[..|s| - 1]) == Elements(s) - {x}
  {
    var init, x := s[..|s| - 1], s[|s| - 1];
    assert s == init + [x];
    assert x !in init;
  }

  /** Strictly sorted sequences with the same elements are equal. */
  lemma {:induction false} StrictlySortedUnique<T(!new)>(less: (T, T) -> bool, s: seq<T>, t: seq<T>)
    requires Asymmetric(less) && StrictlySorted(less, s) && StrictlySorted(less, t) && Elements(s) == Elements(t)
    ensures s == t
  {
    ElementsEmpty(s);
    ElementsEmpty(t);
    if s != [] {
      var s', x, t', y := s[..|s| - 1], s[|s| - 1], t[..|t| - 1], t[|t| - 1];
      assert x == y && Elements(s') == Elements(t') by {
        LastIsGreatest(less, s);
        LastIsGreatest(less, t);
      }
      StrictlySortedUnique(less, s', t');
      assert s == s' + [x] && t == t' + [y];
    }
  }
}
