/** JavaScript string helpers: default sort order, `trim`, `split`. */
module Strings {
  import opened Common

  /** The order of `Array.prototype.sort` on strings: by code, prefixes first. */
  predicate Less(a: string, b: string) {
    if b == "" then false
    else if a == "" then true
    else if a[0] == b[0] then Less(a[1..], b[1..])
    else a[0] < b[0]
  }

  /** `a` and `b` agree on their first `i` characters, and there `a` ends or has the lower one. */
  ghost predicate LowerAt(a: string, b: string, i: nat) {
    i <= |a| && i < |b| && a[..i] == b[..i] && (i == |a| || a[i] < b[i])
  }

  /** Dictionary order: the first difference decides, and a proper prefix comes first. */
  lemma {:induction false} LessIff(a: string, b: string)
    ensures Less(a, b) <==> exists i: nat :: LowerAt(a, b, i)
  {
    if b != "" && a == "" {
      assert LowerAt(a, b, 0);
    } else if b != "" && a[0] == b[0] {
      LessIff(a[1..], b[1..]);
      assert a == [a[0]] + a[1..] && b == [b[0]] + b[1..];
      if i: nat :| LowerAt(a[1..], b[1..], i) {
        assert a[..i + 1] == [a[0]] + a[1..][..i] && b[..i + 1] == [b[0]] + b[1..][..i];
        assert LowerAt(a, b, i + 1);
      }
      if i: nat :| LowerAt(a, b, i) {
        assert i > 0;
        assert a[1..][..i - 1] == a[..i][1..] && b[1..][..i - 1] == b[..i][1..];
        assert LowerAt(a[1..], b[1..], i - 1);
      }
    } else if b != "" {
      if a[0] < b[0] {
        assert LowerAt(a, b, 0);
      }
      forall i: nat | 0 < i <= |a| && i <= |b|
        ensures a[..i] != b[..i]
      {
        assert a[..i][0] == a[0] && b[..i][0] == b[0];
      }
    }
  }

  lemma {:induction false} LessTotal(a: string, b: string)
    ensures Less(a, b) || Less(b, a) || a == b
    ensures Less(a, b) ==> !Less(b, a) && a != b
  {
    if a != "" && b != "" && a[0] == b[0] {
      LessTotal(a[1..], b[1..]);
      assert a == [a[0]] + a[1..] && b == [b[0]] + b[1..];
    }
  }

  lemma {:induction false} LessTransitive(a: string, b: string, c: string)
    requires Less(a, b) && Less(b, c)
    ensures Less(a, c)
  {
    if a != "" && a[0] == b[0] && b[0] == c[0] {
      LessTransitive(a[1..], b[1..], c[1..]);
    }
  }

  lemma LessAsymmetric()
    ensures Asymmetric(Less)
  {
    forall a, b | Less(a, b)
      ensures !Less(b, a)
    {
      LessTotal(a, b);
    }
  }

  /** Strictly ascending: sorted and without duplicates. */
  ghost predicate Ascending(s: seq<string>) {
    StrictlySorted(Less, s)
  }

  lemma AscendingUnique(s: seq<string>, t: seq<string>)
    requires Ascending(s) && Ascending(t) && Elements(s) == Elements(t)
    ensures s == t
  {
    LessAsymmetric();
    StrictlySortedUnique(Less, s, t);
  }

  /** Puts `x` in its place in an ascending sequence. */
  function Insert(x: string, s: seq<string>): seq<string> {
    if s == [] then [x]
    else if x == s[0] then s
    else if Less(x, s[0]) then [x] + s
    else [s[0]] + Insert(x, s[1..])
  }

  lemma AscendingTail(s: seq<string>)
    requires Ascending(s) && s != []
    ensures Ascending(s[1..]) && Elements(s) == {s[0]} + Elements(s[1..])
    ensures forall y :: y in Elements(s[1..]) ==> Less(s[0], y)
  {
    assert s == [s[0]] + s[1..];
  }

  lemma AscendingCons(x: string, s: seq<string>)
    requires Ascending(s) && forall y :: y in Elements(s) ==> Less(x, y)
    ensures Ascending([x] + s) && Elements([x] + s) == {x} + Elements(s)
  {
    forall j | 0 <= j < |s|
      ensures Less(x, s[j])
    {
      assert s[j] in Elements(s);
    }
  }

  lemma {:induction false} InsertAscending(x: string, s: seq<string>)
    requires Ascending(s)
    ensures Ascending(Insert(x, s)) && Elements(Insert(x, s)) == Elements(s) + {x}
  {
    if s != [] {
      AscendingTail(s);
      LessTotal(x, s[0]);
      if Less(x, s[0]) {
        forall y | y in Elements(s)
          ensures Less(x, y)
        {
          if y != s[0] {
            LessTransitive(x, s[0], y);
          }
        }
        AscendingCons(x, s);
      } else if x != s[0] {
        InsertAscending(x, s[1..]);
        AscendingCons(s[0], Insert(x, s[1..]));
      }
    }
  }

  /** `[...new Set(values)].sort()` */
  function UniqueSorted(values: seq<string>): seq<string> {
    if values == [] then [] else Insert(values[0], UniqueSorted(values[1..]))
  }

  lemma {:induction false} UniqueSortedSorts(values: seq<string>)
    ensures Ascending(UniqueSorted(values)) && Elements(UniqueSorted(values)) == Elements(values)
  {
    if values != [] {
      UniqueSortedSorts(values[1..]);
      InsertAscending(values[0], UniqueSorted(values[1..]));
      assert values == [values[0]] + values[1..];
    }
  }

  /** An ascending sequence is left alone. */
  lemma UniqueSortedFixpoint(values: seq<string>)
    requires Ascending(values)
    ensures UniqueSorted(values) == values
  {
    UniqueSortedSorts(values);
    AscendingUnique(UniqueSorted(values), values);
  }

  /** White space and line terminators, as `trim` removes them. */
  predicate IsSpace(c: char) {
    || c in {' ', '\t', '\n', '\r', '\U{0B}', '\U{0C}', '\U{A0}', '\U{1680}', '\U{2028}', '\U{2029}', '\U{202F}', '\U{205F}'}
    || c in {'\U{3000}', '\U{FEFF}'}
    || '\U{2000}' <= c <= '\U{200A}'
  }

  function TrimStart(s: string): string {
    if s != "" && IsSpace(s[0]) then TrimStart(s[1..]) else s
  }

  function TrimEnd(s: string): string {
    if s != "" && IsSpace(s[|s| - 1]) then TrimEnd(s[..|s| - 1]) else s
  }

  function Trim(s: string): string {
    TrimEnd(TrimStart(s))
  }

  /** No white space at either edge. */
  predicate Tight(s: string) {
    s == "" || (!IsSpace(s[0]) && !IsSpace(s[|s| - 1]))
  }

  predicate AllSpace(s: string) {
    forall i :: 0 <= i < |s| ==> IsSpace(s[i])
  }

  lemma {:induction false} TrimStartMeaning(s: string) returns (i: nat)
    ensures i <= |s| && TrimStart(s) == s[i..] && AllSpace(s[..i]) && (i < |s| ==> !IsSpace(s[i]))
  {
    i := 0;
    if s != "" && IsSpace(s[0]) {
      var k := TrimStartMeaning(s[1..]);
      i := k + 1;
      assert s[i..] == s[1..][k..];
      assert s[..i] == [s[0]] + s[1..][..k];
    }
  }

  lemma {:induction false} TrimEndMeaning(s: string) returns (j: nat)
    ensures j <= |s| && TrimEnd(s) == s[..j] && AllSpace(s[j..]) && (j > 0 ==> !IsSpace(s[j - 1]))
  {
    j := |s|;
    if s != "" && IsSpace(s[|s| - 1]) {
      var init := s[..|s| - 1];
      j := TrimEndMeaning(init);
      assert s[..j] == init[..j];
      assert s[j..] == init[j..] + [s[|s| - 1]];
    }
  }

  /** `trim` removes exactly the white space at both edges: what is left has none there. */
  lemma TrimMeaning(s: string) returns (i: nat, j: nat)
    ensures i <= j <= |s| && Trim(s) == s[i..j] && Tight(Trim(s)) && AllSpace(s[..i]) && AllSpace(s[j..])
  {
    i := TrimStartMeaning(s);
    var t := s[i..];
    var k := TrimEndMeaning(t);
    j := i + k;
    assert s[i..j] == t[..k] && s[j..] == t[k..];
  }

  /** The characters that `trim` removes. */
  lemma SpaceMeaning(c: char)
    ensures IsSpace(c) <==>
            || 0x09 <= c as int <= 0x0D || c as int in {0x20, 0xA0, 0x1680, 0x2028, 0x2029, 0x202F, 0x205F, 0x3000, 0xFEFF}
            || 0x2000 <= c as int <= 0x200A
  {
  }
}
