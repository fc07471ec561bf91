/** Python's ordering of `str` values (code-point lexicographic) and the
    `sorted(set(xs))` idiom the repository uses to deduplicate and order
    lists of strings. */
module Order {

  /** `a < b` on Python strings: the first differing code point decides,
      and a proper prefix comes first. Dafny's `<` on `char` compares code
      points, as Python does. */
  predicate Less(a: string, b: string)
    ensures Less(a, b) <==> ProperPrefix(a, b) || exists i :: FirstBelowAt(a, b, i)
    decreases |a|
  {
    if |a| == 0 then
      assert forall i :: !FirstBelowAt(a, b, i);
      |b| > 0
    else if |b| == 0 then
      assert forall i :: !FirstBelowAt(a, b, i);
      false
    else if a[0] < b[0] then
      assert FirstBelowAt(a, b, 0);
      true
    else if a[0] > b[0] then
      HeadAbove(a, b);
      false
    else
      SameHead(a, b);
      Less(a[1..], b[1..])
  }

  /** `a` is a proper prefix of `b`. */
  predicate ProperPrefix(a: string, b: string)
  {
    |a| < |b| && a == b[..|a|]
  }

  /** `a` and `b` agree before index `i`, where `a` has the smaller
      character. */
  predicate FirstBelowAt(a: string, b: string, i: int)
  {
    0 <= i < |a| && i < |b| && a[..i] == b[..i] && a[i] < b[i]
  }

  /** A larger first character rules out both ways of being below. */
  lemma HeadAbove(a: string, b: string)
    requires |a| > 0 && |b| > 0 && a[0] > b[0]
    ensures !ProperPrefix(a, b) && forall i :: !FirstBelowAt(a, b, i)
  {
  }

  /** With equal first characters, both ways of being below pass to the
      tails. */
  lemma SameHead(a: string, b: string)
    requires |a| > 0 && |b| > 0 && a[0] == b[0]
    ensures ProperPrefix(a, b) <==> ProperPrefix(a[1..], b[1..])
    ensures (exists i :: FirstBelowAt(a, b, i)) <==> exists j :: FirstBelowAt(a[1..], b[1..], j)
  {
    if ProperPrefix(a[1..], b[1..]) {
      assert a == [a[0]] + a[1..] && b[..|a|] == [b[0]] + b[1..][..|a| - 1];
    }
    if ProperPrefix(a, b) {
      assert a[1..] == b[..|a|][1..];
    }
    if i :| FirstBelowAt(a, b, i) {
      if i == 0 {
        assert false;
      }
      assert a[1..][..i - 1] == a[..i][1..] && b[1..][..i - 1] == b[..i][1..];
      assert FirstBelowAt(a[1..], b[1..], i - 1);
    }
    if j :| FirstBelowAt(a[1..], b[1..], j) {
      assert a[..j + 1] == [a[0]] + a[1..][..j] && b[..j + 1] == [b[0]] + b[1..][..j];
      assert FirstBelowAt(a, b, j + 1);
    }
  }

  lemma {:induction false} LessIrreflexive(a: string)
    ensures !Less(a, a)
    decreases |a|
  {
    if |a| > 0 {
      LessIrreflexive(a[1..]);
    }
  }

  lemma {:induction false} LessTransitive(a: string, b: string, c: string)
    requires Less(a, b) && Less(b, c)
    ensures Less(a, c)
    decreases |a|
  {
    if |a| > 0 && a[0] == b[0] && b[0] == c[0] {
      LessTransitive(a[1..], b[1..], c[1..]);
    }
  }

  /** Any two strings are equal or ordered one way round. */
  lemma {:induction false} LessTotal(a: string, b: string)
    ensures a == b || Less(a, b) || Less(b, a)
    decreases |a|
  {
    if |a| > 0 && |b| > 0 && a[0] == b[0] {
      LessTotal(a[1..], b[1..]);
      assert a == [a[0]] + a[1..] && b == [b[0]] + b[1..];
    }
  }

  lemma LessAsymmetric(a: string, b: string)
    requires Less(a, b)
    ensures !Less(b, a)
  {
    if Less(b, a) {
      LessTransitive(a, b, a);
      LessIrreflexive(a);
    }
  }

  /** The set of elements of a list, Python's `set(xs)`. */
  function Elems<T>(xs: seq<T>): set<T>
  {
    set x | x in xs
  }

  lemma ElemsAt<T>(xs: seq<T>, i: int)
    requires 0 <= i < |xs|
    ensures xs[i] in Elems(xs)
  {
  }

  lemma ElemsEmpty<T>(xs: seq<T>)
    ensures Elems(xs) == {} <==> xs == []
  {
    if xs != [] {
      assert xs[0] in Elems(xs);
    }
  }

  lemma ElemsConcat<T>(a: seq<T>, b: seq<T>)
    ensures Elems(a + b) == Elems(a) + Elems(b)
  {
  }

  predicate NoDup<T(==)>(xs: seq<T>)
  {
    forall i, j :: 0 <= i < j < |xs| ==> xs[i] != xs[j]
  }

  /** Ascending without repetition: the shape of `sorted(set(xs))`. */
  predicate StrictlySorted(xs: seq<string>)
  {
    forall i, j :: 0 <= i < j < |xs| ==> Less(xs[i], xs[j])
  }

  lemma SortedNoDup(xs: seq<string>)
    requires StrictlySorted(xs)
    ensures NoDup(xs)
  {
    forall i, j | 0 <= i < j < |xs| ensures xs[i] != xs[j] {
      LessIrreflexive(xs[i]);
    }
  }

  /** A list without repetitions has as many elements as its set. */
  lemma {:induction false} NoDupCard<T>(xs: seq<T>)
    requires NoDup(xs)
    ensures |Elems(xs)| == |xs|
  {
    if xs != [] {
      NoDupCard(xs[1..]);
      assert Elems(xs) == {xs[0]} + Elems(xs[1..]);
      assert xs[0] !in Elems(xs[1..]);
    }
  }

  lemma SortedCons(h: string, t: seq<string>)
    requires StrictlySorted(t)
    requires forall y :: y in t ==> Less(h, y)
    ensures StrictlySorted([h] + t)
  {
    var s := [h] + t;
    forall i, j | 0 <= i < j < |s| ensures Less(s[i], s[j]) {
      if i > 0 {
        assert s[i] == t[i - 1] && s[j] == t[j - 1];
      } else {
        assert s[j] in t;
      }
    }
  }

  /** Inserting into an ordered list without repetitions. */
  function Insert(x: string, xs: seq<string>): (r: seq<string>)
    requires StrictlySorted(xs)
    ensures StrictlySorted(r)
    ensures Elems(r) == Elems(xs) + {x}
    ensures |r| <= |xs| + 1
    decreases |xs|, 1
  {
    if xs == [] then [x]
    else if x == xs[0] then xs
    else if Less(x, xs[0]) then
      InsertBelowHead(x, xs);
      [x] + xs
    else
      InsertAboveHead(x, xs);
      var rest := Insert(x, xs[1..]);
      assert xs == [xs[0]] + xs[1..];
      assert Elems([xs[0]] + rest) == {xs[0]} + Elems(rest);
      [xs[0]] + rest
  }

  lemma InsertAboveHead(x: string, xs: seq<string>)
    requires StrictlySorted(xs) && xs != [] && x != xs[0] && !Less(x, xs[0])
    ensures StrictlySorted([xs[0]] + Insert(x, xs[1..]))
    decreases |xs|, 0
  {
    LessTotal(x, xs[0]);
    var rest := Insert(x, xs[1..]);
    forall y | y in rest ensures Less(xs[0], y) {
      assert y in Elems(rest);
    }
    SortedCons(xs[0], rest);
  }

  lemma InsertBelowHead(x: string, xs: seq<string>)
    requires StrictlySorted(xs) && xs != [] && Less(x, xs[0])
    ensures StrictlySorted([x] + xs)
  {
    forall y | y in xs ensures Less(x, y) {
      if y != xs[0] {
        LessTransitive(x, xs[0], y);
      }
    }
    SortedCons(x, xs);
  }

  /** Python's `sorted(set(xs))` on a list of strings. */
  function SortDistinct(xs: seq<string>): (r: seq<string>)
    ensures StrictlySorted(r)
    ensures Elems(r) == Elems(xs)
    ensures |r| <= |xs|
  {
    if xs == [] then []
    else
      assert xs == [xs[0]] + xs[1..];
      Insert(xs[0], SortDistinct(xs[1..]))
  }

  /** Two strictly ascending lists with the same elements are the same list:
      `sorted(set(xs))` depends only on the set, not on how it was built. */
  lemma {:induction false} SortedUnique(a: seq<string>, b: seq<string>)
    requires StrictlySorted(a) && StrictlySorted(b)
    requires Elems(a) == Elems(b)
    ensures a == b
  {
    ElemsEmpty(a);
    ElemsEmpty(b);
    if a != [] && b != [] {
      assert a[0] in Elems(b);
      assert b[0] in Elems(a);
      if a[0] != b[0] {
        assert Less(b[0], a[0]);
        assert Less(a[0], b[0]);
        LessAsymmetric(a[0], b[0]);
      }
      SortedNoDup(a);
      SortedNoDup(b);
      assert a == [a[0]] + a[1..] && b == [b[0]] + b[1..];
      assert Elems(a[1..]) == Elems(a) - {a[0]};
      assert Elems(b[1..]) == Elems(b) - {b[0]};
      SortedUnique(a[1..], b[1..]);
    }
  }

  /** An ascending list has as many elements as its set. */
  lemma SortedCard(xs: seq<string>)
    requires StrictlySorted(xs)
    ensures |Elems(xs)| == |xs|
  {
    SortedNoDup(xs);
    NoDupCard(xs);
  }
}
