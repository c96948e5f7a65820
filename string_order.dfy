/**
 * Python's ordering of `str` values and `sorted(set(xs))` over it: the
 * model of how the DNS probe makes its address list deterministic.
 */
module StringOrder {

  /** `a < b` on Python strings: lexicographic by code point, a proper prefix first. */
  predicate Less(a: string, b: string) {
    if a == [] then b != []
    else if b == [] then false
    else if a[0] != b[0] then a[0] < b[0]
    else Less(a[1..], b[1..])
  }

  lemma {:induction false} LessIrreflexive(a: string)
    ensures !Less(a, a)
  {
    if a != [] {
      LessIrreflexive(a[1..]);
    }
  }

  lemma {:induction false} LessTransitive(a: string, b: string, c: string)
    requires Less(a, b) && Less(b, c)
    ensures Less(a, c)
  {
    if a != [] && a[0] == b[0] && b[0] == c[0] {
      LessTransitive(a[1..], b[1..], c[1..]);
    }
  }

  lemma {:induction false} LessAsymmetric(a: string, b: string)
    ensures !(Less(a, b) && Less(b, a))
  {
    if a != [] && b != [] && a[0] == b[0] {
      LessAsymmetric(a[1..], b[1..]);
    }
  }

  lemma {:induction false} LessTotal(a: string, b: string)
    requires a != b
    ensures Less(a, b) || Less(b, a)
  {
    if a != [] && b != [] && a[0] == b[0] {
      assert a == [a[0]] + a[1..] && b == [b[0]] + b[1..];
      LessTotal(a[1..], b[1..]);
    }
  }

  /** Every element is smaller than every later one: sorted and without duplicates. */
  predicate StrictlySorted(s: seq<string>) {
    forall i, j :: 0 <= i < j < |s| ==> Less(s[i], s[j])
  }

  lemma SortedHead(s: seq<string>)
    requires StrictlySorted(s) && s != []
    ensures forall y :: y in s[1..] ==> Less(s[0], y)
    ensures forall y :: y in s[1..] <==> y in s && y != s[0]
  {
    LessIrreflexive(s[0]);
    forall y | y in s[1..] ensures Less(s[0], y) {
      var j :| 0 <= j < |s[1..]| && s[1..][j] == y;
      assert s[j + 1] == y;
    }
  }

  lemma ConsSorted(h: string, t: seq<string>)
    requires StrictlySorted(t)
    requires forall y :: y in t ==> Less(h, y)
    ensures StrictlySorted([h] + t)
  {
    var s := [h] + t;
    forall i, j | 0 <= i < j < |s| ensures Less(s[i], s[j]) {
      assert s[j] == t[j - 1];
      if i > 0 {
        assert s[i] == t[i - 1];
      }
    }
  }

  lemma InsertFront(x: string, s: seq<string>)
    requires StrictlySorted(s) && s != [] && Less(x, s[0])
    ensures StrictlySorted([x] + s)
  {
    SortedHead(s);
    forall y | y in s ensures Less(x, y) {
      if y != s[0] {
        LessTransitive(x, s[0], y);
      }
    }
    ConsSorted(x, s);
  }

  /** Inserts `x` into a strictly sorted list, keeping one copy of each element. */
  function Insert(x: string, s: seq<string>): (r: seq<string>)
    requires StrictlySorted(s)
    ensures StrictlySorted(r)
    ensures forall y :: y in r <==> y == x || y in s
    decreases |s|
  {
    if s == [] then [x]
    else if x == s[0] then s
    else if Less(x, s[0]) then
      InsertFront(x, s);
      [x] + s
    else
      LessTotal(x, s[0]);
      SortedHead(s);
      var rest := Insert(x, s[1..]);
      ConsSorted(s[0], rest);
      assert s == [s[0]] + s[1..];
      [s[0]] + rest
  }

  /**
   * `sorted(set(xs))`: the elements of `xs` in ascending order, each once.
   * The result has exactly the elements of `xs`.
   */
  function SortedSet(xs: seq<string>): (r: seq<string>)
    ensures StrictlySorted(r)
    ensures forall y :: y in r <==> y in xs
  {
    if xs == [] then [] else Insert(xs[0], SortedSet(xs[1..]))
  }

  /**
   * A strictly sorted list is determined by its elements: two strictly sorted
   * lists with the same elements are equal. So the address list depends only
   * on the set of addresses, not on their order or repetitions.
   */
  lemma {:induction false} StrictlySortedUnique(a: seq<string>, b: seq<string>)
    requires StrictlySorted(a) && StrictlySorted(b)
    requires forall y :: y in a <==> y in b
    ensures a == b
    decreases |a|
  {
    if a != [] {
      assert a[0] in b;
      assert b[0] in a;
      SortedHead(a);
      SortedHead(b);
      LessAsymmetric(a[0], b[0]);
      assert a[0] == b[0];
      StrictlySortedUnique(a[1..], b[1..]);
      assert a == [a[0]] + a[1..] && b == [b[0]] + b[1..];
    } else {
      HeadIsMember(b);
    }
  }

  lemma HeadIsMember(b: seq<string>)
    ensures b != [] ==> b[0] in b
  {
  }

  /** `sorted(set(xs))` depends only on which elements `xs` holds. */
  lemma SortedSetDependsOnElements(xs: seq<string>, ys: seq<string>)
    requires forall y :: y in xs <==> y in ys
    ensures SortedSet(xs) == SortedSet(ys)
  {
    StrictlySortedUnique(SortedSet(xs), SortedSet(ys));
  }
}
