/**
 * Finite sets listed in ascending order. Ordered containers and `sort_by` appear all over the
 * system; what matters about each of them is that a set has exactly one ascending listing.
 */
module Orders {

  /** `less` is a strict total order on the members of s. */
  ghost predicate TotalOn<T(!new)>(less: (T, T) -> bool, s: set<T>) {
    && (forall x :: x in s ==> !less(x, x))
    && (forall x, y :: x in s && y in s && x != y ==> less(x, y) || less(y, x))
    && (forall x, y, z {:trigger less(x, y), less(y, z)} ::
          x in s && y in s && z in s && less(x, y) && less(y, z) ==> less(x, z))
  }

  ghost predicate Ascending<T>(less: (T, T) -> bool, q: seq<T>) {
    forall i, j :: 0 <= i < j < |q| ==> less(q[i], q[j])
  }

  ghost function Members<T>(q: seq<T>): set<T> {
    set x | x in q
  }

  /** q lists the members of s, each once, in ascending order. */
  ghost predicate Lists<T>(less: (T, T) -> bool, s: set<T>, q: seq<T>) {
    Ascending(less, q) && Members(q) == s && |q| == |s|
  }

  ghost function Below<T>(less: (T, T) -> bool, s: set<T>, x: T): set<T> {
    set y | y in s && less(y, x)
  }

  ghost predicate IsLeast<T>(less: (T, T) -> bool, s: set<T>, x: T) {
    x in s && forall y :: y in s && y != x ==> less(x, y)
  }

  lemma {:induction false} LeastExists<T(!new)>(less: (T, T) -> bool, s: set<T>)
    requires TotalOn(less, s) && s != {}
    ensures exists x :: IsLeast(less, s, x)
    decreases s
  {
    var y :| y in s;
    if s == {y} {
      assert IsLeast(less, s, y);
    } else {
      LeastExists(less, s - {y});
      var x :| IsLeast(less, s - {y}, x);
      if less(y, x) {
        forall z | z in s && z != y ensures less(y, z) {
          assert z == x || less(x, z);
        }
        assert IsLeast(less, s, y);
      } else {
        assert IsLeast(less, s, x);
      }
    }
  }

  ghost function Least<T(!new)>(less: (T, T) -> bool, s: set<T>): (x: T)
    requires TotalOn(less, s) && s != {}
    ensures IsLeast(less, s, x)
  {
    LeastExists(less, s);
    var x :| IsLeast(less, s, x);
    x
  }

  lemma ListsCons<T(!new)>(less: (T, T) -> bool, s: set<T>, x: T, rest: seq<T>)
    requires TotalOn(less, s) && IsLeast(less, s, x) && Lists(less, s - {x}, rest)
    ensures Lists(less, s, [x] + rest)
  {
    var q := [x] + rest;
    assert forall i :: 0 <= i < |rest| ==> rest[i] in Members(rest);
    assert forall y :: y in q <==> y == x || y in Members(rest);
  }

  /** The ascending listing of s. */
  ghost function Listing<T(!new)>(less: (T, T) -> bool, s: set<T>): (q: seq<T>)
    requires TotalOn(less, s)
    decreases s
  {
    if s == {} then []
    else
      var x := Least(less, s);
      [x] + Listing(less, s - {x})
  }

  lemma {:induction false} ListingLists<T(!new)>(less: (T, T) -> bool, s: set<T>)
    requires TotalOn(less, s)
    ensures Lists(less, s, Listing(less, s))
    decreases s
  {
    if s != {} {
      var x := Least(less, s);
      ListingLists(less, s - {x});
      ListsCons(less, s, x, Listing(less, s - {x}));
    }
  }

  /** A set has no more than one ascending listing. */
  lemma {:induction false} ListingUnique<T(!new)>(less: (T, T) -> bool, s: set<T>, q: seq<T>, r: seq<T>)
    requires TotalOn(less, s) && Lists(less, s, q) && Lists(less, s, r)
    ensures q == r
    decreases |q|
  {
    if q != [] {
      assert r[0] in Members(q) && q[0] in Members(r);
      assert q[0] == r[0];
      ListsTail(less, s, q);
      ListsTail(less, s, r);
      ListingUnique(less, s - {q[0]}, q[1..], r[1..]);
      assert q == [q[0]] + q[1..] && r == [r[0]] + r[1..];
    }
  }

  lemma ListsTail<T(!new)>(less: (T, T) -> bool, s: set<T>, q: seq<T>)
    requires TotalOn(less, s) && Lists(less, s, q) && q != []
    ensures Lists(less, s - {q[0]}, q[1..])
  {
  }

  /** Putting a new member before the first one it is below lists the larger set. */
  lemma ListsWith<T(!new)>(less: (T, T) -> bool, s: set<T>, q: seq<T>, n: T, i: nat)
    requires TotalOn(less, s + {n}) && Lists(less, s, q) && n !in s && i <= |q|
    requires forall k :: 0 <= k < i ==> less(q[k], n)
    requires i < |q| ==> !less(q[i], n)
    ensures Lists(less, s + {n}, q[..i] + [n] + q[i..])
  {
    assert forall k :: 0 <= k < |q| ==> q[k] in Members(q);
    forall k | i <= k < |q| ensures less(n, q[k]) {
      assert less(n, q[i]);
      assert k > i ==> less(q[i], q[k]);
    }
    AscendingInsert(less, q, n, i);
    MembersInsert(s, q, n, i);
  }

  lemma AscendingInsert<T>(less: (T, T) -> bool, q: seq<T>, n: T, i: nat)
    requires Ascending(less, q) && i <= |q|
    requires forall k :: 0 <= k < i ==> less(q[k], n)
    requires forall k :: i <= k < |q| ==> less(n, q[k])
    ensures Ascending(less, q[..i] + [n] + q[i..])
  {
  }

  /** A new member goes into the listing at one place and moves nothing else. */
  lemma ListingGrows<T(!new)>(less: (T, T) -> bool, s: set<T>, n: T) returns (i: nat)
    requires TotalOn(less, s + {n}) && n !in s
    ensures TotalOn(less, s) && i <= |Listing(less, s)|
    ensures Listing(less, s + {n}) == Listing(less, s)[..i] + [n] + Listing(less, s)[i..]
  {
    var q := Listing(less, s);
    ListingLists(less, s);
    i := Slot(less, q, n);
    ListsWith(less, s, q, n, i);
    ListingLists(less, s + {n});
    ListingUnique(less, s + {n}, q[..i] + [n] + q[i..], Listing(less, s + {n}));
  }

  /** The first position of q not below n. */
  function Slot<T>(less: (T, T) -> bool, q: seq<T>, n: T): (i: nat)
    ensures i <= |q| && (forall k :: 0 <= k < i ==> less(q[k], n))
    ensures i < |q| ==> !less(q[i], n)
  {
    if q == [] || !less(q[0], n) then 0 else 1 + Slot(less, q[1..], n)
  }

  /** Insertion sort, standing for `collect` on an ordered set followed by `sort_by`. */
  method Sort<T(!new, ==)>(less: (T, T) -> bool, s: set<T>) returns (q: seq<T>)
    requires TotalOn(less, s)
    ensures q == Listing(less, s)
  {
    q := [];
    var left := s;
    ListingLists<T>(less, {});
    while left != {}
      invariant left <= s && TotalOn(less, s - left)
      invariant Lists(less, s - left, q)
      decreases left
    {
      var n :| n in left;
      var i := Slot(less, q, n);
      assert s - left + {n} <= s && s - (left - {n}) == s - left + {n};
      ListsWith(less, s - left, q, n, i);
      q := q[..i] + [n] + q[i..];
      left := left - {n};
    }
    assert s - left == s;
    ListingLists(less, s);
    ListingUnique(less, s, q, Listing(less, s));
  }

  lemma MembersInsert<T>(s: set<T>, q: seq<T>, n: T, i: nat)
    requires Members(q) == s && i <= |q|
    ensures Members(q[..i] + [n] + q[i..]) == s + {n}
  {
  }

  /** Where a member of a listing sits: after exactly those below it. */
  lemma {:induction false} IndexCountsBelow<T(!new)>(less: (T, T) -> bool, s: set<T>, q: seq<T>, i: nat)
    requires TotalOn(less, s) && Lists(less, s, q) && i < |q|
    ensures |Below(less, s, q[i])| == i
  {
    var below := Below(less, s, q[i]);
    assert forall k :: 0 <= k < |q| ==> q[k] in Members(q);
    forall y | y in below ensures y in q[..i] {
      assert y in Members(q);
      var k :| 0 <= k < |q| && q[k] == y;
      assert k < i;
      assert q[..i][k] == y;
    }
    assert below == Members(q[..i]);
    DistinctCount(q[..i]);
  }

  lemma {:induction false} DistinctCount<T>(q: seq<T>)
    requires forall i, j :: 0 <= i < j < |q| ==> q[i] != q[j]
    ensures |Members(q)| == |q|
  {
    if q != [] {
      var n := |q| - 1;
      DistinctCount(q[..n]);
      assert Members(q) == Members(q[..n]) + {q[n]};
    }
  }

  // ---------------------------------------------------------------- lexicographic order

  ghost predicate StrictTotal<T(!new)>(less: (T, T) -> bool) {
    && (forall x :: !less(x, x))
    && (forall x, y :: x != y ==> less(x, y) || less(y, x))
    && (forall x, y, z {:trigger less(x, y), less(y, z)} :: less(x, y) && less(y, z) ==> less(x, z))
  }

  predicate LexLess<T(==)>(less: (T, T) -> bool, a: seq<T>, b: seq<T>) {
    if b == [] then false
    else if a == [] then true
    else if a[0] != b[0] then less(a[0], b[0])
    else LexLess(less, a[1..], b[1..])
  }

  lemma {:induction false} LexLessConnected<T(!new)>(less: (T, T) -> bool, a: seq<T>, b: seq<T>)
    requires StrictTotal(less)
    ensures a == b <==> !LexLess(less, a, b) && !LexLess(less, b, a)
    ensures LexLess(less, a, b) ==> !LexLess(less, b, a)
    decreases |a|
  {
    if a != [] && b != [] {
      LexLessConnected(less, a[1..], b[1..]);
      assert a == [a[0]] + a[1..] && b == [b[0]] + b[1..];
      assert less(a[0], b[0]) ==> !less(b[0], a[0]);
    }
  }

  lemma {:induction false} LexLessTransitive<T(!new)>(less: (T, T) -> bool, a: seq<T>, b: seq<T>, c: seq<T>)
    requires StrictTotal(less) && LexLess(less, a, b) && LexLess(less, b, c)
    ensures LexLess(less, a, c)
    decreases |a|
  {
    if a != [] {
      if a[0] == b[0] == c[0] {
        LexLessTransitive(less, a[1..], b[1..], c[1..]);
      } else if a[0] != b[0] && b[0] != c[0] {
        assert less(a[0], c[0]);
      }
    }
  }

  // ---------------------------------------------------------------- strings

  function CharLess(): (char, char) -> bool {
    (a: char, b: char) => a < b
  }

  /** Lexicographic order by code point. */
  predicate StringLess(a: string, b: string) {
    LexLess(CharLess(), a, b)
  }

  lemma StringLessConnected(a: string, b: string)
    ensures a == b <==> !StringLess(a, b) && !StringLess(b, a)
    ensures StringLess(a, b) ==> !StringLess(b, a)
  {
    LexLessConnected(CharLess(), a, b);
  }

  lemma StringLessTransitive(a: string, b: string, c: string)
    requires StringLess(a, b) && StringLess(b, c)
    ensures StringLess(a, c)
  {
    LexLessTransitive(CharLess(), a, b, c);
  }
}
