/**
 * Byte-keyed tables seen as what they stand for: a table of rows whose keys are encoded, and
 * scans of the table as listings of the rows.
 */
module Views {
  import opened Wrappers
  import opened Orders
  import opened ByteKeys

  ghost predicate Named<K(!new), V>(rows: map<K, V>, key: K -> Bytes, k: Bytes) {
    exists r :: r in rows && key(r) == k
  }

  /** The table holds exactly the rows, each under its key. */
  ghost predicate Encodes<K(!new), V(!new)>(table: map<Bytes, V>, rows: map<K, V>, key: K -> Bytes) {
    && (forall r {:trigger key(r)} :: r in rows ==> key(r) in table && table[key(r)] == rows[r])
    && (forall k {:trigger Named(rows, key, k)} :: k in table ==> Named(rows, key, k))
  }

  ghost predicate InjectiveOn<K(!new)>(s: set<K>, key: K -> Bytes) {
    forall r, q :: r in s && q in s && key(r) == key(q) ==> r == q
  }

  lemma EncodesPut<K(!new), V(!new)>(table: map<Bytes, V>, rows: map<K, V>, key: K -> Bytes, r: K, v: V)
    requires Encodes(table, rows, key) && InjectiveOn(rows.Keys + {r}, key)
    ensures Encodes(table[key(r) := v], rows[r := v], key)
  {
    var table', rows' := table[key(r) := v], rows[r := v];
    forall k | k in table' ensures Named(rows', key, k) {
      if k == key(r) {
        assert r in rows';
      } else {
        assert Named(rows, key, k);
        var q :| q in rows && key(q) == k;
        assert q in rows';
      }
    }
  }

  lemma EncodesDelete<K(!new), V(!new)>(table: map<Bytes, V>, rows: map<K, V>, key: K -> Bytes, gone: set<K>)
    requires Encodes(table, rows, key) && InjectiveOn(rows.Keys + gone, key)
    ensures Encodes(table - (set r | r in gone :: key(r)), rows - gone, key)
  {
    var table', rows' := table - (set r | r in gone :: key(r)), rows - gone;
    forall k | k in table' ensures Named(rows', key, k) {
      assert Named(rows, key, k);
      var q :| q in rows && key(q) == k;
      assert q in rows';
    }
  }

  function Keyed<K>(key: K -> Bytes, q: seq<K>): seq<Bytes> {
    seq(|q|, i requires 0 <= i < |q| => key(q[i]))
  }

  /** Of the encoded rows, exactly the wanted ones lie in the range, and in their own order. */
  ghost predicate Selects<K(!new), V>(rows: map<K, V>, key: K -> Bytes, start: Bytes, end: Option<Bytes>,
                                      want: set<K>, less: (K, K) -> bool)
  {
    && want <= rows.Keys && TotalOn(less, want)
    && (forall r :: r in rows ==> (r in want <==> InBounds(key(r), start, end)))
    && (forall r, q :: r in want && q in want && less(r, q) ==> Less(key(r), key(q)))
  }

  predicate InBounds(k: Bytes, start: Bytes, end: Option<Bytes>) {
    !Less(k, start) && (end.Some? ==> Less(k, end.value))
  }

  /** A scan by bytes is the listing by meaning. */
  lemma RangeMeans<K(!new), V(!new)>(table: map<Bytes, V>, rows: map<K, V>, key: K -> Bytes,
                                     start: Bytes, end: Option<Bytes>, want: set<K>, less: (K, K) -> bool)
    requires Encodes(table, rows, key) && Selects(rows, key, start, end, want, less)
    ensures Range(table, start, end) == Keyed(key, Listing(less, want))
  {
    var rowsListed := Listing(less, want);
    var q := Keyed(key, rowsListed);
    ListingLists(less, want);
    assert forall i :: 0 <= i < |rowsListed| ==> rowsListed[i] in Members(rowsListed);
    KeyedMembers(table, rows, key, start, end, want, less, rowsListed);
    assert Ascending(BytesBelow(), q);
    forall i, j | 0 <= i < j < |q| ensures q[i] != q[j] {
      assert BytesBelow()(q[i], q[j]);
      LessConnected(q[i], q[j]);
    }
    DistinctCount(q);
    RangeIs(table, start, end, q);
  }

  lemma KeyedMembers<K(!new), V(!new)>(table: map<Bytes, V>, rows: map<K, V>, key: K -> Bytes,
                                       start: Bytes, end: Option<Bytes>, want: set<K>, less: (K, K) -> bool,
                                       listed: seq<K>)
    requires Encodes(table, rows, key) && Selects(rows, key, start, end, want, less)
    requires Members(listed) == want
    ensures Members(Keyed(key, listed)) == KeysIn(table, start, end)
  {
    var q := Keyed(key, listed);
    forall k | k in KeysIn(table, start, end) ensures k in q {
      assert Named(rows, key, k);
      var r :| r in rows && key(r) == k;
      assert r in Members(listed);
      var i :| 0 <= i < |listed| && listed[i] == r;
      assert q[i] == k;
    }
    forall k | k in q ensures k in KeysIn(table, start, end) {
      var i :| 0 <= i < |q| && q[i] == k;
      assert listed[i] in Members(listed);
    }
  }

  // ---------------------------------------------------------------- names and numbers

  /** A name and a number. */
  type RowId = (Bytes, nat)

  function RowKey(): RowId -> Bytes {
    (r: RowId) => if r.1 <= U64_MAX then NumberKey(r.0, r.1) else []
  }

  /** The number at the end of a key. */
  function SeqOf(k: Bytes): nat
    requires |k| >= 8
  {
    FromBigEndian(k[|k| - 8..])
  }

  lemma RowKeyDecodes(r: RowId)
    requires r.1 <= U64_MAX
    ensures |RowKey()(r)| >= 8 && SeqOf(RowKey()(r)) == r.1
  {
    NumberKeyTail(r.0, r.1);
  }

  ghost predicate Fits(s: set<RowId>, limit: nat) {
    limit <= U64_MAX && forall r :: r in s ==> NulFree(r.0) && r.1 <= limit
  }

  lemma RowKeyInjective(s: set<RowId>, limit: nat)
    requires Fits(s, limit)
    ensures InjectiveOn(s, RowKey())
  {
    forall r, q | r in s && q in s && RowKey()(r) == RowKey()(q) ensures r == q {
      NumberKeyInjective(r.0, q.0, r.1, q.1);
    }
  }

  function ByNumber(): (RowId, RowId) -> bool {
    (a: RowId, b: RowId) => a.1 < b.1
  }

  /** The rows of one name with numbers in [lo, hi). */
  function Stretch<V>(rows: map<RowId, V>, name: Bytes, lo: nat, hi: nat): set<RowId> {
    set r | r in rows && r.0 == name && lo <= r.1 < hi
  }

  lemma OtherNameOutside(r: RowId, d: Bytes)
    requires NulFree(r.0) && r.1 <= U64_MAX && NulFree(d)
    requires InBounds(NumberKey(r.0, r.1), NameStart(d), Some(NameEnd(d)))
    ensures r.0 == d
  {
    var k := NumberKey(r.0, r.1);
    BetweenNames(d, k);
    assert k == d + [0] + k[|d| + 1..];
    FirstNul(r.0, d, U64(r.1), k[|d| + 1..]);
  }

  /** Bounds that lie within a name admit only that name's keys. */
  lemma BoundsWithin(r: RowId, d: Bytes, start: Bytes, end: Bytes)
    requires NulFree(r.0) && r.1 <= U64_MAX && NulFree(d)
    requires !Less(start, NameStart(d)) && !Less(NameEnd(d), end)
    requires InBounds(NumberKey(r.0, r.1), start, Some(end))
    ensures r.0 == d
  {
    var k := NumberKey(r.0, r.1);
    LessConnected(end, NameEnd(d));
    if Less(end, NameEnd(d)) {
      LessTransitive(k, end, NameEnd(d));
    }
    assert !Less(k, NameStart(d)) by {
      if Less(k, NameStart(d)) {
        LessConnected(start, NameStart(d));
        if start != NameStart(d) {
          LessTransitive(k, NameStart(d), start);
        }
      }
    }
    OtherNameOutside(r, d);
  }

  /** The lower bound: the name's start, or the key of a number. */
  ghost predicate LowerBound(d: Bytes, start: Bytes, lo: nat) {
    (start == NameStart(d) && lo == 0) || (lo <= U64_MAX && start == NumberKey(d, lo))
  }

  /** The upper bound: the name's end, or the key of a number. */
  ghost predicate UpperBound(d: Bytes, end: Bytes, hi: nat) {
    (end == NameEnd(d) && hi == U64_MAX + 1) || (hi <= U64_MAX && end == NumberKey(d, hi))
  }

  lemma RowInStretch(r: RowId, d: Bytes, start: Bytes, lo: nat, end: Bytes, hi: nat)
    requires NulFree(r.0) && r.1 <= U64_MAX && NulFree(d)
    requires LowerBound(d, start, lo) && UpperBound(d, end, hi)
    ensures InBounds(NumberKey(r.0, r.1), start, Some(end)) <==> r.0 == d && lo <= r.1 < hi
  {
    LessConnected(NameStart(d), NameStart(d));
    LessConnected(NameEnd(d), NameEnd(d));
    if lo <= U64_MAX {
      NameBounds(d, lo);
    }
    if hi <= U64_MAX {
      NameBounds(d, hi);
      LessConnected(NumberKey(d, hi), NameEnd(d));
    }
    if r.0 == d {
      NameBounds(d, r.1);
      if lo <= U64_MAX {
        SameNameOrder(d, r.1, lo);
      }
      if hi <= U64_MAX {
        SameNameOrder(d, r.1, hi);
      }
    } else if InBounds(NumberKey(r.0, r.1), start, Some(end)) {
      BoundsWithin(r, d, start, end);
    }
  }

  /** A scan between two bounds of a name lists that name's rows in between, by number. */
  lemma NameScan<V(!new)>(table: map<Bytes, V>, rows: map<RowId, V>, limit: nat, d: Bytes,
                          start: Bytes, lo: nat, end: Bytes, hi: nat)
    requires Fits(rows.Keys, limit) && Encodes(table, rows, RowKey()) && NulFree(d)
    requires LowerBound(d, start, lo) && UpperBound(d, end, hi)
    ensures TotalOn(ByNumber(), Stretch(rows, d, lo, hi))
    ensures Range(table, start, Some(end)) == Keyed(RowKey(), Listing(ByNumber(), Stretch(rows, d, lo, hi)))
  {
    var want, key := Stretch(rows, d, lo, hi), RowKey();
    forall r | r in rows ensures r in want <==> InBounds(key(r), start, Some(end)) {
      RowInStretch(r, d, start, lo, end, hi);
    }
    forall r, q | r in want && q in want && ByNumber()(r, q) ensures Less(key(r), key(q)) {
      SameNameOrder(d, r.1, q.1);
    }
    StretchTotal(rows, d, lo, hi);
    assert Selects(rows, key, start, Some(end), want, ByNumber());
    RangeMeans(table, rows, key, start, Some(end), want, ByNumber());
  }

  lemma StretchTotal<V(!new)>(rows: map<RowId, V>, d: Bytes, lo: nat, hi: nat)
    ensures TotalOn(ByNumber(), Stretch(rows, d, lo, hi))
  {
  }
}
