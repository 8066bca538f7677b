/**
 * Byte-keyed tables: big-endian numbers, `name 0x00 number` keys, and ordered range scans. The
 * storage engine orders keys as byte strings; these facts say what that order means.
 */
module ByteKeys {
  import opened Wrappers
  import opened Orders

  newtype byte = x: int | 0 <= x < 256

  type Bytes = seq<byte>

  const U64_MAX: nat := 0xFFFF_FFFF_FFFF_FFFF

  /** `n + 1` on 64-bit numbers, as the release build computes it. */
  function Successor(n: nat): nat {
    if n < U64_MAX then n + 1 else 0
  }

  function ByteLess(): (byte, byte) -> bool {
    (a: byte, b: byte) => a < b
  }

  predicate Less(a: Bytes, b: Bytes) {
    LexLess(ByteLess(), a, b)
  }

  function BytesBelow(): (Bytes, Bytes) -> bool {
    (a: Bytes, b: Bytes) => Less(a, b)
  }

  lemma LessConnected(a: Bytes, b: Bytes)
    ensures a == b <==> !Less(a, b) && !Less(b, a)
    ensures Less(a, b) ==> !Less(b, a)
  {
    LexLessConnected(ByteLess(), a, b);
  }

  lemma LessTransitive(a: Bytes, b: Bytes, c: Bytes)
    requires Less(a, b) && Less(b, c)
    ensures Less(a, c)
  {
    LexLessTransitive(ByteLess(), a, b, c);
  }

  lemma BytesTotal(s: set<Bytes>)
    ensures TotalOn(BytesBelow(), s)
  {
    var less := BytesBelow();
    forall x | x in s ensures !less(x, x) {
      LessConnected(x, x);
    }
    forall x, y | x in s && y in s && x != y ensures less(x, y) || less(y, x) {
      LessConnected(x, y);
    }
    forall x, y, z | x in s && y in s && z in s && less(x, y) && less(y, z) ensures less(x, z) {
      LessTransitive(x, y, z);
    }
  }

  /** A common prefix does not matter. */
  lemma {:induction false} PrefixCancels(p: Bytes, a: Bytes, b: Bytes)
    ensures Less(p + a, p + b) <==> Less(a, b)
    decreases |p|
  {
    if p == [] {
      assert p + a == a && p + b == b;
    } else {
      assert (p + a)[1..] == p[1..] + a && (p + b)[1..] == p[1..] + b;
      PrefixCancels(p[1..], a, b);
    }
  }

  // ---------------------------------------------------------------- big-endian numbers

  function Power256(width: nat): nat {
    if width == 0 then 1 else 256 * Power256(width - 1)
  }

  function BigEndian(n: nat, width: nat): Bytes
    requires n < Power256(width)
    decreases width
  {
    if width == 0 then [] else BigEndian(n / 256, width - 1) + [(n % 256) as byte]
  }

  function FromBigEndian(b: Bytes): nat
    decreases |b|
  {
    if b == [] then 0 else 256 * FromBigEndian(b[..|b| - 1]) + b[|b| - 1] as nat
  }

  lemma {:induction false} BigEndianLength(n: nat, width: nat)
    requires n < Power256(width)
    ensures |BigEndian(n, width)| == width && FromBigEndian(BigEndian(n, width)) == n
    decreases width
  {
    if width > 0 {
      BigEndianLength(n / 256, width - 1);
      var b := BigEndian(n, width);
      assert b[..|b| - 1] == BigEndian(n / 256, width - 1);
    }
  }

  /** The byte order of equally long strings is decided before their last bytes or by them. */
  lemma {:induction false} LastByteDecides(a: Bytes, b: Bytes, x: byte, y: byte)
    requires |a| == |b|
    ensures Less(a + [x], b + [y]) <==> Less(a, b) || (a == b && x < y)
    decreases |a|
  {
    if a != [] {
      assert (a + [x])[1..] == a[1..] + [x] && (b + [y])[1..] == b[1..] + [y];
      LastByteDecides(a[1..], b[1..], x, y);
      assert a == [a[0]] + a[1..] && b == [b[0]] + b[1..];
    } else {
      assert a + [x] == [x] && b + [y] == [y];
      var p, q: Bytes := [x], [y];
      assert p[1..] == [] && q[1..] == [];
      assert p[0] == x && q[0] == y && !Less(p[1..], q[1..]);
      assert Less(p, q) <==> (x != y && ByteLess()(x, y));
      assert Less(a, b) == false;
    }
  }

  /** Big-endian keys sort as the numbers they stand for. */
  lemma {:induction false} BigEndianOrder(m: nat, n: nat, width: nat)
    requires m < Power256(width) && n < Power256(width)
    ensures Less(BigEndian(m, width), BigEndian(n, width)) <==> m < n
    decreases width
  {
    if width > 0 {
      BigEndianOrder(m / 256, n / 256, width - 1);
      BigEndianLength(m / 256, width - 1);
      BigEndianLength(n / 256, width - 1);
      LastByteDecides(BigEndian(m / 256, width - 1), BigEndian(n / 256, width - 1),
                      (m % 256) as byte, (n % 256) as byte);
      if m / 256 == n / 256 {
        LessConnected(BigEndian(m / 256, width - 1), BigEndian(m / 256, width - 1));
      } else {
        assert BigEndian(m / 256, width - 1) != BigEndian(n / 256, width - 1);
      }
    }
  }

  /** How many bytes a 64-bit number takes. */
  const WORD: nat := 8

  lemma EightBytes()
    ensures Power256(WORD) == U64_MAX + 1
  {
  }

  /** A 64-bit number as its key bytes. */
  function U64(n: nat): (b: Bytes)
    requires n <= U64_MAX
    ensures |b| == 8
  {
    EightBytes();
    BigEndianLength(n, WORD);
    BigEndian(n, WORD)
  }

  lemma U64Order(m: nat, n: nat)
    requires m <= U64_MAX && n <= U64_MAX
    ensures Less(U64(m), U64(n)) <==> m < n
    ensures U64(m) == U64(n) <==> m == n
  {
    EightBytes();
    BigEndianOrder(m, n, WORD);
    BigEndianLength(m, WORD);
    BigEndianLength(n, WORD);
  }

  lemma U64Decodes(n: nat)
    requires n <= U64_MAX
    ensures FromBigEndian(U64(n)) == n
  {
    EightBytes();
    BigEndianLength(n, WORD);
  }

  // ---------------------------------------------------------------- name and number

  predicate NulFree(name: Bytes) {
    0 !in name
  }

  /** `name ++ 0x00 ++ number (BE)`. */
  function NumberKey(name: Bytes, n: nat): Bytes
    requires n <= U64_MAX
  {
    name + [0] + U64(n)
  }

  /** Lower bound of all keys of a name. */
  function NameStart(name: Bytes): Bytes {
    name + [0]
  }

  /** Exclusive upper bound of all keys of a name. */
  function NameEnd(name: Bytes): Bytes {
    name + [1]
  }

  lemma {:induction false} FirstNul(a: Bytes, b: Bytes, x: Bytes, y: Bytes)
    requires NulFree(a) && NulFree(b) && a + [0] + x == b + [0] + y
    ensures a == b && x == y
    decreases |a|
  {
    var l, r := a + [0] + x, b + [0] + y;
    assert l[0] == (if a == [] then 0 else a[0]) && r[0] == (if b == [] then 0 else b[0]);
    assert (a != [] ==> a[0] in a) && (b != [] ==> b[0] in b);
    if a == [] {
      assert l[1..] == x && r[1..] == y;
    } else {
      assert l[1..] == a[1..] + [0] + x && r[1..] == b[1..] + [0] + y;
      FirstNul(a[1..], b[1..], x, y);
      assert a == [a[0]] + a[1..] && b == [b[0]] + b[1..];
    }
  }

  /** The key determines name and number. */
  lemma NumberKeyInjective(a: Bytes, b: Bytes, m: nat, n: nat)
    requires NulFree(a) && NulFree(b) && m <= U64_MAX && n <= U64_MAX
    ensures NumberKey(a, m) == NumberKey(b, n) <==> a == b && m == n
  {
    if NumberKey(a, m) == NumberKey(b, n) {
      FirstNul(a, b, U64(m), U64(n));
      U64Order(m, n);
    }
  }

  lemma NumberKeyTail(name: Bytes, n: nat)
    requires n <= U64_MAX
    ensures var k := NumberKey(name, n);
            |k| >= 8 && k[|k| - 8..] == U64(n) && FromBigEndian(k[|k| - 8..]) == n
  {
    var k := NumberKey(name, n);
    assert k[|k| - 8..] == U64(n);
    U64Decodes(n);
  }

  /** Within one name, keys sort by number. */
  lemma SameNameOrder(name: Bytes, m: nat, n: nat)
    requires m <= U64_MAX && n <= U64_MAX
    ensures Less(NumberKey(name, m), NumberKey(name, n)) <==> m < n
  {
    PrefixCancels(name + [0], U64(m), U64(n));
    U64Order(m, n);
  }

  /** Between `name 0x00` and `name 0x01` there are only keys of that name. */
  lemma {:induction false} BetweenNames(name: Bytes, k: Bytes)
    requires !Less(k, NameStart(name)) && Less(k, NameEnd(name))
    ensures NameStart(name) <= k
    decreases |name|
  {
    if name == [] {
      assert k != [] by {
        assert k == [] ==> Less(k, NameStart(name));
      }
      assert NameStart(name) == [0] && NameEnd(name) == [1];
      assert Less(k, [1]) && !Less(k, [0]) && !Less(k[1..], []);
      assert k[0] == 0;
    } else {
      var start, end := NameStart(name), NameEnd(name);
      assert k != [] by {
        assert k == [] ==> Less(k, start);
      }
      assert k[0] == name[0];
      assert start[1..] == NameStart(name[1..]) && end[1..] == NameEnd(name[1..]);
      BetweenNames(name[1..], k[1..]);
      assert k == [k[0]] + k[1..] && start == [name[0]] + NameStart(name[1..]);
    }
  }

  /** All keys of a name lie between its bounds. */
  lemma NameBounds(name: Bytes, n: nat)
    requires n <= U64_MAX
    ensures !Less(NumberKey(name, n), NameStart(name)) && Less(NumberKey(name, n), NameEnd(name))
  {
    var k := NumberKey(name, n);
    assert NameStart(name) == name + [0] + [] && k == name + [0] + U64(n);
    PrefixCancels(name + [0], U64(n), []);
    assert k == name + ([0] + U64(n));
    PrefixCancels(name, [0] + U64(n), [1]);
  }

  /** The part of a key before its first NUL. */
  function NameOf(k: Bytes): Bytes {
    if k == [] || k[0] == 0 then [] else [k[0]] + NameOf(k[1..])
  }

  lemma {:induction false} NameOfKey(name: Bytes, rest: Bytes)
    requires NulFree(name)
    ensures NameOf(name + [0] + rest) == name
    decreases |name|
  {
    var k := name + [0] + rest;
    if name != [] {
      assert k[0] == name[0] && name[0] in name;
      assert k[1..] == name[1..] + [0] + rest;
      NameOfKey(name[1..], rest);
    }
  }

  // ---------------------------------------------------------------- scans

  /** The keys of a table in [start, end); no upper bound when end is None. */
  function KeysIn<V>(table: map<Bytes, V>, start: Bytes, end: Option<Bytes>): set<Bytes> {
    set k | k in table && !Less(k, start) && (end.Some? ==> Less(k, end.value))
  }

  /** The keys of a range in ascending order. */
  ghost function Range<V>(table: map<Bytes, V>, start: Bytes, end: Option<Bytes>): seq<Bytes> {
    BytesTotal(KeysIn(table, start, end));
    Listing(BytesBelow(), KeysIn(table, start, end))
  }

  lemma RangeLists<V>(table: map<Bytes, V>, start: Bytes, end: Option<Bytes>)
    ensures Lists(BytesBelow(), KeysIn(table, start, end), Range(table, start, end))
  {
    BytesTotal(KeysIn(table, start, end));
    ListingLists(BytesBelow(), KeysIn(table, start, end));
  }

  /** Any ascending list of exactly the keys in a range is its scan. */
  lemma RangeIs<V>(table: map<Bytes, V>, start: Bytes, end: Option<Bytes>, q: seq<Bytes>)
    requires Lists(BytesBelow(), KeysIn(table, start, end), q)
    ensures q == Range(table, start, end)
  {
    var keys := KeysIn(table, start, end);
    BytesTotal(keys);
    ListingLists(BytesBelow(), keys);
    ListingUnique(BytesBelow(), keys, q, Range(table, start, end));
  }

  /** The engine's ordered scan. */
  method ScanKeys<V>(table: map<Bytes, V>, start: Bytes, end: Option<Bytes>) returns (q: seq<Bytes>)
    ensures q == Range(table, start, end)
  {
    BytesTotal(KeysIn(table, start, end));
    q := Sort(BytesBelow(), KeysIn(table, start, end));
  }
}
