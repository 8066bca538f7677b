/**
 * The federation-out shard: the durable EDU outbox, keyed by `destination 0x00 seq`, and the
 * delivery worker's transactions against it.
 */
module FedOut {
  import opened Wrappers
  import opened Orders
  import opened ByteKeys
  import opened Views

  type Destination = Bytes
  type Edu = Bytes

  /** Outbox rows as what they stand for: destination and seq. */
  type Rows = map<RowId, Edu>

  const MAX_EDUS_PER_TXN: nat := 100

  datatype OutboundEdu = OutboundEdu(destination: Destination, json: Edu)

  // ---------------------------------------------------------------- reading the outbox

  /** A destination's rows, oldest first. */
  ghost function Queue(rows: Rows, d: Destination): seq<RowId> {
    StretchTotal(rows, d, 0, U64_MAX + 1);
    Listing(ByNumber(), Stretch(rows, d, 0, U64_MAX + 1))
  }

  lemma QueueLists(rows: Rows, limit: nat, d: Destination)
    requires Fits(rows.Keys, limit)
    ensures var q := Queue(rows, d);
            && (forall i :: 0 <= i < |q| ==> q[i] in rows && q[i].0 == d)
            && (forall i, j :: 0 <= i < j < |q| ==> q[i].1 < q[j].1)
            && (forall n :: (d, n) in rows ==> (d, n) in q)
  {
    var want := Stretch(rows, d, 0, U64_MAX + 1);
    StretchTotal(rows, d, 0, U64_MAX + 1);
    ListingLists(ByNumber(), want);
    var q := Queue(rows, d);
    assert forall i :: 0 <= i < |q| ==> q[i] in Members(q);
    forall i, j | 0 <= i < j < |q| ensures q[i].1 < q[j].1 {
      assert ByNumber()(q[i], q[j]);
    }
    forall n | (d, n) in rows ensures (d, n) in q {
      assert (d, n) in Members(q);
    }
  }

  /** Keys and values that decode to some rows, in order. */
  ghost predicate Holds(table: map<Bytes, Edu>, keys: seq<Bytes>, rows: Rows, q: seq<RowId>) {
    && |keys| == |q|
    && forall i :: 0 <= i < |q| ==> q[i] in rows && keys[i] in table && table[keys[i]] == rows[q[i]]
                                    && |keys[i]| >= 8 && SeqOf(keys[i]) == q[i].1
  }

  method DecodeRows(table: map<Bytes, Edu>, keys: seq<Bytes>, limit: nat, ghost rows: Rows, ghost q: seq<RowId>)
    returns (out: seq<(nat, Edu)>)
    requires Holds(table, keys, rows, q)
    ensures |out| == (if |q| < limit then |q| else limit)
    ensures forall i :: 0 <= i < |out| ==> q[i] in rows && out[i] == (q[i].1, rows[q[i]])
  {
    out := [];
    for i := 0 to |keys|
      invariant |out| == (if i < limit then i else limit)
      invariant forall j :: 0 <= j < |out| ==> out[j] == (q[j].1, rows[q[j]])
    {
      if |out| >= limit {
        break;
      }
      out := out + [(SeqOf(keys[i]), table[keys[i]])];
    }
  }

  lemma QueueHolds(table: map<Bytes, Edu>, rows: Rows, seqNo: nat, d: Destination)
    requires Fits(rows.Keys, seqNo) && Encodes(table, rows, RowKey())
    ensures Holds(table, Keyed(RowKey(), Queue(rows, d)), rows, Queue(rows, d))
  {
    var q := Queue(rows, d);
    QueueLists(rows, seqNo, d);
    forall i | 0 <= i < |q| ensures |RowKey()(q[i])| >= 8 && SeqOf(RowKey()(q[i])) == q[i].1 {
      RowKeyDecodes(q[i]);
    }
  }

  /** What is queued for one destination, in seq order and cut to a limit. */
  method EduOutbox(table: map<Bytes, Edu>, d: Destination, limit: nat, ghost rows: Rows, ghost seqNo: nat)
    returns (out: seq<(nat, Edu)>)
    requires Fits(rows.Keys, seqNo) && Encodes(table, rows, RowKey()) && NulFree(d)
    ensures |out| == (if |Queue(rows, d)| < limit then |Queue(rows, d)| else limit)
    ensures forall i :: 0 <= i < |out| ==>
              Queue(rows, d)[i] in rows && out[i] == (Queue(rows, d)[i].1, rows[Queue(rows, d)[i]])
  {
    var keys := ScanKeys(table, NameStart(d), Some(NameEnd(d)));
    NameScan(table, rows, seqNo, d, NameStart(d), 0, NameEnd(d), U64_MAX + 1);
    QueueHolds(table, rows, seqNo, d);
    out := DecodeRows(table, keys, limit, rows, Queue(rows, d));
  }

  ghost predicate Pending(rows: Rows, d: Destination) {
    exists n :: (d, n) in rows
  }

  lemma KeyNames(table: map<Bytes, Edu>, rows: Rows, seqNo: nat, k: Bytes) returns (r: RowId)
    requires Fits(rows.Keys, seqNo) && Encodes(table, rows, RowKey()) && k in table
    ensures r in rows && RowKey()(r) == k && NameOf(k) == r.0
  {
    assert Named(rows, RowKey(), k);
    r :| r in rows && RowKey()(r) == k;
    NameOfKey(r.0, U64(r.1));
  }

  /** In key order the rows of one destination are contiguous. */
  lemma NamesContiguous(a: RowId, b: RowId, c: RowId)
    requires NulFree(a.0) && NulFree(b.0) && a.1 <= U64_MAX && b.1 <= U64_MAX && c.1 <= U64_MAX
    requires a.0 == c.0 && Less(RowKey()(a), RowKey()(b)) && Less(RowKey()(b), RowKey()(c))
    ensures b.0 == a.0
  {
    NameBounds(a.0, a.1);
    NameBounds(a.0, c.1);
    LessTransitive(RowKey()(b), RowKey()(c), NameEnd(a.0));
    LessConnected(RowKey()(b), NameStart(a.0));
    if Less(RowKey()(b), NameStart(a.0)) {
      LessTransitive(RowKey()(a), RowKey()(b), NameStart(a.0));
    }
    OtherNameOutside(b, a.0);
  }

  lemma NameBetween(table: map<Bytes, Edu>, rows: Rows, seqNo: nat, a: Bytes, b: Bytes, c: Bytes)
    requires Fits(rows.Keys, seqNo) && Encodes(table, rows, RowKey())
    requires a in table && b in table && c in table && Less(a, b) && Less(b, c) && NameOf(a) == NameOf(c)
    ensures NameOf(b) == NameOf(a)
  {
    var ra := KeyNames(table, rows, seqNo, a);
    var rb := KeyNames(table, rows, seqNo, b);
    var rc := KeyNames(table, rows, seqNo, c);
    NamesContiguous(ra, rb, rc);
  }

  /** Equal names stand next to each other. */
  ghost predicate Grouped(names: seq<Bytes>) {
    forall j, i :: 0 <= j < i < |names| && names[j] == names[i] ==> names[i - 1] == names[i]
  }

  /** Whatever lies between two keys of one name has that name. */
  ghost predicate Convex(less: (Bytes, Bytes) -> bool, name: Bytes -> Bytes, s: set<Bytes>) {
    forall a, b, c :: a in s && b in s && c in s && less(a, b) && less(b, c) && name(a) == name(c) ==>
                      name(b) == name(a)
  }

  lemma ConvexGroups(less: (Bytes, Bytes) -> bool, name: Bytes -> Bytes, s: set<Bytes>, keys: seq<Bytes>)
    requires Lists(less, s, keys) && Convex(less, name, s)
    ensures forall j, i :: 0 <= j < i < |keys| && name(keys[j]) == name(keys[i]) ==>
                           name(keys[i - 1]) == name(keys[i])
  {
  }

  lemma KeysGrouped(table: map<Bytes, Edu>, rows: Rows, seqNo: nat, keys: seq<Bytes>)
    requires Fits(rows.Keys, seqNo) && Encodes(table, rows, RowKey())
    requires Lists(BytesBelow(), table.Keys, keys)
    ensures Grouped(Names(keys))
  {
    var name := (k: Bytes) => NameOf(k);
    assert Convex(BytesBelow(), name, table.Keys) by {
      forall a, b, c | a in table.Keys && b in table.Keys && c in table.Keys && BytesBelow()(a, b) &&
                       BytesBelow()(b, c) && name(a) == name(c)
        ensures name(b) == name(a)
      {
        NameBetween(table, rows, seqNo, a, b, c);
      }
    }
    ConvexGroups(BytesBelow(), name, table.Keys, keys);
    assert forall i :: 0 <= i < |keys| ==> Names(keys)[i] == name(keys[i]);
  }

  function Names(keys: seq<Bytes>): seq<Bytes> {
    seq(|keys|, i requires 0 <= i < |keys| => NameOf(keys[i]))
  }

  /** Dropping a name equal to the one before it leaves each name once. */
  method Dedupe(keys: seq<Bytes>) returns (out: seq<Bytes>)
    requires Grouped(Names(keys))
    ensures forall d :: d in out <==> d in Names(keys)
    ensures forall i, j :: 0 <= i < j < |out| ==> out[i] != out[j]
  {
    ghost var names := Names(keys);
    out := [];
    for i := 0 to |keys|
      invariant forall d :: d in out <==> d in names[..i]
      invariant i > 0 ==> out != [] && out[|out| - 1] == names[i - 1]
      invariant forall p, q :: 0 <= p < q < |out| ==> out[p] != out[q]
    {
      var d := NameOf(keys[i]);
      assert names[i] == d && names[..i + 1] == names[..i] + [d];
      forall j | 0 <= j < i && names[..i][j] == d ensures names[i - 1] == d {
        assert names[j] == names[i];
      }
      if out == [] || out[|out| - 1] != d {
        assert d !in names[..i];
        out := out + [d];
      }
    }
    assert names[..|keys|] == names;
  }

  lemma NamesComplete(table: map<Bytes, Edu>, rows: Rows, seqNo: nat, keys: seq<Bytes>, d: Destination)
    requires Fits(rows.Keys, seqNo) && Encodes(table, rows, RowKey())
    requires Lists(BytesBelow(), table.Keys, keys)
    ensures Pending(rows, d) <==> d in Names(keys)
  {
    if Pending(rows, d) {
      var n :| (d, n) in rows;
      var k := RowKey()((d, n));
      assert k in Members(keys);
      var j :| 0 <= j < |keys| && keys[j] == k;
      NameOfKey(d, U64(n));
      assert Names(keys)[j] == d;
    }
    if d in Names(keys) {
      var j :| 0 <= j < |keys| && Names(keys)[j] == d;
      assert keys[j] in Members(keys);
      var r := KeyNames(table, rows, seqNo, keys[j]);
      assert (d, r.1) in rows;
    }
  }

  /** Destinations with pending rows, each once, though only the last one listed is compared. */
  method EduDestinations(table: map<Bytes, Edu>, ghost rows: Rows, ghost seqNo: nat)
    returns (out: seq<Destination>)
    requires Fits(rows.Keys, seqNo) && Encodes(table, rows, RowKey())
    ensures forall d :: d in out <==> Pending(rows, d)
    ensures forall i, j :: 0 <= i < j < |out| ==> out[i] != out[j]
  {
    var keys := ScanKeys(table, [], None);
    RangeLists(table, [], None);
    assert KeysIn(table, [], None) == table.Keys;
    KeysGrouped(table, rows, seqNo, keys);
    out := Dedupe(keys);
    forall d ensures d in out <==> Pending(rows, d) {
      NamesComplete(table, rows, seqNo, keys, d);
    }
  }

  // ---------------------------------------------------------------- acknowledging

  /** The rows an ack up to a number removes. */
  function Acked(rows: Rows, d: Destination, upTo: nat): set<RowId> {
    Stretch(rows, d, 0, Successor(upTo))
  }

  /** Below the largest number, these are exactly the destination's rows up to the bound. */
  lemma AckedMeaning(rows: Rows, d: Destination, upTo: nat)
    requires upTo <= U64_MAX
    ensures forall r :: r in Acked(rows, d, upTo) <==>
                        r in rows && r.0 == d && r.1 <= upTo && upTo < U64_MAX
  {
  }

  lemma AckedKeys(table: map<Bytes, Edu>, rows: Rows, seqNo: nat, d: Destination, upTo: nat)
    requires Fits(rows.Keys, seqNo) && Encodes(table, rows, RowKey()) && NulFree(d) && upTo <= U64_MAX
    ensures Members(Range(table, NameStart(d), Some(NumberKey(d, Successor(upTo))))) ==
            set r | r in Acked(rows, d, upTo) :: RowKey()(r)
  {
    var hi, gone := Successor(upTo), Acked(rows, d, upTo);
    NameScan(table, rows, seqNo, d, NameStart(d), 0, NumberKey(d, hi), hi);
    ListingLists(ByNumber(), gone);
    KeyedImage(RowKey(), Listing(ByNumber(), gone), gone);
  }

  lemma KeyedImage(key: RowId -> Bytes, q: seq<RowId>, s: set<RowId>)
    requires Members(q) == s
    ensures Members(Keyed(key, q)) == set r | r in s :: key(r)
  {
    forall k | k in Keyed(key, q) ensures exists r :: r in s && key(r) == k {
      var i :| 0 <= i < |q| && Keyed(key, q)[i] == k;
      assert q[i] in Members(q);
    }
    forall r | r in s ensures key(r) in Keyed(key, q) {
      assert r in Members(q);
      var i :| 0 <= i < |q| && q[i] == r;
      assert Keyed(key, q)[i] == key(r);
    }
  }

  /** Delete each scanned key. */
  method DeleteAll(table: map<Bytes, Edu>, keys: seq<Bytes>) returns (left: map<Bytes, Edu>)
    ensures left == table - Members(keys)
  {
    left := table;
    for i := 0 to |keys|
      invariant left == table - Members(keys[..i])
    {
      assert keys[..i + 1] == keys[..i] + [keys[i]];
      assert Members(keys[..i + 1]) == Members(keys[..i]) + {keys[i]};
      left := left - {keys[i]};
    }
    assert keys[..|keys|] == keys;
  }

  // ---------------------------------------------------------------- the shard and its worker

  /** The EDUs ever enqueued, in order: the seq of an EDU is its place, from 1. */
  type Log = seq<OutboundEdu>

  ghost predicate IsRow(log: Log, r: RowId) {
    1 <= r.1 <= |log| && r.0 == log[r.1 - 1].destination
  }

  /** The queued rows are rows of the log, and the row of every EDU is still queued or was acknowledged. */
  ghost predicate Books(log: Log, rows: Rows, acknowledged: set<nat>) {
    && |log| <= U64_MAX
    && (forall i :: 0 <= i < |log| ==> NulFree(log[i].destination))
    && (forall r :: r in rows ==> IsRow(log, r) && rows[r] == log[r.1 - 1].json)
    && (forall r :: IsRow(log, r) ==> r in rows || r.1 in acknowledged)
  }

  lemma BooksFit(log: Log, rows: Rows, acknowledged: set<nat>)
    requires Books(log, rows, acknowledged)
    ensures Fits(rows.Keys, |log|)
  {
  }

  /**
   * A transaction on its way: the rows read from the outbox for a destination, what of them went
   * into the transaction, and whether the destination has answered.
   */
  datatype Flight = Flight(destination: Destination, batch: seq<(nat, Edu)>, body: seq<(nat, Edu)>, answered: bool)

  function LastSeq(f: Flight): nat
    requires f.batch != []
  {
    f.batch[|f.batch| - 1].0
  }

  ghost function Numbers(entries: seq<(nat, Edu)>): set<nat> {
    set e | e in entries :: e.0
  }

  /**
   * What a flight promises: it has read EDUs of the log unaltered, and every EDU for its destination
   * up to its last seq is one it has read or was acknowledged before.
   */
  ghost predicate FlightOk(log: Log, acknowledged: set<nat>, f: Flight) {
    && f.batch != [] && NulFree(f.destination) && LastSeq(f) <= |log|
    && (forall i :: 0 <= i < |f.batch| ==>
          IsRow(log, (f.destination, f.batch[i].0)) && log[f.batch[i].0 - 1].json == f.batch[i].1)
    && (forall r: RowId :: IsRow(log, r) && r.0 == f.destination && r.1 <= LastSeq(f) ==>
          r.1 in Numbers(f.batch) || r.1 in acknowledged)
  }

  ghost predicate FlightsOk(log: Log, acknowledged: set<nat>, flights: map<nat, Flight>) {
    forall t :: t in flights ==> FlightOk(log, acknowledged, flights[t])
  }

  lemma FlightSurvives(log: Log, acknowledged: set<nat>, log': Log, acknowledged': set<nat>, f: Flight)
    requires FlightOk(log, acknowledged, f) && log <= log' && acknowledged <= acknowledged'
    ensures FlightOk(log', acknowledged', f)
  {
    assert forall r: RowId :: IsRow(log', r) && r.1 <= |log| ==> IsRow(log, r);
  }

  lemma FlightsSurvive(log: Log, acknowledged: set<nat>, log': Log, acknowledged': set<nat>, flights: map<nat, Flight>)
    requires FlightsOk(log, acknowledged, flights) && log <= log' && acknowledged <= acknowledged'
    ensures FlightsOk(log', acknowledged', flights)
  {
    forall t | t in flights ensures FlightOk(log', acknowledged', flights[t]) {
      FlightSurvives(log, acknowledged, log', acknowledged', flights[t]);
    }
  }

  /** A flight takes the head of its destination's queue, as much of it as one transaction takes. */
  ghost predicate Takes(rows: Rows, f: Flight) {
    var q := Queue(rows, f.destination);
    && |f.batch| == (if |q| < MAX_EDUS_PER_TXN then |q| else MAX_EDUS_PER_TXN)
    && forall i :: 0 <= i < |f.batch| ==> q[i] in rows && f.batch[i] == (q[i].1, rows[q[i]])
  }

  /**
   * What scans see: the rows as they were when the last apply call ended. A call may apply many
   * entries of the log, and rows it stages itself are not seen before it ends.
   */
  ghost predicate Seen(log: Log, rows: Rows, engine: map<Bytes, Edu>, seen: Rows, base: nat) {
    && base <= |log| <= U64_MAX && Encodes(engine, seen, RowKey())
    && (forall r: RowId :: r in seen ==> IsRow(log, r) && r.1 <= base && seen[r] == log[r.1 - 1].json)
    && (forall r: RowId :: r in rows ==> r in seen || r.1 > base)
  }

  lemma SeenFits(log: Log, rows: Rows, engine: map<Bytes, Edu>, seen: Rows, base: nat, acknowledged: set<nat>)
    requires Seen(log, rows, engine, seen, base) && Books(log, rows, acknowledged)
    ensures Fits(seen.Keys, |log|)
  {
  }

  lemma TakesFlight(log: Log, rows: Rows, acknowledged: set<nat>, engine: map<Bytes, Edu>, seen: Rows, base: nat,
                    f: Flight)
    requires Books(log, rows, acknowledged) && Seen(log, rows, engine, seen, base)
    requires Takes(seen, f) && f.batch != [] && NulFree(f.destination)
    ensures FlightOk(log, acknowledged, f)
  {
    var q := Queue(seen, f.destination);
    SeenFits(log, rows, engine, seen, base, acknowledged);
    QueueLists(seen, |log|, f.destination);
    assert q[|f.batch| - 1] in seen;
    forall r: RowId | IsRow(log, r) && r.0 == f.destination && r.1 <= LastSeq(f) && r.1 !in acknowledged
      ensures r.1 in Numbers(f.batch)
    {
      assert r in rows && r in seen;
      assert (f.destination, r.1) in q;
      var i :| 0 <= i < |q| && q[i] == r;
      assert i < |f.batch|;
      assert f.batch[i].0 in Numbers(f.batch);
    }
  }

  /** The table holds the queued rows, and the books and the flights are right. */
  ghost predicate Sound(table: map<Bytes, Edu>, log: Log, flights: map<nat, Flight>, rows: Rows,
                        acknowledged: set<nat>)
  {
    Books(log, rows, acknowledged) && Encodes(table, rows, RowKey()) && FlightsOk(log, acknowledged, flights)
  }

  // ---------------------------------------------------------------- enqueueing

  lemma PutBooks(log: Log, rows: Rows, acknowledged: set<nat>, edu: OutboundEdu)
    requires Books(log, rows, acknowledged) && NulFree(edu.destination) && |log| < U64_MAX
    ensures Books(log + [edu], rows[(edu.destination, |log| + 1) := edu.json], acknowledged)
  {
  }

  lemma PutEncodes(table: map<Bytes, Edu>, rows: Rows, n: nat, r: RowId, edu: Edu)
    requires Fits(rows.Keys, n) && Encodes(table, rows, RowKey()) && NulFree(r.0) && r.1 == n + 1 <= U64_MAX
    ensures Encodes(table[NumberKey(r.0, r.1) := edu], rows[r := edu], RowKey())
  {
    RowKeyInjective(rows.Keys + {r}, n + 1);
    EncodesPut(table, rows, RowKey(), r, edu);
  }

  /** The row of one entry, under its emitted seq. */
  method PutRow(table: map<Bytes, Edu>, n: nat, edu: OutboundEdu, ghost log: Log, ghost flights: map<nat, Flight>,
                ghost rows: Rows, ghost acknowledged: set<nat>)
    returns (table': map<Bytes, Edu>, ghost rows': Rows)
    requires n == |log| < U64_MAX && NulFree(edu.destination) && Sound(table, log, flights, rows, acknowledged)
    ensures Sound(table', log + [edu], flights, rows', acknowledged)
    ensures rows' == rows[(edu.destination, n + 1) := edu.json]
  {
    ghost var r := (edu.destination, n + 1);
    rows' := rows[r := edu.json];
    BooksFit(log, rows, acknowledged);
    PutBooks(log, rows, acknowledged, edu);
    PutEncodes(table, rows, n, r, edu.json);
    FlightsSurvive(log, acknowledged, log + [edu], acknowledged, flights);
    table' := table[NumberKey(edu.destination, n + 1) := edu.json];
  }

  /** The rows are those there were, and all of the log's new ones. */
  ghost predicate Grown(rows: Rows, rows': Rows, from: nat, log': Log) {
    forall r: RowId :: r in rows' <==> r in rows || (IsRow(log', r) && r.1 > from)
  }

  lemma GrownNext(rows: Rows, rows': Rows, from: nat, log': Log, edu: OutboundEdu)
    requires Grown(rows, rows', from, log') && from <= |log'|
    ensures Grown(rows, rows'[(edu.destination, |log'| + 1) := edu.json], from, log' + [edu])
  {
  }

  /** One row after the other. */
  method PutRows(table: map<Bytes, Edu>, n: nat, entries: seq<OutboundEdu>, ghost log: Log,
                 ghost flights: map<nat, Flight>, ghost rows: Rows, ghost acknowledged: set<nat>)
    returns (table': map<Bytes, Edu>, ghost rows': Rows)
    requires n == |log| && n + |entries| <= U64_MAX && Sound(table, log, flights, rows, acknowledged)
    requires forall i :: 0 <= i < |entries| ==> NulFree(entries[i].destination)
    ensures Sound(table', log + entries, flights, rows', acknowledged)
    ensures Grown(rows, rows', n, log + entries)
  {
    table', rows' := table, rows;
    ghost var log' := log;
    for i := 0 to |entries|
      invariant log' == log + entries[..i] && Sound(table', log', flights, rows', acknowledged)
      invariant Grown(rows, rows', n, log')
    {
      GrownNext(rows, rows', n, log', entries[i]);
      table', rows' := PutRow(table', n + i, entries[i], log', flights, rows', acknowledged);
      log' := log' + [entries[i]];
    }
    assert log' == log + entries;
  }

  // ---------------------------------------------------------------- acknowledging a transaction

  lemma AckBooks(log: Log, rows: Rows, acknowledged: set<nat>, gone: set<RowId>, carried: set<nat>)
    requires Books(log, rows, acknowledged)
    requires forall r: RowId :: r in gone && r in rows ==> r.1 in carried || r.1 in acknowledged
    ensures Books(log, rows - gone, acknowledged + carried)
  {
  }

  lemma AckEncodes(table: map<Bytes, Edu>, rows: Rows, engine: map<Bytes, Edu>, seen: Rows, n: nat, d: Destination,
                   upTo: nat)
    requires Fits(rows.Keys, n) && Encodes(table, rows, RowKey()) && NulFree(d) && upTo <= U64_MAX
    requires Fits(seen.Keys, n) && Encodes(engine, seen, RowKey())
    ensures Encodes(table - Members(Range(engine, NameStart(d), Some(NumberKey(d, Successor(upTo))))),
                    rows - Acked(seen, d, upTo), RowKey())
  {
    AckedKeys(engine, seen, n, d, upTo);
    RowKeyInjective(rows.Keys + Acked(seen, d, upTo), n);
    EncodesDelete(table, rows, RowKey(), Acked(seen, d, upTo));
  }

  /** Of the queued rows an ack removes the destination's up to the bound, but none of the current apply call. */
  lemma AckSees(log: Log, rows: Rows, engine: map<Bytes, Edu>, seen: Rows, base: nat, d: Destination, upTo: nat,
                r: RowId)
    requires Seen(log, rows, engine, seen, base) && r in rows && upTo <= U64_MAX
    ensures r in Acked(seen, d, upTo) <==> r.0 == d && r.1 <= upTo && r.1 <= base && upTo < U64_MAX
  {
  }

  lemma FlightCarries(log: Log, rows: Rows, acknowledged: set<nat>, seen: Rows, f: Flight)
    requires FlightOk(log, acknowledged, f) && Books(log, rows, acknowledged)
    ensures forall r: RowId :: r in Acked(seen, f.destination, LastSeq(f)) && r in rows ==>
                               r.1 in Numbers(f.batch) || r.1 in acknowledged
    ensures forall n :: n in Numbers(f.batch) ==> IsRow(log, (f.destination, n))
  {
  }

  /** Deleting a destination's rows up to a seq, those that a scan sees, all read by an acknowledged transaction. */
  method AckRows(table: map<Bytes, Edu>, engine: map<Bytes, Edu>, d: Destination, upTo: nat, ghost carried: set<nat>,
                 ghost log: Log, ghost flights: map<nat, Flight>, ghost rows: Rows, ghost acknowledged: set<nat>,
                 ghost seen: Rows, ghost base: nat)
    returns (table': map<Bytes, Edu>)
    requires Sound(table, log, flights, rows, acknowledged) && NulFree(d) && upTo <= U64_MAX
    requires Seen(log, rows, engine, seen, base)
    requires forall r: RowId :: r in Acked(seen, d, upTo) && r in rows ==> r.1 in carried || r.1 in acknowledged
    ensures Sound(table', log, flights, rows - Acked(seen, d, upTo), acknowledged + carried)
  {
    ghost var gone := Acked(seen, d, upTo);
    BooksFit(log, rows, acknowledged);
    SeenFits(log, rows, engine, seen, base, acknowledged);
    AckBooks(log, rows, acknowledged, gone, carried);
    AckEncodes(table, rows, engine, seen, |log|, d, upTo);
    FlightsSurvive(log, acknowledged, log, acknowledged + carried, flights);
    var keys := ScanKeys(engine, NameStart(d), Some(NumberKey(d, Successor(upTo))));
    table' := DeleteAll(table, keys);
  }

  // ---------------------------------------------------------------- what a transaction carries

  /** The entries that parse, in order. */
  function Parsed(parses: Edu -> bool, batch: seq<(nat, Edu)>): seq<(nat, Edu)> {
    if batch == [] then []
    else
      var k := |batch| - 1;
      Parsed(parses, batch[..k]) + (if parses(batch[k].1) then [batch[k]] else [])
  }

  lemma {:induction false} ParsedMeans(parses: Edu -> bool, batch: seq<(nat, Edu)>, e: (nat, Edu))
    ensures e in Parsed(parses, batch) <==> e in batch && parses(e.1)
  {
    if batch != [] {
      var k := |batch| - 1;
      ParsedMeans(parses, batch[..k], e);
      assert batch == batch[..k] + [batch[k]];
    }
  }

  /** The body of a transaction: entries that do not parse are silently left out. */
  method Body(parses: Edu -> bool, batch: seq<(nat, Edu)>) returns (body: seq<(nat, Edu)>)
    ensures body == Parsed(parses, batch)
  {
    body := [];
    for i := 0 to |batch|
      invariant body == Parsed(parses, batch[..i])
    {
      assert batch[..i + 1][..i] == batch[..i];
      if parses(batch[i].1) {
        body := body + [batch[i]];
      }
    }
    assert batch[..|batch|] == batch;
  }

  /** Of the EDUs whose rows are gone, exactly those that parse were carried by an answered transaction. */
  ghost predicate Tally(parses: Edu -> bool, log: Log, acknowledged: set<nat>, carried: set<nat>) {
    && (forall n :: n in carried ==> 1 <= n <= |log| && parses(log[n - 1].json))
    && (forall n :: n in acknowledged ==> 1 <= n <= |log| && (parses(log[n - 1].json) ==> n in carried))
  }

  /** A flight carries what parses of its batch, and once answered it counts. */
  ghost predicate Loaded(parses: Edu -> bool, f: Flight, carried: set<nat>) {
    f.body == Parsed(parses, f.batch) && (f.answered ==> Numbers(f.body) <= carried)
  }

  ghost predicate AllLoaded(parses: Edu -> bool, flights: map<nat, Flight>, carried: set<nat>) {
    forall t :: t in flights ==> Loaded(parses, flights[t], carried)
  }

  lemma BatchIsLogged(log: Log, acknowledged: set<nat>, f: Flight, e: (nat, Edu))
    requires FlightOk(log, acknowledged, f) && e in f.batch
    ensures 1 <= e.0 <= |log| && log[e.0 - 1].json == e.1
  {
    var i :| 0 <= i < |f.batch| && f.batch[i] == e;
    assert IsRow(log, (f.destination, f.batch[i].0));
  }

  lemma AnswerTally(parses: Edu -> bool, log: Log, acknowledged: set<nat>, carried: set<nat>, f: Flight)
    requires Tally(parses, log, acknowledged, carried) && FlightOk(log, acknowledged, f)
    requires f.body == Parsed(parses, f.batch)
    ensures Tally(parses, log, acknowledged, carried + Numbers(f.body))
  {
    forall e | e in f.body ensures 1 <= e.0 <= |log| && parses(log[e.0 - 1].json) {
      ParsedMeans(parses, f.batch, e);
      BatchIsLogged(log, acknowledged, f, e);
    }
  }

  lemma AckTally(parses: Edu -> bool, log: Log, acknowledged: set<nat>, carried: set<nat>, f: Flight)
    requires Tally(parses, log, acknowledged, carried) && FlightOk(log, acknowledged, f)
    requires Loaded(parses, f, carried) && f.answered
    ensures Tally(parses, log, acknowledged + Numbers(f.batch), carried)
  {
    forall e | e in f.batch ensures 1 <= e.0 <= |log| && (parses(log[e.0 - 1].json) ==> e.0 in carried) {
      ParsedMeans(parses, f.batch, e);
      BatchIsLogged(log, acknowledged, f, e);
      assert parses(e.1) ==> e.0 in Numbers(f.body);
    }
  }

  /** Where each EDU is: queued, carried by an answered transaction, or unparsable. */
  lemma NothingElseLost(parses: Edu -> bool, log: Log, rows: Rows, acknowledged: set<nat>, carried: set<nat>, n: nat)
    requires Books(log, rows, acknowledged) && Tally(parses, log, acknowledged, carried) && 1 <= n <= |log|
    ensures (log[n - 1].destination, n) in rows || n in acknowledged
    ensures n in acknowledged ==> (n in carried <==> parses(log[n - 1].json))
  {
  }

  ghost predicate Ledger(parses: Edu -> bool, table: map<Bytes, Edu>, log: Log, flights: map<nat, Flight>, rows: Rows,
                         acknowledged: set<nat>, carried: set<nat>)
  {
    && Sound(table, log, flights, rows, acknowledged)
    && Tally(parses, log, acknowledged, carried) && AllLoaded(parses, flights, carried)
  }

  lemma FlightStarts(parses: Edu -> bool, table: map<Bytes, Edu>, log: Log, flights: map<nat, Flight>, rows: Rows,
                     acknowledged: set<nat>, carried: set<nat>, t: nat, f: Flight)
    requires Ledger(parses, table, log, flights, rows, acknowledged, carried)
    requires FlightOk(log, acknowledged, f) && f.body == Parsed(parses, f.batch) && !f.answered
    ensures Ledger(parses, table, log, flights[t := f], rows, acknowledged, carried)
  {
  }

  lemma FlightAnswered(parses: Edu -> bool, table: map<Bytes, Edu>, log: Log, flights: map<nat, Flight>, rows: Rows,
                       acknowledged: set<nat>, carried: set<nat>, t: nat)
    requires Ledger(parses, table, log, flights, rows, acknowledged, carried) && t in flights
    ensures Ledger(parses, table, log, flights[t := flights[t].(answered := true)], rows, acknowledged,
                   carried + Numbers(flights[t].body))
  {
    assert FlightOk(log, acknowledged, flights[t]) && Loaded(parses, flights[t], carried);
    AnswerTally(parses, log, acknowledged, carried, flights[t]);
    AnsweredOk(log, acknowledged, flights, t);
    AnsweredLoaded(parses, flights, carried, t);
  }

  lemma AnsweredOk(log: Log, acknowledged: set<nat>, flights: map<nat, Flight>, t: nat)
    requires FlightsOk(log, acknowledged, flights) && t in flights
    ensures FlightsOk(log, acknowledged, flights[t := flights[t].(answered := true)])
  {
  }

  lemma AnsweredLoaded(parses: Edu -> bool, flights: map<nat, Flight>, carried: set<nat>, t: nat)
    requires AllLoaded(parses, flights, carried) && t in flights
    ensures AllLoaded(parses, flights[t := flights[t].(answered := true)], carried + Numbers(flights[t].body))
  {
  }

  lemma FlightEnds(parses: Edu -> bool, table: map<Bytes, Edu>, log: Log, flights: map<nat, Flight>, rows: Rows,
                   acknowledged: set<nat>, carried: set<nat>, t: nat)
    requires Ledger(parses, table, log, flights, rows, acknowledged, carried) && t in flights
    ensures Ledger(parses, table, log, flights - {t}, rows, acknowledged, carried)
    ensures FlightOk(log, acknowledged, flights[t]) && Loaded(parses, flights[t], carried)
  {
  }

  /** The next transaction for a destination, if a scan sees anything queued for it. */
  method ReadFlight(parses: Edu -> bool, engine: map<Bytes, Edu>, d: Destination, ghost log: Log, ghost rows: Rows,
                    ghost acknowledged: set<nat>, ghost seen: Rows, ghost base: nat)
    returns (f: Option<Flight>)
    requires Books(log, rows, acknowledged) && Seen(log, rows, engine, seen, base) && NulFree(d)
    ensures f.Some? <==> Queue(seen, d) != []
    ensures f.Some? ==> f.value.destination == d && Takes(seen, f.value) && FlightOk(log, acknowledged, f.value)
    ensures f.Some? ==> f.value.body == Parsed(parses, f.value.batch) && !f.value.answered
  {
    SeenFits(log, rows, engine, seen, base, acknowledged);
    var batch := EduOutbox(engine, d, MAX_EDUS_PER_TXN, seen, |log|);
    if batch == [] {
      return None;
    }
    var body := Body(parses, batch);
    f := Some(Flight(d, batch, body, false));
    TakesFlight(log, rows, acknowledged, engine, seen, base, f.value);
  }

  lemma SeenStays(log: Log, rows: Rows, engine: map<Bytes, Edu>, seen: Rows, base: nat, log': Log, rows': Rows)
    requires Seen(log, rows, engine, seen, base) && log <= log' && |log'| <= U64_MAX
    requires forall r :: r in rows' ==> r in rows || r.1 > |log|
    ensures Seen(log', rows', engine, seen, base)
  {
  }

  lemma SeenAll(log: Log, rows: Rows, table: map<Bytes, Edu>, acknowledged: set<nat>)
    requires Books(log, rows, acknowledged) && Encodes(table, rows, RowKey())
    ensures Seen(log, rows, table, rows, |log|)
  {
  }

  /** Acknowledging an answered flight. */
  method AckFlight(parses: Edu -> bool, table: map<Bytes, Edu>, engine: map<Bytes, Edu>, flights: map<nat, Flight>,
                   t: nat, ghost log: Log, ghost rows: Rows, ghost acknowledged: set<nat>, ghost carried: set<nat>,
                   ghost seen: Rows, ghost base: nat)
    returns (table': map<Bytes, Edu>, ghost rows': Rows, ghost acknowledged': set<nat>)
    requires Ledger(parses, table, log, flights, rows, acknowledged, carried) && Seen(log, rows, engine, seen, base)
    requires t in flights && flights[t].answered && flights[t].batch != []
    ensures Ledger(parses, table', log, flights - {t}, rows', acknowledged', carried)
    ensures Seen(log, rows', engine, seen, base)
    ensures rows' == rows - Acked(seen, flights[t].destination, LastSeq(flights[t]))
    ensures acknowledged' == acknowledged + Numbers(flights[t].batch)
  {
    var f := flights[t];
    FlightEnds(parses, table, log, flights, rows, acknowledged, carried, t);
    rows', acknowledged' := rows - Acked(seen, f.destination, LastSeq(f)), acknowledged + Numbers(f.batch);
    FlightCarries(log, rows, acknowledged, seen, f);
    AckTally(parses, log, acknowledged, carried, f);
    SeenStays(log, rows, engine, seen, base, log, rows');
    table' := AckRows(table, engine, f.destination, LastSeq(f), Numbers(f.batch), log, flights - {t}, rows,
                      acknowledged, seen, base);
  }

  // ---------------------------------------------------------------- the shard and its worker

  class Outbox {
    const parses: Edu -> bool
    /** The rows with everything the current apply call has staged, and as scans see them. */
    var table: map<Bytes, Edu>
    var engine: map<Bytes, Edu>
    var seqNo: nat
    var flights: map<nat, Flight>
    ghost var log: Log
    ghost var rows: Rows
    ghost var seen: Rows
    ghost var base: nat
    ghost var acknowledged: set<nat>
    ghost var carried: set<nat>

    ghost predicate Valid()
      reads this
    {
      && seqNo == |log| && Ledger(parses, table, log, flights, rows, acknowledged, carried)
      && Seen(log, rows, engine, seen, base)
    }

    constructor (parses: Edu -> bool)
      ensures Valid() && this.parses == parses && log == [] && acknowledged == {} && carried == {}
      ensures flights == map[] && rows == map[] && seen == map[]
    {
      this.parses := parses;
      table, engine, seqNo, flights := map[], map[], 0, map[];
      log, rows, seen, base, acknowledged, carried := [], map[], map[], 0, {}, {};
    }

    /** An apply call ends: what it staged is there to be seen. */
    method Commit()
      requires Valid()
      modifies this`engine, this`seen, this`base
      ensures Valid() && seen == rows && base == |log|
    {
      SeenAll(log, rows, table, acknowledged);
      engine, seen, base := table, rows, |log|;
    }

    /** Queue EDUs durably. */
    method EnqueueEdus(entries: seq<OutboundEdu>)
      requires Valid() && seqNo + |entries| <= U64_MAX
      requires forall i :: 0 <= i < |entries| ==> NulFree(entries[i].destination)
      modifies this`table, this`seqNo, this`rows, this`log
      ensures Valid() && log == old(log) + entries && Grown(old(rows), rows, |old(log)|, log)
    {
      var table', rows' := PutRows(table, seqNo, entries, log, flights, rows, acknowledged);
      SeenStays(log, rows, engine, seen, base, log + entries, rows');
      table, seqNo, rows, log := table', seqNo + |entries|, rows', log + entries;
    }

    /** The worker reads a batch for a destination and sends what parses of it. */
    method BeginSend(t: nat, d: Destination) returns (sent: bool)
      requires Valid() && NulFree(d) && t !in flights
      modifies this`flights
      ensures Valid() && (sent <==> Queue(seen, d) != [])
      ensures !sent ==> flights == old(flights)
      ensures sent ==> exists f :: flights == old(flights)[t := f] && f.destination == d && Takes(seen, f) &&
                                   !f.answered && f.body == Parsed(parses, f.batch)
    {
      var f := ReadFlight(parses, engine, d, log, rows, acknowledged, seen, base);
      sent := f.Some?;
      if sent {
        FlightStarts(parses, table, log, flights, rows, acknowledged, carried, t, f.value);
        flights := flights[t := f.value];
      }
    }

    /**
     * A transaction that the worker of another replica has read from its own rows: whatever log and
     * acknowledgements it knew, this replica has applied them before the ack arrives.
     */
    method Relay(t: nat, f: Flight)
      requires Valid() && t !in flights && FlightOk(log, acknowledged, f)
      requires f.body == Parsed(parses, f.batch) && !f.answered
      modifies this`flights
      ensures Valid() && flights == old(flights)[t := f]
    {
      FlightStarts(parses, table, log, flights, rows, acknowledged, carried, t, f);
      flights := flights[t := f];
    }

    /** The send came back: an answered transaction is kept to be acknowledged, a failed one is dropped. */
    method FinishSend(t: nat, ok: bool)
      requires Valid() && t in flights && !flights[t].answered
      modifies this`flights, this`carried
      ensures Valid()
      ensures ok ==> flights == old(flights)[t := old(flights)[t].(answered := true)]
      ensures ok ==> carried == old(carried) + Numbers(old(flights)[t].body)
      ensures !ok ==> flights == old(flights) - {t} && carried == old(carried)
    {
      if ok {
        NoteAnswer(t);
      } else {
        Drop(t);
      }
    }

    method NoteAnswer(t: nat)
      requires Valid() && t in flights
      modifies this`flights, this`carried
      ensures Valid() && flights == old(flights)[t := old(flights)[t].(answered := true)]
      ensures carried == old(carried) + Numbers(old(flights)[t].body)
    {
      FlightAnswered(parses, table, log, flights, rows, acknowledged, carried, t);
      carried, flights := carried + Numbers(flights[t].body), flights[t := flights[t].(answered := true)];
    }

    method Drop(t: nat)
      requires Valid() && t in flights
      modifies this`flights
      ensures Valid() && flights == old(flights) - {t}
    {
      FlightEnds(parses, table, log, flights, rows, acknowledged, carried, t);
      flights := flights - {t};
    }

    /** The ack of an answered transaction reaches the shard, however late. */
    method AckEdus(t: nat)
      requires Valid() && t in flights && flights[t].answered
      modifies this`table, this`flights, this`rows, this`acknowledged
      ensures Valid() && flights == old(flights) - {t}
      ensures acknowledged == old(acknowledged) + Numbers(old(flights)[t].batch)
      ensures rows == old(rows) - Acked(seen, old(flights)[t].destination, LastSeq(old(flights)[t]))
    {
      var table', rows', acknowledged' :=
        AckFlight(parses, table, engine, flights, t, log, rows, acknowledged, carried, seen, base);
      table, rows, acknowledged, flights := table', rows', acknowledged', flights - {t};
    }

    /** Or it never does: the rows stay, to be sent again. */
    method LoseAck(t: nat)
      requires Valid() && t in flights && flights[t].answered
      modifies this`flights
      ensures Valid() && flights == old(flights) - {t}
    {
      Drop(t);
    }
  }

  lemma OnlyRow(edu: OutboundEdu, rows: Rows)
    requires Books([edu], rows, {})
    ensures Queue(rows, edu.destination) == [(edu.destination, 1)]
  {
    var r: RowId, q := (edu.destination, 1), Queue(rows, edu.destination);
    assert forall x: RowId :: IsRow([edu], x) <==> x == r;
    BooksFit([edu], rows, {});
    QueueLists(rows, 1, edu.destination);
    DistinctCount(q);
    assert r in q && Members(q) == {r};
  }

  lemma TakenWhole(rows: Rows, f: Flight)
    requires Takes(rows, f) && Queue(rows, f.destination) == [(f.destination, 1)]
    ensures f.batch != [] && LastSeq(f) == 1 && Numbers(f.batch) == {1}
  {
    assert f.batch[0].0 == 1 && f.batch == [f.batch[0]];
  }

  lemma OneGrown(edu: OutboundEdu, rows: Rows)
    requires Grown(map[], rows, 0, [edu])
    ensures rows.Keys == {(edu.destination, 1)}
  {
    assert forall x: RowId :: IsRow([edu], x) <==> x == (edu.destination, 1);
  }

  /** A queue of one EDU, its enqueue still staged. */
  method QueueOne(parses: Edu -> bool, edu: OutboundEdu) returns (w: Outbox)
    requires NulFree(edu.destination)
    ensures fresh(w) && w.Valid() && w.parses == parses && w.log == [edu] && w.acknowledged == {}
    ensures w.flights == map[] && w.carried == {} && w.rows.Keys == {(edu.destination, 1)} && w.seen == map[]
  {
    w := new Outbox(parses);
    w.EnqueueEdus([edu]);
    OneGrown(edu, w.rows);
  }

  /** A transaction on its way with the one EDU there is. */
  ghost predicate Single(parses: Edu -> bool, edu: OutboundEdu, f: Flight) {
    && FlightOk([edu], {}, f) && f.destination == edu.destination && LastSeq(f) == 1 && Numbers(f.batch) == {1}
    && f.body == Parsed(parses, f.batch) && !f.answered
  }

  /** The enqueue is committed and the EDU sent. */
  method SendOne(w: Outbox, edu: OutboundEdu)
    requires w.Valid() && w.log == [edu] && w.flights == map[] && w.acknowledged == {} && NulFree(edu.destination)
    modifies w`flights, w`engine, w`seen, w`base
    ensures w.Valid() && w.seen == w.rows && 0 in w.flights
    ensures Single(w.parses, edu, w.flights[0])
  {
    OnlyRow(edu, w.rows);
    w.Commit();
    var sent := w.BeginSend(0, edu.destination);
    TakenWhole(w.seen, w.flights[0]);
  }

  /** Its transaction is answered and acknowledged, and the apply call ends. */
  method AckOne(w: Outbox)
    requires w.Valid() && 0 in w.flights && !w.flights[0].answered && w.flights[0].batch != []
    modifies w
    ensures w.Valid() && w.log == old(w.log)
    ensures w.acknowledged == old(w.acknowledged) + Numbers(old(w.flights)[0].batch)
    ensures w.carried == old(w.carried) + Numbers(old(w.flights)[0].body)
    ensures w.rows == old(w.rows) - Acked(old(w.seen), old(w.flights)[0].destination, LastSeq(old(w.flights)[0]))
    ensures w.seen == w.rows
  {
    w.FinishSend(0, true);
    w.AckEdus(0);
    w.Commit();
  }

  lemma AckedOne(rows: Rows, d: Destination)
    requires rows.Keys == {(d, 1)}
    ensures rows - Acked(rows, d, 1) == map[]
    ensures rows - Acked(map[], d, 1) == rows
  {
    AckedMeaning(rows, d, 1);
    assert (d, 1) in Acked(rows, d, 1);
  }

  /** An enqueue and its ack, applied in calls of their own: the row goes. */
  method AppliedApart(parses: Edu -> bool, edu: OutboundEdu) returns (w: Outbox, f: Flight)
    requires NulFree(edu.destination)
    ensures w.Valid() && w.parses == parses && w.log == [edu] && w.acknowledged == {1} && w.seen == map[]
    ensures Single(parses, edu, f) && w.carried == Numbers(f.body)
  {
    w := QueueOne(parses, edu);
    AckedOne(w.rows, edu.destination);
    SendOne(w, edu);
    f := w.flights[0];
    AckOne(w);
  }

  /** The same two applied in one call: the row stays. */
  method AppliedTogether(parses: Edu -> bool, edu: OutboundEdu, f: Flight) returns (w: Outbox)
    requires NulFree(edu.destination) && Single(parses, edu, f)
    ensures w.Valid() && w.log == [edu] && w.acknowledged == {1} && w.seen.Keys == {(edu.destination, 1)}
  {
    w := QueueOne(parses, edu);
    AckedOne(w.rows, edu.destination);
    w.Relay(0, f);
    AckOne(w);
  }

  /** An EDU that does not parse is acknowledged without being carried. */
  method UnparsedIsLost(parses: Edu -> bool, edu: OutboundEdu) returns (w: Outbox)
    requires NulFree(edu.destination) && !parses(edu.json)
    ensures w.Valid() && w.log == [edu] && w.acknowledged == {1} && 1 !in w.carried && w.seen == map[]
  {
    var f: Flight;
    w, f := AppliedApart(parses, edu);
  }

  /** Two replicas of one log that have acknowledged the same EDUs, and only one of them still has the row. */
  method StagedAckStays(parses: Edu -> bool, edu: OutboundEdu) returns (v: Outbox, w: Outbox)
    requires NulFree(edu.destination)
    ensures v.Valid() && w.Valid() && v.log == [edu] == w.log && v.acknowledged == {1} == w.acknowledged
    ensures v.seen == map[] && w.seen.Keys == {(edu.destination, 1)}
  {
    var f: Flight;
    v, f := AppliedApart(parses, edu);
    w := AppliedTogether(parses, edu, f);
  }
}
