/**
 * The room shard's two timeline indexes: the journal of everything the shard emitted, keyed by
 * seq, and the per-room index of events, keyed by `room 0x00 seq`.
 */
module Timeline {
  import opened Wrappers
  import opened Orders
  import opened ByteKeys
  import opened Views

  type Id = Bytes
  type Room = Bytes

  datatype SeqEntry =
    | Event(room: Room, id: Id)
    | Receipt(room: Room, user: Bytes, kind: Bytes, id: Id, ts: nat)

  /** What subscribers of the change stream are told. */
  datatype Payload = EventChange(room: Room, id: Id) | ReceiptChange(room: Room)

  function PayloadOf(e: SeqEntry): Payload {
    match e
    case Event(room, id) => EventChange(room, id)
    case Receipt(room, _, _, _, _) => ReceiptChange(room)
  }

  // ---------------------------------------------------------------- the journal

  function SeqKey(): nat -> Bytes {
    (n: nat) => if n <= U64_MAX then U64(n) else []
  }

  function ByValue(): (nat, nat) -> bool {
    (m: nat, n: nat) => m < n
  }

  ghost predicate Within(n: nat, count: nat) {
    1 <= n <= count
  }

  /** The journal's rows: entry n of the log, from 1. */
  ghost function SeqRows(log: seq<SeqEntry>): map<nat, SeqEntry> {
    map n: nat | 1 <= n <= |log| && Within(n, |log|) :: log[n - 1]
  }

  ghost predicate Journals(log: seq<SeqEntry>, emitted: seq<Payload>, table: map<Bytes, SeqEntry>) {
    && |log| == |emitted| <= U64_MAX
    && (forall i :: 0 <= i < |log| ==> emitted[i] == PayloadOf(log[i]))
    && Encodes(table, SeqRows(log), SeqKey())
  }

  lemma SeqKeyInjective(s: set<nat>)
    requires forall n :: n in s ==> n <= U64_MAX
    ensures InjectiveOn(s, SeqKey())
  {
    forall m, n | m in s && n in s && SeqKey()(m) == SeqKey()(n) ensures m == n {
      U64Order(m, n);
    }
  }

  ghost predicate Bounded(rows: map<nat, SeqEntry>) {
    forall n :: n in rows ==> n <= U64_MAX
  }

  lemma SeqRowsGrow(log: seq<SeqEntry>, e: SeqEntry)
    ensures |log| <= U64_MAX ==> Bounded(SeqRows(log))
    ensures SeqRows(log + [e]) == SeqRows(log)[|log| + 1 := e]
  {
  }

  lemma SeqPut(table: map<Bytes, SeqEntry>, rows: map<nat, SeqEntry>, rows': map<nat, SeqEntry>, n: nat, e: SeqEntry)
    requires Encodes(table, rows, SeqKey()) && n <= U64_MAX && Bounded(rows) && rows' == rows[n := e]
    ensures Encodes(table[U64(n) := e], rows', SeqKey())
  {
    SeqKeyInjective(rows.Keys + {n});
    EncodesPut<nat, SeqEntry>(table, rows, SeqKey(), n, e);
  }

  lemma SeqTableGrows(log: seq<SeqEntry>, table: map<Bytes, SeqEntry>, e: SeqEntry)
    requires Encodes(table, SeqRows(log), SeqKey()) && |log| < U64_MAX
    ensures Encodes(table[U64(|log| + 1) := e], SeqRows(log + [e]), SeqKey())
  {
    SeqRowsGrow(log, e);
    SeqPut(table, SeqRows(log), SeqRows(log + [e]), |log| + 1, e);
  }

  lemma JournalGrows(log: seq<SeqEntry>, emitted: seq<Payload>, table: map<Bytes, SeqEntry>, e: SeqEntry)
    requires Journals(log, emitted, table) && |log| < U64_MAX
    ensures Journals(log + [e], emitted + [PayloadOf(e)], table[U64(|log| + 1) := e])
  {
    SeqTableGrows(log, table, e);
  }

  /** Entries from a seq on, each with its seq. */
  ghost function Entries<T>(log: seq<T>, lo: nat): seq<(nat, T)> {
    var first := if lo == 0 then 1 else lo;
    seq(if first <= |log| then |log| + 1 - first else 0,
        (i: nat) requires first - 1 + i < |log| => (first + i, log[first - 1 + i]))
  }

  function Take<T>(q: seq<T>, limit: nat): seq<T> {
    if |q| <= limit then q else q[..limit]
  }

  /** The seqs from one on. */
  ghost function Onwards(count: nat, lo: nat): seq<nat> {
    var first := if lo == 0 then 1 else lo;
    seq(if first <= count then count + 1 - first else 0, (i: nat) => first + i)
  }

  lemma IsListing<T(!new)>(less: (T, T) -> bool, s: set<T>, q: seq<T>)
    requires TotalOn(less, s) && Ascending(less, q) && Members(q) == s
    ensures q == Listing(less, s)
  {
    forall i, j | 0 <= i < j < |q| ensures q[i] != q[j] {
      assert less(q[i], q[j]) && q[i] in Members(q);
    }
    DistinctCount(q);
    ListingLists(less, s);
    ListingUnique(less, s, q, Listing(less, s));
  }

  lemma JournalScan(log: seq<SeqEntry>, table: map<Bytes, SeqEntry>, lo: nat)
    requires |log| <= U64_MAX && Encodes(table, SeqRows(log), SeqKey()) && lo <= U64_MAX
    ensures Range(table, U64(lo), None) == Keyed(SeqKey(), Onwards(|log|, lo))
  {
    var rows, key := SeqRows(log), SeqKey();
    var want := set n: nat | n in rows && lo <= n;
    assert TotalOn(ByValue(), want);
    forall n | n in rows ensures n in want <==> InBounds(key(n), U64(lo), None) {
      U64Order(n, lo);
    }
    forall m, n | m in want && n in want && ByValue()(m, n) ensures Less(key(m), key(n)) {
      U64Order(m, n);
    }
    assert Selects(rows, key, U64(lo), None, want, ByValue());
    RangeMeans(table, rows, key, U64(lo), None, want, ByValue());
    OnwardsMembers(|log|, lo);
    IsListing(ByValue(), want, Onwards(|log|, lo));
  }

  lemma OnwardsMembers(count: nat, lo: nat)
    ensures Ascending(ByValue(), Onwards(count, lo))
    ensures Members(Onwards(count, lo)) == set n: nat | 1 <= n <= count && Within(n, count) && lo <= n
  {
    var q, first := Onwards(count, lo), if lo == 0 then 1 else lo;
    forall n: nat | 1 <= n <= count && lo <= n ensures n in q {
      assert q[n - first] == n;
    }
  }

  lemma JournalKeys(log: seq<SeqEntry>, table: map<Bytes, SeqEntry>, n: nat)
    requires |log| <= U64_MAX && Encodes(table, SeqRows(log), SeqKey()) && 1 <= n <= |log|
    ensures SeqKey()(n) in table && table[SeqKey()(n)] == log[n - 1] && FromBigEndian(SeqKey()(n)) == n
  {
    U64Decodes(n);
    assert n in SeqRows(log);
  }

  /** Keys that show some entries, in order. */
  ghost predicate Shows<T>(table: map<Bytes, SeqEntry>, keys: seq<Bytes>, view: SeqEntry -> T, all: seq<(nat, T)>) {
    && |keys| == |all|
    && forall i :: 0 <= i < |keys| ==>
         keys[i] in table && FromBigEndian(keys[i]) == all[i].0 && view(table[keys[i]]) == all[i].1
  }

  /** Decode scanned rows up to a limit. */
  method DecodePage<T>(table: map<Bytes, SeqEntry>, keys: seq<Bytes>, limit: nat, view: SeqEntry -> T,
                       ghost all: seq<(nat, T)>)
    returns (out: seq<(nat, T)>)
    requires Shows(table, keys, view, all)
    ensures out == Take(all, limit)
  {
    out := [];
    for i := 0 to |keys|
      invariant |out| == (if i < limit then i else limit) && out == all[..|out|]
    {
      if |out| >= limit {
        break;
      }
      out := out + [(FromBigEndian(keys[i]), view(table[keys[i]]))];
    }
  }

  lemma EntriesShown(table: map<Bytes, SeqEntry>, log: seq<SeqEntry>, emitted: seq<Payload>, lo: nat)
    requires Journals(log, emitted, table) && lo <= U64_MAX
    ensures var keys := Range(table, U64(lo), None);
            Shows(table, keys, e => e, Entries(log, lo)) && Shows(table, keys, PayloadOf, Entries(emitted, lo))
  {
    JournalScan(log, table, lo);
    var ns := Onwards(|log|, lo);
    forall i | 0 <= i < |ns|
      ensures var k := SeqKey()(ns[i]); k in table && FromBigEndian(k) == ns[i] && table[k] == log[ns[i] - 1]
    {
      JournalKeys(log, table, ns[i]);
    }
  }

  /** The shard's timeline after a seq. */
  method ReadTimeline(table: map<Bytes, SeqEntry>, from: nat, limit: nat, ghost log: seq<SeqEntry>,
                      ghost emitted: seq<Payload>)
    returns (out: seq<(nat, SeqEntry)>)
    requires Journals(log, emitted, table) && from <= U64_MAX
    ensures out == Take(Entries(log, Successor(from)), limit)
  {
    var keys := ScanKeys(table, U64(Successor(from)), None);
    EntriesShown(table, log, emitted, Successor(from));
    out := DecodePage(table, keys, limit, e => e, Entries(log, Successor(from)));
  }

  /** What the change stream would have told a subscriber after a seq. */
  method Replay(table: map<Bytes, SeqEntry>, from: nat, limit: nat, ghost log: seq<SeqEntry>,
                ghost emitted: seq<Payload>)
    returns (out: seq<(nat, Payload)>)
    requires Journals(log, emitted, table) && from <= U64_MAX
    ensures out == Take(Entries(emitted, Successor(from)), limit)
  {
    var keys := ScanKeys(table, U64(Successor(from)), None);
    EntriesShown(table, log, emitted, Successor(from));
    out := DecodePage(table, keys, limit, PayloadOf, Entries(emitted, Successor(from)));
  }

  // ---------------------------------------------------------------- the per-room index

  ghost predicate IsRoomRow(log: seq<SeqEntry>, r: RowId) {
    1 <= r.1 <= |log| && log[r.1 - 1].Event? && log[r.1 - 1].room == r.0
  }

  /** The rows are exactly the events of the log. */
  ghost predicate RoomRows(log: seq<SeqEntry>, rows: map<RowId, Id>) {
    && |log| < U64_MAX
    && (forall i :: 0 <= i < |log| && log[i].Event? ==> NulFree(log[i].room))
    && (forall r: RowId :: r in rows <==> IsRoomRow(log, r))
    && (forall r: RowId :: r in rows ==> rows[r] == log[r.1 - 1].id)
  }

  /** The per-room index holds exactly the events of the log. */
  ghost predicate Indexes(log: seq<SeqEntry>, rows: map<RowId, Id>, table: map<Bytes, Id>) {
    RoomRows(log, rows) && Encodes(table, rows, RowKey())
  }

  lemma IndexFits(log: seq<SeqEntry>, rows: map<RowId, Id>)
    requires RoomRows(log, rows)
    ensures Fits(rows.Keys, |log|)
  {
  }

  lemma IndexTakesEvent(log: seq<SeqEntry>, rows: map<RowId, Id>, table: map<Bytes, Id>, room: Room, id: Id)
    requires Indexes(log, rows, table) && NulFree(room) && |log| + 1 < U64_MAX
    ensures Indexes(log + [Event(room, id)], rows[(room, |log| + 1) := id], table[NumberKey(room, |log| + 1) := id])
  {
    var r: RowId, log' := (room, |log| + 1), log + [Event(room, id)];
    forall q: RowId ensures IsRoomRow(log', q) <==> IsRoomRow(log, q) || q == r {
    }
    IndexFits(log, rows);
    RowKeyInjective(rows.Keys + {r}, |log| + 1);
    EncodesPut<RowId, Id>(table, rows, RowKey(), r, id);
  }

  lemma IndexTakesReceipt(log: seq<SeqEntry>, rows: map<RowId, Id>, table: map<Bytes, Id>, e: SeqEntry)
    requires Indexes(log, rows, table) && e.Receipt? && |log| + 1 < U64_MAX
    ensures Indexes(log + [e], rows, table)
  {
  }

  /** A stretch of the shard's timeline, filtered to one room's events up to a seq. */
  ghost function OnlyRoom(entries: seq<(nat, SeqEntry)>, room: Room, until: Option<nat>): seq<(nat, Id)> {
    if entries == [] then []
    else
      var (n, e) := entries[|entries| - 1];
      OnlyRoom(entries[..|entries| - 1], room, until) +
      (if e.Event? && e.room == room && (until.Some? ==> n <= until.value) then [(n, e.id)] else [])
  }

  /** Seqs rise along the entries. */
  ghost predicate Rising<T>(entries: seq<(nat, T)>) {
    forall i, j :: 0 <= i < j < |entries| ==> entries[i].0 < entries[j].0
  }

  /** The filtered stretch, item by item. */
  lemma {:induction false} OnlyRoomMeans(entries: seq<(nat, SeqEntry)>, room: Room, until: Option<nat>, n: nat, id: Id)
    ensures (n, id) in OnlyRoom(entries, room, until) <==>
            (n, Event(room, id)) in entries && (until.Some? ==> n <= until.value)
  {
    if entries != [] {
      var k := |entries| - 1;
      OnlyRoomMeans(entries[..k], room, until, n, id);
      var x := (n, Event(room, id));
      assert entries == entries[..k] + [entries[k]];
      assert x in entries <==> x in entries[..k] || x == entries[k];
    }
  }

  lemma {:induction false} OnlyRoomRises(entries: seq<(nat, SeqEntry)>, room: Room, until: Option<nat>)
    requires Rising(entries)
    ensures Rising(OnlyRoom(entries, room, until))
  {
    if entries != [] {
      var k := |entries| - 1;
      var front := OnlyRoom(entries[..k], room, until);
      OnlyRoomRises(entries[..k], room, until);
      forall i | 0 <= i < |front| ensures front[i].0 < entries[k].0 {
        OnlyRoomMeans(entries[..k], room, until, front[i].0, front[i].1);
        assert front[i] in front;
        var j :| 0 <= j < k && entries[..k][j] == (front[i].0, Event(room, front[i].1));
      }
    }
  }

  /** One room's events with seqs in (after, until]: the shard's timeline after a seq, filtered. */
  ghost function Window(log: seq<SeqEntry>, room: Room, after: nat, until: Option<nat>): seq<(nat, Id)> {
    OnlyRoom(Entries(log, after + 1), room, until)
  }

  lemma WindowMeans(log: seq<SeqEntry>, room: Room, after: nat, until: Option<nat>, n: nat, id: Id)
    ensures (n, id) in Window(log, room, after, until) <==>
            after < n <= |log| && log[n - 1] == Event(room, id) && (until.Some? ==> n <= until.value)
  {
    var entries := Entries(log, after + 1);
    OnlyRoomMeans(entries, room, until, n, id);
    if after < n <= |log| && log[n - 1] == Event(room, id) {
      assert entries[n - after - 1] == (n, Event(room, id));
    }
  }

  lemma WindowRises(log: seq<SeqEntry>, room: Room, after: nat, until: Option<nat>)
    ensures Rising(Window(log, room, after, until))
  {
    OnlyRoomRises(Entries(log, after + 1), room, until);
  }

  ghost function RowsOf(room: Room, window: seq<(nat, Id)>): seq<RowId> {
    seq(|window|, (i: nat) requires i < |window| => (room, window[i].0))
  }

  /** The first seq a scan after `after` looks at. */
  function Above(after: nat): nat {
    if after < U64_MAX then after + 1 else U64_MAX
  }

  /** The first seq beyond a window. */
  function Beyond(until: Option<nat>): nat {
    if until.Some? then until.value + 1 else U64_MAX + 1
  }

  lemma WindowHasRow(log: seq<SeqEntry>, rows: map<RowId, Id>, room: Room, after: nat, until: Option<nat>, r: RowId)
    requires RoomRows(log, rows) && after <= U64_MAX
    ensures r in Stretch(rows, room, Above(after), Beyond(until)) <==>
            r in rows && r.0 == room && (r.1, rows[r]) in Window(log, room, after, until)
  {
    assert r in rows <==> IsRoomRow(log, r);
    if r in rows {
      WindowMeans(log, room, after, until, r.1, rows[r]);
    }
  }

  lemma WindowItem(log: seq<SeqEntry>, rows: map<RowId, Id>, room: Room, after: nat, until: Option<nat>, item: (nat,
                   Id))
    requires RoomRows(log, rows) && item in Window(log, room, after, until)
    ensures item.0 <= U64_MAX && (room, item.0) in rows && rows[(room, item.0)] == item.1
  {
    WindowMeans(log, room, after, until, item.0, item.1);
    assert IsRoomRow(log, (room, item.0));
  }

  /** The rows of a room in key range are the window. */
  lemma WindowLists(log: seq<SeqEntry>, rows: map<RowId, Id>, room: Room, after: nat, until: Option<nat>)
    requires RoomRows(log, rows) && after <= U64_MAX
    ensures Members(RowsOf(room, Window(log, room, after, until))) == Stretch(rows, room, Above(after), Beyond(until))
  {
    var w := Window(log, room, after, until);
    var q, want := RowsOf(room, w), Stretch(rows, room, Above(after), Beyond(until));
    forall r | r in want ensures r in q {
      WindowHasRow(log, rows, room, after, until, r);
      var i :| 0 <= i < |w| && w[i] == (r.1, rows[r]);
      assert q[i] == r;
    }
    forall r | r in q ensures r in want {
      var i :| 0 <= i < |q| && q[i] == r;
      assert w[i] in w;
      WindowItem(log, rows, room, after, until, w[i]);
      WindowHasRow(log, rows, room, after, until, r);
    }
  }

  /** Scanned keys that show a window. */
  ghost predicate ShowsRoom(table: map<Bytes, Id>, keys: seq<Bytes>, window: seq<(nat, Id)>) {
    |keys| == |window| && forall i :: 0 <= i < |keys| ==> ShowsItem(table, keys[i], window[i])
  }

  ghost predicate ShowsItem(table: map<Bytes, Id>, k: Bytes, item: (nat, Id)) {
    k in table && table[k] == item.1 && |k| >= 8 && SeqOf(k) == item.0
  }

  lemma RowShown(rows: map<RowId, Id>, table: map<Bytes, Id>, r: RowId)
    requires Encodes(table, rows, RowKey()) && r in rows && r.1 <= U64_MAX
    ensures ShowsItem(table, RowKey()(r), (r.1, rows[r]))
  {
    RowKeyDecodes(r);
  }

  lemma RowsShown(log: seq<SeqEntry>, rows: map<RowId, Id>, table: map<Bytes, Id>, room: Room, after: nat,
                  until: Option<nat>)
    requires Indexes(log, rows, table)
    ensures var w := Window(log, room, after, until); ShowsRoom(table, Keyed(RowKey(), RowsOf(room, w)), w)
  {
    var w := Window(log, room, after, until);
    var keys := Keyed(RowKey(), RowsOf(room, w));
    forall i | 0 <= i < |w| ensures ShowsItem(table, keys[i], w[i]) {
      assert w[i] in w;
      WindowItem(log, rows, room, after, until, w[i]);
      RowShown(rows, table, (room, w[i].0));
    }
  }

  lemma WindowShown(log: seq<SeqEntry>, rows: map<RowId, Id>, table: map<Bytes, Id>, room: Room, after: nat,
                    until: Option<nat>,
                    start: Bytes, end: Bytes)
    requires Indexes(log, rows, table) && NulFree(room) && after <= U64_MAX
    requires LowerBound(room, start, Above(after)) && UpperBound(room, end, Beyond(until))
    ensures ShowsRoom(table, Range(table, start, Some(end)), Window(log, room, after, until))
  {
    var w := Window(log, room, after, until);
    IndexFits(log, rows);
    NameScan(table, rows, |log|, room, start, Above(after), end, Beyond(until));
    WindowRises(log, room, after, until);
    WindowLists(log, rows, room, after, until);
    IsListing(ByNumber(), Stretch(rows, room, Above(after), Beyond(until)), RowsOf(room, w));
    RowsShown(log, rows, table, room, after, until);
  }

  function Reversed<T>(q: seq<T>): seq<T> {
    seq(|q|, (i: nat) requires i < |q| => q[|q| - 1 - i])
  }

  lemma ShownReversed(table: map<Bytes, Id>, keys: seq<Bytes>, window: seq<(nat, Id)>)
    requires ShowsRoom(table, keys, window)
    ensures ShowsRoom(table, Reversed(keys), Reversed(window))
  {
  }

  /** Decode scanned rows up to a limit. */
  method DecodeRoomPage(table: map<Bytes, Id>, keys: seq<Bytes>, limit: nat, ghost window: seq<(nat, Id)>)
    returns (out: seq<(nat, Id)>)
    requires ShowsRoom(table, keys, window)
    ensures out == Take(window, limit)
  {
    out := [];
    for i := 0 to |keys|
      invariant |out| == (if i < limit then i else limit) && out == window[..|out|]
    {
      if |out| >= limit {
        break;
      }
      assert ShowsItem(table, keys[i], window[i]);
      out := out + [(SeqOf(keys[i]), table[keys[i]])];
    }
  }

  /** A page of one room's events, through the byte keys. */
  method RoomTimeline(table: map<Bytes, Id>, room: Room, after: nat, until: Option<nat>, limit: nat, newestFirst: bool,
                      ghost log: seq<SeqEntry>, ghost rows: map<RowId, Id>)
    returns (out: seq<(nat, Id)>)
    requires Indexes(log, rows, table) && NulFree(room) && after <= U64_MAX
    requires until.Some? ==> until.value <= U64_MAX
    ensures var window := Window(log, room, after, until);
            out == Take(if newestFirst then Reversed(window) else window, limit)
  {
    var start := NumberKey(room, Above(after));
    var end := if until.Some? && until.value < U64_MAX then NumberKey(room, until.value + 1) else NameEnd(room);
    WindowShown(log, rows, table, room, after, until, start, end);
    var keys := ScanKeys(table, start, Some(end));
    ghost var window := Window(log, room, after, until);
    ShownReversed(table, keys, window);
    out := DecodeRoomPage(table, if newestFirst then Reversed(keys) else keys, limit,
                          if newestFirst then Reversed(window) else window);
  }

  // ---------------------------------------------------------------- emitting

  /** Both indexes agree with the log. */
  ghost predicate Agree(log: seq<SeqEntry>, emitted: seq<Payload>, rows: map<RowId, Id>,
                        journal: map<Bytes, SeqEntry>, index: map<Bytes, Id>)
  {
    Journals(log, emitted, journal) && Indexes(log, rows, index)
  }

  /** Emit an event: a row of the journal and a row of its room's index. */
  method EmitEvent(journal: map<Bytes, SeqEntry>, index: map<Bytes, Id>, n: nat, room: Room, id: Id,
                   ghost log: seq<SeqEntry>, ghost emitted: seq<Payload>, ghost rows: map<RowId, Id>)
    returns (journal': map<Bytes, SeqEntry>, index': map<Bytes, Id>, ghost rows': map<RowId, Id>)
    requires Agree(log, emitted, rows, journal, index) && n == |log| + 1 < U64_MAX && NulFree(room)
    ensures Agree(log + [Event(room, id)], emitted + [EventChange(room, id)], rows', journal', index')
  {
    JournalGrows(log, emitted, journal, Event(room, id));
    IndexTakesEvent(log, rows, index, room, id);
    journal', index' := journal[U64(n) := Event(room, id)], index[NumberKey(room, n) := id];
    rows' := rows[(room, n) := id];
  }

  /** Emit a receipt: a row of the journal alone. */
  method EmitReceipt(journal: map<Bytes, SeqEntry>, n: nat, e: SeqEntry, ghost log: seq<SeqEntry>,
                     ghost emitted: seq<Payload>, ghost rows: map<RowId, Id>, ghost index: map<Bytes, Id>)
    returns (journal': map<Bytes, SeqEntry>)
    requires Agree(log, emitted, rows, journal, index) && n == |log| + 1 < U64_MAX && e.Receipt?
    ensures Agree(log + [e], emitted + [ReceiptChange(e.room)], rows, journal', index)
  {
    JournalGrows(log, emitted, journal, e);
    IndexTakesReceipt(log, rows, index, e);
    journal' := journal[U64(n) := e];
  }
}
