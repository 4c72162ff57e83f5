/** The table file: header, records, Bloom filter, index; written, opened and searched. */
module SSTable {
  import opened Commands
  import opened Tables
  import opened ByteForms
  import opened Frames
  import opened Bloom

  const TABLE_HEADER: nat := 45
  const MAGIC: Bytes := [83, 83, 84, 49]
  const VERSION: Byte := 2

  /** The libraries the format relies on, and the filter dimensions a table is built with. */
  datatype Setting = Setting(text: Text, hash: Hash, numBits: nat, numHashes: nat)

  // ---------------------------------------------------------------- records

  function EntryBytes(t: Text, e: Entry): Bytes { if e.Put? then ValueBytes(t, e.value) else [] }

  function RecordHead(t: Text, r: Record): (b: Bytes)
    ensures |b| == 10
  {
    [if r.entry.Put? then 0 else 1, if r.entry.Put? then KindOf(r.entry.value) else 0]
    + Le(|r.key|, 4) + Le(|EntryBytes(t, r.entry)|, 4)
  }

  function EncodeRecord(t: Text, r: Record): Bytes { RecordHead(t, r) + r.key + EntryBytes(t, r.entry) }

  function ParseRecord(t: Text, b: Bytes): (p: Parsed<Record>)
    ensures p.One? ==> 0 < p.size <= |b|
  {
    if |b| < 10 then End
    else
      var k, v := LeValue(b[2..6]), LeValue(b[6..10]);
      if |b| < 10 + k || !t.utf8(b[10..10 + k]) then Damaged
      else if b[0] == 0 then
        if |b| < 10 + k + v then Damaged
        else
          var value := ParseValue(t, b[1], b[10 + k..10 + k + v]);
          if value.Some? then One(Record(b[10..10 + k], Put(value.value)), 10 + k + v) else Damaged
      else if b[0] == 1 && v == 0 then One(Record(b[10..10 + k], Tombstone), 10 + k)
      else Damaged
  }

  /** What the writer accepts: strings are UTF-8, integers 64 bits, lengths 32 bits. */
  predicate Writable(t: Text, r: Record) {
    && t.utf8(r.key) && (r.entry.Put? ==> ValidValue(t, r.entry.value))
    && |r.key| < Pow256(4) && |EntryBytes(t, r.entry)| < Pow256(4)
  }

  lemma RecordHeadFields(t: Text, r: Record)
    ensures var h := RecordHead(t, r);
            && h[0] == (if r.entry.Put? then 0 else 1) && h[1] == (if r.entry.Put? then KindOf(r.entry.value) else 0)
            && h[2..6] == Le(|r.key|, 4) && h[6..10] == Le(|EntryBytes(t, r.entry)|, 4)
  {
    hide Le, EntryBytes;
  }

  lemma RecordBody(h: Bytes, k: Bytes, v: Bytes)
    requires |h| == 10
    ensures var b := h + k + v;
            && b[0] == h[0] && b[1] == h[1] && b[2..6] == h[2..6] && b[6..10] == h[6..10]
            && b[10..10 + |k|] == k && b[10 + |k|..10 + |k| + |v|] == v
  {}

  lemma RecordRoundTrip(t: Text, r: Record)
    requires Lawful(t) && Writable(t, r)
    ensures ParseRecord(t, EncodeRecord(t, r)) == One(r, |EncodeRecord(t, r)|)
  {
    hide Lawful, Le, LeValue, ParseValue, ValueBytes, RecordHead, Pow256, ValidValue;
    var v, b := EntryBytes(t, r.entry), EncodeRecord(t, r);
    RecordHeadFields(t, r);
    RecordBody(RecordHead(t, r), r.key, v);
    LeRoundTrip(|r.key|, 4);
    LeRoundTrip(|v|, 4);
    if r.entry.Put? { ValueRoundTripIff(t, r.entry.value); }
  }

  lemma RecordStable(t: Text, b: Bytes, more: Bytes)
    requires ParseRecord(t, b).One?
    ensures ParseRecord(t, b[..ParseRecord(t, b).size] + more) == ParseRecord(t, b)
  {
    hide LeValue, ParseValue;
    var size, k, v := ParseRecord(t, b).size, LeValue(b[2..6]), LeValue(b[6..10]);
    SliceStable(b, more, size, 2, 4);
    SliceStable(b, more, size, 6, 4);
    SliceStable(b, more, size, 10, k);
    if b[0] == 0 { SliceStable(b, more, size, 10 + k, v); }
  }

  function RecordReader(t: Text): Parser<Record> { b => ParseRecord(t, b) }

  function RecordWriter(t: Text): Record -> Bytes { r => EncodeRecord(t, r) }

  lemma RecordLaws(t: Text, rs: seq<Record>)
    requires Lawful(t) && forall i :: 0 <= i < |rs| ==> Writable(t, rs[i])
    ensures Stable(RecordReader(t)) && forall i :: 0 <= i < |rs| ==> RoundTrips(RecordReader(t), RecordWriter(t), rs[i])
  {
    hide Lawful, ParseRecord, Writable, RecordHead;
    forall i | 0 <= i < |rs| ensures RoundTrips(RecordReader(t), RecordWriter(t), rs[i]) {
      RecordRoundTrip(t, rs[i]);
      HeadIsTen(t, rs[i]);
    }
    forall b, more: Bytes | ParseRecord(t, b).One? && ParseRecord(t, b).size <= |b|
      ensures ParseRecord(t, b[..ParseRecord(t, b).size] + more) == ParseRecord(t, b)
    {
      RecordStable(t, b, more);
    }
  }

  lemma HeadIsTen(t: Text, r: Record)
    ensures |EncodeRecord(t, r)| >= 10
  {}

  // ---------------------------------------------------------------- the index

  datatype IndexEntry = IndexEntry(key: Key, offset: nat)

  function EncodeIndexEntry(e: IndexEntry): Bytes { Le(|e.key|, 4) + e.key + Le(e.offset, 8) }

  function ParseIndexEntry(t: Text, b: Bytes): (p: Parsed<IndexEntry>)
    ensures p.One? ==> 0 < p.size <= |b|
  {
    if |b| < 4 then Damaged
    else
      var k := LeValue(b[..4]);
      if |b| < 4 + k + 8 || !t.utf8(b[4..4 + k]) then Damaged
      else One(IndexEntry(b[4..4 + k], LeValue(b[4 + k..4 + k + 8])), 4 + k + 8)
  }

  predicate Indexable(t: Text, e: IndexEntry) { t.utf8(e.key) && |e.key| < Pow256(4) && e.offset < Pow256(8) }

  lemma IndexRoundTrip(t: Text, e: IndexEntry)
    requires Indexable(t, e)
    ensures ParseIndexEntry(t, EncodeIndexEntry(e)) == One(e, |EncodeIndexEntry(e)|)
  {
    hide Le, LeValue, Pow256;
    var b, k := EncodeIndexEntry(e), |e.key|;
    assert b[..4] == Le(k, 4) && b[4..4 + k] == e.key && b[4 + k..4 + k + 8] == Le(e.offset, 8);
    LeRoundTrip(k, 4);
    LeRoundTrip(e.offset, 8);
  }

  lemma IndexStable(t: Text, b: Bytes, more: Bytes)
    requires ParseIndexEntry(t, b).One?
    ensures ParseIndexEntry(t, b[..ParseIndexEntry(t, b).size] + more) == ParseIndexEntry(t, b)
  {
    hide LeValue;
    var size, k := ParseIndexEntry(t, b).size, LeValue(b[..4]);
    SliceStable(b, more, size, 0, 4);
    SliceStable(b, more, size, 4, k);
    SliceStable(b, more, size, 4 + k, 8);
  }

  function IndexReader(t: Text): Parser<IndexEntry> { b => ParseIndexEntry(t, b) }

  function IndexWriter(): IndexEntry -> Bytes { e => EncodeIndexEntry(e) }

  lemma IndexLaws(t: Text, es: seq<IndexEntry>)
    requires forall i :: 0 <= i < |es| ==> Indexable(t, es[i])
    ensures Stable(IndexReader(t)) && forall i :: 0 <= i < |es| ==> RoundTrips(IndexReader(t), IndexWriter(), es[i])
  {
    hide ParseIndexEntry, Indexable, Le;
    forall i | 0 <= i < |es| ensures RoundTrips(IndexReader(t), IndexWriter(), es[i]) {
      IndexRoundTrip(t, es[i]);
    }
    forall b, more: Bytes | ParseIndexEntry(t, b).One? && ParseIndexEntry(t, b).size <= |b|
      ensures ParseIndexEntry(t, b[..ParseIndexEntry(t, b).size] + more) == ParseIndexEntry(t, b)
    {
      IndexStable(t, b, more);
    }
  }

  predicate IndexSorted(es: seq<IndexEntry>) {
    forall i, j :: 0 <= i < j < |es| ==> Less(es[i].key, es[j].key)
  }

  /** What looking a key up in the index should give: the offset filed under it. */
  function IndexFind(es: seq<IndexEntry>, k: Key): Option<nat> {
    if |es| == 0 then None
    else if es[0].key == k then Some(es[0].offset)
    else IndexFind(es[1..], k)
  }

  lemma {:induction false} IndexFindAt(es: seq<IndexEntry>, k: Key, i: nat)
    requires i < |es| && es[i].key == k && forall j :: 0 <= j < i ==> es[j].key != k
    ensures IndexFind(es, k) == Some(es[i].offset)
  {
    if i > 0 { IndexFindAt(es[1..], k, i - 1); }
  }

  lemma {:induction false} IndexFindNone(es: seq<IndexEntry>, k: Key)
    requires forall j :: 0 <= j < |es| ==> es[j].key != k
    ensures IndexFind(es, k) == None
  {
    if |es| > 0 { IndexFindNone(es[1..], k); }
  }

  /** The binary search. */
  method FindOffset(es: seq<IndexEntry>, k: Key) returns (r: Option<nat>)
    requires IndexSorted(es)
    ensures r == IndexFind(es, k)
  {
    hide Less;
    var lo, hi := 0, |es|;
    while lo < hi
      invariant lo <= hi <= |es|
      invariant forall j :: 0 <= j < lo ==> Less(es[j].key, k)
      invariant forall j :: hi <= j < |es| ==> Less(k, es[j].key)
    {
      var mid := (lo + hi) / 2;
      if es[mid].key == k {
        forall j | 0 <= j < mid ensures es[j].key != k { LessIrreflexive(k); }
        IndexFindAt(es, k, mid);
        return Some(es[mid].offset);
      } else if Less(es[mid].key, k) {
        forall j | 0 <= j < mid ensures Less(es[j].key, k) { LessTrans(es[j].key, es[mid].key, k); }
        lo := mid + 1;
      } else {
        LessTotal(es[mid].key, k);
        forall j | mid < j < |es| ensures Less(k, es[j].key) { LessTrans(k, es[mid].key, es[j].key); }
        hi := mid;
      }
    }
    LessIrreflexive(k);
    IndexFindNone(es, k);
    r := None;
  }

  // ---------------------------------------------------------------- the header

  datatype Header = Header(indexOffset: nat, indexLen: nat, entryCount: nat, bloomOffset: nat, bloomLen: nat)

  function EncodeHeader(h: Header): (b: Bytes)
    ensures |b| == TABLE_HEADER
  {
    MAGIC + [VERSION] + Le(h.indexOffset, 8) + Le(h.indexLen, 8) + Le(h.entryCount, 8)
    + Le(h.bloomOffset, 8) + Le(h.bloomLen, 8)
  }

  function ParseHeader(b: Bytes): Option<Header> {
    if |b| < TABLE_HEADER || b[..4] != MAGIC || b[4] != VERSION then None
    else Some(Header(LeValue(b[5..13]), LeValue(b[13..21]), LeValue(b[21..29]), LeValue(b[29..37]), LeValue(b[37..45])))
  }

  predicate HeaderFits(h: Header) {
    && h.indexOffset < Pow256(8) && h.indexLen < Pow256(8) && h.entryCount < Pow256(8)
    && h.bloomOffset < Pow256(8) && h.bloomLen < Pow256(8)
  }

  lemma HeaderFields(h: Header, more: Bytes)
    ensures var b := EncodeHeader(h) + more;
            && b[..4] == MAGIC && b[4] == VERSION && b[5..13] == Le(h.indexOffset, 8) && b[13..21] == Le(h.indexLen, 8)
            && b[21..29] == Le(h.entryCount, 8) && b[29..37] == Le(h.bloomOffset, 8) && b[37..45] == Le(h.bloomLen, 8)
  {
    hide Le;
    var m, i, l, c, o, n := MAGIC + [VERSION], Le(h.indexOffset, 8), Le(h.indexLen, 8), Le(h.entryCount, 8),
                            Le(h.bloomOffset, 8), Le(h.bloomLen, 8);
    assert EncodeHeader(h) == m + i + l + c + o + n;
  }

  lemma HeaderRoundTrip(h: Header, more: Bytes)
    requires HeaderFits(h)
    ensures ParseHeader(EncodeHeader(h) + more) == Some(h)
  {
    hide Le, LeValue, EncodeHeader, Pow256;
    HeaderFields(h, more);
    LeRoundTrip(h.indexOffset, 8);
    LeRoundTrip(h.indexLen, 8);
    LeRoundTrip(h.entryCount, 8);
    LeRoundTrip(h.bloomOffset, 8);
    LeRoundTrip(h.bloomLen, 8);
  }

  // ---------------------------------------------------------------- the file

  function Keys(rs: seq<Record>): (ks: seq<Key>)
    ensures |ks| == |rs| && forall i :: 0 <= i < |rs| ==> ks[i] == rs[i].key
  {
    seq(|rs|, i requires 0 <= i < |rs| => rs[i].key)
  }

  /** Each record's key with the byte at which the record begins. */
  function IndexOf(t: Text, rs: seq<Record>): (es: seq<IndexEntry>)
    ensures |es| == |rs|
    ensures forall i :: 0 <= i < |rs| ==>
              es[i] == IndexEntry(rs[i].key, TABLE_HEADER + |Encoded(RecordWriter(t), rs[..i])|)
  {
    seq(|rs|, i requires 0 <= i < |rs| => IndexEntry(rs[i].key, TABLE_HEADER + |Encoded(RecordWriter(t), rs[..i])|))
  }

  function FilterOf(g: Setting, rs: seq<Record>): (f: Filter)
    requires g.numBits > 0
    ensures Valid(f) && f.numBits == g.numBits && f.numHashes == g.numHashes
  {
    InsertAll(g.hash, Cleared(g.numBits, g.numHashes), Keys(rs))
  }

  function HeaderOf(data: Bytes, bloom: Bytes, index: Bytes, count: nat): Header {
    Header(TABLE_HEADER + |data| + |bloom|, |index|, count, TABLE_HEADER + |data|, |bloom|)
  }

  /** The bytes of a finished table. */
  function FileOf(g: Setting, rs: seq<Record>): Bytes
    requires g.numBits > 0
  {
    var data, bloom := Encoded(RecordWriter(g.text), rs), ToBytes(FilterOf(g, rs));
    var index := Encoded(IndexWriter(), IndexOf(g.text, rs));
    EncodeHeader(HeaderOf(data, bloom, index, |rs|)) + data + bloom + index
  }

  // ---------------------------------------------------------------- opening and reading

  datatype Opened = Opened(index: seq<IndexEntry>, filter: Filter)

  function LoadFilter(b: Bytes): (r: Option<Filter>)
    ensures r.Some? ==> Valid(r.value)
  {
    var h := ParseHeader(b);
    if h.None? || h.value.bloomLen == 0 then None
    else
      var at, len := h.value.bloomOffset, h.value.bloomLen;
      if at + len >= Pow256(8) || at < TABLE_HEADER || at + len > |b| then None
      else FromBytes(b[at..at + len])
  }

  function LoadIndex(t: Text, b: Bytes): Option<seq<IndexEntry>> {
    var h := ParseHeader(b);
    if h.None? then None
    else
      var at, len := h.value.indexOffset, h.value.indexLen;
      if at + len >= Pow256(8) || at < TABLE_HEADER || at + len > |b| then None
      else
        var es := Take(IndexReader(t), b, at, h.value.entryCount);
        if es.Some? && es.value.1 == at + len && IndexSorted(es.value.0) then Some(es.value.0) else None
  }

  function OpenTable(t: Text, b: Bytes): (r: Option<Opened>)
    ensures r.Some? ==> Valid(r.value.filter)
  {
    var filter, index := LoadFilter(b), LoadIndex(t, b);
    if filter.Some? && index.Some? then Some(Opened(index.value, filter.value)) else None
  }

  /** What a lookup gives: an entry, none, or an error. */
  datatype Lookup = Found(entry: Entry) | Missing | Failed

  function ReadEntry(g: Setting, b: Bytes, o: Opened, k: Key): Lookup
    requires Valid(o.filter)
  {
    if !MayContain(g.hash, o.filter, k) then Missing
    else
      var at := IndexFind(o.index, k);
      if at.None? then Missing
      else if at.value > |b| then Missing
      else
        match ParseRecord(g.text, b[at.value..])
        case One(r, _) => Found(r.entry)
        case End => Missing
        case Damaged => Failed
  }

  // ---------------------------------------------------------------- the round trip

  /** Sorted records that the writer accepts, in a file short of 2^64 bytes, with usable filter dimensions. */
  ghost predicate Storable(g: Setting, rs: seq<Record>) {
    && Lawful(g.text) && g.numBits > 0 && 1 <= g.numHashes <= 100 && g.numBits < Pow256(8)
    && Sorted(rs) && |rs| < Pow256(8) && |FileOf(g, rs)| < Pow256(8)
    && forall i :: 0 <= i < |rs| ==> Writable(g.text, rs[i])
  }

  lemma SplitFile(h: Bytes, data: Bytes, bloom: Bytes, index: Bytes)
    ensures var b := h + data + bloom + index;
            && |b| == |h| + |data| + |bloom| + |index|
            && b == h + (data + bloom + index) && b == h + data + (bloom + index)
            && b[|h| + |data|..|h| + |data| + |bloom|] == bloom
            && b == (h + data + bloom) + index + []
  {}

  lemma Offsets(t: Text, rs: seq<Record>, i: nat)
    requires i < |rs|
    ensures |Encoded(RecordWriter(t), rs[..i])| <= |Encoded(RecordWriter(t), rs)|
  {
    assert rs[..i] + rs[i..] == rs;
    EncodedConcat(RecordWriter(t), rs[..i], rs[i..]);
  }

  lemma IndexIsGood(g: Setting, rs: seq<Record>)
    requires Storable(g, rs)
    ensures var es := IndexOf(g.text, rs);
            IndexSorted(es) && forall i :: 0 <= i < |es| ==> Indexable(g.text, es[i])
  {
    hide Lawful, Encoded, Less, FilterOf, ToBytes, Pow256, EntryBytes, ValidValue;
    var es := IndexOf(g.text, rs);
    forall i | 0 <= i < |es| ensures Indexable(g.text, es[i]) {
      Offsets(g.text, rs, i);
      assert Writable(g.text, rs[i]);
    }
  }

  lemma FilterFits(g: Setting, rs: seq<Record>)
    requires Storable(g, rs)
    ensures FromBytes(ToBytes(FilterOf(g, rs))) == Some(FilterOf(g, rs))
  {
    hide Lawful, Encoded, FilterOf, Writable, Sorted, FromBytes;
    var f := FilterOf(g, rs);
    EightBytes();
    FilterRoundTripIff(f);
  }

  lemma EightBytes()
    ensures Pow256(8) == U64
  {
    assert Pow256(2) == 0x1_0000 && Pow256(4) == 0x1_0000_0000 && Pow256(6) == 0x1_0000_0000_0000;
  }

  /** A written table opens, with the index and filter its writer built. */
  lemma WrittenOpens(g: Setting, rs: seq<Record>)
    requires Storable(g, rs)
    ensures OpenTable(g.text, FileOf(g, rs)) == Some(Opened(IndexOf(g.text, rs), FilterOf(g, rs)))
  {
    hide Lawful, Encoded, Writable, Sorted, FilterOf, FromBytes, EncodeHeader, ParseHeader, Take,
      IndexSorted, Pow256, Stable, RoundTrips, ParseIndexEntry, Indexable;
    var t, es := g.text, IndexOf(g.text, rs);
    var data, bloom, index := Encoded(RecordWriter(t), rs), ToBytes(FilterOf(g, rs)), Encoded(IndexWriter(), es);
    var h := HeaderOf(data, bloom, index, |rs|);
    SplitFile(EncodeHeader(h), data, bloom, index);
    HeaderRoundTrip(h, data + bloom + index);
    FilterFits(g, rs);
    IndexIsGood(g, rs);
    IndexLaws(t, es);
    TakeAll(IndexReader(t), IndexWriter(), es, EncodeHeader(h) + data + bloom, []);
  }

  /** A file is a table of this format only if it begins with the four letters SST1 and the version 2. */
  lemma HeaderAcceptedIff(b: Bytes)
    ensures ParseHeader(b).Some? <==>
            |b| >= 45 && b[0] == 83 && b[1] == 83 && b[2] == 84 && b[3] == 49 && b[4] == 2
  {
    hide LeValue;
    assert |b| >= 45 ==> b[..4] == [b[0], b[1], b[2], b[3]];
  }

  /** Whatever header is accepted, its bytes are exactly the form of what was read. */
  lemma AcceptedIsHeader(b: Bytes)
    requires ParseHeader(b).Some?
    ensures |b| >= TABLE_HEADER && b[..TABLE_HEADER] == EncodeHeader(ParseHeader(b).value)
  {
    hide Le, LeValue, Pow256;
    LeOfValue(b[5..13]);
    LeOfValue(b[13..21]);
    LeOfValue(b[21..29]);
    LeOfValue(b[29..37]);
    LeOfValue(b[37..45]);
    assert b[..45] == b[..4] + [b[4]] + b[5..13] + b[13..21] + b[21..29] + b[29..37] + b[37..45];
  }

  lemma AcceptedIsIndexEntry(t: Text, b: Bytes)
    requires ParseIndexEntry(t, b).One?
    ensures var p := ParseIndexEntry(t, b); b[..p.size] == EncodeIndexEntry(p.value) && Indexable(t, p.value)
  {
    hide Le, LeValue, Pow256;
    var k := LeValue(b[..4]);
    LeOfValue(b[..4]);
    LeOfValue(b[4 + k..4 + k + 8]);
    assert b[..4 + k + 8] == b[..4] + b[4..4 + k] + b[4 + k..4 + k + 8];
  }

  lemma {:induction false} TakenIsIndex(t: Text, b: Bytes, at: nat, n: nat)
    requires at <= |b| && Take(IndexReader(t), b, at, n).Some?
    ensures var (es, end) := Take(IndexReader(t), b, at, n).value;
            at <= end <= |b| && b[at..end] == Encoded(IndexWriter(), es)
    decreases n
  {
    hide ParseIndexEntry, EncodeIndexEntry, Indexable;
    if n > 0 {
      var p := ParseIndexEntry(t, b[at..]);
      AcceptedIsIndexEntry(t, b[at..]);
      TakenIsIndex(t, b, at + p.size, n - 1);
      var (es, end) := Take(IndexReader(t), b, at, n).value;
      assert b[at..end] == b[at..][..p.size] + b[at + p.size..end];
      assert es == [p.value] + es[1..];
    }
  }

  /**
    Whatever file opens as a table is laid out as one: its header, the filter and the index stand where the header
    says, in the writer's byte form; the filter is usable, and the index is sorted and as long as the header says.
  */
  lemma OpenedIsLaidOut(t: Text, b: Bytes)
    requires OpenTable(t, b).Some?
    ensures ParseHeader(b).Some? && |b| >= TABLE_HEADER
    ensures var o, h := OpenTable(t, b).value, ParseHeader(b).value;
            && b[..TABLE_HEADER] == EncodeHeader(h)
            && TABLE_HEADER <= h.bloomOffset && h.bloomOffset + h.bloomLen <= |b|
            && b[h.bloomOffset..h.bloomOffset + h.bloomLen] == ToBytes(o.filter) && 1 <= o.filter.numHashes <= 100
            && TABLE_HEADER <= h.indexOffset && h.indexOffset + h.indexLen <= |b|
            && b[h.indexOffset..h.indexOffset + h.indexLen] == Encoded(IndexWriter(), o.index)
            && |o.index| == h.entryCount && IndexSorted(o.index)
  {
    hide ParseHeader, EncodeHeader, FromBytes, ToBytes, Take, Encoded, IndexSorted, Pow256;
    var h := ParseHeader(b).value;
    AcceptedIsHeader(b);
    AcceptedIsFilter(b[h.bloomOffset..h.bloomOffset + h.bloomLen]);
    TakenIsIndex(t, b, h.indexOffset, h.entryCount);
  }

  /** A written table with one of its first five bytes changed is refused. */
  lemma WrongFormatRefused(g: Setting, rs: seq<Record>, i: nat, v: Byte)
    requires g.numBits > 0 && i < 5 && i < |FileOf(g, rs)| && v != FileOf(g, rs)[i]
    ensures OpenTable(g.text, FileOf(g, rs)[i := v]) == None
  {
    hide Encoded, FilterOf, EncodeHeader, ParseHeader, Take, FromBytes, IndexSorted, Pow256;
    var data, bloom := Encoded(RecordWriter(g.text), rs), ToBytes(FilterOf(g, rs));
    var index := Encoded(IndexWriter(), IndexOf(g.text, rs));
    var h, b := HeaderOf(data, bloom, index, |rs|), FileOf(g, rs);
    SplitFile(EncodeHeader(h), data, bloom, index);
    HeaderFields(h, data + bloom + index);
    assert b[i] == if i < 4 then MAGIC[i] else VERSION by { assert i < 4 ==> b[i] == b[..4][i]; }
    HeaderAcceptedIff(b[i := v]);
  }

  /** A written table that was cut short anywhere is refused: its index ends the file. */
  lemma CutTableRefused(g: Setting, rs: seq<Record>, cut: nat)
    requires Storable(g, rs) && cut < |FileOf(g, rs)|
    ensures OpenTable(g.text, FileOf(g, rs)[..cut]) == None
  {
    hide Lawful, Encoded, Writable, Sorted, FilterOf, EncodeHeader, ParseHeader, Take, FromBytes, IndexSorted, Pow256;
    var data, bloom := Encoded(RecordWriter(g.text), rs), ToBytes(FilterOf(g, rs));
    var index := Encoded(IndexWriter(), IndexOf(g.text, rs));
    var h, b := HeaderOf(data, bloom, index, |rs|), FileOf(g, rs);
    SplitFile(EncodeHeader(h), data, bloom, index);
    if cut < TABLE_HEADER {
      HeaderAcceptedIff(b[..cut]);
    } else {
      assert b[..cut] == EncodeHeader(h) + b[TABLE_HEADER..cut];
      HeaderRoundTrip(h, b[TABLE_HEADER..cut]);
    }
  }

  /**
    Looking a key up in a written and reopened table gives the entry the record list has for it, or none:
    the filter never hides a key, the index finds it, and its offset is the byte where its record begins.
  */
  lemma TableLookup(g: Setting, rs: seq<Record>, k: Key)
    requires Storable(g, rs)
    ensures var o := OpenTable(g.text, FileOf(g, rs));
            && o.Some?
            && ReadEntry(g, FileOf(g, rs), o.value, k) ==
               match Find(rs, k) case Some(e) => Found(e) case None => Missing
  {
    hide Storable, FileOf, OpenTable, IndexOf, FilterOf, MayContain, ParseRecord, Find, IndexFind;
    WrittenOpens(g, rs);
    FindHolds(rs, k);
    if Find(rs, k).Some? {
      var i :| 0 <= i < |rs| && rs[i].key == k;
      KeyIsFound(g, rs, i);
    } else {
      KeyIsMissing(g.text, rs, k);
    }
  }

  lemma KeyIsMissing(t: Text, rs: seq<Record>, k: Key)
    requires !Holds(rs, k)
    ensures IndexFind(IndexOf(t, rs), k) == None
  {
    hide Encoded;
    IndexFindNone(IndexOf(t, rs), k);
  }

  lemma KeyIsFound(g: Setting, rs: seq<Record>, i: nat)
    requires Storable(g, rs) && i < |rs|
    ensures var k, es, b := rs[i].key, IndexOf(g.text, rs), FileOf(g, rs);
            && Find(rs, k) == Some(rs[i].entry)
            && MayContain(g.hash, FilterOf(g, rs), k)
            && IndexFind(es, k) == Some(es[i].offset) && es[i].offset <= |b|
            && ParseRecord(g.text, b[es[i].offset..]).One?
            && ParseRecord(g.text, b[es[i].offset..]).value == rs[i]
  {
    hide Lawful, Encoded, Less, ToBytes, Pow256, Writable, EncodeHeader,
      MayContain, ParseRecord, Find, IndexFind, InsertAll, Stable, RoundTrips;
    FindAt(rs, i);
    NoFalseNegatives(g.hash, Cleared(g.numBits, g.numHashes), Keys(rs), i);
    UniqueKey(rs, i);
    IndexFindAt(IndexOf(g.text, rs), rs[i].key, i);
    RecordAt(g, rs, i);
  }

  lemma UniqueKey(rs: seq<Record>, i: nat)
    requires Sorted(rs) && i < |rs|
    ensures forall j :: 0 <= j < i ==> rs[j].key != rs[i].key
  {
    hide Less;
    LessIrreflexive(rs[i].key);
  }

  lemma RecordAt(g: Setting, rs: seq<Record>, i: nat)
    requires Storable(g, rs) && i < |rs|
    ensures var at, b := IndexOf(g.text, rs)[i].offset, FileOf(g, rs);
            at <= |b| && ParseRecord(g.text, b[at..]) == One(rs[i], |EncodeRecord(g.text, rs[i])|)
  {
    hide Lawful, Encoded, Sorted, ToBytes, Pow256, Writable, EncodeHeader,
      ParseRecord, FilterOf, Stable, RoundTrips, EncodeRecord;
    var t, es := g.text, IndexOf(g.text, rs);
    var data, bloom, index := Encoded(RecordWriter(t), rs), ToBytes(FilterOf(g, rs)), Encoded(IndexWriter(), es);
    var h := EncodeHeader(HeaderOf(data, bloom, index, |rs|));
    SplitFile(h, data, bloom, index);
    RecordLaws(t, rs);
    ReadAtStart(RecordReader(t), RecordWriter(t), rs, h, bloom + index, i);
  }

  /** Reading the file from its first record on gives the records, as a compaction's reader does. */
  lemma SequentialRead(g: Setting, rs: seq<Record>)
    requires Storable(g, rs)
    ensures var b := FileOf(g, rs);
            && TABLE_HEADER <= |b| && ParseHeader(b).Some? && ParseHeader(b).value.entryCount == |rs|
            && Take(RecordReader(g.text), b, TABLE_HEADER, |rs|).Some?
            && Take(RecordReader(g.text), b, TABLE_HEADER, |rs|).value.0 == rs
  {
    hide Lawful, Encoded, Sorted, ToBytes, Pow256, Writable, EncodeHeader,
      ParseHeader, ParseRecord, FilterOf, Stable, RoundTrips, Take;
    var t, es := g.text, IndexOf(g.text, rs);
    var data, bloom, index := Encoded(RecordWriter(t), rs), ToBytes(FilterOf(g, rs)), Encoded(IndexWriter(), es);
    var h := HeaderOf(data, bloom, index, |rs|);
    SplitFile(EncodeHeader(h), data, bloom, index);
    HeaderRoundTrip(h, data + bloom + index);
    RecordLaws(t, rs);
    TakeAll(RecordReader(t), RecordWriter(t), rs, EncodeHeader(h), bloom + index);
  }
}
