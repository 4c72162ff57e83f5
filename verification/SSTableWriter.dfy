/** The table writers as the program runs them, proved to produce exactly the file of `SSTable.FileOf`. */
module SSTableWriter {
  import opened Commands
  import opened Tables
  import opened ByteForms
  import opened Frames
  import opened Bloom
  import opened SSTable

  datatype Written = Ok | NotSorted | TooLarge

  const EMPTY_HEADER := Header(0, 0, 0, 0, 0)

  lemma OneMoreRecord(g: Setting, rs: seq<Record>, r: Record)
    requires g.numBits > 0
    ensures Encoded(RecordWriter(g.text), rs + [r]) == Encoded(RecordWriter(g.text), rs) + EncodeRecord(g.text, r)
    ensures IndexOf(g.text, rs + [r]) ==
            IndexOf(g.text, rs) + [IndexEntry(r.key, TABLE_HEADER + |Encoded(RecordWriter(g.text), rs)|)]
    ensures FilterOf(g, rs + [r]) == Insert(g.hash, FilterOf(g, rs), r.key, g.numHashes)
  {
    hide Encoded, EncodeRecord, Insert;
    EncodedSnoc(RecordWriter(g.text), rs, r);
    assert forall i :: 0 <= i < |rs| ==> (rs + [r])[..i] == rs[..i];
    assert (rs + [r])[..|rs|] == rs;
    assert Keys(rs + [r])[..|rs|] == Keys(rs);
  }

  class StreamingWriter {
    const setting: Setting
    const filter: BloomFilter
    var file: Bytes
    var index: seq<IndexEntry>
    var offset: nat
    ghost var records: seq<Record>

    ghost predicate Valid()
      reads this, filter
    {
      && setting.numBits > 0 && filter.hash == setting.hash && filter.numHashes == setting.numHashes
      && file == EncodeHeader(EMPTY_HEADER) + Encoded(RecordWriter(setting.text), records)
      && index == IndexOf(setting.text, records)
      && filter.View() == FilterOf(setting, records)
      && offset == |file|
    }

    constructor Create(g: Setting)
      requires g.numBits > 0
      ensures Valid() && setting == g && records == [] && fresh(filter)
    {
      setting := g;
      filter := new BloomFilter(g.hash, g.numBits, g.numHashes);
      file := EncodeHeader(EMPTY_HEADER);
      index, offset, records := [], TABLE_HEADER, [];
    }

    /** A record that the format can hold is appended, indexed at the byte where it begins, and put in the filter. */
    method Add(r: Record) returns (w: Written)
      requires Valid()
      modifies this, filter
      ensures Valid() && w == (if |r.key| < Pow256(4) && |EntryBytes(setting.text, r.entry)| < Pow256(4) then Ok
                               else TooLarge)
      ensures records == old(records) + if w == Ok then [r] else []
    {
      hide Encoded, EncodeRecord, Insert, IndexOf, FilterOf, EncodeHeader, Pow256, Le, ValueBytes;
      if |r.key| >= Pow256(4) || |EntryBytes(setting.text, r.entry)| >= Pow256(4) {
        return TooLarge;
      }
      OneMoreRecord(setting, records, r);
      var bytes := EncodeRecord(setting.text, r);
      file := file + bytes;
      index := index + [IndexEntry(r.key, offset)];
      filter.Add(r.key);
      offset := offset + |bytes|;
      records := records + [r];
      w := Ok;
    }

    /** The streaming writer refuses keys that do not ascend. */
    method WriteEntry(r: Record) returns (w: Written)
      requires Valid()
      modifies this, filter
      ensures Valid() && (old(Sorted(records)) ==> Sorted(records))
      ensures w == NotSorted <==> |old(records)| > 0 && !Less(old(records)[|old(records)| - 1].key, r.key)
      ensures records == old(records) + if w == Ok then [r] else []
    {
      hide Encoded, EncodeRecord, FilterOf, Less, Sorted;
      assert |index| > 0 ==> index[|index| - 1].key == records[|records| - 1].key;
      if |index| > 0 && !Less(index[|index| - 1].key, r.key) {
        return NotSorted;
      }
      if Sorted(records) { SortedSnoc(records, r); }
      w := Add(r);
      assert old(records) + [] == old(records);
    }

    /** Filter and index are appended and the header is filled in. */
    method Finish() returns (table: Bytes, entries: seq<IndexEntry>)
      requires Valid()
      ensures table == FileOf(setting, records) && entries == IndexOf(setting.text, records)
    {
      hide Encoded, FilterOf, IndexOf, EncodeHeader, Le;
      var bloomOffset := offset;
      var bloom := ToBytes(filter.View());
      var indexOffset := offset + |bloom|;
      var indexBytes := EncodeIndex();
      var header := Header(indexOffset, |indexBytes|, |index|, bloomOffset, |bloom|);
      var body := file + bloom + indexBytes;
      table := EncodeHeader(header) + body[TABLE_HEADER..];
      ghost var data := Encoded(RecordWriter(setting.text), records);
      assert header == HeaderOf(data, bloom, indexBytes, |records|);
      assert body[TABLE_HEADER..] == data + bloom + indexBytes;
      assert table == EncodeHeader(header) + data + bloom + indexBytes;
      entries := index;
    }

    method EncodeIndex() returns (b: Bytes)
      ensures b == Encoded(IndexWriter(), index)
    {
      hide EncodeIndexEntry;
      b := [];
      for i := 0 to |index|
        invariant b == Encoded(IndexWriter(), index[..i])
      {
        assert index[..i + 1] == index[..i] + [index[i]];
        EncodedSnoc(IndexWriter(), index[..i], index[i]);
        b := b + EncodeIndexEntry(index[i]);
      }
      assert index[..|index|] == index;
    }
  }

  /** The writer of a flush: all entries in one go. It fails exactly when some key or value is too long. */
  method WriteTable(g: Setting, entries: seq<Record>) returns (w: Written, table: Bytes, index: seq<IndexEntry>)
    requires g.numBits > 0
    ensures w == Ok <==> forall i :: 0 <= i < |entries| ==>
              |entries[i].key| < Pow256(4) && |EntryBytes(g.text, entries[i].entry)| < Pow256(4)
    ensures w == Ok ==> table == FileOf(g, entries) && index == IndexOf(g.text, entries)
  {
    hide Encoded, FilterOf, IndexOf, EncodeHeader, Pow256, EntryBytes, FileOf;
    var writer := new StreamingWriter.Create(g);
    for i := 0 to |entries|
      invariant writer.Valid() && writer.setting == g && writer.records == entries[..i]
      invariant fresh(writer) && fresh(writer.filter)
      invariant forall j :: 0 <= j < i ==>
                  |entries[j].key| < Pow256(4) && |EntryBytes(g.text, entries[j].entry)| < Pow256(4)
    {
      w := writer.Add(entries[i]);
      if w != Ok {
        return w, [], [];
      }
    }
    assert entries[..|entries|] == entries;
    w := Ok;
    table, index := writer.Finish();
  }
}
