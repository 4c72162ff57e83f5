/** The persistent Raft log: framed entries in one file, refined to a sequence. */
module RaftLogStoreModule {
  import opened Commands
  import opened RaftTypes
  import opened ByteForms
  import opened Frames

  const MAX_ENTRY_SIZE: nat := 64 * 1024 * 1024

  /** The serializer, supplied by a library. */
  datatype Codec = Codec(encode: LogEntry -> Bytes, decode: Bytes -> Option<LogEntry>)

  ghost predicate Faithful(c: Codec) { forall e :: c.decode(c.encode(e)) == Some(e) }

  // ---------------------------------------------------------------- framing

  function Frame(c: Codec, e: LogEntry): Bytes { Le(|c.encode(e)|, 4) + c.encode(e) }

  function ParseFrame(c: Codec, b: Bytes): (p: Parsed<LogEntry>)
    ensures p.One? ==> 0 < p.size <= |b|
  {
    if |b| < 4 then End
    else
      var len := LeValue(b[..4]);
      if len > MAX_ENTRY_SIZE || |b| < 4 + len then Damaged
      else
        var e := c.decode(b[4..4 + len]);
        if e.Some? then One(e.value, 4 + len) else Damaged
  }

  function Reader(c: Codec): Parser<LogEntry> { b => ParseFrame(c, b) }

  function Writer(c: Codec): LogEntry -> Bytes { e => Frame(c, e) }

  lemma FourBytes()
    ensures Pow256(4) == 0x1_0000_0000
  {
    assert Pow256(1) == 256 && Pow256(2) == 0x1_0000 && Pow256(3) == 0x100_0000;
  }

  /** An entry is read back exactly when its payload is at most 64 MiB. */
  lemma FrameRoundTripIff(c: Codec, e: LogEntry)
    requires Faithful(c)
    ensures RoundTrips(Reader(c), Writer(c), e) <==> |c.encode(e)| <= MAX_ENTRY_SIZE
  {
    hide LeValue, Le, Pow256;
    var p, b := c.encode(e), Frame(c, e);
    FourBytes();
    LeRoundTrip(|p|, 4);
    assert b[..4] == Le(|p|, 4) && b[4..4 + |p|] == p;
  }

  lemma OversizedIsDamage(c: Codec, e: LogEntry, more: Bytes)
    requires MAX_ENTRY_SIZE < |c.encode(e)| < Pow256(4)
    ensures ParseFrame(c, Frame(c, e) + more) == Damaged
  {
    hide LeValue, Le, Pow256;
    LeRoundTrip(|c.encode(e)|, 4);
    assert (Frame(c, e) + more)[..4] == Le(|c.encode(e)|, 4);
  }

  lemma FrameStable(c: Codec, b: Bytes, more: Bytes)
    requires ParseFrame(c, b).One?
    ensures ParseFrame(c, b[..ParseFrame(c, b).size] + more) == ParseFrame(c, b)
  {
    hide LeValue;
    var size := ParseFrame(c, b).size;
    SliceStable(b, more, size, 0, 4);
    SliceStable(b, more, size, 4, size - 4);
  }

  lemma ReaderLaws(c: Codec)
    ensures Sound(Reader(c)) && Stable(Reader(c)) && !Reader(c)([]).One?
  {
    forall b, more: Bytes | Reader(c)(b).One? && Reader(c)(b).size <= |b|
      ensures Reader(c)(b[..Reader(c)(b).size] + more) == Reader(c)(b)
    {
      FrameStable(c, b, more);
    }
  }

  // ---------------------------------------------------------------- opening

  predicate Storable(c: Codec, es: seq<LogEntry>) {
    forall i :: 0 <= i < |es| ==> |c.encode(es[i])| <= MAX_ENTRY_SIZE
  }

  lemma StorableRoundTrips(c: Codec, es: seq<LogEntry>)
    requires Faithful(c) && Storable(c, es)
    ensures forall i :: 0 <= i < |es| ==> RoundTrips(Reader(c), Writer(c), es[i])
  {
    hide RoundTrips, Faithful;
    forall i | 0 <= i < |es| ensures RoundTrips(Reader(c), Writer(c), es[i]) {
      FrameRoundTripIff(c, es[i]);
    }
  }

  /** Opening the file of `es` returns `es`, with the true start of each entry. */
  lemma OpenReturnsAll(c: Codec, es: seq<LogEntry>)
    requires Faithful(c) && Storable(c, es)
    ensures var b := Encoded(Writer(c), es);
            var r := Scan(Reader(c), b, 0);
            r.values == es && r.starts == Starts(Writer(c), es, 0) && r.end == |b|
  {
    hide Faithful, Storable, RoundTrips, Sound, Stable, Scan, Encoded, Starts;
    StorableRoundTrips(c, es);
    ReaderLaws(c);
    ScanWhole(Reader(c), Writer(c), es);
  }

  /**
    The first entry over 64 MiB and everything behind it are lost when the file is opened again. (From 2^32
    bytes on its length is written truncated: then only the entries before it are known to be read.)
  */
  lemma OpenStopsAtOversized(c: Codec, es: seq<LogEntry>, n: nat)
    requires Faithful(c) && n < |es| && Storable(c, es[..n]) && MAX_ENTRY_SIZE < |c.encode(es[n])|
    ensures var r := Scan(Reader(c), Encoded(Writer(c), es), 0);
            && es[..n] <= r.values && !RoundTrips(Reader(c), Writer(c), es[n])
            && (|c.encode(es[n])| < Pow256(4) ==>
                  r.values == es[..n] && r.damaged && r.end == |Encoded(Writer(c), es[..n])|)
  {
    hide Faithful, Storable, RoundTrips, Sound, Stable, Scan, Encoded, Starts, Pow256, ParseFrame;
    StorableRoundTrips(c, es[..n]);
    FrameRoundTripIff(c, es[n]);
    ReaderLaws(c);
    var tail := Encoded(Writer(c), es[n..]);
    assert es == es[..n] + es[n..];
    EncodedConcat(Writer(c), es[..n], es[n..]);
    assert [] + (Encoded(Writer(c), es[..n]) + tail) == Encoded(Writer(c), es);
    ScanPast(Reader(c), Writer(c), es[..n], [], tail);
    if |c.encode(es[n])| < Pow256(4) {
      assert tail == Frame(c, es[n]) + Encoded(Writer(c), es[n..][1..]) by { EncodedHead(Writer(c), es[n..]); }
      OversizedIsDamage(c, es[n], Encoded(Writer(c), es[n..][1..]));
      ScanUntil(Reader(c), Writer(c), es[..n], [], tail);
      assert es[..n][..n] == es[..n];
    }
  }

  lemma EncodedHead<T>(encode: T -> Bytes, xs: seq<T>)
    requires |xs| > 0
    ensures Encoded(encode, xs) == encode(xs[0]) + Encoded(encode, xs[1..])
  {}

  // ---------------------------------------------------------------- a torn tail

  lemma FramePrefixEnds(c: Codec, tail: Bytes)
    ensures ParseFrame(c, tail).End? <==> |tail| < 4
  {
    hide LeValue;
  }

  /** Opening leaves exactly the whole entries in the file, unless one to three bytes of the next one were written. */
  lemma TornTailTrimmedIff(c: Codec, es: seq<LogEntry>, cut: nat)
    requires Faithful(c) && Storable(c, es) && cut <= |Encoded(Writer(c), es)|
    ensures var n, b := Whole(Writer(c), es, cut), Encoded(Writer(c), es)[..cut];
            var r := Scan(Reader(c), b, 0);
            && r.values == es[..n]
            && ((if r.damaged then b[..r.end] else b) == Encoded(Writer(c), es[..n])
                <==> !(0 < cut - |Encoded(Writer(c), es[..n])| < 4))
  {
    hide Faithful, Storable, Scan, Encoded, Whole, Stable, Sound, RoundTrips, ParseFrame, Frame, Starts;
    var file, b := Encoded(Writer(c), es), Encoded(Writer(c), es)[..cut];
    var n, end := Whole(Writer(c), es, cut), Scan(Reader(c), b, 0).end;
    StorableRoundTrips(c, es);
    ReaderLaws(c);
    ScanCut(Reader(c), Writer(c), es, cut);
    assert b[end..] == file[end..cut] && b[..end] == file[..end];
    FramePrefixEnds(c, b[end..]);
  }

  /**
    What the next open meets behind the whole entries: `j` torn bytes, the entry appended to them, and what came later.
  */
  function BehindTorn(c: Codec, torn: Bytes, e: LogEntry, more: Bytes): Bytes { torn + Frame(c, e) + more }

  /**
    An entry appended behind a torn tail of one to three bytes is read with a wrong length: unless that many
    bytes follow, opening the file again returns only the entries before the tear and cuts off everything
    behind, so the appended entry and all later ones are lost.
  */
  lemma AppendedIsLost(c: Codec, es: seq<LogEntry>, torn: Bytes, e: LogEntry, more: Bytes)
    requires Faithful(c) && Storable(c, es) && 0 < |torn| < 4
    requires var b := BehindTorn(c, torn, e, more);
             |b| >= 4 && (LeValue(b[..4]) > MAX_ENTRY_SIZE || |b| < 4 + LeValue(b[..4]))
    ensures var r := Scan(Reader(c), Encoded(Writer(c), es) + BehindTorn(c, torn, e, more), 0);
            r.values == es && r.damaged && r.end == |Encoded(Writer(c), es)|
  {
    hide Faithful, Storable, Scan, Encoded, Stable, Sound, RoundTrips, Starts, BehindTorn, LeValue;
    var tail := BehindTorn(c, torn, e, more);
    assert ParseFrame(c, tail) == Damaged;
    StorableRoundTrips(c, es);
    ReaderLaws(c);
    ScanUntil(Reader(c), Writer(c), es, [], tail);
    assert [] + (Encoded(Writer(c), es) + tail) == Encoded(Writer(c), es) + tail;
    assert es[..|es|] == es;
  }

  lemma {:induction false} LeAtLeast(b: Bytes, i: nat)
    requires i < |b|
    ensures LeValue(b) >= b[i] * Pow256(i)
  {
    if i > 0 {
      LeAtLeast(b[1..], i - 1);
      assert 256 * (b[i] * Pow256(i - 1)) == b[i] * Pow256(i);
    }
  }

  /** An entry of at most 255 bytes, appended last, is always lost. */
  lemma ShortAppendIsLost(c: Codec, es: seq<LogEntry>, torn: Bytes, e: LogEntry)
    requires Faithful(c) && Storable(c, es) && 0 < |torn| < 4 && 0 < |c.encode(e)| < 256
    ensures Scan(Reader(c), Encoded(Writer(c), es) + BehindTorn(c, torn, e, []), 0).values == es
  {
    hide Scan, Encoded, Storable, Faithful;
    var b, m := BehindTorn(c, torn, e, []), |c.encode(e)|;
    var j := |torn|;
    assert Le(m, 4)[0] == m;
    assert b[..4][j] == b[j] == Frame(c, e)[0] == m;
    assert |b| == j + 4 + m;
    LeAtLeast(b[..4], j);
    AtLeast256(j);
    assert m * Pow256(j) >= m * 256;
    AppendedIsLost(c, es, torn, e, []);
  }

  lemma AtLeast256(j: nat)
    requires j > 0
    ensures Pow256(j) >= 256
  {}

  // ---------------------------------------------------------------- the store

  class RaftLogStore {
    const codec: Codec
    var file: Bytes
    var offsets: seq<nat>

    /** The file holds exactly `es`, and the offsets are their true starts. */
    ghost predicate Holds(es: seq<LogEntry>)
      reads this
    {
      file == Encoded(Writer(codec), es) && offsets == Starts(Writer(codec), es, 0)
    }

    constructor Raw(c: Codec, file: Bytes, offsets: seq<nat>)
      ensures codec == c && this.file == file && this.offsets == offsets
    {
      codec, this.file, this.offsets := c, file, offsets;
    }

    /** The frame goes to the end of the file, whatever the file holds. */
    method Append(e: LogEntry)
      modifies this
      ensures file == old(file) + Frame(codec, e) && offsets == old(offsets) + [|old(file)|]
      ensures forall es :: old(Holds(es)) ==> Holds(es + [e])
    {
      hide Encoded, Starts, Frame;
      var payload := codec.encode(e);
      var frame := Le(|payload|, 4) + payload;
      assert frame == Frame(codec, e) by { FrameIs(codec, e); }
      forall es | Holds(es)
        ensures Encoded(Writer(codec), es + [e]) == file + frame
                && Starts(Writer(codec), es + [e], 0) == offsets + [|file|]
      {
        EncodedSnoc(Writer(codec), es, e);
        StartsConcat(Writer(codec), es, [e], 0);
        OneStart(Writer(codec), e, |file|);
      }
      offsets := offsets + [|file|];
      file := file + frame;
    }

    /** The file ends where entry `from` began, and the later offsets are forgotten. */
    method TruncateFrom(from: nat)
      modifies this
      ensures file == if from < |old(offsets)| then Resized(old(file), old(offsets)[from]) else old(file)
      ensures offsets == if from < |old(offsets)| then old(offsets)[..from] else old(offsets)
      ensures forall es :: old(Holds(es)) ==> Holds(if from < |es| then es[..from] else es)
    {
      hide Encoded, Starts;
      forall es | Holds(es)
        ensures |offsets| == |es|
        ensures from < |es| ==> offsets[from] <= |file| && file[..offsets[from]] == Encoded(Writer(codec), es[..from])
                                && offsets[..from] == Starts(Writer(codec), es[..from], 0)
      {
        StartsLength(Writer(codec), es, 0);
        if from < |es| { CutAt(codec, es, from); }
      }
      if from >= |offsets| { return; }
      file := Resized(file, offsets[from]);
      offsets := offsets[..from];
    }
  }

  /** A file cut, or extended with zeros, to the given length. */
  function Resized(file: Bytes, len: nat): Bytes {
    if len <= |file| then file[..len] else file + seq(len - |file|, _ => 0)
  }

  lemma FrameIs(c: Codec, e: LogEntry)
    ensures Frame(c, e) == Le(|c.encode(e)|, 4) + c.encode(e)
  {}

  lemma OneStart<T>(encode: T -> Bytes, x: T, at: nat)
    ensures Starts(encode, [x], at) == [at]
  {
    assert [x][1..] == [];
  }

  lemma CutAt(c: Codec, es: seq<LogEntry>, from: nat)
    requires from < |es|
    ensures var file, offsets := Encoded(Writer(c), es), Starts(Writer(c), es, 0);
            && |offsets| == |es| && offsets[from] <= |file| && file[..offsets[from]] == Encoded(Writer(c), es[..from])
            && offsets[..from] == Starts(Writer(c), es[..from], 0)
  {
    hide Encoded, Starts;
    assert es[..from] + es[from..] == es;
    EncodedConcat(Writer(c), es[..from], es[from..]);
    StartsConcat(Writer(c), es[..from], es[from..], 0);
    StartsLength(Writer(c), es[..from], 0);
    StartsAt(Writer(c), es, 0, from);
  }

  /** The read loop: entries, their offsets, and where and why it stopped. */
  method Replay(c: Codec, file: Bytes) returns (entries: seq<LogEntry>, offsets: seq<nat>, pos: nat, damaged: bool)
    ensures Scan(Reader(c), file, 0) == Scanned(entries, offsets, pos, damaged)
  {
    hide ParseFrame, Scan;
    entries, offsets, pos, damaged := [], [], 0, false;
    while true
      invariant pos <= |file| && !damaged
      invariant var r, s := Scan(Reader(c), file, 0), Scan(Reader(c), file, pos);
                r == Scanned(entries + s.values, offsets + s.starts, s.end, s.damaged)
      decreases |file| - pos
    {
      ScanUnfold(Reader(c), file, pos);
      match ParseFrame(c, file[pos..]) {
        case End => return;
        case Damaged => damaged := true; return;
        case One(e, size) =>
          offsets := offsets + [pos];
          entries := entries + [e];
          pos := pos + size;
      }
    }
  }

  /** Opening replays the file and cuts off a damaged tail. */
  method Open(c: Codec, existing: Bytes) returns (store: RaftLogStore, entries: seq<LogEntry>)
    ensures fresh(store) && store.codec == c
    ensures var r := Scan(Reader(c), existing, 0);
            && entries == r.values && store.offsets == r.starts
            && store.file == if r.damaged then existing[..r.end] else existing
    ensures forall es :: Faithful(c) && Storable(c, es) && existing == Encoded(Writer(c), es) ==>
              entries == es && store.Holds(es)
  {
    hide ParseFrame, Storable, Faithful, Encoded, Starts, Scan;
    var offsets, pos, damaged;
    entries, offsets, pos, damaged := Replay(c, existing);
    store := new RaftLogStore.Raw(c, if damaged then existing[..pos] else existing, offsets);
    forall es | Faithful(c) && Storable(c, es) && existing == Encoded(Writer(c), es)
      ensures entries == es && store.Holds(es)
    {
      OpenReturnsAll(c, es);
      assert existing[..|existing|] == existing;
    }
  }
}
