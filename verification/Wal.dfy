/** The write-ahead log: records, their byte form, and recovery from a file cut anywhere. */
module Wal {
  import opened Commands
  import opened ByteForms
  import opened Frames

  /** A log record: its id and its command. (The checksum is computed from these.) */
  type LogRecord = (nat, Command)

  // ---------------------------------------------------------------- checksum

  function Xor(a: Byte, b: Byte): Byte { ((a as bv8) ^ (b as bv8)) as int }

  function XorFrom(x: Byte, b: Bytes): Byte
    decreases |b|
  {
    if |b| == 0 then x else XorFrom(Xor(x, b[0]), b[1..])
  }

  lemma {:induction false} XorConcat(x: Byte, a: Bytes, b: Bytes)
    ensures XorFrom(x, a + b) == XorFrom(XorFrom(x, a), b)
    decreases |a|
  {
    hide Xor;
    if |a| == 0 {
      assert a + b == b;
    } else {
      assert (a + b)[1..] == a[1..] + b;
      XorConcat(Xor(x, a[0]), a[1..], b);
    }
  }

  function CommandCode(c: Command): Byte { if c.Set? then 1 else 2 }

  /** 0 for a deletion, otherwise the value's type code. */
  function TypeCode(c: Command): Byte { if c.Set? then KindOf(c.value) + 1 else 0 }

  function Payload(t: Text, c: Command): Bytes { if c.Set? then ValueBytes(t, c.value) else [] }

  function Checksum(t: Text, r: LogRecord): Byte {
    var c := r.1;
    XorFrom(0, Le(r.0, 8) + [CommandCode(c)] + (if c.Set? then [TypeCode(c)] else [])
               + Le(|c.key|, 4) + Le(|Payload(t, c)|, 4) + c.key + Payload(t, c))
  }

  method XorInto(x: Byte, b: Bytes) returns (r: Byte)
    ensures r == XorFrom(x, b)
  {
    hide Xor;
    r := x;
    for i := 0 to |b|
      invariant XorFrom(r, b[i..]) == XorFrom(x, b)
    {
      assert b[i..][1..] == b[i + 1..];
      r := Xor(r, b[i]);
    }
  }

  method CalculateChecksum(t: Text, r: LogRecord) returns (x: Byte)
    ensures x == Checksum(t, r)
  {
    hide Xor, XorFrom;
    var c := r.1;
    var id, code, key, sizes, value := Le(r.0, 8), [CommandCode(c)], c.key, Le(|c.key|, 4), Payload(t, c);
    var kind := if c.Set? then [TypeCode(c)] else [];
    x := XorInto(0, id);
    x := XorInto(x, code);
    XorConcat(0, id, code);
    x := XorInto(x, kind);
    XorConcat(0, id + code, kind);
    x := XorInto(x, sizes);
    XorConcat(0, id + code + kind, sizes);
    x := XorInto(x, Le(|value|, 4));
    XorConcat(0, id + code + kind + sizes, Le(|value|, 4));
    x := XorInto(x, key);
    XorConcat(0, id + code + kind + sizes + Le(|value|, 4), key);
    x := XorInto(x, value);
    XorConcat(0, id + code + kind + sizes + Le(|value|, 4) + key, value);
  }

  // ---------------------------------------------------------------- byte form

  function Head(t: Text, r: LogRecord): (b: Bytes)
    ensures |b| == 18
  {
    Le(r.0, 8) + [CommandCode(r.1), TypeCode(r.1)] + Le(|r.1.key|, 4) + Le(|Payload(t, r.1)|, 4)
  }

  function Encode(t: Text, r: LogRecord): Bytes {
    Head(t, r) + r.1.key + Payload(t, r.1) + [Checksum(t, r)]
  }

  /** The command whose fields begin at byte 8, and where it ends. */
  function ParseCommand(t: Text, b: Bytes): (r: Option<(Command, nat)>)
    ensures r.Some? ==> 18 <= r.value.1 <= |b|
  {
    if |b| < 18 then None
    else
      var keyLen, valueLen := LeValue(b[10..14]), LeValue(b[14..18]);
      if b[8] == 1 then
        if !(1 <= b[9] <= 3) || |b| < 18 + keyLen + valueLen then None
        else
          var key, value := b[18..18 + keyLen], ParseValue(t, b[9] - 1, b[18 + keyLen..18 + keyLen + valueLen]);
          if t.utf8(key) && value.Some? then Some((Set(key, value.value), 18 + keyLen + valueLen)) else None
      else if b[8] == 2 then
        if b[9] != 0 || |b| < 18 + keyLen then None
        else
          var key := b[18..18 + keyLen];
          if t.utf8(key) then Some((Delete(key), 18 + keyLen)) else None
      else None
  }

  /** One read: fewer than eight bytes are the end of the log, any other shortfall is damage. */
  function ParseRecord(t: Text, b: Bytes): (p: Parsed<LogRecord>)
    ensures p.One? ==> 0 < p.size <= |b|
  {
    if |b| < 8 then End
    else
      var c := ParseCommand(t, b);
      if c.None? || |b| == c.value.1 then Damaged
      else
        var r := (LeValue(b[..8]), c.value.0);
        if b[c.value.1] == Checksum(t, r) then One(r, c.value.1 + 1) else Damaged
  }

  /** What fits the record's fields. */
  predicate Fits(t: Text, r: LogRecord) {
    r.0 < Pow256(8) && |r.1.key| < Pow256(4) && |Payload(t, r.1)| < Pow256(4)
  }

  lemma HeadFields(t: Text, r: LogRecord)
    ensures var h := Head(t, r);
            && h[..8] == Le(r.0, 8) && h[8] == CommandCode(r.1) && h[9] == TypeCode(r.1)
            && h[10..14] == Le(|r.1.key|, 4) && h[14..18] == Le(|Payload(t, r.1)|, 4)
  {
    hide Le, Payload;
  }

  lemma BodyFields(h: Bytes, k: Bytes, v: Bytes, x: Bytes)
    requires |h| == 18
    ensures var b := h + k + v + x;
            && b[..8] == h[..8] && b[8] == h[8] && b[9] == h[9] && b[10..14] == h[10..14] && b[14..18] == h[14..18]
            && b[18..18 + |k|] == k && b[18 + |k|..18 + |k| + |v|] == v && b[18 + |k| + |v|..] == x
  {}

  /** A record is read back, with nothing left over, exactly when its fields are wide enough. */
  lemma RecordRoundTrip(t: Text, r: LogRecord)
    requires Lawful(t) && ValidCommand(t, r.1)
    ensures ParseRecord(t, Encode(t, r)) == One(r, |Encode(t, r)|) <==> Fits(t, r)
  {
    hide Lawful, Le, LeValue, Checksum, ParseValue, ValueBytes, Head, Pow256, ValidValue;
    var c, v, e := r.1, Payload(t, r.1), Encode(t, r);
    HeadFields(t, r);
    BodyFields(Head(t, r), c.key, v, [Checksum(t, r)]);
    LeRoundTrip(r.0, 8);
    LeRoundTrip(|c.key|, 4);
    LeRoundTrip(|v|, 4);
    if c.Set? { ValueRoundTripIff(t, c.value); }
    assert |e| == 18 + |c.key| + |v| + 1;
    if Fits(t, r) {
      assert ParseCommand(t, e) == Some((c, 18 + |c.key| + |v|));
      assert e[18 + |c.key| + |v|] == e[18 + |c.key| + |v|..][0];
    }
  }

  /** A record is recognised by its own bytes alone. */
  lemma RecordStable(t: Text, b: Bytes, more: Bytes)
    requires ParseRecord(t, b).One?
    ensures ParseRecord(t, b[..ParseRecord(t, b).size] + more) == ParseRecord(t, b)
  {
    hide LeValue, Checksum, ParseValue;
    var size := ParseRecord(t, b).size;
    SliceStable(b, more, size, 0, 8);
    SliceStable(b, more, size, 10, 4);
    SliceStable(b, more, size, 14, 4);
    var k, v := LeValue(b[10..14]), LeValue(b[14..18]);
    SliceStable(b, more, size, 18, k);
    if b[8] == 1 { SliceStable(b, more, size, 18 + k, v); }
  }

  function Reader(t: Text): Parser<LogRecord> { b => ParseRecord(t, b) }

  function Writer(t: Text): LogRecord -> Bytes { r => Encode(t, r) }

  lemma ReaderLaws(t: Text)
    ensures Sound(Reader(t)) && Stable(Reader(t)) && !Reader(t)([]).One?
  {
    hide ParseRecord;
    forall b, more: Bytes | Reader(t)(b).One? && Reader(t)(b).size <= |b|
      ensures Reader(t)(b[..Reader(t)(b).size] + more) == Reader(t)(b)
    {
      RecordStable(t, b, more);
    }
    assert !ParseRecord(t, []).One? by { ShortIsEnd(t); }
  }

  lemma ShortIsEnd(t: Text)
    ensures ParseRecord(t, []) == End
  {}

  // ---------------------------------------------------------------- the log file

  /** The records the logger writes for `cs`: ids count from `from`. */
  function Numbered(cs: seq<Command>, from: nat): (rs: seq<LogRecord>)
    ensures |rs| == |cs| && forall i :: 0 <= i < |cs| ==> rs[i] == (from + i, cs[i])
  {
    seq(|cs|, i requires 0 <= i < |cs| => (from + i, cs[i]))
  }

  predicate Loggable(t: Text, cs: seq<Command>) {
    && |cs| < Pow256(8)
    && forall i :: 0 <= i < |cs| ==>
         ValidCommand(t, cs[i]) && |cs[i].key| < Pow256(4) && |Payload(t, cs[i])| < Pow256(4)
  }

  function LogFile(t: Text, cs: seq<Command>): Bytes { Encoded(Writer(t), Numbered(cs, 0)) }

  lemma LogRoundTrips(t: Text, cs: seq<Command>)
    requires Lawful(t) && Loggable(t, cs)
    ensures var rs := Numbered(cs, 0);
            forall i :: 0 <= i < |rs| ==> RoundTrips(Reader(t), Writer(t), rs[i])
  {
    hide Lawful, Pow256, ValidCommand, Payload, ParseRecord;
    var rs := Numbered(cs, 0);
    forall i | 0 <= i < |rs| ensures RoundTrips(Reader(t), Writer(t), rs[i]) {
      RecordRoundTrip(t, rs[i]);
    }
  }

  /**
    Recovery under truncation: whatever byte the log file is cut at, reading it returns exactly the
    records that lie wholly before the cut, numbered 0, 1, 2, ...
  */
  lemma CutLog(t: Text, cs: seq<Command>, cut: nat)
    requires Lawful(t) && Loggable(t, cs) && cut <= |LogFile(t, cs)|
    ensures var n := Whole(Writer(t), Numbered(cs, 0), cut);
            var r := Scan(Reader(t), LogFile(t, cs)[..cut], 0);
            && r.values == Numbered(cs[..n], 0) && r.end == |LogFile(t, cs[..n])|
            && (cut == |LogFile(t, cs)| ==> n == |cs|)
  {
    hide Lawful, Loggable, Scan, Encoded, Whole, Stable, Sound, RoundTrips, ParseRecord, Encode, Starts;
    var rs := Numbered(cs, 0);
    LogRoundTrips(t, cs);
    ReaderLaws(t);
    ScanCut(Reader(t), Writer(t), rs, cut);
    var n := Whole(Writer(t), rs, cut);
    assert rs[..n] == Numbered(cs[..n], 0);
  }

  /** Opening leaves exactly the whole records in the file, unless one to seven bytes of the next one were written. */
  lemma TornTailTrimmedIff(t: Text, cs: seq<Command>, cut: nat)
    requires Lawful(t) && Loggable(t, cs) && cut <= |LogFile(t, cs)|
    ensures var n, b := Whole(Writer(t), Numbered(cs, 0), cut), LogFile(t, cs)[..cut];
            var r := Scan(Reader(t), b, 0);
            (if r.damaged then b[..r.end] else b) == LogFile(t, cs[..n]) <==> !(0 < cut - |LogFile(t, cs[..n])| < 8)
  {
    hide Lawful, Loggable, Scan, Encoded, Whole, Stable, Sound, RoundTrips, ParseRecord, Encode, Starts;
    var rs, file, b := Numbered(cs, 0), LogFile(t, cs), LogFile(t, cs)[..cut];
    var n, end := Whole(Writer(t), rs, cut), Scan(Reader(t), b, 0).end;
    LogRoundTrips(t, cs);
    ReaderLaws(t);
    ScanCut(Reader(t), Writer(t), rs, cut);
    assert rs[..n] == Numbered(cs[..n], 0);
    assert b[end..] == file[end..cut] && b[..end] == file[..end];
    EndIsShort(t, b[end..]);
  }

  lemma EndIsShort(t: Text, b: Bytes)
    ensures ParseRecord(t, b).End? <==> |b| < 8
  {
    hide ParseCommand, Checksum;
  }

  // ---------------------------------------------------------------- appending behind a torn tail

  /** The first `j` bytes of record number `n`: the part of its id that was written. */
  function TornId(n: nat, j: nat): Bytes
    requires j <= 8
  {
    Le(n, 8)[..j]
  }

  /** A torn record of fewer than eight bytes is the start of its id. */
  lemma TornIsId(t: Text, r: LogRecord, j: nat)
    requires j < 8
    ensures j <= |Encode(t, r)| && Encode(t, r)[..j] == TornId(r.0, j)
  {
    hide Le, Checksum, Payload;
  }

  /** What the next open meets behind the whole records: the torn id, the record appended to it, and what came later. */
  function BehindTorn(t: Text, n: nat, j: nat, c: Command, more: Bytes): Bytes
    requires j <= 8
  {
    TornId(n, j) + Encode(t, (n, c)) + more
  }

  lemma TornBytes(t: Text, n: nat, j: nat, c: Command, more: Bytes, i: nat)
    requires 0 < j < 8 && j <= i < j + 18
    ensures |BehindTorn(t, n, j, c, more)| > j + 18 && BehindTorn(t, n, j, c, more)[i] == Head(t, (n, c))[i - j]
  {
    hide Head, Le, Checksum, Payload;
  }

  /**
    A record appended behind a torn tail of `j` bytes is read with its own id as a command code. Unless that
    byte of the id happens to be a code, opening the log again returns only the records before the tear and
    cuts off everything behind: the appended record and all later ones are lost.
  */
  lemma AppendedIsLost(t: Text, cs: seq<Command>, j: nat, c: Command, more: Bytes)
    requires Lawful(t) && Loggable(t, cs) && 0 < j < 8
    requires Le(|cs|, 8)[8 - j] != 1 && Le(|cs|, 8)[8 - j] != 2
    ensures var r := Scan(Reader(t), LogFile(t, cs) + BehindTorn(t, |cs|, j, c, more), 0);
            r.values == Numbered(cs, 0) && r.damaged && r.end == |LogFile(t, cs)|
  {
    hide Lawful, Loggable, Scan, Encoded, Stable, Sound, RoundTrips, ParseRecord, Encode, Starts, Le, BehindTorn;
    var rs, tail := Numbered(cs, 0), BehindTorn(t, |cs|, j, c, more);
    TornBytes(t, |cs|, j, c, more, 8);
    HeadFields(t, (|cs|, c));
    assert Head(t, (|cs|, c))[8 - j] == Head(t, (|cs|, c))[..8][8 - j];
    UnknownCode(t, tail);
    LogRoundTrips(t, cs);
    ReaderLaws(t);
    ScanUntil(Reader(t), Writer(t), rs, [], tail);
    assert [] + (LogFile(t, cs) + tail) == LogFile(t, cs) + tail;
    assert rs[..|rs|] == rs;
  }

  lemma UnknownCode(t: Text, b: Bytes)
    requires |b| > 8 && b[8] != 1 && b[8] != 2
    ensures ParseRecord(t, b) == Damaged
  {
    hide LeValue, Checksum;
  }

  /** Among the first 256 records every append behind a torn tail is lost. */
  lemma EarlyAppendIsLost(t: Text, cs: seq<Command>, j: nat, c: Command, more: Bytes)
    requires Lawful(t) && Loggable(t, cs) && 0 < j < 8 && |cs| < 256
    ensures Scan(Reader(t), LogFile(t, cs) + BehindTorn(t, |cs|, j, c, more), 0).values == Numbered(cs, 0)
  {
    hide Lawful, Loggable, Scan, LogFile, BehindTorn;
    HighBytes(|cs|, 8, 8 - j);
    AppendedIsLost(t, cs, j, c, more);
  }

  lemma {:induction false} HighBytes(n: nat, width: nat, i: nat)
    requires n < 256 && 0 < i < width
    ensures Le(n, width)[i] == 0
  {
    assert n / 256 == 0;
    ZeroBytes(width - 1, i - 1);
  }

  lemma {:induction false} ZeroBytes(width: nat, i: nat)
    requires i < width
    ensures Le(0, width)[i] == 0
  {
    if i > 0 { ZeroBytes(width - 1, i - 1); }
  }

  /** Record number 512 torn at seven bytes: what follows reads as a deletion of the empty key that nobody wrote. */
  lemma AppendedIsMisread(t: Text, cs: seq<Command>, c: Command, more: Bytes)
    requires Lawful(t) && Loggable(t, cs) && |cs| == 512 && |c.key| < 256
    ensures Numbered(cs, 0) + [(512, Delete([]))] <=
            Scan(Reader(t), LogFile(t, cs) + BehindTorn(t, 512, 7, c, more), 0).values
  {
    hide Lawful, Loggable, Scan, Encoded, Stable, Sound, RoundTrips, ParseRecord, Encode, BehindTorn;
    var rs, tail, at := Numbered(cs, 0), BehindTorn(t, 512, 7, c, more), |LogFile(t, cs)|;
    LogRoundTrips(t, cs);
    ReaderLaws(t);
    ScanPast(Reader(t), Writer(t), rs, [], tail);
    var b := LogFile(t, cs) + tail;
    assert [] + (LogFile(t, cs) + tail) == b && b[at..] == tail;
    MisreadNext(t, b, at, c, more);
    FirstThenRest(rs, (512, Delete([])), Scan(Reader(t), b, at).values);
  }

  lemma FirstThenRest(rs: seq<LogRecord>, r: LogRecord, more: seq<LogRecord>)
    requires [r] <= more
    ensures rs + [r] <= rs + more
  {}

  lemma MisreadNext(t: Text, b: Bytes, at: nat, c: Command, more: Bytes)
    requires Lawful(t) && |c.key| < 256 && at <= |b| && b[at..] == BehindTorn(t, 512, 7, c, more)
    ensures [(512, Delete([]))] <= Scan(Reader(t), b, at).values
  {
    hide Lawful, Scan, ParseRecord, Encode, BehindTorn;
    Misread(t, c, more);
    TornBytes(t, 512, 7, c, more, 8);
    ScanUnfold(Reader(t), b, at);
  }

  lemma Misread(t: Text, c: Command, more: Bytes)
    requires Lawful(t) && |c.key| < 256
    ensures ParseRecord(t, BehindTorn(t, 512, 7, c, more)) == One((512, Delete([])), 19)
  {
    hide BehindTorn, Checksum, Lawful, ParseRecord, LeValue;
    var b := BehindTorn(t, 512, 7, c, more);
    MisreadBytes(t, c, more);
    BogusChecksum(t);
    EmptyIsText(t);
    FirstBytes(b);
    DeletionAt(t, b);
  }

  lemma EmptyIsText(t: Text)
    requires Lawful(t)
    ensures t.utf8([])
  {}

  lemma DeletionAt(t: Text, b: Bytes)
    requires |b| > 18 && b[8] == 2 && b[9] == 0 && LeValue(b[10..14]) == 0 && t.utf8([])
    requires b[18] == Checksum(t, (LeValue(b[..8]), Delete([])))
    ensures ParseRecord(t, b) == One((LeValue(b[..8]), Delete([])), 19)
  {
    hide LeValue, Checksum, ParseValue;
    assert b[18..18] == [];
  }

  lemma FirstBytes(b: Bytes)
    requires |b| > 18 && b[0] == 0 && b[1] == 2 && forall i :: 2 <= i < 8 ==> b[i] == 0
    requires forall i :: 10 <= i < 14 ==> b[i] == 0
    ensures LeValue(b[..8]) == 512 && LeValue(b[10..14]) == 0
  {
    assert b[..8] == [0, 2, 0, 0, 0, 0, 0, 0] && b[10..14] == [0, 0, 0, 0];
    NoValue(4);
    NoValue(6);
    assert Zeros(4) == [0, 0, 0, 0] && Zeros(6) == [0, 0, 0, 0, 0, 0];
    var f: Bytes := [0, 2, 0, 0, 0, 0, 0, 0];
    assert f[1..] == [2] + Zeros(6) && f[1..][1..] == Zeros(6);
  }

  function Zeros(n: nat): Bytes { seq(n, _ => 0) }

  lemma {:induction false} NoValue(n: nat)
    ensures LeValue(Zeros(n)) == 0
  {
    if n > 0 {
      assert Zeros(n)[1..] == Zeros(n - 1);
      NoValue(n - 1);
    }
  }

  lemma MisreadBytes(t: Text, c: Command, more: Bytes)
    requires |c.key| < 256
    ensures var b := BehindTorn(t, 512, 7, c, more);
            && |b| > 25 && b[0] == 0 && b[1] == 2 && (forall i :: 2 <= i < 8 ==> b[i] == 0)
            && b[8] == 2 && b[9] == 0 && (forall i :: 10 <= i < 14 ==> b[i] == 0) && b[18] == 0
  {
    var b, h := BehindTorn(t, 512, 7, c, more), Head(t, (512, c));
    Id512();
    HeadFields(t, (512, c));
    forall i | 7 <= i < 25 ensures b[i] == h[i - 7] { TornBytes(t, 512, 7, c, more, i); }
    HighBytes(|c.key|, 4, 1);
    assert h[11] == h[10..14][1];
    assert forall i :: 0 <= i < 8 ==> h[i] == h[..8][i];
    hide Le, Head;
  }

  lemma Id512()
    ensures Le(512, 8) == [0, 2, 0, 0, 0, 0, 0, 0]
  {
    assert Le(2, 7)[0] == 2;
    forall i | 0 < i < 7 ensures Le(2, 7)[i] == 0 { HighBytes(2, 7, i); }
    assert Le(512, 8) == [0] + Le(2, 7);
  }

  lemma BogusChecksum(t: Text)
    ensures Checksum(t, (512, Delete([]))) == 0
  {
    Id512();
    XorTwos();
    assert Le(0, 4) == Zeros(4) by { forall i | 0 <= i < 4 ensures Le(0, 4)[i] == 0 { ZeroBytes(4, i); } }
    var b: Bytes := [0, 2] + Zeros(6) + [2] + Zeros(8);
    assert Le(512, 8) + [2] + [] + Le(0, 4) + Le(0, 4) + [] + [] == b;
    hide Xor, XorFrom;
    XorConcat(0, [0, 2] + Zeros(6) + [2], Zeros(8));
    XorConcat(0, [0, 2] + Zeros(6), [2]);
    XorConcat(0, [0, 2], Zeros(6));
    XorZeros(2, 6);
    XorZeros(0, 8);
  }

  lemma XorTwos()
    ensures XorFrom(0, [0, 2]) == 2 && XorFrom(2, [2]) == 0
  {
    assert Xor(0, 0) == 0 && Xor(0, 2) == 2 && Xor(2, 2) == 0;
    hide Xor;
    var b: Bytes := [0, 2];
    assert b[1..] == [2] && b[1..][1..] == [];
    var d: Bytes := [2];
    assert d[1..] == [];
  }

  lemma {:induction false} XorZeros(x: Byte, n: nat)
    ensures XorFrom(x, Zeros(n)) == x
    decreases n
  {
    if n > 0 {
      assert Zeros(n)[1..] == Zeros(n - 1);
      XorZero(x);
      hide Xor;
      XorZeros(x, n - 1);
    }
  }

  lemma XorZero(x: Byte)
    ensures Xor(x, 0) == x
  {}

  lemma LogFileSnoc(t: Text, cs: seq<Command>, c: Command)
    ensures LogFile(t, cs + [c]) == LogFile(t, cs) + Encode(t, (|cs|, c))
  {
    hide Encode;
    assert Numbered(cs + [c], 0) == Numbered(cs, 0) + [(|cs|, c)];
    EncodedSnoc(Writer(t), Numbered(cs, 0), (|cs|, c));
  }

  // ---------------------------------------------------------------- the logger

  /** The read loop of both opening and recovery. */
  method ReadAll(t: Text, file: Bytes) returns (records: seq<LogRecord>, end: nat, damaged: bool)
    ensures var r := Scan(Reader(t), file, 0);
            records == r.values && end == r.end && damaged == r.damaged
  {
    hide ParseRecord, Scan;
    records, end, damaged := [], 0, false;
    while true
      invariant end <= |file| && !damaged
      invariant var r, s := Scan(Reader(t), file, 0), Scan(Reader(t), file, end);
                r.values == records + s.values && r.end == s.end && r.damaged == s.damaged
      decreases |file| - end
    {
      ScanUnfold(Reader(t), file, end);
      match ParseRecord(t, file[end..]) {
        case End => return;
        case Damaged => damaged := true; return;
        case One(r, size) =>
          records := records + [r];
          end := end + size;
      }
    }
  }

  class Logger {
    const text: Text
    var file: Bytes
    var len: nat

    /** The file is the log of `cs`, and the next record will be numbered after them. */
    ghost predicate Holds(cs: seq<Command>)
      reads this
    {
      file == LogFile(text, cs) && len == |cs|
    }

    constructor Open(t: Text, existing: Bytes)
      ensures var r := Scan(Reader(t), existing, 0);
              && text == t && file == (if r.damaged then existing[..r.end] else existing)
              && len == (if |r.values| == 0 then 0 else r.values[|r.values| - 1].0 + 1)
    {
      text := t;
      var records, end, damaged := ReadAll(t, existing);
      file := if damaged then existing[..end] else existing;
      len := if |records| == 0 then 0 else records[|records| - 1].0 + 1;
    }

    method Append(c: Command)
      modifies this
      ensures file == old(file) + Encode(text, (old(len), c)) && len == old(len) + 1
      ensures forall cs :: old(Holds(cs)) ==> Holds(cs + [c])
    {
      hide Encode, LogFile;
      var r := (len, c);
      forall cs | Holds(cs) ensures LogFile(text, cs + [c]) == file + Encode(text, r) {
        LogFileSnoc(text, cs, c);
      }
      file := file + Encode(text, r);
      len := len + 1;
    }

    method ReadRecords() returns (records: seq<LogRecord>)
      modifies this`file
      ensures var r := Scan(Reader(text), old(file), 0);
              records == r.values && file == if r.damaged then old(file)[..r.end] else old(file)
    {
      var end, damaged;
      records, end, damaged := ReadAll(text, file);
      if damaged {
        file := file[..end];
      }
    }

    method Truncate()
      modifies this
      ensures Holds([])
    {
      file, len := [], 0;
    }
  }

  /** A log cut at any byte and opened again: what is read, and the number the next record gets. */
  method Recover(t: Text, cs: seq<Command>, cut: nat) returns (logger: Logger, records: seq<LogRecord>)
    requires Lawful(t) && Loggable(t, cs) && cut <= |LogFile(t, cs)|
    ensures var n := Whole(Writer(t), Numbered(cs, 0), cut);
            records == Numbered(cs[..n], 0) && logger.len == n && (cut == |LogFile(t, cs)| ==> logger.Holds(cs))
  {
    hide Lawful, Loggable, Scan, LogFile, Whole;
    CutLog(t, cs, cut);
    var existing := LogFile(t, cs)[..cut];
    logger := new Logger.Open(t, existing);
    ghost var n := Whole(Writer(t), Numbered(cs, 0), cut);
    assert cut == |LogFile(t, cs)| ==> cs[..n] == cs && existing == LogFile(t, cs);
    KeptTwice(t, existing);
    records := logger.ReadRecords();
  }

  /** Cutting off the damage and reading again finds the same records. */
  lemma KeptTwice(t: Text, b: Bytes)
    ensures var r := Scan(Reader(t), b, 0);
            Scan(Reader(t), b[..r.end], 0).values == r.values && Scan(Reader(t), b[..r.end], 0).end == r.end
  {
    ReaderLaws(t);
    hide ParseRecord, Scan;
    ScanPrefix(Reader(t), b, 0);
  }
}
