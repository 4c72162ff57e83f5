/** What the write-ahead log's checksum is good for: which damaged records are refused, and which are not. */
module WalDamage {
  import opened Commands
  import opened ByteForms
  import opened Frames
  import opened Wal

  // ---------------------------------------------------------------- exclusive or

  function Bits(x: Byte): bv8 { x as bv8 }

  function Number(b: bv8): Byte { b as int }

  lemma BitsOfNumber(b: bv8)
    ensures Bits(Number(b)) == b
  {}

  lemma XorIs(x: Byte, y: Byte)
    ensures Xor(x, y) == Number(Bits(x) ^ Bits(y)) && Bits(Xor(x, y)) == Bits(x) ^ Bits(y)
  {
    BitsOfNumber(Bits(x) ^ Bits(y));
  }

  lemma XorBits(x: bv8, y: bv8, z: bv8)
    ensures (x ^ y) ^ z == x ^ (y ^ z) && x ^ y == y ^ x && x ^ x == 0 && x ^ 0 == x
  {}

  lemma ZeroBits()
    ensures Bits(0) == 0
  {}

  lemma NumberOfBits(x: Byte)
    ensures Number(Bits(x)) == x
  {
    hide *;
    XorZero(x);
    XorIs(x, 0);
    ZeroBits();
    XorBits(Bits(x), 0, 0);
  }

  lemma SameBits(x: Byte, y: Byte)
    ensures Bits(x) == Bits(y) <==> x == y
  {
    hide *;
    NumberOfBits(x);
    NumberOfBits(y);
  }

  lemma XorAssoc(x: Byte, y: Byte, z: Byte)
    ensures Xor(Xor(x, y), z) == Xor(x, Xor(y, z))
  {
    hide *;
    XorIs(x, y);
    XorIs(y, z);
    XorIs(Xor(x, y), z);
    XorIs(x, Xor(y, z));
    XorBits(Bits(x), Bits(y), Bits(z));
  }

  lemma XorSelf(x: Byte)
    ensures Xor(x, x) == 0
  {
    XorIs(x, x);
    XorBits(Bits(x), Bits(x), Bits(x));
  }

  lemma XorCommutes(x: Byte, y: Byte)
    ensures Xor(x, y) == Xor(y, x)
  {
    hide *;
    XorIs(x, y);
    XorIs(y, x);
    XorBits(Bits(x), Bits(y), Bits(y));
  }

  lemma XorInjective(x: Byte, y: Byte, b: Byte)
    ensures Xor(x, b) == Xor(y, b) <==> x == y
  {
    hide Xor;
    XorAssoc(x, b, b);
    XorAssoc(y, b, b);
    XorSelf(b);
    XorZero(x);
    XorZero(y);
  }

  lemma {:induction false} XorFromInjective(x: Byte, y: Byte, b: Bytes)
    requires x != y
    ensures XorFrom(x, b) != XorFrom(y, b)
    decreases |b|
  {
    hide Xor;
    if |b| > 0 {
      XorInjective(x, y, b[0]);
      XorFromInjective(Xor(x, b[0]), Xor(y, b[0]), b[1..]);
    }
  }

  lemma XorOne(x: Byte, b: Byte)
    ensures XorFrom(x, [b]) == Xor(x, b)
  {
    hide Xor;
    assert [b][1..] == [];
  }

  /** Changing one byte changes the exclusive or of all. */
  lemma XorChanged(x: Byte, b: Bytes, i: nat, v: Byte)
    requires i < |b| && v != b[i]
    ensures XorFrom(x, b[i := v]) != XorFrom(x, b)
  {
    hide Xor, XorFrom;
    var front, back := b[..i], b[i + 1..];
    var y := XorFrom(x, front);
    XorConcat(x, front, [b[i]]);
    XorConcat(x, front, [v]);
    XorOne(y, b[i]);
    XorOne(y, v);
    XorInjective(b[i], v, y);
    XorCommutes(y, b[i]);
    XorCommutes(y, v);
    XorConcat(x, front + [b[i]], back);
    XorConcat(x, front + [v], back);
    XorFromInjective(Xor(y, b[i]), Xor(y, v), back);
    assert b == front + [b[i]] + back && b[i := v] == front + [v] + back;
  }

  // ---------------------------------------------------------------- the reader accepts what the writer writes

  /** Everything of a record but its checksum. */
  function Body(t: Text, r: LogRecord): Bytes { Head(t, r) + r.1.key + Payload(t, r.1) }

  /** The checksum is the exclusive or of all other bytes: the type byte a deletion leaves out is zero. */
  lemma ChecksumIsXor(t: Text, r: LogRecord)
    ensures Checksum(t, r) == XorFrom(0, Body(t, r))
  {
    hide Xor, XorFrom, Le, Payload;
    var c := r.1;
    var id, sizes := Le(r.0, 8), Le(|c.key|, 4) + Le(|Payload(t, c)|, 4) + c.key + Payload(t, c);
    if c.Set? {
      assert Body(t, r) == id + [1] + [TypeCode(c)] + Le(|c.key|, 4) + Le(|Payload(t, c)|, 4) + c.key + Payload(t, c);
    } else {
      assert Body(t, r) == (id + [2]) + [0] + sizes;
      assert id + [2] + [] + Le(|c.key|, 4) + Le(|Payload(t, c)|, 4) + c.key + Payload(t, c) == (id + [2]) + sizes;
      XorConcat(0, id + [2], [0]);
      XorConcat(0, id + [2] + [0], sizes);
      XorConcat(0, id + [2], sizes);
      XorOne(XorFrom(0, id + [2]), 0);
      XorZero(XorFrom(0, id + [2]));
    }
  }

  /** The bytes of the value field of the record at the start of `b`. */
  function ValueField(b: Bytes): Bytes
    requires |b| >= 18
  {
    var k, v := LeValue(b[10..14]), LeValue(b[14..18]);
    if 18 + k + v <= |b| then b[18 + k..18 + k + v] else []
  }

  /**
    The value field is what the writer would write: for a deletion it is empty, and for any other record it is the
    text form of the value that it is read as.
  */
  predicate Canonical(t: Text, b: Bytes) {
    |b| >= 18 ==>
      if b[8] == 2 then LeValue(b[14..18]) == 0
      else b[9] > 0 ==>
        var w := ParseValue(t, b[9] - 1, ValueField(b));
        w.Some? ==> ValueBytes(t, w.value) == ValueField(b)
  }

  lemma KindRead(t: Text, kind: nat, b: Bytes)
    requires ParseValue(t, kind, b).Some?
    ensures KindOf(ParseValue(t, kind, b).value) == kind
  {
    hide ParseInt;
  }

  /** The fields of an accepted record, as they stand in the file. */
  lemma AcceptedFields(t: Text, b: Bytes)
    requires ParseRecord(t, b).One? && Canonical(t, b)
    ensures var p, k := ParseRecord(t, b), LeValue(b[10..14]);
            && 18 + k < p.size <= |b| && p.value.0 == LeValue(b[..8]) && |p.value.1.key| == k
            && b[8] == CommandCode(p.value.1) && b[9] == TypeCode(p.value.1)
            && |Payload(t, p.value.1)| == LeValue(b[14..18])
            && p.value.1.key == b[18..18 + k] && Payload(t, p.value.1) == b[18 + k..p.size - 1]
            && b[p.size - 1] == Checksum(t, p.value)
  {
    hide LeValue, Checksum, ParseValue, ValueBytes;
    if b[8] == 1 {
      KindRead(t, b[9] - 1, ValueField(b));
    }
  }

  /** Whatever the reader accepts, if its value field is in the writer's form, is exactly what the writer writes. */
  lemma AcceptedIsWritten(t: Text, b: Bytes)
    requires ParseRecord(t, b).One? && Canonical(t, b)
    ensures var p := ParseRecord(t, b); b[..p.size] == Encode(t, p.value)
  {
    hide Le, LeValue, Checksum, Payload, Pow256, ParseRecord, Canonical, CommandCode, TypeCode;
    AcceptedFields(t, b);
    var p, k := ParseRecord(t, b), LeValue(b[10..14]);
    LeOfValue(b[..8]);
    LeOfValue(b[10..14]);
    LeOfValue(b[14..18]);
    assert b[..18] == b[..8] + [b[8], b[9]] + b[10..14] + b[14..18];
    assert Head(t, p.value) == b[..18];
    assert b[..p.size] == b[..18] + b[18..18 + k] + b[18 + k..p.size - 1] + [b[p.size - 1]];
  }

  /** All bytes of a record, checksum included, cancel out. */
  lemma RecordCancels(t: Text, r: LogRecord)
    ensures XorFrom(0, Encode(t, r)) == 0
  {
    hide Xor, XorFrom, Checksum, Head, Payload;
    ChecksumIsXor(t, r);
    XorConcat(0, Body(t, r), [Checksum(t, r)]);
    XorOne(Checksum(t, r), Checksum(t, r));
    XorSelf(Checksum(t, r));
  }

  // ---------------------------------------------------------------- one byte changed

  /** A record whose byte `i` is changed to `v`, and whatever follows it in the file. */
  function Hit(t: Text, r: LogRecord, i: nat, v: Byte, more: Bytes): Bytes
    requires i < |Encode(t, r)|
  {
    Encode(t, r)[i := v] + more
  }

  lemma HitFields(t: Text, r: LogRecord, i: nat, v: Byte, more: Bytes)
    requires Fits(t, r) && i < |Encode(t, r)| && !(10 <= i < 18)
    ensures var b, e := Hit(t, r, i, v, more), Encode(t, r);
            && |e| == 18 + |r.1.key| + |Payload(t, r.1)| + 1 && |b| >= |e| && b[..|e|] == e[i := v]
            && LeValue(b[10..14]) == |r.1.key| && LeValue(b[14..18]) == |Payload(t, r.1)|
            && (i != 8 ==> b[8] == CommandCode(r.1)) && (i != 9 ==> b[9] == TypeCode(r.1))
  {
    hide Le, LeValue, Checksum, Payload, Pow256, Head;
    var b, e := Hit(t, r, i, v, more), Encode(t, r);
    HeadFields(t, r);
    BodyFields(Head(t, r), r.1.key, Payload(t, r.1), [Checksum(t, r)]);
    LeRoundTrip(|r.1.key|, 4);
    LeRoundTrip(|Payload(t, r.1)|, 4);
    assert b[10..14] == e[10..14] && b[14..18] == e[14..18];
  }

  lemma CodeIsSeen(t: Text, b: Bytes)
    requires |b| >= 18 && b[8] == 1 ==> b[9] == 0
    requires |b| >= 18 && b[8] == 2 ==> b[9] != 0
    requires |b| >= 8
    ensures ParseRecord(t, b) == Damaged
  {
    hide LeValue, Checksum, ParseValue;
  }

  lemma SizeRead(t: Text, b: Bytes)
    requires ParseRecord(t, b).One?
    ensures |b| >= 18 && (b[8] == 1 || b[8] == 2)
    ensures ParseRecord(t, b).size == 18 + LeValue(b[10..14]) + (if b[8] == 1 then LeValue(b[14..18]) else 0) + 1
  {
    hide LeValue, Checksum, ParseValue;
  }

  /** A changed byte outside the length fields is noticed when the value field stays in the writer's form. */
  lemma CanonicalDamageIsSeen(t: Text, r: LogRecord, i: nat, v: Byte, more: Bytes)
    requires Fits(t, r) && i < |Encode(t, r)| && v != Encode(t, r)[i] && !(10 <= i < 18) && i != 8
    requires Canonical(t, Hit(t, r, i, v, more))
    ensures ParseRecord(t, Hit(t, r, i, v, more)) == Damaged
  {
    hide Canonical, Encode, LeValue, Fits, ParseRecord, XorFrom;
    var b, e := Hit(t, r, i, v, more), Encode(t, r);
    HitFields(t, r, i, v, more);
    EndIsShort(t, b);
    if ParseRecord(t, b).One? {
      SizeRead(t, b);
      AcceptedIsWritten(t, b);
      RecordCancels(t, ParseRecord(t, b).value);
      RecordCancels(t, r);
      XorChanged(0, e, i, v);
    }
  }

  /** Byte `i` of the record lies in its value field. */
  predicate InValue(t: Text, r: LogRecord, i: nat) {
    18 + |r.1.key| <= i < 18 + |r.1.key| + |Payload(t, r.1)|
  }

  /**
    The bytes the checksum guards: all of a deletion but its length fields, and of a write the number, the command
    code, the key, the checksum itself, and the value if it is a string.
  */
  predicate Guarded(t: Text, r: LogRecord, i: nat) {
    && i < |Encode(t, r)| && !(10 <= i < 18)
    && (i == 8 || r.1.Delete? || (i != 9 && (r.1.value.Str? || !InValue(t, r, i))))
  }

  lemma ValueFieldHit(t: Text, r: LogRecord, i: nat, v: Byte, more: Bytes)
    requires Fits(t, r) && i < |Encode(t, r)| && !(10 <= i < 18)
    ensures |Hit(t, r, i, v, more)| >= 18
    ensures !InValue(t, r, i) ==> ValueField(Hit(t, r, i, v, more)) == Payload(t, r.1)
  {
    hide LeValue, Fits, Checksum, Payload, Head;
    HitFields(t, r, i, v, more);
    var b, e, k := Hit(t, r, i, v, more), Encode(t, r), 18 + |r.1.key|;
    BodyFields(Head(t, r), r.1.key, Payload(t, r.1), [Checksum(t, r)]);
    if !InValue(t, r, i) {
      assert b[k..k + |Payload(t, r.1)|] == e[k..k + |Payload(t, r.1)|];
    }
  }

  lemma GuardedIsCanonical(t: Text, r: LogRecord, i: nat, v: Byte, more: Bytes)
    requires Lawful(t) && ValidCommand(t, r.1) && Fits(t, r) && Guarded(t, r, i) && i != 8
    ensures Canonical(t, Hit(t, r, i, v, more))
  {
    hide Lawful, Fits, LeValue, Encode, Hit, ValueField, ValidValue, ParseInt, ShowInt;
    HitFields(t, r, i, v, more);
    ValueFieldHit(t, r, i, v, more);
    if r.1.Set? {
      ValueRoundTripIff(t, r.1.value);
    }
  }

  /** One changed byte among the guarded ones, and the record is refused, whatever stands behind it. */
  lemma RecordDamageIsSeen(t: Text, r: LogRecord, i: nat, v: Byte, more: Bytes)
    requires Lawful(t) && ValidCommand(t, r.1) && Fits(t, r) && Guarded(t, r, i) && v != Encode(t, r)[i]
    ensures ParseRecord(t, Hit(t, r, i, v, more)) == Damaged
  {
    hide Lawful, ValidCommand, Fits, Canonical, ParseRecord, LeValue;
    HitFields(t, r, i, v, more);
    if i == 8 {
      HeadFields(t, r);
      CodeIsSeen(t, Hit(t, r, i, v, more));
    } else {
      GuardedIsCanonical(t, r, i, v, more);
      CanonicalDamageIsSeen(t, r, i, v, more);
    }
  }

  /** The log file of `cs` with byte `j` of record `i` changed to `v`. */
  function HitLog(t: Text, cs: seq<Command>, i: nat, j: nat, v: Byte): Bytes
    requires i < |cs| && j < |Encode(t, (i, cs[i]))| && |LogFile(t, cs[..i])| + j < |LogFile(t, cs)|
  {
    LogFile(t, cs)[|LogFile(t, cs[..i])| + j := v]
  }

  lemma RecordInFile(t: Text, cs: seq<Command>, i: nat) returns (more: Bytes)
    requires i < |cs|
    ensures LogFile(t, cs) == LogFile(t, cs[..i]) + (Encode(t, (i, cs[i])) + more)
  {
    hide Encode;
    var rs := Numbered(cs, 0);
    more := Encoded(Writer(t), rs[i + 1..]);
    EncodedConcat(Writer(t), rs[..i], rs[i..]);
    assert rs[..i] + rs[i..] == rs && rs[..i] == Numbered(cs[..i], 0);
    assert rs[i..][0] == (i, cs[i]) && rs[i..][1..] == rs[i + 1..];
  }

  lemma HitBehind(front: Bytes, e: Bytes, more: Bytes, j: nat, v: Byte)
    requires j < |e|
    ensures (front + (e + more))[|front| + j := v] == front + (e[j := v] + more)
  {}

  /**
    A log with one guarded byte of record `i` changed: reading it returns exactly the records before that one and
    reports the damage at its start, so opening the log cuts it there.
  */
  lemma DamagedLogStops(t: Text, cs: seq<Command>, i: nat, j: nat, v: Byte)
    requires Lawful(t) && Loggable(t, cs) && i < |cs| && Guarded(t, (i, cs[i]), j) && v != Encode(t, (i, cs[i]))[j]
    ensures |LogFile(t, cs[..i])| + j < |LogFile(t, cs)|
    ensures var r := Scan(Reader(t), HitLog(t, cs, i, j, v), 0);
            r.values == Numbered(cs[..i], 0) && r.damaged && r.end == |LogFile(t, cs[..i])|
  {
    hide Lawful, Scan, Encoded, Stable, Sound, RoundTrips, ParseRecord, Encode, Starts, Pow256, ValidCommand, Payload;
    var r, front := (i, cs[i]), cs[..i];
    var more := RecordInFile(t, cs, i);
    var tail := Hit(t, r, j, v, more);
    RecordDamageIsSeen(t, r, j, v, more);
    LogRoundTrips(t, front);
    ReaderLaws(t);
    ScanUntil(Reader(t), Writer(t), Numbered(front, 0), [], tail);
    HitBehind(LogFile(t, front), Encode(t, r), more, j, v);
    assert [] + (LogFile(t, front) + tail) == LogFile(t, front) + tail;
    assert Numbered(front, 0)[..|front|] == Numbered(front, 0);
  }

  // ---------------------------------------------------------------- numbers

  /** The value field after its byte `i` of the record is changed to `v`. */
  function HitValue(t: Text, r: LogRecord, i: nat, v: Byte): Bytes
    requires InValue(t, r, i)
  {
    Payload(t, r.1)[i - 18 - |r.1.key| := v]
  }

  lemma HitParts(t: Text, r: LogRecord, i: nat, v: Byte, more: Bytes)
    requires Fits(t, r) && i < |Encode(t, r)| && InValue(t, r, i)
    ensures var b, k, n := Hit(t, r, i, v, more), 18 + |r.1.key|, |Payload(t, r.1)|;
            && |b| > k + n && LeValue(b[..8]) == r.0 && b[18..k] == r.1.key && b[k..k + n] == HitValue(t, r, i, v)
            && b[k + n] == Checksum(t, r)
  {
    hide LeValue, Le, Checksum, Payload, Head, Pow256;
    HitFields(t, r, i, v, more);
    HeadFields(t, r);
    LeRoundTrip(r.0, 8);
    var b, e, k, n := Hit(t, r, i, v, more), Encode(t, r), 18 + |r.1.key|, |Payload(t, r.1)|;
    BodyFields(Head(t, r), r.1.key, Payload(t, r.1), [Checksum(t, r)]);
    assert b[..8] == e[..8] && b[18..k] == e[18..k];
    assert b[k..k + n] == e[k..k + n][i - k := v];
    assert b[k + n] == e[k + n] == e[k + n..][0];
  }

  /**
    The checksum is taken of the value that was read, not of the bytes it was read from. So a changed byte of a value
    goes unnoticed exactly when the changed text still reads as a value, and the record of that value has the same
    checksum; the reader then returns that value, which nobody wrote.
  */
  lemma ValueDamageIff(t: Text, r: LogRecord, i: nat, v: Byte, more: Bytes)
    requires Lawful(t) && ValidCommand(t, r.1) && Fits(t, r) && r.1.Set? && InValue(t, r, i) && i < |Encode(t, r)|
    ensures var w := ParseValue(t, KindOf(r.1.value), HitValue(t, r, i, v));
            ParseRecord(t, Hit(t, r, i, v, more)) ==
            if w.Some? && Checksum(t, (r.0, Set(r.1.key, w.value))) == Checksum(t, r)
            then One((r.0, Set(r.1.key, w.value)), |Encode(t, r)|) else Damaged
  {
    hide Lawful, Fits, LeValue, Encode, Hit, HitValue, ValidValue, ParseValue, Checksum, ValueBytes, Payload;
    HitFields(t, r, i, v, more);
    HitParts(t, r, i, v, more);
    KindBound(r.1.value);
  }

  lemma KindBound(v: Value)
    ensures KindOf(v) <= 2
  {}

  lemma Shown()
    ensures ShowInt(205) == [50, 48, 53] && ShowInt(5) == [53]
  {
    assert Digits(2) == [50] && Digits(20) == Digits(2) + [48];
    assert Digits(205) == Digits(20) + [53];
  }

  lemma FiveRead()
    ensures ParseDigits([48, 48, 53]) == Some(5)
  {
    var one: Bytes, two: Bytes, three: Bytes := [48], [48, 48], [48, 48, 53];
    assert one[..0] == [] && two[..1] == one && three[..2] == two;
    assert ParseDigits(one[..0]) == Some(0);
    assert ParseDigits(one) == Some(0);
    assert ParseDigits(two) == Some(0);
  }

  lemma Texts(t: Text)
    requires Lawful(t)
    ensures ShowInt(205) == [50, 48, 53] && ShowInt(5) == [53]
    ensures ParseValue(t, 0, [48, 48, 53]) == Some(Int(5))
  {
    hide ParseDigits, ShowInt;
    Shown();
    FiveRead();
    var b: Bytes := [48, 48, 53];
    assert forall i :: 0 <= i < |b| ==> b[i] < 128;
    assert t.utf8(b);
  }

  lemma {:induction false} XorShift(x: Byte, b: Bytes)
    ensures XorFrom(x, b) == Xor(x, XorFrom(0, b))
    decreases |b|
  {
    hide Xor;
    if |b| == 0 {
      XorZero(x);
    } else {
      XorShift(Xor(x, b[0]), b[1..]);
      XorShift(Xor(0, b[0]), b[1..]);
      XorAssoc(x, b[0], XorFrom(0, b[1..]));
      XorCommutes(0, b[0]);
      XorZero(b[0]);
    }
  }

  lemma XorSmall(x: Byte, n: Byte)
    ensures XorFrom(x, [n, 0, 0, 0]) == Xor(x, n)
  {
    hide Xor;
    XorConcat(x, [n], Zeros(3));
    XorOne(x, n);
    XorZeros(Xor(x, n), 3);
    assert [n] + Zeros(3) == [n, 0, 0, 0];
  }

  lemma SmallLe(n: nat)
    requires n < 256
    ensures Le(n, 4) == [n, 0, 0, 0]
  {
    forall i | 0 < i < 4 ensures Le(n, 4)[i] == 0 { HighBytes(n, 4, i); }
    assert Le(n, 4)[0] == n;
  }

  lemma BitsAgree(x: bv8, k: bv8)
    ensures (((x ^ 3) ^ k) ^ 50) ^ 48 == (x ^ 1) ^ k
  {}

  lemma SmallBits()
    ensures Bits(3) == 3 && Bits(1) == 1 && Bits(50) == 50 && Bits(48) == 48
  {}

  lemma NumbersAgree(x: Byte, k: Byte)
    ensures Xor(Xor(Xor(Xor(x, 3), k), 50), 48) == Xor(Xor(x, 1), k)
  {
    hide *;
    XorIs(x, 3);
    XorIs(Xor(x, 3), k);
    XorIs(Xor(Xor(x, 3), k), 50);
    XorIs(Xor(Xor(Xor(x, 3), k), 50), 48);
    XorIs(x, 1);
    XorIs(Xor(x, 1), k);
    SmallBits();
    BitsAgree(Bits(x), Bits(k));
    SameBits(Xor(Xor(Xor(Xor(x, 3), k), 50), 48), Xor(Xor(x, 1), k));
  }

  lemma ChecksumShape(t: Text, id: nat, k: Key, n: int, p: Bytes)
    requires ShowInt(n) == p
    ensures Checksum(t, (id, Set(k, Int(n)))) ==
            XorFrom(0, Le(id, 8) + [1] + [1] + Le(|k|, 4) + Le(|p|, 4) + k + p)
  {
    hide Xor, XorFrom, Le, ShowInt;
  }

  /** The checksum of a write in three parts: what stands before the value's length, the length and key, the value. */
  lemma ChecksumParts(t: Text, id: nat, k: Key, n: int, p: Bytes)
    requires ShowInt(n) == p && |p| < 256
    ensures var x := XorFrom(0, Le(id, 8) + [1] + [1] + Le(|k|, 4));
            Checksum(t, (id, Set(k, Int(n)))) == XorFrom(Xor(Xor(x, |p|), XorFrom(0, k)), p)
  {
    hide Xor, XorFrom, Le, ShowInt, Checksum;
    var pre := Le(id, 8) + [1] + [1] + Le(|k|, 4);
    var x := XorFrom(0, pre);
    ChecksumShape(t, id, k, n, p);
    SmallLe(|p|);
    XorConcat(0, pre, Le(|p|, 4));
    XorConcat(0, pre + Le(|p|, 4), k);
    XorConcat(0, pre + Le(|p|, 4) + k, p);
    XorSmall(x, |p|);
    XorShift(Xor(x, |p|), k);
  }

  lemma SameChecksum(t: Text, id: nat, k: Key)
    requires Lawful(t)
    ensures Checksum(t, (id, Set(k, Int(205)))) == Checksum(t, (id, Set(k, Int(5))))
  {
    hide Xor, XorFrom, Le, ShowInt, Checksum, Lawful;
    Texts(t);
    ChecksumParts(t, id, k, 205, [50, 48, 53]);
    ChecksumParts(t, id, k, 5, [53]);
    var x := XorFrom(0, Le(id, 8) + [1] + [1] + Le(|k|, 4));
    var y := Xor(Xor(x, 3), XorFrom(0, k));
    XorConcat(y, [50, 48], [53]);
    XorConcat(y, [50], [48]);
    assert [50] + [48] == [50, 48] && [50, 48] + [53] == [50, 48, 53];
    XorOne(y, 50);
    XorOne(Xor(y, 50), 48);
    NumbersAgree(x, XorFrom(0, k));
  }

  /** The number 205 with its first digit damaged to 0 is read as 5: the shorter text makes up for the lost digit. */
  lemma NumberDamageUnseen(t: Text, id: nat, k: Key, more: Bytes)
    requires Lawful(t) && t.utf8(k) && id < Pow256(8) && |k| < Pow256(4)
    ensures var r := (id, Set(k, Int(205)));
            && 18 + |k| < |Encode(t, r)| && Encode(t, r)[18 + |k|] != 48
            && ParseRecord(t, Hit(t, r, 18 + |k|, 48, more)) == One((id, Set(k, Int(5))), |Encode(t, r)|)
  {
    hide Checksum, Lawful, ParseRecord, Pow256, ShowInt, ParseValue, Le;
    var r := (id, Set(k, Int(205)));
    Texts(t);
    SameChecksum(t, id, k);
    PowFour();
    assert Payload(t, r.1) == [50, 48, 53];
    assert HitValue(t, r, 18 + |k|, 48) == [48, 48, 53];
    ValueDamageIff(t, r, 18 + |k|, 48, more);
  }

  lemma PowFour()
    ensures Pow256(4) > 3
  {}
}
