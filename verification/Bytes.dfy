/** Bytes on disk: little-endian integers, decimal text, and what is taken as given about text. */
module ByteForms {
  import opened Commands

  function Pow256(n: nat): (p: nat)
    ensures p >= 1
  {
    if n == 0 then 1 else 256 * Pow256(n - 1)
  }

  /** The `width` low bytes of `n`, lowest first: what a cast to a narrower integer keeps. */
  function Le(n: nat, width: nat): (b: Bytes)
    ensures |b| == width
  {
    if width == 0 then [] else [n % 256] + Le(n / 256, width - 1)
  }

  function LeValue(b: Bytes): nat {
    if |b| == 0 then 0 else b[0] + 256 * LeValue(b[1..])
  }

  /** Reading back gives the number modulo the width, so exactly the numbers that fit survive. */
  lemma {:induction false} LeRoundTrip(n: nat, width: nat)
    ensures LeValue(Le(n, width)) == n % Pow256(width)
    ensures LeValue(Le(n, width)) == n <==> n < Pow256(width)
  {
    if width > 0 {
      LeRoundTrip(n / 256, width - 1);
      ModStep(n, Pow256(width - 1));
    }
    assert n % Pow256(width) < Pow256(width);
    if n < Pow256(width) { SmallMod(n, Pow256(width)); }
  }

  /** Any bytes are the form of the number they are read as. */
  lemma {:induction false} LeOfValue(b: Bytes)
    ensures Le(LeValue(b), |b|) == b && LeValue(b) < Pow256(|b|)
  {
    if |b| > 0 {
      LeOfValue(b[1..]);
      var n := LeValue(b);
      assert n % 256 == b[0] && n / 256 == LeValue(b[1..]);
      assert b == [b[0]] + b[1..];
    }
  }

  lemma SmallMod(n: nat, m: nat)
    requires n < m
    ensures n % m == n
  {}

  lemma ModStep(n: nat, p: nat)
    requires p >= 1
    ensures n % 256 + 256 * (n / 256 % p) == n % (256 * p)
  {
    var a, r := n / 256, n % 256;
    var q, s := a / p, a % p;
    assert n == 256 * (p * q + s) + r == (256 * p) * q + (256 * s + r);
    assert 256 * s + r < 256 * p;
    ModUnique(n, 256 * p, q, 256 * s + r);
  }

  lemma ModUnique(n: nat, m: nat, q: nat, r: nat)
    requires r < m && n == m * q + r
    ensures n % m == r
  {
    var d := n / m - q;
    assert m * d == m * (n / m) - m * q == r - n % m;
    assert (d >= 1 ==> m * d >= m) && (d <= -1 ==> m * d + m <= 0);
  }

  // ---------------------------------------------------------------- decimal text

  function Digits(n: nat): (b: Bytes)
    ensures |b| > 0 && forall i :: 0 <= i < |b| ==> 48 <= b[i] < 58
  {
    if n < 10 then [48 + n] else Digits(n / 10) + [48 + n % 10]
  }

  function ParseDigits(b: Bytes): Option<nat> {
    if |b| == 0 then Some(0)
    else
      var front, d := ParseDigits(b[..|b| - 1]), b[|b| - 1];
      if front.Some? && 48 <= d < 58 then Some(10 * front.value + (d - 48)) else None
  }

  lemma {:induction false} DigitsRoundTrip(n: nat)
    ensures ParseDigits(Digits(n)) == Some(n)
  {
    if n < 10 {
      assert [48 + n][..0] == [];
      assert ParseDigits([48 + n][..0]) == Some(0);
    } else {
      DigitsRoundTrip(n / 10);
      assert Digits(n)[..|Digits(n)| - 1] == Digits(n / 10);
    }
  }

  const I64_MIN: int := -0x8000_0000_0000_0000
  const I64_MAX: int := 0x7fff_ffff_ffff_ffff

  function ShowInt(i: int): (b: Bytes)
    ensures |b| > 0 && forall j :: 0 <= j < |b| ==> b[j] < 128
  {
    if i < 0 then [45] + Digits(-i) else Digits(i)
  }

  /** An optional sign, then at least one digit, within 64 bits. */
  function ParseInt(b: Bytes): Option<int> {
    if |b| == 0 then None
    else
      var signed := b[0] == 45 || b[0] == 43;
      var digits := if signed then b[1..] else b;
      var n := if |digits| == 0 then None else ParseDigits(digits);
      if n.None? then None
      else
        var size: int := n.value;
        var i: int := if b[0] == 45 then -size else size;
        if I64_MIN <= i <= I64_MAX then Some(i) else None
  }

  lemma IntRoundTrip(i: int)
    ensures ParseInt(ShowInt(i)) == if I64_MIN <= i <= I64_MAX then Some(i) else None
  {
    hide ParseDigits;
    DigitsRoundTrip(if i < 0 then -i else i);
    if i < 0 {
      assert ShowInt(i)[1..] == Digits(-i);
    }
  }

  // ---------------------------------------------------------------- what is taken as given

  /** UTF-8 validity and the text form of floating-point numbers, supplied by the language's library. */
  datatype Text = Text(utf8: Bytes -> bool, showFloat: nat -> Bytes, readFloat: Bytes -> Option<nat>)

  /** ASCII is UTF-8. */
  ghost predicate Lawful(t: Text) {
    forall b: Bytes :: (forall i :: 0 <= i < |b| ==> b[i] < 128) ==> t.utf8(b)
  }

  /**
    Strings are valid UTF-8, integers have 64 bits, and a float is one whose text reads back as the same bits.
    (All NaNs print alike and read back as one of them, so the others are not.)
  */
  predicate ValidValue(t: Text, v: Value) {
    match v
    case Int(i) => I64_MIN <= i <= I64_MAX
    case Float(x) => t.utf8(t.showFloat(x)) && t.readFloat(t.showFloat(x)) == Some(x)
    case Str(s) => t.utf8(s)
  }

  predicate ValidCommand(t: Text, c: Command) { t.utf8(c.key) && (c.Set? ==> ValidValue(t, c.value)) }

  function ValueBytes(t: Text, v: Value): Bytes {
    match v
    case Int(i) => ShowInt(i)
    case Float(x) => t.showFloat(x)
    case Str(s) => s
  }

  /** The kind of a value: 0 integer, 1 float, 2 string. */
  function KindOf(v: Value): nat {
    match v
    case Int(_) => 0
    case Float(_) => 1
    case Str(_) => 2
  }

  function ParseValue(t: Text, kind: nat, b: Bytes): Option<Value> {
    if !t.utf8(b) then None
    else if kind == 0 then
      var i := ParseInt(b);
      if i.Some? then Some(Int(i.value)) else None
    else if kind == 1 then
      var x := t.readFloat(b);
      if x.Some? then Some(Float(x.value)) else None
    else if kind == 2 then Some(Str(b))
    else None
  }

  /** A value's byte form reads back as that value exactly when the value is valid. */
  lemma ValueRoundTripIff(t: Text, v: Value)
    requires Lawful(t)
    ensures ParseValue(t, KindOf(v), ValueBytes(t, v)) == Some(v) <==> ValidValue(t, v)
  {
    if v.Int? {
      IntRoundTrip(v.i);
    }
  }

  // ---------------------------------------------------------------- slicing

  /** Reading `n` bytes at `at` gives the same in any file that begins with the same `size` bytes. */
  lemma SliceStable(b: Bytes, more: Bytes, size: nat, at: nat, n: nat)
    requires at + n <= size <= |b|
    ensures (b[..size] + more)[at..at + n] == b[at..at + n]
  {}
}
