/** The Bloom filter: no false negatives under wrapping hashes, and its byte form. */
module Bloom {
  import opened Commands
  import opened ByteForms

  const U64: nat := 0x1_0000_0000_0000_0000
  const HASH_ALGORITHM: Byte := 1
  const HEADER_SIZE := 25

  /** The two 64-bit halves of a key's 128-bit hash, supplied by a library. */
  type Hash = Bytes -> (nat, nat)

  datatype Filter = Filter(bits: Bytes, numBits: nat, numHashes: nat)

  predicate Valid(f: Filter) { f.numBits > 0 && |f.bits| == (f.numBits + 7) / 8 }

  function Cleared(numBits: nat, numHashes: nat): Filter {
    Filter(seq((numBits + 7) / 8, _ => 0), numBits, numHashes)
  }

  // ---------------------------------------------------------------- bits of a byte

  predicate Bit(b: nat, j: nat) { if j == 0 then b % 2 == 1 else Bit(b / 2, j - 1) }

  /** `b | 1 << j` */
  function SetBit(b: nat, j: nat): nat {
    if j == 0 then b - b % 2 + 1 else 2 * SetBit(b / 2, j - 1) + b % 2
  }

  lemma {:induction false} SetBitBits(b: nat, j: nat, i: nat)
    ensures Bit(SetBit(b, j), i) <==> i == j || Bit(b, i)
  {
    if j > 0 && i > 0 {
      SetBitBits(b / 2, j - 1, i - 1);
      assert SetBit(b, j) / 2 == SetBit(b / 2, j - 1);
    } else if j == 0 && i > 0 {
      assert SetBit(b, 0) / 2 == b / 2;
    }
  }

  function Pow2(n: nat): nat { if n == 0 then 1 else 2 * Pow2(n - 1) }

  lemma {:induction false} SetBitFits(b: nat, j: nat, n: nat)
    requires b < Pow2(n) && j < n
    ensures SetBit(b, j) < Pow2(n)
  {
    var half := Pow2(n - 1);
    assert Pow2(n) == 2 * half && b / 2 < half;
    hide Pow2;
    if j > 0 {
      SetBitFits(b / 2, j - 1, n - 1);
      assert SetBit(b, j) == 2 * SetBit(b / 2, j - 1) + b % 2;
    }
  }

  lemma ByteBits()
    ensures Pow2(8) == 256
  {
    assert Pow2(1) == 2 && Pow2(2) == 4 && Pow2(3) == 8 && Pow2(4) == 16 && Pow2(5) == 32;
  }

  // ---------------------------------------------------------------- the filter

  predicate BitAt(f: Filter, x: nat)
    requires Valid(f) && x < f.numBits
  {
    Bit(f.bits[x / 8], x % 8)
  }

  function WithBit(f: Filter, x: nat): (r: Filter)
    requires Valid(f) && x < f.numBits
    ensures Valid(r) && r.numBits == f.numBits && r.numHashes == f.numHashes
  {
    ByteBits();
    SetBitFits(f.bits[x / 8], x % 8, 8);
    f.(bits := f.bits[x / 8 := SetBit(f.bits[x / 8], x % 8)])
  }

  lemma WithBitBits(f: Filter, x: nat, y: nat)
    requires Valid(f) && x < f.numBits && y < f.numBits
    ensures BitAt(WithBit(f, x), y) <==> y == x || BitAt(f, y)
  {
    hide Bit, SetBit;
    if y / 8 == x / 8 {
      SetBitBits(f.bits[x / 8], x % 8, y % 8);
    }
  }

  /** The i-th position of a key, in wrapping 64-bit arithmetic; the second hash is made odd. */
  function Probe(hash: Hash, k: Key, i: nat, numBits: nat): (x: nat)
    requires numBits > 0
    ensures x < numBits
  {
    var (h1, h2) := hash(k);
    var odd := if h2 % 2 == 0 then h2 + 1 else h2;
    (h1 + i * odd % U64) % U64 % numBits
  }

  function Insert(hash: Hash, f: Filter, k: Key, n: nat): (r: Filter)
    requires Valid(f)
    ensures Valid(r) && r.numBits == f.numBits && r.numHashes == f.numHashes
  {
    if n == 0 then f
    else
      var r := Insert(hash, f, k, n - 1);
      WithBit(r, Probe(hash, k, n - 1, f.numBits))
  }

  predicate MayContain(hash: Hash, f: Filter, k: Key)
    requires Valid(f)
  {
    forall i :: 0 <= i < f.numHashes ==> BitAt(f, Probe(hash, k, i, f.numBits))
  }

  /** Exactly the key's first `n` positions are added. */
  lemma {:induction false} InsertBits(hash: Hash, f: Filter, k: Key, n: nat, y: nat)
    requires Valid(f) && y < f.numBits
    ensures BitAt(Insert(hash, f, k, n), y) <==>
            BitAt(f, y) || exists i :: 0 <= i < n && Probe(hash, k, i, f.numBits) == y
  {
    hide BitAt, WithBit, Probe;
    if n > 0 {
      InsertBits(hash, f, k, n - 1, y);
      WithBitBits(Insert(hash, f, k, n - 1), Probe(hash, k, n - 1, f.numBits), y);
    }
  }

  function InsertAll(hash: Hash, f: Filter, keys: seq<Key>): (r: Filter)
    requires Valid(f)
    ensures Valid(r) && r.numBits == f.numBits && r.numHashes == f.numHashes
  {
    if |keys| == 0 then f
    else
      var r := InsertAll(hash, f, keys[..|keys| - 1]);
      Insert(hash, r, keys[|keys| - 1], r.numHashes)
  }

  /** No false negatives: every inserted key is found. */
  lemma {:induction false} NoFalseNegatives(hash: Hash, f: Filter, keys: seq<Key>, j: nat)
    requires Valid(f) && j < |keys|
    ensures MayContain(hash, InsertAll(hash, f, keys), keys[j])
  {
    hide BitAt, Probe, Insert;
    var before, k := InsertAll(hash, f, keys[..|keys| - 1]), keys[|keys| - 1];
    if j < |keys| - 1 {
      NoFalseNegatives(hash, f, keys[..|keys| - 1], j);
    }
    forall i | 0 <= i < f.numHashes
      ensures BitAt(InsertAll(hash, f, keys), Probe(hash, keys[j], i, f.numBits))
    {
      InsertBits(hash, before, k, before.numHashes, Probe(hash, keys[j], i, f.numBits));
    }
  }

  // ---------------------------------------------------------------- what the filter answers

  /** Double hashing: the first hash plus i times the second with its lowest bit set, modulo 2^64, then the size. */
  function Position(hash: Hash, k: Key, i: nat, numBits: nat): nat
    requires numBits > 0
  {
    (hash(k).0 + i * (2 * (hash(k).1 / 2) + 1)) % U64 % numBits
  }

  lemma WrapOnce(a: nat, b: nat)
    ensures (a + b % U64) % U64 == (a + b) % U64
  {
    var q, r := (a + b % U64) / U64, (a + b % U64) % U64;
    assert a + b == U64 * (b / U64 + q) + r;
    ModUnique(a + b, U64, b / U64 + q, r);
  }

  /** Wrapping at each operation is the same as wrapping once. */
  lemma ProbeIsPosition(hash: Hash, k: Key, i: nat, numBits: nat)
    requires numBits > 0
    ensures Probe(hash, k, i, numBits) == Position(hash, k, i, numBits)
  {
    var (h1, h2) := hash(k);
    var odd := if h2 % 2 == 0 then h2 + 1 else h2;
    assert odd == 2 * (h2 / 2) + 1;
    WrapOnce(h1, i * odd);
  }

  /** Some inserted key has position y among its own. */
  ghost predicate Marked(hash: Hash, keys: seq<Key>, n: nat, numBits: nat, y: nat)
    requires numBits > 0
  {
    exists j, i :: 0 <= j < |keys| && 0 <= i < n && Position(hash, keys[j], i, numBits) == y
  }

  lemma {:induction false} NoBits(j: nat)
    ensures !Bit(0, j)
  {
    if j > 0 { NoBits(j - 1); }
  }

  lemma MarkedSnoc(hash: Hash, keys: seq<Key>, n: nat, numBits: nat, y: nat)
    requires numBits > 0 && |keys| > 0
    ensures var k := keys[|keys| - 1];
            Marked(hash, keys, n, numBits, y) <==>
            Marked(hash, keys[..|keys| - 1], n, numBits, y)
            || exists i :: 0 <= i < n && Position(hash, k, i, numBits) == y
  {
    hide Position;
    var front, last := keys[..|keys| - 1], |keys| - 1;
    if Marked(hash, keys, n, numBits, y) {
      var j, i :| 0 <= j < |keys| && 0 <= i < n && Position(hash, keys[j], i, numBits) == y;
      assert j < last ==> Position(hash, front[j], i, numBits) == y;
    }
    if Marked(hash, front, n, numBits, y) {
      var j, i :| 0 <= j < |front| && 0 <= i < n && Position(hash, front[j], i, numBits) == y;
      assert Position(hash, keys[j], i, numBits) == y;
    }
    if i :| 0 <= i < n && Position(hash, keys[last], i, numBits) == y {
      assert Position(hash, keys[last], i, numBits) == y;
    }
  }

  /** A filter's bits are exactly the positions of the keys put in it. */
  lemma {:induction false} FilterBits(hash: Hash, numBits: nat, n: nat, keys: seq<Key>, y: nat)
    requires y < numBits
    ensures BitAt(InsertAll(hash, Cleared(numBits, n), keys), y) <==> Marked(hash, keys, n, numBits, y)
  {
    hide Bit, Position, Probe, Insert, Marked;
    if |keys| == 0 {
      NoBits(y % 8);
      assert !Marked(hash, keys, n, numBits, y) by { NothingMarked(hash, n, numBits, y); }
    } else {
      var front, k := keys[..|keys| - 1], keys[|keys| - 1];
      var f := InsertAll(hash, Cleared(numBits, n), front);
      FilterBits(hash, numBits, n, front, y);
      InsertBits(hash, f, k, n, y);
      forall i: nat ensures Probe(hash, k, i, numBits) == Position(hash, k, i, numBits) {
        ProbeIsPosition(hash, k, i, numBits);
      }
      MarkedSnoc(hash, keys, n, numBits, y);
    }
  }

  lemma NothingMarked(hash: Hash, n: nat, numBits: nat, y: nat)
    requires numBits > 0
    ensures !Marked(hash, [], n, numBits, y)
  {}

  /**
    What a query answers: yes exactly when each of the key's positions is a position of some key in the filter. So
    keys that were put in are always found, and any other only if others happen to cover all its positions.
  */
  lemma FilterAnswers(hash: Hash, numBits: nat, n: nat, keys: seq<Key>, k: Key)
    requires numBits > 0
    ensures MayContain(hash, InsertAll(hash, Cleared(numBits, n), keys), k) <==>
            forall i: nat :: i < n ==> Marked(hash, keys, n, numBits, Position(hash, k, i, numBits))
  {
    hide Position, Probe, Marked, BitAt;
    var f := InsertAll(hash, Cleared(numBits, n), keys);
    forall i: nat ensures Probe(hash, k, i, numBits) == Position(hash, k, i, numBits) {
      ProbeIsPosition(hash, k, i, numBits);
    }
    forall y: nat | y < numBits ensures BitAt(f, y) <==> Marked(hash, keys, n, numBits, y) {
      FilterBits(hash, numBits, n, keys, y);
    }
  }

  // ---------------------------------------------------------------- byte form

  function ToBytes(f: Filter): Bytes {
    [HASH_ALGORITHM] + Le(f.numBits, 8) + Le(f.numHashes, 8) + Le(|f.bits|, 8) + f.bits
  }

  function FromBytes(b: Bytes): (r: Option<Filter>)
    ensures r.Some? ==> Valid(r.value)
  {
    if |b| < HEADER_SIZE || b[0] != HASH_ALGORITHM then None
    else
      var numBits, numHashes, len := LeValue(b[1..9]), LeValue(b[9..17]), LeValue(b[17..25]);
      if numBits == 0 || numHashes == 0 || numHashes > 100 || len != (numBits + 7) / 8 || |b| != HEADER_SIZE + len
      then None
      else Some(Filter(b[25..], numBits, numHashes))
  }

  /** A filter is read back exactly when its dimensions are nonzero, agree, and at most 100 hashes are used. */
  lemma FilterRoundTripIff(f: Filter)
    requires f.numBits < Pow256(8) && f.numHashes < Pow256(8) && |f.bits| < Pow256(8)
    ensures FromBytes(ToBytes(f)) == Some(f) <==> Valid(f) && 1 <= f.numHashes <= 100
  {
    hide Le, LeValue, Pow256;
    LeRoundTrip(f.numBits, 8);
    LeRoundTrip(f.numHashes, 8);
    LeRoundTrip(|f.bits|, 8);
    var b := ToBytes(f);
    assert b[1..9] == Le(f.numBits, 8) && b[9..17] == Le(f.numHashes, 8) && b[17..25] == Le(|f.bits|, 8)
           && b[25..] == f.bits;
  }

  /** Whatever bytes are accepted as a filter are exactly the byte form of that filter, which is usable. */
  lemma AcceptedIsFilter(b: Bytes)
    requires FromBytes(b).Some?
    ensures var f := FromBytes(b).value; ToBytes(f) == b && Valid(f) && 1 <= f.numHashes <= 100
  {
    hide Le, LeValue, Pow256;
    LeOfValue(b[1..9]);
    LeOfValue(b[9..17]);
    LeOfValue(b[17..25]);
    assert b == [b[0]] + b[1..9] + b[9..17] + b[17..25] + b[25..];
  }

  // ---------------------------------------------------------------- the filter as the program keeps it

  class BloomFilter {
    const hash: Hash
    const numBits: nat
    const numHashes: nat
    var bits: Bytes

    function View(): Filter
      reads this
    {
      Filter(bits, numBits, numHashes)
    }

    constructor (hash: Hash, numBits: nat, numHashes: nat)
      requires numBits > 0
      ensures View() == Cleared(numBits, numHashes) && Valid(View()) && this.hash == hash
    {
      this.hash, this.numBits, this.numHashes := hash, numBits, numHashes;
      bits := seq((numBits + 7) / 8, _ => 0);
    }

    method Add(k: Key)
      requires Valid(View())
      modifies this`bits
      ensures View() == Insert(hash, old(View()), k, numHashes) && Valid(View())
    {
      for i := 0 to numHashes
        invariant Valid(View()) && View() == Insert(hash, old(View()), k, i)
      {
        var x := Probe(hash, k, i, numBits);
        ByteBits();
        SetBitFits(bits[x / 8], x % 8, 8);
        bits := bits[x / 8 := SetBit(bits[x / 8], x % 8)];
      }
    }

    method Query(k: Key) returns (r: bool)
      requires Valid(View())
      ensures r == MayContain(hash, View(), k)
    {
      for i := 0 to numHashes
        invariant forall j :: 0 <= j < i ==> BitAt(View(), Probe(hash, k, j, numBits))
      {
        var x := Probe(hash, k, i, numBits);
        if !Bit(bits[x / 8], x % 8) {
          assert !BitAt(View(), x);
          return false;
        }
      }
      r := true;
    }
  }
}
