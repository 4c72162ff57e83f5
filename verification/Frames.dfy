/** Files that are a run of self-delimiting records: what a scan finds, whole or cut anywhere. */
module Frames {
  import opened Commands
  import opened Sequences

  /** One attempt to read a record: clean end of file, a damaged record, or a record and its length. */
  datatype Parsed<T> = End | Damaged | One(value: T, size: nat)

  type Parser<!T> = Bytes -> Parsed<T>

  /** What a scan found: the records, where each began, where it stopped, and whether damage stopped it. */
  datatype Scanned<T> = Scanned(values: seq<T>, starts: seq<nat>, end: nat, damaged: bool)

  ghost predicate Sound<T(!new)>(parse: Parser<T>) {
    forall b :: parse(b).One? ==> 0 < parse(b).size <= |b|
  }

  /** A record is recognised by its own bytes alone. */
  ghost predicate Stable<T(!new)>(parse: Parser<T>) {
    forall b, more: Bytes :: parse(b).One? && parse(b).size <= |b| ==> parse(b[..parse(b).size] + more) == parse(b)
  }

  ghost predicate RoundTrips<T>(parse: Parser<T>, encode: T -> Bytes, x: T) {
    parse(encode(x)) == One(x, |encode(x)|) && |encode(x)| > 0
  }

  /** The scan from position `at` on. */
  function Scan<T>(parse: Parser<T>, b: Bytes, at: nat): (r: Scanned<T>)
    requires at <= |b|
    ensures |r.values| == |r.starts| && at <= r.end <= |b| && r.damaged == parse(b[r.end..]).Damaged?
    decreases |b| - at
  {
    var p := parse(b[at..]);
    if p.One? && 0 < p.size <= |b| - at then
      var rest := Scan(parse, b, at + p.size);
      Scanned([p.value] + rest.values, [at] + rest.starts, rest.end, rest.damaged)
    else Scanned([], [], at, p.Damaged?)
  }

  function Encoded<T>(encode: T -> Bytes, xs: seq<T>): Bytes {
    if |xs| == 0 then [] else encode(xs[0]) + Encoded(encode, xs[1..])
  }

  lemma {:induction false} EncodedConcat<T>(encode: T -> Bytes, xs: seq<T>, ys: seq<T>)
    ensures Encoded(encode, xs + ys) == Encoded(encode, xs) + Encoded(encode, ys)
  {
    if |xs| == 0 {
      assert xs + ys == ys;
    } else {
      assert (xs + ys)[1..] == xs[1..] + ys;
      EncodedConcat(encode, xs[1..], ys);
    }
  }

  lemma EncodedSnoc<T>(encode: T -> Bytes, xs: seq<T>, x: T)
    ensures Encoded(encode, xs + [x]) == Encoded(encode, xs) + encode(x)
  {
    EncodedConcat(encode, xs, [x]);
    assert [x][1..] == [];
    assert Encoded(encode, [x]) == encode(x) + [];
  }

  /** How many records lie wholly before byte `cut`. */
  function Whole<T>(encode: T -> Bytes, xs: seq<T>, cut: nat): (n: nat)
    ensures n <= |xs|
  {
    if |xs| == 0 || |encode(xs[0])| > cut then 0
    else 1 + Whole(encode, xs[1..], cut - |encode(xs[0])|)
  }

  /** `Whole` counts exactly the records that end at or before the cut. */
  lemma {:induction false} WholeMeans<T>(encode: T -> Bytes, xs: seq<T>, cut: nat, n: nat)
    requires n <= |xs|
    ensures n <= Whole(encode, xs, cut) <==> |Encoded(encode, xs[..n])| <= cut || n == 0
  {
    if n > 0 {
      assert xs[..n][1..] == xs[1..][..n - 1];
      if |encode(xs[0])| <= cut {
        WholeMeans(encode, xs[1..], cut - |encode(xs[0])|, n - 1);
        if n == 1 { assert Encoded(encode, xs[..1][1..]) == []; }
      }
    }
  }

  /** Where each record begins. */
  function Starts<T>(encode: T -> Bytes, xs: seq<T>, at: nat): seq<nat> {
    if |xs| == 0 then [] else [at] + Starts(encode, xs[1..], at + |encode(xs[0])|)
  }

  lemma {:induction false} StartsAt<T>(encode: T -> Bytes, xs: seq<T>, at: nat, i: nat)
    requires i < |xs|
    ensures |Starts(encode, xs, at)| == |xs| && Starts(encode, xs, at)[i] == at + |Encoded(encode, xs[..i])|
  {
    if i == 0 {
      StartsLength(encode, xs, at);
    } else {
      StartsAt(encode, xs[1..], at + |encode(xs[0])|, i - 1);
      assert xs[..i][1..] == xs[1..][..i - 1];
    }
  }

  lemma {:induction false} StartsLength<T>(encode: T -> Bytes, xs: seq<T>, at: nat)
    ensures |Starts(encode, xs, at)| == |xs|
  {
    if |xs| > 0 { StartsLength(encode, xs[1..], at + |encode(xs[0])|); }
  }

  lemma {:induction false} StartsConcat<T>(encode: T -> Bytes, xs: seq<T>, ys: seq<T>, at: nat)
    ensures Starts(encode, xs + ys, at) ==
            Starts(encode, xs, at) + Starts(encode, ys, at + |Encoded(encode, xs)|)
  {
    if |xs| == 0 {
      assert xs + ys == ys;
    } else {
      assert (xs + ys)[1..] == xs[1..] + ys;
      StartsConcat(encode, xs[1..], ys, at + |encode(xs[0])|);
    }
  }

  /** A scan from `at` found exactly the first `n` of `xs`, at their true starts, and stopped behind them. */
  predicate Found<T(==)>(r: Scanned<T>, encode: T -> Bytes, xs: seq<T>, n: nat, at: nat) {
    && n <= |xs| && r.values == xs[..n] && r.starts == Starts(encode, xs[..n], at)
    && r.end == at + |Encoded(encode, xs[..n])|
  }

  lemma FoundNone<T>(r: Scanned<T>, encode: T -> Bytes, xs: seq<T>, at: nat)
    requires r.values == [] && r.starts == [] && r.end == at
    ensures Found(r, encode, xs, 0, at)
  {}

  lemma FoundCons<T>(r: Scanned<T>, encode: T -> Bytes, xs: seq<T>, n: nat, at: nat)
    requires |xs| > 0 && Found(r, encode, xs[1..], n, at + |encode(xs[0])|)
    ensures Found(Scanned([xs[0]] + r.values, [at] + r.starts, r.end, r.damaged), encode, xs, n + 1, at)
  {
    assert xs[..n + 1][1..] == xs[1..][..n];
  }

  lemma LongerRead<T(!new)>(parse: Parser<T>, b: Bytes, cut: nat)
    requires Sound(parse) && Stable(parse) && cut <= |b|
    ensures parse(b[..cut]).One? ==> parse(b) == parse(b[..cut])
  {
    var head := b[..cut];
    var p := parse(head);
    if p.One? {
      assert head[..p.size] + b[p.size..] == b;
    }
  }

  /** A record cut short is never taken for a record. */
  lemma CutRecord<T(!new)>(parse: Parser<T>, encode: T -> Bytes, x: T, cut: nat)
    requires Sound(parse) && Stable(parse) && RoundTrips(parse, encode, x) && cut < |encode(x)|
    ensures !parse(encode(x)[..cut]).One?
  {
    hide Stable;
    LongerRead(parse, encode(x), cut);
  }

  /** Good records, then anything that is not a record: the scan finds exactly the good ones. */
  lemma {:induction false} ScanUntil<T(!new)>(parse: Parser<T>, encode: T -> Bytes, xs: seq<T>, before: Bytes,
                                              tail: Bytes)
    requires Stable(parse) && !parse(tail).One? && forall i :: 0 <= i < |xs| ==> RoundTrips(parse, encode, xs[i])
    ensures var r := Scan(parse, before + (Encoded(encode, xs) + tail), |before|);
            Found(r, encode, xs, |xs|, |before|) && r.damaged == parse(tail).Damaged?
    decreases |xs|
  {
    hide RoundTrips, Scan, Found;
    if |xs| == 0 {
      assert [] + tail == tail;
      ScanStops(parse, before, tail);
      FoundNone(Scan(parse, before + tail, |before|), encode, xs, |before|);
    } else {
      var x, rest, e := xs[0], xs[1..], encode(xs[0]);
      var after := Encoded(encode, rest) + tail;
      Recognised(parse, encode, x);
      assert Encoded(encode, xs) + tail == e + after;
      ScanSteps(parse, before, e, after, x);
      ScanUntil(parse, encode, rest, before + e, tail);
      FoundCons(Scan(parse, before + e + after, |before + e|), encode, xs, |rest|, |before|);
    }
  }

  /** Good records, then anything: the scan finds the good ones and goes on behind them. */
  lemma {:induction false} ScanPast<T(!new)>(parse: Parser<T>, encode: T -> Bytes, xs: seq<T>, before: Bytes,
                                             tail: Bytes)
    requires Stable(parse) && forall i :: 0 <= i < |xs| ==> RoundTrips(parse, encode, xs[i])
    ensures var b, at := before + (Encoded(encode, xs) + tail), |before| + |Encoded(encode, xs)|;
            Scan(parse, b, |before|).values == xs + Scan(parse, b, at).values
    decreases |xs|
  {
    hide RoundTrips, Scan, Stable;
    if |xs| == 0 {
      assert [] + tail == tail;
    } else {
      var x, rest, e := xs[0], xs[1..], encode(xs[0]);
      var after := Encoded(encode, rest) + tail;
      Recognised(parse, encode, x);
      Assoc(e, Encoded(encode, rest), tail);
      ScanSteps(parse, before, e, after, x);
      ScanPast(parse, encode, rest, before + e, tail);
      Assoc([x], rest, Scan(parse, before + e + after, |before + e| + |Encoded(encode, rest)|).values);
      assert [x] + rest == xs;
    }
  }

  /** A file of records cut at any byte: the whole records, then the start of the next one. */
  lemma {:induction false} CutFile<T>(encode: T -> Bytes, xs: seq<T>, cut: nat)
    requires cut <= |Encoded(encode, xs)|
    ensures var n := Whole(encode, xs, cut);
            var size := |Encoded(encode, xs[..n])|;
            && size <= cut && (cut == |Encoded(encode, xs)| ==> n == |xs| && size == cut)
            && (n == |xs| ==> size == cut)
            && (n < |xs| ==> cut - size < |encode(xs[n])|)
            && Encoded(encode, xs)[..cut] ==
               Encoded(encode, xs[..n]) + if n < |xs| then encode(xs[n])[..cut - size] else []
    decreases |xs|
  {
    if |xs| > 0 {
      var e, rest := encode(xs[0]), xs[1..];
      if |e| <= cut {
        var n := Whole(encode, rest, cut - |e|);
        CutFile(encode, rest, cut - |e|);
        assert xs[..n + 1][1..] == rest[..n];
        assert Encoded(encode, xs)[..cut] == e + Encoded(encode, rest)[..cut - |e|];
      } else {
        assert Encoded(encode, xs)[..cut] == e[..cut];
      }
    }
  }

  /**
    A file of good records cut at any byte scans to exactly the records that lie wholly before the cut,
    each at its true start.
  */
  lemma ScanCut<T(!new)>(parse: Parser<T>, encode: T -> Bytes, xs: seq<T>, cut: nat)
    requires Sound(parse) && Stable(parse) && !parse([]).One?
    requires forall i :: 0 <= i < |xs| ==> RoundTrips(parse, encode, xs[i])
    requires cut <= |Encoded(encode, xs)|
    ensures var n := Whole(encode, xs, cut);
            var r := Scan(parse, Encoded(encode, xs)[..cut], 0);
            && Found(r, encode, xs, n, 0) && (cut == |Encoded(encode, xs)| ==> n == |xs|)
            && Encoded(encode, xs)[..r.end] == Encoded(encode, xs[..n]) && !parse(Encoded(encode, xs)[r.end..cut]).One?
  {
    hide RoundTrips, Scan, Encoded, Whole;
    CutFile(encode, xs, cut);
    var n := Whole(encode, xs, cut);
    var whole := Encoded(encode, xs[..n]);
    var tail := if n < |xs| then encode(xs[n])[..cut - |whole|] else [];
    if n < |xs| { CutRecord(parse, encode, xs[n], cut - |whole|); }
    ScanUntil(parse, encode, xs[..n], [], tail);
    var b := Encoded(encode, xs)[..cut];
    assert [] + (whole + tail) == b;
    assert xs[..n][..n] == xs[..n];
    assert b[..|whole|] == whole && b[|whole|..] == tail;
    assert Encoded(encode, xs)[..|whole|] == b[..|whole|] && Encoded(encode, xs)[|whole|..cut] == b[|whole|..];
  }

  /** What a scan kept, scanned again, is the same. */
  lemma {:induction false} ScanPrefix<T(!new)>(parse: Parser<T>, b: Bytes, at: nat)
    requires Sound(parse) && Stable(parse) && !parse([]).One? && at <= |b|
    ensures var r := Scan(parse, b, at);
            var r' := Scan(parse, b[..r.end], at);
            r'.values == r.values && r'.starts == r.starts && r'.end == r.end
    decreases |b| - at
  {
    hide Scan, Stable;
    var end, p := Scan(parse, b, at).end, parse(b[at..]);
    ScanUnfold(parse, b, at);
    ScanUnfold(parse, b[..end], at);
    if p.One? {
      ScanPrefix(parse, b, at + p.size);
      CutRead(parse, b, at, end);
    } else {
      assert b[..at][at..] == [];
    }
  }

  lemma ScanUnfold<T>(parse: Parser<T>, b: Bytes, at: nat)
    requires at <= |b|
    ensures var p := parse(b[at..]);
            Scan(parse, b, at) ==
            if p.One? && 0 < p.size <= |b| - at then
              var rest := Scan(parse, b, at + p.size);
              Scanned([p.value] + rest.values, [at] + rest.starts, rest.end, rest.damaged)
            else Scanned([], [], at, p.Damaged?)
  {}

  lemma ScanSteps<T(!new)>(parse: Parser<T>, before: Bytes, e: Bytes, tail: Bytes, x: T)
    requires Stable(parse) && parse(e) == One(x, |e|) && |e| > 0
    ensures before + (e + tail) == (before + e) + tail
    ensures var b, rest := before + (e + tail), Scan(parse, before + e + tail, |before + e|);
            Scan(parse, b, |before|) == Scanned([x] + rest.values, [|before|] + rest.starts, rest.end, rest.damaged)
  {
    var b := before + (e + tail);
    assert b[|before|..] == e + tail && e[..|e|] == e;
    assert b == before + e + tail;
  }

  /** A parser that does not read past a record reads it from the shorter file too. */
  lemma CutRead<T(!new)>(parse: Parser<T>, b: Bytes, at: nat, end: nat)
    requires Stable(parse) && at <= |b| && parse(b[at..]).One? && at + parse(b[at..]).size <= end <= |b|
    ensures parse(b[..end][at..]) == parse(b[at..])
  {
    var long, short := b[at..], b[..end][at..];
    var n := parse(long).size;
    assert short == long[..n] + short[n..];
  }

  lemma ScanStops<T>(parse: Parser<T>, before: Bytes, tail: Bytes)
    requires !parse(tail).One?
    ensures Scan(parse, before + tail, |before|) == Scanned([], [], |before|, parse(tail).Damaged?)
  {
    assert (before + tail)[|before|..] == tail;
  }

  lemma Recognised<T>(parse: Parser<T>, encode: T -> Bytes, x: T)
    requires RoundTrips(parse, encode, x)
    ensures parse(encode(x)) == One(x, |encode(x)|) && |encode(x)| > 0
  {}

  /** A whole file scans to all its records. */
  lemma ScanWhole<T(!new)>(parse: Parser<T>, encode: T -> Bytes, xs: seq<T>)
    requires Sound(parse) && Stable(parse) && !parse([]).One?
    requires forall i :: 0 <= i < |xs| ==> RoundTrips(parse, encode, xs[i])
    ensures var r := Scan(parse, Encoded(encode, xs), 0);
            r.values == xs && r.starts == Starts(encode, xs, 0) && r.end == |Encoded(encode, xs)|
  {
    hide Scan, Encoded, RoundTrips;
    var b := Encoded(encode, xs);
    ScanCut(parse, encode, xs, |b|);
    assert b[..|b|] == b && xs[..|xs|] == xs;
  }

  // ---------------------------------------------------------------- reading a known number of records

  /** Exactly `n` records from `at` on, and where they end. */
  function Take<T>(parse: Parser<T>, b: Bytes, at: nat, n: nat): (r: Option<(seq<T>, nat)>)
    requires at <= |b|
    ensures r.Some? ==> |r.value.0| == n && at <= r.value.1 <= |b|
    decreases n
  {
    if n == 0 then Some(([], at))
    else
      var p := parse(b[at..]);
      if p.One? && p.size <= |b| - at then
        var rest := Take(parse, b, at + p.size, n - 1);
        if rest.Some? then Some(([p.value] + rest.value.0, rest.value.1)) else None
      else None
  }

  lemma {:induction false} TakeAll<T(!new)>(parse: Parser<T>, encode: T -> Bytes, xs: seq<T>, before: Bytes,
                                            after: Bytes)
    requires Stable(parse) && forall i :: 0 <= i < |xs| ==> RoundTrips(parse, encode, xs[i])
    ensures Take(parse, before + Encoded(encode, xs) + after, |before|, |xs|) ==
            Some((xs, |before| + |Encoded(encode, xs)|))
    decreases |xs|
  {
    hide RoundTrips, Stable, Take;
    if |xs| == 0 {
      TakeNone(parse, before + [] + after, |before|);
    } else {
      var e, rest := encode(xs[0]), xs[1..];
      var tail := Encoded(encode, rest) + after;
      Recognised(parse, encode, xs[0]);
      SplitAround(before, e, Encoded(encode, rest), after);
      FollowedBy(parse, e, tail);
      TakeOne(parse, before + (e + Encoded(encode, rest)) + after, |before|, |xs|);
      TakeAll(parse, encode, rest, before + e, after);
      assert [xs[0]] + rest == xs;
    }
  }

  lemma SplitAround(before: Bytes, e: Bytes, rest: Bytes, after: Bytes)
    ensures var b := before + (e + rest) + after;
            b[|before|..] == e + (rest + after) && b == before + e + rest + after
  {}

  lemma TakeNone<T>(parse: Parser<T>, b: Bytes, at: nat)
    requires at <= |b|
    ensures Take(parse, b, at, 0) == Some(([], at))
  {}

  lemma TakeOne<T>(parse: Parser<T>, b: Bytes, at: nat, n: nat)
    requires at <= |b| && n > 0 && parse(b[at..]).One? && parse(b[at..]).size <= |b| - at
    ensures var p := parse(b[at..]);
            var rest := Take(parse, b, at + p.size, n - 1);
            Take(parse, b, at, n) == if rest.Some? then Some(([p.value] + rest.value.0, rest.value.1)) else None
  {}

  lemma FollowedBy<T(!new)>(parse: Parser<T>, e: Bytes, tail: Bytes)
    requires Stable(parse) && parse(e).One? && parse(e).size == |e|
    ensures parse(e + tail) == parse(e)
  {
    assert e[..|e|] == e;
  }

  /** The record that begins at a true start is read back from there. */
  lemma ReadAtStart<T(!new)>(parse: Parser<T>, encode: T -> Bytes, xs: seq<T>, before: Bytes, after: Bytes, i: nat)
    requires Stable(parse) && i < |xs| && RoundTrips(parse, encode, xs[i])
    ensures var b, at := before + Encoded(encode, xs) + after, |before| + |Encoded(encode, xs[..i])|;
            at <= |b| && parse(b[at..]) == One(xs[i], |encode(xs[i])|)
  {
    hide Stable;
    var e, rest := encode(xs[i]), Encoded(encode, xs[i + 1..]) + after;
    assert xs == xs[..i] + xs[i..] && xs[i..][1..] == xs[i + 1..];
    EncodedConcat(encode, xs[..i], xs[i..]);
    var b, at := before + Encoded(encode, xs) + after, |before| + |Encoded(encode, xs[..i])|;
    assert b[at..] == e + rest;
    FollowedBy(parse, e, rest);
  }
}
