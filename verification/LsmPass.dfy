/** A whole compaction pass: it keeps id order and recency the same if and only if the full levels have no gap. */
module StorePass {
  import opened Commands
  import opened Tables
  import opened KWayMerge
  import opened Store
  import opened StoreReads
  import opened StoreDisk

  /** Two levels that the pass will compact, with one between them that it will not. */
  predicate Gap(flags: seq<bool>) {
    exists i, m, j :: 0 <= i < m < j < |flags| && flags[i] && !flags[m] && flags[j]
  }

  lemma CompactShape(s: Store, i: nat, kept: set<nat>)
    ensures var s' := CompactLevel(s, i, kept);
            if i + 1 < |s.levels| && s.levels[i] != [] then
              && s'.levels == s.levels[i := []][i + 1 := [Merged(s.levels[i], s.levels[i + 1], s.nextId)]]
              && s'.nextId == s.nextId + 1
            else s' == s
  {
    hide Merged;
    if i + 1 < |s.levels| && s.levels[i] != [] {
      var t := Merged(s.levels[i], s.levels[i + 1], s.nextId);
      assert s.levels[i][|s.levels[i]|..] == [] && s.levels[i + 1][|s.levels[i + 1]|..] + [t] == [t];
    }
  }

  /** What the pass has done to each level after its first `n`. */
  predicate Shape(s: Store, s': Store, flags: seq<bool>, n: nat)
    requires n <= |flags| && |flags| < |s.levels|
  {
    && |s'.levels| == |s.levels|
    && (forall m :: n < m < |s.levels| ==> s'.levels[m] == s.levels[m])
    && (forall m :: 0 <= m < n && flags[m] ==> s'.levels[m] == [])
    && (forall m :: 0 <= m <= n && (m == n || !flags[m]) && s'.levels[m] != [] ==>
          s.levels[m] != [] || (m > 0 && flags[m - 1]))
    && (s.levels[n] != [] ==> s'.levels[n] != [])
  }

  lemma {:induction false} PassShape(s: Store, flags: seq<bool>, n: nat, kept: set<nat>)
    requires n <= |flags| && |flags| < |s.levels|
    ensures Shape(s, Pass(s, flags, n, kept), flags, n)
  {
    hide Merged;
    if n > 0 {
      PassShape(s, flags, n - 1, kept);
      CompactShape(Pass(s, flags, n - 1, kept), n - 1, kept);
      hide CompactLevel;
    }
  }

  lemma FlagsAre(s: Store)
    requires |s.levels| >= 2
    ensures |Flags(s)| == |s.levels| - 1
    ensures forall m :: 0 <= m < |Flags(s)| ==> (Flags(s)[m] <==> |s.levels[m]| >= s.config.tableThreshold)
  {}

  lemma GapAt(flags: seq<bool>, m: nat, j: nat)
    requires m < j < |flags| && flags[j] && !Gap(flags)
    ensures flags[m] || m == 0 || !flags[m - 1]
  {}

  /** Without a gap, nothing stands above a level when its turn comes. */
  lemma AboveIsEmpty(s: Store, n: nat, kept: set<nat>)
    requires Wf(s) && |s.levels| >= 2 && n < |Flags(s)| && Flags(s)[n] && !Gap(Flags(s))
    ensures |Pass(s, Flags(s), n, kept).levels| == |s.levels|
    ensures forall m :: 0 <= m < n ==> Pass(s, Flags(s), n, kept).levels[m] == []
  {
    hide AllSorted, ReplayWal, Pass;
    var flags, s' := Flags(s), Pass(s, Flags(s), n, kept);
    FlagsAre(s);
    hide Flags;
    PassShape(s, flags, n, kept);
    forall m | 0 <= m < n ensures s'.levels[m] == [] {
      GapAt(flags, m, n);
      assert |s.levels[n]| <= 1 && flags[n];
    }
  }

  lemma {:induction false} PassDisk(s: Store, n: nat, kept: set<nat>)
    requires Wf(s) && DiskOk(s) && |s.levels| >= 2 && n <= |Flags(s)| && !Gap(Flags(s))
    ensures DiskOk(Pass(s, Flags(s), n, kept))
  {
    hide Wf, DiskOk, Gap, Flags;
    if n > 0 {
      PassDisk(s, n - 1, kept);
      PassReads(s, Flags(s), n - 1, kept, []);
      var s' := Pass(s, Flags(s), n - 1, kept);
      if Flags(s)[n - 1] {
        AboveIsEmpty(s, n - 1, kept);
        if n < |s'.levels| && s'.levels[n - 1] != [] {
          CompactDisk(s', n - 1, kept);
        }
      }
    }
  }

  // ---------------------------------------------------------------- with a gap

  /** A level in front holds a table with a smaller id than one behind it. */
  predicate Dirty(levels: seq<seq<Table>>, m: nat) {
    m < |levels| && levels[m] != [] &&
    exists b :: m < b < |levels| && levels[b] != [] && levels[b][0].id > levels[m][0].id
  }

  lemma {:induction false} InOrder(levels: seq<seq<Table>>, m: nat)
    requires m < |levels| && levels[m] != []
    ensures levels[m][0] in Order(levels)
  {
    if m == 0 {
      assert Reverse(levels[0])[|levels[0]| - 1] == levels[0][0];
    } else {
      InOrder(levels[1..], m - 1);
    }
  }

  lemma DirtyIsDisordered(levels: seq<seq<Table>>, m: nat)
    requires Dirty(levels, m)
    ensures !Descending(Order(levels))
  {
    hide Order;
    var b :| m < b < |levels| && levels[b] != [] && levels[b][0].id > levels[m][0].id;
    assert levels[..b] + levels[b..] == levels;
    OrderConcat(levels[..b], levels[b..]);
    InOrder(levels[..b], m);
    InOrder(levels[b..], 0);
    var front, back, order := Order(levels[..b]), Order(levels[b..]), Order(levels);
    var x, y := Where(front, levels[m][0]), Where(back, levels[b][0]);
    assert order[x] == levels[m][0] && order[|front| + y] == levels[b][0];
  }

  predicate IdsBelow(s: Store) {
    forall m, i :: 0 <= m < |s.levels| && 0 <= i < |s.levels[m]| ==> s.levels[m][i].id < s.nextId
  }

  lemma {:induction false} PassIdsBelow(s: Store, flags: seq<bool>, n: nat, kept: set<nat>)
    requires IdsBelow(s) && n <= |flags|
    ensures IdsBelow(Pass(s, flags, n, kept))
  {
    hide Merged;
    if n > 0 {
      PassIdsBelow(s, flags, n - 1, kept);
      CompactShape(Pass(s, flags, n - 1, kept), n - 1, kept);
      MergedId(Pass(s, flags, n - 1, kept), n - 1);
      hide CompactLevel;
    }
  }

  lemma MergedId(s: Store, i: nat)
    ensures i + 1 < |s.levels| ==> Merged(s.levels[i], s.levels[i + 1], s.nextId).id == s.nextId
  {}

  /** A level that received a merged table and is not full itself keeps it to the end of the pass. */
  lemma {:induction false} Stuck(s: Store, m: nat, n: nat, kept: set<nat>)
    requires |s.levels| >= 2 && 0 < m <= n <= |Flags(s)| && Flags(s)[m - 1] && s.levels[m - 1] != []
    requires m < |Flags(s)| && !Flags(s)[m]
    ensures |Pass(s, Flags(s), n, kept).levels| == |s.levels| && Pass(s, Flags(s), n, kept).levels[m] != []
  {
    hide Merged;
    FlagsAre(s);
    var flags := Flags(s);
    hide Flags;
    PassShape(s, flags, n - 1, kept);
    if n > m {
      Stuck(s, m, n - 1, kept);
    }
    CompactShape(Pass(s, flags, n - 1, kept), n - 1, kept);
    hide CompactLevel;
  }

  lemma {:induction false} GapIsDirty(s: Store, m: nat, j: nat, n: nat, kept: set<nat>)
    requires |s.levels| >= 2 && 0 < m < j < n <= |Flags(s)| && IdsBelow(s)
    requires Flags(s)[m - 1] && s.levels[m - 1] != [] && !Flags(s)[m] && Flags(s)[j] && s.levels[j] != []
    ensures Dirty(Pass(s, Flags(s), n, kept).levels, m)
  {
    hide Merged, IdsBelow, Flags;
    FlagsCount(s);
    var flags := Flags(s);
    var s' := Pass(s, flags, n - 1, kept);
    PassShape(s, flags, n - 1, kept);
    PassIdsBelow(s, flags, n - 1, kept);
    Stuck(s, m, n - 1, kept);
    if n - 1 > j {
      GapIsDirty(s, m, j, n - 1, kept);
    }
    CompactDirties(s', n - 1, m, kept);
  }

  lemma FlagsCount(s: Store)
    requires |s.levels| >= 2
    ensures |Flags(s)| == |s.levels| - 1
  {}

  lemma CompactDirties(s: Store, i: nat, m: nat, kept: set<nat>)
    requires IdsBelow(s) && m < i && i + 1 < |s.levels| && s.levels[m] != []
    ensures s.levels[i] != [] || Dirty(s.levels, m) ==> Dirty(CompactLevel(s, i, kept).levels, m)
  {
    hide Merged;
    CompactShape(s, i, kept);
    MergedId(s, i);
    var s' := CompactLevel(s, i, kept);
    hide CompactLevel;
    if s.levels[i] != [] {
      assert s'.levels[i + 1][0].id == s.nextId && s.levels[m][0].id < s.nextId;
    }
  }

  /** The first level after `i` that is not full. */
  lemma {:induction false} FirstUnfull(flags: seq<bool>, i: nat, m: nat) returns (r: nat)
    requires i < m < |flags| && flags[i] && !flags[m]
    ensures i < r <= m && flags[r - 1] && !flags[r]
    decreases m - i
  {
    if flags[i + 1] { r := FirstUnfull(flags, i + 1, m); } else { r := i + 1; }
  }

  lemma LiveIdsBelow(s: Store)
    requires DiskOk(s)
    ensures IdsBelow(s)
  {
    hide Order, Sorted, Covered, Descending;
    forall m, i | 0 <= m < |s.levels| && 0 <= i < |s.levels[m]| ensures s.levels[m][i].id < s.nextId {
      AllInOrder(s.levels, m, i);
    }
  }

  lemma {:induction false} AllInOrder(levels: seq<seq<Table>>, m: nat, i: nat)
    requires m < |levels| && i < |levels[m]|
    ensures levels[m][i] in Order(levels)
  {
    if m == 0 {
      assert Reverse(levels[0])[|levels[0]| - 1 - i] == levels[0][i];
    } else {
      AllInOrder(levels[1..], m - 1, i);
    }
  }

  /**
    Exactly when a pass keeps newer tables above older ids: when no level that is not full lies between
    two that are.
  */
  lemma PassKeepsOrderIff(s: Store)
    requires Wf(s) && DiskOk(s)
    ensures Descending(Order(MaybeCompact(s).levels)) <==> !Gap(Flags(s))
  {
    hide Order, Descending, Pass, Flags, FilesMatch, FilesBelow, Covered, AllSorted, ReplayWal;
    if |s.levels| >= 2 {
      var flags, s' := Flags(s), MaybeCompact(s);
      FlagsAre(s);
      PassReads(s, flags, |flags|, {}, []);
      if !Gap(flags) {
        PassDisk(s, |flags|, {});
      } else {
        var i, m, j :| 0 <= i < m < j < |flags| && flags[i] && !flags[m] && flags[j];
        var r := FirstUnfull(flags, i, m);
        assert |s.levels[j]| <= 1;
        LiveIdsBelow(s);
        GapIsDirty(s, r, j, |flags|, {});
        DirtyIsDisordered(s'.levels, r);
      }
    } else {
      TooFewLevels(s);
    }
  }

  lemma TooFewLevels(s: Store)
    requires |s.levels| < 2 && DiskOk(s)
    ensures Flags(s) == [] && MaybeCompact(s) == s && Descending(Order(s.levels))
  {}

  /** The configurations in which no state has a gap. */
  predicate SafeConfig(c: Config) { c.tableThreshold != 1 || c.levels <= 3 }

  lemma SafeHasNoGap(s: Store)
    requires Wf(s) && SafeConfig(s.config)
    ensures !Gap(Flags(s))
  {
    hide AllSorted, ReplayWal;
    if |s.levels| >= 2 {
      FlagsAre(s);
    }
  }
}
