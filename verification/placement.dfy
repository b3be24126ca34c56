/**
 The tiling of decorative logo markers down a blog page: a seed list of
 markers is folded over a list of vertical offsets, and every fold appends a
 copy of everything accumulated so far, moved down by that fold's offset.
 */
module Placement {

  /** A decorative marker: horizontal offset, vertical offset and size. */
  datatype Marker = Marker(x: int, y: int, size: int)

  /** 2 to the power `k`. */
  function Pow2(k: nat): (r: nat)
    ensures r >= 1
  {
    if k == 0 then 1 else 2 * Pow2(k - 1)
  }

  /** The marker moved down by `offset`. */
  function Shift(m: Marker, offset: int): Marker {
    m.(y := m.y + offset)
  }

  /** Every marker of `a` moved down by `offset`, in the same order. */
  function ShiftAll(a: seq<Marker>, offset: int): (r: seq<Marker>)
    ensures |r| == |a|
    ensures forall i :: 0 <= i < |a| ==>
              r[i].x == a[i].x && r[i].size == a[i].size && r[i].y == a[i].y + offset
  {
    if |a| == 0 then [] else [Shift(a[0], offset)] + ShiftAll(a[1..], offset)
  }

  /**
   One step of the fold: the accumulator followed by a copy of itself moved
   down by `offset`.
   */
  function FoldStep(acc: seq<Marker>, offset: int): seq<Marker> {
    acc + ShiftAll(acc, offset)
  }

  /** The left fold of FoldStep over `offsets`, starting from `seed`. */
  function Expand(seed: seq<Marker>, offsets: seq<int>): seq<Marker>
    decreases |offsets|
  {
    if |offsets| == 0 then seed
    else Expand(FoldStep(seed, offsets[0]), offsets[1..])
  }

  /** `n` markers doubled, then tiled `Pow2(k)` times, is `n` tiled `Pow2(k + 1)` times. */
  lemma {:induction false} DoubledBlocks(n: nat, k: nat)
    ensures (2 * n) * Pow2(k) == n * Pow2(k + 1)
  {
    assert Pow2(k + 1) == 2 * Pow2(k);
  }

  /**
   When block number `q` is `2 * q' + bit`, position `j` of block `q` of `n`
   markers is position `jj` of block `q'` of `m == 2 * n` markers, where `jj`
   is `j` in the first half of that block and `n + j` in the second.
   */
  lemma {:induction false} BlockIndex(n: nat, m: nat, q: nat, q': nat, bit: nat, j: nat, jj: nat)
    requires m == 2 * n && q == 2 * q' + bit && bit < 2
    requires jj == if bit == 0 then j else n + j
    ensures q * n + j == q' * m + jj
  {
    if bit == 0 {
      calc {
        q * n;
        (2 * q') * n;
        q' * (2 * n);
      }
    } else {
      calc {
        q * n;
        (2 * q' + 1) * n;
        (2 * q') * n + n;
        q' * (2 * n) + n;
      }
    }
  }

  /** A position inside `p` blocks of `n` lies inside the first `p * n`. */
  lemma {:induction false} BlockBound(n: nat, p: nat, q: nat, j: nat)
    requires q < p && j < n
    ensures q * n + j < n * p
  {
    assert q * n <= (p - 1) * n;
  }

  /**
   Whether `k` is the sum of some selection of the entries of `offsets` (the
   empty selection gives 0).
   */
  predicate IsSubsetSum(offsets: seq<int>, k: int)
    decreases |offsets|
  {
    if |offsets| == 0 then k == 0
    else IsSubsetSum(offsets[1..], k) || IsSubsetSum(offsets[1..], k - offsets[0])
  }

  /**
   The sum of the offsets selected by the binary digits of `q`: bit `t` of
   `q` selects `offsets[t]`.
   */
  function SelectedSum(offsets: seq<int>, q: nat): int
    decreases |offsets|
  {
    if |offsets| == 0 then 0
    else (if q % 2 == 1 then offsets[0] else 0) + SelectedSum(offsets[1..], q / 2)
  }

  // ---------------------------------------------------------------------------
  // Properties of one fold step and of ShiftAll
  // ---------------------------------------------------------------------------

  /** Moving a concatenation moves each part. */
  lemma {:induction false} ShiftAllAppend(a: seq<Marker>, b: seq<Marker>, offset: int)
    ensures ShiftAll(a + b, offset) == ShiftAll(a, offset) + ShiftAll(b, offset)
  {
    var l := ShiftAll(a + b, offset);
    var r := ShiftAll(a, offset) + ShiftAll(b, offset);
    assert |l| == |r|;
    forall i | 0 <= i < |l| ensures l[i] == r[i] {
      if i < |a| {
        assert (a + b)[i] == a[i];
      } else {
        assert (a + b)[i] == b[i - |a|];
      }
    }
  }

  /** Two moves in a row are one move by the sum of the offsets. */
  lemma {:induction false} ShiftAllTwice(a: seq<Marker>, b: int, c: int)
    ensures ShiftAll(ShiftAll(a, b), c) == ShiftAll(a, b + c)
  {
    var l := ShiftAll(ShiftAll(a, b), c);
    var r := ShiftAll(a, b + c);
    assert |l| == |r|;
    forall i | 0 <= i < |l| ensures l[i] == r[i] {
      assert ShiftAll(a, b)[i].y == a[i].y + b;
    }
  }

  /**
   One fold doubles the length, keeps the accumulator as its prefix, and
   appends, for each earlier marker in order, a copy with the same x and size
   whose y is moved down by exactly the offset.
   */
  lemma {:induction false} FoldStepShape(acc: seq<Marker>, offset: int)
    ensures |FoldStep(acc, offset)| == 2 * |acc|
    ensures FoldStep(acc, offset)[..|acc|] == acc
    ensures forall i :: 0 <= i < |acc| ==>
              var c := FoldStep(acc, offset)[|acc| + i];
              c.x == acc[i].x && c.size == acc[i].size && c.y == acc[i].y + offset
  {
    var r := FoldStep(acc, offset);
    assert r[..|acc|] == acc;
    forall i | 0 <= i < |acc|
      ensures r[|acc| + i] == ShiftAll(acc, offset)[i]
    {
    }
  }

  /** Seed marker `j` sits at `j` after one fold, and its moved copy at `|seed| + j`. */
  lemma {:induction false} FoldStepAt(seed: seq<Marker>, offset: int, bit: nat, j: nat, jj: nat)
    requires j < |seed| && bit < 2
    requires jj == if bit == 0 then j else |seed| + j
    ensures jj < |FoldStep(seed, offset)|
    ensures FoldStep(seed, offset)[jj]
            == Marker(seed[j].x, seed[j].y + (if bit == 1 then offset else 0), seed[j].size)
  {
    FoldStepShape(seed, offset);
    var acc := FoldStep(seed, offset);
    if bit == 0 {
      assert acc[jj] == acc[..|seed|][j];
    } else {
      assert acc[jj] == acc[|seed| + j];
    }
  }

  // ---------------------------------------------------------------------------
  // Where every expanded marker comes from
  // ---------------------------------------------------------------------------

  /** Each fold doubles the length, so the expansion has `Pow2(|offsets|)` blocks of the seed's length. */
  lemma {:induction false} ExpandLength(seed: seq<Marker>, offsets: seq<int>)
    ensures |Expand(seed, offsets)| == |seed| * Pow2(|offsets|)
    decreases |offsets|
  {
    if |offsets| > 0 {
      ExpandLength(FoldStep(seed, offsets[0]), offsets[1..]);
      DoubledBlocks(|seed|, |offsets| - 1);
    }
  }

  /** The seed stays, unchanged, at the front of the expansion. */
  lemma {:induction false} ExpandPrefix(seed: seq<Marker>, offsets: seq<int>)
    ensures |seed| <= |Expand(seed, offsets)|
    ensures Expand(seed, offsets)[..|seed|] == seed
    decreases |offsets|
  {
    if |offsets| > 0 {
      var acc := FoldStep(seed, offsets[0]);
      var r := Expand(acc, offsets[1..]);
      ExpandPrefix(acc, offsets[1..]);
      assert r[..|seed|] == r[..|acc|][..|seed|];
    }
  }

  /**
   Exact position of each expanded marker: the block number `q` (which copy)
   selects the offsets by its binary digits, and `j` is the seed index.
   */
  lemma {:induction false} ExpandAt(seed: seq<Marker>, offsets: seq<int>, q: nat, j: nat)
    requires q < Pow2(|offsets|) && j < |seed|
    ensures q * |seed| + j < |Expand(seed, offsets)|
    ensures Expand(seed, offsets)[q * |seed| + j]
            == Marker(seed[j].x, seed[j].y + SelectedSum(offsets, q), seed[j].size)
    decreases |offsets|
  {
    var n := |seed|;
    assert q * n + j < |Expand(seed, offsets)| by {
      ExpandLength(seed, offsets);
      BlockBound(n, Pow2(|offsets|), q, j);
    }
    if |offsets| == 0 {
      assert q == 0;
    } else {
      var acc := FoldStep(seed, offsets[0]);
      var rest := offsets[1..];
      var q', bit := SplitBlock(offsets, q);
      var jj := if bit == 0 then j else n + j;
      BlockIndex(n, |acc|, q, q', bit, j, jj);
      FoldStepAt(seed, offsets[0], bit, j, jj);
      ExpandAt(acc, rest, q', jj);
    }
  }

  /**
   Block `q` of a non-empty offset list is block `q'` of the tail, with the
   lowest binary digit `bit` of `q` saying whether the head offset applies.
   */
  lemma {:induction false} SplitBlock(offsets: seq<int>, q: nat) returns (q': nat, bit: nat)
    requires |offsets| > 0 && q < Pow2(|offsets|)
    ensures q == 2 * q' + bit && bit < 2
    ensures q' < Pow2(|offsets| - 1)
    ensures SelectedSum(offsets, q)
            == (if bit == 1 then offsets[0] else 0) + SelectedSum(offsets[1..], q')
  {
    q', bit := q / 2, q % 2;
  }

  /** Marker `i` after one fold is seed marker `j`, moved by the offset when `bit` is 1. */
  lemma {:induction false} FoldStepFrom(seed: seq<Marker>, offset: int, i: nat) returns (j: nat, bit: nat)
    requires i < |FoldStep(seed, offset)|
    ensures j < |seed| && bit < 2
    ensures FoldStep(seed, offset)[i]
            == Marker(seed[j].x, seed[j].y + (if bit == 1 then offset else 0), seed[j].size)
  {
    if i < |seed| {
      j, bit := i, 0;
      assert FoldStep(seed, offset)[i] == FoldStep(seed, offset)[..|seed|][i];
    } else {
      j, bit := i - |seed|, 1;
    }
  }

  /** Adding the head offset, or not, to a subset sum of the tail gives a subset sum. */
  lemma {:induction false} SubsetSumCons(offsets: seq<int>, k: int, bit: nat)
    requires |offsets| > 0 && IsSubsetSum(offsets[1..], k) && bit < 2
    ensures IsSubsetSum(offsets, k + (if bit == 1 then offsets[0] else 0))
  {
  }

  /**
   Every expanded marker keeps the x and size of some seed marker, and its y
   is that seed marker's y plus a subset sum of the offsets.
   */
  lemma {:induction false} ExpandOrigin(seed: seq<Marker>, offsets: seq<int>, m: Marker)
    requires m in Expand(seed, offsets)
    ensures exists j, k :: 0 <= j < |seed| && IsSubsetSum(offsets, k)
              && m == Marker(seed[j].x, seed[j].y + k, seed[j].size)
    decreases |offsets|
  {
    if |offsets| == 0 {
      var j :| 0 <= j < |seed| && seed[j] == m;
      assert IsSubsetSum(offsets, 0);
      assert m == Marker(seed[j].x, seed[j].y + 0, seed[j].size);
    } else {
      var acc := FoldStep(seed, offsets[0]);
      var rest := offsets[1..];
      ExpandOrigin(acc, rest, m);
      var i, k :| 0 <= i < |acc| && IsSubsetSum(rest, k)
                  && m == Marker(acc[i].x, acc[i].y + k, acc[i].size);
      var j, bit := FoldStepFrom(seed, offsets[0], i);
      var d := if bit == 1 then offsets[0] else 0;
      SubsetSumCons(offsets, k, bit);
      assert m == Marker(seed[j].x, seed[j].y + (k + d), seed[j].size);
    }
  }

  /**
   Conversely, every seed marker moved down by every subset sum of the
   offsets appears in the expansion.
   */
  lemma {:induction false} ExpandCovers(seed: seq<Marker>, offsets: seq<int>, j: nat, k: int)
    requires j < |seed| && IsSubsetSum(offsets, k)
    ensures Marker(seed[j].x, seed[j].y + k, seed[j].size) in Expand(seed, offsets)
  {
    var q := SubsetSumBlock(offsets, k);
    ExpandAt(seed, offsets, q, j);
    var e := Expand(seed, offsets);
    var i := q * |seed| + j;
    assert e[i] == Marker(seed[j].x, seed[j].y + k, seed[j].size);
    ElementAt(e, i);
  }

  /** The element at a valid index is in the sequence. */
  lemma ElementAt<T>(s: seq<T>, i: nat)
    requires i < |s|
    ensures s[i] in s
  {
  }

  /** Every subset sum of the offsets is the selected sum of some block number. */
  lemma {:induction false} SubsetSumBlock(offsets: seq<int>, k: int) returns (q: nat)
    requires IsSubsetSum(offsets, k)
    ensures q < Pow2(|offsets|) && SelectedSum(offsets, q) == k
    decreases |offsets|
  {
    if |offsets| == 0 {
      q := 0;
    } else {
      var rest := offsets[1..];
      var bit: nat := if IsSubsetSum(rest, k) then 0 else 1;
      var q' := SubsetSumBlock(rest, if bit == 0 then k else k - offsets[0]);
      q := 2 * q' + bit;
      var q'', bit' := SplitBlock(offsets, q);
    }
  }

  /** Every block number's selected sum is a subset sum. */
  lemma {:induction false} SelectedSumIsSubsetSum(offsets: seq<int>, q: nat)
    ensures IsSubsetSum(offsets, SelectedSum(offsets, q))
    decreases |offsets|
  {
    if |offsets| > 0 {
      SelectedSumIsSubsetSum(offsets[1..], q / 2);
    }
  }

  // ---------------------------------------------------------------------------
  // How far down the copies lie
  // ---------------------------------------------------------------------------

  /**
   With offsets of at least `lo >= 0`, every block but the first selects at
   least one offset, so its selected sum is at least `lo`.
   */
  lemma {:induction false} SelectedSumAtLeast(offsets: seq<int>, lo: int, q: nat)
    requires 0 <= lo && forall t :: 0 <= t < |offsets| ==> offsets[t] >= lo
    requires 0 < q < Pow2(|offsets|)
    ensures SelectedSum(offsets, q) >= lo
    decreases |offsets|
  {
    var q', bit := SplitBlock(offsets, q);
    var rest := offsets[1..];
    assert forall t :: 0 <= t < |rest| ==> rest[t] == offsets[t + 1];
    if bit == 1 {
      SelectedSumNonNegative(rest, q');
    } else {
      SelectedSumAtLeast(rest, lo, q');
    }
  }

  /** With non-negative offsets every selected sum is non-negative. */
  lemma {:induction false} SelectedSumNonNegative(offsets: seq<int>, q: nat)
    requires forall t :: 0 <= t < |offsets| ==> offsets[t] >= 0
    ensures SelectedSum(offsets, q) >= 0
    decreases |offsets|
  {
    if |offsets| > 0 {
      var rest := offsets[1..];
      assert forall t :: 0 <= t < |rest| ==> rest[t] == offsets[t + 1];
      SelectedSumNonNegative(rest, q / 2);
    }
  }

  /** Position `i` of `p` blocks of `n` markers is position `i % n` of block `i / n`. */
  lemma {:induction false} BlockOf(n: nat, p: nat, i: nat) returns (q: nat, j: nat)
    requires i < n * p
    ensures q < p && j < n && i == q * n + j
    ensures i >= n ==> q > 0
  {
    q, j := i / n, i % n;
  }

  /**
   With offsets of at least `lo >= 0`, every marker after the seed, that is
   every tiled copy, lies at least `lo` below the highest seed marker.
   */
  lemma {:induction false} CopiesBelow(seed: seq<Marker>, offsets: seq<int>, lo: int, top: int)
    requires 0 <= lo && forall t :: 0 <= t < |offsets| ==> offsets[t] >= lo
    requires forall j :: 0 <= j < |seed| ==> seed[j].y >= top
    ensures forall i :: |seed| <= i < |Expand(seed, offsets)| ==> Expand(seed, offsets)[i].y >= top + lo
  {
    forall i | |seed| <= i < |Expand(seed, offsets)|
      ensures Expand(seed, offsets)[i].y >= top + lo
    {
      ExpandLength(seed, offsets);
      var q, j := BlockOf(|seed|, Pow2(|offsets|), i);
      ExpandAt(seed, offsets, q, j);
      SelectedSumAtLeast(offsets, lo, q);
    }
  }

  /**
   Folding two offsets `a` then `b` gives the seed followed by its copies
   moved down by `a`, by `b` and by `a + b`, in that order.
   */
  lemma {:induction false} ExpandTwo(seed: seq<Marker>, a: int, b: int)
    ensures Expand(seed, [a, b])
            == seed + ShiftAll(seed, a) + ShiftAll(seed, b) + ShiftAll(seed, a + b)
  {
    var offsets := [a, b];
    assert offsets[1..] == [b];
    assert offsets[1..][1..] == [];
    var acc := FoldStep(seed, a);
    assert Expand(seed, offsets) == Expand(acc, [b]);
    assert Expand(acc, [b]) == Expand(FoldStep(acc, b), []);
    ShiftAllAppend(seed, ShiftAll(seed, a), b);
    ShiftAllTwice(seed, a, b);
  }
}
