/** Range planning of FragmentDownloader.download_file (core.py:136-145):
    a known size is cut into at most `max_concurrent_fragments` contiguous,
    inclusive byte ranges of ceil(size / count) bytes, the last one shorter. */
module Planner {
  import opened Common

  /** One planned fragment: the tuple (start, end, fragment_path, i) of core.py:145. */
  datatype Fragment = Fragment(start: int, end: int, path: Path, id: nat)

  /** The sink of fragment i: "<filename>.part<i>" in the temporary directory. */
  function PartPath(tempDirectory: string, filename: string, i: nat): Path {
    Path(tempDirectory, filename + ".part" + NatToString(i))
  }

  /** math.ceil(a / b) for a positive divisor, computed exactly. */
  function CeilDiv(a: int, b: int): (q: int)
    requires b > 0
    ensures (q - 1) * b < a <= q * b
  {
    var m := (-a) / b;
    assert -a == m * b + (-a) % b;
    assert (-m - 1) * b == -(m * b) - b;
    -m
  }

  /** Fragment i as core.py:140-145 computes it, or nothing when start > end. */
  function Candidate(size: int, fragmentSize: int, tempDirectory: string, filename: string, i: nat): seq<Fragment> {
    var start := i * fragmentSize;
    var end := Min(start + fragmentSize - 1, size - 1);
    if start <= end then [Fragment(start, end, PartPath(tempDirectory, filename, i), i)] else []
  }

  /** The fragments list after the first k iterations of the loop at core.py:139. */
  function PlanPrefix(size: int, fragmentSize: int, tempDirectory: string, filename: string, k: nat): seq<Fragment> {
    if k == 0 then []
    else PlanPrefix(size, fragmentSize, tempDirectory, filename, k - 1)
         + Candidate(size, fragmentSize, tempDirectory, filename, k - 1)
  }

  /** The plan for a size and a fragment count; None when the count is 0,
      for which the division at core.py:136 raises ZeroDivisionError. A
      negative count runs the loop zero times. */
  function Plan(size: int, count: int, tempDirectory: string, filename: string): Option<seq<Fragment>> {
    if count == 0 then None
    else if count < 0 then Some([])
    else Some(PlanPrefix(size, CeilDiv(size, count), tempDirectory, filename, count))
  }

  /** The planning loop of core.py:136-145. */
  method PlanFragments(size: int, count: int, tempDirectory: string, filename: string)
    returns (plan: Option<seq<Fragment>>)
    ensures plan == Plan(size, count, tempDirectory, filename)
  {
    if count == 0 {
      return None;
    }
    var fragmentSize := if count > 0 then CeilDiv(size, count) else 0;
    var fragments: seq<Fragment> := [];
    var i := 0;
    while i < count
      invariant 0 <= i <= if count > 0 then count else 0
      invariant fragments == PlanPrefix(size, fragmentSize, tempDirectory, filename, i)
    {
      var start := i * fragmentSize;
      var end := Min(start + fragmentSize - 1, size - 1);
      if start <= end {
        fragments := fragments + [Fragment(start, end, PartPath(tempDirectory, filename, i), i)];
      }
      i := i + 1;
    }
    return Some(fragments);
  }

  /** The plan tiles [0, size - 1]: fragment j has id j and its own part
      path, no fragment is empty, the first starts at 0, each starts right
      after its predecessor ends, and the last ends at size - 1. */
  ghost predicate Tiles(plan: seq<Fragment>, size: int, tempDirectory: string, filename: string) {
    && |plan| >= 1
    && plan[0].start == 0
    && plan[|plan| - 1].end == size - 1
    && (forall j :: 0 <= j < |plan| ==>
          plan[j].id == j && plan[j].start <= plan[j].end
          && plan[j].path == PartPath(tempDirectory, filename, j))
    && (forall j :: 0 < j < |plan| ==> plan[j].start == plan[j - 1].end + 1)
  }

  lemma MulMonotone(a: int, b: int, c: int)
    requires a <= b && c >= 0
    ensures a * c <= b * c
  {
    assert b * c - a * c == (b - a) * c;
  }

  /** Fragment m of p is candidate m, which starts inside the file. */
  ghost predicate Shaped(p: seq<Fragment>, size: int, fragmentSize: int, tempDirectory: string, filename: string) {
    forall m :: 0 <= m < |p| ==>
      p[m] == Fragment(m * fragmentSize, Min(m * fragmentSize + fragmentSize - 1, size - 1),
                       PartPath(tempDirectory, filename, m), m)
      && m * fragmentSize <= size - 1
  }

  /** The shape of the partial plan: the kept candidates are exactly the
      first ones, and once one is dropped all later ones are. */
  lemma {:induction false} PlanPrefixShape(size: int, fragmentSize: int, tempDirectory: string, filename: string, k: nat)
    requires size >= 1 && fragmentSize >= 1
    ensures var p := PlanPrefix(size, fragmentSize, tempDirectory, filename, k);
      && |p| <= k
      && (k > 0 ==> |p| >= 1)
      && (|p| < k ==> |p| * fragmentSize >= size)
      && Shaped(p, size, fragmentSize, tempDirectory, filename)
  {
    if k > 0 {
      PlanPrefixShape(size, fragmentSize, tempDirectory, filename, k - 1);
      var q := PlanPrefix(size, fragmentSize, tempDirectory, filename, k - 1);
      var c := Candidate(size, fragmentSize, tempDirectory, filename, k - 1);
      if |q| < k - 1 {
        MulMonotone(|q|, k - 1, fragmentSize);
        assert c == [];
      }
    }
  }

  lemma CeilDivSign(a: int, b: int)
    requires b >= 1
    ensures a >= 1 ==> CeilDiv(a, b) >= 1
    ensures a <= 0 ==> CeilDiv(a, b) <= 0
  {
    var q := CeilDiv(a, b);
    if a >= 1 && q <= 0 {
      MulMonotone(q, 0, b);
    }
    if a <= 0 && q >= 1 {
      MulMonotone(0, q - 1, b);
    }
  }

  /** A sequence of the shape PlanPrefixShape describes, whose fragments
      reach the size, tiles [0, size - 1]. */
  lemma ShapeTiles(p: seq<Fragment>, size: int, fragmentSize: int, tempDirectory: string, filename: string)
    requires size >= 1 && fragmentSize >= 1 && |p| >= 1 && |p| * fragmentSize >= size
    requires Shaped(p, size, fragmentSize, tempDirectory, filename)
    ensures Tiles(p, size, tempDirectory, filename)
  {
    forall j | 0 < j < |p|
      ensures p[j].start == p[j - 1].end + 1
    {
      var sj := j * fragmentSize;
      assert (j - 1) * fragmentSize + fragmentSize == sj;
      assert p[j].start == sj <= size - 1;
    }
    var n := |p|;
    assert (n - 1) * fragmentSize + fragmentSize == n * fragmentSize;
    assert p[n - 1].end == size - 1;
    assert p[0].start == 0;
  }

  lemma PlanReachesSize(size: int, count: int, length: int)
    requires size >= 1 && count >= 1 && length <= count
    requires length < count ==> length * CeilDiv(size, count) >= size
    ensures length * CeilDiv(size, count) >= size
  {
    if length == count {
      assert size <= CeilDiv(size, count) * count;
    }
  }

  /** The central planning property: for size >= 1 and count >= 1 the plan
      has between 1 and count fragments and tiles [0, size - 1]. */
  lemma PlanTiles(size: int, count: int, tempDirectory: string, filename: string)
    requires size >= 1 && count >= 1
    ensures Plan(size, count, tempDirectory, filename).Some?
    ensures var p := Plan(size, count, tempDirectory, filename).value;
      |p| <= count && Tiles(p, size, tempDirectory, filename)
  {
    var fs := CeilDiv(size, count);
    CeilDivSign(size, count);
    PlanPrefixShape(size, fs, tempDirectory, filename, count);
    var p := PlanPrefix(size, fs, tempDirectory, filename, count);
    PlanReachesSize(size, count, |p|);
    ShapeTiles(p, size, fs, tempDirectory, filename);
  }

  lemma {:induction false} TilesStartsNonNegative(plan: seq<Fragment>, size: int, tempDirectory: string, filename: string, j: nat)
    requires Tiles(plan, size, tempDirectory, filename) && j < |plan|
    ensures 0 <= plan[j].start
  {
    if j > 0 {
      TilesStartsNonNegative(plan, size, tempDirectory, filename, j - 1);
    }
  }

  lemma {:induction false} TilesEndsInRange(plan: seq<Fragment>, size: int, tempDirectory: string, filename: string, j: nat)
    requires Tiles(plan, size, tempDirectory, filename) && j < |plan|
    ensures plan[j].end <= size - 1
    decreases |plan| - j
  {
    if j < |plan| - 1 {
      TilesEndsInRange(plan, size, tempDirectory, filename, j + 1);
    }
  }

  /** Every fragment of a tiling lies inside [0, size - 1]. */
  lemma TilesBounds(plan: seq<Fragment>, size: int, tempDirectory: string, filename: string)
    requires Tiles(plan, size, tempDirectory, filename)
    ensures forall j :: 0 <= j < |plan| ==> 0 <= plan[j].start <= plan[j].end < size
  {
    forall j | 0 <= j < |plan|
      ensures 0 <= plan[j].start <= plan[j].end < size
    {
      TilesStartsNonNegative(plan, size, tempDirectory, filename, j);
      TilesEndsInRange(plan, size, tempDirectory, filename, j);
    }
  }

  /** Sum of the fragment lengths end - start + 1. */
  function TotalLength(plan: seq<Fragment>): int {
    if plan == [] then 0
    else TotalLength(plan[..|plan| - 1]) + (plan[|plan| - 1].end - plan[|plan| - 1].start + 1)
  }

  lemma {:induction false} TotalLengthPrefix(plan: seq<Fragment>, size: int, tempDirectory: string, filename: string, k: nat)
    requires Tiles(plan, size, tempDirectory, filename)
    requires 1 <= k <= |plan|
    ensures TotalLength(plan[..k]) == plan[k - 1].end + 1
  {
    assert plan[..k][..k - 1] == plan[..k - 1];
    if k > 1 {
      TotalLengthPrefix(plan, size, tempDirectory, filename, k - 1);
    }
  }

  /** The fragment lengths add up to the size. */
  lemma PlanLengthsSum(size: int, count: int, tempDirectory: string, filename: string)
    requires size >= 1 && count >= 1
    ensures TotalLength(Plan(size, count, tempDirectory, filename).value) == size
  {
    PlanTiles(size, count, tempDirectory, filename);
    var p := Plan(size, count, tempDirectory, filename).value;
    TotalLengthPrefix(p, size, tempDirectory, filename, |p|);
    assert p[..|p|] == p;
  }

  /** A size of 0 or less (a non-positive Content-Length) gives no fragments. */
  lemma NonPositiveSizeGivesEmptyPlan(size: int, count: int, tempDirectory: string, filename: string)
    requires size <= 0 && count != 0
    ensures Plan(size, count, tempDirectory, filename) == Some([])
  {
    if count > 0 {
      var fs := CeilDiv(size, count);
      CeilDivSign(size, count);
      EmptyPrefix(size, fs, tempDirectory, filename, count);
    }
  }

  lemma {:induction false} EmptyPrefix(size: int, fragmentSize: int, tempDirectory: string, filename: string, k: nat)
    requires fragmentSize <= 0
    ensures PlanPrefix(size, fragmentSize, tempDirectory, filename, k) == []
  {
    if k > 0 {
      EmptyPrefix(size, fragmentSize, tempDirectory, filename, k - 1);
    }
  }

  /** The worked example: 1,000,000 bytes in 4 fragments. */
  lemma PlanExample(tempDirectory: string, filename: string)
    ensures Plan(1000000, 4, tempDirectory, filename) == Some([
      Fragment(0, 249999, PartPath(tempDirectory, filename, 0), 0),
      Fragment(250000, 499999, PartPath(tempDirectory, filename, 1), 1),
      Fragment(500000, 749999, PartPath(tempDirectory, filename, 2), 2),
      Fragment(750000, 999999, PartPath(tempDirectory, filename, 3), 3)])
  {
    assert CeilDiv(1000000, 4) == 250000;
    var p := PlanPrefix(1000000, 250000, tempDirectory, filename, 4);
    assert PlanPrefix(1000000, 250000, tempDirectory, filename, 1)
      == [Fragment(0, 249999, PartPath(tempDirectory, filename, 0), 0)];
    assert PlanPrefix(1000000, 250000, tempDirectory, filename, 2)
      == PlanPrefix(1000000, 250000, tempDirectory, filename, 1)
         + [Fragment(250000, 499999, PartPath(tempDirectory, filename, 1), 1)];
    assert PlanPrefix(1000000, 250000, tempDirectory, filename, 3)
      == PlanPrefix(1000000, 250000, tempDirectory, filename, 2)
         + [Fragment(500000, 749999, PartPath(tempDirectory, filename, 2), 2)];
    assert p == PlanPrefix(1000000, 250000, tempDirectory, filename, 3)
      + [Fragment(750000, 999999, PartPath(tempDirectory, filename, 3), 3)];
    assert p == [
      Fragment(0, 249999, PartPath(tempDirectory, filename, 0), 0),
      Fragment(250000, 499999, PartPath(tempDirectory, filename, 1), 1),
      Fragment(500000, 749999, PartPath(tempDirectory, filename, 2), 2),
      Fragment(750000, 999999, PartPath(tempDirectory, filename, 3), 3)];
    assert Plan(1000000, 4, tempDirectory, filename) == Some(p);
  }

  /** Distinct fragments have distinct sinks, and no sink is the output file. */
  lemma PartPathsDistinct(tempDirectory: string, outputDirectory: string, filename: string, i: nat, j: nat)
    ensures PartPath(tempDirectory, filename, i) != Path(outputDirectory, filename)
    ensures i != j ==> PartPath(tempDirectory, filename, i) != PartPath(tempDirectory, filename, j)
  {
    if i != j && PartPath(tempDirectory, filename, i) == PartPath(tempDirectory, filename, j) {
      var pre := filename + ".part";
      var ni, nj := PartPath(tempDirectory, filename, i).name, PartPath(tempDirectory, filename, j).name;
      assert ni[|pre|..] == NatToString(i);
      assert nj[|pre|..] == NatToString(j);
      NatToStringInjective(i, j);
    }
    assert |PartPath(tempDirectory, filename, i).name| > |filename|;
  }
}
