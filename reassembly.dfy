/** What join_fragments (core.py:246-264) and cleanup_fragments
    (core.py:266-273) do to the file system, and the round trip that
    makes fragmented downloading correct. */
module Reassembly {
  import opened Common
  import opened Planner

  /** file.read(n) at offset pos: n < 0 reads to the end, n == 0 reads
      nothing, n > 0 reads up to n bytes. */
  function ReadChunk(content: seq<Byte>, pos: nat, n: int): (chunk: seq<Byte>)
    requires pos <= |content|
    ensures n != 0 && pos < |content| ==> |chunk| >= 1
    ensures pos + |chunk| <= |content| && chunk == content[pos..pos + |chunk|]
  {
    if n < 0 then content[pos..]
    else if n == 0 then []
    else content[pos..Min(pos + n, |content|)]
  }

  /** Index of the first fragment whose sink does not exist, or |plan|. */
  function FirstMissing(plan: seq<Fragment>, fs: FileSystem): (m: nat)
    ensures m <= |plan|
    ensures forall j :: 0 <= j < m ==> plan[j].path in fs
    ensures m < |plan| ==> plan[m].path !in fs
  {
    if plan == [] || plan[0].path !in fs then 0 else 1 + FirstMissing(plan[1..], fs)
  }

  /** The sinks of the first k fragments, concatenated in list order. */
  function SinksConcat(plan: seq<Fragment>, fs: FileSystem, k: nat): seq<Byte>
    requires k <= |plan|
    requires forall j :: 0 <= j < k ==> plan[j].path in fs
  {
    if k == 0 then [] else SinksConcat(plan, fs, k - 1) + fs[plan[k - 1].path]
  }

  /** join_fragments: the output is truncated, then gets the copy of every
      sink up to the first missing one; the result is whether none was
      missing. */
  function JoinResult(plan: seq<Fragment>, out: Path, chunkSize: int, fs: FileSystem): (bool, FileSystem) {
    var m := FirstMissing(plan, fs);
    var written := if chunkSize == 0 then [] else SinksConcat(plan, fs, m);
    (m == |plan|, fs[out := written])
  }

  /** The sink paths of a plan. */
  function PathsOf(plan: seq<Fragment>): set<Path> {
    set j | 0 <= j < |plan| :: plan[j].path
  }

  /** cleanup_fragments: every sink that exists is deleted. */
  function Cleanup(fs: FileSystem, plan: seq<Fragment>): (fs': FileSystem)
    ensures forall p :: p in PathsOf(plan) ==> p !in fs'
    ensures forall p :: p !in PathsOf(plan) ==> (p in fs' <==> p in fs) && (p in fs ==> fs'[p] == fs[p])
  {
    fs - PathsOf(plan)
  }

  /** The bytes data[start..end] of a fragment (nothing when out of range). */
  function Slice(data: seq<Byte>, f: Fragment): (s: seq<Byte>)
    ensures 0 <= f.start <= f.end < |data| ==> |s| == f.end - f.start + 1
  {
    if 0 <= f.start <= f.end < |data| then data[f.start..f.end + 1] else []
  }

  /** A file system whose sinks hold the planned slices of data. */
  ghost predicate HoldsSlices(fs: FileSystem, plan: seq<Fragment>, data: seq<Byte>) {
    forall j :: 0 <= j < |plan| ==>
      0 <= plan[j].start <= plan[j].end < |data|
      && plan[j].path in fs && fs[plan[j].path] == data[plan[j].start..plan[j].end + 1]
  }

  lemma {:induction false} SinksConcatTiled(plan: seq<Fragment>, fs: FileSystem, data: seq<Byte>,
                                            tempDirectory: string, filename: string, k: nat)
    requires Tiles(plan, |data|, tempDirectory, filename)
    requires HoldsSlices(fs, plan, data)
    requires 1 <= k <= |plan|
    ensures SinksConcat(plan, fs, k) == data[..plan[k - 1].end + 1]
  {
    if k == 1 {
      assert SinksConcat(plan, fs, 0) == [];
    } else {
      SinksConcatTiled(plan, fs, data, tempDirectory, filename, k - 1);
      var e := plan[k - 2].end + 1;
      assert plan[k - 1].start == e;
      assert data[..e] + data[e..plan[k - 1].end + 1] == data[..plan[k - 1].end + 1];
    }
  }

  /** Joining sinks that hold the slices of a tiling reproduces the data. */
  lemma JoinTiled(plan: seq<Fragment>, out: Path, chunkSize: int, fs: FileSystem, data: seq<Byte>,
                  tempDirectory: string, filename: string)
    requires Tiles(plan, |data|, tempDirectory, filename) && HoldsSlices(fs, plan, data) && chunkSize != 0
    ensures JoinResult(plan, out, chunkSize, fs) == (true, fs[out := data])
  {
    SinksConcatTiled(plan, fs, data, tempDirectory, filename, |plan|);
    assert data[..|data|] == data;
  }

  /** The round trip: when sink j holds data[start_j .. end_j] for a plan of
      |data| bytes, joining reproduces data exactly (any nonzero chunk size). */
  lemma JoinRoundTrip(data: seq<Byte>, count: int, tempDirectory: string, filename: string,
                      fs: FileSystem, out: Path, chunkSize: int)
    requires |data| >= 1 && count >= 1 && chunkSize != 0
    requires HoldsSlices(fs, Plan(|data|, count, tempDirectory, filename).value, data)
    ensures JoinResult(Plan(|data|, count, tempDirectory, filename).value, out, chunkSize, fs)
      == (true, fs[out := data])
  {
    PlanTiles(|data|, count, tempDirectory, filename);
    JoinTiled(Plan(|data|, count, tempDirectory, filename).value, out, chunkSize, fs, data, tempDirectory, filename);
  }

  /** A chunk size of 0 makes every read return b"", so the join copies
      nothing yet still reports success when all sinks exist. */
  lemma JoinWithZeroChunkSize(plan: seq<Fragment>, out: Path, fs: FileSystem)
    requires forall j :: 0 <= j < |plan| ==> plan[j].path in fs
    ensures JoinResult(plan, out, 0, fs) == (true, fs[out := []])
  {
  }

  /** A missing sink stops the join: it reports failure, and the output
      holds exactly the sinks before the missing one. */
  lemma JoinStopsAtMissingSink(plan: seq<Fragment>, out: Path, chunkSize: int, fs: FileSystem, m: nat)
    requires chunkSize != 0 && m < |plan| && plan[m].path !in fs
    requires forall j :: 0 <= j < m ==> plan[j].path in fs
    ensures !JoinResult(plan, out, chunkSize, fs).0
    ensures JoinResult(plan, out, chunkSize, fs).1 == fs[out := SinksConcat(plan, fs, m)]
  {
  }
}
