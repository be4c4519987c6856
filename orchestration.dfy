/** The decisions of FragmentDownloader.download_file (core.py:117-208) and
    download_single_threaded (core.py:210-244) as functions of what the
    server does, with the properties that make fragmented downloading
    correct. The class in downloader.dfy is proved against these. */
module Orchestration {
  import opened Common
  import opened Planner
  import opened Probe
  import opened Fetcher
  import opened Reassembly
  import opened Progress

  /** DownloadConfig (core.py:16-27). */
  datatype DownloadConfig = DownloadConfig(
    maxConcurrentFragments: int,
    chunkSize: int,
    timeout: int,
    retryAttempts: int,
    outputDirectory: string,
    tempDirectory: string,
    verifySsl: bool,
    showProgress: bool,
    progressStyle: string)

  /** One element of the list asyncio.gather(..., return_exceptions=True)
      returns: a task's value, or the exception it raised. */
  datatype GatherResult = Value(b: bool) | Captured

  /** The gate all(isinstance(result, bool) and result for result in results)
      of core.py:190. */
  function AllTrue(results: seq<GatherResult>): (r: bool)
    ensures r <==> forall i :: 0 <= i < |results| ==> results[i] == Value(true)
  {
    if results == [] then true else results[0] == Value(true) && AllTrue(results[1..])
  }

  /** What the GET of download_single_threaded produced: an exception before
      any response, or a status with its Content-Length header, the body
      chunks streamed, and whether the stream raised after them. */
  datatype GetOutcome =
    | GetRaised
    | GetResponse(status: int, contentLength: Option<string>, chunks: seq<seq<Byte>>, broken: bool)

  /** The progress line of core.py:231-232 raises for every chunk: int()
      rejects the header (ValueError) or it is 0 (ZeroDivisionError). */
  predicate ProgressLineRaises(contentLength: Option<string>, showProgress: bool) {
    && showProgress && contentLength.Some? && contentLength.value != ""
    && (ParseInt(contentLength.value).None? || ParseInt(contentLength.value) == Some(0))
  }

  /** download_single_threaded: status 200 truncates the output and streams
      the body into it; the except branch returns False with whatever was
      written. Only the output path is touched, and only on status 200. */
  function SingleThreaded(get: GetOutcome, out: Path, showProgress: bool, fs: FileSystem): (r: (bool, FileSystem))
    ensures r.0 <==> && get.GetResponse? && get.status == 200 && !get.broken
                     && (get.chunks == [] || !ProgressLineRaises(get.contentLength, showProgress))
    ensures r.0 ==> r.1 == fs[out := Flatten(get.chunks)]
    ensures get.GetResponse? && get.status == 200 ==> out in r.1
    ensures !(get.GetResponse? && get.status == 200) ==> r.1 == fs
    ensures forall p :: p != out ==> (p in r.1 <==> p in fs) && (p in fs ==> r.1[p] == fs[p])
  {
    match get
    case GetRaised => (false, fs)
    case GetResponse(status, contentLength, chunks, broken) =>
      if status != 200 then (false, fs)
      else if chunks != [] && ProgressLineRaises(contentLength, showProgress) then (false, fs[out := chunks[0]])
      else (!broken, fs[out := Flatten(chunks)])
  }

  /** A Content-Length of "0" on a non-empty body makes the progress line
      divide by zero after the first chunk: the fallback reports failure and
      leaves that chunk in the output. */
  lemma ZeroLengthHeaderFailsFallback(out: Path, chunks: seq<seq<Byte>>, fs: FileSystem)
    requires chunks != []
    ensures SingleThreaded(GetResponse(200, Some("0"), chunks, false), out, true, fs) == (false, fs[out := chunks[0]])
  {
    assert ParseInt("0") == Some(0) by {
      assert AllDigits("0");
      assert "0"[..0] == [];
    }
  }

  /** How download_file raises instead of returning a result. */
  datatype DownloadError =
    | MathDomainError  // format_size(size) takes math.log of a negative size (core.py:133)
    | SizeIndexError   // format_size(size) indexes past "TB" for size >= 1024 ** 5 (core.py:133)
    | ZeroDivision     // file_size / max_concurrent_fragments with 0 fragments (core.py:136)

  datatype DownloadOutcome = Completed(success: bool) | Raised(error: DownloadError)

  /** 1024 ** 5, the first size format_size has no unit name for. */
  const FormatLimit := 1125899906842624

  /** The path download_file takes after probing. */
  datatype Route = SingleStream | Abort(error: DownloadError) | Fragmented(plan: seq<Fragment>)

  /** core.py:128-145: no size or a size of 0 goes to the single-stream
      download; a size format_size cannot print, and a fragment count of 0,
      raise; every other size is planned. A negative count plans nothing. */
  function RouteOf(cfg: DownloadConfig, filename: string, head: HeadOutcome): (r: Route)
    ensures r == SingleStream <==> !UsesFragments(ProbeSize(head))
    ensures r.Fragmented? <==> (&& UsesFragments(ProbeSize(head))
                               && 1 <= ProbeSize(head).value < FormatLimit && cfg.maxConcurrentFragments != 0)
    ensures r.Fragmented? && cfg.maxConcurrentFragments < 0 ==> r.plan == []
    ensures r.Fragmented? && cfg.maxConcurrentFragments > 0 ==>
      && 1 <= |r.plan| <= cfg.maxConcurrentFragments
      && Tiles(r.plan, ProbeSize(head).value, cfg.tempDirectory, filename)
  {
    var size := ProbeSize(head);
    if !UsesFragments(size) then SingleStream
    else if size.value < 0 then Abort(MathDomainError)
    else if size.value >= FormatLimit then Abort(SizeIndexError)
    else
      var count := cfg.maxConcurrentFragments;
      match Plan(size.value, count, cfg.tempDirectory, filename)
      case None => Abort(ZeroDivision)
      case Some(plan) =>
        if count > 0 then PlanTiles(size.value, count, cfg.tempDirectory, filename); Fragmented(plan)
        else Fragmented(plan)
  }

  /** The script of the fragment at position j; fragments without one fail
      to connect on every attempt. */
  function ScriptFor(scripts: seq<seq<Attempt>>, j: nat): seq<Attempt> {
    if j < |scripts| then scripts[j] else []
  }

  /** The file system after one fetch: the sink gets its final content if it
      was ever opened. */
  function WithSink(fs: FileSystem, path: Path, t: FetchTrace): FileSystem {
    if t.sink.Some? then fs[path := t.sink.value] else fs
  }

  /** The gathered results of the first k fetches. */
  function Results(scripts: seq<seq<Attempt>>, n: int, k: nat): (r: seq<GatherResult>)
    ensures |r| == k
    ensures forall j :: 0 <= j < k ==> r[j] == Value(RunFetch(ScriptFor(scripts, j), n).ok)
  {
    if k == 0 then [] else Results(scripts, n, k - 1) + [Value(RunFetch(ScriptFor(scripts, k - 1), n).ok)]
  }

  /** The backoff delays of the first k fetches, one list per fragment. */
  function DelaysOf(scripts: seq<seq<Attempt>>, n: int, k: nat): (r: seq<seq<int>>)
    ensures |r| == k
    ensures forall j :: 0 <= j < k ==> r[j] == RunFetch(ScriptFor(scripts, j), n).delays
  {
    if k == 0 then [] else DelaysOf(scripts, n, k - 1) + [RunFetch(ScriptFor(scripts, k - 1), n).delays]
  }

  /** The file system after the first k fetches. */
  function SinksAfter(plan: seq<Fragment>, scripts: seq<seq<Attempt>>, n: int, fs: FileSystem, k: nat): FileSystem
    requires k <= |plan|
  {
    if k == 0 then fs
    else WithSink(SinksAfter(plan, scripts, n, fs, k - 1), plan[k - 1].path, RunFetch(ScriptFor(scripts, k - 1), n))
  }

  /** What one fetch leaves in the tracker (core.py:85-100): the fragment is
      registered with its size and the clock reading, its count is the last
      reported total (0 if nothing was streamed), and its speed stays 0 since
      the clock does not advance within a fetch. */
  function TrackerAfterFetch(s: TrackerState, f: Fragment, t: FetchTrace, now: real): TrackerState {
    TrackerState(s.progress[f.id := t.lastReport.GetOr(0)], s.sizes[f.id := f.end - f.start + 1],
                 s.speeds[f.id := 0.0], s.startTimes[f.id := now])
  }

  /** One more attempt that streams chunks changes only the reported count
      of the tracker, and only when it streamed something. */
  lemma StreamedTracker(s: TrackerState, f: Fragment, t: FetchTrace, next: FetchTrace,
                        chunks: seq<seq<Byte>>, now: real)
    requires next.lastReport == Report(chunks, t.lastReport)
    ensures var before := TrackerAfterFetch(s, f, t, now);
      TrackerAfterFetch(s, f, next, now)
      == before.(progress := if chunks == [] then before.progress else before.progress[f.id := |Flatten(chunks)|])
  {
    if chunks != [] {
      assert s.progress[f.id := t.lastReport.GetOr(0)][f.id := |Flatten(chunks)|]
          == s.progress[f.id := |Flatten(chunks)|];
    }
  }

  /** The tracker after the first k fetches. */
  function TrackerAfter(s: TrackerState, plan: seq<Fragment>, scripts: seq<seq<Attempt>>, n: int, now: real, k: nat): TrackerState
    requires k <= |plan|
  {
    if k == 0 then s
    else TrackerAfterFetch(TrackerAfter(s, plan, scripts, n, now, k - 1), plan[k - 1], RunFetch(ScriptFor(scripts, k - 1), n), now)
  }

  /** core.py:162-208 for a plan: the fragments are fetched one after another
      in plan order; a failed fragment cleans up without joining, otherwise
      the join runs and the cleanup follows whatever its result. */
  function FragmentedDownload(plan: seq<Fragment>, out: Path, chunkSize: int, n: int,
                              scripts: seq<seq<Attempt>>, fs: FileSystem): (DownloadOutcome, FileSystem)
  {
    var fetched := SinksAfter(plan, scripts, n, fs, |plan|);
    if !AllTrue(Results(scripts, n, |plan|)) then (Completed(false), Cleanup(fetched, plan))
    else
      var joined := JoinResult(plan, out, chunkSize, fetched);
      (Completed(joined.0), Cleanup(joined.1, plan))
  }

  /** download_file (core.py:117-208). */
  function DownloadSpec(cfg: DownloadConfig, filename: string, head: HeadOutcome, fallback: GetOutcome,
                        scripts: seq<seq<Attempt>>, fs: FileSystem): (DownloadOutcome, FileSystem)
  {
    var out := Path(cfg.outputDirectory, filename);
    match RouteOf(cfg, filename, head)
    case SingleStream =>
      var r := SingleThreaded(fallback, out, cfg.showProgress, fs);
      (Completed(r.0), r.1)
    case Abort(e) => (Raised(e), fs)
    case Fragmented(plan) => FragmentedDownload(plan, out, cfg.chunkSize, cfg.retryAttempts, scripts, fs)
  }

  /** Sink paths of distinct fragments differ. */
  ghost predicate DistinctPaths(plan: seq<Fragment>) {
    forall i, j :: 0 <= i < j < |plan| ==> plan[i].path != plan[j].path
  }

  /** A planned route has distinct sinks, none of them the output file. */
  lemma RoutePaths(cfg: DownloadConfig, filename: string, head: HeadOutcome)
    requires RouteOf(cfg, filename, head).Fragmented?
    ensures var plan := RouteOf(cfg, filename, head).plan;
      DistinctPaths(plan) && Path(cfg.outputDirectory, filename) !in PathsOf(plan)
  {
    var plan := RouteOf(cfg, filename, head).plan;
    if cfg.maxConcurrentFragments > 0 {
      forall i, j | 0 <= i < j < |plan|
        ensures plan[i].path != plan[j].path
      {
        PartPathsDistinct(cfg.tempDirectory, cfg.outputDirectory, filename, i, j);
      }
      forall j | 0 <= j < |plan|
        ensures plan[j].path != Path(cfg.outputDirectory, filename)
      {
        PartPathsDistinct(cfg.tempDirectory, cfg.outputDirectory, filename, j, j);
      }
    }
  }

  /** The fetches write only sinks, and with distinct sinks each sink ends
      with the content its own fetch left. */
  lemma {:induction false} SinksAfterFacts(plan: seq<Fragment>, scripts: seq<seq<Attempt>>, n: int, fs: FileSystem, k: nat)
    requires k <= |plan| && DistinctPaths(plan)
    ensures var r := SinksAfter(plan, scripts, n, fs, k);
      && (forall p :: p !in PathsOf(plan) ==> (p in r <==> p in fs) && (p in fs ==> r[p] == fs[p]))
      && (forall j :: 0 <= j < k && RunFetch(ScriptFor(scripts, j), n).sink.Some? ==>
            plan[j].path in r && r[plan[j].path] == RunFetch(ScriptFor(scripts, j), n).sink.value)
  {
    if k > 0 {
      SinksAfterFacts(plan, scripts, n, fs, k - 1);
      assert plan[k - 1].path in PathsOf(plan);
    }
  }

  /** Removing the sinks after the fetches leaves what removing them before
      would have left. */
  lemma SinksAfterCleanup(plan: seq<Fragment>, scripts: seq<seq<Attempt>>, n: int, fs: FileSystem)
    requires DistinctPaths(plan)
    ensures Cleanup(SinksAfter(plan, scripts, n, fs, |plan|), plan) == Cleanup(fs, plan)
  {
    SinksAfterFacts(plan, scripts, n, fs, |plan|);
  }

  /** After every fetch succeeded, every sink exists. */
  lemma SuccessfulFetchesLeaveSinks(plan: seq<Fragment>, scripts: seq<seq<Attempt>>, n: int, fs: FileSystem)
    requires DistinctPaths(plan)
    requires forall j :: 0 <= j < |plan| ==> RunFetch(ScriptFor(scripts, j), n).ok
    ensures FirstMissing(plan, SinksAfter(plan, scripts, n, fs, |plan|)) == |plan|
  {
    forall j | 0 <= j < |plan|
      ensures RunFetch(ScriptFor(scripts, j), n).sink.Some?
    {
      FetchSinkIsLastBody(ScriptFor(scripts, j), n);
    }
    SinksAfterFacts(plan, scripts, n, fs, |plan|);
  }

  /** Removing the sinks commutes with writing a file that is not one. */
  lemma CleanupAfterWrite(fs: FileSystem, plan: seq<Fragment>, out: Path, content: seq<Byte>)
    requires out !in PathsOf(plan)
    ensures Cleanup(fs[out := content], plan) == Cleanup(fs, plan)[out := content]
  {
    assert (fs[out := content] - PathsOf(plan)).Keys == (fs - PathsOf(plan))[out := content].Keys;
  }

  /** A fragmented download succeeds exactly when every fragment fetch does;
      afterwards no sink is left, the output file exists if it succeeded,
      a failure leaves the file system as removing the sinks would, and no
      other file changes. */
  lemma FragmentedOutcome(plan: seq<Fragment>, out: Path, chunkSize: int, n: int,
                          scripts: seq<seq<Attempt>>, fs: FileSystem)
    requires DistinctPaths(plan) && out !in PathsOf(plan)
    ensures var allOk := forall j :: 0 <= j < |plan| ==> RunFetch(ScriptFor(scripts, j), n).ok;
      var r := FragmentedDownload(plan, out, chunkSize, n, scripts, fs);
      && r.0 == Completed(allOk)
      && (forall p :: p in PathsOf(plan) ==> p !in r.1)
      && (allOk ==> out in r.1)
      && (!allOk ==> r.1 == Cleanup(fs, plan))
      && (forall p :: p !in PathsOf(plan) && p != out ==> (p in r.1 <==> p in fs) && (p in fs ==> r.1[p] == fs[p]))
  {
    var fetched := SinksAfter(plan, scripts, n, fs, |plan|);
    SinksAfterFacts(plan, scripts, n, fs, |plan|);
    SinksAfterCleanup(plan, scripts, n, fs);
    if forall j :: 0 <= j < |plan| ==> RunFetch(ScriptFor(scripts, j), n).ok {
      SuccessfulFetchesLeaveSinks(plan, scripts, n, fs);
      var joined := JoinResult(plan, out, chunkSize, fetched);
      CleanupAfterWrite(fetched, plan, out, joined.1[out]);
      assert joined.1 == fetched[out := joined.1[out]];
    }
  }

  /** Fetches that deliver their slices succeed with the slices in their sinks. */
  lemma DeliveredFetches(plan: seq<Fragment>, scripts: seq<seq<Attempt>>, n: int, data: seq<Byte>)
    requires forall j :: 0 <= j < |plan| ==> Delivers(ScriptFor(scripts, j), n, Slice(data, plan[j]))
    ensures forall j :: 0 <= j < |plan| ==>
      RunFetch(ScriptFor(scripts, j), n).ok && RunFetch(ScriptFor(scripts, j), n).sink == Some(Slice(data, plan[j]))
  {
    forall j | 0 <= j < |plan|
      ensures RunFetch(ScriptFor(scripts, j), n).ok
      ensures RunFetch(ScriptFor(scripts, j), n).sink == Some(Slice(data, plan[j]))
    {
      DeliveredBodyIsKept(ScriptFor(scripts, j), n, Slice(data, plan[j]));
    }
  }

  lemma DeliveredSinksHoldSlices(plan: seq<Fragment>, scripts: seq<seq<Attempt>>, n: int, fs: FileSystem,
                                 data: seq<Byte>, tempDirectory: string, filename: string)
    requires Tiles(plan, |data|, tempDirectory, filename) && DistinctPaths(plan)
    requires forall j :: 0 <= j < |plan| ==> RunFetch(ScriptFor(scripts, j), n).sink == Some(Slice(data, plan[j]))
    ensures HoldsSlices(SinksAfter(plan, scripts, n, fs, |plan|), plan, data)
  {
    TilesBounds(plan, |data|, tempDirectory, filename);
    SinksAfterFacts(plan, scripts, n, fs, |plan|);
  }

  /** The round trip for a tiling plan whose fetches deliver their slices. */
  lemma FragmentedRoundTrip(plan: seq<Fragment>, out: Path, chunkSize: int, n: int, scripts: seq<seq<Attempt>>,
                            fs: FileSystem, data: seq<Byte>, tempDirectory: string, filename: string)
    requires Tiles(plan, |data|, tempDirectory, filename) && DistinctPaths(plan) && out !in PathsOf(plan)
    requires chunkSize != 0
    requires forall j :: 0 <= j < |plan| ==> Delivers(ScriptFor(scripts, j), n, Slice(data, plan[j]))
    ensures FragmentedDownload(plan, out, chunkSize, n, scripts, fs) == (Completed(true), Cleanup(fs, plan)[out := data])
  {
    DeliveredFetches(plan, scripts, n, data);
    var fetched := SinksAfter(plan, scripts, n, fs, |plan|);
    DeliveredSinksHoldSlices(plan, scripts, n, fs, data, tempDirectory, filename);
    JoinTiled(plan, out, chunkSize, fetched, data, tempDirectory, filename);
    SinksAfterCleanup(plan, scripts, n, fs);
    CleanupAfterWrite(fetched, plan, out, data);
    ResultsAllTrue(scripts, n, |plan|);
  }

  /** The gate passes exactly when every fetch succeeded. */
  lemma ResultsAllTrue(scripts: seq<seq<Attempt>>, n: int, k: nat)
    ensures AllTrue(Results(scripts, n, k)) <==> forall j :: 0 <= j < k ==> RunFetch(ScriptFor(scripts, j), n).ok
  {
  }

  /** The round trip: a range-capable server reporting |data| bytes whose
      first successful answer to each ranged GET is that fragment's slice of
      data makes the download succeed with exactly data in the output file,
      every sink removed, and nothing else changed. */
  lemma DownloadRoundTrip(cfg: DownloadConfig, filename: string, head: HeadOutcome, fallback: GetOutcome,
                          scripts: seq<seq<Attempt>>, fs: FileSystem, data: seq<Byte>)
    requires ProbeSize(head) == Some(|data|) && 1 <= |data| < FormatLimit
    requires cfg.maxConcurrentFragments >= 1 && cfg.chunkSize != 0
    requires var plan := Plan(|data|, cfg.maxConcurrentFragments, cfg.tempDirectory, filename).value;
      forall j :: 0 <= j < |plan| ==> Delivers(ScriptFor(scripts, j), cfg.retryAttempts, Slice(data, plan[j]))
    ensures var plan := Plan(|data|, cfg.maxConcurrentFragments, cfg.tempDirectory, filename).value;
      DownloadSpec(cfg, filename, head, fallback, scripts, fs)
        == (Completed(true), Cleanup(fs, plan)[Path(cfg.outputDirectory, filename) := data])
  {
    var route := RouteOf(cfg, filename, head);
    assert route == Fragmented(Plan(|data|, cfg.maxConcurrentFragments, cfg.tempDirectory, filename).value);
    RoutePaths(cfg, filename, head);
    FragmentedRoundTrip(route.plan, Path(cfg.outputDirectory, filename), cfg.chunkSize, cfg.retryAttempts,
                        scripts, fs, data, cfg.tempDirectory, filename);
  }

  /** A fetch that delivers a non-empty body last reports its length. */
  lemma DeliveredReport(script: seq<Attempt>, n: int, data: seq<Byte>)
    requires Delivers(script, n, data) && |data| >= 1
    ensures RunFetch(script, n).lastReport == Some(|data|)
  {
    DeliveredBodyIsKept(script, n, data);
    FetchSinkIsLastBody(script, n);
    var r := RunFetch(script, n);
    var chunks := AttemptAt(script, r.requests - 1).chunks;
    assert Flatten([]) == [];
    assert chunks != [];
  }

  /** The sizes of fragments 0..k-1 of a plan, keyed by position. */
  function SizesOf(plan: seq<Fragment>, k: nat): map<int, int>
    requires k <= |plan|
  {
    if k == 0 then map[] else SizesOf(plan, k - 1)[k - 1 := plan[k - 1].end - plan[k - 1].start + 1]
  }

  lemma {:induction false} SizesOfFacts(plan: seq<Fragment>, k: nat)
    requires k <= |plan|
    ensures forall i :: i in SizesOf(plan, k) <==> 0 <= i < k
    ensures forall j :: 0 <= j < k ==> SizesOf(plan, k)[j] == plan[j].end - plan[j].start + 1
  {
    if k > 0 {
      SizesOfFacts(plan, k - 1);
    }
  }

  lemma {:induction false} TrackerAfterFullReports(plan: seq<Fragment>, scripts: seq<seq<Attempt>>, n: int,
                                                   now: real, k: nat)
    requires k <= |plan|
    requires forall j :: 0 <= j < |plan| ==> plan[j].id == j
    requires forall j :: 0 <= j < |plan| ==> RunFetch(ScriptFor(scripts, j), n).lastReport == Some(plan[j].end - plan[j].start + 1)
    ensures var s := TrackerAfter(TrackerState(map[], map[], map[], map[]), plan, scripts, n, now, k);
      s.progress == SizesOf(plan, k) && s.sizes == SizesOf(plan, k)
  {
    if k > 0 {
      TrackerAfterFullReports(plan, scripts, n, now, k - 1);
      var before := TrackerAfter(TrackerState(map[], map[], map[], map[]), plan, scripts, n, now, k - 1);
      var size := plan[k - 1].end - plan[k - 1].start + 1;
      var t := RunFetch(ScriptFor(scripts, k - 1), n);
      assert t.lastReport.GetOr(0) == size;
      assert plan[k - 1].id == k - 1;
      var s := TrackerAfter(TrackerState(map[], map[], map[], map[]), plan, scripts, n, now, k);
      assert s == TrackerAfterFetch(before, plan[k - 1], t, now);
      assert s.progress == before.progress[k - 1 := size];
    }
  }

  /** After delivered fetches each fragment's tracked count equals its size:
      the tracker's counts and sizes are the same dictionary, keyed by the
      ids of the fragments fetched. */
  lemma TrackerCompleteAfterDelivery(plan: seq<Fragment>, scripts: seq<seq<Attempt>>, n: int, now: real,
                                     data: seq<Byte>, tempDirectory: string, filename: string)
    requires Tiles(plan, |data|, tempDirectory, filename)
    requires forall j :: 0 <= j < |plan| ==> Delivers(ScriptFor(scripts, j), n, Slice(data, plan[j]))
    ensures var s := TrackerAfter(TrackerState(map[], map[], map[], map[]), plan, scripts, n, now, |plan|);
      && s.progress == s.sizes
      && (forall i :: i in s.sizes <==> 0 <= i < |plan|)
      && (forall j :: 0 <= j < |plan| ==> s.sizes[j] == plan[j].end - plan[j].start + 1)
  {
    TilesBounds(plan, |data|, tempDirectory, filename);
    forall j | 0 <= j < |plan|
      ensures RunFetch(ScriptFor(scripts, j), n).lastReport == Some(plan[j].end - plan[j].start + 1)
    {
      DeliveredReport(ScriptFor(scripts, j), n, Slice(data, plan[j]));
    }
    TrackerAfterFullReports(plan, scripts, n, now, |plan|);
    SizesOfFacts(plan, |plan|);
  }

  /** With a negative fragment count nothing is planned or fetched, the
      gate passes on the empty list and the join truncates the output: the
      download succeeds with an empty file. */
  lemma NegativeCountWritesEmptyFile(cfg: DownloadConfig, filename: string, head: HeadOutcome, fallback: GetOutcome,
                                     scripts: seq<seq<Attempt>>, fs: FileSystem)
    requires UsesFragments(ProbeSize(head)) && 1 <= ProbeSize(head).value < FormatLimit
    requires cfg.maxConcurrentFragments < 0
    ensures DownloadSpec(cfg, filename, head, fallback, scripts, fs)
      == (Completed(true), fs[Path(cfg.outputDirectory, filename) := []])
  {
    var out := Path(cfg.outputDirectory, filename);
    assert RouteOf(cfg, filename, head) == Fragmented([]);
    assert PathsOf([]) == {};
    assert JoinResult([], out, cfg.chunkSize, fs) == (true, fs[out := []]);
    assert fs[out := []] - {} == fs[out := []];
  }

  /** A server that ignores the Range header and answers 200 with the whole
      body is accepted (core.py:91): with two fragments the output holds the
      body twice, and the download reports success. */
  lemma FullBodyAnswerDuplicates(cfg: DownloadConfig, filename: string, head: HeadOutcome, fallback: GetOutcome,
                                 scripts: seq<seq<Attempt>>, fs: FileSystem, data: seq<Byte>)
    requires ProbeSize(head) == Some(|data|) && 2 <= |data| < FormatLimit
    requires cfg.maxConcurrentFragments == 2 && cfg.chunkSize != 0 && cfg.retryAttempts >= 1
    requires forall j :: 0 <= j < 2 ==> AttemptAt(ScriptFor(scripts, j), 0) == Response(200, [data])
    ensures var plan := Plan(|data|, 2, cfg.tempDirectory, filename).value;
      DownloadSpec(cfg, filename, head, fallback, scripts, fs)
        == (Completed(true), Cleanup(fs, plan)[Path(cfg.outputDirectory, filename) := data + data])
  {
    var td, n := cfg.tempDirectory, cfg.retryAttempts;
    var plan := Plan(|data|, 2, td, filename).value;
    var out := Path(cfg.outputDirectory, filename);
    assert RouteOf(cfg, filename, head) == Fragmented(plan);
    TwoFragments(|data|, td, filename);
    RoutePaths(cfg, filename, head);
    FullBodyFetches(plan, out, cfg.chunkSize, n, scripts, fs, data);
  }

  lemma TwoFragments(size: int, tempDirectory: string, filename: string)
    requires size >= 2
    ensures |Plan(size, 2, tempDirectory, filename).value| == 2
  {
    var q := CeilDiv(size, 2);
    assert PlanPrefix(size, q, tempDirectory, filename, 2)
      == PlanPrefix(size, q, tempDirectory, filename, 1) + Candidate(size, q, tempDirectory, filename, 1);
    assert |PlanPrefix(size, q, tempDirectory, filename, 1)| == 1;
    assert |Candidate(size, q, tempDirectory, filename, 1)| == 1;
  }

  lemma FullBodyFetches(plan: seq<Fragment>, out: Path, chunkSize: int, n: int,
                        scripts: seq<seq<Attempt>>, fs: FileSystem, data: seq<Byte>)
    requires |plan| == 2 && DistinctPaths(plan) && out !in PathsOf(plan) && chunkSize != 0 && n >= 1
    requires forall j :: 0 <= j < 2 ==> AttemptAt(ScriptFor(scripts, j), 0) == Response(200, [data])
    ensures FragmentedDownload(plan, out, chunkSize, n, scripts, fs) == (Completed(true), Cleanup(fs, plan)[out := data + data])
  {
    assert Flatten([data]) == data by {
      assert [data][..0] == [];
    }
    forall j | 0 <= j < 2
      ensures RunFetch(ScriptFor(scripts, j), n).ok
      ensures RunFetch(ScriptFor(scripts, j), n).sink == Some(data)
    {
      assert Delivers(ScriptFor(scripts, j), n, data);
      DeliveredBodyIsKept(ScriptFor(scripts, j), n, data);
    }
    var fetched := SinksAfter(plan, scripts, n, fs, 2);
    SinksAfterFacts(plan, scripts, n, fs, 2);
    assert SinksConcat(plan, fetched, 2) == data + data by {
      assert SinksConcat(plan, fetched, 0) == [];
    }
    assert JoinResult(plan, out, chunkSize, fetched) == (true, fetched[out := data + data]);
    SinksAfterCleanup(plan, scripts, n, fs);
    CleanupAfterWrite(fetched, plan, out, data + data);
  }
}
