/** FragmentDownloader (core.py:29-273): the configuration it reads, the
    progress tracker it creates and feeds, and the loops that fetch, join
    and delete the fragment files. Each method is proved to do what the
    functions of the Orchestration module say. */
module Downloader {
  import opened Common
  import opened Planner
  import opened Probe
  import opened Fetcher
  import opened Reassembly
  import opened Progress
  import opened Orchestration

  class FragmentDownloader {
    /** The configuration object; the command-line front end holds the
        same object and may change it after construction. */
    var config: DownloadConfig
    /** Whether the SSL context built at construction verifies
        certificates (core.py:36-50); later changes to verify_ssl do not
        reach it. */
    const sslVerifies: bool
    var progressTracker: ProgressTracker?

    ghost predicate Valid()
      reads this, progressTracker
    {
      progressTracker != null ==> progressTracker.Valid()
    }

    /** __init__ (core.py:30-34); the directories it creates are not modelled. */
    constructor (config: DownloadConfig)
      ensures Valid()
      ensures this.config == config && sslVerifies == config.verifySsl && progressTracker == null
    {
      this.config := config;
      sslVerifies := config.verifySsl;
      progressTracker := null;
    }

    /** The body of an accepted attempt (core.py:92-100): the sink is
        reopened empty, each chunk is appended to it, and the tracker is told
        the running count of this attempt after every chunk. */
    method StreamToSink(fs: FileSystem, f: Fragment, chunks: seq<seq<Byte>>, now: real) returns (fs': FileSystem)
      requires Valid()
      requires progressTracker != null ==> f.id in progressTracker.startTimes && progressTracker.startTimes[f.id] == now
      modifies progressTracker
      ensures Valid()
      ensures fs' == fs[f.path := Flatten(chunks)]
      ensures progressTracker != null ==>
        progressTracker.State() == old(progressTracker.State()).(progress :=
          if chunks == [] then old(progressTracker.fragmentProgress)
          else old(progressTracker.fragmentProgress)[f.id := |Flatten(chunks)|])
      ensures progressTracker != null ==>
        progressTracker.displayActive == old(progressTracker.displayActive)
        && progressTracker.lastLineCount == old(progressTracker.lastLineCount)
    {
      fs' := fs[f.path := []];
      var downloaded := 0;
      var i := 0;
      while i < |chunks|
        invariant 0 <= i <= |chunks|
        invariant fs' == fs[f.path := Flatten(chunks[..i])]
        invariant downloaded == |Flatten(chunks[..i])|
        invariant Valid()
        invariant progressTracker != null ==>
          progressTracker.State() == old(progressTracker.State()).(progress :=
            if i == 0 then old(progressTracker.fragmentProgress)
            else old(progressTracker.fragmentProgress)[f.id := downloaded])
        invariant progressTracker != null ==>
          progressTracker.displayActive == old(progressTracker.displayActive)
          && progressTracker.lastLineCount == old(progressTracker.lastLineCount)
      {
        FlattenSnoc(chunks, i);
        fs' := fs'[f.path := fs'[f.path] + chunks[i]];
        downloaded := downloaded + |chunks[i]|;
        if progressTracker != null {
          var _ := progressTracker.UpdateFragmentProgress(f.id, downloaded, now);
        }
        i := i + 1;
      }
      assert chunks[..|chunks|] == chunks;
    }

    /** One pass of the retry loop of download_fragment (core.py:88-113)
        with outcome a for attempt k of n: the sink and the tracker move from
        what the trace t says to what AttemptTrace says, the result is
        whether the attempt succeeded, and delay is the sleep it causes. */
    method TryAttempt(ghost fs0: FileSystem, fs: FileSystem, ghost s0: TrackerState, ghost t: FetchTrace,
                      a: Attempt, f: Fragment, k: nat, n: int, now: real)
      returns (ok: bool, fs': FileSystem, delay: seq<int>)
      requires Valid()
      requires fs == WithSink(fs0, f.path, t)
      requires progressTracker != null ==> progressTracker.State() == TrackerAfterFetch(s0, f, t, now)
      modifies progressTracker
      ensures Valid()
      ensures ok == Succeeds(a)
      ensures delay == if Raises(a) then Backoff(k, n) else []
      ensures fs' == WithSink(fs0, f.path, AttemptTrace(a, k, n, t))
      ensures progressTracker != null ==>
        progressTracker.State() == TrackerAfterFetch(s0, f, AttemptTrace(a, k, n, t), now)
      ensures progressTracker != null ==>
        progressTracker.displayActive == old(progressTracker.displayActive)
        && progressTracker.lastLineCount == old(progressTracker.lastLineCount)
    {
      ok, fs', delay := false, fs, [];
      match a {
        case Response(status, chunks) =>
          if Accepted(status) {
            StreamedTracker(s0, f, t, AttemptTrace(a, k, n, t), chunks, now);
            fs' := StreamToSink(fs, f, chunks, now);
            ok := true;
          }
        case ConnectionError =>
          if k < n - 1 {
            delay := [Pow2(k)];
          }
        case StreamError(written) =>
          StreamedTracker(s0, f, t, AttemptTrace(a, k, n, t), written, now);
          fs' := StreamToSink(fs, f, written, now);
          if k < n - 1 {
            delay := [Pow2(k)];
          }
      }
    }

    /** download_fragment (core.py:79-115) against a script of request
        outcomes, with one clock reading for the whole fetch: it does what
        RunFetch describes, and the tracker ends as TrackerAfterFetch says. */
    method DownloadFragment(fs: FileSystem, script: seq<Attempt>, f: Fragment, now: real)
      returns (ok: bool, fs': FileSystem, delays: seq<int>)
      requires Valid()
      modifies progressTracker
      ensures Valid()
      ensures var t := RunFetch(script, config.retryAttempts);
        ok == t.ok && delays == t.delays && fs' == WithSink(fs, f.path, t)
      ensures progressTracker != null ==>
        progressTracker.State() == TrackerAfterFetch(old(progressTracker.State()), f, RunFetch(script, config.retryAttempts), now)
      ensures progressTracker != null ==>
        progressTracker.displayActive == old(progressTracker.displayActive)
        && progressTracker.lastLineCount == old(progressTracker.lastLineCount)
    {
      var n := config.retryAttempts;
      ghost var s0 := if progressTracker != null then progressTracker.State() else TrackerState(map[], map[], map[], map[]);
      if progressTracker != null {
        progressTracker.InitializeFragment(f.id, f.end - f.start + 1, now);
      }
      ghost var t := Start;
      fs' := fs;
      delays := [];
      var attempt := 0;
      while attempt < n
        invariant 0 <= attempt && (attempt <= n || attempt == 0)
        invariant !t.ok && t.requests == attempt && t.delays == delays
        invariant FetchFrom(script, n, attempt, t) == RunFetch(script, n)
        invariant fs' == WithSink(fs, f.path, t)
        invariant Valid()
        invariant progressTracker != null ==> progressTracker.State() == TrackerAfterFetch(s0, f, t, now)
        invariant progressTracker != null ==>
          progressTracker.displayActive == old(progressTracker.displayActive)
          && progressTracker.lastLineCount == old(progressTracker.lastLineCount)
        decreases n - attempt
      {
        var a := AttemptAt(script, attempt);
        var done, delay;
        done, fs', delay := TryAttempt(fs, fs', s0, t, a, f, attempt, n, now);
        t := AttemptTrace(a, attempt, n, t);
        if done {
          return true, fs', delays;
        }
        delays := delays + delay;
        attempt := attempt + 1;
      }
      return false, fs', delays;
    }

    /** The fetch of every planned fragment (core.py:164-174), one after
        another in plan order, gathering each result and its delays. */
    method FetchFragments(plan: seq<Fragment>, scripts: seq<seq<Attempt>>, fs: FileSystem, now: real)
      returns (results: seq<GatherResult>, fs': FileSystem, delays: seq<seq<int>>)
      requires Valid()
      modifies progressTracker
      ensures Valid()
      ensures results == Results(scripts, config.retryAttempts, |plan|)
      ensures fs' == SinksAfter(plan, scripts, config.retryAttempts, fs, |plan|)
      ensures delays == DelaysOf(scripts, config.retryAttempts, |plan|)
      ensures progressTracker != null ==>
        progressTracker.State() == TrackerAfter(old(progressTracker.State()), plan, scripts, config.retryAttempts, now, |plan|)
      ensures progressTracker != null ==>
        progressTracker.displayActive == old(progressTracker.displayActive)
        && progressTracker.lastLineCount == old(progressTracker.lastLineCount)
    {
      results, fs', delays := [], fs, [];
      var k := 0;
      while k < |plan|
        invariant 0 <= k <= |plan|
        invariant Valid()
        invariant results == Results(scripts, config.retryAttempts, k)
        invariant fs' == SinksAfter(plan, scripts, config.retryAttempts, fs, k)
        invariant delays == DelaysOf(scripts, config.retryAttempts, k)
        invariant progressTracker != null ==>
          progressTracker.State() == TrackerAfter(old(progressTracker.State()), plan, scripts, config.retryAttempts, now, k)
        invariant progressTracker != null ==>
          progressTracker.displayActive == old(progressTracker.displayActive)
          && progressTracker.lastLineCount == old(progressTracker.lastLineCount)
      {
        var ok, d;
        ok, fs', d := DownloadFragment(fs', ScriptFor(scripts, k), plan[k], now);
        results := results + [Value(ok)];
        delays := delays + [d];
        k := k + 1;
      }
    }

    /** The chunked copy of one sink onto the end of the output
        (core.py:252-257): read(chunk_size) until it returns nothing. */
    method CopySink(fs: FileSystem, source: Path, out: Path) returns (fs': FileSystem)
      requires source in fs && out in fs && source != out
      ensures fs' == fs[out := fs[out] + (if config.chunkSize == 0 then [] else fs[source])]
    {
      var content := fs[source];
      var pos := 0;
      fs' := fs;
      assert fs[out := fs[out] + content[..0]] == fs by {
        assert fs[out] + content[..0] == fs[out];
      }
      while true
        invariant 0 <= pos <= |content|
        invariant fs' == fs[out := fs[out] + content[..pos]]
        invariant config.chunkSize == 0 ==> pos == 0
        decreases |content| - pos
      {
        var chunk := ReadChunk(content, pos, config.chunkSize);
        if chunk == [] {
          break;
        }
        assert fs'[out] + chunk == fs[out] + content[..pos + |chunk|] by {
          assert content[..pos + |chunk|] == content[..pos] + chunk;
        }
        fs' := fs'[out := fs'[out] + chunk];
        pos := pos + |chunk|;
      }
      assert content[..|content|] == content;
    }

    /** join_fragments (core.py:246-264): truncate the output, then append
        each sink in plan order, stopping with False at the first missing one. */
    method JoinFragments(plan: seq<Fragment>, out: Path, fs: FileSystem) returns (ok: bool, fs': FileSystem)
      requires out !in PathsOf(plan)
      ensures (ok, fs') == JoinResult(plan, out, config.chunkSize, fs)
    {
      fs' := fs[out := []];
      var k := 0;
      while k < |plan|
        invariant 0 <= k <= |plan|
        invariant forall j :: 0 <= j < k ==> plan[j].path in fs
        invariant fs' == fs[out := if config.chunkSize == 0 then [] else SinksConcat(plan, fs, k)]
      {
        var path := plan[k].path;
        assert path in PathsOf(plan);
        if path !in fs' {
          return false, fs';
        }
        fs' := CopySink(fs', path, out);
        k := k + 1;
      }
      return true, fs';
    }

    /** cleanup_fragments (core.py:266-273): delete each sink that exists. */
    method CleanupFragments(plan: seq<Fragment>, fs: FileSystem) returns (fs': FileSystem)
      ensures fs' == Cleanup(fs, plan)
    {
      fs' := fs;
      var k := 0;
      while k < |plan|
        invariant 0 <= k <= |plan|
        invariant fs' == fs - PathsOf(plan[..k])
      {
        assert PathsOf(plan[..k + 1]) == PathsOf(plan[..k]) + {plan[k].path} by {
          assert forall j :: 0 <= j < k ==> plan[..k + 1][j] == plan[..k][j];
        }
        if plan[k].path in fs' {
          fs' := fs' - {plan[k].path};
        }
        k := k + 1;
      }
      assert plan[..|plan|] == plan;
    }

    /** download_single_threaded (core.py:210-244): a 200 response
        truncates the output and streams the body into it; the progress
        line after each chunk can raise, which ends the download with False. */
    method DownloadSingleThreaded(get: GetOutcome, out: Path, fs: FileSystem) returns (ok: bool, fs': FileSystem)
      ensures (ok, fs') == SingleThreaded(get, out, config.showProgress, fs)
    {
      fs' := fs;
      match get {
        case GetRaised =>
          return false, fs';
        case GetResponse(status, contentLength, chunks, broken) =>
          if status != 200 {
            return false, fs';
          }
          fs' := fs'[out := []];
          var downloaded := 0;
          var i := 0;
          while i < |chunks|
            invariant 0 <= i <= |chunks|
            invariant fs' == fs[out := Flatten(chunks[..i])]
            invariant i > 0 ==> !ProgressLineRaises(contentLength, config.showProgress)
          {
            FlattenSnoc(chunks, i);
            fs' := fs'[out := fs'[out] + chunks[i]];
            downloaded := downloaded + |chunks[i]|;
            if contentLength.Some? && contentLength.value != "" && config.showProgress {
              var total := ParseInt(contentLength.value);
              if total.None? || total.value == 0 {
                assert i == 0 && chunks[..0] == [];
                assert fs' == fs[out := Flatten(chunks[..0]) + chunks[0]];
                assert Flatten(chunks[..0]) + chunks[0] == chunks[0];
                assert fs' == fs[out := chunks[0]];
                return false, fs';
              }
            }
            i := i + 1;
          }
          assert chunks[..|chunks|] == chunks;
          return !broken, fs';
      }
    }

    /** The fragmented part of download_file (core.py:162-208) for a plan:
        fetch every fragment, stop the display, then either clean up after a
        failure or join and clean up. */
    method FetchJoinCleanup(plan: seq<Fragment>, out: Path, scripts: seq<seq<Attempt>>, now: real, fs: FileSystem)
      returns (outcome: DownloadOutcome, fs': FileSystem, delays: seq<seq<int>>)
      requires Valid() && out !in PathsOf(plan)
      modifies progressTracker
      ensures Valid()
      ensures (outcome, fs') == FragmentedDownload(plan, out, config.chunkSize, config.retryAttempts, scripts, fs)
      ensures delays == DelaysOf(scripts, config.retryAttempts, |plan|)
      ensures progressTracker != null ==>
        && !progressTracker.displayActive
        && progressTracker.State() == TrackerAfter(old(progressTracker.State()), plan, scripts, config.retryAttempts, now, |plan|)
    {
      var results;
      results, fs', delays := FetchFragments(plan, scripts, fs, now);
      if progressTracker != null {
        ghost var fetched := progressTracker.State();
        progressTracker.displayActive := false;
        assert progressTracker.State() == fetched && progressTracker.Valid();
      }
      if !AllTrue(results) {
        fs' := CleanupFragments(plan, fs');
        return Completed(false), fs', delays;
      }
      var ok;
      ok, fs' := JoinFragments(plan, out, fs');
      fs' := CleanupFragments(plan, fs');
      return Completed(ok), fs', delays;
    }

    /** download_file (core.py:117-208) for a resolved file name, with the
        server's behaviour given as the HEAD outcome, the fallback GET and
        one script per fragment, and one clock reading. */
    method DownloadFile(filename: string, head: HeadOutcome, fallback: GetOutcome, scripts: seq<seq<Attempt>>,
                        supportsAnsi: bool, now: real, fs: FileSystem)
      returns (outcome: DownloadOutcome, fs': FileSystem, delays: seq<seq<int>>)
      requires Valid()
      modifies this, progressTracker
      ensures Valid() && config == old(config)
      ensures (outcome, fs') == DownloadSpec(config, filename, head, fallback, scripts, fs)
      ensures RouteOf(config, filename, head).Fragmented? ==>
        delays == DelaysOf(scripts, config.retryAttempts, |RouteOf(config, filename, head).plan|)
      ensures !RouteOf(config, filename, head).Fragmented? ==>
        && delays == [] && progressTracker == old(progressTracker)
        && (progressTracker != null ==> progressTracker.State() == old(progressTracker.State()))
      ensures RouteOf(config, filename, head).Fragmented? && config.showProgress ==>
        var plan := RouteOf(config, filename, head).plan;
        && progressTracker != null && fresh(progressTracker)
        && progressTracker.totalFragments == |plan| && progressTracker.progressStyle == config.progressStyle
        && progressTracker.supportsAnsi == supportsAnsi && !progressTracker.displayActive
        && progressTracker.State()
           == TrackerAfter(TrackerState(map[], map[], map[], map[]), plan, scripts, config.retryAttempts, now, |plan|)
      ensures RouteOf(config, filename, head).Fragmented? && !config.showProgress ==>
        var plan := RouteOf(config, filename, head).plan;
        && progressTracker == old(progressTracker)
        && (progressTracker != null ==>
              && !progressTracker.displayActive
              && progressTracker.State()
                 == TrackerAfter(old(progressTracker.State()), plan, scripts, config.retryAttempts, now, |plan|))
    {
      var out := Path(config.outputDirectory, filename);
      delays := [];
      var size := ProbeSize(head);
      if !UsesFragments(size) {
        var ok;
        ok, fs' := DownloadSingleThreaded(fallback, out, fs);
        return Completed(ok), fs', delays;
      }
      if size.value < 0 {
        return Raised(MathDomainError), fs, delays;
      }
      if size.value >= FormatLimit {
        return Raised(SizeIndexError), fs, delays;
      }
      var planned := PlanFragments(size.value, config.maxConcurrentFragments, config.tempDirectory, filename);
      if planned.None? {
        return Raised(ZeroDivision), fs, delays;
      }
      var plan := planned.value;
      assert RouteOf(config, filename, head) == Fragmented(plan);
      RoutePaths(config, filename, head);
      if config.showProgress {
        progressTracker := new ProgressTracker(|plan|, config.progressStyle, supportsAnsi);
        progressTracker.displayActive := true;
      }
      outcome, fs', delays := FetchJoinCleanup(plan, out, scripts, now, fs);
    }
  }
}
