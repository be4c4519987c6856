# Fragmented download manager, modelled in Dafny

This project models the core of a Python download manager. The manager first probes a URL with a HEAD request. When the server reports a length and accepts byte ranges, it cuts the file into a few contiguous byte ranges. It fetches each range into its own fragment file ("sink"), retrying with exponential backoff. If every fragment arrived, it joins the sinks in order into the output file, and then it deletes the sinks. When the server cannot serve ranges, it falls back to a single streaming GET. A progress tracker records the bytes of each fragment. A command-line front end merges flags into the configuration and maps the result of a download to an exit code.

The model is proved against what the code does. Three results matter most:

- `Planner.PlanTiles`: the planned ranges tile `[0, size - 1]`.
- `Reassembly.JoinRoundTrip`: sinks holding the planned slices of `B` rejoin to exactly `B`.
- `Orchestration.DownloadRoundTrip`: a server that delivers each slice makes the whole download succeed with `B` in the output file, every sink removed, and nothing else changed.

Modules, one per concern of the source:

| module | file | models |
|---|---|---|
| `Common` | common.dfy | bytes, paths as (directory, name) pairs, the file system as a map from path to bytes, decimal rendering of fragment numbers |
| `Planner` | planner.dfy | range planning of `download_file` |
| `Probe` | probe.dfy | the HEAD decision of `get_file_size` and Python's `int()` on the header |
| `Fetcher` | fetcher.dfy | the retry loop of `download_fragment`, as a function of a script of request outcomes |
| `Reassembly` | reassembly.dfy | `join_fragments` and `cleanup_fragments` on the file system map |
| `Progress` | progress.dfy | class `ProgressTracker`, the progress bar and the renderer dispatch |
| `Orchestration` | orchestration.dfy | `DownloadConfig`, the fallback download, the route after probing, and `download_file` as functions |
| `Downloader` | downloader.dfy | class `FragmentDownloader`, whose methods run the loops and are proved equal to the Orchestration functions |
| `Cli` | cli.dfy | class `DownloadManagerCLI`: `config_command` and `download_command` |

The environment enters as parameters:

- The server's behaviour is given as values: a HEAD outcome, the outcome of the fallback GET, and one script of GET outcomes per fragment. A request past the end of a script fails to connect.
- Backoff sleeps are recorded as a list of delays.
- The clock is one reading `now` per download.
- The terminal's ANSI support is a flag.

### Behaviour of the code worth knowing

- Backoff sleeps follow only attempts that raised. A status other than 200 or 206 is retried at once.
- A 200 answer to a ranged GET counts as success. A server that ignores `Range` therefore makes the joined file hold the whole body once per fragment (`Orchestration.FullBodyAnswerDuplicates`).
- A failed join, or a failed fallback download, leaves the partly written output file in place. Only the sinks are removed.
- A negative fragment count plans nothing. The download then succeeds with an empty output file (`Orchestration.NegativeCountWritesEmptyFile`).
- A fragment count of 0 raises `ZeroDivisionError`.
- A size that `format_size` cannot print raises before planning: a negative size (the log of a negative number) or a size of about 1024^5 or more (no unit name).
- The running byte count the tracker receives is the total of the current attempt, not the size of each chunk.

## Model

| member | source | states |
|---|---|---|
| `Common.NatToStringInjective` | core.py:144 | distinct fragment numbers render to distinct decimal strings |
| `Planner.CeilDiv` | core.py:136 | the result q is the exact ceiling of a / b: (q - 1) * b < a <= q * b |
| `Planner.Candidate` | core.py:140-145 | definition of iteration i of the planning loop: the fragment `(i * fs, min(i * fs + fs - 1, size - 1), <filename>.part<i>, i)`, kept only when start <= end; its shape is proved in `Planner.PlanPrefixShape` |
| `Planner.PlanPrefix` | core.py:139-145 | definition of the fragments list after k iterations; `Planner.PlanPrefixShape` proves which candidates it keeps |
| `Planner.Plan` | core.py:136-145 | definition of the plan: ZeroDivisionError (None) for count 0, no iterations for a negative count, otherwise count iterations with fs = ceil(size / count); `Planner.PlanTiles`, `Planner.PlanLengthsSum` and `Planner.PlanExample` carry its properties |
| `Planner.PlanFragments` | core.py:136-145 | the planning loop returns `Plan(size, count, ...)`: None for count 0, no fragments for a negative count, otherwise the kept candidates `(i * fs, min(i * fs + fs - 1, size - 1))` with fs = ceil(size / count) |
| `Planner.PlanPrefixShape` | core.py:139-145 | after k iterations the list holds at most k fragments; fragment m is candidate m, starting inside the file; once a candidate is dropped the fragments already reach the size |
| `Planner.PlanTiles` | core.py:136-145 | for size >= 1 and count >= 1 the plan has between 1 and count fragments; fragment j has id j, its own part path and start <= end; the first starts at 0, each starts at the previous end + 1, the last ends at size - 1 |
| `Planner.TilesBounds` | core.py:140-141 | every fragment of a tiling lies inside [0, size - 1] |
| `Planner.PlanLengthsSum` | core.py:136-145 | the fragment lengths end - start + 1 add up to the size |
| `Planner.NonPositiveSizeGivesEmptyPlan` | core.py:136-145 | a size <= 0 with a nonzero count plans no fragment; this is a property of the planning loop alone, since `download_file` never plans such a size (0 takes the fallback and a negative size raises in `format_size`) |
| `Planner.PlanExample` | core.py:136-145 | 1,000,000 bytes in 4 fragments give [0,249999], [250000,499999], [500000,749999], [750000,999999] |
| `Planner.PartPathsDistinct` | core.py:122-144 | the sinks `<filename>.part<i>` of distinct fragments differ, and none is the output path |
| `Probe.ParseInt` | core.py:71 | `int()` on a header succeeds for an optional sign followed by one or more ASCII decimal digits, and fails on every other string |
| `Probe.ParseIntOfNatToString` | core.py:71 | parsing the decimal rendering of n gives n |
| `Probe.ProbeSize` | core.py:57-77 | a size is returned only for status 200 with a non-empty Content-Length, Accept-Ranges exactly "bytes", and a value `int()` accepts; every other case and every exception give None |
| `Probe.ProbeReadsLength` | core.py:66-71 | a range-capable server reporting n bytes yields the size n |
| `Fetcher.AttemptTrace` | core.py:89-113 | definition of one attempt: every attempt is a request; an accepted status reopens the sink with its body and reports its total; another status changes nothing else; a raise before the response sleeps; a raise while streaming leaves what was written, reports it and sleeps |
| `Fetcher.FetchFrom` | core.py:88-115 | definition of the attempt loop from attempt k: stop after the first accepted attempt or after attempt n - 1; `Fetcher.FetchFromFacts`, `Fetcher.FetchFromDelays` and `Fetcher.FetchFromSink` carry its properties |
| `Fetcher.RunFetch` | core.py:79-115 | definition of `download_fragment` with retry_attempts n; `Fetcher.FetchPolicy` and `Fetcher.FetchSinkIsLastBody` carry its properties |
| `Fetcher.FetchFromFacts` | core.py:88-115 | from attempt k on, the loop succeeds iff one of attempts k..n-1 gets 200 or 206 and streams its body without raising; it stops at that attempt, and on failure it has made exactly n requests (none when n <= 0) |
| `Fetcher.FetchFromDelays` | core.py:109-113 | the sleeps recorded from attempt k on are 2^j after each attempt j that raised, except the last allowed attempt |
| `Fetcher.FetchPolicy` | core.py:79-115 | `download_fragment` returns True iff one of the first n requests gets 200 or 206 and streams its body without raising; it stops at the first such request, makes at most n requests (none when n <= 0), and sleeps 2^j exactly after each raising attempt j other than attempt n - 1 |
| `Fetcher.FetchFromSink` | core.py:91-100 | on success the sink holds the body of the successful request, whatever earlier attempts wrote, and the last report is its length when it streamed a chunk |
| `Fetcher.FetchSinkIsLastBody` | core.py:91-104 | each attempt reopens the sink and restarts its count: on success the sink holds exactly the chunks of the last attempt, and the last reported progress is their total length |
| `Fetcher.BackoffDelaysNone` | core.py:105-113 | attempts that do not raise record no sleep |
| `Fetcher.BadStatusRetriesWithoutDelay` | core.py:105-107 | n responses with a status other than 200 or 206 make n requests, fail, and never sleep |
| `Fetcher.ThreeConnectionFailures` | core.py:109-115 | three failed connections sleep 1, then 2, make three requests and return False |
| `Fetcher.SuccessOnLastAttempt` | core.py:88-104 | a success on attempt n - 1 is still a success within n requests |
| `Fetcher.DeliveredBodyIsKept` | core.py:91-104 | when the first accepted answer carries data, the fetch succeeds with exactly data in the sink |
| `Reassembly.JoinResult` | core.py:246-264 | definition of `join_fragments`: the output is truncated and gets every sink up to the first missing one, and the result is whether none was missing; `Reassembly.JoinRoundTrip`, `Reassembly.JoinStopsAtMissingSink` and `Reassembly.JoinWithZeroChunkSize` carry its properties |
| `Reassembly.ReadChunk` | core.py:254 | `read(n)` returns the next bytes of the file: at least one unless n is 0 or at the end, and never past the end |
| `Reassembly.FirstMissing` | core.py:250-260 | the index of the first fragment whose sink does not exist: all earlier sinks exist |
| `Reassembly.Cleanup` | core.py:266-273 | every sink path is gone afterwards, and every other file is unchanged |
| `Reassembly.SinksConcatTiled` | core.py:250-257 | sinks holding the slices of a tiling concatenate, up to fragment k, to the data up to that fragment's end |
| `Reassembly.JoinTiled` | core.py:246-264 | joining sinks that hold the slices of any tiling returns True and writes exactly the data |
| `Reassembly.JoinRoundTrip` | core.py:246-264 | when sink i holds B[start_i .. end_i] for the plan of len(B) bytes, joining returns True and the output is exactly B, for any nonzero chunk size |
| `Reassembly.JoinWithZeroChunkSize` | core.py:253-256 | with chunk size 0 every read returns nothing: the join copies nothing and still returns True when all sinks exist |
| `Reassembly.JoinStopsAtMissingSink` | core.py:258-260 | at the first missing sink the join returns False, and the output holds exactly the earlier sinks |
| `Progress.SumOverRemove` | progress.py:57-58 | a dictionary's sum does not depend on the order its keys are taken in |
| `Progress.SumValues` | progress.py:57-58 | the loop returns the sum of all values of the dictionary |
| `Progress.Percent` | progress.py:59 | the percentage is 0 when the total is not positive, and lies in [0, 100] when 0 <= part <= total |
| `Progress.ProgressTracker.constructor` | progress.py:10-22 | all four dictionaries start empty, the display is off, the line count is 0, and the fragment count, style and ANSI support are stored |
| `Progress.ProgressTracker.InitializeFragment` | progress.py:39-44 | the id gets count 0, the given size, speed 0 and start time now; no other id's entries change |
| `Progress.ProgressTracker.UpdateFragmentProgress` | progress.py:46-53 | the id's count is overwritten, not added to; the speed changes only when time has passed since the start; sizes and start times do not change; an id never initialised still gets its count written and then raises |
| `Progress.ProgressTracker.GetProgressInfo` | progress.py:55-81 | the tracker is only read; the totals are the sums of all counts and of all sizes, and overall progress is 0 when the total size is 0; the list holds exactly the registered ids in 0..total_fragments-1, ascending, each with the tracker's own count, size and speed; the KeyError for an id with a count but no size is the error result |
| `Progress.Repeat` | progress.py:197-200 | `c * n` is n copies of c, and empty when n <= 0 |
| `Progress.CreateProgressBar` | progress.py:191-202 | definition of the bar: brackets around `int(width * pct / 100)` fill characters and `width - filled` empty ones, block characters with ANSI and `#-` without; `Progress.ProgressBarShape`, `Progress.ProgressBarFull` and `Progress.ProgressBarEmpty` carry its properties |
| `Progress.ProgressBarShape` | progress.py:191-202 | for a percentage in [0, 100] the bar is "[", then `int(width * pct / 100)` fill characters, then empty characters up to width, then "]" |
| `Progress.FilledAtEnds` | progress.py:193 | 100% fills every cell and 0% fills none |
| `Progress.ProgressBarFull` | progress.py:191-202 | the bar at 100% is all fill characters |
| `Progress.ProgressBarEmpty` | progress.py:191-202 | the bar at 0% is all empty characters |
| `Progress.SelectDisplay` | progress.py:83-90 | "simple" renders simply; full-screen is chosen exactly for "full_screen" with ANSI support; every other style renders inline |
| `Orchestration.AllTrue` | core.py:190 | the gate passes iff every gathered result is the boolean True |
| `Orchestration.SingleThreaded` | core.py:210-244 | the fallback returns True iff the GET answers 200 and streams to the end without the progress line raising; on True the output holds the body; only status 200 creates the output, and no other file changes |
| `Orchestration.ZeroLengthHeaderFailsFallback` | core.py:231-232 | a Content-Length of "0" on a non-empty body divides by zero after the first chunk: False, with that chunk in the output |
| `Orchestration.RouteOf` | core.py:128-145 | no size or size 0 takes the fallback; a fragmented route is taken iff the size is in [1, 1024^5) and the count is nonzero; the plan is empty for a negative count and tiles the size otherwise |
| `Orchestration.Results` | core.py:169-174 | result j of the gathered list is the result of fetching fragment j |
| `Orchestration.DelaysOf` | core.py:169-174 | the delays of fragment j are those of its own fetch |
| `Orchestration.TrackerAfterFetch` | core.py:85-100 | definition of what one fetch leaves in the tracker: the fragment registered with its size and the clock reading, its count the last reported total, its speed 0; `Orchestration.StreamedTracker` and `Orchestration.TrackerCompleteAfterDelivery` carry its properties |
| `Orchestration.StreamedTracker` | core.py:92-100 | one more streaming attempt changes only the fragment's count in the tracker, and only when it streamed a chunk |
| `Orchestration.RoutePaths` | core.py:139-145 | a planned route has distinct sinks, none of them the output file |
| `Orchestration.SinksAfterFacts` | core.py:169-174 | the fetches write only sinks, and each sink ends with the content its own fetch left |
| `Orchestration.SinksAfterCleanup` | core.py:190-206 | deleting the sinks after the fetches leaves what deleting them before would |
| `Orchestration.SuccessfulFetchesLeaveSinks` | core.py:190-197 | when every fetch succeeded, every sink exists at the join |
| `Orchestration.CleanupAfterWrite` | core.py:197-206 | deleting the sinks commutes with writing the output |
| `Orchestration.FragmentedDownload` | core.py:162-208 | definition of the fragmented part of `download_file`: fetch every fragment in plan order, clean up without joining if any result is not True, otherwise join and then clean up; `Orchestration.FragmentedOutcome` and `Orchestration.FragmentedRoundTrip` carry its properties |
| `Orchestration.FragmentedOutcome` | core.py:190-206 | a fragmented download returns True iff every fetch succeeded; afterwards no sink exists, the output exists on success, a failure leaves what deleting the sinks would, and no other file changes |
| `Orchestration.DeliveredFetches` | core.py:169-174 | fetches whose first accepted answer is their slice succeed with that slice in the sink |
| `Orchestration.DeliveredSinksHoldSlices` | core.py:169-174 | after such fetches of a tiling the sinks hold the slices |
| `Orchestration.FragmentedRoundTrip` | core.py:162-208 | for a tiling whose fetches deliver their slices of B, the download returns True, the output is exactly B, and the sinks are gone |
| `Orchestration.ResultsAllTrue` | core.py:190 | the gate passes iff every fetch returned True |
| `Orchestration.DownloadSpec` | core.py:117-208 | definition of `download_file`: the fallback download, an error, or the fragmented download, as `Orchestration.RouteOf` decides; `Orchestration.DownloadRoundTrip`, `Orchestration.NegativeCountWritesEmptyFile` and `Orchestration.FullBodyAnswerDuplicates` carry its properties |
| `Orchestration.DownloadRoundTrip` | core.py:117-208 | a server reporting len(B) bytes whose first accepted answer to each ranged GET is that fragment's slice of B makes the download return True with exactly B in the output, every sink removed and no other file changed |
| `Orchestration.DeliveredReport` | core.py:92-100 | a fetch that delivers a non-empty body last reports its length |
| `Orchestration.TrackerAfterFullReports` | core.py:85-100 | when every fetch last reports its fragment's size, the tracker's counts and sizes are both the map from id to size |
| `Orchestration.TrackerCompleteAfterDelivery` | core.py:85-100 | after delivered fetches each fragment's count equals its size, with exactly the ids 0..F-1 registered |
| `Orchestration.NegativeCountWritesEmptyFile` | core.py:136-208 | a negative fragment count fetches nothing, passes the gate, and succeeds with an empty output file |
| `Orchestration.FullBodyAnswerDuplicates` | core.py:91 | a server answering 200 with the whole body to both ranged GETs makes the download succeed with the body twice in the output |
| `Orchestration.TwoFragments` | core.py:136-145 | a size of at least 2 in 2 fragments plans exactly 2 fragments |
| `Orchestration.FullBodyFetches` | core.py:190-206 | two sinks each holding the whole body join to the body twice, and are then deleted |
| `Downloader.FragmentDownloader.constructor` | core.py:30-34 | the configuration is stored, the SSL context verifies iff `verify_ssl` was set, and there is no tracker |
| `Downloader.FragmentDownloader.StreamToSink` | core.py:92-100 | the sink is reopened and ends with the chunks in order; the tracker's count for the fragment becomes this attempt's total (unchanged when nothing streamed); the display flag and line count of the tracker do not change |
| `Downloader.FragmentDownloader.TryAttempt` | core.py:89-113 | one attempt returns whether it got 200 or 206 and streamed its body without raising, and the sleep it requires, and leaves the sink and the tracker as the attempt's trace says |
| `Downloader.FragmentDownloader.DownloadFragment` | core.py:79-115 | the retry loop returns what `Fetcher.RunFetch` gives (result, sleeps, final sink), and the tracker ends with the fragment registered and its last reported count, its display flag and line count unchanged |
| `Downloader.FragmentDownloader.FetchFragments` | core.py:164-174 | fetching every fragment in plan order gives the gathered results, sinks, delays and tracker the Orchestration functions describe |
| `Downloader.FragmentDownloader.CopySink` | core.py:252-257 | the chunked read loop appends the whole sink to the output, or nothing when the chunk size is 0 |
| `Downloader.FragmentDownloader.JoinFragments` | core.py:246-264 | the join truncates the output, copies each sink in list order, and stops with False at the first missing sink, as `Reassembly.JoinResult` says |
| `Downloader.FragmentDownloader.CleanupFragments` | core.py:266-273 | the deletion loop leaves `Reassembly.Cleanup` of the file system |
| `Downloader.FragmentDownloader.DownloadSingleThreaded` | core.py:210-244 | the streaming loop does what `Orchestration.SingleThreaded` says |
| `Downloader.FragmentDownloader.FetchJoinCleanup` | core.py:162-208 | fetch, stop the display, then clean up after a failure or join and clean up, as `Orchestration.FragmentedDownload` says |
| `Downloader.FragmentDownloader.DownloadFile` | core.py:117-208 | the download returns and writes what `Orchestration.DownloadSpec` says; with progress shown on a planned route a fresh tracker for the plan ends with every fragment's last report; otherwise the tracker is left as it was apart from the fetches |
| `Cli.NumberOverridesFacts` | cli.py:75-82 | each number setting is replaced only by a truthy (given, nonzero) argument; no other setting changes |
| `Cli.DirectoryOverridesFacts` | cli.py:83-86 | each directory is replaced only by a truthy (given, non-empty) argument; no other setting changes |
| `Cli.SwitchesFacts` | cli.py:87-94 | the later flag of each pair wins: ssl_verify over no_ssl_verify, show_progress over no_progress |
| `Cli.ApplyOverrides` | cli.py:75-94 | definition of the overrides of cli.py:75-94 in source order; `Cli.OverridePrecedence` states their effect on each setting |
| `Cli.OverridePrecedence` | cli.py:75-94 | all nine settings after the overrides: truthy values replace, the enabling flag of each pair wins, the style is untouched |
| `Cli.ConfigOutcome` | cli.py:68-109 | show returns 0 with the configuration unchanged; otherwise every setting but the style is that of the overrides; 1 is returned iff a truthy invalid style is given, keeping the applied overrides and the old style without rebuilding or saving; otherwise 0, the style is the given one if truthy and the old one if not, the downloader is rebuilt, and the configuration is saved iff save is set; a style that changes becomes the given, valid one |
| `Cli.NoOverridesKeepConfig` | cli.py:75-94 | flags that are all absent, zero or empty leave the configuration as it was |
| `Cli.EnablingFlagsWin` | cli.py:87-94 | with both flags of a pair given, SSL verification and progress end enabled |
| `Cli.OverrideNumbers` | cli.py:75-82 | the assignments produce `Cli.NumberOverrides` |
| `Cli.OverrideDirectories` | cli.py:83-86 | the assignments produce `Cli.DirectoryOverrides` |
| `Cli.OverrideSwitches` | cli.py:87-94 | the assignments produce the two switch stages |
| `Cli.ExitFor` | cli.py:65-66 | exit 0 iff the download returned True, 1 iff it returned False; an exception escapes |
| `Cli.DownloadManagerCLI.constructor` | cli.py:8-11 | the loaded configuration is shared with a fresh downloader, and nothing has been saved |
| `Cli.DownloadManagerCLI.ConfigCommand` | cli.py:68-109 | the command's code, configuration and save are those of `Cli.ConfigOutcome`; the downloader sees every override; it is rebuilt exactly on the paths that rebuild, with an SSL context for the new setting and no tracker |
| `Cli.DownloadManagerCLI.DownloadCommand` | cli.py:58-66 | no_progress turns progress off in the shared configuration and rebuilds the downloader; the exit code and file system are those of the download under the resulting configuration |
| `Cli.DownloadCommandSucceeds` | cli.py:58-66 | a server that delivers every slice of B makes the download command exit 0 with exactly B in the output file |

## Left out

- Network and TLS: aiohttp sessions, timeouts and the SSL context are left out. The server's answers are parameters, and the downloader records only whether its context verifies certificates.
- File I/O: aiofiles and `Path.exists`/`unlink` act on a map from path to bytes. Errors raised by the file system itself (a failed open, write or unlink) are not modelled. `ensure_directories` is not modelled.
- Concurrency: `asyncio.gather` is modelled by fetching the fragments one after another in plan order. The lock becomes one atomic step per tracker method. The display thread and its 0.6 s wait are left out. Interleavings of the fetches are not modelled.
- Time: one clock reading `now` serves a whole download, so every speed a fetch computes stays 0. `asyncio.sleep` becomes a recorded delay. The completion message is left out, including its MB/s figure, which divides by the elapsed time.
- `format_size`: only the conditions under which it raises on the probed size are modelled (a negative size, or a size of at least 1024^5). Its float output is left out.
- Float arithmetic: percentages are exact `real`s, not floats.
- Orchestration.RouteOf: the limit on printable sizes is the exact 1024^5. `format_size` takes a float logarithm, which also rounds a few sizes just below 1024^5 (such as 1024^5 - 1) up to 5 and raises IndexError for them; the model plans those sizes. For sizes of 2^1024 and more, Python raises OverflowError rather than IndexError, and the model does not tell these error kinds apart.
- Orchestration.DownloadSpec: after a successful join, the completion message divides the file size by the elapsed time; when the clock has not advanced (0.0 seconds) this raises ZeroDivisionError out of `download_file`, skipping the cleanup, so the sinks stay and the command raises instead of exiting 0. The model assumes a positive elapsed time: it always completes and removes the sinks.
- Planner.CeilDiv: the exact ceiling replaces `math.ceil` of a float division. For a size below 2^53 the float quotient never rounds onto an integer, so the two agree for every size the route plans (below 1024^5 = 2^50); they can differ only for sizes of 2^53 and more, even with one fragment.
- Probe.ParseInt: models only ASCII digits with an optional sign. Python's `int()` differs in three ways, each of which reaches both `Probe.ProbeSize` (core.py:71) and `Orchestration.ProgressLineRaises` (core.py:232):
  - it also accepts surrounding whitespace and underscores between digits, which the model rejects;
  - it also accepts every Unicode decimal digit (`int("١٢") == 12`), which the model rejects: such a HEAD Content-Length takes the fallback in the model instead of being planned, and such a fallback Content-Length fails the fallback after its first chunk instead of drawing the progress line;
  - since Python 3.11 it raises ValueError on more than 4300 digits, which the model parses: such a HEAD Content-Length raises `SizeIndexError` in the model instead of taking the fallback, and such a fallback Content-Length draws the progress line in the model instead of failing after the first chunk.
- Display: the three rendering loops, their printing and ANSI escapes are left out, as is the screen clearing after a download. `_supports_ansi` probes the platform; here its answer is a constructor parameter.
- Chunking: `iter_chunked` may cut a body into any chunks. The scripts give the chunks directly, and the join's chunked copy is proved to copy each sink exactly.
- Downloader.FragmentDownloader.JoinFragments: its precondition is that the output path is not one of the sinks. Planned routes always meet it (`Orchestration.RoutePaths`), so the case where the source would read a sink it has just truncated is not modelled.
- Filename inference from the URL (`urlparse`) is left out: the file name is a parameter.
- Configuration files: `load_config` is left out, and the constructor receives the configuration it produced. `save_config` is recorded as the configuration last saved, without the JSON file.
- `print_config` and main.py's argument parsing are left out.
- `DownloadConfig` is a value here, while in Python the front end and its downloader share one object. The front end therefore writes both copies, and its invariant states that they are equal.
