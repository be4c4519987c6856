/** The retry policy of FragmentDownloader.download_fragment (core.py:79-115),
    stated over a script of abstract request outcomes. */
module Fetcher {
  import opened Common

  /** What one GET request does. A Response carries its status and the body
      chunks it streams; ConnectionError is an exception before the sink is
      opened; StreamError is an exception after a 200/206 response opened
      the sink and the given chunks were written. */
  datatype Attempt =
    | Response(status: int, chunks: seq<seq<Byte>>)
    | ConnectionError
    | StreamError(written: seq<seq<Byte>>)

  /** Statuses that count as a fragment response (core.py:91). */
  predicate Accepted(status: int) {
    status == 200 || status == 206
  }

  /** An attempt that makes download_fragment return True. */
  predicate Succeeds(a: Attempt) {
    a.Response? && Accepted(a.status)
  }

  /** An attempt that ends in the except branch (core.py:109-113). */
  predicate Raises(a: Attempt) {
    a.ConnectionError? || a.StreamError?
  }

  /** The outcome of request k of a script; requests past the end of the
      script fail to connect. */
  function AttemptAt(script: seq<Attempt>, k: nat): Attempt {
    if k < |script| then script[k] else ConnectionError
  }

  /** What a run of download_fragment did: its result, how many requests it
      made, the final sink content (None when the sink was never opened),
      the last value reported to the progress tracker in the last attempt
      that streamed, and the backoff delays slept. */
  datatype FetchTrace = FetchTrace(
    ok: bool, requests: nat, sink: Option<seq<Byte>>, lastReport: Option<int>, delays: seq<int>)

  const Start := FetchTrace(false, 0, None, None, [])

  /** The sleep after a failed attempt k of n: 2^k unless it was the last. */
  function Backoff(k: nat, n: int): seq<int> {
    if k < n - 1 then [Pow2(k)] else []
  }

  /** The last progress report after streaming chunks: the running byte
      count restarts at 0 in each attempt, so it is that attempt's total. */
  function Report(chunks: seq<seq<Byte>>, previous: Option<int>): Option<int> {
    if chunks == [] then previous else Some(|Flatten(chunks)|)
  }

  /** The trace after attempt k (of n) had outcome a, given trace t before it. */
  function AttemptTrace(a: Attempt, k: nat, n: int, t: FetchTrace): FetchTrace {
    var t' := t.(requests := k + 1);
    match a
    case Response(status, chunks) =>
      if Accepted(status) then t'.(ok := true, sink := Some(Flatten(chunks)), lastReport := Report(chunks, t.lastReport))
      else t'
    case ConnectionError => t'.(delays := t.delays + Backoff(k, n))
    case StreamError(written) =>
      t'.(sink := Some(Flatten(written)), lastReport := Report(written, t.lastReport), delays := t.delays + Backoff(k, n))
  }

  /** The attempt loop from attempt k on, with trace t of attempts 0..k-1:
      it ends after the first success or after attempt n - 1. */
  function FetchFrom(script: seq<Attempt>, n: int, k: nat, t: FetchTrace): FetchTrace
    decreases n - k
  {
    if k >= n then t
    else
      var t' := AttemptTrace(AttemptAt(script, k), k, n, t);
      if Succeeds(AttemptAt(script, k)) then t' else FetchFrom(script, n, k + 1, t')
  }

  /** download_fragment with retry_attempts = n against a script. */
  function RunFetch(script: seq<Attempt>, n: int): FetchTrace {
    FetchFrom(script, n, 0, Start)
  }

  /** Reference definition of the sleeps: 2^k after each of the first m
      attempts k that raised, other than attempt n - 1. */
  function BackoffDelays(script: seq<Attempt>, m: nat, n: int): seq<int> {
    if m == 0 then []
    else BackoffDelays(script, m - 1, n)
         + (if Raises(AttemptAt(script, m - 1)) then Backoff(m - 1, n) else [])
  }

  lemma {:induction false} FetchFromFacts(script: seq<Attempt>, n: int, k: nat, t: FetchTrace)
    requires !t.ok && t.requests == k && (k <= n || (k == 0 && n <= 0))
    requires forall j :: 0 <= j < k ==> !Succeeds(AttemptAt(script, j))
    ensures var r := FetchFrom(script, n, k, t);
      && (r.ok <==> exists j :: k <= j < n && Succeeds(AttemptAt(script, j)))
      && (r.ok ==> 1 <= r.requests <= n && Succeeds(AttemptAt(script, r.requests - 1)))
      && (!r.ok ==> r.requests == (if n <= 0 then 0 else n))
      && (forall j :: 0 <= j < r.requests - 1 ==> !Succeeds(AttemptAt(script, j)))
    decreases n - k
  {
    if k < n {
      var a := AttemptAt(script, k);
      if !Succeeds(a) {
        FetchFromFacts(script, n, k + 1, AttemptTrace(a, k, n, t));
      }
    }
  }

  lemma {:induction false} FetchFromDelays(script: seq<Attempt>, n: int, k: nat, t: FetchTrace)
    requires t.requests == k && t.delays == BackoffDelays(script, k, n)
    ensures var r := FetchFrom(script, n, k, t);
      r.requests >= k && r.delays == BackoffDelays(script, r.requests, n)
    decreases n - k
  {
    if k < n {
      var a := AttemptAt(script, k);
      var next := AttemptTrace(a, k, n, t);
      assert BackoffDelays(script, k + 1, n) == t.delays + (if Raises(a) then Backoff(k, n) else []);
      if Raises(a) {
        assert next.delays == t.delays + Backoff(k, n);
      } else {
        assert t.delays + [] == t.delays;
        assert next.delays == t.delays;
      }
      if !Succeeds(a) {
        FetchFromDelays(script, n, k + 1, next);
      }
    }
  }

  /** download_fragment returns True exactly when one of the first n
      requests gets status 200 or 206 and streams its body without raising; it stops at the first such request,
      never makes more than n requests (none when n <= 0), and sleeps 2^k
      exactly after each request k that raised other than the last. */
  lemma FetchPolicy(script: seq<Attempt>, n: int)
    ensures var r := RunFetch(script, n);
      && (r.ok <==> exists j :: 0 <= j < n && Succeeds(AttemptAt(script, j)))
      && (r.ok ==> 1 <= r.requests <= n && Succeeds(AttemptAt(script, r.requests - 1)))
      && (!r.ok ==> r.requests == (if n <= 0 then 0 else n))
      && (forall j :: 0 <= j < r.requests - 1 ==> !Succeeds(AttemptAt(script, j)))
      && r.delays == BackoffDelays(script, r.requests, n)
  {
    FetchFromFacts(script, n, 0, Start);
    FetchFromDelays(script, n, 0, Start);
  }

  lemma {:induction false} FetchFromSink(script: seq<Attempt>, n: int, k: nat, t: FetchTrace)
    requires !t.ok
    ensures var r := FetchFrom(script, n, k, t);
      r.ok ==> (
        && r.requests >= 1 && AttemptAt(script, r.requests - 1).Response?
        && r.sink == Some(Flatten(AttemptAt(script, r.requests - 1).chunks))
        && (AttemptAt(script, r.requests - 1).chunks != [] ==> r.lastReport == Some(|r.sink.value|)))
    decreases n - k
  {
    if k < n && !Succeeds(AttemptAt(script, k)) {
      FetchFromSink(script, n, k + 1, AttemptTrace(AttemptAt(script, k), k, n, t));
    }
  }

  /** On success the sink holds exactly the body of the successful request,
      whatever earlier attempts wrote, and the last progress report is its
      length (when it streamed at least one chunk). */
  lemma FetchSinkIsLastBody(script: seq<Attempt>, n: int)
    ensures var r := RunFetch(script, n);
      r.ok ==> (
        && r.requests >= 1 && AttemptAt(script, r.requests - 1).Response?
        && r.sink == Some(Flatten(AttemptAt(script, r.requests - 1).chunks))
        && (AttemptAt(script, r.requests - 1).chunks != [] ==> r.lastReport == Some(|r.sink.value|)))
  {
    FetchFromSink(script, n, 0, Start);
  }

  lemma {:induction false} BackoffDelaysNone(script: seq<Attempt>, m: nat, n: int)
    requires forall j :: 0 <= j < m ==> !Raises(AttemptAt(script, j))
    ensures BackoffDelays(script, m, n) == []
  {
    if m > 0 {
      BackoffDelaysNone(script, m - 1, n);
    }
  }

  /** A status other than 200 or 206 is retried at once: a script of n such
      responses makes n requests, fails, and never sleeps. */
  lemma BadStatusRetriesWithoutDelay(script: seq<Attempt>, n: int)
    requires forall j :: 0 <= j < n ==> AttemptAt(script, j).Response? && !Accepted(AttemptAt(script, j).status)
    ensures !RunFetch(script, n).ok
    ensures RunFetch(script, n).requests == (if n <= 0 then 0 else n)
    ensures RunFetch(script, n).delays == []
  {
    FetchPolicy(script, n);
    BackoffDelaysNone(script, RunFetch(script, n).requests, n);
  }

  /** With three attempts that all fail to connect, the fetch sleeps 1 and 2
      time units and reports failure; the last failure has no sleep. */
  lemma ThreeConnectionFailures()
    ensures RunFetch([ConnectionError, ConnectionError, ConnectionError], 3)
      == FetchTrace(false, 3, None, None, [1, 2])
  {
  }

  /** Failing n - 1 times and succeeding on the last allowed attempt is a success. */
  lemma SuccessOnLastAttempt(script: seq<Attempt>, n: int)
    requires n >= 1 && Succeeds(AttemptAt(script, n - 1))
    ensures RunFetch(script, n).ok && RunFetch(script, n).requests <= n
  {
    FetchPolicy(script, n);
  }

  /** Attempt j is the first of the first n to succeed, and its body is data. */
  ghost predicate Delivers(script: seq<Attempt>, n: int, data: seq<Byte>) {
    exists j :: 0 <= j < n && Succeeds(AttemptAt(script, j)) && Flatten(AttemptAt(script, j).chunks) == data
           && (forall i :: 0 <= i < j ==> !Succeeds(AttemptAt(script, i)))
  }

  /** A script that delivers data makes the fetch succeed with exactly data
      in the sink. */
  lemma DeliveredBodyIsKept(script: seq<Attempt>, n: int, data: seq<Byte>)
    requires Delivers(script, n, data)
    ensures RunFetch(script, n).ok && RunFetch(script, n).sink == Some(data)
  {
    var j :| 0 <= j < n && Succeeds(AttemptAt(script, j)) && Flatten(AttemptAt(script, j).chunks) == data
              && (forall i :: 0 <= i < j ==> !Succeeds(AttemptAt(script, i)));
    FetchPolicy(script, n);
    FetchSinkIsLastBody(script, n);
    var r := RunFetch(script, n);
    assert r.requests - 1 == j;
  }
}
