/** The size probe of FragmentDownloader.get_file_size (core.py:57-77) and
    the branch that sends a job to the single-stream path (core.py:128-131). */
module Probe {
  import opened Common

  /** What the HEAD request produced: an exception, or a status with the
      Content-Length and Accept-Ranges headers (absent ones are None). */
  datatype HeadOutcome =
    | HeadRaised
    | HeadResponse(status: int, contentLength: Option<string>, acceptRanges: Option<string>)

  predicate AllDigits(s: string) {
    forall i :: 0 <= i < |s| ==> IsDigit(s[i])
  }

  /** The value of a string of decimal digits. */
  function DigitsValue(s: string): nat
    requires AllDigits(s)
  {
    if s == [] then 0
    else DigitsValue(s[..|s| - 1]) * 10 + (s[|s| - 1] as int - '0' as int)
  }

  /** Python's int() on a header value: an optional sign followed by one or
      more decimal digits; anything else raises ValueError (None here). */
  function ParseInt(s: string): (r: Option<int>)
    ensures r.Some? <==> (|s| >= 1 && AllDigits(s)) || (|s| >= 2 && (s[0] == '+' || s[0] == '-') && AllDigits(s[1..]))
  {
    if |s| >= 2 && (s[0] == '+' || s[0] == '-') && AllDigits(s[1..]) then
      Some(if s[0] == '-' then 0 - DigitsValue(s[1..]) as int else DigitsValue(s[1..]))
    else if |s| >= 1 && AllDigits(s) then Some(DigitsValue(s))
    else None
  }

  lemma {:induction false} DigitsValueOfNatToString(n: nat)
    ensures DigitsValue(NatToString(n)) == n
  {
    if n >= 10 {
      var s := NatToString(n);
      assert s[..|s| - 1] == NatToString(n / 10);
      DigitsValueOfNatToString(n / 10);
    }
  }

  /** Reading back a rendered length gives the length. */
  lemma ParseIntOfNatToString(n: nat)
    ensures ParseInt(NatToString(n)) == Some(n)
  {
    DigitsValueOfNatToString(n);
  }

  /** get_file_size: a size only for status 200 with a non-empty
      Content-Length and Accept-Ranges exactly "bytes"; every other case,
      and every exception (including int() rejecting the value), is None. */
  function ProbeSize(head: HeadOutcome): (r: Option<int>)
    ensures r.Some? ==>
      && head.HeadResponse? && head.status == 200
      && head.contentLength.Some? && head.contentLength.value != ""
      && head.acceptRanges == Some("bytes")
      && ParseInt(head.contentLength.value) == r
  {
    match head
    case HeadRaised => None
    case HeadResponse(status, contentLength, acceptRanges) =>
      if status != 200 then None
      else if contentLength.Some? && contentLength.value != "" && acceptRanges == Some("bytes") then
        ParseInt(contentLength.value)
      else None
  }

  /** A range-capable server that reports n bytes yields the size n. */
  lemma ProbeReadsLength(n: nat)
    ensures ProbeSize(HeadResponse(200, Some(NatToString(n)), Some("bytes"))) == Some(n)
  {
    ParseIntOfNatToString(n);
  }

  /** `if not file_size` (core.py:130): a missing size or a size of 0 takes
      the single-stream path; every other size is planned. */
  predicate UsesFragments(size: Option<int>) {
    size.Some? && size.value != 0
  }
}
