/** ProgressTracker of progress.py: per-fragment byte counts, sizes, speeds
    and start times kept in dictionaries that its methods update in place,
    the snapshot the renderers read, the progress bar, and the choice of
    renderer. Each method runs under the tracker's lock in the source, so
    here each is one atomic step. */
module Progress {
  import opened Common

  /** One entry of the snapshot's 'fragments' list (progress.py:68-74). */
  datatype FragmentInfo = FragmentInfo(id: int, progress: real, downloaded: int, total: int, speed: real)

  /** The dictionary returned by get_progress_info (progress.py:76-81). */
  datatype ProgressInfo = ProgressInfo(
    overallProgress: real, totalDownloaded: int, totalSize: int, fragments: seq<FragmentInfo>)

  /** The four dictionaries of a tracker, as one value. */
  datatype TrackerState = TrackerState(
    progress: map<int, int>, sizes: map<int, int>, speeds: map<int, real>, startTimes: map<int, real>)

  lemma EmptyOrHasMember(keys: set<int>)
    ensures keys == {} || exists k :: k in keys
  {
    if forall k :: k !in keys {
      assert keys == {};
    }
  }

  /** Sum of the values of m over the keys in keys, in no particular order. */
  ghost function SumOver(m: map<int, int>, keys: set<int>): int
    requires keys <= m.Keys
    decreases keys
  {
    if keys == {} then 0
    else
      EmptyOrHasMember(keys);
      var k :| k in keys; m[k] + SumOver(m, keys - {k})
  }

  /** sum(d.values()) for a dictionary d. */
  ghost function MapSum(m: map<int, int>): int {
    SumOver(m, m.Keys)
  }

  /** The sum does not depend on the order the keys are taken in. */
  lemma {:induction false} SumOverRemove(m: map<int, int>, keys: set<int>, x: int)
    requires keys <= m.Keys && x in keys
    ensures SumOver(m, keys) == m[x] + SumOver(m, keys - {x})
    decreases keys
  {
    var k :| k in keys && SumOver(m, keys) == m[k] + SumOver(m, keys - {k});
    if k != x {
      SumOverRemove(m, keys - {k}, x);
      SumOverRemove(m, keys - {x}, k);
      assert keys - {k} - {x} == keys - {x} - {k};
    }
  }

  /** sum(m.values()), one entry at a time. */
  method SumValues(m: map<int, int>) returns (total: int)
    ensures total == MapSum(m)
  {
    total := 0;
    var remaining := m.Keys;
    while remaining != {}
      invariant remaining <= m.Keys
      invariant total + SumOver(m, remaining) == MapSum(m)
      decreases remaining
    {
      var k :| k in remaining;
      SumOverRemove(m, remaining, k);
      total := total + m[k];
      remaining := remaining - {k};
    }
  }

  /** A ratio as a percentage, 0 when the total is not positive. */
  function Percent(part: int, whole: int): (p: real)
    ensures whole <= 0 ==> p == 0.0
    ensures 0 <= part <= whole && whole > 0 ==> 0.0 <= p <= 100.0
  {
    if whole > 0 then (part as real) / (whole as real) * 100.0 else 0.0
  }

  class ProgressTracker {
    const totalFragments: int
    var fragmentProgress: map<int, int>
    var fragmentSizes: map<int, int>
    var fragmentSpeeds: map<int, real>
    var startTimes: map<int, real>
    var displayActive: bool
    const progressStyle: string
    var lastLineCount: int
    /** The answer of _supports_ansi, which probes the platform; given here. */
    const supportsAnsi: bool

    /** Sizes, speeds and start times are written together, so they have the
        same keys; progress may also hold an id whose update failed. */
    ghost predicate Valid()
      reads this
    {
      fragmentSizes.Keys == fragmentSpeeds.Keys == startTimes.Keys
      && fragmentSizes.Keys <= fragmentProgress.Keys
    }

    function State(): TrackerState
      reads this
    {
      TrackerState(fragmentProgress, fragmentSizes, fragmentSpeeds, startTimes)
    }

    /** __init__ (progress.py:10-22). */
    constructor (totalFragments: int, progressStyle: string, supportsAnsi: bool)
      ensures Valid()
      ensures this.totalFragments == totalFragments && this.progressStyle == progressStyle
      ensures this.supportsAnsi == supportsAnsi
      ensures State() == TrackerState(map[], map[], map[], map[])
      ensures !displayActive && lastLineCount == 0
    {
      this.totalFragments := totalFragments;
      this.progressStyle := progressStyle;
      this.supportsAnsi := supportsAnsi;
      fragmentProgress, fragmentSizes, fragmentSpeeds, startTimes := map[], map[], map[], map[];
      displayActive := false;
      lastLineCount := 0;
    }

    /** initialize_fragment (progress.py:39-44): registers the id with no
        bytes, its size, no speed, and the clock reading now. */
    method InitializeFragment(id: int, totalSize: int, now: real)
      requires Valid()
      modifies this
      ensures Valid()
      ensures State() == TrackerState(old(fragmentProgress)[id := 0], old(fragmentSizes)[id := totalSize],
                                      old(fragmentSpeeds)[id := 0.0], old(startTimes)[id := now])
      ensures displayActive == old(displayActive) && lastLineCount == old(lastLineCount)
    {
      fragmentProgress := fragmentProgress[id := 0];
      fragmentSizes := fragmentSizes[id := totalSize];
      fragmentSpeeds := fragmentSpeeds[id := 0.0];
      startTimes := startTimes[id := now];
    }

    /** update_fragment_progress (progress.py:46-53): the count is replaced,
        not added to; the speed changes only when time has passed since the
        fragment started. For an id never initialised the count is still
        written and the start-time lookup raises KeyError (ok is false). */
    method UpdateFragmentProgress(id: int, downloaded: int, now: real) returns (ok: bool)
      requires Valid()
      modifies this
      ensures Valid()
      ensures ok == (id in old(startTimes))
      ensures fragmentProgress == old(fragmentProgress)[id := downloaded]
      ensures fragmentSizes == old(fragmentSizes) && startTimes == old(startTimes)
      ensures fragmentSpeeds ==
        if ok && now - old(startTimes)[id] > 0.0
        then old(fragmentSpeeds)[id := (downloaded as real) / (now - old(startTimes)[id])]
        else old(fragmentSpeeds)
      ensures displayActive == old(displayActive) && lastLineCount == old(lastLineCount)
    {
      fragmentProgress := fragmentProgress[id := downloaded];
      if id !in startTimes {
        return false;
      }
      var elapsed := now - startTimes[id];
      if elapsed > 0.0 {
        fragmentSpeeds := fragmentSpeeds[id := (downloaded as real) / elapsed];
      }
      return true;
    }

    /** get_progress_info (progress.py:55-81). Totals are sums over every
        registered entry; the list has one entry per registered id in
        0..total_fragments-1, ascending, with the tracker's own values. The
        tracker is only read. None is the KeyError raised when an id in
        that range has a count but no size. */
    method GetProgressInfo() returns (info: Option<ProgressInfo>)
      requires Valid()
      ensures info.None? <==>
        exists i :: 0 <= i < totalFragments && i in fragmentProgress && i !in fragmentSizes
      ensures info.Some? ==>
        && info.value.totalDownloaded == MapSum(fragmentProgress)
        && info.value.totalSize == MapSum(fragmentSizes)
        && info.value.overallProgress == Percent(MapSum(fragmentProgress), MapSum(fragmentSizes))
      ensures info.Some? ==> var fs := info.value.fragments;
        && (forall j :: 0 <= j < |fs| ==>
              && 0 <= fs[j].id < totalFragments && fs[j].id in fragmentProgress && fs[j].id in fragmentSizes
              && fs[j].downloaded == fragmentProgress[fs[j].id]
              && fs[j].total == fragmentSizes[fs[j].id]
              && fs[j].speed == fragmentSpeeds[fs[j].id]
              && fs[j].progress == Percent(fs[j].downloaded, fs[j].total))
        && (forall j, k :: 0 <= j < k < |fs| ==> fs[j].id < fs[k].id)
        && (forall i :: 0 <= i < totalFragments && i in fragmentProgress ==>
              exists j :: 0 <= j < |fs| && fs[j].id == i)
    {
      var totalDownloaded := SumValues(fragmentProgress);
      var totalSize := SumValues(fragmentSizes);
      var overall := Percent(totalDownloaded, totalSize);
      var entries: seq<FragmentInfo> := [];
      var i := 0;
      while i < totalFragments
        invariant 0 <= i <= if totalFragments > 0 then totalFragments else 0
        invariant forall i' :: 0 <= i' < i && i' in fragmentProgress ==> i' in fragmentSizes
        invariant forall j :: 0 <= j < |entries| ==>
          && 0 <= entries[j].id < i && entries[j].id in fragmentProgress && entries[j].id in fragmentSizes
          && entries[j].downloaded == fragmentProgress[entries[j].id]
          && entries[j].total == fragmentSizes[entries[j].id]
          && entries[j].speed == fragmentSpeeds[entries[j].id]
          && entries[j].progress == Percent(entries[j].downloaded, entries[j].total)
        invariant forall j, k :: 0 <= j < k < |entries| ==> entries[j].id < entries[k].id
        invariant forall i' :: 0 <= i' < i && i' in fragmentProgress ==>
          exists j :: 0 <= j < |entries| && entries[j].id == i'
      {
        if i in fragmentProgress {
          if i !in fragmentSizes {
            return None;
          }
          var downloaded := fragmentProgress[i];
          var total := fragmentSizes[i];
          ghost var before := entries;
          entries := entries + [FragmentInfo(i, Percent(downloaded, total), downloaded, total, fragmentSpeeds[i])];
          assert entries[|before|].id == i;
          forall i' | 0 <= i' < i && i' in fragmentProgress
            ensures exists j :: 0 <= j < |entries| && entries[j].id == i'
          {
            var j :| 0 <= j < |before| && before[j].id == i';
            assert entries[j].id == i';
          }
        }
        i := i + 1;
      }
      return Some(ProgressInfo(overall, totalDownloaded, totalSize, entries));
    }
  }

  /** Fill and empty characters of the bar (progress.py:195-200). */
  function FillChar(supportsAnsi: bool): char {
    if supportsAnsi then '\U{2588}' else '#'
  }

  function EmptyChar(supportsAnsi: bool): char {
    if supportsAnsi then '\U{2591}' else '-'
  }

  /** c * n in Python: n copies of c, none when n <= 0. */
  function Repeat(c: char, n: int): (s: string)
    ensures |s| == if n > 0 then n else 0
    ensures forall i :: 0 <= i < |s| ==> s[i] == c
    decreases if n > 0 then n else 0
  {
    if n <= 0 then "" else [c] + Repeat(c, n - 1)
  }

  /** int(x) on a float: truncation toward zero. */
  function Trunc(x: real): int {
    if x >= 0.0 then x.Floor else -((-x).Floor)
  }

  /** The number of filled cells, int(width * percentage / 100). */
  function Filled(percentage: real, width: int): int {
    Trunc((width as real) * percentage / 100.0)
  }

  /** create_progress_bar (progress.py:191-202). */
  function CreateProgressBar(percentage: real, width: int, supportsAnsi: bool): string {
    var filled := Filled(percentage, width);
    "[" + Repeat(FillChar(supportsAnsi), filled) + Repeat(EmptyChar(supportsAnsi), width - filled) + "]"
  }

  /** For a percentage in [0, 100] the bar has exactly width cells between
      its brackets: the first int(width * pct / 100) filled, the rest empty. */
  lemma ProgressBarShape(percentage: real, width: int, supportsAnsi: bool)
    requires 0.0 <= percentage <= 100.0 && width >= 0
    ensures var bar := CreateProgressBar(percentage, width, supportsAnsi);
      var filled := Filled(percentage, width);
      && 0 <= filled <= width
      && |bar| == width + 2 && bar[0] == '[' && bar[width + 1] == ']'
      && (forall i :: 1 <= i <= filled ==> bar[i] == FillChar(supportsAnsi))
      && (forall i :: filled < i <= width ==> bar[i] == EmptyChar(supportsAnsi))
  {
    var w := width as real;
    var x := w * percentage / 100.0;
    RealProductBounds(w, percentage, 100.0);
    assert 0.0 <= x <= w;
    var filled := Filled(percentage, width);
    assert filled == x.Floor;
    var bar := CreateProgressBar(percentage, width, supportsAnsi);
    var fills := Repeat(FillChar(supportsAnsi), filled);
    var empties := Repeat(EmptyChar(supportsAnsi), width - filled);
    assert bar == "[" + fills + empties + "]";
    forall i | 1 <= i <= filled
      ensures bar[i] == FillChar(supportsAnsi)
    {
      assert bar[i] == fills[i - 1];
    }
    forall i | filled < i <= width
      ensures bar[i] == EmptyChar(supportsAnsi)
    {
      assert bar[i] == empties[i - 1 - filled];
    }
  }

  lemma RealProductBounds(a: real, b: real, c: real)
    requires 0.0 <= a && 0.0 <= b <= c
    ensures 0.0 <= a * b <= a * c
  {
    assert a * c - a * b == a * (c - b);
  }

  lemma FilledAtEnds(width: int)
    requires width >= 0
    ensures Filled(100.0, width) == width && Filled(0.0, width) == 0
  {
    var w := width as real;
    assert w * 100.0 / 100.0 == w;
    assert w * 0.0 / 100.0 == 0.0;
  }

  /** At 100% every cell of the bar is filled. */
  lemma ProgressBarFull(width: int, supportsAnsi: bool)
    requires width >= 0
    ensures CreateProgressBar(100.0, width, supportsAnsi)
      == "[" + Repeat(FillChar(supportsAnsi), width) + "]"
  {
    FilledAtEnds(width);
    var fill, empty := FillChar(supportsAnsi), EmptyChar(supportsAnsi);
    assert CreateProgressBar(100.0, width, supportsAnsi) == "[" + Repeat(fill, width) + Repeat(empty, 0) + "]";
    assert Repeat(empty, 0) == "";
  }

  /** At 0% every cell of the bar is empty. */
  lemma ProgressBarEmpty(width: int, supportsAnsi: bool)
    requires width >= 0
    ensures CreateProgressBar(0.0, width, supportsAnsi)
      == "[" + Repeat(EmptyChar(supportsAnsi), width) + "]"
  {
    FilledAtEnds(width);
    var fill, empty := FillChar(supportsAnsi), EmptyChar(supportsAnsi);
    assert CreateProgressBar(0.0, width, supportsAnsi) == "[" + Repeat(fill, 0) + Repeat(empty, width) + "]";
    assert Repeat(fill, 0) == "";
  }

  /** The three renderers of display_progress. */
  datatype DisplayMode = Simple | FullScreen | Inline

  /** The dispatch of display_progress (progress.py:83-90): full-screen
      needs ANSI support; anything not "simple" that cannot go full-screen,
      including unknown names, renders inline. */
  function SelectDisplay(style: string, supportsAnsi: bool): (mode: DisplayMode)
    ensures mode == Simple <==> style == "simple"
    ensures mode == FullScreen <==> style == "full_screen" && supportsAnsi
    ensures mode == Inline <==> style != "simple" && !(style == "full_screen" && supportsAnsi)
  {
    if style == "simple" then Simple
    else if style == "full_screen" && supportsAnsi then FullScreen
    else Inline
  }
}
