/**
 * The statistics dashboard: the fetch state it keeps (`stats`, `loading`,
 * `error`) and the views it derives from one snapshot (the label and count
 * lists of the distribution chart, the ten-bin confidence histogram, the
 * average confidence per label and the colour of each label).
 */
module Dashboard {
  import opened Wrappers
  import opened StatsData
  import Backend

  // ---------------------------------------------------------------------------
  // Extraction from the current snapshot (`null` before the first success)

  /** The chart's labels: one per dictionary entry, in key order; none before the first snapshot. */
  function BloodGroups(stats: Option<Snapshot>): (r: seq<string>)
    ensures stats.None? ==> r == []
    ensures stats.Some? ==> |r| == |stats.value.bloodGroups|
    ensures stats.Some? ==> forall i :: 0 <= i < |r| ==> r[i] == stats.value.bloodGroups[i].bloodGroup
  {
    if stats.Some? then KeysValuesAligned(stats.value.bloodGroups); Keys(stats.value.bloodGroups) else []
  }

  /** The chart's counts: one per dictionary entry, in key order; none before the first snapshot. */
  function BloodCounts(stats: Option<Snapshot>): (r: seq<nat>)
    ensures stats.None? ==> r == []
    ensures stats.Some? ==> |r| == |stats.value.bloodGroups|
    ensures stats.Some? ==> forall i :: 0 <= i < |r| ==> r[i] == stats.value.bloodGroups[i].count
  {
    if stats.Some? then KeysValuesAligned(stats.value.bloodGroups); Values(stats.value.bloodGroups) else []
  }

  /** The confidences to bin: the snapshot's list, or none before the first snapshot. */
  function ConfidenceList(stats: Option<Snapshot>): (r: seq<Confidence>)
    ensures stats.None? ==> r == []
    ensures stats.Some? ==> r == stats.value.confidences
  {
    if stats.Some? then stats.value.confidences else []
  }

  /** The recent predictions to average and draw: the snapshot's list, or none before the first snapshot. */
  function Recent(stats: Option<Snapshot>): (r: seq<Prediction>)
    ensures stats.None? ==> r == []
    ensures stats.Some? ==> r == stats.value.recentPredictions
  {
    if stats.Some? then stats.value.recentPredictions else []
  }

  // ---------------------------------------------------------------------------
  // Confidence histogram

  const BinCount: nat := 10

  /** The bin of one confidence: `Math.min(9, Math.floor(c * 10))`. */
  function BinIndex(c: Confidence): (b: nat)
    ensures b < BinCount
    ensures c < 1.0 ==> b == (c * 10.0).Floor
    ensures c == 1.0 ==> b == 9
    ensures (b as real) / 10.0 <= c
    ensures b < 9 ==> c < ((b + 1) as real) / 10.0
  {
    var f := (c * 10.0).Floor;
    if f < 9 then f else 9
  }

  /** How many of `cs` fall into bin `b`. */
  function CountBin(cs: seq<Confidence>, b: int): nat {
    if cs == [] then 0
    else CountBin(cs[..|cs| - 1], b) + (if BinIndex(cs[|cs| - 1]) == b then 1 else 0)
  }

  /** The histogram: bin `b` holds the number of confidences whose bin is `b`. */
  function Histogram(cs: seq<Confidence>): seq<nat> {
    seq(BinCount, b => CountBin(cs, b))
  }

  /** The histogram loop: ten zeros, then one increment per confidence, in order. */
  method ConfidenceBins(confidences: seq<Confidence>) returns (bins: seq<nat>)
    ensures bins == Histogram(confidences)
  {
    var a := new nat[BinCount](_ => 0);
    var j := 0;
    while j < |confidences|
      invariant 0 <= j <= |confidences|
      invariant forall b :: 0 <= b < BinCount ==> a[b] == CountBin(confidences[..j], b)
    {
      var idx := BinIndex(confidences[j]);
      a[idx] := a[idx] + 1;
      assert confidences[..j + 1][..j] == confidences[..j];
      j := j + 1;
    }
    assert confidences[..j] == confidences;
    bins := a[..];
  }

  function Sum(s: seq<nat>): nat {
    if s == [] then 0 else s[0] + Sum(s[1..])
  }

  lemma {:induction false} SumBump(s: seq<nat>, k: nat)
    requires k < |s|
    ensures Sum(s[k := s[k] + 1]) == Sum(s) + 1
  {
    if k == 0 {
      assert s[k := s[k] + 1][1..] == s[1..];
    } else {
      assert s[k := s[k] + 1][1..] == s[1..][k - 1 := s[k] + 1];
      SumBump(s[1..], k - 1);
    }
  }

  lemma {:induction false} SumZero(s: seq<nat>)
    requires forall i :: 0 <= i < |s| ==> s[i] == 0
    ensures Sum(s) == 0
  {
    if s != [] {
      SumZero(s[1..]);
    }
  }

  /** Ten bins, and every confidence is counted in exactly one of them. */
  lemma {:induction false} HistogramTotal(cs: seq<Confidence>)
    ensures |Histogram(cs)| == BinCount
    ensures Sum(Histogram(cs)) == |cs|
  {
    if cs == [] {
      SumZero(Histogram(cs));
    } else {
      var init := cs[..|cs| - 1];
      var k := BinIndex(cs[|cs| - 1]);
      HistogramTotal(init);
      assert Histogram(cs) == Histogram(init)[k := Histogram(init)[k] + 1];
      SumBump(Histogram(init), k);
    }
  }

  // ---------------------------------------------------------------------------
  // Average confidence per label

  /** The recent predictions whose label is `bg`, in order. */
  function Matching(recent: seq<Prediction>, bg: string): (r: seq<Prediction>)
    ensures |r| <= |recent|
    ensures forall i :: 0 <= i < |r| ==> r[i].bloodGroup == bg
  {
    if recent == [] then []
    else if recent[0].bloodGroup == bg then [recent[0]] + Matching(recent[1..], bg)
    else Matching(recent[1..], bg)
  }

  /** `Matching` is a filter: it keeps every recent prediction labelled `bg` and takes nothing else. */
  lemma {:induction false} MatchingFilter(recent: seq<Prediction>, bg: string)
    ensures forall i :: 0 <= i < |Matching(recent, bg)| ==> Matching(recent, bg)[i] in recent
    ensures forall i :: 0 <= i < |recent| && recent[i].bloodGroup == bg ==> recent[i] in Matching(recent, bg)
  {
    if recent != [] {
      var t := recent[1..];
      MatchingFilter(t, bg);
      assert recent == [recent[0]] + t;
      var m := Matching(recent, bg);
      var mt := Matching(t, bg);
      if recent[0].bloodGroup == bg {
        assert m == [recent[0]] + mt;
      } else {
        assert m == mt;
      }
      forall i | 0 <= i < |recent| && recent[i].bloodGroup == bg
        ensures recent[i] in m
      {
        if i > 0 {
          assert recent[i] == t[i - 1];
        }
      }
    }
  }

  /** `Matching` keeps each prediction labelled `bg` exactly as many times as it occurs in `recent`, and no other. */
  lemma {:induction false} MatchingMultiset(recent: seq<Prediction>, bg: string)
    ensures forall x :: multiset(Matching(recent, bg))[x] == if x.bloodGroup == bg then multiset(recent)[x] else 0
  {
    if recent != [] {
      MatchingMultiset(recent[1..], bg);
      assert recent == [recent[0]] + recent[1..];
    }
  }

  /** The sum of the confidences of `ps`; each lies in [0, 1], so the sum lies in [0, |ps|]. */
  function SumConfidence(ps: seq<Prediction>): (r: real)
    ensures 0.0 <= r <= |ps| as real
  {
    if ps == [] then 0.0 else ps[0].confidence + SumConfidence(ps[1..])
  }

  /** A sum of `n` values in [0, 1], divided by `n`, lies in [0, 1]. */
  lemma MeanBound(s: real, n: real)
    requires 1.0 <= n && 0.0 <= s <= n
    ensures 0.0 <= s / n <= 1.0
  {
    var q := s / n;
    assert q * n == s;
    assert n - s == (1.0 - q) * n;
  }

  /** No recent prediction matches `bg` exactly when no recent prediction carries `bg`. */
  lemma {:induction false} MatchingEmpty(recent: seq<Prediction>, bg: string)
    ensures Matching(recent, bg) == [] <==> forall i :: 0 <= i < |recent| ==> recent[i].bloodGroup != bg
  {
    if recent != [] {
      MatchingEmpty(recent[1..], bg);
      assert forall i :: 1 <= i < |recent| ==> recent[i] == recent[1..][i - 1];
    }
  }

  /**
   * The average confidence of the recent predictions labelled `bg`, as a
   * percentage; 0 when there are none.
   */
  function AvgConfidencePct(recent: seq<Prediction>, bg: string): (r: real)
    ensures 0.0 <= r <= 100.0
    ensures (forall i :: 0 <= i < |recent| ==> recent[i].bloodGroup != bg) ==> r == 0.0
    ensures Matching(recent, bg) != [] ==>
      r / 100.0 == SumConfidence(Matching(recent, bg)) / (|Matching(recent, bg)| as real)
  {
    MatchingEmpty(recent, bg);
    var m := Matching(recent, bg);
    if |m| == 0 then 0.0
    else
      var n := |m| as real;
      MeanBound(SumConfidence(m), n);
      SumConfidence(m) / n * 100.0
  }

  lemma {:induction false} MatchingAppend(s: seq<Prediction>, x: Prediction, bg: string)
    ensures Matching(s + [x], bg) == Matching(s, bg) + (if x.bloodGroup == bg then [x] else [])
  {
    if s != [] {
      assert (s + [x])[1..] == s[1..] + [x];
      MatchingAppend(s[1..], x, bg);
    }
  }

  /** The predictions averaged for `bg` are as many as the predictions labelled `bg`. */
  lemma {:induction false} MatchingCount(h: seq<Prediction>, bg: string)
    ensures |Matching(h, bg)| == Backend.Occurrences(h, bg)
  {
    if h != [] {
      var init := h[..|h| - 1];
      assert h == init + [h[|h| - 1]];
      MatchingAppend(init, h[|h| - 1], bg);
      MatchingCount(init, bg);
    }
  }

  /**
   * In a snapshot of the store taken before it has logged more than 50
   * predictions, each label's average is taken over as many predictions as the
   * label's count.
   */
  lemma AveragesCoverCounts(s: Snapshot, h: seq<Prediction>)
    requires Backend.Tracks(h, s.total, s.bloodGroups, s.confidences, s.recentPredictions)
    requires s.total <= Backend.RecentCap
    ensures forall bg :: |Matching(s.recentPredictions, bg)| == Get(s.bloodGroups, bg, 0)
  {
    assert s.recentPredictions == h;
    forall bg ensures |Matching(h, bg)| == Get(s.bloodGroups, bg, 0) {
      MatchingCount(h, bg);
    }
  }

  /** `groupAvgConfidence`: one average per label, in the labels' order. */
  function GroupAvgConfidence(groups: seq<string>, recent: seq<Prediction>): (avgs: seq<real>)
    ensures |avgs| == |groups|
    ensures forall i :: 0 <= i < |groups| ==> avgs[i] == AvgConfidencePct(recent, groups[i])
  {
    if groups == [] then []
    else [AvgConfidencePct(recent, groups[0])] + GroupAvgConfidence(groups[1..], recent)
  }

  /** With no snapshot every view is empty and the histogram is all zeros. */
  lemma NoSnapshotViews()
    ensures BloodGroups(None) == [] && BloodCounts(None) == []
    ensures ConfidenceList(None) == [] && Recent(None) == []
    ensures Histogram(ConfidenceList(None)) == seq(BinCount, _ => 0)
    ensures GroupAvgConfidence(BloodGroups(None), Recent(None)) == []
  {
  }

  /** With no recent predictions every label averages 0. */
  lemma NoRecentAveragesZero(groups: seq<string>)
    ensures forall i :: 0 <= i < |groups| ==> GroupAvgConfidence(groups, [])[i] == 0.0
  {
  }

  // ---------------------------------------------------------------------------
  // Colours

  const BloodColors: map<string, string> :=
    map["A+" := "#E7D27C", "A-" := "#FFF8D5", "B+" := "#DDA0DD", "B-" := "#E6AAD2",
        "AB+" := "#F1BEB5", "AB-" := "#D3B8A1", "O+" := "#9DD6AD", "O-" := "#A5E3E0"]

  const FallbackColor: string := "#ccc"

  /** `BLOOD_COLORS[bg] || '#ccc'`. */
  function ColorOf(bg: string): (c: string)
    ensures bg in BloodColors ==> c == BloodColors[bg]
    ensures c == FallbackColor <==> bg !in BloodColors
  {
    if bg in BloodColors then BloodColors[bg] else FallbackColor
  }

  /** The colours of the chart segments: one per label, unknown labels included. */
  function Colors(groups: seq<string>): (cs: seq<string>)
    ensures |cs| == |groups|
    ensures forall i :: 0 <= i < |groups| ==> cs[i] == ColorOf(groups[i])
  {
    if groups == [] then [] else [ColorOf(groups[0])] + Colors(groups[1..])
  }

  /** The colours of the timeline items: one per recent prediction. */
  function TimelineColors(recent: seq<Prediction>): (cs: seq<string>)
    ensures |cs| == |recent|
    ensures forall i :: 0 <= i < |recent| ==> cs[i] == ColorOf(recent[i].bloodGroup)
  {
    if recent == [] then [] else [ColorOf(recent[0].bloodGroup)] + TimelineColors(recent[1..])
  }

  /** Every label the prediction service can produce has its own colour. */
  lemma ServiceLabelsHaveColors()
    ensures forall i :: i in Backend.ClassLabels ==> Backend.ClassLabels[i] in BloodColors
  {
  }

  // ---------------------------------------------------------------------------
  // Fetch state

  const FetchError: string := "Could not load stats."

  /** The component's `stats`, `loading` and `error` state. */
  class DashboardState {
    var stats: Option<Snapshot>
    var loading: bool
    var error: string

    /** The state at mount: no snapshot, loading, no error. */
    constructor ()
      ensures stats == None && loading && error == ""
    {
      stats, loading, error := None, true, "";
    }

    /** A fetch starts: loading, error cleared. */
    method Begin()
      modifies this
      ensures loading && error == "" && stats == old(stats)
    {
      loading := true;
      error := "";
    }

    /** A fetch answered with a snapshot. */
    method Succeed(s: Snapshot)
      modifies this
      ensures stats == Some(s) && !loading && error == old(error)
    {
      stats := Some(s);
      loading := false;
    }

    /** A fetch failed (network error, non-ok status or unreadable body). */
    method Fail()
      modifies this
      ensures stats == old(stats) && !loading && error == FetchError
    {
      error := FetchError;
      loading := false;
    }
  }

  /** A failed poll after a successful one keeps the snapshot and shows the error. */
  method SuccessThenFailure(s: Snapshot) returns (shown: Option<Snapshot>, error: string, loading: bool)
    ensures shown == Some(s) && error == FetchError && !loading
  {
    var d := new DashboardState();
    d.Begin();
    d.Succeed(s);
    d.Begin();
    d.Fail();
    shown, error, loading := d.stats, d.error, d.loading;
  }

  /** A failure before any success leaves no snapshot and shows the error. */
  method FailureFirst() returns (shown: Option<Snapshot>, error: string)
    ensures shown == None && error == FetchError
  {
    var d := new DashboardState();
    d.Begin();
    d.Fail();
    shown, error := d.stats, d.error;
  }

  /**
   * Two overlapping polls whose answers arrive in reverse order: the older
   * poll's snapshot, applied last, is the one shown.
   */
  method OverlappingPolls(older: Snapshot, newer: Snapshot) returns (shown: Option<Snapshot>)
    ensures shown == Some(older)
  {
    var d := new DashboardState();
    d.Begin();
    d.Begin();
    d.Succeed(newer);
    d.Succeed(older);
    shown := d.stats;
  }

  /**
   * Two overlapping polls, the first fails after the second started and the
   * second succeeds: the new snapshot is shown together with the error.
   */
  method FailureOverlapsSuccess(s: Snapshot) returns (shown: Option<Snapshot>, error: string, loading: bool)
    ensures shown == Some(s) && error == FetchError && !loading
  {
    var d := new DashboardState();
    d.Begin();
    d.Begin();
    d.Fail();
    d.Succeed(s);
    shown, error, loading := d.stats, d.error, d.loading;
  }

  // ---------------------------------------------------------------------------
  // The example snapshot: three predictions, two A+ and one O-

  const Example: Snapshot := Snapshot(
    3,
    [Entry("A+", 2), Entry("O-", 1)],
    [0.9, 0.95, 0.4],
    [Prediction("A+", 0.9, ""), Prediction("A+", 0.95, ""), Prediction("O-", 0.4, "")])

  lemma ExampleHistogram()
    ensures Histogram(Example.confidences) == [0, 0, 0, 0, 1, 0, 0, 0, 0, 2]
  {
    var cs := Example.confidences;
    assert BinIndex(0.9) == 9 && BinIndex(0.95) == 9 && BinIndex(0.4) == 4;
    assert cs[..2] == [0.9, 0.95] && cs[..2][..1] == [0.9] && [0.9][..0] == [];
    forall b | 0 <= b < BinCount
      ensures CountBin(cs, b) == if b == 9 then 2 else if b == 4 then 1 else 0
    {
      assert CountBin([0.9], b) == if b == 9 then 1 else 0;
      assert CountBin([0.9, 0.95], b) == if b == 9 then 2 else 0;
    }
  }

  /** The average of a label with `n` matching predictions whose confidences sum to `s`. */
  lemma AvgValue(recent: seq<Prediction>, bg: string, s: real, n: nat)
    requires |Matching(recent, bg)| == n > 0 && SumConfidence(Matching(recent, bg)) == s
    ensures AvgConfidencePct(recent, bg) == s / (n as real) * 100.0
  {
  }

  lemma ExampleLabels()
    ensures BloodGroups(Some(Example)) == ["A+", "O-"]
    ensures BloodCounts(Some(Example)) == [2, 1]
  {
    KeysValuesAligned(Example.bloodGroups);
  }

  /** In the example, A+ is averaged over 0.9 and 0.95 and O- over 0.4. */
  lemma ExampleMatching()
    ensures AvgConfidencePct(Example.recentPredictions, "A+") == 92.5
    ensures AvgConfidencePct(Example.recentPredictions, "O-") == 40.0
  {
    var r := Example.recentPredictions;
    var r2 := r[2..];
    var r1 := r[1..];
    assert r2[1..] == [] && r1[1..] == r2;
    assert Matching(r2, "A+") == [] && Matching(r2, "O-") == r2;
    assert Matching(r1, "A+") == [r1[0]] && Matching(r1, "O-") == r2;
    assert Matching(r, "A+") == r[..2] && Matching(r, "O-") == r2;
    assert SumConfidence(r[..2]) == 1.85 by {
      assert r[..2][1..][1..] == [];
    }
    assert SumConfidence(r2) == 0.4;
    AvgValue(r, "A+", 1.85, 2);
    AvgValue(r, "O-", 0.4, 1);
  }

  lemma ExampleAverages()
    ensures GroupAvgConfidence(BloodGroups(Some(Example)), Recent(Some(Example))) == [92.5, 40.0]
  {
    ExampleLabels();
    ExampleMatching();
    var avgs := GroupAvgConfidence(["A+", "O-"], Example.recentPredictions);
    assert avgs[0] == 92.5 && avgs[1] == 40.0;
  }
}
