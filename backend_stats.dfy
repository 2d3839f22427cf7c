/**
 * The prediction service's in-memory statistics store: the module-level
 * `prediction_stats` record, the block of `predict` that logs one successful
 * prediction into it, and the `/stats` handler that returns it.
 *
 * The store keeps only aggregates. The model adds a ghost `History` of every
 * logged prediction, and `Valid()` says that each stored field is the function
 * of that history the logging code maintains.
 */
module Backend {
  import opened StatsData

  /** How many recent predictions the store keeps. */
  const RecentCap: nat := 50

  /** The classifier's output index to blood-group table. */
  const ClassLabels: map<int, string> :=
    map[0 := "A+", 1 := "A-", 2 := "AB+", 3 := "AB-", 4 := "B+", 5 := "B-", 6 := "O+", 7 := "O-"]

  /** The table covers exactly the indices 0..7 and gives eight different labels. */
  lemma ClassLabelsTable()
    ensures forall i :: i in ClassLabels <==> 0 <= i < 8
    ensures forall i, j :: i in ClassLabels && j in ClassLabels && i != j ==> ClassLabels[i] != ClassLabels[j]
  {
  }

  /** What `predict` answers once a class index has been computed. */
  datatype PredictResponse =
    | Predicted(bloodGroup: string, confidence: Confidence)
    | ServerError(status: nat)

  /** The newest `n` elements of `s`, oldest first; all of `s` when it has at most `n` elements. */
  function LastN<T>(s: seq<T>, n: nat): (r: seq<T>)
    ensures |r| == if |s| <= n then |s| else n
    ensures r == s[|s| - |r|..]
  {
    if |s| > n then s[|s| - n..] else s
  }

  /** Trimming a buffer and then appending and trimming again is the same as trimming once. */
  lemma LastNAppend<T>(h: seq<T>, x: T, n: nat)
    ensures LastN(LastN(h, n) + [x], n) == LastN(h + [x], n)
  {
    if |h| > n {
      assert LastN(h, n) + [x] == (h + [x])[|h| - n..];
    }
  }

  /**
   * Appending to a buffer of at most `n` entries and trimming to `n`: below the
   * cap nothing is dropped; at the cap only the oldest entry is dropped.
   */
  lemma {:induction false} AppendTrimmed<T>(s: seq<T>, x: T, n: nat)
    requires 0 < n && |s| <= n
    ensures |LastN(s + [x], n)| <= n
    ensures LastN(s + [x], n)[|LastN(s + [x], n)| - 1] == x
    ensures |s| < n ==> LastN(s + [x], n) == s + [x]
    ensures |s| == n ==> LastN(s + [x], n) == s[1..] + [x]
  {
    if |s| == n {
      assert (s + [x])[1..] == s[1..] + [x];
    }
  }

  /** How many logged predictions carry the label `k`. */
  function Occurrences(h: seq<Prediction>, k: string): nat {
    if h == [] then 0
    else Occurrences(h[..|h| - 1], k) + (if h[|h| - 1].bloodGroup == k then 1 else 0)
  }

  /** The labels of `h`, each once, in the order of their first occurrence. */
  function FirstSeen(h: seq<Prediction>): seq<string> {
    if h == [] then []
    else
      var f := FirstSeen(h[..|h| - 1]);
      if h[|h| - 1].bloodGroup in f then f else f + [h[|h| - 1].bloodGroup]
  }

  /** The confidences of `h`, in order. */
  function ConfidencesOf(h: seq<Prediction>): (cs: seq<Confidence>)
    ensures |cs| == |h|
    ensures forall i :: 0 <= i < |h| ==> cs[i] == h[i].confidence
  {
    if h == [] then [] else ConfidencesOf(h[..|h| - 1]) + [h[|h| - 1].confidence]
  }

  /** The labels first seen are exactly the labels predicted at least once, each listed once. */
  lemma {:induction false} FirstSeenLabels(h: seq<Prediction>)
    ensures forall k :: k in FirstSeen(h) <==> Occurrences(h, k) > 0
    ensures forall i, j :: 0 <= i < j < |FirstSeen(h)| ==> FirstSeen(h)[i] != FirstSeen(h)[j]
  {
    if h != [] {
      FirstSeenLabels(h[..|h| - 1]);
    }
  }

  /** Each field of the store is the function of the history of logged predictions that the logging code maintains. */
  ghost predicate Tracks(
    h: seq<Prediction>, total: nat, bloodGroups: GroupCounts,
    confidences: seq<Confidence>, recent: seq<Prediction>)
  {
    && total == |h|
    && SumCounts(bloodGroups) == total
    && DistinctLabels(bloodGroups)
    && Keys(bloodGroups) == FirstSeen(h)
    && (forall k :: Get(bloodGroups, k, 0) == Occurrences(h, k))
    && confidences == ConfidencesOf(h)
    && recent == LastN(h, RecentCap)
  }

  /** Logging `p` extends the key order exactly as it extends the labels first seen. */
  lemma KeysStep(h: seq<Prediction>, d: GroupCounts, p: Prediction)
    requires Keys(d) == FirstSeen(h)
    ensures Keys(Put(d, p.bloodGroup, Get(d, p.bloodGroup, 0) + 1)) == FirstSeen(h + [p])
  {
    assert (h + [p])[..|h|] == h;
    PutKeys(d, p.bloodGroup, Get(d, p.bloodGroup, 0) + 1);
  }

  /** Logging `p` raises the count of its label by one, in the dictionary as in the history. */
  lemma CountsStep(h: seq<Prediction>, d: GroupCounts, p: Prediction)
    requires forall k :: Get(d, k, 0) == Occurrences(h, k)
    ensures forall k :: Get(Put(d, p.bloodGroup, Get(d, p.bloodGroup, 0) + 1), k, 0) == Occurrences(h + [p], k)
  {
    assert (h + [p])[..|h|] == h;
    forall k ensures Get(Put(d, p.bloodGroup, Get(d, p.bloodGroup, 0) + 1), k, 0) == Occurrences(h + [p], k) {
      PutGet(d, p.bloodGroup, Get(d, p.bloodGroup, 0) + 1, k, 0);
    }
  }

  /** Logging `p` appends its confidence. */
  lemma ConfidencesStep(h: seq<Prediction>, p: Prediction)
    ensures ConfidencesOf(h + [p]) == ConfidencesOf(h) + [p.confidence]
  {
    assert (h + [p])[..|h|] == h;
  }

  /** The logging block maps a store that tracks `h` to one that tracks `h + [p]`. */
  lemma LogTracks(
    h: seq<Prediction>, total: nat, bloodGroups: GroupCounts,
    confidences: seq<Confidence>, recent: seq<Prediction>, p: Prediction,
    h': seq<Prediction>, total': nat, bloodGroups': GroupCounts,
    confidences': seq<Confidence>, recent': seq<Prediction>)
    requires Tracks(h, total, bloodGroups, confidences, recent)
    requires h' == h + [p] && total' == total + 1
    requires bloodGroups' == Put(bloodGroups, p.bloodGroup, Get(bloodGroups, p.bloodGroup, 0) + 1)
    requires confidences' == confidences + [p.confidence]
    requires recent' == LastN(recent + [p], RecentCap)
    ensures Tracks(h', total', bloodGroups', confidences', recent')
  {
    var v := Get(bloodGroups, p.bloodGroup, 0) + 1;
    PutSum(bloodGroups, p.bloodGroup, v);
    PutDistinct(bloodGroups, p.bloodGroup, v);
    KeysStep(h, bloodGroups, p);
    CountsStep(h, bloodGroups, p);
    ConfidencesStep(h, p);
    LastNAppend(h, p, RecentCap);
  }

  /** Helper for `LogPrediction`: what `d[k] = v` does to each key's count and to the key order, from `PutGet` and `PutKeys`. */
  lemma PutFacts(d: GroupCounts, k: string, v: nat)
    ensures Get(Put(d, k, v), k, 0) == v
    ensures forall k' :: k' != k ==> Get(Put(d, k, v), k', 0) == Get(d, k', 0)
    ensures Keys(Put(d, k, v)) == if k in Keys(d) then Keys(d) else Keys(d) + [k]
  {
    PutKeys(d, k, v);
    PutGet(d, k, v, k, 0);
    forall k' | k' != k ensures Get(Put(d, k, v), k', 0) == Get(d, k', 0) {
      PutGet(d, k, v, k', 0);
    }
  }

  /**
   * The fields of a store that tracks a history agree: the counts sum to the
   * total, there is one confidence per prediction, the recent list holds the
   * newest confidences, and a label is a key exactly when its count is positive.
   */
  lemma Consistent(
    h: seq<Prediction>, total: nat, bloodGroups: GroupCounts,
    confidences: seq<Confidence>, recent: seq<Prediction>)
    requires Tracks(h, total, bloodGroups, confidences, recent)
    ensures SumCounts(bloodGroups) == total == |confidences|
    ensures |recent| == if total <= RecentCap then total else RecentCap
    ensures forall i :: 0 <= i < |recent| ==>
      recent[i].confidence == confidences[|confidences| - |recent| + i]
    ensures forall k :: k in Keys(bloodGroups) <==> Get(bloodGroups, k, 0) > 0
  {
    FirstSeenLabels(h);
  }

  /** The statistics store. */
  class PredictionStats {
    var total: nat
    var bloodGroups: GroupCounts
    var confidences: seq<Confidence>
    var recentPredictions: seq<Prediction>

    /** Every prediction logged so far, oldest first. */
    ghost var History: seq<Prediction>

    ghost predicate Valid()
      reads this
    {
      Tracks(History, total, bloodGroups, confidences, recentPredictions)
    }

    /** The store as the service starts: nothing logged. */
    constructor ()
      ensures Valid() && History == []
      ensures total == 0 && bloodGroups == [] && confidences == [] && recentPredictions == []
    {
      total, bloodGroups, confidences, recentPredictions := 0, [], [], [];
      History := [];
    }

    /** Logs one successful prediction. */
    method LogPrediction(bloodGroup: string, confidence: Confidence, timestamp: string)
      requires Valid()
      modifies this
      ensures Valid()
      ensures History == old(History) + [Prediction(bloodGroup, confidence, timestamp)]
      ensures total == old(total) + 1
      ensures Get(bloodGroups, bloodGroup, 0) == old(Get(bloodGroups, bloodGroup, 0)) + 1
      ensures forall k :: k != bloodGroup ==> Get(bloodGroups, k, 0) == old(Get(bloodGroups, k, 0))
      ensures Keys(bloodGroups) ==
        if bloodGroup in old(Keys(bloodGroups)) then old(Keys(bloodGroups))
        else old(Keys(bloodGroups)) + [bloodGroup]
      ensures confidences == old(confidences) + [confidence]
      ensures recentPredictions == LastN(old(recentPredictions) + [Prediction(bloodGroup, confidence, timestamp)], RecentCap)
    {
      var p := Prediction(bloodGroup, confidence, timestamp);
      var count := Get(bloodGroups, bloodGroup, 0) + 1;
      var groups := Put(bloodGroups, bloodGroup, count);
      var recent := recentPredictions + [p];
      if |recent| > RecentCap {
        recent := recent[|recent| - RecentCap..];
      }
      total, bloodGroups, confidences, recentPredictions, History :=
        total + 1, groups, confidences + [confidence], recent, History + [p];
      LogTracks(old(History), old(total), old(bloodGroups), old(confidences), old(recentPredictions), p,
                History, total, bloodGroups, confidences, recentPredictions);
      PutFacts(old(bloodGroups), bloodGroup, count);
    }

    /**
     * The part of `predict` after the classifier has answered: look the class
     * index up, log the prediction and answer it. An index outside the table
     * raises before the store is touched, and the handler answers 500.
     */
    method Predict(classIndex: int, confidence: Confidence, timestamp: string) returns (r: PredictResponse)
      requires Valid()
      modifies this
      ensures Valid()
      ensures classIndex in ClassLabels ==>
        && r == Predicted(ClassLabels[classIndex], confidence)
        && History == old(History) + [Prediction(ClassLabels[classIndex], confidence, timestamp)]
      ensures classIndex !in ClassLabels ==> r == ServerError(500) && unchanged(this)
    {
      if classIndex !in ClassLabels {
        return ServerError(500);
      }
      var bloodGroup := ClassLabels[classIndex];
      LogPrediction(bloodGroup, confidence, timestamp);
      r := Predicted(bloodGroup, confidence);
    }

    /** The `/stats` handler: the four stored fields, as they are; nothing changes. */
    method Stats() returns (s: Snapshot)
      ensures s == Snapshot(total, bloodGroups, confidences, recentPredictions)
      ensures Valid() ==> s.total == SumCounts(s.bloodGroups) == |s.confidences|
      ensures Valid() ==> |s.recentPredictions| <= RecentCap && DistinctLabels(s.bloodGroups)
    {
      if Valid() {
        Consistent(History, total, bloodGroups, confidences, recentPredictions);
      }
      s := Snapshot(total, bloodGroups, confidences, recentPredictions);
    }
  }
}
