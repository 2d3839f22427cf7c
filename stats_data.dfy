/**
 * The statistics snapshot shared by the prediction service and the dashboard:
 * `{total, blood_groups, confidences, recent_predictions}`.
 *
 * `blood_groups` is a dictionary from a blood-group label to a count. Both a
 * Python dict and the keys of a JavaScript object (for non-numeric keys such as
 * "A+") keep insertion order, so it is modelled as the sequence of its entries
 * in key order, with the dictionary operations applied to it: `get`, item
 * assignment, `Object.keys` and `Object.values`.
 */
module StatsData {

  /** A confidence score as the classifier reports it: a probability. */
  type Confidence = c: real | 0.0 <= c <= 1.0 witness 0.0

  /** One element of `recent_predictions`. */
  datatype Prediction = Prediction(bloodGroup: string, confidence: Confidence, timestamp: string)

  /** One key/value pair of `blood_groups`. */
  datatype Entry = Entry(bloodGroup: string, count: nat)

  /** The `blood_groups` dictionary, entries in key order. */
  type GroupCounts = seq<Entry>

  /** The four fields the statistics endpoint returns. */
  datatype Snapshot = Snapshot(
    total: nat,
    bloodGroups: GroupCounts,
    confidences: seq<Confidence>,
    recentPredictions: seq<Prediction>)

  /** A dictionary never holds the same key twice. */
  ghost predicate DistinctLabels(d: GroupCounts) {
    forall i, j :: 0 <= i < j < |d| ==> d[i].bloodGroup != d[j].bloodGroup
  }

  /** The keys in order (`Object.keys`). */
  function Keys(d: GroupCounts): (r: seq<string>)
    ensures |r| == |d|
  {
    if d == [] then [] else [d[0].bloodGroup] + Keys(d[1..])
  }

  /** The values in key order (`Object.values`). */
  function Values(d: GroupCounts): (r: seq<nat>)
    ensures |r| == |d|
  {
    if d == [] then [] else [d[0].count] + Values(d[1..])
  }

  /** `d.get(k, default)`: the value stored under `k`, or `default` when `k` is absent. */
  function Get(d: GroupCounts, k: string, default: nat): nat {
    if d == [] then default
    else if d[0].bloodGroup == k then d[0].count
    else Get(d[1..], k, default)
  }

  /**
   * `d[k] = v`: an existing key keeps its position and takes the new value;
   * a new key is added at the end.
   */
  function Put(d: GroupCounts, k: string, v: nat): (r: GroupCounts)
    ensures |r| == if k in Keys(d) then |d| else |d| + 1
  {
    if d == [] then [Entry(k, v)]
    else if d[0].bloodGroup == k then [Entry(k, v)] + d[1..]
    else [d[0]] + Put(d[1..], k, v)
  }

  /** The sum of all counts. */
  function SumCounts(d: GroupCounts): nat {
    if d == [] then 0 else d[0].count + SumCounts(d[1..])
  }

  /**
   * Keys and values come from the same entries, in the same order; with
   * distinct keys, each value is what its key reads as.
   */
  lemma {:induction false} KeysValuesAligned(d: GroupCounts)
    ensures |Keys(d)| == |Values(d)| == |d|
    ensures forall i :: 0 <= i < |d| ==> Keys(d)[i] == d[i].bloodGroup && Values(d)[i] == d[i].count
    ensures DistinctLabels(d) ==> forall i :: 0 <= i < |d| ==> Get(d, Keys(d)[i], 0) == Values(d)[i]
  {
    if d != [] {
      var t := d[1..];
      KeysValuesAligned(t);
      forall i | 0 <= i < |d|
        ensures Keys(d)[i] == d[i].bloodGroup && Values(d)[i] == d[i].count
      {
        if i > 0 {
          assert Keys(d)[i] == Keys(t)[i - 1] && Values(d)[i] == Values(t)[i - 1];
        }
      }
      if DistinctLabels(d) {
        assert DistinctLabels(t) by {
          forall i, j | 0 <= i < j < |t| ensures t[i].bloodGroup != t[j].bloodGroup {
            assert t[i] == d[i + 1] && t[j] == d[j + 1];
          }
        }
        forall i | 0 <= i < |d| ensures Get(d, Keys(d)[i], 0) == Values(d)[i] {
          if i > 0 {
            assert Keys(d)[i] == Keys(t)[i - 1] && Values(d)[i] == Values(t)[i - 1];
            assert d[0].bloodGroup != d[i].bloodGroup;
          }
        }
      }
    }
  }

  /**
   * A key that is not present reads as the default; a present key ignores it
   * and reads the count stored with it.
   */
  lemma {:induction false} GetDefault(d: GroupCounts, k: string, default: nat)
    ensures k !in Keys(d) ==> Get(d, k, default) == default
    ensures k in Keys(d) ==> Get(d, k, default) == Get(d, k, 0)
    ensures k in Keys(d) ==> Entry(k, Get(d, k, default)) in d
  {
    if d != [] && d[0].bloodGroup != k {
      GetDefault(d[1..], k, default);
    }
  }

  /** `d[k] = v` adds `k` at the end exactly when it was absent, and moves no other key. */
  lemma {:induction false} PutKeys(d: GroupCounts, k: string, v: nat)
    ensures Keys(Put(d, k, v)) == if k in Keys(d) then Keys(d) else Keys(d) + [k]
  {
    if d != [] && d[0].bloodGroup != k {
      PutKeys(d[1..], k, v);
    }
  }

  /** After `d[k] = v`, `k` reads as `v` and every other key reads as before. */
  lemma {:induction false} PutGet(d: GroupCounts, k: string, v: nat, k': string, default: nat)
    ensures Get(Put(d, k, v), k', default) == if k' == k then v else Get(d, k', default)
  {
    if d != [] && d[0].bloodGroup != k {
      PutGet(d[1..], k, v, k', default);
    }
  }

  /** `d[k] = v` keeps the keys distinct. */
  lemma {:induction false} PutDistinct(d: GroupCounts, k: string, v: nat)
    requires DistinctLabels(d)
    ensures DistinctLabels(Put(d, k, v))
  {
    var r := Put(d, k, v);
    PutKeys(d, k, v);
    KeysValuesAligned(d);
    if d == [] {
    } else if d[0].bloodGroup == k {
      forall i, j | 0 <= i < j < |r| ensures r[i].bloodGroup != r[j].bloodGroup {
        assert r[j] == d[j];
        if i > 0 { assert r[i] == d[i]; }
      }
    } else {
      var t := d[1..];
      assert DistinctLabels(t) by {
        forall i, j | 0 <= i < j < |t| ensures t[i].bloodGroup != t[j].bloodGroup {
          assert t[i] == d[i + 1] && t[j] == d[j + 1];
        }
      }
      PutDistinct(t, k, v);
      PutKeys(t, k, v);
      var rt := Put(t, k, v);
      assert r == [d[0]] + rt;
      KeysValuesAligned(rt);
      KeysValuesAligned(t);
      assert d[0].bloodGroup !in Keys(t) by {
        forall i | 0 <= i < |t| ensures Keys(t)[i] != d[0].bloodGroup {
          assert t[i] == d[i + 1];
        }
      }
      assert d[0].bloodGroup != k;
      assert d[0].bloodGroup !in Keys(rt);
      forall i, j | 0 <= i < j < |r| ensures r[i].bloodGroup != r[j].bloodGroup {
        if i == 0 {
          assert r[j] == rt[j - 1];
          assert Keys(rt)[j - 1] == rt[j - 1].bloodGroup;
        } else {
          assert r[i] == rt[i - 1] && r[j] == rt[j - 1];
        }
      }
    }
  }

  /** `d[k] = v` changes the sum of counts by `v` minus `k`'s old count. */
  lemma {:induction false} PutSum(d: GroupCounts, k: string, v: nat)
    ensures SumCounts(Put(d, k, v)) + Get(d, k, 0) == SumCounts(d) + v
  {
    if d != [] && d[0].bloodGroup != k {
      PutSum(d[1..], k, v);
    }
  }
}
