/**
 * The rule-based text of the analysis endpoint
 * (src/maintainance_anomaly_detection/main.py:127-140): the indices whose
 * score is above the threshold, how many there are, and the first five.
 */
module AnomalyReport {

  /** How many indices the report names. */
  const ProminentCount: nat := 5

  /** `np.where(arr > thresh)[0]`: the anomalous indices, ascending. */
  function AnomalyIndices(scores: seq<real>, t: real): (r: seq<nat>)
    ensures forall i: nat :: i in r <==> i < |scores| && scores[i] > t
    ensures forall j :: 0 <= j < |r| ==> r[j] < |scores|
    ensures forall a, b :: 0 <= a < b < |r| ==> r[a] < r[b]
    decreases |scores|
  {
    if scores == [] then []
    else
      var n := |scores| - 1;
      AnomalyIndices(scores[..n], t) + (if scores[n] > t then [n] else [])
  }

  /** The anomalous indices as a set. */
  function AnomalySet(scores: seq<real>, t: real): set<nat>
  {
    set i: nat | i < |scores| && scores[i] > t
  }

  /** The report: none found, or how many with the first few listed. */
  datatype Summary = NoSignificantAnomalies | Detected(count: nat, prominent: seq<nat>)

  function Summarise(scores: seq<real>, t: real): Summary
  {
    var idxs := AnomalyIndices(scores, t);
    if idxs == [] then NoSignificantAnomalies
    else Detected(|idxs|, idxs[..if |idxs| < ProminentCount then |idxs| else ProminentCount])
  }

  /** The elements of a sequence, as a set. */
  function Elements(r: seq<nat>): (e: set<nat>)
    ensures forall x :: x in e <==> x in r
  {
    if r == [] then {} else Elements(r[..|r| - 1]) + {r[|r| - 1]}
  }

  /** A strictly increasing sequence has as many distinct elements as entries. */
  lemma {:induction false} IncreasingCard(r: seq<nat>)
    requires forall a, b :: 0 <= a < b < |r| ==> r[a] < r[b]
    ensures |Elements(r)| == |r|
  {
    if r != [] {
      var init := r[..|r| - 1];
      IncreasingCard(init);
      var last := r[|r| - 1];
      assert last !in Elements(init) by {
        forall j | 0 <= j < |init|
          ensures init[j] != last
        {
          assert init[j] == r[j] < last;
        }
      }
    }
  }

  /** The count in the report is the number of scores above the threshold. */
  lemma CountIsAnomalySetSize(scores: seq<real>, t: real)
    ensures |AnomalyIndices(scores, t)| == |AnomalySet(scores, t)|
  {
    var idxs := AnomalyIndices(scores, t);
    IncreasingCard(idxs);
    assert Elements(idxs) == AnomalySet(scores, t);
  }

  /** No index is reported exactly when no score is above the threshold. */
  lemma NoneIffAllBelow(scores: seq<real>, t: real)
    ensures AnomalyIndices(scores, t) == [] <==> forall i :: 0 <= i < |scores| ==> scores[i] <= t
  {
    var idxs := AnomalyIndices(scores, t);
    if idxs == [] {
      forall i | 0 <= i < |scores|
        ensures scores[i] <= t
      {
        assert (i as nat) !in idxs;
      }
    } else {
      assert scores[idxs[0]] > t;
    }
  }

  /** Any anomalous index missing from a prefix of the ascending indices is above every index in it. */
  lemma PrefixHoldsSmallest(scores: seq<real>, t: real, m: nat)
    requires m <= |AnomalyIndices(scores, t)|
    ensures var p := AnomalyIndices(scores, t)[..m];
      forall i, j :: i in AnomalySet(scores, t) && 0 <= j < m && i !in p ==> p[j] < i
  {
    var idxs := AnomalyIndices(scores, t);
    var p := idxs[..m];
    forall i, j | i in AnomalySet(scores, t) && 0 <= j < m && i !in p
      ensures p[j] < i
    {
      var k :| 0 <= k < |idxs| && idxs[k] == i;
      assert k >= m;
    }
  }

  /**
   * The report says "no significant anomalies" exactly when no score is above
   * the threshold. Otherwise it counts every index above the threshold and
   * names the first five (or all, when fewer), ascending: any anomalous
   * index it leaves out is larger than every index it names.
   */
  lemma SummaryIsFaithful(scores: seq<real>, t: real)
    ensures var s := Summarise(scores, t);
      && (s.NoSignificantAnomalies? <==> forall i :: 0 <= i < |scores| ==> scores[i] <= t)
      && (s.Detected? ==>
          && s.count == |AnomalySet(scores, t)|
          && |s.prominent| == (if s.count < ProminentCount then s.count else ProminentCount)
          && (forall a, b :: 0 <= a < b < |s.prominent| ==> s.prominent[a] < s.prominent[b])
          && (forall j :: 0 <= j < |s.prominent| ==> s.prominent[j] in AnomalySet(scores, t))
          && (forall i, j :: i in AnomalySet(scores, t) && 0 <= j < |s.prominent| && i !in s.prominent
                ==> s.prominent[j] < i))
  {
    var idxs := AnomalyIndices(scores, t);
    NoneIffAllBelow(scores, t);
    if idxs != [] {
      CountIsAnomalySetSize(scores, t);
      var m := if |idxs| < ProminentCount then |idxs| else ProminentCount;
      PrefixHoldsSmallest(scores, t, m);
    }
  }
}
