/**
 * The sequential k-means fitter. Each step of the fit is a method with the
 * fitting routine's loops, proved against the specification functions
 * of KMeansSpec; Fit strings them together and stores the result in the
 * fitter's fields.
 */
module KMeansSeq {
  import opened Numeric
  import opened KMeansSpec

  /** Seeding: for each cluster in order, append the drawn observation to every dimension row. */
  method SeedCentroids(points: seq<seq<real>>, draws: seq<nat>) returns (centroids: Centroids)
    requires WellFormed(points) && ValidDraws(points, draws)
    ensures Shaped(centroids, |points|, |draws|)
    ensures forall d, c :: 0 <= d < |points| && 0 <= c < |draws| ==>
              centroids[d][c] == Fin(points[d][draws[c]])
  {
    centroids := seq(|points|, _ => []);
    for c := 0 to |draws|
      invariant Shaped(centroids, |points|, c)
      invariant forall d, c' :: 0 <= d < |points| && 0 <= c' < c ==>
                  centroids[d][c'] == Fin(points[d][draws[c']])
    {
      var rnd := draws[c];
      for d := 0 to |points|
        invariant |centroids| == |points|
        invariant forall dd :: 0 <= dd < d ==> |centroids[dd]| == c + 1
        invariant forall dd :: d <= dd < |points| ==> |centroids[dd]| == c
        invariant forall dd, c' :: 0 <= dd < |points| && 0 <= c' < c ==>
                    centroids[dd][c'] == Fin(points[dd][draws[c']])
        invariant forall dd :: 0 <= dd < d ==> centroids[dd][c] == Fin(points[dd][rnd])
      {
        centroids := centroids[d := centroids[d] + [Fin(points[d][rnd])]];
      }
    }
  }

  /** Squared distance between observation i and centroid j, summed over the dimensions. */
  method SquaredDistance(points: seq<seq<real>>, centroids: Centroids, k: nat, i: nat, j: nat) returns (dist: Num)
    requires Fits(points, centroids, k) && i < |points[0]| && j < k
    ensures dist == Dist(points, centroids, k, i, j)
  {
    ghost var p, c := PointCol(points, i), CentroidCol(centroids, k, j);
    dist := Fin(0.0);
    for d := 0 to |points|
      invariant dist == SqDistUpTo(p, c, d)
    {
      var sub := Sub(Fin(points[d][i]), centroids[d][j]);
      dist := Add(dist, Mul(sub, sub));
    }
  }

  /** The label of observation i: the scan with the -1 sentinel and strict improvement. */
  method NearestCentroid(points: seq<seq<real>>, centroids: Centroids, k: nat, i: nat) returns (centroidIndex: nat)
    requires Fits(points, centroids, k) && k >= 1 && i < |points[0]|
    ensures centroidIndex == Nearest(points, centroids, k, i)
    ensures centroidIndex < k
  {
    ghost var ds := Dists(points, centroids, k, i);
    var min := Sentinel;
    centroidIndex := 0;
    for j := 0 to k
      invariant Choice(min, centroidIndex) == Scan(ds[..j])
    {
      var dist := SquaredDistance(points, centroids, k, i, j);
      assert ds[..j + 1][..j] == ds[..j];
      if Less(dist, min) || min == Sentinel {
        min := dist;
        centroidIndex := j;
      }
    }
    assert ds[..k] == ds;
    ScanInRange(ds);
  }

  /** Adds observation i into accumulator column ci; every other column is left as it was. */
  method AccumulatePoint(acc: Centroids, points: seq<seq<real>>, k: nat, i: nat, ci: nat) returns (next: Centroids)
    requires Fits(points, acc, k) && i < |points[0]| && ci < k
    ensures Shaped(next, |points|, k)
    ensures forall d, j :: 0 <= d < |points| && 0 <= j < k ==>
              next[d][j] == if j == ci then Add(acc[d][j], Fin(points[d][i])) else acc[d][j]
  {
    next := acc;
    for d := 0 to |points|
      invariant Shaped(next, |points|, k)
      invariant forall dd, j :: 0 <= dd < |points| && 0 <= j < k ==>
                  next[dd][j] == if j == ci && dd < d then Add(acc[dd][j], Fin(points[dd][i])) else acc[dd][j]
    {
      next := next[d := next[d][ci := Add(next[d][ci], Fin(points[d][i]))]];
    }
  }

  /**
   * The assignment pass: every label is overwritten with the nearest centroid,
   * the cluster's counter is bumped and the observation is added into the
   * cluster's accumulator column.
   */
  method AssignPass(points: seq<seq<real>>, centroids: Centroids, k: nat, prev: seq<nat>)
    returns (labels: seq<nat>, counts: seq<nat>, acc: Centroids)
    requires Fits(points, centroids, k) && k >= 1 && |prev| == |points[0]|
    ensures labels == AssignLabels(points, centroids, k)
    ensures counts == Counts(labels, k)
    ensures acc == Sums(points, labels, k)
  {
    var n := |points[0]|;
    labels := prev;
    counts := seq(k, _ => 0);
    acc := seq(|points|, _ => seq(k, _ => Fin(0.0)));
    for i := 0 to n
      invariant |labels| == n
      invariant forall i' :: 0 <= i' < i ==> labels[i'] == Nearest(points, centroids, k, i')
      invariant |counts| == k
      invariant forall j :: 0 <= j < k ==> counts[j] == CountOf(labels[..i], j)
      invariant Shaped(acc, |points|, k)
      invariant forall d, j :: 0 <= d < |points| && 0 <= j < k ==>
                  acc[d][j] == Fin(LabelledSum(points[d], labels[..i], j))
    {
      var ci := NearestCentroid(points, centroids, k, i);
      ghost var before := labels[..i];
      labels := labels[i := ci];
      assert labels[..i + 1][..i] == before;
      counts := counts[ci := counts[ci] + 1];
      acc := AccumulatePoint(acc, points, k, i, ci);
    }
    assert labels[..n] == labels;
    assert labels == AssignLabels(points, centroids, k);
    ShapedExt(acc, Sums(points, labels, k), |points|, k);
  }

  /**
   * The update pass: each accumulator entry is divided by its cluster's count,
   * and the change flag is raised when some new coordinate fails the
   * comparison against the old one.
   */
  method UpdatePass(acc: Centroids, counts: seq<nat>, centroids: Centroids, dim: nat, k: nat,
                    compare: (Num, Num, nat) -> bool)
    returns (newC: Centroids, changed: bool)
    requires Shaped(acc, dim, k) && |counts| == k && Shaped(centroids, dim, k)
    ensures newC == UpdateCentroids(acc, counts, dim, k)
    ensures changed == Changed(compare, newC, centroids, dim, k)
  {
    ghost var target := UpdateCentroids(acc, counts, dim, k);
    newC := acc;
    changed := false;
    for d := 0 to dim
      invariant Shaped(newC, dim, k)
      invariant forall dd, j :: 0 <= dd < dim && 0 <= j < k ==>
                  newC[dd][j] == if dd < d then target[dd][j] else acc[dd][j]
      invariant changed == exists dd, j :: 0 <= dd < d && 0 <= j < k && Moved(compare, target, centroids, dim, k, dd, j)
    {
      for j := 0 to k
        invariant Shaped(newC, dim, k)
        invariant forall dd, jj :: 0 <= dd < dim && 0 <= jj < k ==>
                    newC[dd][jj] == if dd < d || (dd == d && jj < j) then target[dd][jj] else acc[dd][jj]
        invariant changed == (
                    (exists dd, jj :: 0 <= dd < d && 0 <= jj < k && Moved(compare, target, centroids, dim, k, dd, jj)) ||
                    (exists jj :: 0 <= jj < j && Moved(compare, target, centroids, dim, k, d, jj)))
      {
        newC := newC[d := newC[d][j := DivCount(newC[d][j], counts[j])]];
        assert Moved(compare, target, centroids, dim, k, d, j) == !compare(newC[d][j], centroids[d][j], Precision);
        if !changed && !compare(newC[d][j], centroids[d][j], Precision) {
          changed := true;
        }
      }
    }
    ShapedExt(newC, target, dim, k);
  }

  /** The fitter: configuration fixed at construction, result fields replaced by each fit. */
  class KMeansSeq {
    const nClusters: nat
    const maxIter: nat
    const seed: nat

    var clusterCenters: Centroids
    var labels: seq<nat>
    var nIter: nat

    constructor (nClusters: nat, maxIter: nat, seed: nat)
      ensures this.nClusters == nClusters && this.maxIter == maxIter && this.seed == seed
    {
      this.nClusters := nClusters;
      this.maxIter := maxIter;
      this.seed := seed;
      clusterCenters := [];
      labels := [];
      nIter := 0;
    }

    /**
     * Fits the observation matrix. `draws` are the k observation indices the
     * seeded generator yields; `compare` is the approximate equality test.
     */
    method Fit(points: seq<seq<real>>, draws: seq<nat>, compare: (Num, Num, nat) -> bool)
      requires WellFormed(points) && nClusters >= 1
      requires |draws| == nClusters && ValidDraws(points, draws)
      modifies this
      ensures var r := Lloyd(points, draws, maxIter, compare);
              clusterCenters == r.centers && labels == r.labels && nIter == r.nIter
      ensures nIter <= maxIter
      ensures Shaped(clusterCenters, |points|, nClusters)
      ensures |labels| == |points[0]| && forall i :: 0 <= i < |labels| ==> labels[i] < nClusters
    {
      var k := nClusters;
      var centroids := SeedCentroids(points, draws);
      ShapedExt(centroids, Seeds(points, draws), |points|, k);
      var pointLabels := Zeros(|points[0]|);
      var iter := 0;
      var changed := true;
      while changed && iter < maxIter
        invariant Fits(points, centroids, k) && |pointLabels| == |points[0]| && iter <= maxIter
        invariant Iterate(points, k, maxIter, compare, centroids, pointLabels, iter, changed)
                  == Lloyd(points, draws, maxIter, compare)
        decreases maxIter - iter
      {
        iter := iter + 1;
        var counts, acc;
        ghost var from := centroids;
        pointLabels, counts, acc := AssignPass(points, centroids, k, pointLabels);
        centroids, changed := UpdatePass(acc, counts, centroids, |points|, k, compare);
        RoundCentroids(points, from, k, compare, 0, 0);
        AssignLabelsInRange(points, from, k);
      }
      clusterCenters := centroids;
      labels := pointLabels;
      nIter := iter;
      LloydBounds(points, draws, maxIter, compare);
      LloydLabels(points, draws, maxIter, compare);
    }
  }
}
