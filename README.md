# Sequential k-means fitter, modelled in Dafny

This project models `KMeans_Seq::fit`. That routine runs Lloyd's k-means over a
dimension-major observation matrix `points[dim][point]`. It works in four steps:

- **Seeding.** It copies k drawn observations into the initial centroid matrix.
- **Assignment.** Each observation goes to the nearest centroid by squared
  Euclidean distance. The scan uses a `-1` sentinel and updates only on strict
  improvement, so the lowest index wins ties. The pass also keeps a count per
  cluster and a coordinate sum per cluster.
- **Update.** Each sum is divided by its count. The change flag is raised when
  some new coordinate fails the approximate comparison against the old one.
- **Outer loop.** It runs while the flag is set and `nIter < maxIter`. Then it
  stores the centroids, the labels and the iteration count.

Files:

- `numeric.dfy` (module `Numeric`) models `double` as `Num = Fin(real) | NaN`.
  Arithmetic is exact. NaN propagates through every operation, and every ordered
  comparison with NaN is false. An empty cluster's 0/0 is therefore modelled as
  NaN, not left unspecified.
- `kmeans_spec.dfy` (module `KMeansSpec`) holds the specification functions for
  one round and for the whole fit, and the lemmas about them.
- `kmeans_seq.dfy` (module `KMeansSeq`) holds the routine's loops as methods
  proved against those functions. It also holds the class `KMeansSeq`, whose
  `Fit` replaces the fields `clusterCenters`, `labels` and `nIter`.

Inputs the model takes as parameters:

- `draws`: the k observation indices produced by the seeded generator, each
  below n.
- `compare`: the base class's approximate equality, a function
  `(Num, Num, nat) -> bool`. The routine calls it with precision 3
  (`KMeansSpec.Precision`).

Two behaviours of the routine worth noting:

- With `maxIter == 0` the labels are all 0: the label vector is
  value-initialised before the loop (cluster/KMeans_Seq.cpp:23).
- The final labels are nearest-centroid labels for the centroids the last round
  started from. They are guaranteed to agree with the final centroids when the
  fit stopped before maxIter and the comparison accepts only identical values
  (`LloydConverged`). For any comparison, a fit that stopped before maxIter
  stored the nearest-centroid labels of some centroid matrix against which
  every final coordinate passes the comparison (`LloydBounds` with
  `LloydLastRound`). In general the labels and the final centroids can
  differ: `LabelsLagFinalCenters` gives observations 0, 1 and 10 with two
  clusters and maxIter 1, where the labels are [0, 1, 1] but the final centers
  0 and 5.5 are nearest for [0, 0, 1].

## Model

| member | source | states |
|---|---|---|
| KMeansSeq.SeedCentroids | cluster/KMeans_Seq.cpp:11-21 | the centroid matrix has one row per dimension and k entries per row; column c is observation `draws[c]`, in cluster order |
| KMeansSeq.SquaredDistance | cluster/KMeans_Seq.cpp:41-45 | the loop over dimensions computes `Dist`, the squared distance between observation i and centroid j |
| KMeansSpec.SqDistUpToMeaning | cluster/KMeans_Seq.cpp:41-45 | the accumulated distance is NaN exactly when some coordinate of the centroid is NaN; otherwise it equals the real sum of squared differences, which is never negative |
| KMeansSeq.NearestCentroid | cluster/KMeans_Seq.cpp:36-50 | the running-minimum scan with the -1 sentinel returns the `Nearest` label, and that label is below k |
| KMeansSpec.ScanInRange | cluster/KMeans_Seq.cpp:36-50 | over a non-empty list of distances the scan returns an index in range, and its running minimum is that index's distance |
| KMeansSpec.ScanLeavesSentinel | cluster/KMeans_Seq.cpp:36-49 | once one distance has been seen, the running minimum is never -1 again, so the `min == -1` test succeeds only for centroid 0 |
| KMeansSpec.ScanFindsFirstMin | cluster/KMeans_Seq.cpp:46-49 | with finite, non-negative distances the chosen index has the least distance, and every lower index has a strictly greater distance |
| KMeansSpec.ScanIsFirstMin | cluster/KMeans_Seq.cpp:46-49 | with finite, non-negative distances, an index is the first minimum if and only if it is the scan's choice |
| KMeansSpec.ScanNaNFirst | cluster/KMeans_Seq.cpp:46-49 | a NaN distance at index 0 stays the running minimum, so index 0 is chosen |
| KMeansSpec.ScanSkipsNaN | cluster/KMeans_Seq.cpp:46-49 | a NaN distance at a later index is never chosen |
| KMeansSpec.NearestIsFirstArgmin | cluster/KMeans_Seq.cpp:36-50 | with finite centroids, c is the label of observation i if and only if c is the lowest index among the centroids of least squared Euclidean distance |
| KMeansSpec.NaNFirstCentroidCapturesAll | cluster/KMeans_Seq.cpp:41-49 | if centroid 0 has a NaN coordinate, every observation is labelled 0 |
| KMeansSpec.NaNLaterCentroidNeverChosen | cluster/KMeans_Seq.cpp:41-49 | a centroid j > 0 with a NaN coordinate labels no observation |
| KMeansSpec.AssignLabelsInRange | cluster/KMeans_Seq.cpp:35-52 | one assignment pass gives exactly n labels, each in [0, k) |
| KMeansSeq.AccumulatePoint | cluster/KMeans_Seq.cpp:56-57 | adding an observation changes only column ci of the accumulator, by that observation's coordinates; every other cluster's entries are unchanged |
| KMeansSeq.AssignPass | cluster/KMeans_Seq.cpp:29-58 | after the pass, the labels are the nearest-centroid labels, `counts[j]` is the number of observations labelled j, and accumulator entry (d, j) is the sum of coordinate d over the observations labelled j |
| KMeansSpec.CountsTotal | cluster/KMeans_Seq.cpp:29-30 | when every label is below k, the k per-cluster counts add up to the number of labels |
| KMeansSpec.EmptyClusterSum | cluster/KMeans_Seq.cpp:31-33 | a cluster that no observation was given has a zero accumulator |
| KMeansSeq.UpdatePass | cluster/KMeans_Seq.cpp:61-68 | each new coordinate is its accumulator entry divided by the cluster's count; the change flag is true if and only if some new coordinate fails `compare` against the old one at precision 3 |
| KMeansSpec.RoundCentroids | cluster/KMeans_Seq.cpp:29-68 | after one round the counts add up to n; a non-empty cluster's new centroid is the mean of its observations; an empty cluster has a zero accumulator and NaN coordinates (0/0) |
| KMeansSpec.IterateFacts | cluster/KMeans_Seq.cpp:24-70 | the loop adds between 0 and maxIter - nIter rounds; it stops before maxIter only after a round with no change; if it runs no round the state is unchanged; otherwise the result is what one round produced from some centroid matrix |
| KMeansSpec.LloydBounds | cluster/KMeans_Seq.cpp:24-27 | the returned iteration count is at most maxIter; a count below maxIter means the last round changed nothing; with maxIter > 0 at least one round runs |
| KMeansSpec.LloydNoIterations | cluster/KMeans_Seq.cpp:23-27 | with maxIter == 0 the count is 0, the centers are exactly the seeds, and the labels are n zeros |
| KMeansSpec.LloydLabels | cluster/KMeans_Seq.cpp:72-74 | the stored result has n labels, each in [0, k), and a centroid matrix with one row per dimension and k entries per row |
| KMeansSpec.LloydLastRound | cluster/KMeans_Seq.cpp:26-70 | when at least one round ran, the stored labels, centers and flag are those of one round started from some centroid matrix |
| KMeansSpec.LloydConverged | cluster/KMeans_Seq.cpp:61-70 | if `compare` accepts only identical values and the fit stopped before maxIter, the stored labels are the nearest-centroid labels of the stored centers |
| KMeansSpec.LloydFixedPoint | cluster/KMeans_Seq.cpp:26-70 | if `compare` accepts only identical values and the fit stopped before maxIter, one more round from the stored centers gives back the stored labels and centers and reports no change |
| KMeansSpec.TolerantStopNotFixedPoint | cluster/KMeans_Seq.cpp:26-70 | with a `compare` that accepts every pair, on observations 0, 1, 10 seeded from the first two, the fit stops after one round at centers 0 and 5.5, and one more round would move them to 0.5 and 10 |
| KMeansSpec.LabelsLagFinalCenters | cluster/KMeans_Seq.cpp:26-74 | on observations 0, 1, 10 seeded from the first two with maxIter 1, one round runs and stores labels [0, 1, 1] and centers 0 and 5.5, whose nearest-centroid labels are [0, 0, 1] |
| KMeansSeq.KMeansSeq.constructor | cluster/KMeans_Seq.cpp:3 | stores the cluster count, the iteration bound and the seed |
| KMeansSeq.KMeansSeq.Fit | cluster/KMeans_Seq.cpp:5-77 | the stored centers, labels and iteration count are those of `Lloyd` on the seeds; the count is at most maxIter; the labels are n values in [0, k) |

## Left out

- The random generator (`std::mt19937` with `uniform_real_distribution`, cast to
  an index) is library code. Its k draws are the parameter `draws`, each
  required to be below n. The distribution can, by rounding, return n itself;
  the model excludes that case by the same requirement.
- `compare(a, b, 3)` belongs to the base class, which is not part of this
  model. It is the parameter `compare`, about which nothing is assumed except
  in `LloydConverged` and `LloydFixedPoint` (it accepts only identical values)
  and in the counterexample `TolerantStopNotFixedPoint` (it accepts every pair).
- LloydFixedPoint: idempotence under convergence (one more round changes no
  centroid) is proved only for a comparison that accepts identical values
  alone. With a tolerant comparison the centroids at which the fit stopped need
  not be a fixed point: `TolerantStopNotFixedPoint` gives a fit that stops at
  centers 0 and 5.5 although the next round would move them to 0.5 and 10.
- Floating point beyond NaN is not modelled: no rounding, overflow or
  infinities. Arithmetic on finite values is exact. Division by a zero count
  gives NaN. The routine reaches that division only with a zero accumulator
  (`EmptyClusterSum`), where IEEE 754 also gives NaN.
- Observations are exact reals. NaN or infinite input coordinates are not
  modelled.
- The cluster count and the iteration bound are `int` in the source and `nat`
  here. A negative bound would run no round, just like 0. The model requires a
  cluster count of at least 1. The routine accepts a smaller count only when no
  round runs (maxIter <= 0): with 0 or a negative count it seeds nothing and
  returns one empty row per dimension, n zero labels and an iteration count of
  0. When at least one round runs, a count of 0 makes line 53 index an empty
  counter vector, and a negative count makes the counter vector's construction
  at line 29 throw `length_error`. None of these cases is modelled.
- The per-cluster counters are `unsigned int` in the source. Their wrap-around
  past 2^32 observations is not modelled.
- The base class's accessors only read stored fields. `Fit` returns nothing,
  whereas the source returns `this` so that callers can chain calls.
- The local vectors are modelled as sequences that the methods reassign
  element by element, not as arrays. Sharing between them is therefore not
  modelled, but the source copies them by value anyway.
- No claim of convergence or of a decreasing cost is made; the routine
  promises neither.
