# k-means clustering engine, modelled in Dafny

A model of the clustering engine of `kmeans.py`: one pass of Lloyd's k-means
algorithm and the loop that repeats it.

* **Assignment** (`assign_centers`): for every point, a scan over the centres in
  index order. The scan moves to every centre strictly closer than the best so
  far, which starts at infinity, so it ends on the first of the nearest centres.
* **Grouping** (`calculate_center_group`): one list per centre. Each point is
  appended, in data order, to the list of its centre.
* **Averaging** (`calculate_sing_avg`, `calculate_new_cents`): each group is
  replaced by the coordinate-wise mean of its points.
* **Cost** (`total_difs`): the sum of each point's distance to its assigned centre.
* **Training** (`train_points`): assign, group, average and cost, repeated until the
  cost of a pass equals the cost of the pass before. The change and the previous
  cost both start at the sentinel -1.

The project has two modules:

* `KMeansSpec` (`kmeans_spec.dfy`) holds the values and the reference
  definitions, written as functions. It also holds the lemmas about them.
* `KMeans` (`kmeans.dfy`) holds one method per core function of `kmeans.py`,
  plus `TrainStep` for the body of the training loop. Each method keeps the
  source's loops and accumulators, and its `ensures` ties the result to the
  reference definitions.

Coordinates are Dafny `real`s. The distance is a parameter
`dist: (Point, Point) -> real`. The only fact ever assumed about it is
`NonNegative(dist)`, and only where a property needs it. The assignment,
grouping and cost results hold for any such function, so they cover the
Euclidean norm that `kmeans.py` uses.

Errors are modelled as `Result` and `Outcome` values. These are the exceptions
of `kmeans.py` the model keeps:

* `EmptyGroup`: `calculate_sing_avg` reads `points[0]` (line 44), so an empty
  group raises an `IndexError`.
* `ShapeMismatch`: `point_sum += np.array(point)` (line 47) fails unless the
  point has the running sum's length or length 1. numpy broadcasts a
  one-coordinate point onto every coordinate, and the model does the same
  (`KMeansSpec.Coord`).
* `NoCenterForPoint`: with no centres, `assign_centers` gives every point
  centre 0. Then `cent_groups[0]` at line 58 raises `IndexError` on an empty
  list of groups.

Two behaviours of the code shape the error model:

* An empty list of centres is not an error in `assign_centers`. Every point
  gets 0 (lines 19-27). The failure comes later, in grouping.
* An empty group is an error, not a NaN centre. `calculate_sing_avg` fails at
  `points[0]` (line 44), so the training step fails with the error of the first
  group that cannot be averaged. `KMeansSpec.IdenticalCentersFail`: with
  identical initial centres, every point goes to centre 0 and the pass fails.

## Model

| member | source | states |
|---|---|---|
| `KMeansSpec.NearestUpto` | kmeans.py:19-25 | after scanning `centers[..n]`, the kept index is below n (0 when n is 0). It is at least as close as every scanned centre. Every centre before it is strictly farther, because the test is a strict `<` |
| `KMeansSpec.Assign` | kmeans.py:15-29 | one entry per data point; with at least one centre, every entry names an existing centre |
| `KMeansSpec.IdenticalCentersPickFirst` | kmeans.py:19-25 | when all centres are equal, every point is assigned centre 0 |
| `KMeans.AssignCenters` | kmeans.py:15-29 | the nested scan returns one entry per point, in data order. With no centres every entry is 0; otherwise each entry is in range. Each entry is a nearest centre, and every lower index is strictly farther |
| `KMeansSpec.CostNonNegative` | kmeans.py:33-40 | for a non-negative distance, the total distance of any prefix of the data is non-negative |
| `KMeansSpec.AssignMinimizesCost` | kmeans.py:15-40 | for fixed centres, the nearest-centre assignment has a total distance no larger than that of any other in-range assignment |
| `KMeansSpec.Cost` | kmeans.py:33-40 | the reference sum over the points of their distance to the assigned centre needs every assignment in range, and it is non-negative for a non-negative distance |
| `KMeans.TotalDifs` | kmeans.py:33-40 | needs `len(asgnmts) >= len(data)` and every assignment in range. The accumulator ends as the sum over i of `dist(data[i], centers[asgnmts[i]])`, and it is non-negative for a non-negative distance |
| `KMeansSpec.GroupsUpto` | kmeans.py:53-60 | there are exactly k groups |
| `KMeansSpec.Groups` | kmeans.py:53-60 | needs every assignment in range. There are exactly k groups, and their sizes add up to the number of points |
| `KMeansSpec.GroupsCoverData` | kmeans.py:53-60 | with every assignment in range, the group sizes add up to the number of points |
| `KMeansSpec.MembersAreAssigned` | kmeans.py:57-58 | a point is in group g if and only if some data point equal to it is assigned to g |
| `KMeans.CalculateCenterGroup` | kmeans.py:53-60 | needs every assignment in range. Returns `len(centers)` groups; group g is the subsequence of the data assigned to g, in data order. The sizes add up to `len(data)` |
| `KMeansSpec.AverageIsMean` | kmeans.py:43-51 | on a non-empty list of points of one dimension, the result is defined. It has that dimension, and coordinate k is the sum of the points' k-th coordinates divided by their number |
| `KMeansSpec.AverageOfOne` | kmeans.py:43-51 | the average of a single point is that point |
| `KMeansSpec.AverageOfSquare` | kmeans.py:43-51 | the points (0,0), (2,0), (2,2), (0,2) average to (1,1) |
| `KMeansSpec.Average` | kmeans.py:43-51 | an empty list is `EmptyGroup` and nothing else is, because `points[0]` is read first. Otherwise a point numpy cannot broadcast onto a sum of the first point's length is `ShapeMismatch`, and nothing else is. A result has the first point's dimension |
| `KMeans.CalculateSingAvg` | kmeans.py:43-51 | the running-sum loop computes the average. An empty list is `EmptyGroup` and nothing else is. A point numpy cannot broadcast onto the sum is `ShapeMismatch` and nothing else is. A result has the first point's dimension |
| `KMeansSpec.NewCentsUpto` | kmeans.py:63-69 | the first n groups can be replaced if and only if each of them has an average. Then there are n centres, and centre g is the average of group g. Otherwise the error is that of the first group without an average |
| `KMeans.CalculateNewCents` | kmeans.py:63-69 | the slot-by-slot loop succeeds exactly when every group has an average. It then returns one centre per group, each the average of its group; otherwise it returns the first group's error |
| `KMeansSpec.Step` | kmeans.py:105-122 | a successful pass keeps the number of centres and yields one assignment per point |
| `KMeansSpec.StepMeaning` | kmeans.py:105-122 | a successful pass assigns each point its nearest old centre, with every index in range. Each new centre is the average of the points assigned to it. The reported cost is the total distance of the data to the new centres under that assignment, and it is non-negative for a non-negative distance |
| `KMeansSpec.IdenticalCentersFail` | kmeans.py:44-58 | with some data and two or more identical centres, every point is assigned centre 0, group 1 is empty, and the pass fails |
| `KMeansSpec.Run` | kmeans.py:99-124 | the loop under a budget, stopping after the first pass whose cost equals the previous cost (`lastDif - cost == 0`). Whatever the outcome, the number of centres is kept, and a converged pass has one assignment per point |
| `KMeansSpec.RunKeepsCenters` | kmeans.py:99-124 | whatever the starting state and budget, the loop keeps the number of centres. A converged run's cost is the total distance of its final centres under the final pass's assignment |
| `KMeansSpec.RunsAtLeastTwice` | kmeans.py:100-120 | from the sentinel -1, and for a non-negative distance, a converged loop needs a budget of two or more, and both its first and second passes succeed. The first change, -1 minus a non-negative cost, is never 0, so the first pass does not end the loop: the run equals the run started from the first pass's centres and cost with one pass fewer |
| `KMeans.TrainStep` | kmeans.py:105-116 | the body of the loop computes exactly one pass: the assignment of the old centres, the averaged groups as new centres, and `total_difs` of the new centres under that assignment. It keeps the number of centres |
| `KMeans.TrainPoints` | kmeans.py:99-124 | the while loop returns what the reference loop does. It keeps the number of centres, and a converged result's cost is `total_difs` of the returned centres under the final assignment. For a non-negative distance, convergence needs two passes and the cost is non-negative |

## Left out

- `calc_dist` (kmeans.py:10-11): the Euclidean norm needs a square root. It is the parameter `dist`, of which only non-negativity is assumed. The numpy error for points and centres of different lengths is therefore not modelled.
- `display_clusters` (kmeans.py:73-96): plotting with matplotlib, with k = 2 hardcoded; no logic to verify.
- `print(assignments)` (kmeans.py:107) and the module-level script with its sample data (kmeans.py:6-7, 126-129): input/output and sample wiring.
- Floating-point behaviour: coordinates and distances are exact reals, with no NaN, infinity or rounding. The scan's `math.inf` start is the `Infinity` bound.
- `CalculateSingAvg` does not model the integer accumulator of line 44. `np.array([0] * n)` has an integer dtype, and numpy refuses an in-place add of float coordinates into it. The model adds reals instead.
- `TrainPoints` adds an iteration budget and an `OutOfBudget` outcome that are not in the source. The loop at kmeans.py:104 tests exact equality of costs and has no termination bound. Convergence is not proved.
- `TrainPoints` also returns the final pass's assignment inside `Converged`. `train_points` returns only the centres and the cost, and keeps the assignment in its local `assignments`.
- The decrease of the cost from one pass to the next: with unsquared distances and mean updates the code does not promise it.
- `cp.deepcopy` (kmeans.py:103): Dafny sequences are values, so the caller's centres cannot be aliased.
- `CalculateNewCents` does not model that `calculate_new_cents` overwrites the caller's list of groups in place. No caller reads that list afterwards. The model writes the averages into a fresh array of centres. The three parameters the Python function never reads (`data`, `centers`, `asgnmts`) are dropped.
- Negative list indices: assignments are natural numbers, as `assign_centers` produces them, so Python's negative indexing never comes up.
- The sample run at kmeans.py:126-129: computing its clusters needs the real Euclidean norm, which the model leaves abstract.
