/**
 The clustering engine of kmeans.py as the loops it is written with. Each
 method is proved against the reference definitions of KMeansSpec.
 */
module KMeans {
  import opened KMeansSpec

  /**
   assign_centers: for each point, scan the centres in order and move to
   every centre strictly closer than the best so far (which starts at
   infinity), so the scan ends on the first of the nearest centres.
   */
  method AssignCenters(data: seq<Point>, centers: seq<Point>, dist: Distance) returns (asg: seq<nat>)
    ensures asg == Assign(data, centers, dist)
    ensures |asg| == |data|
    ensures |centers| == 0 ==> forall i :: 0 <= i < |data| ==> asg[i] == 0
    ensures |centers| > 0 ==> forall i :: 0 <= i < |data| ==> asg[i] < |centers|
    ensures forall i, j :: 0 <= i < |data| && 0 <= j < |centers| ==>
              dist(data[i], centers[asg[i]]) <= dist(data[i], centers[j])
    ensures forall i, j :: 0 <= i < |data| && 0 <= j < asg[i] ==>
              dist(data[i], centers[asg[i]]) < dist(data[i], centers[j])
  {
    asg := [];
    for pointInd := 0 to |data|
      invariant |asg| == pointInd
      invariant forall i :: 0 <= i < pointInd ==> asg[i] == Nearest(data[i], centers, dist)
    {
      var point := data[pointInd];
      var cent := 0;
      var minDist := Infinity;
      for centInd := 0 to |centers|
        invariant cent == NearestUpto(point, centers, dist, centInd)
        invariant centInd == 0 ==> minDist == Infinity
        invariant centInd > 0 ==> minDist == Finite(dist(point, centers[cent]))
      {
        var curDist := dist(point, centers[centInd]);
        if Below(curDist, minDist) {
          cent := centInd;
          minDist := Finite(curDist);
        }
      }
      asg := asg + [cent];
    }
  }

  /** total_difs: accumulate each point's distance to its assigned centre. */
  method TotalDifs(data: seq<Point>, centers: seq<Point>, asgnmts: seq<nat>, dist: Distance) returns (cumSum: real)
    requires ValidAssignment(asgnmts, |data|, |centers|)
    ensures cumSum == Cost(data, centers, asgnmts, dist)
    ensures NonNegative(dist) ==> cumSum >= 0.0
  {
    cumSum := 0.0;
    for pointInd := 0 to |data|
      invariant cumSum == CostUpto(data, centers, asgnmts, dist, pointInd)
    {
      cumSum := cumSum + dist(data[pointInd], centers[asgnmts[pointInd]]);
    }
    CostNonNegative(data, centers, asgnmts, dist, |data|);
  }

  /**
   calculate_sing_avg: add every point onto a running sum of the first
   point's length, then divide by the number of points.
   */
  method CalculateSingAvg(points: seq<Point>) returns (r: Result<Point>)
    ensures r == Average(points)
    ensures r == Err(EmptyGroup) <==> |points| == 0
    ensures r == Err(ShapeMismatch) <==>
              |points| > 0 && exists j :: 0 <= j < |points| && !Broadcasts(points[j], |points[0]|)
    ensures r.Ok? ==> |r.value| == |points[0]|
  {
    if |points| == 0 {
      return Err(EmptyGroup);
    }
    var d := |points[0]|;
    var pointSum := new real[d](_ => 0.0);
    for j := 0 to |points|
      invariant forall i :: 0 <= i < j ==> Broadcasts(points[i], d)
      invariant forall k :: 0 <= k < d ==> pointSum[k] == CoordSumUpto(points, k, j)
    {
      var point := points[j];
      if !Broadcasts(point, d) {
        return Err(ShapeMismatch);
      }
      for k := 0 to d
        invariant forall m :: 0 <= m < k ==> pointSum[m] == CoordSumUpto(points, m, j + 1)
        invariant forall m :: k <= m < d ==> pointSum[m] == CoordSumUpto(points, m, j)
      {
        pointSum[k] := pointSum[k] + Coord(point, k);
      }
    }
    var n := |points| as real;
    var sum := pointSum[..];
    r := Ok(seq(d, k requires 0 <= k < d => sum[k] / n));
    assert !exists j :: 0 <= j < |points| && !Broadcasts(points[j], d);
    assert r.value == Average(points).value;
  }

  /**
   calculate_center_group: start from one empty group per centre and append
   every point, in data order, to the group of its centre.
   */
  method CalculateCenterGroup(data: seq<Point>, centers: seq<Point>, asgnmts: seq<nat>) returns (centGroups: seq<seq<Point>>)
    requires ValidAssignment(asgnmts, |data|, |centers|)
    ensures |centGroups| == |centers|
    ensures centGroups == Groups(data, asgnmts, |centers|)
    ensures TotalSize(centGroups) == |data|
  {
    centGroups := seq(|centers|, _ => []);
    for pointInd := 0 to |data|
      invariant |centGroups| == |centers|
      invariant forall g :: 0 <= g < |centers| ==> centGroups[g] == MembersUpto(data, asgnmts, g, pointInd)
    {
      var g := asgnmts[pointInd];
      centGroups := centGroups[g := centGroups[g] + [data[pointInd]]];
    }
    assert centGroups == GroupsUpto(data, asgnmts, |centers|, |data|);
    GroupsCoverData(data, asgnmts, |centers|, |data|);
  }

  /**
   calculate_new_cents: replace each group, in order, by its average; the
   first group that cannot be averaged stops the pass.
   */
  method CalculateNewCents(centGroups: seq<seq<Point>>) returns (r: Result<seq<Point>>)
    ensures r == NewCents(centGroups)
    ensures r.Ok? <==> forall g :: 0 <= g < |centGroups| ==> Average(centGroups[g]).Ok?
    ensures r.Ok? ==>
              && |r.value| == |centGroups|
              && forall g :: 0 <= g < |centGroups| ==> Average(centGroups[g]) == Ok(r.value[g])
  {
    var slots := new Point[|centGroups|](_ => []);
    for groupInd := 0 to |centGroups|
      invariant NewCentsUpto(centGroups, groupInd) == Ok(slots[..groupInd])
    {
      var avg := CalculateSingAvg(centGroups[groupInd]);
      if avg.Err? {
        return Err(avg.error);
      }
      slots[groupInd] := avg.value;
      assert slots[..groupInd + 1] == slots[..groupInd] + [avg.value];
    }
    assert slots[..|centGroups|] == slots[..];
    return Ok(slots[..]);
  }

  /**
   The body of the loop in train_points: assign, group, replace each group by
   its average, and the total distance to the new centres under the assignment.
   */
  method TrainStep(data: seq<Point>, curCenters: seq<Point>, dist: Distance) returns (r: Result<Iteration>)
    ensures r == Step(data, curCenters, dist)
    ensures r.Ok? ==>
              && |r.value.centers| == |curCenters|
              && r.value.assignments == Assign(data, curCenters, dist)
              && r.value.cost == Cost(data, r.value.centers, r.value.assignments, dist)
  {
    var assignments := AssignCenters(data, curCenters, dist);
    if |curCenters| == 0 && |data| > 0 {
      return Err(NoCenterForPoint);
    }
    var centGroups := CalculateCenterGroup(data, curCenters, assignments);
    var newCents := CalculateNewCents(centGroups);
    StepStages(data, curCenters, dist, assignments, newCents);
    if newCents.Err? {
      return Err(newCents.error);
    }
    var curDif := TotalDifs(data, newCents.value, assignments, dist);
    r := Ok(Iteration(assignments, newCents.value, curDif));
  }

  /**
   train_points: repeat assign, group, average and cost until the change
   in cost is exactly zero, with at most `budget` passes. The change starts
   at the sentinel -1 and the previous cost at -1.
   */
  method TrainPoints(data: seq<Point>, origCenters: seq<Point>, dist: Distance, budget: nat) returns (r: Outcome)
    ensures r == Run(data, origCenters, -1.0, dist, budget)
    ensures r.OutOfBudget? ==> |r.centers| == |origCenters|
    ensures r.Converged? ==>
              && |r.final.centers| == |origCenters|
              && ValidAssignment(r.final.assignments, |data|, |origCenters|)
              && r.final.cost == Cost(data, r.final.centers, r.final.assignments, dist)
    ensures NonNegative(dist) && r.Converged? ==> budget >= 2 && r.final.cost >= 0.0
  {
    ghost var spec := Run(data, origCenters, -1.0, dist, budget);
    var difChange := -1.0;
    var lastDif := -1.0;
    var curCenters := origCenters;
    var assignments: seq<nat> := [];
    var left := budget;
    r := OutOfBudget(curCenters, lastDif);
    while difChange != 0.0
      invariant difChange != 0.0 ==> Run(data, curCenters, lastDif, dist, left) == spec
      invariant difChange == 0.0 ==> spec == Converged(Iteration(assignments, curCenters, lastDif))
      decreases left
    {
      if left == 0 {
        r := OutOfBudget(curCenters, lastDif);
        break;
      }
      RunUnfold(data, curCenters, lastDif, dist, left);
      var pass := TrainStep(data, curCenters, dist);
      if pass.Err? {
        r := Failed(pass.error);
        break;
      }
      assignments := pass.value.assignments;
      var curDif := pass.value.cost;
      assert lastDif - curDif != 0.0 ==>
               Run(data, curCenters, lastDif, dist, left) == Run(data, pass.value.centers, curDif, dist, left - 1);
      difChange := lastDif - curDif;
      lastDif := curDif;
      curCenters := pass.value.centers;
      left := left - 1;
    }
    if difChange == 0.0 {
      r := Converged(Iteration(assignments, curCenters, lastDif));
    }
    RunKeepsCenters(data, origCenters, -1.0, dist, budget);
    if NonNegative(dist) && r.Converged? {
      RunsAtLeastTwice(data, origCenters, dist, budget);
    }
  }
}
