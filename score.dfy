/** The daily efficiency metric (`performanceStats`): today's tasks each
    weigh `basePoints * multiplier`, earn their completion share of that
    weight, and the percentage is the earned total over the possible total,
    rounded. Scores are kept exactly, multiplied by 100, so no division
    happens until the final rounding. */
module Score {
  import opened Types
  import opened TaskList

  /** `APP_SCORE_CONFIG.multipliers[urgency] || 1`: a grade missing from the
      table, or mapped to 0, weighs 1. */
  function Multiplier(multipliers: map<Urgency, int>, u: Urgency): (m: int)
    ensures m != 0
    ensures u !in multipliers ==> m == 1
    ensures u in multipliers && multipliers[u] != 0 ==> m == multipliers[u]
  {
    if u in multipliers && multipliers[u] != 0 then multipliers[u] else 1
  }

  /** The tasks dated `today`, in store order. */
  function DatedOn(tasks: seq<Task>, today: string): (r: seq<Task>)
    ensures forall t :: multiset(r)[t] == if t.date == today then multiset(tasks)[t] else 0
  {
    Filter(tasks, (t: Task) => t.date == today)
  }

  /** The points a task of grade `u` is worth at 100%: basePoints * multiplier. */
  function Weight(basePoints: int, multipliers: map<Urgency, int>, u: Urgency): (w: int)
    ensures u !in multipliers ==> w == basePoints
    ensures SaneConfig(basePoints, multipliers) ==> w >= basePoints > 0
  {
    var m := Multiplier(multipliers, u);
    assert SaneConfig(basePoints, multipliers) ==> basePoints * 1 <= basePoints * m by {
      if SaneConfig(basePoints, multipliers) {
        MulMonotone(basePoints, 1, m);
      }
    }
    basePoints * m
  }

  /** 100 times `currentScore`: the sum of completion * basePoints * multiplier.
      It recurses on the last task so that it follows the loop's running sum. */
  function ScaledScore(ts: seq<Task>, basePoints: int, multipliers: map<Urgency, int>): (n: int)
    ensures (forall i :: 0 <= i < |ts| ==> ts[i].completionPercentage == 0) ==> n == 0
  {
    if ts == [] then 0
    else
      var t := ts[|ts| - 1];
      ScaledScore(ts[..|ts| - 1], basePoints, multipliers)
        + t.completionPercentage * Weight(basePoints, multipliers, t.urgency)
  }

  /** `maxPossibleScore`: the sum of basePoints * multiplier. */
  function MaxScore(ts: seq<Task>, basePoints: int, multipliers: map<Urgency, int>): (n: int)
    ensures SaneConfig(basePoints, multipliers) ==> n >= |ts|
  {
    if ts == [] then 0
    else
      var t := ts[|ts| - 1];
      MaxScore(ts[..|ts| - 1], basePoints, multipliers) + Weight(basePoints, multipliers, t.urgency)
  }

  /** `Math.round(n / d)` for d > 0: the nearest integer, halves upward. */
  function RoundDiv(n: int, d: int): (r: int)
    requires d > 0
    ensures d * (2 * r - 1) <= 2 * n < d * (2 * r + 1)
  {
    var q := (2 * n + d) / (2 * d);
    assert 2 * d * q <= 2 * n + d < 2 * d * q + 2 * d;
    q
  }

  /** The reported percentage, from the scaled score and the possible total. */
  function Percentage(scaled: int, max: int): (p: int)
    ensures max > 0 ==> max * (2 * p - 1) <= 2 * scaled < max * (2 * p + 1)
    ensures max <= 0 ==> p == 0
  {
    if max > 0 then RoundDiv(scaled, max) else 0
  }

  /** `current` is 100 times the source's floating `currentScore`. */
  datatype Stats = Stats(scaledCurrent: int, max: int, percentage: int)

  /** The `forEach` accumulation over today's tasks. */
  method PerformanceStats(tasks: seq<Task>, today: string, basePoints: int, multipliers: map<Urgency, int>)
    returns (s: Stats)
    ensures s.scaledCurrent == ScaledScore(DatedOn(tasks, today), basePoints, multipliers)
    ensures s.max == MaxScore(DatedOn(tasks, today), basePoints, multipliers)
    ensures s.percentage == Percentage(s.scaledCurrent, s.max)
  {
    var todayTasks := DatedOn(tasks, today);
    var current, max := 0, 0;
    for i := 0 to |todayTasks|
      invariant current == ScaledScore(todayTasks[..i], basePoints, multipliers)
      invariant max == MaxScore(todayTasks[..i], basePoints, multipliers)
    {
      var task := todayTasks[i];
      var multiplier := Multiplier(multipliers, task.urgency);
      ScoreStep(todayTasks, i, basePoints, multipliers);
      current := current + task.completionPercentage * (basePoints * multiplier);
      max := max + basePoints * multiplier;
    }
    assert todayTasks[..|todayTasks|] == todayTasks;
    s := Stats(current, max, if max > 0 then RoundDiv(current, max) else 0);
  }

  /** One more task extends both running sums by its own terms. */
  lemma ScoreStep(ts: seq<Task>, i: nat, basePoints: int, multipliers: map<Urgency, int>)
    requires i < |ts|
    ensures ScaledScore(ts[..i + 1], basePoints, multipliers)
      == ScaledScore(ts[..i], basePoints, multipliers)
         + ts[i].completionPercentage * (basePoints * Multiplier(multipliers, ts[i].urgency))
    ensures MaxScore(ts[..i + 1], basePoints, multipliers)
      == MaxScore(ts[..i], basePoints, multipliers) + basePoints * Multiplier(multipliers, ts[i].urgency)
  {
    assert ts[..i + 1][..i] == ts[..i];
  }

  // ---------------------------------------------------------------------
  // What the metric promises

  /** The configuration the bounds need: positive base points and no
      negative multiplier. */
  predicate SaneConfig(basePoints: int, multipliers: map<Urgency, int>) {
    basePoints > 0 && forall u :: u in multipliers ==> multipliers[u] >= 0
  }

  predicate CompletionsInRange(ts: seq<Task>) {
    forall i :: 0 <= i < |ts| ==> 0 <= ts[i].completionPercentage <= 100
  }

  lemma {:induction false} ScoreWithinMax(ts: seq<Task>, basePoints: int, multipliers: map<Urgency, int>)
    requires SaneConfig(basePoints, multipliers) && CompletionsInRange(ts)
    ensures 0 <= ScaledScore(ts, basePoints, multipliers) <= 100 * MaxScore(ts, basePoints, multipliers)
    ensures ts != [] ==> MaxScore(ts, basePoints, multipliers) > 0
  {
    if ts != [] {
      var init, t := ts[..|ts| - 1], ts[|ts| - 1];
      assert CompletionsInRange(init) by {
        forall i | 0 <= i < |init| ensures 0 <= init[i].completionPercentage <= 100 {
          assert init[i] == ts[i];
        }
      }
      ScoreWithinMax(init, basePoints, multipliers);
      ShareWithinWeight(t.completionPercentage, Weight(basePoints, multipliers, t.urgency));
    }
  }

  lemma ShareWithinWeight(c: int, w: int)
    requires 0 <= c <= 100 && w > 0
    ensures 0 <= c * w <= 100 * w
  {
    MulMonotone(w, 0, c);
    MulMonotone(w, c, 100);
  }

  lemma DatedOnInRange(tasks: seq<Task>, today: string)
    requires CompletionsInRange(tasks)
    ensures CompletionsInRange(DatedOn(tasks, today))
  {
    var r := DatedOn(tasks, today);
    forall i | 0 <= i < |r| ensures 0 <= r[i].completionPercentage <= 100 {
      assert r[i] in multiset(r);
      assert r[i] in multiset(tasks);
    }
  }

  /** With every completion in 0..100 the reported percentage is in 0..100. */
  lemma PercentageInRange(tasks: seq<Task>, today: string, basePoints: int, multipliers: map<Urgency, int>)
    requires SaneConfig(basePoints, multipliers) && CompletionsInRange(tasks)
    ensures var ts := DatedOn(tasks, today);
      0 <= Percentage(ScaledScore(ts, basePoints, multipliers), MaxScore(ts, basePoints, multipliers)) <= 100
  {
    var ts := DatedOn(tasks, today);
    DatedOnInRange(tasks, today);
    ScoreWithinMax(ts, basePoints, multipliers);
    var n, d := ScaledScore(ts, basePoints, multipliers), MaxScore(ts, basePoints, multipliers);
    if d > 0 {
      RoundDivInRange(n, d);
    }
  }

  lemma RoundDivInRange(n: int, d: int)
    requires 0 <= n <= 100 * d && d > 0
    ensures 0 <= RoundDiv(n, d) <= 100
  {
    var r := RoundDiv(n, d);
    if r < 0 {
      MulMonotone(d, 2 * r + 1, -1);
    }
    if r > 100 {
      MulMonotone(d, 201, 2 * r - 1);
    }
  }

  lemma MulMonotone(d: int, a: int, b: int)
    requires d > 0 && a <= b
    ensures d * a <= d * b
  {
  }

  lemma RoundDivExact(k: int, d: int)
    requires d > 0
    ensures RoundDiv(k * d, d) == k
  {
    var r := RoundDiv(k * d, d);
    assert 2 * (k * d) == d * (2 * k);
    if r < k {
      MulMonotone(d, 2 * r + 1, 2 * k);
    }
    if r > k {
      MulMonotone(d, 2 * k + 1, 2 * r - 1);
    }
  }

  lemma {:induction false} AllDoneScoresMax(ts: seq<Task>, basePoints: int, multipliers: map<Urgency, int>)
    requires forall i :: 0 <= i < |ts| ==> ts[i].completionPercentage == 100
    ensures ScaledScore(ts, basePoints, multipliers) == 100 * MaxScore(ts, basePoints, multipliers)
  {
    if ts != [] {
      AllDoneScoresMax(ts[..|ts| - 1], basePoints, multipliers);
    }
  }

  /** When every one of today's tasks is at 100% the percentage is 100. */
  lemma AllDoneIsHundred(tasks: seq<Task>, today: string, basePoints: int, multipliers: map<Urgency, int>)
    requires SaneConfig(basePoints, multipliers)
    requires forall i :: 0 <= i < |tasks| && tasks[i].date == today ==> tasks[i].completionPercentage == 100
    requires exists i :: 0 <= i < |tasks| && tasks[i].date == today
    ensures var ts := DatedOn(tasks, today);
      Percentage(ScaledScore(ts, basePoints, multipliers), MaxScore(ts, basePoints, multipliers)) == 100
  {
    var ts := DatedOn(tasks, today);
    var k :| 0 <= k < |tasks| && tasks[k].date == today;
    assert tasks[k] in multiset(tasks);
    assert tasks[k] in multiset(ts);
    forall i | 0 <= i < |ts| ensures ts[i].completionPercentage == 100 {
      assert ts[i] in multiset(ts);
      assert ts[i] in multiset(tasks);
      var j :| 0 <= j < |tasks| && tasks[j] == ts[i];
    }
    assert CompletionsInRange(ts);
    ScoreWithinMax(ts, basePoints, multipliers);
    AllDoneScoresMax(ts, basePoints, multipliers);
    RoundDivExact(100, MaxScore(ts, basePoints, multipliers));
  }

  /** No task dated today: the percentage is 0 and nothing is divided. */
  lemma NoTasksTodayIsZero(tasks: seq<Task>, today: string, basePoints: int, multipliers: map<Urgency, int>)
    requires forall i :: 0 <= i < |tasks| ==> tasks[i].date != today
    ensures var ts := DatedOn(tasks, today);
      ts == [] && Percentage(ScaledScore(ts, basePoints, multipliers), MaxScore(ts, basePoints, multipliers)) == 0
  {
  }

  /** Two tasks today, Regular at 50% and Urgent at 100%, base points 10,
      multipliers 1, 2, 3: 35 of 40 points, reported as 88. */
  lemma WorkedExample(a: Task, b: Task, today: string)
    requires a.date == today && a.urgency == Regular && a.completionPercentage == 50
    requires b.date == today && b.urgency == Urgent && b.completionPercentage == 100
    ensures var multipliers := map[Regular := 1, Important := 2, Urgent := 3];
      var ts := DatedOn([a, b], today);
      && ScaledScore(ts, 10, multipliers) == 3500
      && MaxScore(ts, 10, multipliers) == 40
      && Percentage(ScaledScore(ts, 10, multipliers), MaxScore(ts, 10, multipliers)) == 88
  {
    var multipliers := map[Regular := 1, Important := 2, Urgent := 3];
    var ts := DatedOn([a, b], today);
    assert [a, b][1..] == [b];
    assert ts == [a, b];
    assert ts[..1] == [a] && [a][..0] == [];
    assert Multiplier(multipliers, Regular) == 1 && Multiplier(multipliers, Urgent) == 3;
    assert ScaledScore([a], 10, multipliers) == 500;
    assert MaxScore([a], 10, multipliers) == 10;
    assert RoundDiv(3500, 40) == 88;
  }
}
