/**
 * Goal-relative figures shown beside the daily total: the calories left in the
 * budget (the second slice of the donut chart) and the percentage of the goal.
 */
module Goal {

  /** `Math.max(0, goal - total)`: what is left of the goal, never negative. */
  function Remaining(goal: int, total: int): (r: int)
    ensures r >= 0 && r >= goal - total
    ensures r == 0 || r == goal - total
    ensures total <= goal ==> r == goal - total
    ensures total >= goal ==> r == 0
  {
    if goal - total > 0 then goal - total else 0
  }

  /**
   * `Math.round(total / goal * 100)` for a positive goal: the whole number
   * nearest to 100 * total / goal, halves rounded up.
   */
  function PercentOfGoal(total: int, goal: int): (r: int)
    requires goal > 0
    ensures 2 * goal * r <= 200 * total + goal < 2 * goal * (r + 1)
  {
    var x, d := 200 * total + goal, 2 * goal;
    assert x == d * (x / d) + x % d && 0 <= x % d < d;
    x / d
  }

  /** Half the default goal of 2500 shows as 50 percent. */
  lemma HalfOfDefaultGoal()
    ensures PercentOfGoal(1250, 2500) == 50
  {
  }
}
