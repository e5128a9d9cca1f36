/**
 * The daily aggregates the app derives from the live ledger on every render:
 * the calorie total, the protein/carbs/fat sums, and the series plotted on the
 * "session trend" line chart.
 */
module Aggregate {
  import opened Entries

  /** The four measurements the app adds up. */
  datatype Nutrient = Calories | Protein | Carbs | Fat

  function Amount(e: FoodEntry, n: Nutrient): int
  {
    match n
    case Calories => e.item.calories
    case Protein => e.item.protein
    case Carbs => e.item.carbs
    case Fat => e.item.fat
  }

  /**
   * Sum of one measurement, folded from the front like `reduce` with seed 0:
   * 0 for the empty ledger, and never negative when no amount is.
   */
  function Sum(s: seq<FoodEntry>, n: Nutrient): (r: int)
    ensures s == [] ==> r == 0
    ensures (forall k :: 0 <= k < |s| ==> Amount(s[k], n) >= 0) ==> r >= 0
  {
    if s == [] then 0 else Sum(s[..|s| - 1], n) + Amount(s[|s| - 1], n)
  }

  /** The ledger's calorie total: 0 when empty, the entry's calories for one entry. */
  function TotalCalories(s: seq<FoodEntry>): (r: int)
    ensures s == [] ==> r == 0
    ensures |s| == 1 ==> r == s[0].item.calories
    ensures (forall k :: 0 <= k < |s| ==> s[k].item.calories >= 0) ==> r >= 0
  {
    assert |s| == 1 ==> s[..0] == [];
    Sum(s, Calories)
  }

  /** Sums distribute over concatenation of ledgers. */
  lemma {:induction false} SumAppend(a: seq<FoodEntry>, b: seq<FoodEntry>, n: Nutrient)
    ensures Sum(a + b, n) == Sum(a, n) + Sum(b, n)
  {
    if b == [] {
      assert a + b == a;
    } else {
      var b' := b[..|b| - 1];
      assert (a + b)[..|a + b| - 1] == a + b';
      SumAppend(a, b', n);
    }
  }

  /** Sum of a one-entry ledger. */
  lemma SumSingleton(e: FoodEntry, n: Nutrient)
    ensures Sum([e], n) == Amount(e, n)
  {
  }

  /** The sum starting at the head entry: the order of the fold does not matter. */
  lemma SumFront(s: seq<FoodEntry>, n: Nutrient)
    requires s != []
    ensures Sum(s, n) == Amount(s[0], n) + Sum(s[1..], n)
  {
    assert s == [s[0]] + s[1..];
    SumAppend([s[0]], s[1..], n);
    SumSingleton(s[0], n);
  }

  /**
   * Deleting an entry of a ledger with unique ids lowers each sum by exactly
   * that entry's amount.
   */
  lemma RemoveLowersSum(s: seq<FoodEntry>, k: nat, n: Nutrient)
    requires UniqueIds(s) && k < |s|
    ensures Sum(RemoveId(s, s[k].id), n) == Sum(s, n) - Amount(s[k], n)
  {
    RemoveAt(s, k);
    assert s == s[..k] + [s[k]] + s[k + 1..];
    SumAppend(s[..k] + [s[k]], s[k + 1..], n);
    SumAppend(s[..k], [s[k]], n);
    SumAppend(s[..k], s[k + 1..], n);
    SumSingleton(s[k], n);
  }

  /** The protein, carbohydrate and fat totals, the accumulator of the macros fold. */
  datatype MacroTotals = MacroTotals(p: int, c: int, f: int)

  /**
   * One fold over the ledger that adds all three macros at once; field by
   * field it yields the sum of that macro.
   */
  function Macros(s: seq<FoodEntry>): (r: MacroTotals)
    ensures r == MacroTotals(Sum(s, Protein), Sum(s, Carbs), Sum(s, Fat))
  {
    if s == [] then MacroTotals(0, 0, 0)
    else
      var acc := Macros(s[..|s| - 1]);
      var item := s[|s| - 1].item;
      MacroTotals(acc.p + item.protein, acc.c + item.carbs, acc.f + item.fat)
  }

  /** The entries' calories, in stored order. */
  function CaloriesOf(s: seq<FoodEntry>): seq<int>
  {
    seq(|s|, k requires 0 <= k < |s| => s[k].item.calories)
  }

  /**
   * One step of the trend reducer: it appends `(a[i] || 0) + c`; index `i` is
   * read from the accumulator, and a missing element reads as 0.
   */
  function TrendStep(a: seq<int>, c: int, i: int): (r: seq<int>)
    ensures |r| == |a| + 1 && r[..|a|] == a
    ensures i == |a| ==> r == a + [c]
  {
    a + [(if 0 <= i < |a| then a[i] else 0) + c]
  }

  /**
   * The trend reducer run over a list of calorie values, with seed []. Because
   * the accumulator has exactly `i` elements when `a[i]` is read, the reducer
   * never sees a previous point: it copies its input.
   */
  function TrendFold(cs: seq<int>): (r: seq<int>)
    ensures r == cs
  {
    if cs == [] then []
    else
      var r := TrendStep(TrendFold(cs[..|cs| - 1]), cs[|cs| - 1], |cs| - 1);
      assert cs[..|cs| - 1] + [cs[|cs| - 1]] == cs;
      r
  }

  /**
   * The trend series as the code computes it: a leading 0, then each entry's
   * own calories in stored order, not a running sum.
   */
  function TrendSeries(s: seq<FoodEntry>): (r: seq<int>)
    ensures |r| == |s| + 1 && r[0] == 0
    ensures forall k :: 0 <= k < |s| ==> r[k + 1] == s[k].item.calories
  {
    [0] + TrendFold(CaloriesOf(s))
  }

  /**
   * With two or more entries of positive calories, the last trend point falls
   * short of the day's total: the series as written is not cumulative.
   */
  lemma TrendMissesEarlierEntries(s: seq<FoodEntry>)
    requires |s| >= 2
    requires forall k :: 0 <= k < |s| ==> s[k].item.calories > 0
    ensures TrendSeries(s)[|s|] < TotalCalories(s)
  {
    var p := s[..|s| - 1];
    SumPositive(p);
  }

  /** A non-empty ledger of positive calories has a positive total. */
  lemma {:induction false} SumPositive(s: seq<FoodEntry>)
    requires s != []
    requires forall k :: 0 <= k < |s| ==> s[k].item.calories > 0
    ensures TotalCalories(s) > 0
  {
    if |s| > 1 {
      SumPositive(s[..|s| - 1]);
    } else {
      SumSingleton(s[0], Calories);
      assert s == [s[0]];
    }
  }

  /** Corrected reducer step: appends `(a[i - 1] || 0) + c`, the previous point plus `c`. */
  function RunningStep(a: seq<int>, c: int, i: int): seq<int>
  {
    a + [(if 0 <= i - 1 < |a| then a[i - 1] else 0) + c]
  }

  function RunningFold(cs: seq<int>): seq<int>
  {
    if cs == [] then [] else RunningStep(RunningFold(cs[..|cs| - 1]), cs[|cs| - 1], |cs| - 1)
  }

  /** The corrected reducer gives, at point `k`, the total of the first `k + 1` entries. */
  lemma {:induction false} RunningFoldIsPrefixTotals(s: seq<FoodEntry>)
    ensures |RunningFold(CaloriesOf(s))| == |s|
    ensures forall k :: 0 <= k < |s| ==> RunningFold(CaloriesOf(s))[k] == TotalCalories(s[..k + 1])
  {
    if s != [] {
      var n := |s|;
      var p := s[..n - 1];
      assert CaloriesOf(p) == CaloriesOf(s)[..n - 1];
      RunningFoldIsPrefixTotals(p);
      var a := RunningFold(CaloriesOf(p));
      assert RunningFold(CaloriesOf(s)) == RunningStep(a, s[n - 1].item.calories, n - 1);
      assert TotalCalories(s) == TotalCalories(p) + s[n - 1].item.calories;
      forall k | 0 <= k < n ensures RunningFold(CaloriesOf(s))[k] == TotalCalories(s[..k + 1]) {
        if k < n - 1 {
          assert RunningFold(CaloriesOf(s))[k] == a[k];
          assert s[..k + 1] == p[..k + 1];
        } else {
          assert s[..k + 1] == s;
          if n > 1 {
            assert p[..n - 1] == p;
            assert a[n - 2] == TotalCalories(p);
          } else {
            assert p == [];
          }
        }
      }
    }
  }

  /**
   * The evidently intended trend series: a leading 0, then the running calorie
   * total after each entry, ending at the day's total.
   */
  function RunningTotalSeries(s: seq<FoodEntry>): (r: seq<int>)
    ensures |r| == |s| + 1 && r[0] == 0
    ensures forall k :: 1 <= k <= |s| ==> r[k] == TotalCalories(s[..k])
    ensures r[|s|] == TotalCalories(s)
  {
    RunningFoldIsPrefixTotals(s);
    assert s[..|s|] == s;
    [0] + RunningFold(CaloriesOf(s))
  }
}
