/**
 * The seven-day calorie chart: today's point comes from the live ledger, the
 * six days before it from their stored records.
 */
module Weekly {
  import opened Entries
  import opened Store

  /** The value plotted for day `d`: the live total on `today`, the stored total otherwise. */
  function WeekPoint(store: Records, today: Day, liveTotal: int, d: Day): int
  {
    if d == today then liveTotal else DayTotal(store, d)
  }

  /**
   * Builds the chart's days (oldest first, ending at `today`) and their
   * calorie totals, one day at a time.
   */
  method WeeklyData(store: Records, today: Day, liveTotal: int) returns (labels: seq<Day>, data: seq<int>)
    ensures |labels| == 7 && |data| == 7
    ensures forall k :: 0 <= k < 7 ==> labels[k] == today - 6 + k
    ensures data[6] == liveTotal
    ensures forall k :: 0 <= k < 6 ==> data[k] == DayTotal(store, today - 6 + k)
  {
    labels, data := [], [];
    var i := 6;
    while i >= 0
      invariant -1 <= i <= 6
      invariant |labels| == 6 - i && |data| == 6 - i
      invariant forall k :: 0 <= k < 6 - i ==> labels[k] == today - 6 + k
      invariant forall k :: 0 <= k < 6 - i ==> data[k] == WeekPoint(store, today, liveTotal, today - 6 + k)
    {
      var d := today - i;
      labels := labels + [d];
      if d == today {
        data := data + [liveTotal];
      } else {
        data := data + [DayTotal(store, d)];
      }
      i := i - 1;
    }
  }

  /**
   * Saving today's ledger moves none of the six earlier points: they are read
   * from other days' records only.
   */
  lemma SaveTodayKeepsHistory(store: Records, today: Day, s: seq<FoodEntry>, k: nat)
    requires k < 6
    ensures DayTotal(SaveDay(store, today, s), today - 6 + k) == DayTotal(store, today - 6 + k)
  {
  }
}
