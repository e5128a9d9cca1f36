/**
 * The browser's local storage as the app uses it: one record per calendar day
 * (stored under the key `fitfuel_<date>`), holding that day's ledger.
 * Days are day numbers; the record is the entry sequence itself.
 */
module Store {
  import opened Entries
  import opened Aggregate

  /** A calendar day, as a day number. */
  type Day = int

  /** Every day's stored record. */
  type Records = map<Day, seq<FoodEntry>>

  /** Every stored ledger has unique ids. */
  predicate RecordsValid(store: Records)
  {
    forall d :: d in store ==> UniqueIds(store[d])
  }

  /** Reads a day's ledger; a day with no record reads as the empty ledger. */
  function LoadDay(store: Records, d: Day): (r: seq<FoodEntry>)
    ensures d in store ==> r == store[d]
    ensures d !in store ==> r == []
  {
    if d in store then store[d] else []
  }

  /** Writes a day's ledger, replacing whatever was stored for that day. */
  function SaveDay(store: Records, d: Day, s: seq<FoodEntry>): (r: Records)
    ensures r.Keys == store.Keys + {d}
    ensures r[d] == s
    ensures forall e :: e in store && e != d ==> r[e] == store[e]
  {
    store[d := s]
  }

  /**
   * A day's stored calorie total, 0 for a day with no record: the total of
   * the ledger that loading the day gives.
   */
  function DayTotal(store: Records, d: Day): (r: int)
    ensures d !in store ==> r == 0
    ensures r == TotalCalories(LoadDay(store, d))
  {
    if d in store then TotalCalories(store[d]) else 0
  }

  /** Loading after a save returns what was saved; other days read as before. */
  lemma LoadAfterSave(store: Records, d: Day, s: seq<FoodEntry>, e: Day)
    ensures LoadDay(SaveDay(store, d, s), e) == if e == d then s else LoadDay(store, e)
  {
  }

  /** Saving the same ledger twice leaves the same records as saving it once. */
  lemma SaveTwice(store: Records, d: Day, s: seq<FoodEntry>)
    ensures SaveDay(SaveDay(store, d, s), d, s) == SaveDay(store, d, s)
  {
  }

  /**
   * Writing back what was just loaded changes no day's ledger as read: at
   * most it turns a missing record into an empty one.
   */
  lemma SaveLoaded(store: Records, d: Day, e: Day)
    ensures LoadDay(SaveDay(store, d, LoadDay(store, d)), e) == LoadDay(store, e)
  {
  }

  /** Saving a ledger with unique ids keeps every record's ids unique. */
  lemma SaveKeepsValid(store: Records, d: Day, s: seq<FoodEntry>)
    requires RecordsValid(store) && UniqueIds(s)
    ensures RecordsValid(SaveDay(store, d, s))
  {
  }
}
