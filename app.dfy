/**
 * The app component's ledger state and the handlers that change it: loading
 * the selected day, saving it back, prepending looked-up items, and the
 * confirm-then-delete flow. The effects that the UI framework runs after a
 * render are modelled as explicit steps (`Load`, `Save`).
 */
module App {
  import opened Entries
  import opened Aggregate
  import opened Goal
  import opened Store
  import opened Weekly

  datatype Option<T> = None | Some(value: T)

  /** The daily goal the app starts with. */
  const DefaultGoal := 2500

  /** JavaScript truthiness of the pending delete id: null and 0 are falsy. */
  predicate Truthy(x: Option<Id>)
    ensures x == None ==> !Truthy(x)
    ensures x == Some(0) ==> !Truthy(x)
    ensures x.Some? && x.value != 0 ==> Truthy(x)
  {
    x.Some? && x.value != 0
  }

  class Tracker {
    var store: Records
    var selectedDate: Day
    var foodData: seq<FoodEntry>
    var isLoaded: bool
    var mealType: Meal
    var dailyGoal: int
    var itemToDelete: Option<Id>

    /** Ids are unique in the live ledger and in every stored one. */
    ghost predicate Valid()
      reads this`foodData, this`store
    {
      UniqueIds(foodData) && RecordsValid(store)
    }

    /** First render: today selected, nothing loaded yet, storage as found. */
    constructor (today: Day, persisted: Records)
      requires RecordsValid(persisted)
      ensures Valid()
      ensures store == persisted && selectedDate == today && foodData == [] && !isLoaded
      ensures mealType == Breakfast && dailyGoal == DefaultGoal && itemToDelete == None
    {
      store := persisted;
      selectedDate := today;
      foodData := [];
      isLoaded := false;
      mealType := Breakfast;
      dailyGoal := DefaultGoal;
      itemToDelete := None;
    }

    /** The load effect: the live ledger becomes the selected day's record, and saving is enabled. */
    method Load()
      requires Valid()
      modifies this`foodData, this`isLoaded
      ensures Valid()
      ensures foodData == LoadDay(store, selectedDate)
      ensures isLoaded
    {
      foodData := LoadDay(store, selectedDate);
      isLoaded := true;
    }

    /** Picking a day in the date input, followed by its load effect. */
    method SelectDate(d: Day)
      requires Valid()
      modifies this`selectedDate, this`foodData, this`isLoaded
      ensures Valid()
      ensures selectedDate == d && foodData == LoadDay(store, d) && isLoaded
    {
      selectedDate := d;
      Load();
    }

    /**
     * The save effect: once loading has happened, the selected day's record
     * is replaced by the live ledger; before that, storage is left alone.
     */
    method Save()
      requires Valid()
      modifies this`store
      ensures Valid()
      ensures isLoaded ==> store == SaveDay(old(store), selectedDate, foodData)
      ensures !isLoaded ==> store == old(store)
    {
      if isLoaded {
        SaveKeepsValid(store, selectedDate, foodData);
        store := SaveDay(store, selectedDate, foodData);
      }
    }

    /**
     * A successful lookup: the returned items, tagged with fresh ids and the
     * current meal type, go in front of the existing entries. An empty
     * result changes nothing.
     */
    method AddItems(items: seq<FoodItem>, ids: seq<Id>)
      requires Valid()
      requires |ids| == |items| && Distinct(ids)
      requires forall k :: 0 <= k < |ids| ==> ids[k] !in IdsOf(foodData)
      modifies this`foodData
      ensures Valid()
      ensures foodData == TagItems(items, ids, mealType) + old(foodData)
    {
      if |items| > 0 {
        AddKeepsUnique(items, ids, mealType, foodData);
        foodData := TagItems(items, ids, mealType) + foodData;
      }
    }

    /** The delete button: remembers which entry the confirmation is about. */
    method ConfirmDelete(id: Id)
      modifies this`itemToDelete
      ensures itemToDelete == Some(id)
    {
      itemToDelete := Some(id);
    }

    /**
     * The confirmation: with a truthy pending id, every entry carrying it is
     * filtered out and the pending id cleared; otherwise nothing changes.
     */
    method ProceedWithDelete()
      requires Valid()
      modifies this`foodData, this`itemToDelete
      ensures Valid()
      ensures Truthy(old(itemToDelete)) ==>
        foodData == RemoveId(old(foodData), old(itemToDelete).value) && itemToDelete == None
      ensures !Truthy(old(itemToDelete)) ==>
        foodData == old(foodData) && itemToDelete == old(itemToDelete)
    {
      if Truthy(itemToDelete) {
        RemoveKeepsUnique(foodData, itemToDelete.value);
        foodData := RemoveId(foodData, itemToDelete.value);
        itemToDelete := None;
      }
    }

    /** The meal selector. */
    method SetMealType(m: Meal)
      modifies this`mealType
      ensures mealType == m
    {
      mealType := m;
    }

    /** The goal input. */
    method SetGoal(g: int)
      modifies this`dailyGoal
      ensures dailyGoal == g
    {
      dailyGoal := g;
    }

    /**
     * The weekly chart as rendered: the live ledger's total stands for today,
     * whichever day is selected; earlier days come from storage.
     */
    method WeeklyStats(today: Day) returns (labels: seq<Day>, data: seq<int>)
      ensures |labels| == 7 && |data| == 7 && labels[6] == today
      ensures data[6] == TotalCalories(foodData)
      ensures forall k :: 0 <= k < 6 ==> labels[k] == today - 6 + k && data[k] == DayTotal(store, today - 6 + k)
    {
      labels, data := WeeklyData(store, today, TotalCalories(foodData));
    }

    /** The remaining slice of the donut chart. */
    function RemainingToday(): (r: int)
      reads this
      ensures r >= 0
      ensures TotalCalories(foodData) <= dailyGoal ==> r + TotalCalories(foodData) == dailyGoal
      ensures TotalCalories(foodData) >= dailyGoal ==> r == 0
    {
      Remaining(dailyGoal, TotalCalories(foodData))
    }
  }

  /**
   * A day's walk through the app: a lookup of rice logged as lunch shows 200
   * kcal, deleting it brings every total back to 0, and the saved record for
   * the day is then empty.
   */
  method RiceScenario(today: Day)
  {
    var app := new Tracker(today, map[]);
    app.Load();
    assert app.foodData == [];
    app.SetMealType(Lunch);
    var rice := FoodItem("rice", 200, 4, 45, 0, 150);
    app.AddItems([rice], [1]);
    assert app.foodData == [FoodEntry(1, rice, Lunch)];
    assert TotalCalories(app.foodData) == 200 by {
      SumSingleton(FoodEntry(1, rice, Lunch), Calories);
    }
    var labels, data := app.WeeklyStats(today);
    assert data[6] == 200;
    app.ConfirmDelete(1);
    app.ProceedWithDelete();
    assert app.foodData == [] by {
      RemoveAt([FoodEntry(1, rice, Lunch)], 0);
    }
    assert Macros(app.foodData) == MacroTotals(0, 0, 0);
    app.Save();
    assert LoadDay(app.store, today) == [];
  }
}
