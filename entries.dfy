/**
 * Food entries: the records that make up one day's ledger, and the two list
 * operations the app performs on a ledger (prepending freshly tagged lookup
 * results and filtering an entry out by id).
 */
module Entries {

  /** The values of the meal selector. */
  datatype Meal = Breakfast | Lunch | Dinner | Snack

  /** Entry ids; the app derives them from the clock plus a random fraction. */
  type Id = int

  /** One item as the nutrition lookup returns it, in whole units. */
  datatype FoodItem = FoodItem(
    name: string,
    calories: int,
    protein: int,
    carbs: int,
    fat: int,
    servingSize: int)

  /** A logged item: the lookup's fields spread into a record with an id and a meal tag. */
  datatype FoodEntry = FoodEntry(id: Id, item: FoodItem, meal: Meal)

  /** The set of ids used in a ledger. */
  function IdsOf(s: seq<FoodEntry>): set<Id>
  {
    set e | e in s :: e.id
  }

  /** No two entries of the ledger share an id. */
  predicate UniqueIds(s: seq<FoodEntry>)
  {
    forall i, j :: 0 <= i < j < |s| ==> s[i].id != s[j].id
  }

  /** No id is handed out twice. */
  predicate Distinct(ids: seq<Id>)
  {
    forall i, j :: 0 <= i < j < |ids| ==> ids[i] != ids[j]
  }

  /**
   * Tags the lookup's items, in lookup order, with the fresh ids and the
   * current meal type.
   */
  function TagItems(items: seq<FoodItem>, ids: seq<Id>, meal: Meal): (r: seq<FoodEntry>)
    requires |ids| == |items|
    ensures |r| == |items|
    ensures forall k :: 0 <= k < |r| ==> r[k].item == items[k] && r[k].id == ids[k] && r[k].meal == meal
  {
    if items == [] then []
    else [FoodEntry(ids[0], items[0], meal)] + TagItems(items[1..], ids[1..], meal)
  }

  /** Keeps the entries whose id differs from `x`, front to back. */
  function RemoveId(s: seq<FoodEntry>, x: Id): (r: seq<FoodEntry>)
    ensures |r| <= |s|
  {
    if s == [] then []
    else (if s[0].id != x then [s[0]] else []) + RemoveId(s[1..], x)
  }

  /** An entry survives removal exactly when it was there and carries another id. */
  lemma {:induction false} RemoveMembers(s: seq<FoodEntry>, x: Id, e: FoodEntry)
    ensures e in RemoveId(s, x) <==> e in s && e.id != x
  {
    if s != [] {
      RemoveMembers(s[1..], x, e);
      assert s == [s[0]] + s[1..];
    }
  }

  /** Removing an id that no entry carries leaves the ledger unchanged. */
  lemma {:induction false} RemoveAbsent(s: seq<FoodEntry>, x: Id)
    requires x !in IdsOf(s)
    ensures RemoveId(s, x) == s
  {
    if s != [] {
      assert s[0] in s;
      assert IdsOf(s[1..]) <= IdsOf(s) by {
        forall e | e in s[1..] ensures e in s { }
      }
      RemoveAbsent(s[1..], x);
      assert [s[0]] + s[1..] == s;
    }
  }

  /** Removal works piecewise: the kept entries stay in their original order. */
  lemma {:induction false} RemoveAppend(a: seq<FoodEntry>, b: seq<FoodEntry>, x: Id)
    ensures RemoveId(a + b, x) == RemoveId(a, x) + RemoveId(b, x)
  {
    if a == [] {
      assert a + b == b;
    } else {
      assert (a + b)[0] == a[0];
      assert (a + b)[1..] == a[1..] + b;
      RemoveAppend(a[1..], b, x);
    }
  }

  /**
   * In a ledger with unique ids, removing the id of entry `k` deletes exactly
   * that position and keeps every other entry in order.
   */
  lemma RemoveAt(s: seq<FoodEntry>, k: nat)
    requires UniqueIds(s) && k < |s|
    ensures RemoveId(s, s[k].id) == s[..k] + s[k + 1..]
  {
    IdOnlyAt(s, k);
    assert s == s[..k] + [s[k]] + s[k + 1..];
    RemoveSplit(s[..k], s[k], s[k + 1..]);
  }

  /** Removing the id of the one entry that carries it between two id-free runs. */
  lemma RemoveSplit(left: seq<FoodEntry>, e: FoodEntry, right: seq<FoodEntry>)
    requires e.id !in IdsOf(left) && e.id !in IdsOf(right)
    ensures RemoveId(left + [e] + right, e.id) == left + right
  {
    var x := e.id;
    assert RemoveId([e], x) == [] by {
      assert [e][1..] == [];
    }
    RemoveAbsent(left, x);
    RemoveAbsent(right, x);
    calc {
      RemoveId(left + [e] + right, x);
      { assert left + [e] + right == left + ([e] + right); }
      RemoveId(left + ([e] + right), x);
      { RemoveAppend(left, [e] + right, x); }
      RemoveId(left, x) + RemoveId([e] + right, x);
      { RemoveAppend([e], right, x); }
      left + ([] + right);
      { assert [] + right == right; }
      left + right;
    }
  }

  /** With unique ids, entry `k`'s id occurs neither before nor after it. */
  lemma IdOnlyAt(s: seq<FoodEntry>, k: nat)
    requires UniqueIds(s) && k < |s|
    ensures s[k].id !in IdsOf(s[..k]) && s[k].id !in IdsOf(s[k + 1..])
  {
  }

  /** Deleting a position keeps ids unique. */
  lemma DropKeepsUnique(s: seq<FoodEntry>, k: nat)
    requires UniqueIds(s) && k < |s|
    ensures UniqueIds(s[..k] + s[k + 1..])
  {
  }

  /** Removal keeps a ledger's ids unique. */
  lemma RemoveKeepsUnique(s: seq<FoodEntry>, x: Id)
    requires UniqueIds(s)
    ensures UniqueIds(RemoveId(s, x))
  {
    if x in IdsOf(s) {
      var e :| e in s && e.id == x;
      var k :| 0 <= k < |s| && s[k] == e;
      RemoveAt(s, k);
      DropKeepsUnique(s, k);
    } else {
      RemoveAbsent(s, x);
    }
  }

  /**
   * Prepending items tagged with distinct ids that the ledger does not use
   * keeps the ledger's ids unique.
   */
  lemma AddKeepsUnique(items: seq<FoodItem>, ids: seq<Id>, meal: Meal, s: seq<FoodEntry>)
    requires |ids| == |items| && Distinct(ids) && UniqueIds(s)
    requires forall k :: 0 <= k < |ids| ==> ids[k] !in IdsOf(s)
    ensures UniqueIds(TagItems(items, ids, meal) + s)
  {
  }
}
