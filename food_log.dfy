/**
 * The food log: an in-memory list of food entries, newest first, mirrored to
 * browser storage on every change, with today's per-macro totals.
 */
module FoodLog {
  import opened Wrappers
  import opened Seqs

  /** A calendar day, counted in days since 1970-01-01 (UTC); the source stores it as "YYYY-MM-DD". */
  type Day = int

  datatype Meal = Breakfast | Lunch | Dinner | Snack

  datatype FoodEntry = FoodEntry(
    id: string,
    date: Day,
    meal: Meal,
    food: string,
    calories: real,
    protein: real,
    carbs: real,
    fat: real)

  /** The four macros: calories (kcal), protein, carbs and fat (g). */
  datatype Macros = Macros(calories: real, protein: real, carbs: real, fat: real)

  const Zero := Macros(0.0, 0.0, 0.0, 0.0)

  function Plus(a: Macros, b: Macros): Macros
  {
    Macros(a.calories + b.calories, a.protein + b.protein, a.carbs + b.carbs, a.fat + b.fat)
  }

  function MacrosOf(e: FoodEntry): Macros
  {
    Macros(e.calories, e.protein, e.carbs, e.fat)
  }

  /** No macro is below zero. */
  predicate NonNegative(m: Macros)
  {
    m.calories >= 0.0 && m.protein >= 0.0 && m.carbs >= 0.0 && m.fat >= 0.0
  }

  /** No entry has a negative amount of any macro. */
  predicate NoneNegative(entries: seq<FoodEntry>)
  {
    forall i :: 0 <= i < |entries| ==> NonNegative(MacrosOf(entries[i]))
  }

  /**
   * The macro totals of `entries`, accumulated from the first entry to the last
   * starting from all zeros, as the source's `reduce` does.
   */
  function Sum(entries: seq<FoodEntry>): Macros
  {
    if entries == [] then Zero
    else Plus(Sum(entries[..|entries| - 1]), MacrosOf(entries[|entries| - 1]))
  }

  /** When no entry has a negative amount of any macro, no total is negative. */
  lemma {:induction false} SumNonNegative(entries: seq<FoodEntry>)
    requires NoneNegative(entries)
    ensures NonNegative(Sum(entries))
  {
    if entries != [] {
      var init := entries[..|entries| - 1];
      assert NoneNegative(init) by {
        forall i | 0 <= i < |init| ensures NonNegative(MacrosOf(init[i])) {
          assert init[i] == entries[i];
        }
      }
      SumNonNegative(init);
      assert NonNegative(MacrosOf(entries[|entries| - 1]));
    }
  }

  /** Adding an entry in front adds its macros to the total. */
  lemma {:induction false} SumPrepend(e: FoodEntry, s: seq<FoodEntry>)
    ensures Sum([e] + s) == Plus(MacrosOf(e), Sum(s))
  {
    if s != [] {
      var t := [e] + s;
      assert t[..|t| - 1] == [e] + s[..|s| - 1];
      SumPrepend(e, s[..|s| - 1]);
    } else {
      assert [e] + s == [e];
      assert [e][..0] == [];
    }
  }

  /**
   * An independent reference for the totals of the entries passing `p`:
   * a right-to-left sum that counts only those entries.
   */
  function SumWhere(entries: seq<FoodEntry>, p: FoodEntry -> bool): Macros
  {
    if entries == [] then Zero
    else Plus(if p(entries[0]) then MacrosOf(entries[0]) else Zero, SumWhere(entries[1..], p))
  }

  /** The reduce over the entries a filter keeps is the sum over exactly the entries passing its test. */
  lemma {:induction false} FilterSum(entries: seq<FoodEntry>, p: FoodEntry -> bool)
    ensures Sum(Filter(entries, p)) == SumWhere(entries, p)
  {
    if entries != [] {
      var head, tail := entries[0], entries[1..];
      assert entries == [head] + tail;
      FilterSum(tail, p);
      FilterPrepend(head, tail, p);
      if p(head) {
        SumPrepend(head, Filter(tail, p));
      }
    }
  }

  // ---------------------------------------------------------------------------
  // Today's entries and totals

  function DatedOn(day: Day): FoodEntry -> bool
  {
    (e: FoodEntry) => e.date == day
  }

  /** The entries dated `today`, in list order. */
  function TodayEntries(entries: seq<FoodEntry>, today: Day): (r: seq<FoodEntry>)
    ensures forall i :: 0 <= i < |r| ==> r[i].date == today && r[i] in entries
  {
    Filter(entries, DatedOn(today))
  }

  /** The per-macro totals of today's entries. */
  function TodayTotal(entries: seq<FoodEntry>, today: Day): (r: Macros)
    ensures r == SumWhere(entries, DatedOn(today))
  {
    FilterSum(entries, DatedOn(today));
    Sum(TodayEntries(entries, today))
  }

  /**
   * Today's entries are an order-preserving subsequence of the log holding every
   * entry dated today, as often as it occurs, and nothing else.
   */
  lemma TodayEntriesExact(entries: seq<FoodEntry>, today: Day, x: FoodEntry)
    ensures SubsequenceOf(TodayEntries(entries, today), entries)
    ensures multiset(TodayEntries(entries, today))[x] ==
            if x.date == today then multiset(entries)[x] else 0
  {
    FilterIsSubsequence(entries, DatedOn(today));
    FilterCount(entries, DatedOn(today), x);
  }

  /** With no entry dated today, today's totals are all zero. */
  lemma TodayTotalEmpty(entries: seq<FoodEntry>, today: Day)
    requires forall i :: 0 <= i < |entries| ==> entries[i].date != today
    ensures TodayEntries(entries, today) == []
    ensures TodayTotal(entries, today) == Zero
  {
    FilterDropsAll(entries, DatedOn(today));
  }

  /** Prepending an entry dated today raises today's totals by exactly its macros. */
  lemma PrependTodayTotal(e: FoodEntry, entries: seq<FoodEntry>, today: Day)
    requires e.date == today
    ensures TodayEntries([e] + entries, today) == [e] + TodayEntries(entries, today)
    ensures TodayTotal([e] + entries, today) == Plus(MacrosOf(e), TodayTotal(entries, today))
  {
    FilterPrepend(e, entries, DatedOn(today));
    SumPrepend(e, TodayEntries(entries, today));
  }

  // ---------------------------------------------------------------------------
  // Adding and deleting

  /**
   * The entry form. The four numeric inputs are number fields, which report
   * either the empty string (None) or a number (Some).
   */
  datatype Draft = Draft(
    food: string,
    meal: Meal,
    calories: Option<real>,
    protein: Option<real>,
    carbs: Option<real>,
    fat: Option<real>)

  const EmptyForm := Draft("", Breakfast, None, None, None, None)

  /** The form after a successful add: as on mount, except that the chosen meal is kept. */
  function Cleared(d: Draft): (r: Draft)
    ensures r == EmptyForm.(meal := d.meal)
  {
    Draft("", d.meal, None, None, None, None)
  }

  /**
   * The entry `addEntry` builds from the form, or None when the food name or the
   * calories are empty.
   */
  function NewEntry(d: Draft, id: string, today: Day): (r: Option<FoodEntry>)
    ensures r.None? <==> d.food == [] || d.calories.None?
    ensures r.Some? ==>
      && r.value.id == id && r.value.date == today
      && r.value.meal == d.meal && r.value.food == d.food
      && r.value.calories == d.calories.value
      && (d.protein.None? ==> r.value.protein == 0.0)
      && (d.carbs.None? ==> r.value.carbs == 0.0)
      && (d.fat.None? ==> r.value.fat == 0.0)
      && (d.protein.Some? ==> r.value.protein == d.protein.value)
      && (d.carbs.Some? ==> r.value.carbs == d.carbs.value)
      && (d.fat.Some? ==> r.value.fat == d.fat.value)
  {
    if d.food == [] || d.calories.None? then None
    else Some(FoodEntry(id, today, d.meal, d.food, d.calories.value,
                        d.protein.GetOr(0.0), d.carbs.GetOr(0.0), d.fat.GetOr(0.0)))
  }

  function IdIsNot(id: string): FoodEntry -> bool
  {
    (e: FoodEntry) => e.id != id
  }

  /** The log without the entries whose id is `id`. */
  function Remove(entries: seq<FoodEntry>, id: string): (r: seq<FoodEntry>)
    ensures forall i :: 0 <= i < |r| ==> r[i].id != id && r[i] in entries
  {
    Filter(entries, IdIsNot(id))
  }

  /**
   * Deleting removes every entry with the id, keeps every other entry as often
   * as it occurs, and keeps the survivors in their original order.
   */
  lemma RemoveExact(entries: seq<FoodEntry>, id: string, x: FoodEntry)
    ensures SubsequenceOf(Remove(entries, id), entries)
    ensures multiset(Remove(entries, id))[x] == if x.id == id then 0 else multiset(entries)[x]
  {
    FilterIsSubsequence(entries, IdIsNot(id));
    FilterCount(entries, IdIsNot(id), x);
  }

  /** Deleting an id that no entry carries changes nothing. */
  lemma RemoveAbsent(entries: seq<FoodEntry>, id: string)
    requires forall i :: 0 <= i < |entries| ==> entries[i].id != id
    ensures Remove(entries, id) == entries
  {
    FilterKeepsAll(entries, IdIsNot(id));
  }

  /** Deleting a freshly added entry by its (fresh) id restores the log. */
  lemma RemoveUndoesPrepend(e: FoodEntry, entries: seq<FoodEntry>)
    requires forall i :: 0 <= i < |entries| ==> entries[i].id != e.id
    ensures Remove([e] + entries, e.id) == entries
  {
    FilterPrepend(e, entries, IdIsNot(e.id));
    RemoveAbsent(entries, e.id);
  }

  /**
   * The rice example: on a log with no entry for today, adding 200 kcal of rice
   * for lunch makes today's calories 200, and deleting it brings them back to 0.
   */
  lemma RiceScenario(entries: seq<FoodEntry>, id: string, today: Day)
    requires forall i :: 0 <= i < |entries| ==> entries[i].date != today && entries[i].id != id
    ensures NewEntry(Draft("米饭", Lunch, Some(200.0), None, None, None), id, today).Some?
    ensures var e := NewEntry(Draft("米饭", Lunch, Some(200.0), None, None, None), id, today).value;
            && TodayTotal([e] + entries, today).calories == 200.0
            && TodayTotal(Remove([e] + entries, id), today).calories == 0.0
  {
    var e := NewEntry(Draft("米饭", Lunch, Some(200.0), None, None, None), id, today).value;
    TodayTotalEmpty(entries, today);
    PrependTodayTotal(e, entries, today);
    RemoveUndoesPrepend(e, entries);
  }

  // ---------------------------------------------------------------------------
  // The component's state

  class FoodLogStore {
    /** The entries on screen, newest first. */
    var entries: seq<FoodEntry>
    /** A mirror of what the "foodEntries" storage key holds; None when it is unset. */
    var persisted: Option<seq<FoodEntry>>
    /** The entry form's current inputs. */
    var form: Draft

    /** Mounting: the list is whatever storage held, or empty. */
    constructor (stored: Option<seq<FoodEntry>>)
      ensures entries == stored.GetOr([]) && persisted == stored && form == EmptyForm
    {
      entries := stored.GetOr([]);
      persisted := stored;
      form := EmptyForm;
    }

    /** `saveEntries`: replace the list and write the same list to storage. */
    method Save(newEntries: seq<FoodEntry>)
      modifies this`entries, this`persisted
      ensures entries == newEntries && persisted == Some(entries)
    {
      entries := newEntries;
      persisted := Some(newEntries);
    }

    /**
     * `addEntry`: with a food name and calories, prepend the new entry dated
     * `today`, save, and clear the form; otherwise change nothing.
     */
    method Add(id: string, today: Day) returns (ok: bool)
      modifies this
      ensures ok <==> old(form).food != [] && old(form).calories.Some?
      ensures !ok ==> entries == old(entries) && persisted == old(persisted) && form == old(form)
      ensures ok ==> NewEntry(old(form), id, today).Some?
      ensures ok ==> && entries == [NewEntry(old(form), id, today).value] + old(entries)
                     && |entries| == |old(entries)| + 1
                     && persisted == Some(entries)
                     && form == Cleared(old(form))
      ensures ok ==> TodayTotal(entries, today) == Plus(MacrosOf(entries[0]), TodayTotal(old(entries), today))
    {
      var e := NewEntry(form, id, today);
      if e.None? {
        return false;
      }
      PrependTodayTotal(e.value, entries, today);
      Save([e.value] + entries);
      form := Cleared(form);
      ok := true;
    }

    /** `deleteEntry`: drop every entry with the id and save. */
    method Delete(id: string)
      modifies this
      ensures entries == Remove(old(entries), id) && persisted == Some(entries) && form == old(form)
      ensures (forall i :: 0 <= i < |old(entries)| ==> old(entries)[i].id != id) ==> entries == old(entries)
    {
      if forall i :: 0 <= i < |entries| ==> entries[i].id != id {
        RemoveAbsent(entries, id);
      }
      Save(Remove(entries, id));
    }
  }
}
