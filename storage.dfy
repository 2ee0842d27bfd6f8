/** The browser's `localStorage` as the application uses it: one entry,
    `'workouts'`, holding the whole list. JSON text is not modelled; an
    entry holds the list of workout records that `JSON.stringify` wrote. */
module Storage {
  import opened JsValues
  import opened Workouts

  const WorkoutsKey: string := "workouts"

  /** The store after `localStorage.setItem('workouts', JSON.stringify(ws))`. */
  function Saved(items: map<string, seq<Workout>>, ws: seq<Workout>): map<string, seq<Workout>> {
    items[WorkoutsKey := ws]
  }

  /** The store after `localStorage.removeItem('workouts')`. */
  function Removed(items: map<string, seq<Workout>>): map<string, seq<Workout>> {
    items - {WorkoutsKey}
  }

  /** The list `_loadLocalStorage` leaves behind: the stored list when there
      is an entry, otherwise the list it started from. */
  function Loaded(items: map<string, seq<Workout>>, current: seq<Workout>): seq<Workout> {
    if WorkoutsKey in items then items[WorkoutsKey] else current
  }

  /** Saving and then loading gives back the saved list. */
  lemma LoadAfterSave(items: map<string, seq<Workout>>, ws: seq<Workout>, current: seq<Workout>)
    ensures Loaded(Saved(items, ws), current) == ws
  {
  }

  /** Saving the same list twice leaves the same snapshot as saving it once. */
  lemma SaveIdempotent(items: map<string, seq<Workout>>, ws: seq<Workout>)
    ensures Saved(Saved(items, ws), ws) == Saved(items, ws)
  {
  }

  /** A later save overwrites an earlier one completely. */
  lemma SaveOverwrites(items: map<string, seq<Workout>>, ws: seq<Workout>, vs: seq<Workout>)
    ensures Saved(Saved(items, vs), ws) == Saved(items, ws)
  {
  }

  /** After the entry is removed, a fresh page (whose list starts empty)
      loads the empty list. */
  lemma LoadAfterRemove(items: map<string, seq<Workout>>)
    ensures WorkoutsKey !in Removed(items)
    ensures Loaded(Removed(items), []) == []
  {
  }

  class LocalStorage {
    var items: map<string, seq<Workout>>

    constructor (initial: map<string, seq<Workout>>)
      ensures items == initial
    {
      items := initial;
    }

    /** `localStorage.getItem(key)`, `null` being None. */
    function GetItem(key: string): (r: Option<seq<Workout>>)
      reads this
      ensures r.Some? <==> key in items
      ensures r.Some? ==> r.value == items[key]
    {
      if key in items then Some(items[key]) else None
    }

    method SetItem(key: string, value: seq<Workout>)
      modifies this
      ensures items == old(items)[key := value]
    {
      items := items[key := value];
    }

    method RemoveItem(key: string)
      modifies this
      ensures items == old(items) - {key}
    {
      items := items - {key};
    }
  }
}
