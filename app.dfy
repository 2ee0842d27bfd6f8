/** The session controller (the `App` class of App.js): map clicks,
    geocode replies, the workout form, the list of workouts and its snapshot
    in `localStorage`. The pure pieces (the `validInputs` and `allPositve`
    helpers, the `find` lookup, the decision a submit makes) are functions;
    the event handlers are methods of class `App` that update its fields. */
module AppController {
  import opened JsValues
  import opened Workouts
  import opened Storage

  /** The message `_newWorkOut` alerts when validation fails. */
  const ValidationAlert: string := "Inputs Have to be positive numbers"

  /** `keyCode` of the Escape key. */
  const EscapeKeyCode: int := 27

  /** Zoom level `_moveToPopup` passes to `setView`. */
  const PopupZoom: nat := 13

  /** `validInputs(...inputs)`: every input satisfies `Number.isFinite`. */
  function AllFinite(xs: seq<JsNumber>): (r: bool)
    ensures r <==> forall i :: 0 <= i < |xs| ==> IsFinite(xs[i])
  {
    if xs == [] then true else IsFinite(xs[0]) && AllFinite(xs[1..])
  }

  /** `allPositve(...inputs)`: every input is `> 0`. */
  function AllPositive(xs: seq<JsNumber>): (r: bool)
    ensures r <==> forall i :: 0 <= i < |xs| ==> IsPositive(xs[i])
  {
    if xs == [] then true else IsPositive(xs[0]) && AllPositive(xs[1..])
  }

  /** A finite number greater than zero. */
  predicate PositiveFinite(n: JsNumber) {
    n.Finite? && n.value > 0.0
  }

  /** One numeric input of the form. Reading it with `+input.value` gives
      the number the user typed; an empty field reads as 0. */
  datatype Field = Blank | Entered(number: JsNumber)

  function FieldValue(f: Field): JsNumber {
    match f
    case Blank => Finite(0.0)
    case Entered(n) => n
  }

  datatype FormInputs = FormInputs(distance: Field, duration: Field, cadence: Field, elevation: Field)

  /** The four inputs after `input.value = ''`. */
  const ClearedInputs: FormInputs := FormInputs(Blank, Blank, Blank, Blank)

  /** How a submit ends: the handler throws when no map click has happened
      yet (destructuring an undefined `#mapEvent`), alerts and returns when
      validation fails, or creates a workout. */
  datatype Submission = NoClickYet | Rejected(alert: string) | Accepted(workout: Workout)

  /** The decision `_newWorkOut` takes for the selected type, the form's
      inputs, the last map click, the current location name, and the uuid
      and date the new workout would get. */
  function Submit(t: WorkoutType, inputs: FormInputs, mapEvent: Option<Coords>, locationName: JsName,
                  id: string, date: Date): (r: Submission)
    ensures mapEvent.None? ==> r == NoClickYet
    ensures t == Running ==>
      (r.Accepted? <==> mapEvent.Some? && PositiveFinite(FieldValue(inputs.distance))
                        && PositiveFinite(FieldValue(inputs.duration)) && PositiveFinite(FieldValue(inputs.cadence)))
    ensures t == Cycling ==>
      (r.Accepted? <==> mapEvent.Some? && PositiveFinite(FieldValue(inputs.distance))
                        && PositiveFinite(FieldValue(inputs.duration)) && IsFinite(FieldValue(inputs.elevation)))
    ensures mapEvent.Some? && !r.Accepted? ==> r == Rejected(ValidationAlert)
    ensures r.Accepted? ==>
      && r.workout.Type() == t && r.workout.id == id && r.workout.date == date
      && r.workout.coords == mapEvent.value && r.workout.locationName == locationName
      && r.workout.distance == FieldValue(inputs.distance).value
      && r.workout.duration == FieldValue(inputs.duration).value
      && (t == Running ==> r.workout.cadence == FieldValue(inputs.cadence).value)
      && (t == Cycling ==> r.workout.elevation == FieldValue(inputs.elevation).value)
      && WellFormed(r.workout)
  {
    if mapEvent.None? then NoClickYet
    else
      var distance, duration := FieldValue(inputs.distance), FieldValue(inputs.duration);
      match t
      case Running =>
        var cadence := FieldValue(inputs.cadence);
        var checked := [distance, duration, cadence];
        if !AllFinite(checked) || !AllPositive(checked) then
          Rejected(ValidationAlert)
        else
          assert IsFinite(checked[1]) && IsFinite(checked[2]) && IsPositive(checked[1]) && IsPositive(checked[2]);
          NewRunningWellFormed(id, date, mapEvent.value, locationName, distance.value, duration.value, cadence.value);
          Accepted(NewRunning(id, date, mapEvent.value, locationName, distance.value, duration.value, cadence.value))
      case Cycling =>
        var elevation := FieldValue(inputs.elevation);
        var checked := [distance, duration, elevation];
        var positive := [distance, duration];
        if !AllFinite(checked) || !AllPositive(positive) then
          Rejected(ValidationAlert)
        else
          assert IsFinite(checked[1]) && IsFinite(checked[2]) && IsPositive(positive[1]);
          NewCyclingWellFormed(id, date, mapEvent.value, locationName, distance.value, duration.value, elevation.value);
          Accepted(NewCycling(id, date, mapEvent.value, locationName, distance.value, duration.value, elevation.value))
  }

  /** `workouts.find(w => w.id === id)`, as the index of the element found. */
  function FindIndex(ws: seq<Workout>, id: string): (r: Option<nat>)
    ensures r.Some? ==> r.value < |ws| && ws[r.value].id == id
    ensures r.Some? ==> forall j :: 0 <= j < r.value ==> ws[j].id != id
    ensures r.None? ==> forall j :: 0 <= j < |ws| ==> ws[j].id != id
  {
    if ws == [] then None
    else if ws[0].id == id then Some(0)
    else match FindIndex(ws[1..], id)
      case None => None
      case Some(k) => Some(k + 1)
  }

  predicate UniqueIds(ws: seq<Workout>) {
    forall i, j :: 0 <= i < j < |ws| ==> ws[i].id != ws[j].id
  }

  /** Every workout is well formed and no uuid occurs twice. */
  predicate ListValid(ws: seq<Workout>) {
    (forall i :: 0 <= i < |ws| ==> WellFormed(ws[i])) && UniqueIds(ws)
  }

  /** Appending a well-formed workout with a fresh id keeps a list valid. */
  lemma AppendKeepsListValid(ws: seq<Workout>, w: Workout)
    requires ListValid(ws) && WellFormed(w)
    requires forall i :: 0 <= i < |ws| ==> ws[i].id != w.id
    ensures ListValid(ws + [w])
  {
    var vs := ws + [w];
    assert forall i :: 0 <= i < |ws| ==> vs[i] == ws[i];
  }

  /** With unique ids, looking up a workout's id finds that workout. */
  lemma FindIndexOfUniqueId(ws: seq<Workout>, k: nat)
    requires UniqueIds(ws) && k < |ws|
    ensures FindIndex(ws, ws[k].id) == Some(k)
  {
  }

  /** What `_moveToPopup` does with a click in the list: nothing when the
      click is outside every entry; a TypeError when no workout has the
      entry's id; otherwise it centres the map on that workout. */
  datatype PopupOutcome = NoWorkoutClicked | LookupFailed | PanTo(coords: Coords, zoom: nat)

  /** One element of the geocoder's `results` array; `formatted_address` may
      be missing, which reads as `undefined`. */
  datatype Place = Place(formattedAddress: JsName)

  /** How `_reverseGeoCode`'s promise settles: the fetch or the JSON parse
      fails, or a body arrives whose `results` field may be missing. */
  datatype GeocodeReply = Unreachable | Reply(results: Option<seq<Place>>)

  /** `#location_name` after the reply. Only a non-empty `results` array
      assigns it; every other reply throws inside the promise chain, which
      `.catch` logs. */
  function NameAfterGeocode(current: JsName, reply: GeocodeReply): (r: JsName)
    ensures reply.Reply? && reply.results.Some? && |reply.results.value| > 0 ==>
              r == reply.results.value[0].formattedAddress
    ensures r != current ==> reply.Reply? && reply.results.Some? && |reply.results.value| > 0
  {
    match reply
    case Reply(Some(results)) => if |results| > 0 then results[0].formattedAddress else current
    case _ => current
  }

  class App {
    /** The last map click (`#mapEvent`), None until the first one. */
    var mapEvent: Option<Coords>
    /** `#location_name`: set by a geocode reply, never cleared. */
    var locationName: JsName
    /** `#workouts` */
    var workouts: seq<Workout>
    /** Whether the form carries the class `hidden`. */
    var formHidden: bool
    /** The form's type selector and its four numeric inputs. */
    var inputType: WorkoutType
    var inputs: FormInputs
    /** The browser's `localStorage`. */
    const store: LocalStorage

    /** The in-memory list is exactly what a fresh page would load from the
        store, and every workout in it is well formed with a unique id. */
    ghost predicate Valid()
      reads this, store
    {
      Loaded(store.items, []) == workouts && ListValid(workouts)
    }

    /** `new App()`: the page starts with no click, no name, a blank hidden
        form and an empty list, then `_loadLocalStorage` runs. The store is
        required to hold only what this application wrote into it. */
    constructor (store: LocalStorage)
      requires ListValid(Loaded(store.items, []))
      ensures Valid() && this.store == store
      ensures workouts == Loaded(store.items, [])
      ensures mapEvent == None && locationName == Undefined
      ensures formHidden && inputType == Running && inputs == ClearedInputs
    {
      this.store := store;
      mapEvent := None;
      locationName := Undefined;
      workouts := [];
      formHidden := true;
      inputType := Running;
      inputs := ClearedInputs;
      new;
      LoadLocalStorage();
    }

    /** `_loadLocalStorage`: take the stored list if there is one, otherwise
        keep the current list. */
    method LoadLocalStorage()
      modifies this`workouts
      ensures workouts == Loaded(store.items, old(workouts))
    {
      var data := store.GetItem(WorkoutsKey);
      if data.None? {
        return;
      }
      workouts := data.value;
    }

    /** `_setLocalStorage`: overwrite the entry with the whole list. */
    method SetLocalStorage()
      modifies store
      ensures store.items == Saved(old(store.items), workouts)
    {
      store.SetItem(WorkoutsKey, workouts);
    }

    /** The map's click handler: remember the point and show the form.
        `_showForm` also starts `_reverseGeoCode`, whose reply arrives later
        as a call of ReceiveGeocode. */
    method MapClick(coords: Coords)
      modifies this`mapEvent, this`formHidden
      ensures mapEvent == Some(coords) && !formHidden
    {
      mapEvent := Some(coords);
      formHidden := false;
    }

    /** The state effect of `_reverseGeoCode` once its promise settles. */
    method ReceiveGeocode(reply: GeocodeReply)
      modifies this`locationName
      ensures locationName == NameAfterGeocode(old(locationName), reply)
    {
      if reply.Reply? && reply.results.Some? && |reply.results.value| > 0 {
        locationName := reply.results.value[0].formattedAddress;
      }
    }

    /** The user selects a type and types into the inputs. */
    method EditForm(t: WorkoutType, values: FormInputs)
      modifies this`inputType, this`inputs
      ensures inputType == t && inputs == values
    {
      inputType := t;
      inputs := values;
    }

    /** `_hideForm`: blank the inputs and hide the form. */
    method HideForm()
      modifies this`inputs, this`formHidden
      ensures inputs == ClearedInputs && formHidden
    {
      inputs := ClearedInputs;
      formHidden := true;
    }

    /** The form's `keydown` handler: Escape blanks the inputs and hides the
        form; any other key does nothing. */
    method KeyDown(keyCode: int)
      modifies this`inputs, this`formHidden
      ensures keyCode == EscapeKeyCode ==> inputs == ClearedInputs && formHidden
      ensures keyCode != EscapeKeyCode ==> inputs == old(inputs) && formHidden == old(formHidden)
    {
      if keyCode == EscapeKeyCode {
        inputs := ClearedInputs;
        formHidden := true;
      }
    }

    /** `_newWorkOut`, given the uuid and the date the new workout would get.
        The uuid is assumed fresh, as `uuidv4` promises. */
    method NewWorkout(id: string, date: Date) returns (outcome: Submission)
      requires Valid()
      requires forall i :: 0 <= i < |workouts| ==> workouts[i].id != id
      modifies this`workouts, this`inputs, this`formHidden, store
      ensures Valid()
      ensures outcome == Submit(inputType, old(inputs), mapEvent, locationName, id, date)
      ensures outcome.Accepted? ==>
        && workouts == old(workouts) + [outcome.workout]
        && store.items == Saved(old(store.items), workouts)
        && inputs == ClearedInputs && formHidden
      ensures !outcome.Accepted? ==>
        && workouts == old(workouts) && store.items == old(store.items)
        && inputs == old(inputs) && formHidden == old(formHidden)
    {
      outcome := Submit(inputType, inputs, mapEvent, locationName, id, date);
      if !outcome.Accepted? {
        return;
      }
      var workout := outcome.workout;
      AppendKeepsListValid(workouts, workout);
      workouts := workouts + [workout];
      HideForm();
      SetLocalStorage();
    }

    /** `_moveToPopup`, given the `data-id` of the list entry that was
        clicked (None when the click hit no entry). */
    method MoveToPopup(clickedId: Option<string>) returns (outcome: PopupOutcome)
      ensures clickedId.None? ==> outcome == NoWorkoutClicked
      ensures clickedId.Some? && FindIndex(workouts, clickedId.value).None? ==> outcome == LookupFailed
      ensures clickedId.Some? && FindIndex(workouts, clickedId.value).Some? ==>
                outcome == PanTo(workouts[FindIndex(workouts, clickedId.value).value].coords, PopupZoom)
      ensures outcome.PanTo? ==> exists i :: 0 <= i < |workouts| && workouts[i].id == clickedId.value
                                                && outcome.coords == workouts[i].coords
    {
      if clickedId.None? {
        return NoWorkoutClicked;
      }
      var found := FindIndex(workouts, clickedId.value);
      if found.None? {
        return LookupFailed;
      }
      outcome := PanTo(workouts[found.value].coords, PopupZoom);
    }

    /** `location.reload()`: a fresh page on the same storage. */
    method Reload()
      requires ListValid(Loaded(store.items, []))
      modifies this
      ensures Valid() && workouts == Loaded(store.items, [])
      ensures mapEvent == None && locationName == Undefined
      ensures formHidden && inputType == Running && inputs == ClearedInputs
    {
      mapEvent := None;
      locationName := Undefined;
      workouts := [];
      formHidden := true;
      inputType := Running;
      inputs := ClearedInputs;
      LoadLocalStorage();
    }

    /** `reset`: with an empty list nothing happens; otherwise the entry is
        removed and the page reloads, which leaves the list empty. */
    method Reset()
      requires Valid()
      modifies this, store
      ensures Valid() && workouts == []
      ensures old(workouts) == [] ==> unchanged(this) && store.items == old(store.items)
      ensures old(workouts) != [] ==>
        && store.items == Removed(old(store.items))
        && mapEvent == None && locationName == Undefined
        && formHidden && inputType == Running && inputs == ClearedInputs
    {
      if |workouts| == 0 {
        return;
      }
      store.RemoveItem(WorkoutsKey);
      Reload();
    }
  }
}
