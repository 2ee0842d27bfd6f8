/** Sessions of the application, driven through the event handlers of
    `App` alone. Each shows, from the handlers' contracts, what one sequence
    of clicks, geocode replies and submits leaves behind. */
module Scenarios {
  import opened JsValues
  import opened Workouts
  import opened Storage
  import opened AppController

  /** A browser whose storage has no entry yet. */
  method EmptyPage() returns (store: LocalStorage, app: App)
    ensures fresh(store) && fresh(app) && app.store == store && app.Valid()
    ensures store.items == map[] && app.workouts == [] && app.mapEvent == None
    ensures app.locationName == Undefined && app.formHidden
  {
    store := new LocalStorage(map[]);
    assert Loaded(store.items, []) == [];
    app := new App(store);
  }

  const Paris: Coords := Coords(48.85, 2.35)
  const March5: Date := Date(2, 5)

  /** A run submitted before the geocode reply: pace 25 / 5 and, since the
      name is still `undefined`, the description says so. */
  method RunBeforeGeocode() returns (outcome: Submission)
    ensures outcome.Accepted? && outcome.workout.RunningWorkout?
    ensures outcome.workout.pace == 5.0 && outcome.workout.coords == Paris
    ensures outcome.workout.locationName == Undefined
    ensures outcome.workout.description == "Running in undefined"
  {
    var store, app := EmptyPage();
    app.MapClick(Paris);
    app.EditForm(Running, FormInputs(Entered(Finite(5.0)), Entered(Finite(25.0)), Entered(Finite(178.0)), Blank));
    outcome := app.NewWorkout("w1", March5);
    assert outcome.Accepted?;
    assert outcome.workout.description == Describe(Running, Undefined, March5);
    UnresolvedDescription();
  }

  lemma UnresolvedDescription()
    ensures Describe(Running, Undefined, March5) == "Running in undefined"
  {
    DescribeNamed(Running, Undefined, March5);
  }

  /** The same run after the geocoder answered. */
  method RunAfterGeocode() returns (outcome: Submission)
    ensures outcome.Accepted?
    ensures outcome.workout.description == "Running in Paris, France"
  {
    var store, app := EmptyPage();
    app.MapClick(Paris);
    app.ReceiveGeocode(Reply(Some([Place(Str("Paris, France"))])));
    app.EditForm(Running, FormInputs(Entered(Finite(5.0)), Entered(Finite(25.0)), Entered(Finite(178.0)), Blank));
    outcome := app.NewWorkout("w1", March5);
    NamedDescription();
  }

  lemma NamedDescription()
    ensures Describe(Running, Str("Paris, France"), March5) == "Running in Paris, France"
  {
    DescribeNamed(Running, Str("Paris, France"), March5);
  }

  /** A geocoder that answers with an empty address selects the date form. */
  method RideWithEmptyAddress() returns (outcome: Submission)
    ensures outcome.Accepted? && outcome.workout.CyclingWorkout?
    ensures outcome.workout.speed == 20.0
    ensures outcome.workout.description == "Cycling on March 5"
  {
    var store, app := EmptyPage();
    app.MapClick(Paris);
    app.ReceiveGeocode(Reply(Some([Place(Str(""))])));
    app.EditForm(Cycling, FormInputs(Entered(Finite(20.0)), Entered(Finite(60.0)), Blank, Entered(Finite(200.0))));
    outcome := app.NewWorkout("w1", March5);
    assert outcome.Accepted?;
    assert outcome.workout.description == Describe(Cycling, Str(""), March5);
    DatedDescription();
  }

  lemma DatedDescription()
    ensures Describe(Cycling, Str(""), March5) == "Cycling on March 5"
  {
    DescribeDated(Cycling, March5);
    assert Decimal.NatToString(5) == "5";
  }

  /** The name of an earlier click is still current at a later one whose
      geocode failed: the second workout sits at the second point but
      carries the first point's name. */
  method StaleLocationName() returns (outcome: Submission)
    ensures outcome.Accepted?
    ensures outcome.workout.coords == Coords(51.5, -0.12)
    ensures outcome.workout.locationName == Str("Paris, France")
  {
    var store, app := EmptyPage();
    app.MapClick(Paris);
    app.ReceiveGeocode(Reply(Some([Place(Str("Paris, France"))])));
    app.KeyDown(EscapeKeyCode);
    app.MapClick(Coords(51.5, -0.12));
    app.ReceiveGeocode(Reply(Some([])));
    app.EditForm(Cycling, FormInputs(Entered(Finite(20.0)), Entered(Finite(60.0)), Blank, Entered(Finite(-5.0))));
    outcome := app.NewWorkout("w1", March5);
  }

  /** Rejected submits leave list and store alone: a zero distance, a NaN
      cadence, a NaN elevation, a negative distance, and a submit of the
      blank form right after Escape. */
  method Rejections() returns (zero: Submission, nanCadence: Submission, nanElevation: Submission,
                               negative: Submission, afterEscape: Submission, kept: nat, stored: bool)
    ensures zero == Rejected(ValidationAlert) && nanCadence == Rejected(ValidationAlert)
    ensures nanElevation == Rejected(ValidationAlert) && negative == Rejected(ValidationAlert)
    ensures afterEscape == Rejected(ValidationAlert)
    ensures kept == 0 && !stored
  {
    var store, app := EmptyPage();
    app.MapClick(Paris);
    app.EditForm(Running, FormInputs(Entered(Finite(0.0)), Entered(Finite(25.0)), Entered(Finite(178.0)), Blank));
    zero := app.NewWorkout("a", March5);
    app.EditForm(Running, FormInputs(Entered(Finite(5.0)), Entered(Finite(25.0)), Entered(NaN), Blank));
    nanCadence := app.NewWorkout("b", March5);
    app.EditForm(Cycling, FormInputs(Entered(Finite(5.0)), Entered(Finite(25.0)), Blank, Entered(NaN)));
    nanElevation := app.NewWorkout("c", March5);
    app.EditForm(Cycling, FormInputs(Entered(Finite(-1.0)), Entered(Finite(25.0)), Blank, Entered(Finite(10.0))));
    negative := app.NewWorkout("d", March5);
    app.KeyDown(EscapeKeyCode);
    afterEscape := app.NewWorkout("e", March5);
    kept := |app.workouts|;
    stored := WorkoutsKey in store.items;
  }

  /** A ride with a negative elevation (a descent) is accepted and saved;
      a run whose cadence is +Infinity, which is `> 0` but not finite,
      is rejected. */
  method NegativeElevation() returns (descent: Submission, infinite: Submission, kept: nat, stored: nat)
    ensures descent.Accepted? && descent.workout.CyclingWorkout? && descent.workout.elevation == -5.0
    ensures infinite == Rejected(ValidationAlert)
    ensures kept == 1 && stored == 1
  {
    var store, app := EmptyPage();
    app.MapClick(Paris);
    app.EditForm(Cycling, FormInputs(Entered(Finite(5.0)), Entered(Finite(25.0)), Blank, Entered(Finite(-5.0))));
    descent := app.NewWorkout("f", March5);
    app.EditForm(Running, FormInputs(Entered(Finite(5.0)), Entered(Finite(25.0)), Entered(PositiveInfinity), Blank));
    infinite := app.NewWorkout("g", March5);
    kept := |app.workouts|;
    stored := |store.items[WorkoutsKey]|;
  }

  /** A submit before any map click throws and changes nothing. */
  method SubmitWithoutClick() returns (outcome: Submission, kept: nat)
    ensures outcome == NoClickYet && kept == 0
  {
    var store, app := EmptyPage();
    app.EditForm(Running, FormInputs(Entered(Finite(5.0)), Entered(Finite(25.0)), Entered(Finite(178.0)), Blank));
    outcome := app.NewWorkout("w1", March5);
    kept := |app.workouts|;
  }

  /** Types a run into the form and submits it at the current click. */
  method LogRun(app: App, id: string, distance: real, duration: real, cadence: real) returns (w: Workout)
    requires app.Valid() && app.mapEvent.Some?
    requires forall i :: 0 <= i < |app.workouts| ==> app.workouts[i].id != id
    requires distance > 0.0 && duration > 0.0 && cadence > 0.0
    modifies app, app.store
    ensures app.Valid() && app.mapEvent == old(app.mapEvent)
    ensures app.workouts == old(app.workouts) + [w] && w.id == id
  {
    app.EditForm(Running, FormInputs(Entered(Finite(distance)), Entered(Finite(duration)), Entered(Finite(cadence)), Blank));
    var outcome := app.NewWorkout(id, March5);
    w := outcome.workout;
  }

  /** Three workouts, then a new page on the same storage: it loads the
      same three, in order. */
  method Restart() returns (before: seq<Workout>, after: seq<Workout>)
    ensures |before| == 3 && after == before
  {
    var store, app := EmptyPage();
    app.MapClick(Paris);
    var first := LogRun(app, "w1", 5.0, 25.0, 178.0);
    var second := LogRun(app, "w2", 10.0, 55.0, 170.0);
    var third := LogRun(app, "w3", 3.0, 18.0, 172.0);
    before := app.workouts;
    var page := new App(store);
    after := page.workouts;
  }

  /** `reset` with workouts present empties the list and the store. */
  method ResetAfterWorkout() returns (found: PopupOutcome, listed: nat, hasEntry: bool)
    ensures found == PanTo(Paris, PopupZoom)
    ensures listed == 0 && !hasEntry
  {
    var store, app := EmptyPage();
    app.MapClick(Paris);
    app.EditForm(Running, FormInputs(Entered(Finite(5.0)), Entered(Finite(25.0)), Entered(Finite(178.0)), Blank));
    var created := app.NewWorkout("w1", March5);
    found := app.MoveToPopup(Some("w1"));
    app.Reset();
    listed := |app.workouts|;
    hasEntry := WorkoutsKey in store.items;
  }

  /** Saving twice in a row leaves the store as one save does, and a fresh
      page still loads exactly the in-memory list. */
  method SaveTwice(app: App)
    requires app.Valid()
    modifies app.store
    ensures app.Valid()
    ensures app.store.items == Saved(old(app.store.items), app.workouts)
  {
    ghost var before := app.store.items;
    app.SetLocalStorage();
    app.SetLocalStorage();
    SaveIdempotent(before, app.workouts);
    LoadAfterSave(before, app.workouts, []);
  }
}
