# Mapty workout log — a Dafny model

Mapty lets a user click a point on a map, fill in a running or cycling
workout for that point, and keep the list of workouts in the browser's
`localStorage` across visits. This project models the two parts that carry
behaviour:

- **Workout records** (`Workouts.js`). The `Running` and `Cycling` classes
  become one datatype `Workouts.Workout` with a constructor per subclass.
  `Workouts.NewRunning` and `Workouts.NewCycling` are pure functions that
  build a record. Each computes pace (`duration / distance`) or speed
  (`distance / (duration / 60)`) and the description through
  `Workouts.Describe`. The uuid and the creation date are parameters. The
  date is reduced to its month index (0..11) and day of month.
- **The session controller** (the `App` class of `App.js`). It becomes class
  `AppController.App`. Its fields are:
  - the last map click (`#mapEvent`);
  - the last geocoded name (`#location_name`);
  - the list (`#workouts`);
  - whether the form is hidden, plus the form's type selector and its
    four inputs;
  - the browser storage, `Storage.LocalStorage`, a class over a map from key
    to a list of workout records.

  Each event handler is a method: map click, geocode reply, Escape, submit,
  reset, reload and the list click. The pure pieces are functions:
  - the `validInputs` and `allPositve` helpers;
  - the `find` lookup;
  - the decision a submit takes (`AppController.Submit`).

  `NewWorkout` is proved to return exactly what `Submit` decides.

The class invariant `App.Valid()` says three things. The in-memory list is
exactly what a fresh page would load from storage. Every workout in it is
well formed: positive distance and duration, the metric and description its
constructor computes, and a positive cadence for runs. No uuid occurs twice.
Every handler preserves the invariant. So a restart reloads the same list,
and a reset leaves it empty.

`Scenarios` drives the class through whole sessions:
- a run before and after the geocode reply;
- a ride whose address is empty;
- a name left over from an earlier click;
- the rejected inputs;
- a submit before any click;
- a restart;
- a reset.

Behaviours of the code worth knowing, all modelled as the code has them:
- **Unresolved name.** A name that was never resolved is `undefined`, which
  is not `''`. The description then reads "Running in undefined", not the
  date form. Only an empty-string name selects "on <Month> <day>"
  (Workouts.js:14).
- **Stale names.** A geocode reply is applied whenever it arrives. It is
  never discarded for belonging to an earlier click, and `#location_name` is
  never cleared. A workout can therefore carry the name of an earlier point
  (App.js:58, 246).
- **Escape.** Escape blanks the inputs and hides the form. It keeps
  `#mapEvent` (App.js:22-27).
- **Corrupt storage.** A corrupt stored entry is not read as an empty list.
  `JSON.parse` throws, and nothing catches it (App.js:218).
- **Empty results.** A geocode reply with an empty `results` array throws
  inside the promise chain. `.catch` logs it, and the name stays as it was. A
  first result without `formatted_address` sets the name to `undefined`
  (App.js:245-249).
- **Reset with nothing to clear.** `reset` does nothing when the list is
  empty, even if storage holds an entry (App.js:233-235).

## Model

| member | source | states |
|---|---|---|
| `Workouts.NewRunning` | Workouts.js:18-29 | copies id, date, coords, locationName, distance, duration and cadence verbatim; type is running; pace times distance equals duration, positive for positive inputs; description is `Describe(Running, locationName, date)` |
| `Workouts.NewCycling` | Workouts.js:31-42 | copies the common fields and elevation verbatim; type is cycling; speed times duration equals 60 times distance, positive for positive inputs; description is `Describe(Cycling, locationName, date)` |
| `Workouts.NewRunningWellFormed` | Workouts.js:18-29 | a run built from positive distance, duration and cadence satisfies the record invariant (positive fields, pace, description) |
| `Workouts.NewCyclingWellFormed` | Workouts.js:31-42 | a ride built from positive distance and duration satisfies the record invariant whatever its elevation |
| `Workouts.CapitalizedTypeName` | Workouts.js:15 | the first character of "running"/"cycling" uppercased, the rest unchanged, gives "Running"/"Cycling" |
| `Workouts.DescribeNamed` | Workouts.js:14-15 | for every name other than the exact empty string, `undefined` included, the description is "<Type> in <name>" |
| `Workouts.DescribeDated` | Workouts.js:13-15 | for the empty name the description is "<Type> on <month name from the 12-name table> <day>" |
| `Workouts.DescribeShape` | Workouts.js:14-15 | every description is longer than 8 characters, begins with "Running " or "Cycling ", and its 9th character is 'i' exactly when the name is not `''` |
| `Workouts.DescriptionIgnoresMetrics` | Workouts.js:14-15 | two records of the same type, name and date get the same description whatever their distance, duration, metric, coords or id |
| `Decimal.NatToString` | Workouts.js:14 | the day rendered by the template is a non-empty string of digits without a leading zero; one digit exactly below 10 |
| `Decimal.ParseNatToString` | Workouts.js:14 | parsing the rendered day gives back the number (proved by induction) |
| `Decimal.NatToStringInjective` | Workouts.js:14 | different days render differently |
| `AppController.AllFinite` | App.js:102 | `validInputs` holds exactly when every input satisfies `Number.isFinite` |
| `AppController.AllPositive` | App.js:103 | `allPositve` holds exactly when every input is `> 0` (+Infinity included, NaN excluded) |
| `AppController.Submit` | App.js:100-151 | with no map click the handler throws; a run is accepted iff distance, duration and cadence are finite and > 0; a ride iff distance and duration are finite and > 0 and elevation is finite (any sign); a rejection is the alert text; an accepted workout has the chosen type, the id and date given, the last click's coords, the current location name, the typed values, and is well formed |
| `AppController.FindIndex` | App.js:92 | `find` returns the first workout with the id, or nothing when no workout has it |
| `AppController.FindIndexOfUniqueId` | App.js:92 | with unique ids, looking up the id of the k-th workout finds the k-th workout |
| `AppController.AppendKeepsListValid` | App.js:139 | appending a well-formed workout with a fresh id keeps the list well formed with unique ids |
| `AppController.NameAfterGeocode` | App.js:245-249 | a reply with a non-empty `results` array sets the name to the first result's `formatted_address`; any other reply leaves the name unchanged |
| `AppController.App.constructor` | App.js:14-21 | a new page starts with no click, an `undefined` name and a hidden blank form, then loads the stored list (empty when there is none), and the invariant holds |
| `AppController.App.LoadLocalStorage` | App.js:216-225 | the list becomes the stored list when the entry exists; otherwise it is left as it was |
| `AppController.App.SetLocalStorage` | App.js:226-228 | the entry `'workouts'` is overwritten with the whole list; other keys unchanged |
| `AppController.App.MapClick` | App.js:57-65 | the click is remembered as the map event and the form is shown; nothing else changes |
| `AppController.App.ReceiveGeocode` | App.js:239-250 | the name becomes `NameAfterGeocode` of the old name and the reply; nothing else changes |
| `AppController.App.EditForm` | App.js:105-112 | the type selector and the four inputs hold what the user entered; nothing else changes |
| `AppController.App.HideForm` | App.js:76-79 | the four inputs are blank and the form is hidden |
| `AppController.App.KeyDown` | App.js:22-27 | Escape (27) blanks the inputs and hides the form; any other key changes nothing; list, storage, click and name are never touched |
| `AppController.App.NewWorkout` | App.js:100-151 | the outcome is `Submit` of the form, the last click and the current name; an accepted workout is appended at the end with earlier entries unchanged, the whole list is saved under `'workouts'`, the inputs are blanked and the form hidden; a rejected or thrown submit changes nothing; the invariant is kept |
| `AppController.App.MoveToPopup` | App.js:87-99 | a click outside every entry does nothing; an id with no workout is a lookup failure; otherwise the map is centred at zoom 13 on the first workout with that id |
| `AppController.App.Reload` | App.js:237 | a reload restores the initial page state and loads the list from storage, re-establishing the invariant |
| `AppController.App.Reset` | App.js:232-238 | with an empty list nothing changes; otherwise the entry is removed, the page reloads, and the list ends empty; the invariant is kept |
| `Workouts.Info` | Workouts.js:14 | definition of the `info` part; its meaning is stated by `DescribeNamed`, `DescribeDated` and `DescribeShape` |
| `Workouts.Describe` | Workouts.js:12-16 | definition of `_setDescription`; its meaning is stated by `DescribeNamed`, `DescribeDated`, `DescribeShape` and `DescriptionIgnoresMetrics` |
| `JsValues.IsFinite` | App.js:102 | definition of `Number.isFinite` on the model's numbers; its use is stated by `AllFinite` and `Submit` |
| `JsValues.IsPositive` | App.js:103 | definition of `> 0` (NaN false, +Infinity true); its use is stated by `AllPositive` and `Submit` |
| `JsValues.Render` | Workouts.js:14 | definition of what `${name}` inserts (`undefined` renders as "undefined"); its use is stated by `DescribeNamed` |
| `AppController.FieldValue` | App.js:106-107 | definition of `+input.value` on a field (blank reads as 0); its use is stated by `Submit` |
| `Storage.Loaded` | App.js:216-225 | definition of the list `_loadLocalStorage` leaves; its meaning is stated by `LoadAfterSave` and `LoadAfterRemove` |
| `Storage.Saved` | App.js:227 | definition of the store after `setItem('workouts', …)`; its meaning is stated by `LoadAfterSave`, `SaveIdempotent` and `SaveOverwrites` |
| `Storage.Removed` | App.js:236 | definition of the store after `removeItem('workouts')`; its meaning is stated by `LoadAfterRemove` |
| `Storage.LocalStorage.GetItem` | App.js:218 | `getItem` yields a value exactly when the key is present, and then the stored list |
| `Storage.LocalStorage.SetItem` | App.js:227 | the key is mapped to the value, other keys unchanged |
| `Storage.LocalStorage.RemoveItem` | App.js:236 | the key is removed, other keys unchanged |
| `Storage.LoadAfterSave` | App.js:216-228 | loading after a save gives back the saved list |
| `Storage.SaveIdempotent` | App.js:226-228 | saving the same list twice leaves the same snapshot as saving it once |
| `Storage.SaveOverwrites` | App.js:226-228 | a save replaces any earlier snapshot completely |
| `Storage.LoadAfterRemove` | App.js:232-238 | after the entry is removed, a fresh page loads the empty list |
| `Scenarios.RunBeforeGeocode` | App.js:100-139 | a run of 5 km in 25 min submitted before any geocode reply has pace 5, the clicked coords, an `undefined` name and the description "Running in undefined" |
| `Scenarios.UnresolvedDescription` | Workouts.js:14-15 | an unresolved name gives "Running in undefined" |
| `Scenarios.RunAfterGeocode` | App.js:245-246 | after the reply "Paris, France" the run is described "Running in Paris, France" |
| `Scenarios.NamedDescription` | Workouts.js:14-15 | the name "Paris, France" gives "Running in Paris, France" |
| `Scenarios.RideWithEmptyAddress` | Workouts.js:13-15 | a ride of 20 km in 60 min whose address came back empty has speed 20 and the description "Cycling on March 5" |
| `Scenarios.DatedDescription` | Workouts.js:13-15 | the empty name on 5 March gives "Cycling on March 5" |
| `Scenarios.StaleLocationName` | App.js:58-121 | after a named click, Escape, a second click whose geocode fails, and a submit, the workout sits at the second point with the first point's name |
| `Scenarios.Rejections` | App.js:111-134 | zero distance, NaN cadence, NaN elevation, negative distance and a blank form after Escape are each rejected with the alert; the list stays empty and nothing is stored |
| `Scenarios.NegativeElevation` | App.js:125-139 | a ride with elevation -5 is accepted and stored; a run with cadence +Infinity is rejected |
| `Scenarios.SubmitWithoutClick` | App.js:108 | a submit before any map click throws and adds nothing |
| `Scenarios.Restart` | App.js:216-228 | three logged workouts are loaded back, in order, by a new page on the same storage |
| `Scenarios.ResetAfterWorkout` | App.js:232-238 | a logged workout is found by its id; after `reset` the list and the storage entry are gone |
| `Scenarios.SaveTwice` | App.js:226-228 | two `_setLocalStorage` calls in a row leave the store as one does, and the invariant still holds |

## Left out

- Leaflet is left out: the map, tiles, markers, popups and `setView` are
  drawing (App.js:48-56, 152-169, 93-98). `MoveToPopup` returns where the
  map would be centred.
- `_moveToPopup` throws when the map never loaded. That case is not
  modelled.
- HTML rendering is left out: `_renderWorkout`, `toFixed`, the "Unknown
  Location" label in `_showForm`, `_toggleElevationField`, and the
  `style.display` and `setTimeout` lines of `_hideForm`. They are
  presentation.
- The geolocation promise (`_getCurrentPosition`, `_getPosition`,
  `_loadMap`, `_handleError`) and the geocoding fetch with its API key are
  I/O. Only their outcome is modelled: a map click, and a geocode reply
  that is a separate event.
- Asynchronous timing is not modelled. A reply may arrive at any point
  between other events, but nothing runs concurrently.
- `uuidv4()` and `new Date()` are foreign calls. They become parameters.
  The date keeps only month and day.
- JSON text is not modelled. Storage holds the workout records themselves.
  JSON turns the `Date` into a string and drops an `undefined` name; after
  the round trip that reads back as `undefined` again. A corrupt entry
  (`JSON.parse` throwing) is not modelled.
- Parsing `+input.value` from text is not modelled. An entered field holds
  the number that conversion yields. A blank field reads as 0.
- Numbers are reals. IEEE rounding of pace and speed is not modelled.
- The workout type has two values. A form value other than "running" or
  "cycling", which would push `undefined` (App.js:139), cannot occur.
- The page markup is not part of this model. The form is assumed to start
  hidden and blank, with "running" selected, and a reload is assumed to
  restore that.
- `location.reload()` is modelled as resetting the fields and re-running the
  load step. It is not modelled as a page lifecycle.
- script.js is an earlier prototype and is not part of this model.
- Workouts.NewRunning: requires a non-zero distance. JavaScript would divide
  by zero into Infinity or NaN, but the only caller passes a positive
  distance.
- Workouts.NewCycling: requires a non-zero duration, for the same reason.
- AppController.App.NewWorkout: requires a uuid that no workout in the list
  has, which `uuidv4` promises in practice.
- AppController.App.constructor: requires the stored entry, if any, to be a
  well-formed list with unique ids. That is what this application writes.
