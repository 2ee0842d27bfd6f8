/** Workout records (Workouts.js). The JavaScript classes `Running` and
    `Cycling` extend `Workout`; each constructor assigns its fields once and
    never changes them again, so a workout is a value here: one datatype with
    a constructor per subclass, built by one pure function per JavaScript
    constructor. The uuid and the creation date come from foreign calls and
    are parameters. */
module Workouts {
  import opened JsValues
  import Decimal

  /** The `type` field: the string "running" or "cycling". */
  datatype WorkoutType = Running | Cycling

  /** `[lat, lng]` */
  datatype Coords = Coords(lat: real, lng: real)

  /** `Date.prototype.getMonth()` is 0-based, `getDate()` is 1-based. */
  type MonthIndex = m: nat | m < 12
  type DayOfMonth = d: nat | 1 <= d <= 31 witness 1

  /** The part of `new Date()` that the workout uses: month and day. */
  datatype Date = Date(month: MonthIndex, day: DayOfMonth)

  datatype Workout =
    | RunningWorkout(id: string, date: Date, coords: Coords, distance: real, duration: real,
                     locationName: JsName, description: string, cadence: real, pace: real)
    | CyclingWorkout(id: string, date: Date, coords: Coords, distance: real, duration: real,
                     locationName: JsName, description: string, elevation: real, speed: real)
  {
    function Type(): WorkoutType {
      if RunningWorkout? then Running else Cycling
    }
  }

  function TypeName(t: WorkoutType): string {
    match t
    case Running => "running"
    case Cycling => "cycling"
  }

  /** The two capitalised type names a description can start with. */
  function Title(t: WorkoutType): string {
    match t
    case Running => "Running"
    case Cycling => "Cycling"
  }

  const MonthNames: seq<string> :=
    ["January", "February", "March", "April", "May", "June", "July",
     "August", "September", "October", "November", "December"]

  /** `String.prototype.toUpperCase` on one character, for the letters the
      type names use. */
  function ToUpper(c: char): char {
    if 'a' <= c <= 'z' then (c as int - 32) as char else c
  }

  /** `s[0].toUpperCase() + s.slice(1)` */
  function Capitalize(s: string): string
    requires 0 < |s|
  {
    [ToUpper(s[0])] + s[1..]
  }

  /** The `info` part of `_setDescription`: only the exact empty string
      selects the date form; anything else, `undefined` included, is
      inserted after "in ". */
  function Info(locationName: JsName, date: Date): string {
    if locationName != Str("") then "in " + Render(locationName)
    else "on " + MonthNames[date.month] + " " + Decimal.NatToString(date.day)
  }

  /** `_setDescription` */
  function Describe(t: WorkoutType, locationName: JsName, date: Date): string {
    Capitalize(TypeName(t)) + " " + Info(locationName, date)
  }

  /** `new Running(coords, locationName, distance, duration, cadence)`
      created at `date` with uuid `id`. JavaScript would divide by zero
      into Infinity or NaN; the only caller passes a positive distance. */
  function NewRunning(id: string, date: Date, coords: Coords, locationName: JsName,
                      distance: real, duration: real, cadence: real): (w: Workout)
    requires distance != 0.0
    ensures w.Type() == Running && w.RunningWorkout?
    ensures w.id == id && w.date == date && w.coords == coords && w.locationName == locationName
    ensures w.distance == distance && w.duration == duration && w.cadence == cadence
    ensures w.pace * distance == duration
    ensures distance > 0.0 && duration > 0.0 ==> w.pace > 0.0
    ensures w.description == Describe(Running, locationName, date)
  {
    RunningWorkout(id, date, coords, distance, duration, locationName,
                   Describe(Running, locationName, date), cadence, duration / distance)
  }

  /** `new Cycling(coords, locationName, distance, duration, elevation)`;
      the only caller passes a positive duration. */
  function NewCycling(id: string, date: Date, coords: Coords, locationName: JsName,
                      distance: real, duration: real, elevation: real): (w: Workout)
    requires duration != 0.0
    ensures w.Type() == Cycling && w.CyclingWorkout?
    ensures w.id == id && w.date == date && w.coords == coords && w.locationName == locationName
    ensures w.distance == distance && w.duration == duration && w.elevation == elevation
    ensures w.speed * duration == 60.0 * distance
    ensures distance > 0.0 && duration > 0.0 ==> w.speed > 0.0
    ensures w.description == Describe(Cycling, locationName, date)
  {
    CyclingWorkout(id, date, coords, distance, duration, locationName,
                   Describe(Cycling, locationName, date), elevation, distance / (duration / 60.0))
  }

  /** What every workout the form creates satisfies: positive distance and
      duration, the metric and the description its constructor computes, and
      for running a positive cadence. */
  predicate WellFormed(w: Workout) {
    && w.distance > 0.0
    && w.duration > 0.0
    && w.description == Describe(w.Type(), w.locationName, w.date)
    && match w
       case RunningWorkout(_, _, _, _, _, _, _, cadence, pace) =>
         cadence > 0.0 && pace * w.distance == w.duration
       case CyclingWorkout(_, _, _, _, _, _, _, _, speed) =>
         speed * w.duration == 60.0 * w.distance
  }

  lemma CapitalizedTypeName(t: WorkoutType)
    ensures Capitalize(TypeName(t)) == Title(t)
  {
  }

  /** Any name but the empty string, `undefined` included, gives
      "<Type> in <name>". */
  lemma DescribeNamed(t: WorkoutType, locationName: JsName, date: Date)
    requires locationName != Str("")
    ensures Describe(t, locationName, date) == Title(t) + " in " + Render(locationName)
  {
    CapitalizedTypeName(t);
  }

  /** Only the empty name gives "<Type> on <Month> <day>". */
  lemma DescribeDated(t: WorkoutType, date: Date)
    ensures Describe(t, Str(""), date)
         == Title(t) + " on " + MonthNames[date.month] + " " + Decimal.NatToString(date.day)
  {
    CapitalizedTypeName(t);
  }

  /** Every description starts with the capitalised type and a space, and
      its next character tells the two forms apart. */
  lemma DescribeShape(t: WorkoutType, locationName: JsName, date: Date)
    ensures |Describe(t, locationName, date)| > 8
    ensures Describe(t, locationName, date)[..8] == Title(t) + " "
    ensures Describe(t, locationName, date)[8] == 'i' <==> locationName != Str("")
  {
    CapitalizedTypeName(t);
  }

  /** The description of a new workout depends only on its type, location
      name and date, never on distance, duration or the metric. */
  lemma DescriptionIgnoresMetrics(id1: string, id2: string, date: Date, c1: Coords, c2: Coords,
                                  locationName: JsName, d1: real, d2: real,
                                  t1: real, t2: real, x1: real, x2: real)
    requires d1 != 0.0 && d2 != 0.0 && t1 != 0.0 && t2 != 0.0
    ensures NewRunning(id1, date, c1, locationName, d1, t1, x1).description
         == NewRunning(id2, date, c2, locationName, d2, t2, x2).description
    ensures NewCycling(id1, date, c1, locationName, d1, t1, x1).description
         == NewCycling(id2, date, c2, locationName, d2, t2, x2).description
  {
  }

  /** A running workout built from positive inputs is well formed. */
  lemma NewRunningWellFormed(id: string, date: Date, coords: Coords, locationName: JsName,
                             distance: real, duration: real, cadence: real)
    requires distance > 0.0 && duration > 0.0 && cadence > 0.0
    ensures WellFormed(NewRunning(id, date, coords, locationName, distance, duration, cadence))
  {
  }

  /** A cycling workout built from a positive distance and duration is well
      formed, whatever its elevation. */
  lemma NewCyclingWellFormed(id: string, date: Date, coords: Coords, locationName: JsName,
                             distance: real, duration: real, elevation: real)
    requires distance > 0.0 && duration > 0.0
    ensures WellFormed(NewCycling(id, date, coords, locationName, distance, duration, elevation))
  {
  }
}
