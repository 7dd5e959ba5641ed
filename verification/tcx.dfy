/** The data model of one parsed TCX document: an activity made of laps, each
    lap made of tracks, each track made of trackpoints, together with the
    document-wide sample series the parser extracts by path query. */
module Tcx {
  import opened Results
  import opened Stats

  /** Why a property raises instead of returning a value. */
  datatype Error =
    | MissingElement(tag: string)   // an objectify child lookup finds no element of that tag
    | MissingAttribute(name: string) // a lookup in the element's attribute dictionary fails
    | EmptyArgument                 // `min` or `max` of an empty list
    | NoneOperand                   // arithmetic on `None`
    | DivisionByZero                // float division by zero

  /** The `Creator` element of an activity: its `Name` and `UnitId` children. */
  datatype Creator = Creator(name: string, unitId: int)

  /** One sample of the recording; only its `Time` text is read structurally. */
  datatype Trackpoint = Trackpoint(time: string)

  /** A `Track` element: trackpoints in document order. */
  datatype Track = Track(trackpoints: seq<Trackpoint>)

  /** A `Lap` element with its optional summary children and its tracks. */
  datatype Lap = Lap(
    totalTimeSeconds: Option<real>,
    calories: Option<int>,
    cadence: Option<int>,
    maximumSpeed: Option<real>,
    tracks: seq<Track>)

  /** The single `Activity` element: its `Sport` attribute, optional `Creator`
      and laps in document order. */
  datatype Activity = Activity(sport: Option<string>, creator: Option<Creator>, laps: seq<Lap>)

  /** The document-wide series, each in document order regardless of laps:
      heart-rate values, latitudes, longitudes, altitudes, cadences and
      cumulative distances. */
  datatype Samples = Samples(
    heartRate: seq<int>,
    latitude: seq<real>,
    longitude: seq<real>,
    altitude: seq<real>,
    cadence: seq<int>,
    distance: seq<real>)

  /** A parsed document: what one parser instance holds. */
  datatype Document = Document(activity: Activity, samples: Samples)

  /** A lap's contribution to the duration: its `TotalTimeSeconds`, or 0. */
  function LapTime(lap: Lap): real {
    match lap.totalTimeSeconds
    case Some(t) => t
    case None => 0.0
  }

  /** A lap's contribution to the calories: its `Calories`, or 0. */
  function LapCalories(lap: Lap): int {
    match lap.calories
    case Some(c) => c
    case None => 0
  }

  /** Sum over laps of `TotalTimeSeconds`, a lap without one counting as 0. */
  function TotalTime(laps: seq<Lap>): real {
    if |laps| == 0 then 0.0 else LapTime(laps[0]) + TotalTime(laps[1..])
  }

  /** Sum over laps of `Calories`, a lap without one counting as 0. */
  function TotalCalories(laps: seq<Lap>): int {
    if |laps| == 0 then 0 else LapCalories(laps[0]) + TotalCalories(laps[1..])
  }

  /** The `TotalTimeSeconds` values of the laps that have one, in lap order. */
  function PresentTimes(laps: seq<Lap>): seq<real> {
    if |laps| == 0 then []
    else (if laps[0].totalTimeSeconds.Some? then [laps[0].totalTimeSeconds.value] else [])
         + PresentTimes(laps[1..])
  }

  /** The `Calories` values of the laps that have one, in lap order. */
  function PresentCalories(laps: seq<Lap>): seq<int> {
    if |laps| == 0 then []
    else (if laps[0].calories.Some? then [laps[0].calories.value] else [])
         + PresentCalories(laps[1..])
  }

  /** The trackpoints of a sequence of tracks, in document order. */
  function TrackpointsOf(tracks: seq<Track>): seq<Trackpoint> {
    if |tracks| == 0 then [] else tracks[0].trackpoints + TrackpointsOf(tracks[1..])
  }

  /** Every trackpoint of the activity, in document (and so chronological) order. */
  function AllTrackpoints(laps: seq<Lap>): seq<Trackpoint> {
    if |laps| == 0 then [] else TrackpointsOf(laps[0].tracks) + AllTrackpoints(laps[1..])
  }

  /** Splitting the laps splits the lap totals. */
  lemma {:induction false} TotalsAppend(a: seq<Lap>, b: seq<Lap>)
    ensures TotalTime(a + b) == TotalTime(a) + TotalTime(b)
    ensures TotalCalories(a + b) == TotalCalories(a) + TotalCalories(b)
  {
    if |a| == 0 {
      assert a + b == b;
    } else {
      assert (a + b)[1..] == a[1..] + b;
      TotalsAppend(a[1..], b);
    }
  }

  /** Counting a missing `TotalTimeSeconds` as 0 gives the same total as
      skipping the lap. */
  lemma {:induction false} TotalTimeSkipsMissing(laps: seq<Lap>)
    ensures TotalTime(laps) == SumReal(PresentTimes(laps))
  {
    if |laps| > 0 {
      TotalTimeSkipsMissing(laps[1..]);
      var rest := PresentTimes(laps[1..]);
      if laps[0].totalTimeSeconds.Some? {
        assert ([laps[0].totalTimeSeconds.value] + rest)[1..] == rest;
      } else {
        assert [] + rest == rest;
      }
    }
  }

  /** Counting a missing `Calories` as 0 gives the same total as skipping the lap. */
  lemma {:induction false} TotalCaloriesSkipsMissing(laps: seq<Lap>)
    ensures TotalCalories(laps) == SumInt(PresentCalories(laps))
  {
    if |laps| > 0 {
      TotalCaloriesSkipsMissing(laps[1..]);
      var rest := PresentCalories(laps[1..]);
      if laps[0].calories.Some? {
        assert ([laps[0].calories.value] + rest)[1..] == rest;
      } else {
        assert [] + rest == rest;
      }
    }
  }
}
