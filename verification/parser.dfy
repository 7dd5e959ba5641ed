/** The properties of a TCX parser instance, each a pure function of the
    parsed document. A property that returns `None` in Python returns `None`
    here; a property that raises returns `Failure` with the error it raises. */
module Parser {
  import opened Results
  import opened Tcx
  import opened Stats
  import Ascii
  import Clock

  /** `creator`: the `Name` of the activity's `Creator`, if it has one. */
  function Creator(d: Document): (r: Option<string>)
    ensures r.Some? <==> d.activity.creator.Some?
    ensures r.Some? ==> r.value == d.activity.creator.value.name
  {
    match d.activity.creator
    case Some(c) => Some(c.name)
    case None => None
  }

  /** `creator_version`: the `UnitId` of the activity's `Creator`, if it has one. */
  function CreatorVersion(d: Document): (r: Option<int>)
    ensures r.Some? <==> d.activity.creator.Some?
    ensures r.Some? ==> r.value == d.activity.creator.value.unitId
  {
    match d.activity.creator
    case Some(c) => Some(c.unitId)
    case None => None
  }

  /** `start_latitude`: the first latitude of the document, `None` without one. */
  function StartLatitude(d: Document): (r: Option<real>)
    ensures r.None? <==> |d.samples.latitude| == 0
    ensures r.Some? ==> r.value == d.samples.latitude[0]
  {
    First(d.samples.latitude)
  }

  /** `start_longitude`: the first longitude of the document, `None` without one. */
  function StartLongitude(d: Document): (r: Option<real>)
    ensures r.None? <==> |d.samples.longitude| == 0
    ensures r.Some? ==> r.value == d.samples.longitude[0]
  {
    First(d.samples.longitude)
  }

  /** `end_latitude`: the last latitude of the document, `None` without one. */
  function EndLatitude(d: Document): (r: Option<real>)
    ensures r.None? <==> |d.samples.latitude| == 0
    ensures r.Some? ==> r.value == d.samples.latitude[|d.samples.latitude| - 1]
  {
    Last(d.samples.latitude)
  }

  /** `end_longitude`: the last longitude of the document, `None` without one. */
  function EndLongitude(d: Document): (r: Option<real>)
    ensures r.None? <==> |d.samples.longitude| == 0
    ensures r.Some? ==> r.value == d.samples.longitude[|d.samples.longitude| - 1]
  {
    Last(d.samples.longitude)
  }

  /** `activity_type`: the `Sport` attribute, lowercased; a `KeyError` when
      the attribute is missing. */
  function ActivityType(d: Document): (r: Result<string, Error>)
    ensures r.Failure? <==> d.activity.sport.None?
    ensures r.Failure? ==> r.error == MissingAttribute("Sport")
    ensures r.Success? ==> |r.value| == |d.activity.sport.value|
    ensures r.Success? ==> forall i :: 0 <= i < |r.value| ==>
              !Ascii.IsUpper(r.value[i]) &&
              (Ascii.IsUpper(d.activity.sport.value[i]) || r.value[i] == d.activity.sport.value[i])
    ensures r.Success? ==> forall i :: 0 <= i < |r.value| && Ascii.IsUpper(d.activity.sport.value[i]) ==>
              r.value[i] as int == d.activity.sport.value[i] as int + 32
  {
    match d.activity.sport
    case Some(s) => Success(Ascii.Lower(s))
    case None => Failure(MissingAttribute("Sport"))
  }

  /** `started_at`: the `Time` of the first trackpoint of the first track of
      the first lap. Each of the three lookups raises when there is no such
      element. */
  function StartedAt(d: Document): (r: Result<string, Error>)
    ensures r.Success? <==>
              |d.activity.laps| > 0 && |d.activity.laps[0].tracks| > 0 &&
              |d.activity.laps[0].tracks[0].trackpoints| > 0
    ensures r.Failure? ==> r.error.MissingElement?
    ensures r.Success? ==>
              |AllTrackpoints(d.activity.laps)| > 0 && r.value == AllTrackpoints(d.activity.laps)[0].time
  {
    var laps := d.activity.laps;
    if |laps| == 0 then Failure(MissingElement("Lap"))
    else if |laps[0].tracks| == 0 then Failure(MissingElement("Track"))
    else if |laps[0].tracks[0].trackpoints| == 0 then Failure(MissingElement("Trackpoint"))
    else Success(laps[0].tracks[0].trackpoints[0].time)
  }

  /** `completed_at` as written: the `Time` of the last trackpoint of the
      FIRST track of the last lap (`Lap[-1].Track.Trackpoint[-1]`). */
  function CompletedAt(d: Document): (r: Result<string, Error>)
    ensures r.Success? <==>
              |d.activity.laps| > 0 && |LastLap(d).tracks| > 0 && |LastLap(d).tracks[0].trackpoints| > 0
    ensures r.Failure? ==> r.error.MissingElement?
    ensures r.Success? ==>
              var tps := LastLap(d).tracks[0].trackpoints;
              r.value == tps[|tps| - 1].time
  {
    var laps := d.activity.laps;
    if |laps| == 0 then Failure(MissingElement("Lap"))
    else if |laps[|laps| - 1].tracks| == 0 then Failure(MissingElement("Track"))
    else
      var tps := laps[|laps| - 1].tracks[0].trackpoints;
      if |tps| == 0 then Failure(MissingElement("Trackpoint"))
      else Success(tps[|tps| - 1].time)
  }

  /** The last lap of an activity that has laps (`Lap[-1]`). */
  function LastLap(d: Document): Lap
    requires |d.activity.laps| > 0
  {
    d.activity.laps[|d.activity.laps| - 1]
  }

  /** `completed_at` as evidently intended: the `Time` of the last trackpoint
      of the last lap, whichever of its tracks holds it. */
  function CompletedAtLastTrack(d: Document): (r: Result<string, Error>)
    ensures r.Success? <==> |d.activity.laps| > 0 && |TrackpointsOf(LastLap(d).tracks)| > 0
    ensures r.Failure? ==> r.error.MissingElement?
    ensures r.Success? ==>
              var all := AllTrackpoints(d.activity.laps);
              |all| > 0 && r.value == all[|all| - 1].time
  {
    var laps := d.activity.laps;
    if |laps| == 0 then Failure(MissingElement("Lap"))
    else
      var tps := TrackpointsOf(laps[|laps| - 1].tracks);
      if |tps| == 0 then Failure(MissingElement("Trackpoint"))
      else
        AllTrackpointsEndWithLastLap(laps);
        Success(tps[|tps| - 1].time)
  }

  /** The trackpoints of the activity end with those of its last lap. */
  lemma {:induction false} AllTrackpointsEndWithLastLap(laps: seq<Lap>)
    requires |laps| > 0
    ensures AllTrackpoints(laps) == AllTrackpoints(laps[..|laps| - 1]) + TrackpointsOf(laps[|laps| - 1].tracks)
  {
    if |laps| > 1 {
      var rest := laps[1..];
      AllTrackpointsEndWithLastLap(rest);
      assert rest[..|rest| - 1] == laps[..|laps| - 1][1..];
      assert rest[|rest| - 1] == laps[|laps| - 1];
    } else {
      assert laps[..0] == [];
      assert laps[1..] == [];
    }
  }

  /** When the last lap has a single track, `completed_at` as written is the
      time of the activity's final trackpoint. */
  lemma CompletedAtSingleTrack(d: Document)
    requires |d.activity.laps| > 0 && |LastLap(d).tracks| == 1
    ensures CompletedAt(d) == CompletedAtLastTrack(d)
  {
    var t := LastLap(d).tracks;
    assert t[1..] == [];
    assert TrackpointsOf(t) == t[0].trackpoints;
  }

  /** A last lap with two tracks (a pause and a resume): `completed_at` as
      written reports the end of the first track, not the end of the lap. */
  lemma CompletedAtMissesLaterTrack()
    ensures var d := Document(
              Activity(Some("Running"), None,
                [Lap(Some(600.0), None, None, None,
                     [Track([Trackpoint("T0"), Trackpoint("T1")]), Track([Trackpoint("T2")])])]),
              Samples([], [], [], [], [], []));
            CompletedAt(d) == Success("T1") && CompletedAtLastTrack(d) == Success("T2")
  {
  }

  /** `cadence_avg`: the `Cadence` child of the last lap, `None` when it has
      none; looking up the last lap raises when there are no laps. */
  function CadenceAvg(d: Document): (r: Result<Option<int>, Error>)
    ensures r.Failure? <==> |d.activity.laps| == 0
    ensures r.Failure? ==> r.error == MissingElement("Lap")
    ensures r.Success? ==> r.value == LastLap(d).cadence
  {
    if |d.activity.laps| == 0 then Failure(MissingElement("Lap"))
    else Success(LastLap(d).cadence)
  }

  /** `cadence_max`: the largest cadence sample, `None` without samples. */
  function CadenceMax(d: Document): (r: Option<int>)
    ensures r.None? <==> |d.samples.cadence| == 0
    ensures r.Some? ==> r.value in d.samples.cadence
    ensures r.Some? ==> forall i :: 0 <= i < |d.samples.cadence| ==> d.samples.cadence[i] <= r.value
  {
    if |d.samples.cadence| > 0 then Some(MaxInt(d.samples.cadence)) else None
  }

  /** `speed_max`: the `MaximumSpeed` child of the last lap; raises when
      there are no laps or the last lap has none. */
  function SpeedMax(d: Document): (r: Result<real, Error>)
    ensures r.Success? <==> |d.activity.laps| > 0 && LastLap(d).maximumSpeed.Some?
    ensures r.Success? ==> r.value == LastLap(d).maximumSpeed.value
    ensures r.Failure? ==> r.error.MissingElement?
  {
    if |d.activity.laps| == 0 then Failure(MissingElement("Lap"))
    else
      match LastLap(d).maximumSpeed
      case Some(v) => Success(v)
      case None => Failure(MissingElement("MaximumSpeed"))
  }

  /** `distance`: the last cumulative distance of the document, `None` without one. */
  function Distance(d: Document): (r: Option<real>)
    ensures r.None? <==> |d.samples.distance| == 0
    ensures r.Some? ==> r.value == d.samples.distance[|d.samples.distance| - 1]
  {
    Last(d.samples.distance)
  }

  /** `distance_units`: the same constant whatever the document holds. */
  function DistanceUnits(d: Document): (r: string)
    ensures r == "meters"
  {
    "meters"
  }

  /** `duration`: the lap times summed with a missing time counted as 0,
      `None` unless the sum is positive; iterating the laps raises when there
      are none. */
  function Duration(d: Document): (r: Result<Option<real>, Error>)
    ensures r.Failure? <==> |d.activity.laps| == 0
    ensures r.Failure? ==> r.error == MissingElement("Lap")
    ensures r.Success? ==> (r.value.Some? <==> TotalTime(d.activity.laps) > 0.0)
    ensures r.Success? && r.value.Some? ==> r.value.value == TotalTime(d.activity.laps) && r.value.value > 0.0
  {
    if |d.activity.laps| == 0 then Failure(MissingElement("Lap"))
    else
      var total := TotalTime(d.activity.laps);
      Success(if total > 0.0 then Some(total) else None)
  }

  /** `calories`: the lap calories summed with a missing count as 0, `None`
      unless the sum is positive; iterating the laps raises when there are none. */
  function Calories(d: Document): (r: Result<Option<int>, Error>)
    ensures r.Failure? <==> |d.activity.laps| == 0
    ensures r.Failure? ==> r.error == MissingElement("Lap")
    ensures r.Success? ==> (r.value.Some? <==> TotalCalories(d.activity.laps) > 0)
    ensures r.Success? && r.value.Some? ==> r.value.value == TotalCalories(d.activity.laps) && r.value.value > 0
  {
    if |d.activity.laps| == 0 then Failure(MissingElement("Lap"))
    else
      var total := TotalCalories(d.activity.laps);
      Success(if total > 0 then Some(total) else None)
  }

  /** `hr_avg`: the mean heart rate, `None` without samples. */
  function HrAvg(d: Document): (r: Option<real>)
    ensures r.None? <==> |d.samples.heartRate| == 0
    ensures r.Some? ==> r.value == MeanInt(d.samples.heartRate)
    ensures r.Some? ==> exists i :: 0 <= i < |d.samples.heartRate| && d.samples.heartRate[i] as real <= r.value
    ensures r.Some? ==> exists i :: 0 <= i < |d.samples.heartRate| && r.value <= d.samples.heartRate[i] as real
  {
    var hr := d.samples.heartRate;
    if |hr| > 0 then
      MeanIntBetween(hr);
      Some(MeanInt(hr))
    else None
  }

  /** `hr_max`: the largest heart rate, `None` without samples. */
  function HrMax(d: Document): (r: Option<int>)
    ensures r.None? <==> |d.samples.heartRate| == 0
    ensures r.Some? ==> r.value in d.samples.heartRate
    ensures r.Some? ==> forall i :: 0 <= i < |d.samples.heartRate| ==> d.samples.heartRate[i] <= r.value
  {
    if |d.samples.heartRate| > 0 then Some(MaxInt(d.samples.heartRate)) else None
  }

  /** `hr_min`: the smallest heart rate; `min` raises on an empty list. */
  function HrMin(d: Document): (r: Result<int, Error>)
    ensures r.Failure? <==> |d.samples.heartRate| == 0
    ensures r.Failure? ==> r.error == EmptyArgument
    ensures r.Success? ==> r.value in d.samples.heartRate
    ensures r.Success? ==> forall i :: 0 <= i < |d.samples.heartRate| ==> r.value <= d.samples.heartRate[i]
  {
    if |d.samples.heartRate| > 0 then Success(MinInt(d.samples.heartRate)) else Failure(EmptyArgument)
  }

  /** On a non-empty heart-rate series, min <= avg <= max. */
  lemma HrBounds(d: Document)
    requires |d.samples.heartRate| > 0
    ensures HrMin(d).value as real <= HrAvg(d).value <= HrMax(d).value as real
  {
  }

  /** The average heart rate times the number of samples is their sum. */
  lemma HrAvgTimesCount(d: Document)
    requires |d.samples.heartRate| > 0
    ensures HrAvg(d).value * (|d.samples.heartRate| as real) == SumInt(d.samples.heartRate) as real
  {
  }

  /** `altitude_avg`: the mean altitude, `None` without samples. */
  function AltitudeAvg(d: Document): (r: Option<real>)
    ensures r.None? <==> |d.samples.altitude| == 0
    ensures r.Some? ==> r.value == MeanReal(d.samples.altitude)
    ensures r.Some? ==> exists i :: 0 <= i < |d.samples.altitude| && d.samples.altitude[i] <= r.value
    ensures r.Some? ==> exists i :: 0 <= i < |d.samples.altitude| && r.value <= d.samples.altitude[i]
  {
    var alt := d.samples.altitude;
    if |alt| > 0 then
      MeanRealBetween(alt);
      Some(MeanReal(alt))
    else None
  }

  /** The average altitude times the number of samples is their sum. */
  lemma AltitudeAvgTimesCount(d: Document)
    requires |d.samples.altitude| > 0
    ensures AltitudeAvg(d).value * (|d.samples.altitude| as real) == SumReal(d.samples.altitude)
  {
  }

  /** `altitude_max`: the highest altitude; `max` raises on an empty list. */
  function AltitudeMax(d: Document): (r: Result<real, Error>)
    ensures r.Failure? <==> |d.samples.altitude| == 0
    ensures r.Failure? ==> r.error == EmptyArgument
    ensures r.Success? ==> r.value in d.samples.altitude
    ensures r.Success? ==> forall i :: 0 <= i < |d.samples.altitude| ==> d.samples.altitude[i] <= r.value
  {
    if |d.samples.altitude| > 0 then Success(MaxReal(d.samples.altitude)) else Failure(EmptyArgument)
  }

  /** `altitude_min`: the lowest altitude; `min` raises on an empty list. */
  function AltitudeMin(d: Document): (r: Result<real, Error>)
    ensures r.Failure? <==> |d.samples.altitude| == 0
    ensures r.Failure? ==> r.error == EmptyArgument
    ensures r.Success? ==> r.value in d.samples.altitude
    ensures r.Success? ==> forall i :: 0 <= i < |d.samples.altitude| ==> r.value <= d.samples.altitude[i]
  {
    if |d.samples.altitude| > 0 then Success(MinReal(d.samples.altitude)) else Failure(EmptyArgument)
  }

  /** On a non-empty altitude series, min <= avg <= max. */
  lemma AltitudeBounds(d: Document)
    requires |d.samples.altitude| > 0
    ensures AltitudeMin(d).value <= AltitudeAvg(d).value <= AltitudeMax(d).value
  {
  }

  /** Seconds per kilometre: `duration / (distance / 1000)`. */
  function SecondsPerKm(duration: real, distance: real): real
    requires distance != 0.0
  {
    duration / (distance / 1000.0)
  }

  /** `pace`: seconds per kilometre shown as `mm:ss`. It raises when there
      are no laps (from `duration`), when `distance` or `duration` is `None`
      (arithmetic on `None`) and when the distance is 0. */
  function Pace(d: Document): (r: Result<string, Error>)
    ensures r.Success? <==>
              |d.activity.laps| > 0 && TotalTime(d.activity.laps) > 0.0 &&
              |d.samples.distance| > 0 && d.samples.distance[|d.samples.distance| - 1] != 0.0
    ensures r.Success? ==>
              var secs := SecondsPerKm(TotalTime(d.activity.laps), d.samples.distance[|d.samples.distance| - 1]);
              Clock.ParseMmSs(r.value) == Some(secs.Floor % 3600)
    ensures |d.activity.laps| == 0 ==> r == Failure(MissingElement("Lap"))
    ensures |d.activity.laps| > 0 && |d.samples.distance| == 0 ==> r == Failure(NoneOperand)
    ensures |d.activity.laps| > 0 && |d.samples.distance| > 0 && TotalTime(d.activity.laps) <= 0.0 ==>
              r == Failure(NoneOperand)
    ensures (|d.activity.laps| > 0 && |d.samples.distance| > 0 && TotalTime(d.activity.laps) > 0.0 &&
             d.samples.distance[|d.samples.distance| - 1] == 0.0) ==>
              r == Failure(DivisionByZero)
  {
    match Duration(d)
    case Failure(e) => Failure(e)
    case Success(duration) =>
      match Distance(d)
      case None => Failure(NoneOperand)
      case Some(distance) =>
        if duration.None? then Failure(NoneOperand)
        else if distance == 0.0 then Failure(DivisionByZero)
        else Success(Clock.MinutesSeconds(SecondsPerKm(duration.value, distance).Floor))
  }

  /** Lowercasing the `Sport` attribute beforehand does not change `activity_type`. */
  lemma ActivityTypeIgnoresCase(d: Document, s: string)
    requires d.activity.sport == Some(s)
    ensures ActivityType(d.(activity := d.activity.(sport := Some(Ascii.Lower(s))))) == ActivityType(d)
  {
    Ascii.LowerIdempotent(s);
  }

  /** A lap with a time but no calories and a lap with calories but no time:
      each missing field counts as 0 and neither lap is skipped. */
  lemma MixedLaps()
    ensures var d := Document(
              Activity(Some("Biking"), None,
                [Lap(Some(300.0), None, None, None, []), Lap(None, Some(50), None, None, [])]),
              Samples([], [], [], [], [], []));
            Duration(d) == Success(Some(300.0)) && Calories(d) == Success(Some(50))
  {
  }

  /** 3600 seconds over 10000 metres is 360 seconds per kilometre: "06:00". */
  lemma PaceExample()
    ensures var d := Document(
              Activity(Some("Running"), None, [Lap(Some(3600.0), None, None, None, [])]),
              Samples([], [], [], [], [], [10000.0]));
            Pace(d) == Success("06:00")
  {
    var d := Document(
      Activity(Some("Running"), None, [Lap(Some(3600.0), None, None, None, [])]),
      Samples([], [], [], [], [], [10000.0]));
    assert TotalTime(d.activity.laps) == 3600.0;
    assert SecondsPerKm(3600.0, 10000.0) == 360.0;
    assert (360.0).Floor == 360;
    assert Clock.Pad2(6) == "06" && Clock.Pad2(0) == "00";
    assert Clock.MinutesSeconds(360) == "06" + ":" + "00" == "06:00";
  }

  /** An activity without laps: the structural picks raise while the series
      averages are merely absent. */
  lemma NoLaps(d: Document)
    requires |d.activity.laps| == 0
    requires |d.samples.heartRate| == 0 && |d.samples.altitude| == 0
    ensures StartedAt(d).Failure? && CompletedAt(d).Failure?
    ensures Duration(d).Failure? && Calories(d).Failure? && Pace(d).Failure?
    ensures HrAvg(d).None? && AltitudeAvg(d).None?
  {
  }
}
