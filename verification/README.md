# TCX parser: derived workout metrics

A Dafny model of the derived-metrics layer of `TCXParser`, a parser for Garmin
Training Center (TCX) workout files. The parser exposes one property per
workout fact: start and end position, sport, start and completion time,
cadence, speed, distance, duration, calories, heart rate, pace, altitude,
ascent and descent. Each property is modelled as a pure function of a parsed
`Document`.

The document is modelled as data rather than XML:

- `Tcx.Activity` holds the `Sport` attribute, the optional `Creator` and the laps in document order.
- `Tcx.Lap` holds the optional `TotalTimeSeconds`, `Calories`, `Cadence` and `MaximumSpeed` children and the lap's tracks.
- `Tcx.Track` holds trackpoints.
- `Tcx.Samples` holds the series the parser gathers over the whole document, whatever lap a sample is in: heart rate, latitude, longitude, altitude, cadence and cumulative distance.

A property that returns `None` in Python returns `Results.None` here. A
property that raises returns `Results.Failure` carrying a `Tcx.Error`, which
names the kind of exception:

- a missing child element (`AttributeError`);
- a missing attribute (`KeyError`);
- `min`/`max` of an empty list (`ValueError`);
- arithmetic on `None` (`TypeError`);
- division by zero.

Modules:

- `Results`: `Option` and `Result`.
- `Tcx`: the data model, the lap totals and the trackpoint order.
- `Stats`: sums, extrema and means of series, and their first and last elements.
- `Elevation`: ascent and descent. It has a functional definition and the loop the parser runs.
- `Clock`: the `mm:ss` rendering and its inverse.
- `Ascii`: lowercasing.
- `Parser`: the properties themselves.

Behaviour worth noting:

- `duration` and `calories` iterate `self.activity.Lap`. With no laps that lookup raises, so these two properties fail rather than return `None`.
- `cadence_avg` raises when there are no laps. The `getattr` default only covers a missing `Cadence`.
- `completed_at` reads `Lap[-1].Track.Trackpoint[-1]`. That is the last trackpoint of the first track of the last lap. See Findings.
- `hr_avg` and `altitude_avg` use true division, as in Python 3.

## Model

| member | source | states |
|---|---|---|
| Parser.Creator | tcxparser.py:34-37 | the creator name is present exactly when the activity has a `Creator`, and is its `Name` |
| Parser.CreatorVersion | tcxparser.py:39-42 | the creator version is present exactly when the activity has a `Creator`, and is its `UnitId` |
| Parser.StartLatitude | tcxparser.py:44-48 | `None` exactly when there is no latitude sample, otherwise the first one |
| Parser.StartLongitude | tcxparser.py:50-54 | `None` exactly when there is no longitude sample, otherwise the first one |
| Parser.EndLatitude | tcxparser.py:56-60 | `None` exactly when there is no latitude sample, otherwise the last one |
| Parser.EndLongitude | tcxparser.py:62-66 | `None` exactly when there is no longitude sample, otherwise the last one |
| Parser.ActivityType | tcxparser.py:68-70 | fails with a missing `Sport` attribute exactly when there is none; otherwise the same length as the sport, each capital replaced by its small letter (32 code points higher), and every other character unchanged |
| Ascii.Lower | tcxparser.py:70 | lowercasing keeps the length, leaves no capital, keeps every other character and moves each capital by 32 code points |
| Ascii.LowerIdempotent | tcxparser.py:70 | lowercasing twice is lowercasing once |
| Parser.ActivityTypeIgnoresCase | tcxparser.py:68-70 | a `Sport` attribute lowercased beforehand yields the same activity type |
| Parser.StartedAt | tcxparser.py:72-74 | succeeds exactly when the first lap has a first track with a trackpoint; the result is then the time of the activity's first trackpoint in document order |
| Parser.CompletedAt | tcxparser.py:76-78 | succeeds exactly when the last lap has a first track with a trackpoint; the result is then the time of that track's last trackpoint |
| Parser.AllTrackpointsEndWithLastLap | tcxparser.py:76-78 | the activity's trackpoints in document order end with the trackpoints of its last lap |
| Parser.CompletedAtLastTrack | tcxparser.py:76-78 | succeeds exactly when the last lap has a trackpoint in any track; the result is then the time of the activity's final trackpoint |
| Parser.CompletedAtSingleTrack | tcxparser.py:76-78 | when the last lap has a single track, the code as written agrees with the intended completion time |
| Parser.CompletedAtMissesLaterTrack | tcxparser.py:76-78 | a last lap with two tracks makes the code as written report the end of the first track, not the final trackpoint |
| Parser.CadenceAvg | tcxparser.py:80-82 | fails exactly when there are no laps; otherwise the last lap's optional `Cadence` |
| Parser.CadenceMax | tcxparser.py:84-89 | `None` exactly when there is no cadence sample; otherwise a sample that no sample exceeds |
| Parser.SpeedMax | tcxparser.py:91-93 | succeeds exactly when there is a last lap with a `MaximumSpeed`, and is that value |
| Parser.Distance | tcxparser.py:95-99 | `None` exactly when there is no distance sample, otherwise the last one |
| Parser.DistanceUnits | tcxparser.py:101-103 | the units are `"meters"` for every document |
| Parser.Duration | tcxparser.py:105-110 | fails exactly when there are no laps; otherwise present exactly when the lap-time total is positive, and then equal to it |
| Parser.Calories | tcxparser.py:112-116 | fails exactly when there are no laps; otherwise present exactly when the calorie total is positive, and then equal to it |
| Tcx.TotalsAppend | tcxparser.py:106-116 | the lap totals of two runs of laps add up |
| Tcx.TotalTimeSkipsMissing | tcxparser.py:108 | counting a missing lap time as 0 gives the sum of the lap times that are present |
| Tcx.TotalCaloriesSkipsMissing | tcxparser.py:114 | counting missing lap calories as 0 gives the sum of the calories that are present |
| Parser.MixedLaps | tcxparser.py:105-116 | a lap with only a time and a lap with only calories give duration 300 and calories 50 |
| Parser.HrAvg | tcxparser.py:118-123 | `None` exactly when there is no heart-rate sample; otherwise the mean of the samples, with some sample at or below it and some at or above it |
| Parser.HrAvgTimesCount | tcxparser.py:121-123 | on a non-empty series, the average heart rate times the number of samples is their sum |
| Stats.MeanInt | tcxparser.py:123 | the mean of a non-empty integer list times its length is its sum |
| Stats.MeanIntBetween | tcxparser.py:123 | the mean of a non-empty integer list lies between its minimum and maximum |
| Parser.HrMax | tcxparser.py:125-129 | `None` exactly when there is no heart-rate sample; otherwise a sample that no sample exceeds |
| Stats.MaxInt | tcxparser.py:129 | `max` of a non-empty integer list is an element of it that no element exceeds |
| Parser.HrMin | tcxparser.py:131-134 | fails with an empty-argument error exactly when there is no heart-rate sample; otherwise a sample that no sample is below |
| Stats.MinInt | tcxparser.py:134 | `min` of a non-empty integer list is an element of it that no element is below |
| Parser.HrBounds | tcxparser.py:118-134 | on a non-empty series, minimum heart rate ≤ average ≤ maximum |
| Parser.Pace | tcxparser.py:136-140 | succeeds exactly when there are laps, the lap-time total is positive and the last distance is present and non-zero; the text then reads back as the floored seconds per kilometre modulo one hour; each failure carries the exception Python raises first |
| Clock.Pad2 | tcxparser.py:140 | a number below 100 becomes exactly two digits that read back as it |
| Clock.MinutesSeconds | tcxparser.py:140 | the rendering is five characters with `:` in the middle and reads back as the seconds modulo 3600 |
| Clock.FormatParse | tcxparser.py:140 | every well-formed `mm:ss` text is the rendering of the seconds it reads as |
| Clock.HourWraps | tcxparser.py:140 | the rendering repeats every 3600 seconds |
| Parser.PaceExample | tcxparser.py:136-140 | 3600 s over 10000 m gives `"06:00"` |
| Parser.AltitudeAvg | tcxparser.py:142-147 | `None` exactly when there is no altitude sample; otherwise the mean of the samples, with some sample at or below it and some at or above it |
| Parser.AltitudeAvgTimesCount | tcxparser.py:145-147 | on a non-empty series, the average altitude times the number of samples is their sum |
| Stats.MeanReal | tcxparser.py:147 | the mean of a non-empty float list times its length is its sum |
| Stats.MeanRealBetween | tcxparser.py:147 | the mean of a non-empty float list lies between its minimum and maximum |
| Parser.AltitudeMax | tcxparser.py:149-153 | fails with an empty-argument error exactly when there is no altitude sample; otherwise a sample that no sample exceeds |
| Stats.MaxReal | tcxparser.py:153 | `max` of a non-empty float list is an element of it that no element exceeds |
| Parser.AltitudeMin | tcxparser.py:155-159 | fails with an empty-argument error exactly when there is no altitude sample; otherwise a sample that no sample is below |
| Stats.MinReal | tcxparser.py:159 | `min` of a non-empty float list is an element of it that no element is below |
| Parser.AltitudeBounds | tcxparser.py:142-159 | on a non-empty series, minimum altitude ≤ average ≤ maximum |
| Stats.First | tcxparser.py:45-54 | `None` exactly on an empty series, otherwise element 0 |
| Stats.Last | tcxparser.py:57-66 | `None` exactly on an empty series, otherwise the last element |
| Elevation.Ascent | tcxparser.py:161-170 | the ascent is never negative |
| Elevation.AscentPass | tcxparser.py:161-170 | the loop over consecutive pairs computes the ascent, which is never negative |
| Elevation.Descent | tcxparser.py:172-181 | the descent is never negative |
| Elevation.DescentPass | tcxparser.py:172-181 | the loop over consecutive pairs computes the descent, which is never negative |
| Elevation.NoStepNoClimb | tcxparser.py:164-166 | with fewer than two altitudes, ascent and descent are both 0 |
| Elevation.NetChange | tcxparser.py:161-181 | ascent − descent equals last altitude − first altitude |
| Elevation.AscentPlusDescent | tcxparser.py:166-169 | ascent + descent equals the sum of the absolute consecutive differences |
| Elevation.Example | tcxparser.py:161-181 | 100, 105, 95, 110 gives ascent 20 and descent 10 |
| Parser.NoLaps | tcxparser.py:72-147 | with no laps and no samples, start/completion time, duration, calories and pace fail while the heart-rate and altitude averages are `None` |

## Findings

| source | as written | input that shows it | evidently intended | confidence | as-written member | corrected member |
|---|---|---|---|---|---|---|
| tcxparser.py:76-78 | `completed_at` takes the last trackpoint of the first `Track` of the last lap | a last lap with tracks `[T0, T1]` and `[T2]`, as a device may write after a pause, gives `T1` | the time of the last trackpoint of the last lap, here `T2` | medium, not executed | Parser.CompletedAt | Parser.CompletedAtLastTrack |

## Left out

- XML parsing and path queries are not modelled. This is `objectify.parse`, `xpath`, `findall` and the `hasattr` probes. The document is given as `Tcx.Document`, with the series already extracted.
- Which elements a path query matches is not modelled. For example, `//ns:Cadence` and `.//ns:DistanceMeters` also match lap-level elements. The series are inputs.
- Text-to-number conversion (`int(...)`, `float(...)`) and its `ValueError` on malformed text are not modelled. This is library behaviour.
- `time_values` is not modelled, because no property reads it.
- Floating-point rounding is not modelled. Altitudes, positions, times and distances are `real`.
- `time.gmtime` overflow on huge values is not modelled. Neither are NaN and infinity.
- `.lower()` is modelled only on ASCII letters. Python lowercases all of Unicode.
- A `Creator` without `Name` or `UnitId` is not modelled. The model always gives the creator both children.
- A trackpoint without `Time` is not modelled. The model always gives trackpoints a time.
- `distance`, `cadence_avg` and `speed_max` return the lxml element itself (`DistanceMeters`, `Cadence`, `MaximumSpeed`). The model returns the element's numeric value: a `real` distance, an `int` cadence and a `real` speed.
