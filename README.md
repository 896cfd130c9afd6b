# Mining operations monitoring dashboard — a Dafny model of its simulation logic

The dashboard shows mocked data for a mining site on five pages behind a landing page: a truck fleet, office climate, vehicle volume at a gate, attendance with health screening, and pond water quality. The truck, office and volume pages move their data with a timer: every two, five and three seconds respectively. The attendance page shows a fixed list; its timer does nothing. The pond table draws its values once when it renders. This project models the logic behind the five pages:

- **`route_generator.dfy`** (`RouteGenerator`) models the synthetic route trail of a truck. It interpolates from the start position to the current one, adds jitter to each point, and spreads the timestamps over the eight hours before now.
- **`truck.dfy`** (`Truck`) models one two-second tick of one truck:
  - clamped random walks of speed, tilt, tire pressure and eye closure;
  - the fuel drain;
  - the bounded route trail (push, then shift past 30 points);
  - the drowsiness classification;
  - the six alarm flags;
  - the status, where danger takes precedence.
- **`office.dfy`** (`Office`) models the office climate page:
  - `checkStatus` with its 10% margin;
  - `updateRoomStatus`, which takes the worst of five readings;
  - the five-second room tick;
  - the two trend charts of averages, which keep at most ten entries.
- **`volume.dfy`** (`Volume`) models the vehicle-volume page. Its state is a class updated in place every three seconds:
  - four clamped counters;
  - the truck-flow chart, which keeps at most eight points;
  - the event log, newest first, which keeps at most ten entries.
- **`presence.dfy`** (`Presence`) models the attendance page:
  - the two-key record filter;
  - the day's summary counts;
  - the blood-pressure and body-temperature bands.
- **`pool.dfy`** (`Pool`) models the pond table's `getStatus`, the per-parameter status badge.
- **`sim.dfy`** (`Sim`) and **`buffers.dfy`** (`Buffers`) hold the shared pieces:
  - the random draw: `Draw` is a real in [0, 1), standing for one `Math.random()` call;
  - `Clamp` (`Math.max(lo, Math.min(hi, x))`);
  - `PickIndex` (`Math.floor(r * n)`);
  - the push-then-shift window `Slide` that every chart and trail update follows.

Randomness, the clock and time labels are parameters of the operations:

- Each `Math.random()` call is one `Draw` argument.
- "Now" is a number of milliseconds.
- Every label string is opaque.

Quantities are Dafny `real`s.

Some behaviour of the code worth knowing:

- **CO2 of 1200 ppm** against the 0–1000 standard is "danger", because the danger margin is 100 (`Office.Co2Bands`).
- **Tire alarm.** It fires when some tire is below an absolute 90 PSI (`src/pages/truck/index.tsx:416-420`). The percentage-of-optimal rule only colours the display.
- **One-point route.** A route of one point divides 0 by 0 (`src/utils/routeGenerator.ts:14`), so the model excludes `points == 1` by a precondition.
- **The second seeded truck** starts with its fuel and tire alarms set, although its level of 28% and its tire pressures of at least 90 PSI do not call for them. The first tick recomputes every flag, and that tick is what `Truck.Tick` models. Seed data is not part of the model.

## Model

| member | source | states |
|---|---|---|
| Sim.Clamp | src/pages/truck/index.tsx:299-302 | `Math.max(lo, Math.min(hi, x))` is at least `lo`, at most `hi` when `lo <= hi`, is `x` inside the range, `lo` below it and `hi` above it |
| Sim.ClampInt | src/pages/volume/index.tsx:111-119 | the same clamp on integers: at least `lo`, at most `hi`, `x` inside the range, `lo` below it and `hi` above it |
| Sim.ClampedStepIsBounded | src/pages/truck/index.tsx:298-302 | a clamped step from a value inside the range moves it by no more than the step |
| Sim.ClampedIntStepIsBounded | src/pages/volume/index.tsx:111-119 | a clamped integer step in [-b, b] from a value inside the range moves it by at most b |
| Sim.Centered | src/pages/truck/index.tsx:298 | `(Math.random() - 0.5) * w` lies in [-w/2, w/2) |
| Sim.PickIndex | src/pages/volume/index.tsx:177-179 | `Math.floor(Math.random() * n)` is a valid index in [0, n) |
| Buffers.Slide | src/pages/truck/index.tsx:318-326 | push then shift once past the cap: the new element is last, the rest is the old window minus its oldest element when it was full, and a window within the cap stays within it |
| Buffers.PushCapped | src/pages/volume/index.tsx:126-139 | two parallel arrays get one label and one value each, both follow `Slide`, equal lengths stay equal and the cap is kept |
| RouteGenerator.Ratio | src/utils/routeGenerator.ts:14 | `i / (points - 1)` lies in [0, 1], is 0 exactly at the first index and 1 exactly at the last |
| RouteGenerator.Jitter | src/utils/routeGenerator.ts:18 | the jitter lies in [-0.001, 0.001) and is zero exactly for the draw 0.5 |
| RouteGenerator.PointNearLine | src/utils/routeGenerator.ts:15-22 | each point's latitude and longitude lie within 0.001 of the straight line from start to current position |
| RouteGenerator.EndpointsWithoutJitter | src/utils/routeGenerator.ts:15-22 | with zero jitter the first point is the start position and the last is the current position |
| RouteGenerator.TimestampSpan | src/utils/routeGenerator.ts:25-28 | timestamp i is `now - 8h * (1 - ratio)`, between now - 8h and now, the first is now - 8h and the last is now |
| RouteGenerator.RatioIncreasing | src/utils/routeGenerator.ts:14 | later indices have strictly larger ratios |
| RouteGenerator.GenerateRouteHistory | src/utils/routeGenerator.ts:2-38 | returns exactly `points` entries, entry i is the interpolated jittered point i, every point is within 0.001 of the line, timestamps run from now - 8h to now and strictly increase |
| RouteGenerator.GenerateDefaultRouteHistory | src/utils/routeGenerator.ts:2-8 | called without `points`, the trail has the default twenty points, point i is interpolated point i of twenty, and the timestamps run from now - 8h to now |
| Truck.NextSpeed | src/pages/truck/index.tsx:298-302 | speed stays in [0, 60] and moves by at most 2.5 km/h per tick |
| Truck.NextTilt | src/pages/truck/index.tsx:330-339 | pitch and roll stay in [-30, 30] and move by at most 1 degree |
| Truck.NextTire | src/pages/truck/index.tsx:350-380 | each tire pressure stays in [60, 120] and moves by at most 1 PSI |
| Truck.NextEyeClosure | src/pages/truck/index.tsx:383-390 | the eye-closure rate stays in [10, 90] and moves by at most 3 |
| Truck.NextYawn | src/pages/truck/index.tsx:391-402 | above 60% eye closure the count grows by 0 or 1 and never passes 10; otherwise it shrinks by 0 or 1 and never goes below 0; a count in [0, 10] stays there |
| Truck.FuelAfterTick | src/pages/truck/index.tsx:346-347 | the level never drops below 0, never increases for non-negative consumption, and is the old level less two seconds of hourly consumption (`consumption / 1800`) whenever that is positive, otherwise 0 |
| Truck.WorkTimePercentage | src/pages/truck/index.tsx:522-524 | the share of the shift worked is at most 100, equals 100 exactly when the duration reaches the maximum, is non-negative for a non-negative duration, and below the maximum is exactly `(duration / maxDuration) * 100` |
| Truck.DrowsinessOf | src/pages/truck/index.tsx:404-409 | "critical" iff eye closure > 60 or yawns > 5; "drowsy" iff not critical and eye closure > 40 or yawns > 2; "alert" otherwise |
| Truck.StatusOf | src/pages/truck/index.tsx:424-441 | "danger" iff SOS, tilt alarm, critical drowsiness or fuel < 10; "warning" iff not danger and some other alarm; "normal" iff neither |
| Truck.OverspeedIsNeverNormal | src/pages/truck/index.tsx:412-441 | a truck whose flags agree with its metrics and that drives above 50 km/h raises the speed alarm and is not "normal" |
| Truck.NormalMeansQuiet | src/pages/truck/index.tsx:412-441 | such a truck is "normal" exactly when there is no SOS, fuel is at least 10% and all six alarms are off |
| Truck.ExtendRoute | src/pages/truck/index.tsx:311-327 | the trail gets the new position only when it is non-empty and moved by more than 0.0003 on some axis; it then follows `Slide` with cap 30, otherwise it is unchanged; at most 30 points stay at most 30 |
| Truck.Tick | src/pages/truck/index.tsx:296-484 | every field of the new truck: unchanged identity, heading, SOS, fuel capacity and consumption, optimal pressure and shift limits; each walked metric; the trail; the duration in minutes; `lastAlert` set on critical drowsiness; the flags, drowsiness and status agree with the new metrics; every walked metric is in range whatever the draws, and yawns and trail length stay in range |
| Office.CheckStatus | src/pages/office/index.tsx:134-143 | "normal" iff min <= v <= max; "danger" iff v is more than a tenth of the width outside the range; "warning" iff in between |
| Office.Co2Bands | src/pages/office/index.tsx:52-58 | against the 0–1000 ppm standard, 1200 ppm is "danger", 1050 is "warning" and 1000 is "normal" |
| Office.Worst | src/pages/office/index.tsx:171-175 | the overall status is at least as severe as every reading's status and is one of them |
| Office.UpdateRoomStatus | src/pages/office/index.tsx:146-177 | only the status changes; it is "danger" iff some reading is, "warning" iff none is danger and some is warning, "normal" iff all five are normal |
| Office.UpdateRoomStatusIdempotent | src/pages/office/index.tsx:146-177 | recomputing the status of a room whose status was just computed changes nothing |
| Office.TickRoom | src/pages/office/index.tsx:185-210 | each reading is its clamped walk, all five land in their ranges (temperature [18, 32], humidity [30, 80], light [200, 1200], PM2.5 [0, 50], CO2 [400, 1500]), id and name are kept, and the stored status is `updateRoomStatus` of the new readings |
| Office.TickRooms | src/pages/office/index.tsx:185-212 | room i of the result is `TickRoom` of room i with its own draws, so it keeps its id, its readings are in range and its status agrees with them |
| Office.MeanWithin | src/pages/office/index.tsx:220-221 | the average of readings that all lie in [lo, hi] lies in [lo, hi] |
| Office.RecordAverage | src/pages/office/index.tsx:215-234 | the chart gets the time label and the average, both follow `Slide` with cap 10, and a valid chart (equal lengths, at most 10) stays valid |
| Office.Step | src/pages/office/index.tsx:182-257 | the rooms tick, both charts get the time label by `Slide` with cap 10, both charts record the averages of the rooms as they stood when the tick began, validity is kept and the recorded averages lie in the reading ranges |
| Volume.NextFleet | src/pages/volume/index.tsx:111-113 | fleet size stays in [35, 50] and moves by at most 1 |
| Volume.NextDensity | src/pages/volume/index.tsx:114-116 | traffic density stays in [50, 85] and moves by at most 2 |
| Volume.NextAlerts | src/pages/volume/index.tsx:117-119 | safety alerts stay in [0, 10] and move by at most 1 |
| Volume.NextUptime | src/pages/volume/index.tsx:120-122 | uptime stays in [98, 100] and moves by at most 0.1 |
| Volume.NewFlow | src/pages/volume/index.tsx:133 | the new truck-flow value lies in [10, 24] |
| Volume.NewLog | src/pages/volume/index.tsx:154-180 | a new event keeps its id and time, and takes its vehicle, type and status from the fixed lists |
| Volume.PrependLog | src/pages/volume/index.tsx:182 | the new event is first, then the previous events in order, with min(\|prev\| + 1, 10) entries in all |
| Volume.LogOfEvents | src/pages/volume/index.tsx:154-183 | after any run of events the log holds min(start + events, 10) entries, and the newest events come first, latest at index 0 |
| Volume.VolumeMonitor.constructor | src/pages/volume/index.tsx:43-102 | the page starts at fleet 42, density 68, 3 alerts, 99.8% uptime, five chart points and five events, all within the ranges |
| Volume.VolumeMonitor.Tick | src/pages/volume/index.tsx:105-184 | every field becomes its walk, its chart slide or its prepended log, and the ranges and caps are kept |
| Presence.FilteredAttendances | src/pages/presence/index.tsx:184-191 | no more records than the list, and every kept record passes both filters |
| Presence.FilterMembership | src/pages/presence/index.tsx:184-191 | a record is shown exactly when it is in the list and passes both filters |
| Presence.MatchPositions | src/pages/presence/index.tsx:184-191 | one valid position in the list per shown record |
| Presence.FilterSelectsPositions | src/pages/presence/index.tsx:184-191 | the k-th shown record is the list's record at the k-th matching position |
| Presence.FilterKeepsOrder | src/pages/presence/index.tsx:184-191 | the matching positions strictly increase, so shown records keep their order |
| Presence.FilterKeepsAllMatches | src/pages/presence/index.tsx:184-191 | every position whose record matches is among the shown positions |
| Presence.FilterAllKeepsEverything | src/pages/presence/index.tsx:184-191 | with "all" roles and "all" statuses every record is shown, in order |
| Presence.CountsPartition | src/pages/presence/index.tsx:193-202 | office + driver and passed + failed each add up to the record count, and recognised faces are at most that count |
| Presence.RoleCountIsFilterSize | src/pages/presence/index.tsx:184-202 | the summary's count for a role equals the number of rows that role's filter shows |
| Presence.ScreeningCountIsFilterSize | src/pages/presence/index.tsx:184-202 | the summary's passed and failed counts equal the number of rows the "passed" and "failed" filters show |
| Presence.TodayStatsOf | src/pages/presence/index.tsx:193-202 | total is the record count; office, driver, passed and failed are the sizes of the matching filters; faceSuccess counts recognised faces; office + driver == total, passed + failed == total, face successes are at most total |
| Presence.GetBloodPressureStatus | src/pages/presence/index.tsx:204-217 | "Tinggi" iff sys > 140 or dia > 90; "Prehipertensi" iff not that and sys > 130 or dia > 85; "Rendah" iff neither and sys < 90 or dia < 60; "Normal" iff 90 <= sys <= 130 and 60 <= dia <= 85 |
| Presence.GetTemperatureStatus | src/pages/presence/index.tsx:219-232 | "Demam Tinggi" iff t >= 38, "Demam" iff 37.5 <= t < 38, "Hipotermia" iff t < 35, "Normal" iff 35 <= t < 37.5 |
| Presence.SeedReadings | src/pages/presence/index.tsx:62-86 | the seeded readings 120/80 and 138/88 fall in "Normal" and "Prehipertensi", and 36.5 and 37.2 degrees are "Normal" |
| Pool.GetStatus | src/pages/pool/table.tsx:13-55 | pH is "Normal" iff 6 <= v <= 8, TSS iff v < 600, DO iff v >= 4, any other parameter always; the status is "Normal" or "Perhatian" and the colour is emerald for "Normal" and amber for "Perhatian" |
| Pool.OnlyThreeRowsCanWarn | src/pages/pool/table.tsx:13-55 | of the eight table rows only pH, TSS and DO can show "Perhatian" |

## Left out

- **Rendering.** JSX, Tailwind classes and the display-only colour helpers are not modelled: `getTiltColor`, `getSpeedColor`, the tire and work-time colourings, and the colours of the presence bands. The presence bands are modelled as labels only. The pool badge colour is part of `getStatus`'s result and is modelled.
- **Other components.** The Leaflet map, the Chart.js setup, routing, the header and footer, and the pool page shell are presentation or foreign library calls.
- **Timers and React state.** `setInterval` and `clearInterval` timing, React state setters and the REC blink are not modelled. A tick is one call, and the volume page's state is one object.
- **Clock and time labels.** `Date`, `Date.now()`, `toLocaleTimeString` and the `padStart` time labels are not modelled. "Now" is a millisecond parameter, and labels and event ids are opaque parameters.
- **Randomness.** `Math.random()` and faker become `Draw` parameters. Faker's own value ranges for the pool table are library behaviour.
- **Floating point.** IEEE float rounding is not modelled; quantities are exact reals.
- Office.RecordAverage: does not model the `toFixed(1)` rounding of the recorded average; the exact mean is recorded.
- **GPS position.** The latitude and longitude walk of a truck is not clamped, just as in the source. The model states its exact value and no range.
- RouteGenerator.GenerateRouteHistory: requires `points != 1`, because the source computes `0 / 0` there and produces NaN coordinates. The default of 20 points is `RouteGenerator.GenerateDefaultRouteHistory`.
- **Presence timer.** The attendance page's 30-second timer has an empty body, so there is nothing to model.
- **Seed lists.** The seeded truck, room and attendance lists are not modelled, except for the volume page's initial state and the readings checked by `Presence.SeedReadings`.
