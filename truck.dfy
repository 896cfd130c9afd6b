/** The truck fleet monitor: every two seconds each truck takes one tick of
    clamped random walks (speed, tilt, tire pressures, eye-closure rate), a
    fuel drain, a bounded route trail, a drowsiness classification, six
    alarm flags and a danger-first status. Times are milliseconds; the clock
    and the random draws are parameters. */
module Truck {
  import opened Sim
  import opened Buffers
  import opened RouteGenerator

  datatype Drowsiness = Alert | Drowsy | Critical

  datatype Gps = Gps(latitude: real, longitude: real, speed: real, heading: real)
  datatype Tilt = Tilt(pitch: real, roll: real)
  datatype Sos = Sos(active: bool, timestamp: Option<real>)
  datatype Fuel = Fuel(level: real, capacity: real, consumption: real)
  datatype TirePressure = TirePressure(frontLeft: real, frontRight: real, rearLeft: real, rearRight: real,
                                       optimal: real)
  datatype DrowsinessDetection = DrowsinessDetection(status: Drowsiness, eyeClosureRate: real, yawnCount: int,
                                                     lastAlert: Option<real>)
  datatype Alarms = Alarms(speed: bool, workTime: bool, tilt: bool, fuel: bool, tirePressure: bool,
                           drowsiness: bool)
  datatype WorkTime = WorkTime(startTime: real, duration: real, maxDuration: real)

  datatype TruckData = TruckData(
    id: string,
    name: string,
    driver: string,
    route: seq<RoutePoint>,
    gps: Gps,
    tilt: Tilt,
    sos: Sos,
    fuel: Fuel,
    tirePressure: TirePressure,
    drowsinessDetection: DrowsinessDetection,
    alarms: Alarms,
    workTime: WorkTime,
    status: Level,
    lastUpdate: real)

  /** The random draws one tick makes, one field per `Math.random()` call. */
  datatype TickDraws = TickDraws(speed: Draw, lat: Draw, lng: Draw, pitch: Draw, roll: Draw,
                                 frontLeft: Draw, frontRight: Draw, rearLeft: Draw, rearRight: Draw,
                                 eye: Draw, yawn: Draw)

  const SpeedLimit: real := 50.0
  const MaxRoutePoints: nat := 30
  /** Degrees a new position must differ from the last trail point, on some axis, to be recorded. */
  const MoveThreshold: real := 0.0003
  /** Absolute PSI below which a tire raises the tire-pressure alarm. */
  const TireAlarmPsi: real := 90.0
  const MsPerMinute: real := 60000.0

  // ---------------------------------------------------------------------------
  // One-metric random walks

  /** Speed walks by at most 2.5 km/h and stays in [0, 60]. */
  function NextSpeed(speed: real, r: Draw): (s: real)
    ensures 0.0 <= s <= 60.0
    ensures 0.0 <= speed <= 60.0 ==> Abs(s - speed) <= 2.5
  {
    ClampedStepIsBounded(0.0, 60.0, speed, Centered(r, 5.0));
    Clamp(0.0, 60.0, speed + Centered(r, 5.0))
  }

  /** Pitch and roll walk by at most 1 degree and stay in [-30, 30]. */
  function NextTilt(angle: real, r: Draw): (a: real)
    ensures -30.0 <= a <= 30.0
    ensures -30.0 <= angle <= 30.0 ==> Abs(a - angle) <= 1.0
  {
    ClampedStepIsBounded(-30.0, 30.0, angle, Centered(r, 2.0));
    Clamp(-30.0, 30.0, angle + Centered(r, 2.0))
  }

  /** Each tire pressure walks by at most 1 PSI and stays in [60, 120]. */
  function NextTire(psi: real, r: Draw): (p: real)
    ensures 60.0 <= p <= 120.0
    ensures 60.0 <= psi <= 120.0 ==> Abs(p - psi) <= 1.0
  {
    ClampedStepIsBounded(60.0, 120.0, psi, Centered(r, 2.0));
    Clamp(60.0, 120.0, psi + Centered(r, 2.0))
  }

  /** The eye-closure rate drifts upward, `(r - 0.4) * 5` in [-2, 3), and stays in [10, 90]. */
  function NextEyeClosure(rate: real, r: Draw): (e: real)
    ensures 10.0 <= e <= 90.0
    ensures 10.0 <= rate <= 90.0 ==> Abs(e - rate) <= 3.0
  {
    var step := (r as real - 0.4) * 5.0;
    ClampedStepIsBounded(10.0, 90.0, rate, step);
    Clamp(10.0, 90.0, rate + step)
  }

  /** With eyes closed more than 60% a yawn is added with probability 0.2
      (capped at 10); otherwise one is forgotten with probability 0.1
      (floored at 0). */
  function NextYawn(yawnCount: int, eyeClosureRate: real, r: Draw): (y: int)
    ensures eyeClosureRate > 60.0 ==> y <= 10 && (yawnCount <= 10 ==> yawnCount <= y <= yawnCount + 1)
    ensures eyeClosureRate <= 60.0 ==> y >= 0 && (yawnCount >= 0 ==> yawnCount - 1 <= y <= yawnCount)
    ensures 0 <= yawnCount <= 10 ==> 0 <= y <= 10
  {
    if eyeClosureRate > 60.0 then
      Min(10, yawnCount + (if r > 0.8 then 1 else 0))
    else
      var dropped := yawnCount - (if r > 0.9 then 1 else 0);
      if dropped > 0 then dropped else 0
  }

  /** Two seconds of consumption (litres per hour) come off the level, which never goes below 0. */
  function FuelAfterTick(fuel: Fuel): (level: real)
    ensures level >= 0.0
    ensures fuel.consumption >= 0.0 && fuel.level >= 0.0 ==> level <= fuel.level
    ensures level == 0.0 || level == fuel.level - fuel.consumption / 1800.0
    ensures fuel.level - fuel.consumption / 1800.0 > 0.0 ==> level == fuel.level - fuel.consumption / 1800.0
  {
    var fuelDecrease := (fuel.consumption / 3600.0) * 2.0;
    var remaining := fuel.level - fuelDecrease;
    if remaining > 0.0 then remaining else 0.0
  }

  /** `getWorkTimePercentage`: the share of the shift worked, capped at 100. */
  function WorkTimePercentage(duration: real, maxDuration: real): (p: real)
    requires maxDuration > 0.0
    ensures p <= 100.0
    ensures p == 100.0 <==> duration >= maxDuration
    ensures duration >= 0.0 ==> p >= 0.0
    ensures duration < maxDuration ==> p == (duration / maxDuration) * 100.0
  {
    var share := (duration / maxDuration) * 100.0;
    assert duration >= maxDuration <==> duration / maxDuration >= 1.0;
    if share < 100.0 then share else 100.0
  }

  // ---------------------------------------------------------------------------
  // Classification

  /** The driver's state from the eye-closure rate and the yawn count. */
  function DrowsinessOf(eyeClosureRate: real, yawnCount: int): (s: Drowsiness)
    ensures s == Critical <==> eyeClosureRate > 60.0 || yawnCount > 5
    ensures s == Drowsy <==> eyeClosureRate <= 60.0 && yawnCount <= 5 && (eyeClosureRate > 40.0 || yawnCount > 2)
    ensures s == Alert <==> eyeClosureRate <= 40.0 && yawnCount <= 2
  {
    if eyeClosureRate > 60.0 || yawnCount > 5 then Critical
    else if eyeClosureRate > 40.0 || yawnCount > 2 then Drowsy
    else Alert
  }

  predicate TireAlarm(p: TirePressure) {
    p.frontLeft < TireAlarmPsi || p.frontRight < TireAlarmPsi || p.rearLeft < TireAlarmPsi || p.rearRight < TireAlarmPsi
  }

  /** The six alarm flags a truck's metrics call for. */
  function AlarmsFor(t: TruckData): Alarms {
    Alarms(
      speed := t.gps.speed > SpeedLimit,
      workTime := t.workTime.duration > t.workTime.maxDuration,
      tilt := Abs(t.tilt.pitch) > 20.0 || Abs(t.tilt.roll) > 15.0,
      fuel := t.fuel.level < 20.0,
      tirePressure := TireAlarm(t.tirePressure),
      drowsiness := t.drowsinessDetection.status != Alert)
  }

  predicate AnyWarning(a: Alarms) {
    a.speed || a.workTime || a.fuel || a.tirePressure || a.drowsiness
  }

  predicate DangerCondition(sosActive: bool, a: Alarms, drowsiness: Drowsiness, fuelLevel: real) {
    sosActive || a.tilt || drowsiness == Critical || fuelLevel < 10.0
  }

  /** The status, danger first: an active SOS, a dangerous tilt, critical
      drowsiness or fuel under 10% is "danger"; otherwise any alarm is
      "warning"; otherwise "normal". */
  function StatusOf(sosActive: bool, a: Alarms, drowsiness: Drowsiness, fuelLevel: real): (s: Level)
    ensures s == Danger <==> DangerCondition(sosActive, a, drowsiness, fuelLevel)
    ensures s == Warning <==> !DangerCondition(sosActive, a, drowsiness, fuelLevel) && AnyWarning(a)
    ensures s == Normal <==> !DangerCondition(sosActive, a, drowsiness, fuelLevel) && !AnyWarning(a)
  {
    if sosActive then Danger
    else if a.tilt || drowsiness == Critical || fuelLevel < 10.0 then Danger
    else if a.speed || a.workTime || a.fuel || a.tirePressure || a.drowsiness then Warning
    else Normal
  }

  /** The derived fields of a truck agree with its metrics. */
  predicate Consistent(t: TruckData) {
    && t.drowsinessDetection.status == DrowsinessOf(t.drowsinessDetection.eyeClosureRate, t.drowsinessDetection.yawnCount)
    && t.alarms == AlarmsFor(t)
    && t.status == StatusOf(t.sos.active, t.alarms, t.drowsinessDetection.status, t.fuel.level)
  }

  /** The ranges every tick puts the walked metrics in, whatever the draws. */
  predicate MetricsInRange(t: TruckData) {
    && 0.0 <= t.gps.speed <= 60.0
    && -30.0 <= t.tilt.pitch <= 30.0 && -30.0 <= t.tilt.roll <= 30.0
    && 60.0 <= t.tirePressure.frontLeft <= 120.0 && 60.0 <= t.tirePressure.frontRight <= 120.0
    && 60.0 <= t.tirePressure.rearLeft <= 120.0 && 60.0 <= t.tirePressure.rearRight <= 120.0
    && 10.0 <= t.drowsinessDetection.eyeClosureRate <= 90.0
    && t.fuel.level >= 0.0
  }

  /** The ranges a tick keeps once they hold. */
  predicate InRange(t: TruckData) {
    && MetricsInRange(t)
    && 0 <= t.drowsinessDetection.yawnCount <= 10
    && |t.route| <= MaxRoutePoints
  }

  /** A consistent truck over the speed limit is never "normal". */
  lemma OverspeedIsNeverNormal(t: TruckData)
    requires Consistent(t) && t.gps.speed > SpeedLimit
    ensures t.alarms.speed && t.status != Normal
  {
  }

  /** A consistent truck is "normal" exactly when no alarm is raised, no SOS is active and fuel is at least 10%. */
  lemma NormalMeansQuiet(t: TruckData)
    requires Consistent(t)
    ensures t.status == Normal <==>
      !t.sos.active && t.fuel.level >= 10.0 && t.alarms == Alarms(false, false, false, false, false, false)
  {
  }

  // ---------------------------------------------------------------------------
  // The route trail

  /** The new position is recorded only when the trail is not empty and the
      position moved more than MoveThreshold on some axis since its last point. */
  predicate Moved(route: seq<RoutePoint>, lat: real, lng: real) {
    |route| > 0 &&
    (Abs(route[|route| - 1].latitude - lat) > MoveThreshold || Abs(route[|route| - 1].longitude - lng) > MoveThreshold)
  }

  /** The trail update of a tick: copy, push the new position, shift the oldest beyond 30. */
  method ExtendRoute(route: seq<RoutePoint>, lat: real, lng: real, now: real) returns (newRoute: seq<RoutePoint>)
    ensures newRoute == if Moved(route, lat, lng) then Slide(route, RoutePoint(lat, lng, now), MaxRoutePoints) else route
    ensures |route| <= MaxRoutePoints ==> |newRoute| <= MaxRoutePoints
  {
    newRoute := route;
    if |newRoute| > 0 {
      var lastPoint := newRoute[|newRoute| - 1];
      if Abs(lastPoint.latitude - lat) > MoveThreshold || Abs(lastPoint.longitude - lng) > MoveThreshold {
        newRoute := newRoute + [RoutePoint(lat, lng, now)];
        if |newRoute| > MaxRoutePoints {
          newRoute := newRoute[1..];
        }
      }
    }
  }

  // ---------------------------------------------------------------------------
  // The tick

  /** One simulation tick of one truck at time `now`. */
  method Tick(truck: TruckData, d: TickDraws, now: real) returns (t: TruckData)
    ensures t.id == truck.id && t.name == truck.name && t.driver == truck.driver
    ensures t.gps == Gps(truck.gps.latitude + Centered(d.lat, 0.0005), truck.gps.longitude + Centered(d.lng, 0.0005),
                         NextSpeed(truck.gps.speed, d.speed), truck.gps.heading)
    ensures t.route == if Moved(truck.route, t.gps.latitude, t.gps.longitude)
                       then Slide(truck.route, RoutePoint(t.gps.latitude, t.gps.longitude, now), MaxRoutePoints)
                       else truck.route
    ensures t.tilt == Tilt(NextTilt(truck.tilt.pitch, d.pitch), NextTilt(truck.tilt.roll, d.roll))
    ensures t.sos == truck.sos
    ensures t.fuel == truck.fuel.(level := FuelAfterTick(truck.fuel))
    ensures t.tirePressure == TirePressure(
      NextTire(truck.tirePressure.frontLeft, d.frontLeft), NextTire(truck.tirePressure.frontRight, d.frontRight),
      NextTire(truck.tirePressure.rearLeft, d.rearLeft), NextTire(truck.tirePressure.rearRight, d.rearRight),
      truck.tirePressure.optimal)
    ensures t.drowsinessDetection.eyeClosureRate == NextEyeClosure(truck.drowsinessDetection.eyeClosureRate, d.eye)
    ensures t.drowsinessDetection.yawnCount ==
      NextYawn(truck.drowsinessDetection.yawnCount, t.drowsinessDetection.eyeClosureRate, d.yawn)
    ensures t.drowsinessDetection.lastAlert ==
      if t.drowsinessDetection.status == Critical then Some(now) else truck.drowsinessDetection.lastAlert
    ensures t.workTime == truck.workTime.(duration := (now - truck.workTime.startTime) / MsPerMinute)
    ensures t.lastUpdate == now
    ensures Consistent(t)
    ensures MetricsInRange(t)
    ensures InRange(truck) ==> InRange(t)
  {
    var newSpeed := NextSpeed(truck.gps.speed, d.speed);
    var newLat := truck.gps.latitude + (d.lat as real - 0.5) * 0.0005;
    var newLng := truck.gps.longitude + (d.lng as real - 0.5) * 0.0005;
    var newRoute := ExtendRoute(truck.route, newLat, newLng, now);

    var newPitch := NextTilt(truck.tilt.pitch, d.pitch);
    var newRoll := NextTilt(truck.tilt.roll, d.roll);
    var workDuration := (now - truck.workTime.startTime) / MsPerMinute;
    var newFuelLevel := FuelAfterTick(truck.fuel);
    var tirePressure := TirePressure(
      NextTire(truck.tirePressure.frontLeft, d.frontLeft), NextTire(truck.tirePressure.frontRight, d.frontRight),
      NextTire(truck.tirePressure.rearLeft, d.rearLeft), NextTire(truck.tirePressure.rearRight, d.rearRight),
      truck.tirePressure.optimal);
    var eyeClosureRate := NextEyeClosure(truck.drowsinessDetection.eyeClosureRate, d.eye);
    var yawnCount := NextYawn(truck.drowsinessDetection.yawnCount, eyeClosureRate, d.yawn);

    var drowsinessStatus := Alert;
    if eyeClosureRate > 60.0 || yawnCount > 5 {
      drowsinessStatus := Critical;
    } else if eyeClosureRate > 40.0 || yawnCount > 2 {
      drowsinessStatus := Drowsy;
    }

    var speedAlarm := newSpeed > SpeedLimit;
    var tiltAlarm := Abs(newPitch) > 20.0 || Abs(newRoll) > 15.0;
    var workTimeAlarm := workDuration > truck.workTime.maxDuration;
    var fuelAlarm := newFuelLevel < 20.0;
    var tirePressureAlarm := TireAlarm(tirePressure);
    var drowsinessAlarm := drowsinessStatus != Alert;

    var status := Normal;
    if truck.sos.active {
      status := Danger;
    } else if tiltAlarm || drowsinessStatus == Critical || newFuelLevel < 10.0 {
      status := Danger;
    } else if speedAlarm || workTimeAlarm || fuelAlarm || tirePressureAlarm || drowsinessAlarm {
      status := Warning;
    }

    t := truck.(
      route := newRoute,
      gps := truck.gps.(latitude := newLat, longitude := newLng, speed := newSpeed),
      tilt := Tilt(newPitch, newRoll),
      fuel := truck.fuel.(level := newFuelLevel),
      tirePressure := tirePressure,
      drowsinessDetection := DrowsinessDetection(
        drowsinessStatus, eyeClosureRate, yawnCount,
        if drowsinessAlarm && drowsinessStatus == Critical then Some(now) else truck.drowsinessDetection.lastAlert),
      alarms := Alarms(speedAlarm, workTimeAlarm, tiltAlarm, fuelAlarm, tirePressureAlarm, drowsinessAlarm),
      workTime := truck.workTime.(duration := workDuration),
      status := status,
      lastUpdate := now);
  }
}
