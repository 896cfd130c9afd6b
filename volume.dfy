/** The vehicle volume / CCTV monitor: every three seconds four counters
    take clamped random walks, the truck-flow chart gets one new point (at
    most eight kept), and a new event is put at the head of the event log (at
    most ten kept). Clock labels and event ids are parameters. */
module Volume {
  import opened Sim
  import opened Buffers

  datatype EventLog = EventLog(id: int, time: string, vehicleId: string, kind: string, status: string)

  const Vehicles: seq<string> :=
    ["HD-785-001", "HD-785-012", "CAT-797-005", "CAT-797-003", "HD-785-007", "CAT-797-009"]
  const EventTypes: seq<string> := ["Entry", "Exit"]
  /** Four "Normal" entries and one speeding entry: a new event is speeding with probability 1/5. */
  const EventStatuses: seq<string> := ["Normal", "Normal", "Normal", "Normal", "Passing Speed Limit"]

  const ChartCap: nat := 8
  const LogCap: nat := 10

  // ---------------------------------------------------------------------------
  // Counter walks: `Math.max(lo, Math.min(hi, prev + step))`

  /** Fleet size moves by -1, 0 or +1 and stays in [35, 50]. */
  function NextFleet(prev: int, r: Draw): (n: int)
    ensures 35 <= n <= 50
    ensures 35 <= prev <= 50 ==> -1 <= n - prev <= 1
  {
    var step := PickIndex(r, 3) - 1;
    ClampedIntStepIsBounded(35, 50, prev, step, 1);
    ClampInt(35, 50, prev + step)
  }

  /** Traffic density moves by -2 .. +2 and stays in [50, 85]. */
  function NextDensity(prev: int, r: Draw): (n: int)
    ensures 50 <= n <= 85
    ensures 50 <= prev <= 85 ==> -2 <= n - prev <= 2
  {
    var step := PickIndex(r, 5) - 2;
    ClampedIntStepIsBounded(50, 85, prev, step, 2);
    ClampInt(50, 85, prev + step)
  }

  /** Safety alerts move by -1, 0 or +1 and stay in [0, 10]. */
  function NextAlerts(prev: int, r: Draw): (n: int)
    ensures 0 <= n <= 10
    ensures 0 <= prev <= 10 ==> -1 <= n - prev <= 1
  {
    var step := PickIndex(r, 3) - 1;
    ClampedIntStepIsBounded(0, 10, prev, step, 1);
    ClampInt(0, 10, prev + step)
  }

  /** System uptime moves by less than 0.1 and stays in [98, 100]. */
  function NextUptime(prev: real, r: Draw): (u: real)
    ensures 98.0 <= u <= 100.0
    ensures 98.0 <= prev <= 100.0 ==> Abs(u - prev) <= 0.1
  {
    var step := r * 0.2 - 0.1;
    ClampedStepIsBounded(98.0, 100.0, prev, step);
    Clamp(98.0, 100.0, prev + step)
  }

  /** `Math.floor(Math.random() * 15) + 10`: the truck flow of the new chart point. */
  function NewFlow(r: Draw): (v: int)
    ensures 10 <= v <= 24
  {
    PickIndex(r, 15) + 10
  }

  /** A new event: its vehicle, type and status are drawn from the fixed lists. */
  function NewLog(id: int, time: string, rVehicle: Draw, rType: Draw, rStatus: Draw): (e: EventLog)
    ensures e.id == id && e.time == time
    ensures e.vehicleId in Vehicles && e.kind in EventTypes && e.status in EventStatuses
    ensures e.status == "Normal" || e.status == "Passing Speed Limit"
  {
    EventLog(id, time,
             Vehicles[PickIndex(rVehicle, |Vehicles|)],
             EventTypes[PickIndex(rType, |EventTypes|)],
             EventStatuses[PickIndex(rStatus, |EventStatuses|)])
  }

  /** `[newLog, ...prev.slice(0, 9)]`: the newest event first, then the nine
      most recent earlier ones in their order. */
  function PrependLog(prev: seq<EventLog>, newLog: EventLog): (logs: seq<EventLog>)
    ensures |logs| == Min(|prev| + 1, LogCap)
    ensures logs[0] == newLog
    ensures forall i :: 1 <= i < |logs| ==> logs[i] == prev[i - 1]
  {
    [newLog] + prev[..Min(|prev|, LogCap - 1)]
  }

  /** After any sequence of events the log holds the most recent ones, newest
      first, and never more than ten. */
  lemma {:induction false} LogOfEvents(events: seq<EventLog>, start: seq<EventLog>)
    requires |start| <= LogCap
    ensures var logs := Replay(start, events);
      && |logs| == Min(|start| + |events|, LogCap)
      && (forall i :: 0 <= i < Min(|events|, LogCap) ==> logs[i] == events[|events| - 1 - i])
  {
    if events != [] {
      var before := events[..|events| - 1];
      LogOfEvents(before, start);
      var logs := Replay(start, events);
      assert logs == PrependLog(Replay(start, before), events[|events| - 1]);
      assert |logs| == Min(|Replay(start, before)| + 1, LogCap);
      forall i | 1 <= i < Min(|events|, LogCap)
        ensures logs[i] == events[|events| - 1 - i]
      {
        assert logs[i] == Replay(start, before)[i - 1];
        assert before[|before| - 1 - (i - 1)] == events[|events| - 1 - i];
      }
    }
  }

  /** The log after the events are prepended one by one, oldest first. */
  function Replay(start: seq<EventLog>, events: seq<EventLog>): seq<EventLog> {
    if events == [] then start
    else PrependLog(Replay(start, events[..|events| - 1]), events[|events| - 1])
  }

  /** The random draws of one tick. */
  datatype VolumeDraws = VolumeDraws(fleet: Draw, density: Draw, alerts: Draw, uptime: Draw, flow: Draw,
                                     vehicle: Draw, eventType: Draw, eventStatus: Draw)

  /** The page's state, updated in place every tick. */
  class VolumeMonitor {
    var totalFleet: int
    var trafficDensity: int
    var safetyAlerts: int
    var systemUptime: real
    var chartLabels: seq<string>
    var chartData: seq<int>
    var eventLogs: seq<EventLog>

    ghost predicate Valid()
      reads this
    {
      && 35 <= totalFleet <= 50
      && 50 <= trafficDensity <= 85
      && 0 <= safetyAlerts <= 10
      && 98.0 <= systemUptime <= 100.0
      && |chartLabels| == |chartData| <= ChartCap
      && |eventLogs| <= LogCap
    }

    /** The page's initial state: five chart points and five logged events. */
    constructor ()
      ensures Valid()
      ensures totalFleet == 42 && trafficDensity == 68 && safetyAlerts == 3 && systemUptime == 99.8
      ensures chartData == [12, 19, 15, 22, 18] && |eventLogs| == 5
    {
      totalFleet := 42;
      trafficDensity := 68;
      safetyAlerts := 3;
      systemUptime := 99.8;
      chartLabels := ["10:00", "10:05", "10:10", "10:15", "10:20"];
      chartData := [12, 19, 15, 22, 18];
      eventLogs := [
        EventLog(1, "10:23:45", "HD-785-001", "Entry", "Normal"),
        EventLog(2, "10:22:12", "HD-785-012", "Exit", "Normal"),
        EventLog(3, "10:21:33", "CAT-797-005", "Entry", "Passing Speed Limit"),
        EventLog(4, "10:20:08", "HD-785-007", "Exit", "Normal"),
        EventLog(5, "10:19:45", "CAT-797-003", "Entry", "Normal")];
    }

    /** One three-second tick. */
    method Tick(d: VolumeDraws, chartLabel: string, timeStr: string, nowId: int)
      requires Valid()
      modifies this
      ensures Valid()
      ensures totalFleet == NextFleet(old(totalFleet), d.fleet)
      ensures trafficDensity == NextDensity(old(trafficDensity), d.density)
      ensures safetyAlerts == NextAlerts(old(safetyAlerts), d.alerts)
      ensures systemUptime == NextUptime(old(systemUptime), d.uptime)
      ensures chartLabels == Slide(old(chartLabels), chartLabel, ChartCap)
      ensures chartData == Slide(old(chartData), NewFlow(d.flow), ChartCap)
      ensures eventLogs == PrependLog(old(eventLogs), NewLog(nowId, timeStr, d.vehicle, d.eventType, d.eventStatus))
    {
      totalFleet := NextFleet(totalFleet, d.fleet);
      trafficDensity := NextDensity(trafficDensity, d.density);
      safetyAlerts := NextAlerts(safetyAlerts, d.alerts);
      systemUptime := NextUptime(systemUptime, d.uptime);
      chartLabels, chartData := PushCapped(chartLabels, chartData, chartLabel, NewFlow(d.flow), ChartCap);
      eventLogs := PrependLog(eventLogs, NewLog(nowId, timeStr, d.vehicle, d.eventType, d.eventStatus));
    }
  }
}
