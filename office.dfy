/** The office climate monitor: five readings per room are checked against
    the mining office standards with a 10% margin, a room's status is the
    worst of its five, every five seconds each reading takes a clamped
    random walk, and the average temperature and humidity are appended to
    two trend charts of at most ten entries. */
module Office {
  import opened Sim
  import opened Buffers

  datatype Room = Room(id: string, name: string, temperature: real, humidity: real, lightIntensity: real,
                       dustPM25: real, co2: real, status: Level)

  /** An acceptable range `[min, max]` of one reading. */
  datatype Standard = Standard(min: real, max: real)

  const TemperatureStandard := Standard(20.0, 28.0)
  const HumidityStandard := Standard(40.0, 70.0)
  const LightIntensityStandard := Standard(300.0, 1000.0)
  const DustPM25Standard := Standard(0.0, 35.0)
  const Co2Standard := Standard(0.0, 1000.0)

  /** Entries kept by each trend chart. */
  const HistoryCap: nat := 10

  /** `checkStatus`: inside the range is "normal", beyond it by more than a
      tenth of its width is "danger", in between is "warning". Both bounds
      are inclusive. */
  function CheckStatus(value: real, min: real, max: real): (s: Level)
    ensures s == Normal <==> min <= value <= max
    ensures s == Danger <==> value < min - (max - min) * 0.1 || value > max + (max - min) * 0.1
    ensures s == Warning <==>
      (min - (max - min) * 0.1 <= value < min || max < value <= max + (max - min) * 0.1)
  {
    var margin := (max - min) * 0.1;
    if value < min - margin || value > max + margin then Danger
    else if value < min || value > max then Warning
    else Normal
  }

  /** The two CO2 readings that sit either side of the danger line. */
  lemma Co2Bands()
    ensures CheckStatus(1200.0, Co2Standard.min, Co2Standard.max) == Danger
    ensures CheckStatus(1050.0, Co2Standard.min, Co2Standard.max) == Warning
    ensures CheckStatus(1000.0, Co2Standard.min, Co2Standard.max) == Normal
  {
  }

  /** The most severe of the statuses ("normal" for none): `includes("danger")`, then `includes("warning")`. */
  function Worst(statuses: seq<Level>): (w: Level)
    ensures forall i :: 0 <= i < |statuses| ==> statuses[i].Rank() <= w.Rank()
    ensures w in statuses || (w == Normal && statuses == [])
  {
    if Danger in statuses then Danger
    else if Warning in statuses then Warning
    else if statuses == [] then Normal
    else
      assert statuses[0] == Normal;
      Normal
  }

  /** The five per-reading statuses of a room, in the order they are checked. */
  function ReadingStatuses(room: Room): (s: seq<Level>)
    ensures |s| == 5
  {
    [ CheckStatus(room.temperature, TemperatureStandard.min, TemperatureStandard.max),
      CheckStatus(room.humidity, HumidityStandard.min, HumidityStandard.max),
      CheckStatus(room.lightIntensity, LightIntensityStandard.min, LightIntensityStandard.max),
      CheckStatus(room.dustPM25, DustPM25Standard.min, DustPM25Standard.max),
      CheckStatus(room.co2, Co2Standard.min, Co2Standard.max) ]
  }

  /** `updateRoomStatus`: only the status changes, and it is "danger" if
      some reading is, else "warning" if some reading is, else "normal". */
  function UpdateRoomStatus(room: Room): (r: Room)
    ensures r == room.(status := r.status)
    ensures r.status == Danger <==> Danger in ReadingStatuses(room)
    ensures r.status == Warning <==> Danger !in ReadingStatuses(room) && Warning in ReadingStatuses(room)
    ensures r.status == Normal <==> forall i :: 0 <= i < 5 ==> ReadingStatuses(room)[i] == Normal
  {
    var statuses := ReadingStatuses(room);
    var w := Worst(statuses);
    assert w == Normal ==> forall i :: 0 <= i < 5 ==> statuses[i].Rank() == 0;
    room.(status := w)
  }

  /** A room's status depends on its readings alone: recomputing it changes nothing. */
  lemma UpdateRoomStatusIdempotent(room: Room)
    ensures UpdateRoomStatus(UpdateRoomStatus(room)) == UpdateRoomStatus(room)
  {
  }

  /** The random draws one room's tick makes, one per reading. */
  datatype RoomDraws = RoomDraws(temperature: Draw, humidity: Draw, lightIntensity: Draw, dustPM25: Draw, co2: Draw)

  /** The clamp ranges of the simulated readings. */
  predicate ReadingsInRange(room: Room) {
    && 18.0 <= room.temperature <= 32.0
    && 30.0 <= room.humidity <= 80.0
    && 200.0 <= room.lightIntensity <= 1200.0
    && 0.0 <= room.dustPM25 <= 50.0
    && 400.0 <= room.co2 <= 1500.0
  }

  /** One room's tick: five clamped walks, then the status recomputed from the new readings. */
  function TickRoom(room: Room, d: RoomDraws): (r: Room)
    ensures ReadingsInRange(r)
    ensures r.id == room.id && r.name == room.name
    ensures r == UpdateRoomStatus(r)
    ensures r.temperature == Clamp(18.0, 32.0, room.temperature + Centered(d.temperature, 0.5))
    ensures r.humidity == Clamp(30.0, 80.0, room.humidity + Centered(d.humidity, 2.0))
    ensures r.lightIntensity == Clamp(200.0, 1200.0, room.lightIntensity + Centered(d.lightIntensity, 20.0))
    ensures r.dustPM25 == Clamp(0.0, 50.0, room.dustPM25 + Centered(d.dustPM25, 3.0))
    ensures r.co2 == Clamp(400.0, 1500.0, room.co2 + Centered(d.co2, 30.0))
  {
    var updated := room.(
      temperature := Clamp(18.0, 32.0, room.temperature + Centered(d.temperature, 0.5)),
      humidity := Clamp(30.0, 80.0, room.humidity + Centered(d.humidity, 2.0)),
      lightIntensity := Clamp(200.0, 1200.0, room.lightIntensity + Centered(d.lightIntensity, 20.0)),
      dustPM25 := Clamp(0.0, 50.0, room.dustPM25 + Centered(d.dustPM25, 3.0)),
      co2 := Clamp(400.0, 1500.0, room.co2 + Centered(d.co2, 30.0)));
    UpdateRoomStatusIdempotent(updated);
    UpdateRoomStatus(updated)
  }

  /** Every room of the office takes one tick with its own draws. */
  function TickRooms(rooms: seq<Room>, draws: seq<RoomDraws>): (r: seq<Room>)
    requires |draws| == |rooms|
    ensures |r| == |rooms|
    ensures forall i :: 0 <= i < |r| ==> r[i] == TickRoom(rooms[i], draws[i])
    ensures forall i :: 0 <= i < |r| ==>
      && r[i].id == rooms[i].id
      && ReadingsInRange(r[i])
      && r[i].status == UpdateRoomStatus(r[i]).status
  {
    seq(|rooms|, i requires 0 <= i < |rooms| => TickRoom(rooms[i], draws[i]))
  }

  // ---------------------------------------------------------------------------
  // Trend charts

  function Sum(xs: seq<real>): real {
    if xs == [] then 0.0 else Sum(xs[..|xs| - 1]) + xs[|xs| - 1]
  }

  /** `reduce((sum, x) => sum + x, 0) / length`. */
  function Mean(xs: seq<real>): real
    requires |xs| > 0
  {
    Sum(xs) / |xs| as real
  }

  lemma {:induction false} SumBounds(xs: seq<real>, lo: real, hi: real)
    requires forall i :: 0 <= i < |xs| ==> lo <= xs[i] <= hi
    ensures |xs| as real * lo <= Sum(xs) <= |xs| as real * hi
  {
    if xs != [] {
      SumBounds(xs[..|xs| - 1], lo, hi);
    }
  }

  /** The average of readings that all lie in [lo, hi] lies in [lo, hi]. */
  lemma MeanWithin(xs: seq<real>, lo: real, hi: real)
    requires |xs| > 0
    requires forall i :: 0 <= i < |xs| ==> lo <= xs[i] <= hi
    ensures lo <= Mean(xs) <= hi
  {
    SumBounds(xs, lo, hi);
    var n := |xs| as real;
    assert Mean(xs) * n == Sum(xs);
  }

  function Temperatures(rooms: seq<Room>): (ts: seq<real>)
    ensures |ts| == |rooms| && forall i :: 0 <= i < |rooms| ==> ts[i] == rooms[i].temperature
  {
    seq(|rooms|, i requires 0 <= i < |rooms| => rooms[i].temperature)
  }

  function Humidities(rooms: seq<Room>): (hs: seq<real>)
    ensures |hs| == |rooms| && forall i :: 0 <= i < |rooms| ==> hs[i] == rooms[i].humidity
  {
    seq(|rooms|, i requires 0 <= i < |rooms| => rooms[i].humidity)
  }

  /** A trend chart: time labels and the averages plotted at them. */
  datatype History = History(labels: seq<string>, data: seq<real>)

  predicate HistoryValid(h: History) {
    |h.labels| == |h.data| <= HistoryCap
  }

  /** Appends the current average of `readings` under `timeLabel`, keeping at most ten entries. */
  method RecordAverage(h: History, timeLabel: string, readings: seq<real>) returns (h': History)
    requires |readings| > 0
    ensures h'.labels == Slide(h.labels, timeLabel, HistoryCap)
    ensures |h.labels| == |h.data| ==> h'.data == Slide(h.data, Mean(readings), HistoryCap)
    ensures HistoryValid(h) ==> HistoryValid(h')
  {
    var newLabels, newData := PushCapped(h.labels, h.data, timeLabel, Mean(readings), HistoryCap);
    h' := History(newLabels, newData);
  }

  /** The state of the office page. */
  datatype OfficeState = OfficeState(rooms: seq<Room>, tempHistory: History, humidityHistory: History)

  predicate OfficeValid(s: OfficeState) {
    && |s.rooms| > 0
    && (forall i :: 0 <= i < |s.rooms| ==> ReadingsInRange(s.rooms[i]))
    && HistoryValid(s.tempHistory) && HistoryValid(s.humidityHistory)
  }

  /** One five-second tick: every room walks, and both charts record the
      averages of the rooms as they stood when the tick began. */
  method Step(s: OfficeState, draws: seq<RoomDraws>, timeLabel: string) returns (s': OfficeState)
    requires |s.rooms| > 0 && |draws| == |s.rooms|
    ensures s'.rooms == TickRooms(s.rooms, draws)
    ensures s'.tempHistory.labels == Slide(s.tempHistory.labels, timeLabel, HistoryCap)
    ensures s'.humidityHistory.labels == Slide(s.humidityHistory.labels, timeLabel, HistoryCap)
    ensures |s.tempHistory.labels| == |s.tempHistory.data| ==>
      s'.tempHistory.data == Slide(s.tempHistory.data, Mean(Temperatures(s.rooms)), HistoryCap)
    ensures |s.humidityHistory.labels| == |s.humidityHistory.data| ==>
      s'.humidityHistory.data == Slide(s.humidityHistory.data, Mean(Humidities(s.rooms)), HistoryCap)
    ensures OfficeValid(s) ==> OfficeValid(s')
    ensures OfficeValid(s) ==> 18.0 <= Mean(Temperatures(s.rooms)) <= 32.0 && 30.0 <= Mean(Humidities(s.rooms)) <= 80.0
  {
    var rooms := TickRooms(s.rooms, draws);
    var tempHistory := RecordAverage(s.tempHistory, timeLabel, Temperatures(s.rooms));
    var humidityHistory := RecordAverage(s.humidityHistory, timeLabel, Humidities(s.rooms));
    s' := OfficeState(rooms, tempHistory, humidityHistory);
    if OfficeValid(s) {
      MeanWithin(Temperatures(s.rooms), 18.0, 32.0);
      MeanWithin(Humidities(s.rooms), 30.0, 80.0);
    }
  }
}
