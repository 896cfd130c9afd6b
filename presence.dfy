/** The attendance and health-screening page: a list of check-in records
    filtered by role and screening result, the day's summary counts, and the
    blood-pressure and body-temperature bands shown beside each record. */
module Presence {
  import opened Sim

  datatype Role = Office | Driver
  datatype CheckType = CheckIn | CheckOut
  datatype FaceRecognition = Success | Failed
  datatype Answer = Yes | No

  datatype HealthData = HealthData(bloodPressureSystolic: real, bloodPressureDiastolic: real, bodyTemperature: real)
  datatype ScreeningAnswer = ScreeningAnswer(question: string, answer: Answer)

  datatype AttendanceRecord = AttendanceRecord(
    id: string,
    employeeId: string,
    employeeName: string,
    role: Role,
    timestamp: real,
    kind: CheckType,
    faceRecognitionStatus: FaceRecognition,
    faceMatchScore: real,
    health: HealthData,
    screening: seq<ScreeningAnswer>,
    screeningPassed: bool,
    location: string,
    photoUrl: Option<string>)

  /** The role filter: "all" | "office" | "driver". */
  datatype RoleFilter = AllRoles | RoleIs(role: Role)
  /** The screening filter: "all" | "passed" | "failed". */
  datatype StatusFilter = AllStatuses | PassedOnly | FailedOnly

  predicate Matches(att: AttendanceRecord, roleFilter: RoleFilter, statusFilter: StatusFilter) {
    var roleMatch := roleFilter == AllRoles || (roleFilter.RoleIs? && att.role == roleFilter.role);
    var statusMatch := statusFilter == AllStatuses
      || (statusFilter == PassedOnly && att.screeningPassed)
      || (statusFilter == FailedOnly && !att.screeningPassed);
    roleMatch && statusMatch
  }

  /** `filteredAttendances`: the records that pass both filters. */
  function FilteredAttendances(atts: seq<AttendanceRecord>, roleFilter: RoleFilter, statusFilter: StatusFilter)
    : (kept: seq<AttendanceRecord>)
    ensures |kept| <= |atts|
    ensures forall k :: 0 <= k < |kept| ==> Matches(kept[k], roleFilter, statusFilter)
  {
    if atts == [] then []
    else
      var rest := FilteredAttendances(atts[1..], roleFilter, statusFilter);
      if Matches(atts[0], roleFilter, statusFilter) then [atts[0]] + rest else rest
  }

  /** A record is shown exactly when it is in the list and passes both filters. */
  lemma {:induction false} FilterMembership(atts: seq<AttendanceRecord>, roleFilter: RoleFilter, statusFilter: StatusFilter)
    ensures forall x :: x in FilteredAttendances(atts, roleFilter, statusFilter) <==>
      x in atts && Matches(x, roleFilter, statusFilter)
  {
    if atts != [] {
      FilterMembership(atts[1..], roleFilter, statusFilter);
      assert forall x :: x in atts <==> x == atts[0] || x in atts[1..];
    }
  }

  /** Every position moved one place to the right. */
  function ShiftRight(positions: seq<nat>): (r: seq<nat>)
    ensures |r| == |positions|
    ensures forall k :: 0 <= k < |r| ==> r[k] == positions[k] + 1
  {
    seq(|positions|, k requires 0 <= k < |positions| => positions[k] + 1)
  }

  /** The positions, in the unfiltered list, of the records the filters keep. */
  function MatchPositions(atts: seq<AttendanceRecord>, roleFilter: RoleFilter, statusFilter: StatusFilter)
    : (idx: seq<nat>)
    ensures |idx| == |FilteredAttendances(atts, roleFilter, statusFilter)|
    ensures forall k :: 0 <= k < |idx| ==> idx[k] < |atts|
  {
    if atts == [] then []
    else
      var tail := ShiftRight(MatchPositions(atts[1..], roleFilter, statusFilter));
      if Matches(atts[0], roleFilter, statusFilter) then [0] + tail else tail
  }

  /** The k-th shown record is the record at the k-th matching position. */
  lemma {:induction false} FilterSelectsPositions(atts: seq<AttendanceRecord>, roleFilter: RoleFilter, statusFilter: StatusFilter)
    ensures forall k :: 0 <= k < |MatchPositions(atts, roleFilter, statusFilter)| ==>
      FilteredAttendances(atts, roleFilter, statusFilter)[k] == atts[MatchPositions(atts, roleFilter, statusFilter)[k]]
  {
    if atts != [] {
      FilterSelectsPositions(atts[1..], roleFilter, statusFilter);
      var tail := MatchPositions(atts[1..], roleFilter, statusFilter);
      var rest := FilteredAttendances(atts[1..], roleFilter, statusFilter);
      var kept := FilteredAttendances(atts, roleFilter, statusFilter);
      var idx := MatchPositions(atts, roleFilter, statusFilter);
      var first := Matches(atts[0], roleFilter, statusFilter);
      var skip := if first then 1 else 0;
      assert kept == if first then [atts[0]] + rest else rest;
      assert idx == if first then [0] + ShiftRight(tail) else ShiftRight(tail);
      forall k | skip <= k < |idx|
        ensures kept[k] == atts[idx[k]]
      {
        assert idx[k] == tail[k - skip] + 1 && kept[k] == rest[k - skip];
        assert atts[1..][tail[k - skip]] == atts[tail[k - skip] + 1];
      }
    }
  }

  /** The shown records keep their original order: the positions increase. */
  lemma {:induction false} FilterKeepsOrder(atts: seq<AttendanceRecord>, roleFilter: RoleFilter, statusFilter: StatusFilter)
    ensures forall k, l :: 0 <= k < l < |MatchPositions(atts, roleFilter, statusFilter)| ==>
      MatchPositions(atts, roleFilter, statusFilter)[k] < MatchPositions(atts, roleFilter, statusFilter)[l]
  {
    if atts != [] {
      FilterKeepsOrder(atts[1..], roleFilter, statusFilter);
      var tail := MatchPositions(atts[1..], roleFilter, statusFilter);
      var idx := MatchPositions(atts, roleFilter, statusFilter);
      var first := Matches(atts[0], roleFilter, statusFilter);
      var skip := if first then 1 else 0;
      assert idx == if first then [0] + ShiftRight(tail) else ShiftRight(tail);
      forall k, l | 0 <= k < l < |idx|
        ensures idx[k] < idx[l]
      {
        assert idx[l] == tail[l - skip] + 1;
        if k >= skip {
          assert idx[k] == tail[k - skip] + 1;
          assert tail[k - skip] < tail[l - skip];
        }
      }
    }
  }

  /** No matching record is dropped: every matching position is listed. */
  lemma {:induction false} FilterKeepsAllMatches(atts: seq<AttendanceRecord>, roleFilter: RoleFilter, statusFilter: StatusFilter)
    ensures forall j :: 0 <= j < |atts| && Matches(atts[j], roleFilter, statusFilter) ==>
      j in MatchPositions(atts, roleFilter, statusFilter)
  {
    if atts != [] {
      FilterKeepsAllMatches(atts[1..], roleFilter, statusFilter);
      var tail := MatchPositions(atts[1..], roleFilter, statusFilter);
      var idx := MatchPositions(atts, roleFilter, statusFilter);
      var first := Matches(atts[0], roleFilter, statusFilter);
      var skip := if first then 1 else 0;
      assert idx == if first then [0] + ShiftRight(tail) else ShiftRight(tail);
      forall j | 1 <= j < |atts| && Matches(atts[j], roleFilter, statusFilter)
        ensures j in idx
      {
        assert atts[1..][j - 1] == atts[j];
        var k :| 0 <= k < |tail| && tail[k] == j - 1;
        assert idx[k + skip] == j;
      }
    }
  }

  /** With "all" and "all" every record is shown. */
  lemma {:induction false} FilterAllKeepsEverything(atts: seq<AttendanceRecord>)
    ensures FilteredAttendances(atts, AllRoles, AllStatuses) == atts
  {
    if atts != [] {
      FilterAllKeepsEverything(atts[1..]);
      assert [atts[0]] + atts[1..] == atts;
    }
  }

  // ---------------------------------------------------------------------------
  // The day's summary

  function CountRole(atts: seq<AttendanceRecord>, role: Role): nat {
    if atts == [] then 0 else (if atts[0].role == role then 1 else 0) + CountRole(atts[1..], role)
  }

  function CountScreening(atts: seq<AttendanceRecord>, passed: bool): nat {
    if atts == [] then 0 else (if atts[0].screeningPassed == passed then 1 else 0) + CountScreening(atts[1..], passed)
  }

  function CountFaceSuccess(atts: seq<AttendanceRecord>): nat {
    if atts == [] then 0
    else (if atts[0].faceRecognitionStatus == Success then 1 else 0) + CountFaceSuccess(atts[1..])
  }

  /** Every record is office or driver, passed or failed, and at most all recognised. */
  lemma {:induction false} CountsPartition(atts: seq<AttendanceRecord>)
    ensures CountRole(atts, Office) + CountRole(atts, Driver) == |atts|
    ensures CountScreening(atts, true) + CountScreening(atts, false) == |atts|
    ensures CountFaceSuccess(atts) <= |atts|
  {
    if atts != [] {
      CountsPartition(atts[1..]);
    }
  }

  /** The role count on the summary equals the number of rows the role filter shows. */
  lemma {:induction false} RoleCountIsFilterSize(atts: seq<AttendanceRecord>, role: Role)
    ensures |FilteredAttendances(atts, RoleIs(role), AllStatuses)| == CountRole(atts, role)
  {
    if atts != [] {
      RoleCountIsFilterSize(atts[1..], role);
    }
  }

  /** The summary's passed (failed) count equals the number of rows the "passed" ("failed") filter shows. */
  lemma {:induction false} ScreeningCountIsFilterSize(atts: seq<AttendanceRecord>)
    ensures |FilteredAttendances(atts, AllRoles, PassedOnly)| == CountScreening(atts, true)
    ensures |FilteredAttendances(atts, AllRoles, FailedOnly)| == CountScreening(atts, false)
  {
    if atts != [] {
      ScreeningCountIsFilterSize(atts[1..]);
    }
  }

  datatype TodayStats = TodayStats(total: nat, office: nat, driver: nat, passed: nat, failed: nat, faceSuccess: nat)

  /** `todayStats`. */
  function TodayStatsOf(atts: seq<AttendanceRecord>): (s: TodayStats)
    ensures s.total == |atts|
    ensures s.office == |FilteredAttendances(atts, RoleIs(Office), AllStatuses)|
    ensures s.driver == |FilteredAttendances(atts, RoleIs(Driver), AllStatuses)|
    ensures s.passed == |FilteredAttendances(atts, AllRoles, PassedOnly)|
    ensures s.failed == |FilteredAttendances(atts, AllRoles, FailedOnly)|
    ensures s.faceSuccess == CountFaceSuccess(atts)
    ensures s.office + s.driver == s.total
    ensures s.passed + s.failed == s.total
    ensures s.faceSuccess <= s.total
  {
    CountsPartition(atts);
    RoleCountIsFilterSize(atts, Office);
    RoleCountIsFilterSize(atts, Driver);
    ScreeningCountIsFilterSize(atts);
    TodayStats(|atts|, CountRole(atts, Office), CountRole(atts, Driver),
               CountScreening(atts, true), CountScreening(atts, false), CountFaceSuccess(atts))
  }

  // ---------------------------------------------------------------------------
  // Health bands

  datatype BloodPressureStatus = Tinggi | Prehipertensi | Rendah | NormalPressure {
    function Label(): string {
      match this
      case Tinggi => "Tinggi"
      case Prehipertensi => "Prehipertensi"
      case Rendah => "Rendah"
      case NormalPressure => "Normal"
    }
  }

  /** `getBloodPressureStatus`: high first, then pre-hypertension, then low. */
  function GetBloodPressureStatus(systolic: real, diastolic: real): (s: BloodPressureStatus)
    ensures s == Tinggi <==> systolic > 140.0 || diastolic > 90.0
    ensures s == Prehipertensi <==>
      systolic <= 140.0 && diastolic <= 90.0 && (systolic > 130.0 || diastolic > 85.0)
    ensures s == Rendah <==> systolic <= 130.0 && diastolic <= 85.0 && (systolic < 90.0 || diastolic < 60.0)
    ensures s == NormalPressure <==> 90.0 <= systolic <= 130.0 && 60.0 <= diastolic <= 85.0
  {
    if systolic > 140.0 || diastolic > 90.0 then Tinggi
    else if systolic > 130.0 || diastolic > 85.0 then Prehipertensi
    else if systolic < 90.0 || diastolic < 60.0 then Rendah
    else NormalPressure
  }

  datatype TemperatureStatus = DemamTinggi | Demam | Hipotermia | NormalTemperature {
    function Label(): string {
      match this
      case DemamTinggi => "Demam Tinggi"
      case Demam => "Demam"
      case Hipotermia => "Hipotermia"
      case NormalTemperature => "Normal"
    }
  }

  /** `getTemperatureStatus`: high fever from 38, fever from 37.5, hypothermia below 35. */
  function GetTemperatureStatus(temp: real): (s: TemperatureStatus)
    ensures s == DemamTinggi <==> temp >= 38.0
    ensures s == Demam <==> 37.5 <= temp < 38.0
    ensures s == Hipotermia <==> temp < 35.0
    ensures s == NormalTemperature <==> 35.0 <= temp < 37.5
  {
    if temp >= 38.0 then DemamTinggi
    else if temp >= 37.5 then Demam
    else if temp < 35.0 then Hipotermia
    else NormalTemperature
  }

  /** The readings of the first two seeded records fall in the bands the page shows for them. */
  lemma SeedReadings()
    ensures GetBloodPressureStatus(138.0, 88.0) == Prehipertensi
    ensures GetBloodPressureStatus(120.0, 80.0) == NormalPressure
    ensures GetTemperatureStatus(37.2) == NormalTemperature
    ensures GetTemperatureStatus(36.5) == NormalTemperature
  {
  }
}
