/** The telemetry page (src/components/monitoring/MonitoringPage.tsx): the
    threshold table that grades a reading, the readings generated for the
    fixed sensor list, the alerts derived from them, and the status counts. */
module Monitoring {
  import opened Basics
  import opened Text
  import opened Types

  /** The status computed in `generateMockData`, exactly as written, from the
      sensor's type and unit and the (unrounded) value. */
  function ClassifyAsWritten(kind: SensorType, unit: string, value: real): ReadingStatus {
    match kind
    case Sensor =>
      if unit == "°C" then (if value > 110.0 then Critical else if value > 95.0 then Warning else Normal)
      else if unit == "Hz" then (if value > 25.0 then Critical else if value > 20.0 then Warning else Normal)
      else (if value > 3.5 then Critical else if value > 3.0 then Warning else Normal)
    case Operational =>
      if unit == "km/h" then (if value > 50.0 then Warning else Normal)
      else if unit == "ton" then (if value > 45.0 then Warning else Normal)
      else (if value < 210.0 || value > 240.0 then Critical
            else if value < 220.0 || value > 235.0 then Warning else Normal)
    case Fuel =>
      if unit == "%" then (if value < 25.0 then Critical else if value < 40.0 then Warning else Normal)
      else (if value > 35.0 then Warning else Normal)
    case MaintenanceSensor =>
      if value < 80.0 then Warning else if value < 75.0 then Critical else Normal
    case SystemSensor =>
      Normal
  }

  /** As written, a maintenance reading is never critical: every value below 75
      is already below 80 and is graded a warning. */
  lemma MaintenanceNeverCritical(unit: string, value: real)
    ensures ClassifyAsWritten(MaintenanceSensor, unit, value) != Critical
    ensures value == 70.0 ==> ClassifyAsWritten(MaintenanceSensor, unit, value) == Warning
  {
  }

  /** The grading with the maintenance tests in the evidently intended order:
      below 75 is critical, below 80 a warning. Every other row is as written. */
  function Classify(kind: SensorType, unit: string, value: real): ReadingStatus {
    if kind == MaintenanceSensor then
      (if value < 75.0 then Critical else if value < 80.0 then Warning else Normal)
    else ClassifyAsWritten(kind, unit, value)
  }

  /** The corrected maintenance row has three bands, and a falling value never
      makes the grade less severe. */
  lemma MaintenanceBands(unit: string, v: real, w: real)
    ensures Classify(MaintenanceSensor, unit, v) == Critical <==> v < 75.0
    ensures Classify(MaintenanceSensor, unit, v) == Warning <==> 75.0 <= v < 80.0
    ensures Classify(MaintenanceSensor, unit, v) == Normal <==> v >= 80.0
    ensures v <= w ==> Severity(Classify(MaintenanceSensor, unit, w)) <= Severity(Classify(MaintenanceSensor, unit, v))
  {
  }

  /** Normal < warning < critical. */
  function Severity(s: ReadingStatus): nat {
    match s
    case Normal => 0
    case Warning => 1
    case Critical => 2
  }

  /** The `sensor` rows: above the upper bound is critical, above the lower one a
      warning, so exactly 110 °C is a warning and exactly 95 °C is normal. */
  lemma SensorThresholds(unit: string, v: real)
    ensures unit == "°C" ==>
              (Classify(Sensor, unit, v) == Critical <==> v > 110.0)
              && (Classify(Sensor, unit, v) == Warning <==> 95.0 < v <= 110.0)
    ensures unit == "Hz" ==>
              (Classify(Sensor, unit, v) == Critical <==> v > 25.0)
              && (Classify(Sensor, unit, v) == Warning <==> 20.0 < v <= 25.0)
    ensures unit != "°C" && unit != "Hz" ==>
              (Classify(Sensor, unit, v) == Critical <==> v > 3.5)
              && (Classify(Sensor, unit, v) == Warning <==> 3.0 < v <= 3.5)
    ensures Classify(Sensor, "°C", 110.0) == Warning && Classify(Sensor, "°C", 95.0) == Normal
  {
  }

  /** Speed, load and fuel flow can raise a warning but never a critical grade;
      a `system` reading is always normal. */
  lemma WarningOnlyRows(unit: string, v: real)
    ensures unit == "km/h" ==> (Classify(Operational, unit, v) == Warning <==> v > 50.0)
    ensures unit == "ton" ==> (Classify(Operational, unit, v) == Warning <==> v > 45.0)
    ensures unit != "%" ==> (Classify(Fuel, unit, v) == Warning <==> v > 35.0)
    ensures (unit == "km/h" || unit == "ton") ==> Classify(Operational, unit, v) != Critical
    ensures unit != "%" ==> Classify(Fuel, unit, v) != Critical
    ensures Classify(SystemSensor, unit, v) == Normal
  {
  }

  /** Voltage is graded by its distance from the nominal band: outside
      [210, 240] is critical, inside it but outside [220, 235] a warning. */
  lemma VoltageBands(unit: string, v: real)
    requires unit != "km/h" && unit != "ton"
    ensures Classify(Operational, unit, v) == Critical <==> v < 210.0 || v > 240.0
    ensures Classify(Operational, unit, v) == Warning <==> (210.0 <= v < 220.0 || 235.0 < v <= 240.0)
    ensures Classify(Operational, unit, v) == Normal <==> 220.0 <= v <= 235.0
  {
  }

  /** The fuel level is graded from below: under 25 % is critical, under 40 % a warning. */
  lemma FuelLevelBands(v: real)
    ensures Classify(Fuel, "%", v) == Critical <==> v < 25.0
    ensures Classify(Fuel, "%", v) == Warning <==> 25.0 <= v < 40.0
  {
  }

  /** For every row graded from above, a higher value is never less severe;
      for the fuel level, a lower one is never less severe. */
  lemma SeverityMonotone(kind: SensorType, unit: string, v: real, w: real)
    requires v <= w
    ensures kind == Sensor || (kind == Operational && (unit == "km/h" || unit == "ton")) || (kind == Fuel && unit != "%") ==>
              Severity(Classify(kind, unit, v)) <= Severity(Classify(kind, unit, w))
    ensures kind == Fuel && unit == "%" ==>
              Severity(Classify(kind, unit, w)) <= Severity(Classify(kind, unit, v))
  {
  }

  /** One entry of the page's fixed sensor list. */
  datatype SensorSpec = SensorSpec(name: string, kind: SensorType, unit: string, location: string)

  const Sensors: seq<SensorSpec> := [
    SensorSpec("BBM Level DT-001", Fuel, "%", "Dump Truck DT-001"),
    SensorSpec("GPS Tracker DT-001", Operational, "km/h", "Area Tambang A"),
    SensorSpec("Engine Temp EX-002", Sensor, "°C", "Excavator EX-002"),
    SensorSpec("Fuel Flow BD-003", Fuel, "L/h", "Bulldozer BD-003"),
    SensorSpec("Vibration Sensor DT-004", Sensor, "Hz", "Dump Truck DT-004"),
    SensorSpec("Load Weight DT-001", Operational, "ton", "Dump Truck DT-001")
  ]

  /** No sensor on the page is of the `maintenance` type, so the corrected
      grading gives every generated reading the status the code gives it. */
  lemma SensorsUnaffected(value: real)
    ensures forall i :: 0 <= i < |Sensors| ==>
              Classify(Sensors[i].kind, Sensors[i].unit, value) == ClassifyAsWritten(Sensors[i].kind, Sensors[i].unit, value)
  {
  }

  /** `sensor-${index + 1}` */
  function ReadingId(index: nat): string {
    "sensor-" + NatToString(index + 1)
  }

  lemma ReadingIdsDistinct(i: nat, j: nat)
    requires i != j
    ensures ReadingId(i) != ReadingId(j)
  {
    if ReadingId(i) == ReadingId(j) {
      assert ReadingId(i)[7..] == NatToString(i + 1);
      assert ReadingId(j)[7..] == NatToString(j + 1);
      NatToStringInjective(i + 1, j + 1);
    }
  }

  /** The reading for the sensor at `index`, with its value supplied; `stamp`
      stands for the current time. */
  function Reading(index: nat, sensor: SensorSpec, value: real, stamp: string): MonitoringData {
    MonitoringData(ReadingId(index), sensor.kind, sensor.name, value, sensor.unit,
                   ClassifyAsWritten(sensor.kind, sensor.unit, value), Some(sensor.location), stamp)
  }

  /** `generateMockData`, with the drawn value of every sensor as input. */
  function Readings(values: seq<real>, stamp: string): (data: seq<MonitoringData>)
    requires |values| == |Sensors|
    ensures |data| == |Sensors|
    ensures forall i :: 0 <= i < |data| ==>
              data[i].id == ReadingId(i) && data[i].kind == Sensors[i].kind
              && data[i].name == Sensors[i].name && data[i].unit == Sensors[i].unit
              && data[i].location == Some(Sensors[i].location) && data[i].value == values[i]
              && data[i].status == ClassifyAsWritten(Sensors[i].kind, Sensors[i].unit, values[i])
              && data[i].status == Classify(Sensors[i].kind, Sensors[i].unit, values[i])
    ensures forall i, j :: 0 <= i < j < |data| ==> data[i].id != data[j].id
  {
    var data := seq(|Sensors|, i requires 0 <= i < |Sensors| => Reading(i, Sensors[i], values[i], stamp));
    forall i | 0 <= i < |data|
      ensures data[i].status == Classify(Sensors[i].kind, Sensors[i].unit, values[i])
    {
      SensorsUnaffected(values[i]);
    }
    forall i, j | 0 <= i < j < |data|
      ensures data[i].id != data[j].id
    {
      ReadingIdsDistinct(i, j);
    }
    data
  }

  /** The alert `generateMockAlerts` pushes for one reading, if any; `roll` is
      the `Math.random()` drawn for it. */
  function AlertFor(item: MonitoringData, roll: real, stamp: string): Option<MonitoringAlert> {
    match item.status
    case Critical => Some(MonitoringAlert("alert-" + item.id, CriticalAlert, item.name + " - KRITIS", roll > 0.7, stamp))
    case Warning => Some(MonitoringAlert("alert-" + item.id, WarningAlert, item.name + " - PERINGATAN", roll > 0.5, stamp))
    case Normal => None
  }

  function AsSeq<T>(o: Option<T>): seq<T> {
    if o.Some? then [o.value] else []
  }

  /** The alerts for some readings, in reading order. */
  function AlertsFor(data: seq<MonitoringData>, rolls: seq<real>, stamp: string): seq<MonitoringAlert>
    requires |rolls| == |data|
  {
    if data == [] then []
    else AlertsFor(data[..|data| - 1], rolls[..|rolls| - 1], stamp) + AsSeq(AlertFor(data[|data| - 1], rolls[|rolls| - 1], stamp))
  }

  /** `generateMockAlerts`: walk the readings and push an alert for each that is not normal. */
  method GenerateAlerts(data: seq<MonitoringData>, rolls: seq<real>, stamp: string) returns (alerts: seq<MonitoringAlert>)
    requires |rolls| == |data|
    ensures alerts == AlertsFor(data, rolls, stamp)
  {
    alerts := [];
    var i := 0;
    while i < |data|
      invariant 0 <= i <= |data|
      invariant alerts == AlertsFor(data[..i], rolls[..i], stamp)
    {
      var item := data[i];
      if item.status == Critical {
        alerts := alerts + [MonitoringAlert("alert-" + item.id, CriticalAlert, item.name + " - KRITIS", rolls[i] > 0.7, stamp)];
      } else if item.status == Warning {
        alerts := alerts + [MonitoringAlert("alert-" + item.id, WarningAlert, item.name + " - PERINGATAN", rolls[i] > 0.5, stamp)];
      }
      assert data[..i + 1][..i] == data[..i];
      assert rolls[..i + 1][..i] == rolls[..i];
      i := i + 1;
    }
    assert data[..|data|] == data;
    assert rolls[..|rolls|] == rolls;
  }

  /** `item.status !== 'normal'` */
  function Flagged(): MonitoringData -> bool {
    (item: MonitoringData) => item.status != Normal
  }

  /** `item.status === status` */
  function WithStatus(status: ReadingStatus): MonitoringData -> bool {
    (item: MonitoringData) => item.status == status
  }

  /** `monitoringData.filter(item => item.status === status).length` */
  function StatusCount(data: seq<MonitoringData>, status: ReadingStatus): nat {
    |Filter(WithStatus(status), data)|
  }

  function AlertKind(status: ReadingStatus): AlertType {
    if status == Critical then CriticalAlert else WarningAlert
  }

  /** The alert is the one raised for the reading: its id is "alert-" and the
      reading's id, its type is the reading's status, and its title is the
      reading's name with the matching suffix. */
  predicate AlertMatches(a: MonitoringAlert, r: MonitoringData) {
    && a.id == "alert-" + r.id && a.kind == AlertKind(r.status)
    && a.title == r.name + (if r.status == Critical then " - KRITIS" else " - PERINGATAN")
  }

  /** Exactly one alert per reading that is not normal, in reading order. */
  lemma {:induction false} AlertsMatchFlagged(data: seq<MonitoringData>, rolls: seq<real>, stamp: string)
    requires |rolls| == |data|
    ensures |AlertsFor(data, rolls, stamp)| == |Filter(Flagged(), data)|
    ensures forall i :: 0 <= i < |AlertsFor(data, rolls, stamp)| ==>
              AlertMatches(AlertsFor(data, rolls, stamp)[i], Filter(Flagged(), data)[i])
  {
    if data != [] {
      var n := |data| - 1;
      var last := data[n];
      var alerts, flagged := AlertsFor(data[..n], rolls[..n], stamp), Filter(Flagged(), data[..n]);
      AlertsMatchFlagged(data[..n], rolls[..n], stamp);
      assert data == data[..n] + [last];
      FilterAppend(Flagged(), data[..n], [last]);
      var tail := AsSeq(AlertFor(last, rolls[n], stamp));
      assert AlertsFor(data, rolls, stamp) == alerts + tail;
      if last.status == Normal {
        assert Filter(Flagged(), [last]) == [];
        assert tail == [];
      } else {
        assert Filter(Flagged(), [last]) == [last];
        assert Filter(Flagged(), data) == flagged + [last];
        forall i | 0 <= i < |alerts + tail|
          ensures AlertMatches((alerts + tail)[i], (flagged + [last])[i])
        {
          if i < |alerts| {
            assert (alerts + tail)[i] == alerts[i] && (flagged + [last])[i] == flagged[i];
          }
        }
      }
    }
  }

  /** Every reading has exactly one status, so the three counts add up to the
      number of readings, and there are as many alerts as critical and warning
      readings together. */
  lemma CountsPartition(data: seq<MonitoringData>, rolls: seq<real>, stamp: string)
    requires |rolls| == |data|
    ensures StatusCount(data, Critical) + StatusCount(data, Warning) + StatusCount(data, Normal) == |data|
    ensures |AlertsFor(data, rolls, stamp)| == StatusCount(data, Critical) + StatusCount(data, Warning)
  {
    StatusPartition(data);
    AlertsMatchFlagged(data, rolls, stamp);
  }

  lemma {:induction false} StatusPartition(data: seq<MonitoringData>)
    ensures StatusCount(data, Critical) + StatusCount(data, Warning) + StatusCount(data, Normal) == |data|
    ensures |Filter(Flagged(), data)| == StatusCount(data, Critical) + StatusCount(data, Warning)
  {
    if data != [] {
      StatusPartition(data[1..]);
    }
  }

  /** The page's state: the readings and alerts on screen, the time of the last
      refresh, and the loading flag. */
  class MonitoringBoard {
    var monitoringData: seq<MonitoringData>
    var alerts: seq<MonitoringAlert>
    var lastUpdate: string
    var isLoading: bool

    constructor (now: string)
      ensures monitoringData == [] && alerts == [] && lastUpdate == now && isLoading
    {
      monitoringData := [];
      alerts := [];
      lastUpdate := now;
      isLoading := true;
    }

    /** The deferred part of `loadData`: fresh readings, their alerts, the
        refresh time, and the end of loading. */
    method LoadData(values: seq<real>, rolls: seq<real>, stamp: string)
      requires |values| == |Sensors| && |rolls| == |Sensors|
      modifies this
      ensures monitoringData == Readings(values, stamp)
      ensures alerts == AlertsFor(monitoringData, rolls, stamp)
      ensures lastUpdate == stamp && !isLoading
    {
      var newData := Readings(values, stamp);
      var newAlerts := GenerateAlerts(newData, rolls, stamp);
      monitoringData := newData;
      alerts := newAlerts;
      lastUpdate := stamp;
      isLoading := false;
    }
  }
}
