/** The sensor and power payload printers of app_shell.c. */
module Payload {
  import opened CInts
  import opened Json
  import opened Links
  import opened Printing

  const SENSOR_PAYLOAD_SIZE_MAX := 192
  const POWER_PAYLOAD_SIZE_MAX := 160

  /** `struct app_sensor_sample`. */
  datatype Sample = Sample(
    temperatureValid: bool, temperature: int32,
    humidityValid: bool, humidity: uint32,
    accelValid: bool, accelX: int32, accelY: int32, accelZ: int32, accelWake: bool,
    pmicValid: bool, vbusPresent: bool, batteryMillivolts: int32, batteryMicroamps: int32,
    batteryPercent: int16, chargerStatus: int32, chargerError: int32, vbusStatus: int32)

  // ---------------------------------------------------------------- the sensor payload

  const SENSOR_NAMES := ["t_mc", "rh_mpc", "ax_mms2", "ay_mms2", "az_mms2", "wake"]
  const SENSOR_LIMITS: seq<nat> := [11, 11, 11, 11, 11, 5]

  function SensorValues(s: Sample): (r: seq<Value>)
    ensures |r| == 6
  {
    [Reading(s.temperatureValid, s.temperature), Reading(s.humidityValid, ToInt32(s.humidity)),
     Reading(s.accelValid, s.accelX), Reading(s.accelValid, s.accelY), Reading(s.accelValid, s.accelZ),
     Bool(s.accelWake)]
  }

  function SensorText(s: Sample): string {
    WriteObject(ObjectOf("sensor", SENSOR_NAMES, SensorValues(s)))
  }

  /** The format string of the sensor payload, cut at its directives. */
  const SENSOR_FORMAT := [
    "{\"kind\":\"sensor\",\"t_mc\":", ",\"rh_mpc\":", ",\"ax_mms2\":", ",\"ay_mms2\":",
    ",\"az_mms2\":", ",\"wake\":", "}"]

  lemma SensorFormat()
    ensures SENSOR_FORMAT == FormatOf("sensor", SENSOR_NAMES)
  {
    var n := SENSOR_NAMES;
    assert Piece("{\"kind\":\"" + "sensor" + "\"", n, 0) == SENSOR_FORMAT[0];
    assert Piece("", n, 1) == SENSOR_FORMAT[1];
    assert Piece("", n, 2) == SENSOR_FORMAT[2];
    assert Piece("", n, 3) == SENSOR_FORMAT[3];
    assert Piece("", n, 4) == SENSOR_FORMAT[4];
    assert Piece("", n, 5) == SENSOR_FORMAT[5];
    assert Piece("", n, 6) == SENSOR_FORMAT[6];
    hide Piece;
  }

  lemma SensorWidths()
    ensures Widths(SENSOR_NAMES, SENSOR_LIMITS, 0) == 119
  {
    var n, l := SENSOR_NAMES, SENSOR_LIMITS;
    assert Widths(n, l, 5) == 13;
    assert Widths(n, l, 4) == 35;
    assert Widths(n, l, 3) == 57;
    assert Widths(n, l, 2) == 79;
    assert Widths(n, l, 1) == 100;
  }

  /** Every sample fits the payload buffer. */
  lemma SensorFits(s: Sample)
    ensures |SensorText(s)| < SENSOR_PAYLOAD_SIZE_MAX
  {
    FieldWhole(s.temperatureValid, s.temperature, 12);
    FieldWhole(s.humidityValid, ToInt32(s.humidity), 12);
    FieldWhole(s.accelValid, s.accelX, 12);
    FieldWhole(s.accelValid, s.accelY, 12);
    FieldWhole(s.accelValid, s.accelZ, 12);
    hide Decimal, Widths, WriteObject, ObjectOf;
    SensorWidths();
    ObjectAtMost("sensor", SENSOR_NAMES, SensorValues(s), SENSOR_LIMITS);
  }

  lemma SensorPrints(s: Sample)
    ensures Fill(SENSOR_FORMAT, WriteAll(SensorValues(s))) == SensorText(s) && NoZero(SensorText(s))
  {
    hide Fill, WriteAll, WriteObject, NoZero, FormatOf, ObjectOf;
    SensorFormat();
    PayloadPrints("sensor", SENSOR_NAMES, SensorValues(s));
  }

  /** Reading a sensor payload back gives the sample's values, and null for the invalid ones. */
  lemma SensorReads(s: Sample)
    ensures ReadObject(SensorText(s)) == Some(ObjectOf("sensor", SENSOR_NAMES, SensorValues(s)))
  {
    hide WriteObject, ReadObject, ObjectOf;
    PayloadReads("sensor", SENSOR_NAMES, SensorValues(s));
  }

  /** Field by field: each name of the payload carries the reading of that name, or null. */
  lemma SensorFields(s: Sample)
    ensures var read := ReadObject(SensorText(s));
            && read.Some? && |read.value| == 7
            && Field(read.value, "kind") == Some(Text("sensor"))
            && Field(read.value, "t_mc") == Some(if s.temperatureValid then Number(s.temperature) else Null)
            && Field(read.value, "rh_mpc") == Some(if s.humidityValid then Number(ToInt32(s.humidity)) else Null)
            && Field(read.value, "ax_mms2") == Some(if s.accelValid then Number(s.accelX) else Null)
            && Field(read.value, "ay_mms2") == Some(if s.accelValid then Number(s.accelY) else Null)
            && Field(read.value, "az_mms2") == Some(if s.accelValid then Number(s.accelZ) else Null)
            && Field(read.value, "wake") == Some(Bool(s.accelWake))
  {
    hide ReadObject, SensorText, Field;
    SensorReads(s);
    var o := ObjectOf("sensor", SENSOR_NAMES, SensorValues(s));
    FieldAt(o, 0);
    FieldAt(o, 1);
    FieldAt(o, 2);
    FieldAt(o, 3);
    FieldAt(o, 4);
    FieldAt(o, 5);
    FieldAt(o, 6);
  }

  /** The humidity is a signed reading kept in an unsigned field: the payload reads back as the
      reading, whatever its sign. */
  lemma HumidityReadsBack(s: Sample, reading: int32)
    requires s.humidityValid && s.humidity == ToUint32(reading)
    ensures var read := ReadObject(SensorText(s));
            read.Some? && |read.value| == 7 && read.value[2] == Member("rh_mpc", Number(reading))
  {
    hide ReadObject, SensorText;
    SensorReads(s);
    assert ToInt32(s.humidity) == reading;
  }

  /** `cli_format_sensor_payload`; none stands for the error -EMSGSIZE. */
  method FormatSensorPayload(s: Sample, payload: array<char>) returns (length: Option<nat>)
    modifies payload
    ensures length == if |SensorText(s)| < payload.Length then Some(|SensorText(s)|) else None
    ensures length.Some? ==> payload[..length.value] == SensorText(s) && payload[length.value] == '\0'
    ensures payload.Length >= SENSOR_PAYLOAD_SIZE_MAX ==> length.Some?
  {
    var tBuf, rhBuf := new char[12], new char[12];
    var axBuf, ayBuf, azBuf := new char[12], new char[12], new char[12];
    var t := JsonIntOrNull(s.temperatureValid, s.temperature, tBuf);
    var rh := JsonIntOrNull(s.humidityValid, ToInt32(s.humidity), rhBuf);
    var ax := JsonIntOrNull(s.accelValid, s.accelX, axBuf);
    var ay := JsonIntOrNull(s.accelValid, s.accelY, ayBuf);
    var az := JsonIntOrNull(s.accelValid, s.accelZ, azBuf);
    var wake := if s.accelWake then "true" else "false";
    var text := Fill(SENSOR_FORMAT, [t, rh, ax, ay, az, wake]);
    SensorArgs(s, [t, rh, ax, ay, az, wake]);
    SensorPrints(s);
    SensorFits(s);
    var written := Snprintk(payload, text);
    length := if written >= payload.Length then None else Some(written);
  }

  lemma SensorArgs(s: Sample, args: seq<string>)
    requires args == [
               if s.temperatureValid then Cut(Decimal(s.temperature), 12) else "null",
               if s.humidityValid then Cut(Decimal(ToInt32(s.humidity)), 12) else "null",
               if s.accelValid then Cut(Decimal(s.accelX), 12) else "null",
               if s.accelValid then Cut(Decimal(s.accelY), 12) else "null",
               if s.accelValid then Cut(Decimal(s.accelZ), 12) else "null",
               if s.accelWake then "true" else "false"]
    ensures args == WriteAll(SensorValues(s))
  {
    FieldWhole(s.temperatureValid, s.temperature, 12);
    FieldWhole(s.humidityValid, ToInt32(s.humidity), 12);
    FieldWhole(s.accelValid, s.accelX, 12);
    FieldWhole(s.accelValid, s.accelY, 12);
    FieldWhole(s.accelValid, s.accelZ, 12);
    hide Decimal, Cut, Reading, WriteAll;
    AllWritten(args, SensorValues(s));
  }

  // ---------------------------------------------------------------- the power payload

  const POWER_NAMES := ["bat_mv", "ibat_ua", "bat_pct", "vbus", "chg", "err", "vbus_status"]
  const POWER_LIMITS: seq<nat> := [11, 11, 6, 5, 11, 11, 11]

  function PowerValues(s: Sample): (r: seq<Value>)
    ensures |r| == 7
  {
    [Reading(s.pmicValid, s.batteryMillivolts), Reading(s.pmicValid, s.batteryMicroamps),
     Reading(s.pmicValid, s.batteryPercent), if s.pmicValid then Bool(s.vbusPresent) else Null,
     Reading(s.pmicValid, s.chargerStatus), Reading(s.pmicValid, s.chargerError),
     Reading(s.pmicValid, s.vbusStatus)]
  }

  function PowerText(s: Sample): string {
    WriteObject(ObjectOf("power", POWER_NAMES, PowerValues(s)))
  }

  /** The format string of the power payload, cut at its directives. */
  const POWER_FORMAT := [
    "{\"kind\":\"power\",\"bat_mv\":", ",\"ibat_ua\":", ",\"bat_pct\":", ",\"vbus\":", ",\"chg\":",
    ",\"err\":", ",\"vbus_status\":", "}"]

  lemma PowerFormat()
    ensures POWER_FORMAT == FormatOf("power", POWER_NAMES)
  {
    var n := POWER_NAMES;
    assert Piece("{\"kind\":\"" + "power" + "\"", n, 0) == POWER_FORMAT[0];
    assert Piece("", n, 1) == POWER_FORMAT[1];
    assert Piece("", n, 2) == POWER_FORMAT[2];
    assert Piece("", n, 3) == POWER_FORMAT[3];
    assert Piece("", n, 4) == POWER_FORMAT[4];
    assert Piece("", n, 5) == POWER_FORMAT[5];
    assert Piece("", n, 6) == POWER_FORMAT[6];
    assert Piece("", n, 7) == POWER_FORMAT[7];
    hide Piece;
  }

  lemma PowerWidths()
    ensures Widths(POWER_NAMES, POWER_LIMITS, 0) == 135
  {
    var n, l := POWER_NAMES, POWER_LIMITS;
    assert Widths(n, l, 6) == 26;
    assert Widths(n, l, 5) == 44;
    assert Widths(n, l, 4) == 62;
    assert Widths(n, l, 3) == 75;
    assert Widths(n, l, 2) == 92;
    assert Widths(n, l, 1) == 114;
  }

  /** Every sample fits the payload buffer. */
  lemma PowerFits(s: Sample)
    ensures |PowerText(s)| < POWER_PAYLOAD_SIZE_MAX
  {
    FieldWhole(s.pmicValid, s.batteryMillivolts, 12);
    FieldWhole(s.pmicValid, s.batteryMicroamps, 12);
    DecimalLength(s.batteryPercent);
    FieldWhole(s.pmicValid, s.chargerStatus, 12);
    FieldWhole(s.pmicValid, s.chargerError, 12);
    FieldWhole(s.pmicValid, s.vbusStatus, 12);
    hide Decimal, Widths, WriteObject, ObjectOf;
    PowerWidths();
    ObjectAtMost("power", POWER_NAMES, PowerValues(s), POWER_LIMITS);
  }

  lemma PowerPrints(s: Sample)
    ensures Fill(POWER_FORMAT, WriteAll(PowerValues(s))) == PowerText(s) && NoZero(PowerText(s))
  {
    hide Fill, WriteAll, WriteObject, NoZero, FormatOf, ObjectOf;
    PowerFormat();
    PayloadPrints("power", POWER_NAMES, PowerValues(s));
  }

  /** Reading a power payload back gives the sample's values, and null when they are invalid. */
  lemma PowerReads(s: Sample)
    ensures ReadObject(PowerText(s)) == Some(ObjectOf("power", POWER_NAMES, PowerValues(s)))
  {
    hide WriteObject, ReadObject, ObjectOf;
    PayloadReads("power", POWER_NAMES, PowerValues(s));
  }

  /** Field by field: each name of the payload carries the reading of that name, or null. */
  lemma PowerFields(s: Sample)
    ensures var read := ReadObject(PowerText(s));
            && read.Some? && |read.value| == 8
            && Field(read.value, "kind") == Some(Text("power"))
            && Field(read.value, "bat_mv") == Some(if s.pmicValid then Number(s.batteryMillivolts) else Null)
            && Field(read.value, "ibat_ua") == Some(if s.pmicValid then Number(s.batteryMicroamps) else Null)
            && Field(read.value, "bat_pct") == Some(if s.pmicValid then Number(s.batteryPercent) else Null)
            && Field(read.value, "vbus") == Some(if s.pmicValid then Bool(s.vbusPresent) else Null)
            && Field(read.value, "chg") == Some(if s.pmicValid then Number(s.chargerStatus) else Null)
            && Field(read.value, "err") == Some(if s.pmicValid then Number(s.chargerError) else Null)
            && Field(read.value, "vbus_status") == Some(if s.pmicValid then Number(s.vbusStatus) else Null)
  {
    hide ReadObject, PowerText, Field;
    PowerReads(s);
    var o := ObjectOf("power", POWER_NAMES, PowerValues(s));
    FieldAt(o, 0);
    FieldAt(o, 1);
    FieldAt(o, 2);
    FieldAt(o, 3);
    FieldAt(o, 4);
    FieldAt(o, 5);
    FieldAt(o, 6);
    FieldAt(o, 7);
  }

  /** `cli_format_power_payload`; none stands for the error -EMSGSIZE. */
  method FormatPowerPayload(s: Sample, payload: array<char>) returns (length: Option<nat>)
    modifies payload
    ensures length == if |PowerText(s)| < payload.Length then Some(|PowerText(s)|) else None
    ensures length.Some? ==> payload[..length.value] == PowerText(s) && payload[length.value] == '\0'
    ensures payload.Length >= POWER_PAYLOAD_SIZE_MAX ==> length.Some?
  {
    var batMvBuf, ibatUaBuf, batPctBuf := new char[12], new char[12], new char[8];
    var chgBuf, errBuf, vbusStatusBuf := new char[12], new char[12], new char[12];
    var batMv := JsonIntOrNull(s.pmicValid, s.batteryMillivolts, batMvBuf);
    var ibatUa := JsonIntOrNull(s.pmicValid, s.batteryMicroamps, ibatUaBuf);
    var batPct := JsonIntOrNull(s.pmicValid, s.batteryPercent, batPctBuf);
    var vbus := JsonBoolOrNull(s.pmicValid, s.vbusPresent);
    var chg := JsonIntOrNull(s.pmicValid, s.chargerStatus, chgBuf);
    var err := JsonIntOrNull(s.pmicValid, s.chargerError, errBuf);
    var vbusStatus := JsonIntOrNull(s.pmicValid, s.vbusStatus, vbusStatusBuf);
    var text := Fill(POWER_FORMAT, [batMv, ibatUa, batPct, vbus, chg, err, vbusStatus]);
    PowerArgs(s, [batMv, ibatUa, batPct, vbus, chg, err, vbusStatus]);
    PowerPrints(s);
    PowerFits(s);
    var written := Snprintk(payload, text);
    length := if written >= payload.Length then None else Some(written);
  }

  lemma PowerArgs(s: Sample, args: seq<string>)
    requires args == [
               if s.pmicValid then Cut(Decimal(s.batteryMillivolts), 12) else "null",
               if s.pmicValid then Cut(Decimal(s.batteryMicroamps), 12) else "null",
               if s.pmicValid then Cut(Decimal(s.batteryPercent), 8) else "null",
               JsonBoolOrNull(s.pmicValid, s.vbusPresent),
               if s.pmicValid then Cut(Decimal(s.chargerStatus), 12) else "null",
               if s.pmicValid then Cut(Decimal(s.chargerError), 12) else "null",
               if s.pmicValid then Cut(Decimal(s.vbusStatus), 12) else "null"]
    ensures args == WriteAll(PowerValues(s))
  {
    FieldWhole(s.pmicValid, s.batteryMillivolts, 12);
    FieldWhole(s.pmicValid, s.batteryMicroamps, 12);
    FieldWhole(s.pmicValid, s.batteryPercent, 8);
    FieldWhole(s.pmicValid, s.chargerStatus, 12);
    FieldWhole(s.pmicValid, s.chargerError, 12);
    FieldWhole(s.pmicValid, s.vbusStatus, 12);
    hide Decimal, Cut, Reading, WriteAll;
    AllWritten(args, PowerValues(s));
  }
}
