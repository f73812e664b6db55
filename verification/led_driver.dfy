/**
 * The channel supervisor: per-channel intensity, the latest sensor snapshot and
 * a latched alarm, for three light sources. Sensor readings come from the
 * analog layer, which is not modelled: each call that refreshes the snapshot is
 * given the sample that the analog layer would return.
 */
module LedDriver {
  import opened ValStatus
  import opened ValPwm

  const NUM_LIGHT_SOURCES := 3

  const LIGHT_CURRENT_MAX: real := 50.0
  const LIGHT_CURRENT_MIN: real := 0.0
  const LIGHT_TEMP_MAX: real := 85.0
  const LIGHT_TEMP_MIN: real := 0.0

  /** One channel's sensor snapshot: current in mA and temperature in degrees Celsius. */
  datatype Reading = Reading(current: real, temperature: real)

  /** The alarm code stored per channel; NoAlarm is the code 0. */
  datatype Alarm = NoAlarm | OverCurrent | OverTemperature

  /** What VAL_Analog_GetAllSensorData returns: a status and the three readings it wrote. */
  datatype SensorSample = SensorSample(status: Status, readings: seq<Reading>)

  /** Everything the supervisor knows about one channel, including its actuator register. */
  datatype Channel = Channel(intensity: u8, reading: Reading, alarm: Alarm, register: int)

  const IDLE := Channel(0, Reading(0.0, 0.0), NoAlarm, 0)

  predicate ValidLightId(lightId: u8) {
    1 <= lightId <= NUM_LIGHT_SOURCES
  }

  /** validate_light_id */
  function ValidateLightId(lightId: u8): (status: Status)
    ensures status == Ok || status == Error
    ensures status == Ok <==> 0 <= lightId - 1 < NUM_LIGHT_SOURCES
  {
    if lightId < 1 || lightId > NUM_LIGHT_SOURCES then Error else Ok
  }

  predicate CurrentOutOfRange(r: Reading) {
    r.current > LIGHT_CURRENT_MAX || r.current < LIGHT_CURRENT_MIN
  }

  predicate TemperatureOutOfRange(r: Reading) {
    r.temperature > LIGHT_TEMP_MAX || r.temperature < LIGHT_TEMP_MIN
  }

  predicate OutOfRange(r: Reading) {
    CurrentOutOfRange(r) || TemperatureOutOfRange(r)
  }

  /** The supervisor's invariant: an alarmed channel stores intensity 0. */
  predicate Latched(c: Channel) {
    c.alarm != NoAlarm ==> c.intensity == 0
  }

  /** The actuator shows the stored intensity, as the PWM layer clamps it. */
  predicate Coherent(c: Channel) {
    c.register == Clamp(c.intensity)
  }

  /** No alarmed channel is driven. */
  predicate Safe(c: Channel) {
    c.alarm != NoAlarm ==> c.register == 0
  }

  ghost predicate AllLatched(s: seq<Channel>) {
    forall i :: 0 <= i < |s| ==> Latched(s[i])
  }

  ghost predicate AllCoherent(s: seq<Channel>) {
    forall i :: 0 <= i < |s| ==> Coherent(s[i])
  }

  ghost predicate AllSafe(s: seq<Channel>) {
    forall i :: 0 <= i < |s| ==> Safe(s[i])
  }

  /** No alarm that was raised in s has been cleared in t. */
  ghost predicate AlarmsKept(s: seq<Channel>, t: seq<Channel>)
    requires |s| == |t|
  {
    forall i :: 0 <= i < |s| && s[i].alarm != NoAlarm ==> t[i].alarm != NoAlarm
  }

  /**
   * The body of check_alarm_conditions for one channel: the current test and
   * then the temperature test, each of which raises its alarm, zeroes the
   * stored intensity and commands the actuator to 0.
   */
  function CheckChannel(c: Channel): (d: Channel)
    ensures d.reading == c.reading
    ensures OutOfRange(c.reading) ==> d.alarm != NoAlarm && d.intensity == 0 && d.register == 0
    ensures !OutOfRange(c.reading) ==> d == c
    ensures c.alarm != NoAlarm ==> d.alarm != NoAlarm
    ensures TemperatureOutOfRange(c.reading) ==> d.alarm == OverTemperature
    ensures CurrentOutOfRange(c.reading) && !TemperatureOutOfRange(c.reading) ==> d.alarm == OverCurrent
    ensures Latched(c) ==> Latched(d)
    ensures Coherent(c) ==> Coherent(d)
  {
    var afterCurrent :=
      if CurrentOutOfRange(c.reading) then c.(alarm := OverCurrent, intensity := 0, register := Clamp(0)) else c;
    if TemperatureOutOfRange(c.reading) then
      afterCurrent.(alarm := OverTemperature, intensity := 0, register := Clamp(0))
    else
      afterCurrent
  }

  /** check_alarm_conditions over all channels. */
  function CheckAll(s: seq<Channel>): (r: seq<Channel>)
    ensures |r| == |s|
    ensures AllLatched(s) ==> AllLatched(r)
    ensures AllCoherent(s) ==> AllCoherent(r)
    ensures AlarmsKept(s, r)
    ensures forall i :: 0 <= i < |s| && OutOfRange(s[i].reading) ==> r[i].alarm != NoAlarm && r[i].intensity == 0 && r[i].register == 0
    ensures forall i :: 0 <= i < |s| && !OutOfRange(s[i].reading) ==> r[i] == s[i]
  {
    seq(|s|, i requires 0 <= i < |s| => CheckChannel(s[i]))
  }

  /** update_sensor_readings: store the new readings, then check every channel. */
  function Refresh(s: seq<Channel>, readings: seq<Reading>): (r: seq<Channel>)
    requires |readings| == |s|
    ensures |r| == |s|
    ensures forall i :: 0 <= i < |s| ==> r[i] == CheckChannel(s[i].(reading := readings[i]))
    ensures AllLatched(s) ==> AllLatched(r)
    ensures AllCoherent(s) ==> AllCoherent(r)
    ensures AlarmsKept(s, r)
  {
    CheckAll(seq(|s|, i requires 0 <= i < |s| => s[i].(reading := readings[i])))
  }

  /**
   * A second check with the readings of the last refresh changes nothing: a
   * channel out of range was already tripped and zeroed by the refresh.
   */
  lemma CheckAfterRefreshIsIdle(s: seq<Channel>, readings: seq<Reading>)
    requires |readings| == |s|
    ensures CheckAll(Refresh(s, readings)) == Refresh(s, readings)
  {
  }

  /**
   * LED_Driver_SetIntensity as the corrected supervisor performs it: the
   * actuator receives the intensity stored after the alarm check, which is 0
   * when that check tripped the channel.
   */
  function SetIntensityOp(s: seq<Channel>, lightId: u8, intensity: u8, sample: SensorSample): (r: (Status, seq<Channel>))
    requires |s| == NUM_LIGHT_SOURCES && |sample.readings| == NUM_LIGHT_SOURCES
    ensures |r.1| == NUM_LIGHT_SOURCES
    ensures !ValidLightId(lightId) ==> r == (Error, s)
    ensures ValidLightId(lightId) && intensity > 100 ==> r == (Error, s)
    ensures ValidLightId(lightId) && s[lightId - 1].alarm != NoAlarm ==> r == (Error, s)
    ensures r.0 == Ok <==>
      ValidLightId(lightId) && intensity <= 100 && s[lightId - 1].alarm == NoAlarm && sample.status == Ok
    ensures ValidLightId(lightId) && intensity <= 100 && s[lightId - 1].alarm == NoAlarm && sample.status != Ok ==>
      r == (sample.status, Refresh(s, sample.readings))
    ensures r.0 == Ok && !OutOfRange(sample.readings[lightId - 1]) ==>
      r.1[lightId - 1] == Channel(intensity, sample.readings[lightId - 1], NoAlarm, intensity)
    ensures r.0 == Ok && OutOfRange(sample.readings[lightId - 1]) ==>
      r.1[lightId - 1].alarm != NoAlarm && r.1[lightId - 1].intensity == 0 && r.1[lightId - 1].register == 0
    ensures r.0 == Ok ==> forall j :: 0 <= j < NUM_LIGHT_SOURCES && j != lightId - 1 ==>
      r.1[j] == Refresh(s, sample.readings)[j]
    ensures AlarmsKept(s, r.1)
    ensures AllLatched(s) ==> AllLatched(r.1)
    ensures AllCoherent(s) ==> AllCoherent(r.1)
    ensures AllLatched(s) && AllCoherent(s) ==> AllSafe(r.1)
  {
    if !ValidLightId(lightId) || intensity > 100 || s[lightId - 1].alarm != NoAlarm then
      (Error, s)
    else
      var refreshed := Refresh(s, sample.readings);
      if sample.status != Ok then
        (sample.status, refreshed)
      else
        var k := lightId - 1;
        var checked := CheckAll(refreshed[k := refreshed[k].(intensity := intensity)]);
        (Ok, checked[k := checked[k].(register := Clamp(checked[k].intensity))])
  }

  /**
   * LED_Driver_SetIntensity as written: the final actuator write uses the
   * requested intensity, even when the alarm check just before it tripped.
   */
  function SetIntensityAsWrittenOp(s: seq<Channel>, lightId: u8, intensity: u8, sample: SensorSample): (r: (Status, seq<Channel>))
    requires |s| == NUM_LIGHT_SOURCES && |sample.readings| == NUM_LIGHT_SOURCES
    ensures |r.1| == NUM_LIGHT_SOURCES
    ensures !ValidLightId(lightId) ==> r == (Error, s)
    ensures ValidLightId(lightId) && intensity > 100 ==> r == (Error, s)
    ensures ValidLightId(lightId) && s[lightId - 1].alarm != NoAlarm ==> r == (Error, s)
    ensures r.0 == Ok <==>
      ValidLightId(lightId) && intensity <= 100 && s[lightId - 1].alarm == NoAlarm && sample.status == Ok
    ensures r.0 == Ok ==> r.1[lightId - 1].register == intensity
    ensures var c := SetIntensityOp(s, lightId, intensity, sample);
            && r.0 == c.0
            && (r.0 != Ok ==> r.1 == c.1)
            && (r.0 == Ok ==> r.1 == c.1[lightId - 1 := c.1[lightId - 1].(register := intensity)])
    ensures AlarmsKept(s, r.1)
    ensures AllLatched(s) ==> AllLatched(r.1)
  {
    if !ValidLightId(lightId) || intensity > 100 || s[lightId - 1].alarm != NoAlarm then
      (Error, s)
    else
      var refreshed := Refresh(s, sample.readings);
      if sample.status != Ok then
        (sample.status, refreshed)
      else
        var k := lightId - 1;
        var checked := CheckAll(refreshed[k := refreshed[k].(intensity := intensity)]);
        (Ok, checked[k := checked[k].(register := Clamp(intensity))])
  }

  /**
   * The as-written SetIntensity leaves an alarmed channel driven: channel 1
   * reads 60 mA, so the refresh raises OverCurrent, yet the register ends at 80.
   */
  lemma AsWrittenDrivesAlarmedChannel()
    ensures var s := [IDLE, IDLE, IDLE];
            var sample := SensorSample(Ok, [Reading(60.0, 25.0), Reading(0.0, 0.0), Reading(0.0, 0.0)]);
            var r := SetIntensityAsWrittenOp(s, 1, 80, sample);
            && AllLatched(s) && AllCoherent(s) && AllSafe(s)
            && r.0 == Ok && r.1[0].alarm == OverCurrent && r.1[0].intensity == 0 && r.1[0].register == 80
            && !AllSafe(r.1)
  {
  }

  /**
   * After the as-written SetIntensity has left channel 1 tripped but driven, a successful clear
   * reports the channel dark (no alarm, intensity 0) while its register still drives it at 80.
   */
  lemma AsWrittenClearLeavesLightDriven()
    ensures var s := [IDLE, IDLE, IDLE];
            var hot := SensorSample(Ok, [Reading(60.0, 25.0), Reading(0.0, 0.0), Reading(0.0, 0.0)]);
            var cool := SensorSample(Ok, [Reading(10.0, 25.0), Reading(0.0, 0.0), Reading(0.0, 0.0)]);
            var tripped := SetIntensityAsWrittenOp(s, 1, 80, hot);
            var cleared := ClearAlarmOp(tripped.1, 1, cool);
            && cleared.0 == Ok
            && cleared.1[0].alarm == NoAlarm && cleared.1[0].intensity == 0 && cleared.1[0].register == 80
  {
  }

  /**
   * LED_Driver_SetAllIntensities: refresh, then store and actuate every channel
   * that is not alarmed after the refresh, with no range validation.
   */
  function SetAllIntensitiesOp(s: seq<Channel>, values: seq<u8>, sample: SensorSample): (r: (Status, seq<Channel>))
    requires |s| == NUM_LIGHT_SOURCES && |values| == NUM_LIGHT_SOURCES && |sample.readings| == NUM_LIGHT_SOURCES
    ensures |r.1| == NUM_LIGHT_SOURCES
    ensures r.0 == sample.status
    ensures sample.status != Ok ==> r.1 == Refresh(s, sample.readings)
    ensures sample.status == Ok ==> forall i :: 0 <= i < NUM_LIGHT_SOURCES ==>
      if Refresh(s, sample.readings)[i].alarm != NoAlarm
      then r.1[i] == Refresh(s, sample.readings)[i]
      else r.1[i] == Channel(values[i], sample.readings[i], NoAlarm, Clamp(values[i]))
    ensures AlarmsKept(s, r.1)
    ensures AllLatched(s) ==> AllLatched(r.1)
    ensures AllCoherent(s) ==> AllCoherent(r.1)
  {
    var refreshed := Refresh(s, sample.readings);
    if sample.status != Ok then
      (sample.status, refreshed)
    else
      var written := seq(NUM_LIGHT_SOURCES, i requires 0 <= i < NUM_LIGHT_SOURCES =>
        if refreshed[i].alarm == NoAlarm
        then refreshed[i].(intensity := values[i], register := Clamp(values[i]))
        else refreshed[i]);
      (Ok, CheckAll(written))
  }

  /** The source stores an intensity above 100 without complaint; only the actuator clamps it. */
  lemma SetAllStoresOutOfRangeValue()
    ensures var s := [IDLE, IDLE, IDLE];
            var sample := SensorSample(Ok, [Reading(10.0, 25.0), Reading(10.0, 25.0), Reading(10.0, 25.0)]);
            var r := SetAllIntensitiesOp(s, [50, 200, 10], sample);
            r.0 == Ok && r.1[1].intensity == 200 && r.1[1].register == 100
  {
  }

  /**
   * LED_Driver_ClearAlarm: a fresh refresh, then the alarm goes back to 0 only
   * when the channel's new readings are in range. The stored intensity is not restored.
   */
  function ClearAlarmOp(s: seq<Channel>, lightId: u8, sample: SensorSample): (r: (Status, seq<Channel>))
    requires |s| == NUM_LIGHT_SOURCES && |sample.readings| == NUM_LIGHT_SOURCES
    ensures |r.1| == NUM_LIGHT_SOURCES
    ensures !ValidLightId(lightId) ==> r == (Error, s)
    ensures ValidLightId(lightId) && sample.status != Ok ==> r == (sample.status, Refresh(s, sample.readings))
    ensures r.0 == Ok <==>
      ValidLightId(lightId) && sample.status == Ok && !OutOfRange(sample.readings[lightId - 1])
    ensures ValidLightId(lightId) && sample.status == Ok && OutOfRange(sample.readings[lightId - 1]) ==>
      r == (Error, Refresh(s, sample.readings)) && r.1[lightId - 1].alarm != NoAlarm
    ensures r.0 == Ok ==>
      && r.1[lightId - 1] == s[lightId - 1].(reading := sample.readings[lightId - 1], alarm := NoAlarm)
      && forall j :: 0 <= j < NUM_LIGHT_SOURCES && j != lightId - 1 ==> r.1[j] == Refresh(s, sample.readings)[j]
    ensures forall j :: 0 <= j < NUM_LIGHT_SOURCES && s[j].alarm != NoAlarm && j != lightId - 1 ==> r.1[j].alarm != NoAlarm
    ensures AllLatched(s) ==> AllLatched(r.1)
    ensures AllCoherent(s) ==> AllCoherent(r.1)
  {
    if !ValidLightId(lightId) then
      (Error, s)
    else
      var refreshed := Refresh(s, sample.readings);
      if sample.status != Ok then
        (sample.status, refreshed)
      else if OutOfRange(refreshed[lightId - 1].reading) then
        (Error, refreshed)
      else
        (Ok, refreshed[lightId - 1 := refreshed[lightId - 1].(alarm := NoAlarm)])
  }

  /**
   * A clear on a channel that was alarmed leaves it dark: the alarm is gone
   * but the intensity and the actuator stay at 0 until an explicit set.
   */
  lemma ClearDoesNotResume(s: seq<Channel>, lightId: u8, sample: SensorSample)
    requires |s| == NUM_LIGHT_SOURCES && |sample.readings| == NUM_LIGHT_SOURCES
    requires AllLatched(s) && AllCoherent(s)
    requires ValidLightId(lightId) && s[lightId - 1].alarm != NoAlarm
    ensures var r := ClearAlarmOp(s, lightId, sample);
            r.0 == Ok ==> r.1[lightId - 1].alarm == NoAlarm && r.1[lightId - 1].intensity == 0 && r.1[lightId - 1].register == 0
  {
  }

  class Driver {
    /** current_intensities */
    const intensities: array<u8>
    /** light_sensor_data */
    const sensors: array<Reading>
    /** light_alarms */
    const alarms: array<Alarm>
    /** the actuator the driver commands */
    const pwm: Pwm

    ghost predicate Shaped()
      reads pwm.compare
    {
      && intensities.Length == NUM_LIGHT_SOURCES
      && sensors.Length == NUM_LIGHT_SOURCES
      && alarms.Length == NUM_LIGHT_SOURCES
      && pwm.Valid()
    }

    /** The abstract state: channel i is index i of the four arrays. */
    ghost function State(): (s: seq<Channel>)
      reads intensities, sensors, alarms, pwm.compare
      requires Shaped()
      ensures |s| == NUM_LIGHT_SOURCES
    {
      seq(NUM_LIGHT_SOURCES, i reads intensities, sensors, alarms, pwm.compare requires 0 <= i < NUM_LIGHT_SOURCES =>
        Channel(intensities[i], sensors[i], alarms[i], pwm.compare[i]))
    }

    /** The class invariant after every public call. */
    ghost predicate Valid()
      reads intensities, sensors, alarms, pwm.compare
    {
      Shaped() && AllLatched(State()) && AllCoherent(State())
    }

    /** The static initialisers, with the PWM layer already initialised. */
    constructor ()
      ensures Valid()
      ensures fresh(intensities) && fresh(sensors) && fresh(alarms) && fresh(pwm) && fresh(pwm.compare)
      ensures State() == [IDLE, IDLE, IDLE]
    {
      intensities := new u8[NUM_LIGHT_SOURCES](_ => 0);
      sensors := new Reading[NUM_LIGHT_SOURCES](_ => Reading(0.0, 0.0));
      alarms := new Alarm[NUM_LIGHT_SOURCES](_ => NoAlarm);
      pwm := new Pwm();
      new;
      assert State() == [IDLE, IDLE, IDLE];
    }

    /** LED_Driver_Init, given the status of VAL_Analog_Init. */
    method Init(analogStatus: Status) returns (status: Status)
      requires Valid()
      modifies intensities, alarms, pwm.compare
      ensures Valid()
      ensures status == analogStatus
      ensures analogStatus != Ok ==> State() == old(State())
      ensures analogStatus == Ok ==> forall i :: 0 <= i < NUM_LIGHT_SOURCES ==>
        State()[i] == Channel(0, old(sensors[i]), NoAlarm, 0)
    {
      if analogStatus != Ok {
        return analogStatus;
      }
      for i := 0 to NUM_LIGHT_SOURCES
        invariant Shaped()
        invariant forall k :: 0 <= k < i ==> intensities[k] == 0 && alarms[k] == NoAlarm
        invariant pwm.compare[..] == old(pwm.compare[..])
      {
        intensities[i] := 0;
        alarms[i] := NoAlarm;
      }
      for i := 0 to NUM_LIGHT_SOURCES
        invariant Shaped()
        invariant forall k :: 0 <= k < NUM_LIGHT_SOURCES ==> intensities[k] == 0 && alarms[k] == NoAlarm
        invariant forall k :: 0 <= k < i ==> pwm.compare[k] == 0
      {
        var _ := pwm.SetIntensity(i + 1, 0);
      }
      status := Ok;
    }

    /** check_alarm_conditions */
    method CheckAlarmConditions()
      requires Shaped()
      modifies intensities, alarms, pwm.compare
      ensures Shaped()
      ensures State() == CheckAll(old(State()))
    {
      for i := 0 to NUM_LIGHT_SOURCES
        invariant Shaped()
        invariant forall k :: 0 <= k < i ==> State()[k] == CheckChannel(old(State())[k])
        invariant forall k :: i <= k < NUM_LIGHT_SOURCES ==> State()[k] == old(State())[k]
      {
        ghost var before := State();
        if sensors[i].current > LIGHT_CURRENT_MAX || sensors[i].current < LIGHT_CURRENT_MIN {
          alarms[i] := OverCurrent;
          intensities[i] := 0;
          var _ := pwm.SetIntensity(i + 1, 0);
        }
        if sensors[i].temperature > LIGHT_TEMP_MAX || sensors[i].temperature < LIGHT_TEMP_MIN {
          alarms[i] := OverTemperature;
          intensities[i] := 0;
          var _ := pwm.SetIntensity(i + 1, 0);
        }
        assert State()[i] == CheckChannel(before[i]);
        assert forall k :: 0 <= k < NUM_LIGHT_SOURCES && k != i ==> State()[k] == before[k];
      }
    }

    /** update_sensor_readings */
    method UpdateSensorReadings(sample: SensorSample) returns (status: Status)
      requires Shaped() && |sample.readings| == NUM_LIGHT_SOURCES
      modifies sensors, intensities, alarms, pwm.compare
      ensures Shaped()
      ensures status == sample.status
      ensures State() == Refresh(old(State()), sample.readings)
    {
      ghost var before := State();
      // VAL_Analog_GetAllSensorData writes the three readings whatever its status
      forall i | 0 <= i < NUM_LIGHT_SOURCES {
        sensors[i] := sample.readings[i];
      }
      assert State() == seq(NUM_LIGHT_SOURCES, i requires 0 <= i < NUM_LIGHT_SOURCES => before[i].(reading := sample.readings[i]));
      CheckAlarmConditions();
      status := sample.status;
    }

    /** LED_Driver_SetIntensity, with the actuator given the intensity stored after the alarm check. */
    method SetIntensity(lightId: u8, intensity: u8, sample: SensorSample) returns (status: Status)
      requires Valid() && |sample.readings| == NUM_LIGHT_SOURCES
      modifies sensors, intensities, alarms, pwm.compare
      ensures Valid()
      ensures (status, State()) == SetIntensityOp(old(State()), lightId, intensity, sample)
    {
      status := ValidateLightId(lightId);
      if status != Ok {
        return;
      }
      if intensity > 100 {
        return Error;
      }
      if alarms[lightId - 1] != NoAlarm {
        return Error;
      }
      status := UpdateSensorReadings(sample);
      if status != Ok {
        return;
      }
      ghost var refreshed := State();
      var k := lightId - 1;
      intensities[k] := intensity;
      assert State() == refreshed[k := refreshed[k].(intensity := intensity)];
      CheckAlarmConditions();
      ghost var checked := State();
      status := pwm.SetIntensity(lightId, intensities[lightId - 1]);
      assert State() == checked[k := checked[k].(register := Clamp(checked[k].intensity))];
    }

    /** LED_Driver_SetIntensity as written: the final actuator write uses the requested intensity. */
    method SetIntensityAsWritten(lightId: u8, intensity: u8, sample: SensorSample) returns (status: Status)
      requires Valid() && |sample.readings| == NUM_LIGHT_SOURCES
      modifies sensors, intensities, alarms, pwm.compare
      ensures Shaped() && AllLatched(State())
      ensures (status, State()) == SetIntensityAsWrittenOp(old(State()), lightId, intensity, sample)
    {
      status := ValidateLightId(lightId);
      if status != Ok {
        return;
      }
      if intensity > 100 {
        return Error;
      }
      if alarms[lightId - 1] != NoAlarm {
        return Error;
      }
      status := UpdateSensorReadings(sample);
      if status != Ok {
        return;
      }
      ghost var refreshed := State();
      var k := lightId - 1;
      intensities[k] := intensity;
      assert State() == refreshed[k := refreshed[k].(intensity := intensity)];
      CheckAlarmConditions();
      ghost var checked := State();
      status := pwm.SetIntensity(lightId, intensity);
      assert State() == checked[k := checked[k].(register := Clamp(intensity))];
    }

    /** LED_Driver_SetAllIntensities */
    method SetAllIntensities(values: seq<u8>, sample: SensorSample) returns (status: Status)
      requires Valid() && |values| == NUM_LIGHT_SOURCES && |sample.readings| == NUM_LIGHT_SOURCES
      modifies sensors, intensities, alarms, pwm.compare
      ensures Valid()
      ensures (status, State()) == SetAllIntensitiesOp(old(State()), values, sample)
    {
      status := UpdateSensorReadings(sample);
      if status != Ok {
        return;
      }
      ghost var refreshed := State();
      for i := 0 to NUM_LIGHT_SOURCES
        invariant Shaped()
        invariant status == Ok
        invariant forall k :: 0 <= k < i ==>
          State()[k] == (if refreshed[k].alarm == NoAlarm
                         then refreshed[k].(intensity := values[k], register := Clamp(values[k]))
                         else refreshed[k])
        invariant forall k :: i <= k < NUM_LIGHT_SOURCES ==> State()[k] == refreshed[k]
      {
        ghost var before := State();
        if alarms[i] == NoAlarm {
          intensities[i] := values[i];
          var lightStatus := pwm.SetIntensity(i + 1, values[i]);
          if lightStatus != Ok {
            status := Error;
          }
        }
        assert forall k :: 0 <= k < NUM_LIGHT_SOURCES && k != i ==> State()[k] == before[k];
      }
      assert State() == seq(NUM_LIGHT_SOURCES, i requires 0 <= i < NUM_LIGHT_SOURCES =>
        if refreshed[i].alarm == NoAlarm
        then refreshed[i].(intensity := values[i], register := Clamp(values[i]))
        else refreshed[i]);
      CheckAlarmConditions();
    }

    /** LED_Driver_GetIntensity: a read of the stored intensity; the output is left alone on a bad id. */
    method GetIntensity(lightId: u8, prior: u8) returns (status: Status, intensity: u8)
      requires Shaped() && AllLatched(State())
      ensures !ValidLightId(lightId) ==> status == Error && intensity == prior
      ensures ValidLightId(lightId) ==> status == Ok && intensity == State()[lightId - 1].intensity
      ensures status == Ok && State()[lightId - 1].alarm != NoAlarm ==> intensity == 0
    {
      if lightId < 1 || lightId > NUM_LIGHT_SOURCES {
        return Error, prior;
      }
      intensity := intensities[lightId - 1];
      status := Ok;
    }

    /** LED_Driver_GetAllIntensities */
    method GetAllIntensities() returns (status: Status, values: seq<u8>)
      requires Shaped()
      ensures status == Ok && |values| == NUM_LIGHT_SOURCES
      ensures forall i :: 0 <= i < NUM_LIGHT_SOURCES ==> values[i] == State()[i].intensity
    {
      values := intensities[..];
      status := Ok;
    }

    /** LED_Driver_GetSensorData: a fresh refresh, then the channel's new reading. */
    method GetSensorData(lightId: u8, sample: SensorSample, prior: Reading) returns (status: Status, data: Reading)
      requires Valid() && |sample.readings| == NUM_LIGHT_SOURCES
      modifies sensors, intensities, alarms, pwm.compare
      ensures Valid()
      ensures !ValidLightId(lightId) ==> status == Error && data == prior && State() == old(State())
      ensures ValidLightId(lightId) ==>
        && State() == Refresh(old(State()), sample.readings)
        && status == sample.status
        && data == (if sample.status == Ok then sample.readings[lightId - 1] else prior)
    {
      status := ValidateLightId(lightId);
      if status != Ok {
        return status, prior;
      }
      status := UpdateSensorReadings(sample);
      if status != Ok {
        return status, prior;
      }
      data := sensors[lightId - 1];
    }

    /** LED_Driver_GetAllSensorData: a fresh refresh, then all three new readings. */
    method GetAllSensorData(sample: SensorSample, prior: seq<Reading>) returns (status: Status, data: seq<Reading>)
      requires Valid() && |sample.readings| == NUM_LIGHT_SOURCES
      modifies sensors, intensities, alarms, pwm.compare
      ensures Valid()
      ensures State() == Refresh(old(State()), sample.readings)
      ensures status == sample.status
      ensures data == (if sample.status == Ok then sample.readings else prior)
    {
      status := UpdateSensorReadings(sample);
      if status != Ok {
        return status, prior;
      }
      data := sensors[..];
    }

    /** LED_Driver_ClearAlarm */
    method ClearAlarm(lightId: u8, sample: SensorSample) returns (status: Status)
      requires Valid() && |sample.readings| == NUM_LIGHT_SOURCES
      modifies sensors, intensities, alarms, pwm.compare
      ensures Valid()
      ensures (status, State()) == ClearAlarmOp(old(State()), lightId, sample)
    {
      status := ValidateLightId(lightId);
      if status != Ok {
        return;
      }
      status := UpdateSensorReadings(sample);
      if status != Ok {
        return;
      }
      ghost var refreshed := State();
      var r := sensors[lightId - 1];
      if r.current > LIGHT_CURRENT_MAX || r.temperature > LIGHT_TEMP_MAX
         || r.current < LIGHT_CURRENT_MIN || r.temperature < LIGHT_TEMP_MIN {
        return Error;
      }
      alarms[lightId - 1] := NoAlarm;
      assert State() == refreshed[lightId - 1 := refreshed[lightId - 1].(alarm := NoAlarm)];
    }

    /** LED_Driver_GetAlarmStatus */
    method GetAlarmStatus() returns (status: Status, codes: seq<Alarm>)
      requires Shaped() && AllLatched(State())
      ensures status == Ok && |codes| == NUM_LIGHT_SOURCES
      ensures forall i :: 0 <= i < NUM_LIGHT_SOURCES ==> codes[i] == State()[i].alarm
      ensures forall i :: 0 <= i < NUM_LIGHT_SOURCES && codes[i] != NoAlarm ==> State()[i].intensity == 0
    {
      codes := alarms[..];
      status := Ok;
    }
  }
}
