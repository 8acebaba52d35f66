/**
 * The sensor data converter of menu 19: a 12-bit ADC reading is scaled by the
 * reference voltage to a voltage, which one of three linear sensor models
 * maps to a physical value. The menu repeats until the user enters -1 as the
 * reading or picks sensor 0.
 */
module Sensors {

  /** Full scale of the 12-bit converter. */
  const AdcMax: int := 4095

  /** The outcome of one pass through the menu 19 loop. */
  datatype Step =
    | Quit
    | AdcOutOfRange
    | NonPositiveVref
    | QuitAfterVoltage(voltage: real)
    | Temperature(voltage: real, celsius: real)
    | Pressure(voltage: real, kilopascal: real)
    | Acceleration(voltage: real, gForce: real)
    | InvalidChoice(voltage: real)

  /** One request: the ADC reading, the reference voltage and the sensor choice. */
  datatype Request = Request(adc: int, vref: real, sensor: int)

  /** Whether a step ends the menu 19 loop. */
  predicate Ends(s: Step) {
    s.Quit? || s.QuitAfterVoltage?
  }

  /** The voltage an ADC reading stands for: adc * vref / 4095. */
  function AdcVoltage(adc: int, vref: real): real {
    (adc as real) * vref / (AdcMax as real)
  }

  /**
   * One pass of the menu 19 loop after its inputs have been read: -1 leaves;
   * a reading outside [0, 4095] or a non-positive Vref is rejected; otherwise
   * sensor 1 is an LM35 (10 mV per degree), sensor 2 maps 0-5 V to 0-100 kPa,
   * sensor 3 is an accelerometer (0 g at 1.65 V, 0.3 V per g), 0 leaves.
   */
  function Sense(adc: int, vref: real, sensor: int): (s: Step)
    ensures s == Quit <==> adc == -1
    ensures s == AdcOutOfRange <==> adc != -1 && !(0 <= adc <= AdcMax)
    ensures s == NonPositiveVref <==> 0 <= adc <= AdcMax && vref <= 0.0
    ensures s.Temperature? ==> s.celsius * 0.01 == s.voltage
    ensures s.Pressure? ==> s.kilopascal * 5.0 == s.voltage * 100.0
    ensures s.Acceleration? ==> s.gForce * 0.3 + 1.65 == s.voltage
    ensures 0 <= adc <= AdcMax && vref > 0.0 ==>
      && s.voltage == AdcVoltage(adc, vref)
      && (s.QuitAfterVoltage? <==> sensor == 0)
      && (s.Temperature? <==> sensor == 1)
      && (s.Pressure? <==> sensor == 2)
      && (s.Acceleration? <==> sensor == 3)
      && (s.InvalidChoice? <==> !(0 <= sensor <= 3))
  {
    if adc == -1 then Quit
    else if adc < 0 || adc > AdcMax then AdcOutOfRange
    else if vref <= 0.0 then NonPositiveVref
    else
      var voltage := (adc as real) * vref / 4095.0;
      if sensor == 0 then QuitAfterVoltage(voltage)
      else if sensor == 1 then Temperature(voltage, voltage / 0.01)
      else if sensor == 2 then Pressure(voltage, (voltage / 5.0) * 100.0)
      else if sensor == 3 then Acceleration(voltage, (voltage - 1.65) / 0.3)
      else InvalidChoice(voltage)
  }

  /** Every accepted reading yields the voltage adc * vref / 4095. */
  lemma SenseVoltage(adc: int, vref: real, sensor: int)
    requires 0 <= adc <= AdcMax && vref > 0.0
    ensures Sense(adc, vref, sensor).voltage == AdcVoltage(adc, vref)
  {
  }

  /** The voltage lies in [0, vref], reaching vref at full scale and 0 at zero. */
  lemma VoltageWithinReference(adc: int, vref: real)
    requires 0 <= adc <= AdcMax && vref > 0.0
    ensures 0.0 <= AdcVoltage(adc, vref) <= vref
    ensures AdcVoltage(0, vref) == 0.0
    ensures AdcVoltage(AdcMax, vref) == vref
  {
    var k := adc as real;
    assert 0.0 <= k * vref <= (AdcMax as real) * vref;
  }

  /** A higher reading never gives a lower voltage. */
  lemma VoltageMonotone(adc1: int, adc2: int, vref: real)
    requires 0 <= adc1 <= adc2 <= AdcMax && vref > 0.0
    ensures AdcVoltage(adc1, vref) <= AdcVoltage(adc2, vref)
  {
    assert (adc1 as real) * vref <= (adc2 as real) * vref;
  }

  /** With Vref at most 5 V the pressure model stays within 0-100 kPa. */
  lemma PressureWithinRange(adc: int, vref: real)
    requires 0 <= adc <= AdcMax && 0.0 < vref <= 5.0
    ensures 0.0 <= Sense(adc, vref, 2).kilopascal <= 100.0
  {
    VoltageWithinReference(adc, vref);
  }

  /**
   * The menu 19 loop: serves the requests in order and stops after the first
   * one that leaves (reading -1, or sensor 0 after a valid reading).
   */
  method RunSensorConverter(requests: seq<Request>) returns (steps: seq<Step>)
    ensures |steps| <= |requests|
    ensures forall i :: 0 <= i < |steps| ==> steps[i] == Sense(requests[i].adc, requests[i].vref, requests[i].sensor)
    ensures forall i :: 0 <= i < |steps| - 1 ==> !Ends(steps[i])
    ensures |steps| < |requests| ==> |steps| > 0 && Ends(steps[|steps| - 1])
  {
    steps := [];
    var i := 0;
    while i < |requests|
      invariant i == |steps| <= |requests|
      invariant forall k :: 0 <= k < i ==> steps[k] == Sense(requests[k].adc, requests[k].vref, requests[k].sensor)
      invariant forall k :: 0 <= k < i ==> !Ends(steps[k])
    {
      var req := requests[i];
      var step := Sense(req.adc, req.vref, req.sensor);
      steps := steps + [step];
      i := i + 1;
      if Ends(step) {
        break;
      }
    }
  }
}
