/**
  The older draft of the sensor validator: a payload-free category tag, a
  separate reading, and one validation function per category that also rejects
  a sensor of the other category.
 */
module LegacySensor {
  import opened Rules

  datatype SensorType = Temperature | Pressure

  datatype Sensor = Sensor(sensorType: SensorType, value: real, timestamp: Timestamp)

  const NotTemperatureSensor := "NOT A TEMPERATURE SENSOR"
  const NotPressureSensor := "NOT A PRESSURE SENSOR"

  /**
    Rejects a sensor that is not a temperature sensor, whatever its reading;
    on a temperature sensor the result is the temperature rule's verdict.
   */
  function ValidateTemperature(s: Sensor): (r: Outcome)
    ensures r == Err(NotTemperatureSensor) <==> s.sensorType != Temperature
    ensures s.sensorType == Temperature ==> Conforms(TemperatureRule, s.value, r)
  {
    if s.sensorType != Temperature then
      Err("NOT A TEMPERATURE SENSOR")
    else
      var temperature := s.value;
      if temperature < 0.0 then
        Err("INVALID TEMPERATURE: TOO LOW")
      else if temperature > 100.0 then
        Err("INVALID TEMPERATURE: TOO HIGH")
      else
        Ok
  }

  /**
    Rejects a sensor that is not a pressure sensor, whatever its reading;
    on a pressure sensor the result is the pressure rule's verdict.
   */
  function ValidatePressure(s: Sensor): (r: Outcome)
    ensures r == Err(NotPressureSensor) <==> s.sensorType != Pressure
    ensures s.sensorType == Pressure ==> Conforms(PressureRule, s.value, r)
  {
    if s.sensorType != Pressure then
      Err("NOT A PRESSURE SENSOR")
    else
      var pressure := s.value;
      if pressure < 900.0 then
        Err("INVALID PRESSURE: TOO LOW")
      else if pressure > 1100.0 then
        Err("INVALID PRESSURE: TOO HIGH")
      else
        Ok
  }

  /** Neither validator looks at the timestamp. */
  lemma ValidatorsIgnoreTimestamp(a: Sensor, b: Sensor)
    requires a.sensorType == b.sensorType && a.value == b.value
    ensures ValidateTemperature(a) == ValidateTemperature(b)
    ensures ValidatePressure(a) == ValidatePressure(b)
  {
  }

  /** The ends of both ranges are admissible. */
  lemma BoundariesAccepted(ts: Timestamp)
    ensures ValidateTemperature(Sensor(Temperature, 0.0, ts)) == Ok
    ensures ValidateTemperature(Sensor(Temperature, 100.0, ts)) == Ok
    ensures ValidatePressure(Sensor(Pressure, 900.0, ts)) == Ok
    ensures ValidatePressure(Sensor(Pressure, 1100.0, ts)) == Ok
  {
  }

  const TemperatureOutcomes: set<Outcome> :=
    {Ok, Err(NotTemperatureSensor), Err(TemperatureTooLow), Err(TemperatureTooHigh)}
  const PressureOutcomes: set<Outcome> :=
    {Ok, Err(NotPressureSensor), Err(PressureTooLow), Err(PressureTooHigh)}

  /**
    Each validator returns exactly the four outcomes of its branches: nothing
    else, and each of them for some sensor.
   */
  lemma ValidatorOutcomes()
    ensures forall s :: ValidateTemperature(s) in TemperatureOutcomes
    ensures forall r :: r in TemperatureOutcomes ==> exists s :: ValidateTemperature(s) == r
    ensures forall s :: ValidatePressure(s) in PressureOutcomes
    ensures forall r :: r in PressureOutcomes ==> exists s :: ValidatePressure(s) == r
  {
    assert ValidateTemperature(Sensor(Temperature, 50.0, 100000)) == Ok;
    assert ValidateTemperature(Sensor(Pressure, 50.0, 100000)) == Err(NotTemperatureSensor);
    assert ValidateTemperature(Sensor(Temperature, -100.0, 100000)) == Err(TemperatureTooLow);
    assert ValidateTemperature(Sensor(Temperature, 200.0, 100000)) == Err(TemperatureTooHigh);
    assert ValidatePressure(Sensor(Pressure, 1000.0, 100000)) == Ok;
    assert ValidatePressure(Sensor(Temperature, 1000.0, 100000)) == Err(NotPressureSensor);
    assert ValidatePressure(Sensor(Pressure, -100.0, 100000)) == Err(PressureTooLow);
    assert ValidatePressure(Sensor(Pressure, 1200.0, 100000)) == Err(PressureTooHigh);
  }
}
