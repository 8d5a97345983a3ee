/**
  The tagged-union draft of the sensor validator: the category carries its
  reading, and one `match` picks the range check.
 */
module TaggedSensor {
  import opened Rules

  /** A category together with its reading (`f64`, here a real). */
  datatype SensorType = Temperature(temperature: real) | Pressure(pressure: real)

  datatype Sensor = Sensor(sensorData: SensorType, timestamp: Timestamp)

  /** The rule that applies to a category. */
  function RuleOf(data: SensorType): Rule {
    match data
    case Temperature(_) => TemperatureRule
    case Pressure(_) => PressureRule
  }

  /** The reading a category carries. */
  function ReadingOf(data: SensorType): real {
    match data
    case Temperature(t) => t
    case Pressure(p) => p
  }

  /**
    Checks the reading against its category's closed range. The result is the
    verdict of the category's rule, so it is `Ok` exactly inside the range and
    otherwise names the side on which the reading left it.
   */
  function Validate(s: Sensor): (r: Outcome)
    ensures Conforms(RuleOf(s.sensorData), ReadingOf(s.sensorData), r)
  {
    match s.sensorData
    case Temperature(temperature) =>
      if temperature < 0.0 then
        Err("INVALID TEMPERATURE: TOO LOW")
      else if temperature > 100.0 then
        Err("INVALID TEMPERATURE: TOO HIGH")
      else
        Ok
    case Pressure(pressure) =>
      if pressure < 900.0 then
        Err("INVALID PRESSURE: TOO LOW")
      else if pressure > 1100.0 then
        Err("INVALID PRESSURE: TOO HIGH")
      else
        Ok
  }

  /** The verdict depends on the reading alone, never on the timestamp. */
  lemma ValidateIgnoresTimestamp(a: Sensor, b: Sensor)
    requires a.sensorData == b.sensorData
    ensures Validate(a) == Validate(b)
  {
  }

  /** A temperature reading never yields a pressure message, and vice versa. */
  lemma CategoriesKeepTheirMessages(s: Sensor)
    ensures s.sensorData.Temperature? ==> Validate(s) !in {Err(PressureTooLow), Err(PressureTooHigh)}
    ensures s.sensorData.Pressure? ==> Validate(s) !in {Err(TemperatureTooLow), Err(TemperatureTooHigh)}
  {
  }

  /** The four ends of the two ranges are admissible. */
  lemma BoundariesAccepted(ts: Timestamp)
    ensures Validate(Sensor(Temperature(0.0), ts)) == Ok
    ensures Validate(Sensor(Temperature(100.0), ts)) == Ok
    ensures Validate(Sensor(Pressure(900.0), ts)) == Ok
    ensures Validate(Sensor(Pressure(1100.0), ts)) == Ok
  {
  }

  /** Everything `Validate` can return. */
  const Outcomes: set<Outcome> :=
    {Ok, Err(TemperatureTooLow), Err(TemperatureTooHigh), Err(PressureTooLow), Err(PressureTooHigh)}

  /**
    `Validate` returns exactly the five outcomes of its match arms: nothing
    else, and each of them for some sensor (so no arm is dead).
   */
  lemma ValidateOutcomes()
    ensures forall s :: Validate(s) in Outcomes
    ensures forall r :: r in Outcomes ==> exists s :: Validate(s) == r
  {
    var ok := Sensor(Temperature(50.0), 10000);
    var coldest := Sensor(Temperature(-1.0), 10000);
    var hottest := Sensor(Temperature(150.0), 10000);
    var thinnest := Sensor(Pressure(850.0), 10000);
    var densest := Sensor(Pressure(1150.0), 10000);
    assert Validate(ok) == Ok;
    assert Validate(coldest) == Err(TemperatureTooLow);
    assert Validate(hottest) == Err(TemperatureTooHigh);
    assert Validate(thinnest) == Err(PressureTooLow);
    assert Validate(densest) == Err(PressureTooHigh);
  }
}
