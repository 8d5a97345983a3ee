/**
  The two drafts of the validator agree: a legacy sensor checked by the
  validator of its own category gets the same verdict as the tagged sensor that
  carries the same reading in the same category.
 */
module Drafts {
  import opened Rules
  import T = TaggedSensor
  import L = LegacySensor

  /** The tagged sensor with the legacy sensor's category, reading and timestamp. */
  function ToTagged(l: L.Sensor): (t: T.Sensor)
    ensures t.timestamp == l.timestamp
    ensures T.ReadingOf(t.sensorData) == l.value
    ensures t.sensorData.Temperature? <==> l.sensorType == L.Temperature
  {
    match l.sensorType
    case Temperature => T.Sensor(T.Temperature(l.value), l.timestamp)
    case Pressure => T.Sensor(T.Pressure(l.value), l.timestamp)
  }

  /** The legacy sensor with the tagged sensor's category, reading and timestamp. */
  function ToLegacy(t: T.Sensor): (l: L.Sensor)
    ensures ToTagged(l) == t
    ensures ToLegacy(ToTagged(l)) == l
  {
    match t.sensorData
    case Temperature(v) => L.Sensor(L.Temperature, v, t.timestamp)
    case Pressure(v) => L.Sensor(L.Pressure, v, t.timestamp)
  }

  /** The legacy validator that matches the sensor's own category. */
  function ValidateOwnCategory(l: L.Sensor): Outcome {
    if l.sensorType == L.Temperature then L.ValidateTemperature(l) else L.ValidatePressure(l)
  }

  /** On a temperature reading `v` the two drafts agree, whatever the timestamps. */
  lemma TemperatureDraftsAgree(v: real, ts: Timestamp, ts': Timestamp)
    ensures L.ValidateTemperature(L.Sensor(L.Temperature, v, ts)) == T.Validate(T.Sensor(T.Temperature(v), ts'))
  {
  }

  /** On a pressure reading `v` the two drafts agree, whatever the timestamps. */
  lemma PressureDraftsAgree(v: real, ts: Timestamp, ts': Timestamp)
    ensures L.ValidatePressure(L.Sensor(L.Pressure, v, ts)) == T.Validate(T.Sensor(T.Pressure(v), ts'))
  {
  }

  /** Every legacy sensor, and every tagged sensor, has a counterpart in the other draft with the same verdict. */
  lemma DraftsAgree(l: L.Sensor, t: T.Sensor)
    ensures T.Validate(ToTagged(l)) == ValidateOwnCategory(l)
    ensures ValidateOwnCategory(ToLegacy(t)) == T.Validate(t)
  {
  }

  /**
    The only verdicts of the legacy draft the tagged draft cannot give are the
    wrong-category rejections, which the tagged union makes impossible.
   */
  lemma WrongCategoryOnlyInLegacy(l: L.Sensor, t: T.Sensor)
    ensures l.sensorType == L.Pressure ==> L.ValidateTemperature(l) == Err(L.NotTemperatureSensor)
    ensures l.sensorType == L.Temperature ==> L.ValidatePressure(l) == Err(L.NotPressureSensor)
    ensures T.Validate(t) != Err(L.NotTemperatureSensor) && T.Validate(t) != Err(L.NotPressureSensor)
  {
  }
}
