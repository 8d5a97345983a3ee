# Sensor range validator — Dafny model

This project models the range validator of a Rust sensor-reading validator.
Each reading belongs to a category, temperature or pressure. It is accepted
when it lies in that category's closed range: [0, 100] for temperature and
[900, 1100] for pressure. Otherwise it is rejected with a fixed message that
says which side of the range it left. The repository has two drafts of this
logic:

- `src/sensor.rs` is the tagged-union draft. The category variant carries the
  reading, and one `match` selects the check. It is modelled in module
  `TaggedSensor` (`sensor.dfy`).
- `src/main.rs` is the older draft. It has a payload-free category tag, a
  separate `value` field, and one validator per category. Each validator also
  rejects a sensor of the other category. It is modelled in module
  `LegacySensor` (`legacy_sensor.dfy`).

Module `Rules` (`rules.dfy`) states the range rules once, as data: each
category's interval and its two messages. It also defines `Conforms`, the
verdict that a rule gives on a reading. The validators compare against
literals, as the source does. Their contracts are stated against these rules.
Module `Drafts` (`drafts.dfy`) proves that the two drafts agree.

Readings are modelled as `real`. The source uses only `<` and `>` against
constants, with no arithmetic. Timestamps are unsigned 64-bit integers. Both
drafts are pure functions over `&self`, so both are modelled as datatypes and
functions.

## Model

| member | source | states |
|---|---|---|
| TaggedSensor.Validate | src/sensor.rs:13-36 | The result is the category rule's verdict. It is `Ok` exactly when the reading is in the closed range, including both ends. It is the TOO LOW message exactly below the range and the TOO HIGH message exactly above it. |
| TaggedSensor.ValidateIgnoresTimestamp | src/sensor.rs:7-10 | Two sensors that differ only in `timestamp` get the same verdict. |
| TaggedSensor.CategoriesKeepTheirMessages | src/sensor.rs:14-35 | A temperature reading never yields a PRESSURE message, and a pressure reading never yields a TEMPERATURE message. |
| TaggedSensor.BoundariesAccepted | src/sensor.rs:107-132 | The range ends 0, 100, 900 and 1100 are accepted. |
| TaggedSensor.ValidateOutcomes | src/sensor.rs:44-103 | `validate` returns only `Ok` and the four range messages. Each of these five is returned for some sensor, using the readings from the source's tests as witnesses. |
| LegacySensor.ValidateTemperature | src/main.rs:15-28 | Returns "NOT A TEMPERATURE SENSOR" exactly when the tag is not `Temperature`, whatever the value. On a temperature sensor, the result is the temperature rule's verdict: `Ok` exactly on [0, 100], TOO LOW below and TOO HIGH above. |
| LegacySensor.ValidatePressure | src/main.rs:30-43 | Returns "NOT A PRESSURE SENSOR" exactly when the tag is not `Pressure`, whatever the value. On a pressure sensor, the result is the pressure rule's verdict: `Ok` exactly on [900, 1100], TOO LOW below and TOO HIGH above. |
| LegacySensor.ValidatorsIgnoreTimestamp | src/main.rs:8-12 | Neither validator's result depends on `timestamp`. |
| LegacySensor.BoundariesAccepted | src/main.rs:19-40 | On sensors of the right category, the range ends 0, 100, 900 and 1100 are accepted. |
| LegacySensor.ValidatorOutcomes | src/main.rs:15-43 | Each validator returns only `Ok`, its wrong-category message and its two range messages. Each of these four is returned for some sensor. |
| Drafts.ToTagged | src/main.rs:8-12 | Converts a legacy sensor to a tagged sensor with the same category, reading and timestamp. |
| Drafts.ToLegacy | src/sensor.rs:7-10 | Converts a tagged sensor to a legacy sensor. `ToTagged` maps the result back to the original, and `ToLegacy` undoes `ToTagged`, so the two sensor types are in bijection. |
| Drafts.TemperatureDraftsAgree | src/main.rs:15-28 | For every reading v, `validate_temperature` on a temperature-tagged sensor returns the same result as `validate` on `Temperature(v)`, whatever the two timestamps are. |
| Drafts.PressureDraftsAgree | src/main.rs:30-43 | For every reading v, `validate_pressure` on a pressure-tagged sensor returns the same result as `validate` on `Pressure(v)`, whatever the two timestamps are. |
| Drafts.DraftsAgree | src/sensor.rs:13-36 | Every legacy sensor, checked by the validator of its own category, gets the same verdict as its tagged counterpart. The converse holds for every tagged sensor. |
| Drafts.WrongCategoryOnlyInLegacy | src/main.rs:16-17 | Only the legacy draft can reject a sensor for its category. Applying the other category's validator always gives the wrong-category message, and the tagged draft never returns either wrong-category message. |

## Left out

- NaN and infinite readings: `f64` is modelled as `real`, which has neither. With the source's strict `<` and `>` checks (src/sensor.rs:16-18, 26-28; src/main.rs:20-22, 35-37), every comparison with NaN is false, so a NaN reading is accepted as `Ok`. This model cannot show that case.
- `main` in src/main.rs: a console demo that only prints the two verdicts.
- The test module in src/main.rs: it calls free functions `validate_temperature(f64)` and `validate_pressure(f64)`, which do not exist. Its `test_valid_pressure` also expects 50.0 to be a valid pressure, which the code's comparisons reject. The model follows the code.
- `run` and `Config::build` in src/lib.rs: file opening, console output and command-line argument handling.
- The CSV pipeline and report in src/read_csv.rs and src/lib.rs (`read_data_lines`, `ValidationResult`, `ValidationError`, success rate, summary, and the `i32` to `u64` timestamp cast): row decoding goes through the external `serde`/`csv` crates, and the rest is file handling and console output.
