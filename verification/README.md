# Enviro+ air-quality monitor: the sampling loop

This project models the main loop of `all_to_influxdb.py`, the script that samples an Enviro+ sensor board and writes the readings to InfluxDB. On every pass the script:

- builds a fresh reading from the LTR559 light/proximity sensor, the BME280 climate sensor, the MICS6814 gas sensor and the PMS5003 particle sensor;
- reports lux as exactly 1.0 without asking the light sensor when something is close to it (proximity 10 or more);
- leaves the temperature out until the counter reaches 6, and lowers it by 2.3 after that;
- converts the gas resistances from ohms to kilo-ohms;
- skips the write until the counter reaches 3;
- otherwise puts the reading into the field set of the single reused point envelope and writes that envelope;
- advances the counter only when the whole pass completes.

Any `Exception` raised in the pass is logged (line 177) and the loop goes on with the same counter. A `KeyboardInterrupt` is not an `Exception`: it leaves the loop through line 180 instead.

The project has four modules:

- `Sensors` (`sensors.dfy`) holds the input values. A `Sample` is what the drivers return in one pass. A `Fault` names the driver or database call that raises, if any. A fault at a call the pass does not make never fires.
- `Reading` (`reading.dfy`) is the pure part: the `Field` names and their wire names (`Name`), the two counter gates, and `Assemble`, the reading of iteration `n`. `Assemble` is built in the script's order and is proved against a per-field table (`Present`, `Value`).
- `Loop` (`loop.dfy`) is the loop as a state machine on values. `State` holds the counter, the envelope and a log of the published points. `Next` is one pass and `Run` a finite prefix of the endless loop. The lemmas state the gates, the fault stages and what holds of every run from start-up.
- `Driver` (`driver.dfy`) is the loop as the script runs it. `Envelope` is the reused point object whose `fields` are overwritten in place. `ReadSensors` builds the reading key by key, stopping at the first call that raises. `Monitor` holds the counter and the envelope. Its `Step` is proved to do exactly what `Loop.Next` says, and `RunLoop` exactly what `Loop.Run` says. The published points are a ghost log, because the database write is outside the model.

Three points about how the script behaves:

- The counter is incremented at line 173, inside the `try`. A pass that raises therefore does not advance it, and the next pass runs at the same count. An iteration that fails at count 2 is followed by another iteration at count 2, not by iteration 3.
- The loop body's handler catches only `Exception` (line 176). The script never resets the particle sensor. `ReadTimeoutError` is imported at line 14 but never named in an `except` clause; like every other error in the pass it is caught by the generic `except Exception` at line 176, so in the model it is a `RaiseAt(ReadParticles)` fault.
- The gas values are always divided by 1000, and the temperature correction is always the fixed offset −2.3.

## Model

| member | source | states |
|---|---|---|
| Reading.NamesDistinct | all_to_influxdb.py:129-159 | no two fields of a reading are written under the same dotted name |
| Reading.Assemble | all_to_influxdb.py:123-159 | a field is in the reading exactly when it belongs at that count: every field always, the temperature only from count 6 on |
| Reading.AssembleValues | all_to_influxdb.py:129-159 | every field holds the value the per-field table gives for it |
| Reading.ReadingKeysRule | all_to_influxdb.py:129-159 | the reading's keys are the sixteen fixed fields, plus `bme280.temperature` once warmed up |
| Reading.LuxRule | all_to_influxdb.py:132-135 | lux is the sensor's value when proximity < 10 and exactly 1.0 otherwise |
| Reading.LuxNotConsultedWhenObstructed | all_to_influxdb.py:132-135 | when proximity >= 10 the light sensor's value has no influence on the reading |
| Reading.TemperatureRule | all_to_influxdb.py:137-139 | the temperature field is present iff the count is >= 6, and then equals raw − 2.3 |
| Reading.TemperatureNotConsultedDuringWarmup | all_to_influxdb.py:138-139 | before count 6 the raw temperature has no influence on the reading |
| Reading.GasInKiloOhms | all_to_influxdb.py:143-147 | each gas field times 1000 is the channel's raw resistance |
| Reading.RawFieldsPassThrough | all_to_influxdb.py:126-141 | proximity, pressure and humidity are stored as the drivers report them |
| Reading.MassConcentrationsPassThrough | all_to_influxdb.py:150-153 | pm1, pm25 and pm10 are the PMS5003 mass concentrations unchanged |
| Reading.ParticleCountsPassThrough | all_to_influxdb.py:154-159 | the six per-litre particle counts are the PMS5003 values unchanged |
| Loop.Calls | all_to_influxdb.py:126-167 | the call order of one pass, as a list: the calls appear in the order of the loop body (strictly rising `Rank`), each at most once, proximity first, the light sensor iff proximity < 10, the temperature iff count >= 6, the write iff count >= 3 and then last |
| Loop.Next | all_to_influxdb.py:121-177 | one pass never changes the envelope's measurement or tags, raises the counter by at most one, and only appends to the published log, by at most one point |
| Loop.Run | all_to_influxdb.py:118-177 | over any sequence of passes the measurement and tags stay fixed, the counter rises by at most the number of passes, and the log only grows |
| Loop.CounterRule | all_to_influxdb.py:164-177 | the counter rises by exactly one when the pass completes and is unchanged when it raises |
| Loop.PublishRule | all_to_influxdb.py:164-169 | a completed pass writes iff the count is >= 3; the point written is the envelope holding this count's reading; below 3 only the counter changes |
| Loop.SensorFaultChangesNothing | all_to_influxdb.py:121-159 | a fault in any sensor read leaves counter, envelope and log exactly as they were |
| Loop.WriteFaultAfterReplace | all_to_influxdb.py:164-167 | a fault in the write happens only from count 3 on and after the envelope's fields were replaced; counter and log stay |
| Loop.UncalledSensorsCannotFail | all_to_influxdb.py:132-167 | a light-sensor fault fires iff the sensor is uncovered; a temperature fault iff warmed up; a write fault iff past the skip period |
| Loop.FailedPassIsRetried | all_to_influxdb.py:120-177 | after a pass that raised, the next pass runs at the same count and ends with the same counter and log as if the failed pass had not happened |
| Loop.InitialFromStartup | all_to_influxdb.py:65-73 | the loop starts with the host tag `enviroplus`, no fields, counter 0 and nothing written, which satisfies the start-up invariant |
| Loop.NextKeepsFromStartup | all_to_influxdb.py:164-173 | one pass keeps the start-up invariant: one point per completed pass from count 3 on, the k-th carrying the field names of count 3 + k |
| Loop.RunKeepsFromStartup | all_to_influxdb.py:118-177 | every state the loop reaches from start-up satisfies that invariant, whatever faults occur |
| Loop.PublishedTemperatureFromStartup | all_to_influxdb.py:137-169 | from start-up and under any faults, the first three points written lack the temperature, every later one carries it, and all carry the host tag |
| Loop.CleanRunCounts | all_to_influxdb.py:119-173 | without faults the counter rises by the number of passes, and one point is written for each pass at count >= 3 |
| Loop.SevenCleanPasses | all_to_influxdb.py:119-173 | seven fault-free passes from start-up write four points; the first three lack the temperature; the fourth is the seventh pass's reading with temperature raw − 2.3 |
| Driver.ReadSensors | all_to_influxdb.py:123-159 | asking the sensors in order either raises at the first faulty call that is made, or yields exactly the assembled reading; it counts the calls it makes, and on a raise the raising call sits at that position of `Loop.Calls`; on completion the count is every call of `Loop.Calls` but the write |
| Driver.Envelope.constructor | all_to_influxdb.py:65-73 | the envelope starts with the configured measurement, tags `host` → `enviroplus` and an empty field set |
| Driver.Monitor.constructor | all_to_influxdb.py:118-120 | the loop is entered with counter 0, the empty envelope and nothing published |
| Driver.Monitor.Step | all_to_influxdb.py:121-177 | one pass changes the counter, the envelope's fields and the log exactly as `Loop.Next` says and returns how it ended; measurement and tags are untouched |
| Driver.Monitor.RunLoop | all_to_influxdb.py:118-177 | a sequence of passes leaves the loop in the state `Loop.Run` gives and keeps the start-up invariant |

## Left out

- Configuration reading (lines 38-42): file I/O. The interval is not modelled, and the measurement name is a parameter.
- InfluxDB client construction, `ping` and the exit with status 1 (lines 51-62): network I/O and process exit. The model starts where the loop starts.
- `write_points` is the call that can raise at `WritePoints`. Its network effect is recorded as an append to the ghost `published` log, and only for a write that returns normally. A write that raises after InfluxDB has stored the point (a response timeout, say) is recorded as not published; the retry at the same count can then store that reading a second time, which the log does not show.
- The LTR559 import fallback (lines 17-22): an import-time shim with no behaviour of its own.
- Display rendering (lines 75-115): drawing on the LCD.
- Logging (lines 30-35, 162, 166, 169, 177), including the one-off "warmup period over" message at count 6: no state is involved.
- `sleep(INTERVAL)` (line 172): timing. An exception raised by it, or by a logging call, is not one of the modelled fault points.
- The `KeyboardInterrupt` shutdown path (lines 180-183): signal handling, `close` and process exit. `RunLoop` runs a finite sequence of passes instead of looping forever.
- Floating point: the −2.3 and the division by 1000.0 are exact real arithmetic. The integer proximity value is modelled as a real.
- The sensor drivers (`get_proximity`, `get_lux`, the BME280 accessors, `gas.read_all`, `pms5003.read`): foreign code. Their results are the `Sample` input, and whether one of them raises is the `Fault` input.
- Dictionary insertion order: the reading is a map, so the order in which keys were inserted is not kept.
- The reading map uses the `Field` datatype as its key. The dotted name sent on the wire is `Name(f)`.
