/**
 The values the sensor drivers hand to one pass of the sampling loop, the
 driver calls that pass makes, and the point at which a pass may raise.
 The drivers themselves (LTR559, BME280, MICS6814 via `gas.read_all`,
 PMS5003) and the InfluxDB client are outside the model: what they return
 is an input, and whether one of them raises is an input too.
 */
module Sensors {

  /** The three channel resistances of the MICS6814 gas sensor, in ohms. */
  datatype GasData = GasData(oxidising: real, reducing: real, nh3: real)

  /**
   One PMS5003 frame: mass concentration in ug/m3 for particles up to
   1.0, 2.5 and 10 um, and particle counts per litre of air above
   0.3, 0.5, 1.0, 2.5, 5 and 10 um.
   */
  datatype ParticleData = ParticleData(
    pm1: real, pm25: real, pm10: real,
    per03: real, per05: real, per10: real, per25: real, per50: real, per100: real)

  /**
   What every driver would return if asked in this pass. `lux` is what the
   light sensor would report; the loop only asks for it when nothing is
   close to the sensor. `temperature` is the raw BME280 value, asked for
   only after the warm-up period.
   */
  datatype Sample = Sample(
    proximity: real,
    lux: real,
    temperature: real,
    pressure: real,
    humidity: real,
    gas: GasData,
    particles: ParticleData)

  /** The calls into foreign code that one pass of the loop body can make. */
  datatype Call =
    | GetProximity
    | GetLux
    | GetTemperature
    | GetPressure
    | GetHumidity
    | ReadGas
    | ReadParticles
    | WritePoints

  /**
   Whether one of the calls raises in this pass. A fault at a call that the
   pass does not make (the light sensor while obstructed, the temperature
   before warm-up, the write before the skip period is over) never fires.
   */
  datatype Fault = NoFault | RaiseAt(call: Call)

  /** One pass of the loop: what the sensors report and where it fails, if anywhere. */
  datatype Attempt = Attempt(sample: Sample, fault: Fault)
}
