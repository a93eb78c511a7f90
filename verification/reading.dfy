/**
 The pure part of one pass of the sampling loop: which fields a reading
 holds, what each one is worth, and the two counter gates (warm-up for the
 temperature, skip for the write). Values are reals; the source's floating
 point subtraction and division are modelled exactly.
 */
module Reading {
  import opened Sensors

  /** Below this iteration count nothing is written to the database. */
  const SkipThreshold: nat := 3
  /** Below this iteration count the temperature is left out of the reading. */
  const WarmupThreshold: nat := 6
  /** A proximity at or above this means the light sensor is covered. */
  const ObstructionLimit: real := 10.0
  /** The lux value reported while the light sensor is covered. */
  const ObstructedLux: real := 1.0
  /** Subtracted from the raw BME280 temperature (self-heating correction). */
  const TemperatureOffset: real := 2.3
  /** Gas resistances are reported in kilo-ohms. */
  const OhmsPerKiloOhm: real := 1000.0

  /** The fields a reading can hold, one per value the script stores. */
  datatype Field =
    | Proximity | Lux
    | Temperature | Pressure | Humidity
    | Oxidising | Reducing | Nh3
    | Pm1 | Pm25 | Pm10
    | Per03 | Per05 | Per10 | Per25 | Per50 | Per100

  /** The dotted name under which each field is written to the database. */
  function Name(f: Field): string {
    match f
    case Proximity => "ltr559.proximity"
    case Lux => "ltr559.lux"
    case Temperature => "bme280.temperature"
    case Pressure => "bme280.pressure"
    case Humidity => "bme280.humidity"
    case Oxidising => "mics6814.oxidising"
    case Reducing => "mics6814.reducing"
    case Nh3 => "mics6814.nh3"
    case Pm1 => "pms5003.pm1"
    case Pm25 => "pms5003.pm25"
    case Pm10 => "pms5003.pm10"
    case Per03 => "pms5003.03um"
    case Per05 => "pms5003.05um"
    case Per10 => "pms5003.10um"
    case Per25 => "pms5003.25um"
    case Per50 => "pms5003.50um"
    case Per100 => "pms5003.100um"
  }

  /** No two fields are written under the same name. */
  lemma NamesDistinct(f: Field, g: Field)
    requires f != g
    ensures Name(f) != Name(g)
  {
  }

  /** Every field a reading can hold. */
  const AllFields: set<Field> := {
    Proximity, Lux, Temperature, Pressure, Humidity, Oxidising, Reducing, Nh3,
    Pm1, Pm25, Pm10, Per03, Per05, Per10, Per25, Per50, Per100
  }

  /** The reading of this iteration is handed to the database. */
  predicate ShouldPublish(n: nat) {
    n >= SkipThreshold
  }

  /** The temperature sensor is trusted from this iteration on. */
  predicate WarmedUp(n: nat) {
    n >= WarmupThreshold
  }

  /** Something is close to the light sensor, so its lux value is not asked for. */
  predicate Obstructed(s: Sample) {
    !(s.proximity < ObstructionLimit)
  }

  /** The lux field: the sensor's value unless it is covered. */
  function LuxValue(s: Sample): real {
    if s.proximity < ObstructionLimit then s.lux else ObstructedLux
  }

  /** Whether field `f` belongs in the reading of iteration `n`: all do, the temperature only after warm-up. */
  predicate Present(n: nat, f: Field) {
    f == Temperature ==> WarmedUp(n)
  }

  /** The fields of the reading assembled at iteration `n`. */
  function ReadingKeys(n: nat): set<Field> {
    if WarmedUp(n) then AllFields else AllFields - {Temperature}
  }

  /** The value the script stores under field `f`, computed from the drivers' values. */
  function Value(s: Sample, f: Field): real {
    match f
    case Proximity => s.proximity
    case Lux => LuxValue(s)
    case Temperature => s.temperature - TemperatureOffset
    case Pressure => s.pressure
    case Humidity => s.humidity
    case Oxidising => s.gas.oxidising / OhmsPerKiloOhm
    case Reducing => s.gas.reducing / OhmsPerKiloOhm
    case Nh3 => s.gas.nh3 / OhmsPerKiloOhm
    case Pm1 => s.particles.pm1
    case Pm25 => s.particles.pm25
    case Pm10 => s.particles.pm10
    case Per03 => s.particles.per03
    case Per05 => s.particles.per05
    case Per10 => s.particles.per10
    case Per25 => s.particles.per25
    case Per50 => s.particles.per50
    case Per100 => s.particles.per100
  }

  /**
   The reading assembled at iteration `n` from the values in `s`, built
   field by field in the script's order. It holds exactly the fields that
   belong in it, each with the value the table above gives.
   */
  function Assemble(n: nat, s: Sample): (r: map<Field, real>)
    ensures forall f :: f in r <==> Present(n, f)
  {
    var light := map[Proximity := s.proximity, Lux := LuxValue(s)];
    var warm := if WarmedUp(n) then light[Temperature := s.temperature - TemperatureOffset] else light;
    warm[Pressure := s.pressure][Humidity := s.humidity]
        [Oxidising := s.gas.oxidising / OhmsPerKiloOhm]
        [Reducing := s.gas.reducing / OhmsPerKiloOhm]
        [Nh3 := s.gas.nh3 / OhmsPerKiloOhm]
        [Pm1 := s.particles.pm1][Pm25 := s.particles.pm25][Pm10 := s.particles.pm10]
        [Per03 := s.particles.per03][Per05 := s.particles.per05][Per10 := s.particles.per10]
        [Per25 := s.particles.per25][Per50 := s.particles.per50][Per100 := s.particles.per100]
  }

  /** Every field of a reading holds the value the table gives for it. */
  lemma AssembleValues(n: nat, s: Sample)
    ensures forall f :: f in Assemble(n, s) ==> Assemble(n, s)[f] == Value(s, f)
  {
  }

  /** The fields of a reading are the fixed set, with the temperature only after warm-up. */
  lemma ReadingKeysRule(n: nat, s: Sample)
    ensures Assemble(n, s).Keys == ReadingKeys(n)
  {
  }

  /** The lux field is the sensor's value when uncovered and exactly 1.0 when covered. */
  lemma LuxRule(n: nat, s: Sample)
    ensures Lux in Assemble(n, s)
    ensures s.proximity < 10.0 ==> Assemble(n, s)[Lux] == s.lux
    ensures s.proximity >= 10.0 ==> Assemble(n, s)[Lux] == 1.0
  {
  }

  /** While the light sensor is covered, its lux value does not reach the reading at all. */
  lemma LuxNotConsultedWhenObstructed(n: nat, s: Sample, other: real)
    requires Obstructed(s)
    ensures Assemble(n, s.(lux := other)) == Assemble(n, s)
  {
  }

  /**
   The temperature field is present exactly from iteration 6 on, and then
   is the raw value lowered by 2.3.
   */
  lemma TemperatureRule(n: nat, s: Sample)
    ensures Temperature in Assemble(n, s) <==> n >= 6
    ensures n >= 6 ==> Assemble(n, s)[Temperature] == s.temperature - 2.3
  {
  }

  /** During warm-up the raw temperature has no influence on the reading. */
  lemma TemperatureNotConsultedDuringWarmup(n: nat, s: Sample, other: real)
    requires !WarmedUp(n)
    ensures Assemble(n, s.(temperature := other)) == Assemble(n, s)
  {
  }

  /** Each gas field is the channel's resistance in kilo-ohms. */
  lemma GasInKiloOhms(n: nat, s: Sample)
    ensures Assemble(n, s)[Oxidising] * 1000.0 == s.gas.oxidising
    ensures Assemble(n, s)[Reducing] * 1000.0 == s.gas.reducing
    ensures Assemble(n, s)[Nh3] * 1000.0 == s.gas.nh3
  {
  }

  /** Proximity, pressure and humidity are the drivers' values unchanged. */
  lemma RawFieldsPassThrough(n: nat, s: Sample)
    ensures Assemble(n, s)[Proximity] == s.proximity
    ensures Assemble(n, s)[Pressure] == s.pressure
    ensures Assemble(n, s)[Humidity] == s.humidity
  {
  }

  /** The three mass concentrations are the PMS5003 frame's values unchanged. */
  lemma MassConcentrationsPassThrough(n: nat, s: Sample)
    ensures Assemble(n, s)[Pm1] == s.particles.pm1
    ensures Assemble(n, s)[Pm25] == s.particles.pm25
    ensures Assemble(n, s)[Pm10] == s.particles.pm10
  {
  }

  /** The six particle counts are the PMS5003 frame's values unchanged. */
  lemma ParticleCountsPassThrough(n: nat, s: Sample)
    ensures Assemble(n, s)[Per03] == s.particles.per03
    ensures Assemble(n, s)[Per05] == s.particles.per05
    ensures Assemble(n, s)[Per10] == s.particles.per10
    ensures Assemble(n, s)[Per25] == s.particles.per25
    ensures Assemble(n, s)[Per50] == s.particles.per50
    ensures Assemble(n, s)[Per100] == s.particles.per100
  {
  }
}
