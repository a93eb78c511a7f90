/**
 The loop as the script runs it: one envelope object whose field set is
 overwritten in place, a counter, and a body that asks each sensor in turn
 and gives up at the first call that raises. Each pass is proved to do
 what `Loop.Next` says; the published points are kept as a ghost log,
 since the database write itself is outside the model.
 */
module Driver {
  import opened Sensors
  import opened Reading
  import opened Loop

  /** The one point the script hands to `write_points`, reused on every pass. */
  class Envelope {
    var measurement: string
    var tags: map<string, string>
    var fields: map<Field, real>

    /** The envelope as built before the loop: the configured measurement, host tag, no fields. */
    constructor (measurement: string)
      ensures this.measurement == measurement
      ensures tags == HostTags && tags["host"] == "enviroplus"
      ensures fields == map[]
    {
      this.measurement := measurement;
      tags := HostTags;
      fields := map[];
    }

    /** The envelope's current content as a value. */
    function Current(): Point
      reads this
    {
      Point(measurement, tags, fields)
    }
  }

  /**
   The sensor half of one pass (everything before the envelope is
   touched): asks the drivers in the script's order and builds the
   reading key by key. Stops at the first call that raises. Changes
   nothing outside itself. The ghost `made` counts the driver calls the
   pass made: on a raise the raising call is entry `made` of `Calls(n, s)`,
   and on completion `made` is every call of `Calls(n, s)` but the write.
   */
  method ReadSensors(n: nat, s: Sample, fault: Fault)
    returns (reading: map<Field, real>, outcome: Outcome, ghost made: nat)
    ensures outcome.Raised? ==> outcome == OutcomeOf(n, Attempt(s, fault)) && outcome.at != WritePoints
    ensures outcome == Completed ==> OutcomeOf(n, Attempt(s, fault)) == Completed || fault == RaiseAt(WritePoints)
    ensures outcome == Completed ==> reading == Assemble(n, s)
    ensures 0 < made <= |Calls(n, s)|
    ensures outcome.Raised? ==> Calls(n, s)[made - 1] == outcome.at
    ensures outcome == Completed ==> made == |Calls(n, s)| - if ShouldPublish(n) then 1 else 0
  {
    reading, made := map[], 1;
    if fault == RaiseAt(GetProximity) { return reading, Raised(GetProximity), made; }
    var proximity := s.proximity;
    reading := reading[Proximity := proximity];

    if proximity < ObstructionLimit {
      made := made + 1;
      if fault == RaiseAt(GetLux) { return reading, Raised(GetLux), made; }
      reading := reading[Lux := s.lux];
    } else {
      reading := reading[Lux := ObstructedLux];
    }

    if n >= WarmupThreshold {
      made := made + 1;
      if fault == RaiseAt(GetTemperature) { return reading, Raised(GetTemperature), made; }
      reading := reading[Temperature := s.temperature - TemperatureOffset];
    }
    made := made + 1;
    if fault == RaiseAt(GetPressure) { return reading, Raised(GetPressure), made; }
    reading := reading[Pressure := s.pressure];
    made := made + 1;
    if fault == RaiseAt(GetHumidity) { return reading, Raised(GetHumidity), made; }
    reading := reading[Humidity := s.humidity];

    made := made + 1;

    if fault == RaiseAt(ReadGas) { return reading, Raised(ReadGas), made; }
    var gas := s.gas;
    reading := reading[Oxidising := gas.oxidising / OhmsPerKiloOhm];
    reading := reading[Reducing := gas.reducing / OhmsPerKiloOhm];
    reading := reading[Nh3 := gas.nh3 / OhmsPerKiloOhm];

    made := made + 1;

    if fault == RaiseAt(ReadParticles) { return reading, Raised(ReadParticles), made; }
    var particles := s.particles;
    reading := reading[Pm1 := particles.pm1];
    reading := reading[Pm25 := particles.pm25];
    reading := reading[Pm10 := particles.pm10];
    reading := reading[Per03 := particles.per03];
    reading := reading[Per05 := particles.per05];
    reading := reading[Per10 := particles.per10];
    reading := reading[Per25 := particles.per25];
    reading := reading[Per50 := particles.per50];
    reading := reading[Per100 := particles.per100];
    outcome := Completed;
  }

  /** The loop's state: the counter, the envelope, and every point written so far. */
  class Monitor {
    var iterations: nat
    const envelope: Envelope
    ghost var published: seq<Point>

    /** The state as a value of the Loop model. */
    ghost function State(): Loop.State
      reads this, envelope
    {
      Loop.State(iterations, envelope.Current(), published)
    }

    /** Everything the Loop model promises of a state reached from the start. */
    ghost predicate Valid()
      reads this, envelope
    {
      FromStartup(State())
    }

    /** Entering the loop: counter 0, an empty envelope, nothing written. */
    constructor (measurement: string)
      ensures Valid()
      ensures State() == Initial(measurement)
      ensures fresh(envelope)
    {
      iterations := 0;
      envelope := new Envelope(measurement);
      published := [];
      new;
      InitialFromStartup(measurement);
    }

    /**
     One pass of the loop body with sensor values `s`, where the call named
     by `fault` (if the pass makes it) raises. Returns how the pass ended.
     */
    method Step(s: Sample, fault: Fault) returns (outcome: Outcome)
      requires Valid()
      modifies this`iterations, this`published, envelope`fields
      ensures Valid()
      ensures outcome == OutcomeOf(old(iterations), Attempt(s, fault))
      ensures State() == Next(old(State()), Attempt(s, fault))
      ensures iterations == if outcome == Completed then old(iterations) + 1 else old(iterations)
      ensures envelope.measurement == old(envelope.measurement) && envelope.tags == old(envelope.tags)
    {
      NextKeepsFromStartup(State(), Attempt(s, fault));
      var n := iterations;
      var reading;
      ghost var made;
      reading, outcome, made := ReadSensors(n, s, fault);
      if outcome.Raised? {
        return;
      }
      if n >= SkipThreshold {
        envelope.fields := reading;
        if fault == RaiseAt(WritePoints) { return Raised(WritePoints); }
        published := published + [envelope.Current()];
      }
      iterations := iterations + 1;
    }

    /**
     The passes in `attempts`, one after the other, as the endless loop
     makes them; a pass that raises is logged and the loop goes on.
     */
    method RunLoop(attempts: seq<Attempt>)
      requires Valid()
      modifies this`iterations, this`published, envelope`fields
      ensures Valid()
      ensures State() == Run(old(State()), attempts)
    {
      for i := 0 to |attempts|
        invariant Valid()
        invariant State() == Run(old(State()), attempts[..i])
      {
        assert attempts[..i + 1][..i] == attempts[..i];
        var _ := Step(attempts[i].sample, attempts[i].fault);
      }
      assert attempts[..|attempts|] == attempts;
    }
  }
}
