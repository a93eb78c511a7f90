/**
 The sampling loop as a state machine on values: the iteration counter,
 the single envelope that is handed to the database, and the log of every
 point written so far. `Next` is one pass of the loop body, `Run` a finite
 prefix of the endless loop. The class in the Driver module is proved to
 follow these functions.
 */
module Loop {
  import opened Sensors
  import opened Reading

  /** One InfluxDB point: measurement name, tag set and field set. */
  datatype Point = Point(measurement: string, tags: map<string, string>, fields: map<Field, real>)

  /** The tag set of every point this process writes. */
  const HostTags: map<string, string> := map["host" := "enviroplus"]

  /**
   What survives from one pass to the next: the counter, the reused
   envelope, and (as a record of the writes) every point published so far.
   */
  datatype State = State(iterations: nat, envelope: Point, published: seq<Point>)

  /** The state when the loop is first entered: counter 0, an envelope with no fields. */
  function Initial(measurement: string): State {
    State(0, Point(measurement, HostTags, map[]), [])
  }

  /** How one pass ends: it runs to the end, or a call raises and the rest is skipped. */
  datatype Outcome = Completed | Raised(at: Call)

  /**
   Whether a pass at iteration `n` with sensor values `s` makes call `c`:
   the light sensor is asked only while uncovered, the temperature only
   after warm-up, the database only after the skip period.
   */
  predicate Makes(n: nat, s: Sample, c: Call) {
    match c
    case GetLux => s.proximity < ObstructionLimit
    case GetTemperature => WarmedUp(n)
    case WritePoints => ShouldPublish(n)
    case _ => true
  }

  /** The position of each call in the loop body, from the first line of the pass to the write. */
  function Rank(c: Call): nat {
    match c
    case GetProximity => 0
    case GetLux => 1
    case GetTemperature => 2
    case GetPressure => 3
    case GetHumidity => 4
    case ReadGas => 5
    case ReadParticles => 6
    case WritePoints => 7
  }

  /** The calls one pass makes, in order, at iteration `n` with sensor values `s`. */
  function Calls(n: nat, s: Sample): (r: seq<Call>)
    ensures forall c :: c in r <==> Makes(n, s, c)
    ensures |r| > 0 && r[0] == GetProximity
    ensures ShouldPublish(n) ==> r[|r| - 1] == WritePoints
    ensures forall i, j :: 0 <= i < j < |r| ==> Rank(r[i]) < Rank(r[j])
    ensures forall i, j :: 0 <= i < j < |r| ==> r[i] != r[j]
  {
    [GetProximity]
    + (if s.proximity < ObstructionLimit then [GetLux] else [])
    + (if WarmedUp(n) then [GetTemperature] else [])
    + [GetPressure, GetHumidity, ReadGas, ReadParticles]
    + (if ShouldPublish(n) then [WritePoints] else [])
  }

  /** A pass raises at the faulty call exactly when it makes that call. */
  function OutcomeOf(n: nat, a: Attempt): Outcome {
    if a.fault.RaiseAt? && Makes(n, a.sample, a.fault.call) then Raised(a.fault.call) else Completed
  }

  /**
   One pass of the loop body. The envelope's fields are replaced once the
   pass reaches the write (whether or not the write then raises); the
   point is published and the counter advanced only when the pass completes.
   */
  function Next(st: State, a: Attempt): (r: State)
    ensures r.envelope.measurement == st.envelope.measurement
    ensures r.envelope.tags == st.envelope.tags
    ensures st.iterations <= r.iterations <= st.iterations + 1
    ensures st.published <= r.published && |r.published| <= |st.published| + 1
  {
    var n := st.iterations;
    var outcome := OutcomeOf(n, a);
    var replaced := ShouldPublish(n) && (outcome == Completed || outcome == Raised(WritePoints));
    var envelope := if replaced then st.envelope.(fields := Assemble(n, a.sample)) else st.envelope;
    if outcome == Completed then
      State(n + 1, envelope, if ShouldPublish(n) then st.published + [envelope] else st.published)
    else
      State(n, envelope, st.published)
  }

  /** The state after the passes in `attempts`, one after the other. */
  function Run(st: State, attempts: seq<Attempt>): (r: State)
    ensures r.envelope.measurement == st.envelope.measurement
    ensures r.envelope.tags == st.envelope.tags
    ensures st.iterations <= r.iterations <= st.iterations + |attempts|
    ensures st.published <= r.published
    ensures |r.published| <= |st.published| + |attempts|
    decreases |attempts|
  {
    if attempts == [] then st
    else Next(Run(st, attempts[..|attempts| - 1]), attempts[|attempts| - 1])
  }

  /** The counter goes up by one exactly when the pass completes, and otherwise stays. */
  lemma CounterRule(st: State, a: Attempt)
    ensures OutcomeOf(st.iterations, a) == Completed ==> Next(st, a).iterations == st.iterations + 1
    ensures OutcomeOf(st.iterations, a).Raised? ==> Next(st, a).iterations == st.iterations
  {
  }

  /**
   A completed pass writes exactly when the counter is at least 3, and then
   the point it writes is the envelope holding this iteration's reading.
   */
  lemma PublishRule(st: State, a: Attempt)
    requires OutcomeOf(st.iterations, a) == Completed
    ensures |Next(st, a).published| == |st.published| + 1 <==> st.iterations >= 3
    ensures st.iterations >= 3 ==>
      && Next(st, a).envelope == st.envelope.(fields := Assemble(st.iterations, a.sample))
      && Next(st, a).published == st.published + [Next(st, a).envelope]
    ensures st.iterations < 3 ==> Next(st, a) == st.(iterations := st.iterations + 1)
  {
  }

  /**
   A fault in a sensor read happens before the envelope is touched: the
   pass changes nothing at all, so the next pass runs at the same count.
   */
  lemma SensorFaultChangesNothing(st: State, a: Attempt)
    requires OutcomeOf(st.iterations, a).Raised?
    requires OutcomeOf(st.iterations, a).at != WritePoints
    ensures Next(st, a) == st
  {
  }

  /**
   A fault in the write happens after the envelope's fields were replaced:
   the fields hold the new reading, yet nothing is logged as published and
   the counter stays.
   */
  lemma WriteFaultAfterReplace(st: State, a: Attempt)
    requires OutcomeOf(st.iterations, a) == Raised(WritePoints)
    ensures st.iterations >= 3
    ensures Next(st, a) == st.(envelope := st.envelope.(fields := Assemble(st.iterations, a.sample)))
  {
  }

  /**
   A light-sensor fault cannot fire while the sensor is covered, nor a
   temperature fault during warm-up, nor a write fault during the skip period.
   */
  lemma UncalledSensorsCannotFail(n: nat, s: Sample)
    ensures OutcomeOf(n, Attempt(s, RaiseAt(GetLux))) == Completed <==> Obstructed(s)
    ensures OutcomeOf(n, Attempt(s, RaiseAt(GetTemperature))) == Completed <==> !WarmedUp(n)
    ensures OutcomeOf(n, Attempt(s, RaiseAt(WritePoints))) == Completed <==> !ShouldPublish(n)
  {
  }

  /**
   A pass that raised leaves the loop running at the same count: whatever
   the pass after it does, it does exactly as if the failed pass had not
   been made, except for the envelope a failed write left behind.
   */
  lemma FailedPassIsRetried(st: State, a: Attempt, b: Attempt)
    requires OutcomeOf(st.iterations, a).Raised?
    ensures Next(st, a).iterations == st.iterations
    ensures OutcomeOf(Next(st, a).iterations, b) == OutcomeOf(st.iterations, b)
    ensures Next(Next(st, a), b).iterations == Next(st, b).iterations
    ensures Next(Next(st, a), b).published == Next(st, b).published
  {
  }

  /**
   What holds of every state reached from the start of the loop: one point
   was written for every completed pass from count 3 on, all with the
   envelope's measurement and tags, and the k-th of them carries the field
   names of iteration 3 + k.
   */
  ghost predicate FromStartup(st: State) {
    && |st.published| == (if st.iterations < SkipThreshold then 0 else st.iterations - SkipThreshold)
    && forall k :: 0 <= k < |st.published| ==>
         && st.published[k].measurement == st.envelope.measurement
         && st.published[k].tags == st.envelope.tags
         && st.published[k].fields.Keys == ReadingKeys(SkipThreshold + k)
  }

  lemma InitialFromStartup(measurement: string)
    ensures FromStartup(Initial(measurement))
    ensures Initial(measurement).envelope.tags == HostTags
  {
  }

  lemma NextKeepsFromStartup(st: State, a: Attempt)
    requires FromStartup(st)
    ensures FromStartup(Next(st, a))
  {
  }

  lemma {:induction false} RunKeepsFromStartup(st: State, attempts: seq<Attempt>)
    requires FromStartup(st)
    ensures FromStartup(Run(st, attempts))
    decreases |attempts|
  {
    if attempts != [] {
      var init := attempts[..|attempts| - 1];
      RunKeepsFromStartup(st, init);
      NextKeepsFromStartup(Run(st, init), attempts[|attempts| - 1]);
    }
  }

  /**
   Whatever faults occur, from the start of the loop the first three
   points written lack the temperature and every later point carries it.
   */
  lemma PublishedTemperatureFromStartup(measurement: string, attempts: seq<Attempt>, k: nat)
    requires k < |Run(Initial(measurement), attempts).published|
    ensures Temperature in Run(Initial(measurement), attempts).published[k].fields <==> k >= 3
    ensures Run(Initial(measurement), attempts).published[k].tags == HostTags
  {
    InitialFromStartup(measurement);
    RunKeepsFromStartup(Initial(measurement), attempts);
  }

  /** How many of the counts n0, n0 + 1, ..., n0 + k - 1 are past the skip period. */
  function PublishingCounts(n0: nat, k: nat): nat {
    if k == 0 then 0
    else PublishingCounts(n0, k - 1) + (if ShouldPublish(n0 + k - 1) then 1 else 0)
  }

  /** Without faults every pass completes, and every pass from count 3 on writes a point. */
  lemma {:induction false} CleanRunCounts(st: State, attempts: seq<Attempt>)
    requires forall i :: 0 <= i < |attempts| ==> attempts[i].fault == NoFault
    ensures Run(st, attempts).iterations == st.iterations + |attempts|
    ensures |Run(st, attempts).published| == |st.published| + PublishingCounts(st.iterations, |attempts|)
    decreases |attempts|
  {
    if attempts != [] {
      var init := attempts[..|attempts| - 1];
      CleanRunCounts(st, init);
    }
  }

  /**
   Seven fault-free passes from the start: four points are written (at
   counts 3, 4, 5 and 6), the first three without the temperature, the
   last with the seventh pass's raw temperature lowered by 2.3.
   */
  lemma SevenCleanPasses(measurement: string, attempts: seq<Attempt>)
    requires |attempts| == 7
    requires forall i :: 0 <= i < 7 ==> attempts[i].fault == NoFault
    ensures |Run(Initial(measurement), attempts).published| == 4
    ensures forall k :: 0 <= k < 3 ==> Temperature !in Run(Initial(measurement), attempts).published[k].fields
    ensures Run(Initial(measurement), attempts).published[3].fields == Assemble(6, attempts[6].sample)
    ensures Run(Initial(measurement), attempts).published[3].fields[Temperature]
            == attempts[6].sample.temperature - 2.3
  {
    var st0 := Initial(measurement);
    var init := attempts[..6];
    assert forall i :: 0 <= i < |init| ==> init[i].fault == NoFault;
    CleanRunCounts(st0, init);
    assert PublishingCounts(0, 3) == 0;
    assert PublishingCounts(0, 5) == 2;
    assert PublishingCounts(0, 6) == 3;
    var before := Run(st0, init);
    assert before.iterations == 6 && |before.published| == 3;
    InitialFromStartup(measurement);
    RunKeepsFromStartup(st0, init);
    assert attempts[..|attempts| - 1] == init;
    var end := Next(before, attempts[6]);
    assert Run(st0, attempts) == end;
    assert OutcomeOf(6, attempts[6]) == Completed;
    assert end.published == before.published + [end.envelope];
    assert end.envelope.fields == Assemble(6, attempts[6].sample);
  }
}
