/**
 * The per-node telemetry generator (simulator/node_model.py). A node model
 * owns a random stream; construction draws five baselines from it and every
 * sample draws six Gaussian noises from it, in a fixed order. A sample is a
 * load derived from the 60-second cycle, four metrics correlated with it and
 * a packet loss, each clamped into range, classified by threshold, rounded and
 * handed to the event constructor.
 */
module Simulator {
  import opened Wrappers
  import opened Numbers
  import opened Models

  /**
   * A random stream, seen as the sequence of variates it hands out: each call
   * of a distribution consumes the next one. A uniform draw transforms a unit
   * variate `u`, a Gaussian draw a standard normal variate `z`.
   */
  class Rng {
    const draws: seq<real>
    var cursor: nat

    constructor (draws: seq<real>)
      ensures this.draws == draws && cursor == 0
    {
      this.draws := draws;
      cursor := 0;
    }

    /** `uniform(lo, hi)`. */
    method Uniform(lo: real, hi: real) returns (x: real)
      requires cursor < |draws|
      modifies this
      ensures cursor == old(cursor) + 1
      ensures x == UniformOf(lo, hi, draws[old(cursor)])
    {
      x := UniformOf(lo, hi, draws[cursor]);
      cursor := cursor + 1;
    }

    /** `normalvariate(mu, sigma)`. */
    method NormalVariate(mu: real, sigma: real) returns (x: real)
      requires cursor < |draws|
      modifies this
      ensures cursor == old(cursor) + 1
      ensures x == NormalOf(mu, sigma, draws[old(cursor)])
    {
      x := NormalOf(mu, sigma, draws[cursor]);
      cursor := cursor + 1;
    }
  }

  /** The uniform value on [lo, hi] a unit variate `u` gives. */
  function UniformOf(lo: real, hi: real, u: real): (x: real)
    ensures lo <= hi && 0.0 <= u <= 1.0 ==> lo <= x <= hi
    ensures u == 0.0 ==> x == lo
  {
    var width := hi - lo;
    var part := width * u;
    assert lo <= hi && 0.0 <= u <= 1.0 ==> 0.0 <= part <= width by {
      if lo <= hi && 0.0 <= u <= 1.0 {
        FractionWithin(width, u);
      }
    }
    lo + part
  }

  /** A fraction of a non-negative width stays within that width. */
  lemma FractionWithin(width: real, u: real)
    requires 0.0 <= width && 0.0 <= u <= 1.0
    ensures 0.0 <= width * u <= width
  {
    ProductNonNegative(width, u);
    ProductNonNegative(width, 1.0 - u);
    assert width * (1.0 - u) == width - width * u;
  }

  lemma ProductNonNegative(a: real, b: real)
    requires 0.0 <= a && 0.0 <= b
    ensures 0.0 <= a * b
  {
  }

  /** The Gaussian value with mean `mu` and deviation `sigma` a standard variate `z` gives. */
  function NormalOf(mu: real, sigma: real, z: real): (x: real)
    ensures z == 0.0 ==> x == mu
    ensures 0.0 <= sigma && 0.0 <= z ==> mu <= x
    ensures 0.0 <= sigma && z <= 0.0 ==> x <= mu
  {
    assert 0.0 <= sigma && 0.0 <= z ==> 0.0 <= sigma * z by {
      if 0.0 <= sigma && 0.0 <= z {
        ProductNonNegative(sigma, z);
      }
    }
    assert 0.0 <= sigma && z <= 0.0 ==> sigma * z <= 0.0 by {
      if 0.0 <= sigma && z <= 0.0 {
        ProductNonNegative(sigma, -z);
      }
    }
    mu + sigma * z
  }

  /** The five per-node baselines. */
  datatype Baselines = Baselines(latency: real, throughput: real, cpu: real, mem: real, lossFloor: real)

  /**
   * The baselines drawn from five unit variates, in the order latency,
   * throughput, cpu, memory, loss floor; each lands in its documented range.
   */
  function DrawBaselines(u: seq<real>): (b: Baselines)
    requires |u| == 5
    ensures (forall i :: 0 <= i < 5 ==> 0.0 <= u[i] <= 1.0) ==>
      && 10.0 <= b.latency <= 50.0
      && 200.0 <= b.throughput <= 1200.0
      && 10.0 <= b.cpu <= 40.0
      && 30.0 <= b.mem <= 70.0
      && 0.0 <= b.lossFloor <= 0.005
  {
    Baselines(UniformOf(10.0, 50.0, u[0]), UniformOf(200.0, 1200.0, u[1]),
              UniformOf(10.0, 40.0, u[2]), UniformOf(30.0, 70.0, u[3]),
              UniformOf(0.0, 0.005, u[4]))
  }

  /** The clamped, unrounded quantities of one sample. */
  datatype Reading = Reading(load: real, cpu: real, mem: real, throughput: real, latency: real, packetLoss: real)

  /** The load: 0.3 plus 0.7 of the cycle plus noise, held within [0, 1.2]. */
  function Load(cycle: real, noise: real): (load: real)
    ensures 0.0 <= load <= 1.2
  {
    Clamp(0.3 + 0.7 * cycle + noise, 0.0, 1.2)
  }

  /** CPU percentage: the baseline plus 50 per unit of load plus noise, held within [0, 100]. */
  function Cpu(baseCpu: real, load: real, noise: real): (cpu: real)
    ensures 0.0 <= cpu <= 100.0
  {
    Clamp(baseCpu + 50.0 * load + noise, 0.0, 100.0)
  }

  /** Memory percentage: the baseline plus 10 per unit of load plus noise, held within [0, 100]. */
  function Mem(baseMem: real, load: real, noise: real): (mem: real)
    ensures 0.0 <= mem <= 100.0
  {
    Clamp(baseMem + 10.0 * load + noise, 0.0, 100.0)
  }

  /** Throughput: the baseline falling as load rises, plus noise, never negative. */
  function Throughput(baseThroughput: real, load: real, noise: real): (throughput: real)
    ensures 0.0 <= throughput
  {
    Max(0.0, baseThroughput * (1.1 - 0.7 * load) + noise)
  }

  /** Latency: the baseline growing with load, plus noise, never negative. */
  function Latency(baseLatency: real, load: real, noise: real): (latency: real)
    ensures 0.0 <= latency
  {
    Max(0.0, baseLatency * (1.0 + 2.2 * load) + noise)
  }

  /**
   * Packet loss: the floor, plus 0.03 per unit of load above 0.8, plus the
   * size of the noise, held within [0, 1]; never below a floor of at most 1.
   */
  function Loss(lossFloor: real, load: real, noise: real): (loss: real)
    ensures 0.0 <= loss <= 1.0
    ensures lossFloor <= 1.0 ==> lossFloor <= loss
  {
    Clamp(lossFloor + Max(0.0, load - 0.8) * 0.03 + Abs(noise), 0.0, 1.0)
  }

  /**
   * One sample's quantities from the baselines, the cycle value and six
   * standard variates, consumed in the order load, cpu, memory, throughput,
   * latency, packet loss. Whatever the noise, every quantity is in range, and
   * the packet loss never falls below a loss floor of at most 1.
   */
  function Observe(b: Baselines, cycle: real, z: seq<real>): (r: Reading)
    requires |z| == 6
    ensures 0.0 <= r.load <= 1.2
    ensures 0.0 <= r.cpu <= 100.0
    ensures 0.0 <= r.mem <= 100.0
    ensures 0.0 <= r.throughput
    ensures 0.0 <= r.latency
    ensures 0.0 <= r.packetLoss <= 1.0
    ensures b.lossFloor <= 1.0 ==> b.lossFloor <= r.packetLoss
  {
    var load := Load(cycle, NormalOf(0.0, 0.05, z[0]));
    Reading(
      load,
      Cpu(b.cpu, load, NormalOf(0.0, 3.0, z[1])),
      Mem(b.mem, load, NormalOf(0.0, 2.0, z[2])),
      Throughput(b.throughput, load, NormalOf(0.0, 25.0, z[3])),
      Latency(b.latency, load, NormalOf(0.0, 3.0, z[4])),
      Loss(b.lossFloor, load, NormalOf(0.0, 0.001, z[5])))
  }

  /**
   * The status: WARN is assigned first and CRITICAL afterwards, so the later
   * assignment wins. CRITICAL exactly when a critical threshold is crossed;
   * WARN exactly when only a warning threshold is; OK otherwise.
   */
  function Classify(packetLoss: real, latency: real, cpu: real): (s: Status)
    ensures s == Critical <==> packetLoss > 0.10 || latency > 400.0 || cpu > 97.0
    ensures s == Warn <==>
      !(packetLoss > 0.10 || latency > 400.0 || cpu > 97.0)
      && (packetLoss > 0.03 || latency > 200.0 || cpu > 90.0)
    ensures s == Ok <==>
      !(packetLoss > 0.03 || latency > 200.0 || cpu > 90.0)
      && !(packetLoss > 0.10 || latency > 400.0 || cpu > 97.0)
  {
    var s := if packetLoss > 0.03 || latency > 200.0 || cpu > 90.0 then Warn else Ok;
    if packetLoss > 0.10 || latency > 400.0 || cpu > 97.0 then Critical else s
  }

  /** The precedence rule: a CPU of 98 with a latency of 50 is CRITICAL whatever the packet loss. */
  lemma StatusPrecedenceExample(packetLoss: real)
    ensures Classify(packetLoss, 50.0, 98.0) == Critical
  {
  }

  /**
   * The constructor arguments for one sample: the rounded quantities, the
   * status classified on the unrounded ones, and `int(clock)` as timestamp.
   */
  function EmittedInput(name: string, r: Reading, clock: real): EventInput
  {
    EventInput(
      name,
      Round(r.latency, Two),
      Round(r.packetLoss, Four),
      Round(r.throughput, Two),
      Round(r.cpu, Two),
      Round(r.mem, Two),
      Some(Trunc(clock)),
      Some(StatusName(Classify(r.packetLoss, r.latency, r.cpu))))
  }

  /**
   * The event a sample yields. Its construction never fails: rounding keeps
   * every in-range quantity in range.
   */
  function Sample(name: string, b: Baselines, cycle: real, z: seq<real>, clock: real): (e: Event)
    requires |z| == 6
    ensures e.node == name
    ensures Valid(e)
    ensures e.timestamp == Trunc(clock)
    ensures var r := Observe(b, cycle, z);
      && e.status == Classify(r.packetLoss, r.latency, r.cpu)
      && e.latencyMs == Round(r.latency, Two)
      && e.packetLoss == Round(r.packetLoss, Four)
      && e.throughputMbps == Round(r.throughput, Two)
      && e.cpuPct == Round(r.cpu, Two)
      && e.memPct == Round(r.mem, Two)
  {
    var r := Observe(b, cycle, z);
    var input := EmittedInput(name, r, clock);
    EmittedInputAccepted(name, r, clock);
    var res := Validate(input, Trunc(clock));
    StatusRoundTrip(Classify(r.packetLoss, r.latency, r.cpu));
    match res
    case Success(e) => e
    case Failure(_) => assert false; Event(name, 0.0, 0.0, 0.0, 0.0, 0.0, 0, Ok)
  }

  /** The constructor accepts the arguments of any sample whose quantities are in range. */
  lemma EmittedInputAccepted(name: string, r: Reading, clock: real)
    requires 0.0 <= r.cpu <= 100.0 && 0.0 <= r.mem <= 100.0
    requires 0.0 <= r.throughput && 0.0 <= r.latency && 0.0 <= r.packetLoss <= 1.0
    ensures forall f :: FieldOk(EmittedInput(name, r, clock), f)
  {
    RoundNonNegative(r.latency, Two);
    RoundWithin(r.packetLoss, Four, 0, 1);
    RoundNonNegative(r.throughput, Two);
    RoundWithin(r.cpu, Two, 0, 100);
    RoundWithin(r.mem, Two, 0, 100);
    StatusRoundTrip(Classify(r.packetLoss, r.latency, r.cpu));
  }

  /**
   * The status is decided before rounding: a CPU of 97.004 is CRITICAL, yet
   * the emitted CPU, 97.0, would by itself only be WARN.
   */
  lemma StatusPrecedesRounding()
    ensures Classify(0.0, 0.0, 97.004) == Critical
    ensures Round(97.004, Two) == 97.0
    ensures Classify(0.0, 0.0, Round(97.004, Two)) == Warn
  {
    assert (97.004 * 100.0).Floor == 9700;
  }

  /** A node's telemetry generator. */
  class NodeModel {
    const name: string
    const rng: Rng
    const baseLatency: real
    const baseThroughput: real
    const baseCpu: real
    const baseMem: real
    const lossFloor: real

    function Bases(): Baselines
    {
      Baselines(baseLatency, baseThroughput, baseCpu, baseMem, lossFloor)
    }

    /** Keeps the stream and draws the five baselines from it. */
    constructor (name: string, rng: Rng)
      requires rng.cursor + 5 <= |rng.draws|
      modifies rng
      ensures this.name == name && this.rng == rng
      ensures rng.cursor == old(rng.cursor) + 5
      ensures Bases() == DrawBaselines(rng.draws[old(rng.cursor)..old(rng.cursor) + 5])
    {
      this.name := name;
      this.rng := rng;
      var latency := rng.Uniform(10.0, 50.0);
      var throughput := rng.Uniform(200.0, 1200.0);
      var cpu := rng.Uniform(10.0, 40.0);
      var mem := rng.Uniform(30.0, 70.0);
      var floor := rng.Uniform(0.0, 0.005);
      baseLatency, baseThroughput, baseCpu, baseMem, lossFloor := latency, throughput, cpu, mem, floor;
    }

    /**
     * `generate`: one event for this node. `cycle` is the value of the
     * 60-second cycle at the sample time and `clock` the wall-clock reading.
     * Consumes exactly the next six variates of the stream.
     */
    method Generate(cycle: real, clock: real) returns (e: Event)
      requires rng.cursor + 6 <= |rng.draws|
      modifies rng
      ensures rng.cursor == old(rng.cursor) + 6
      ensures e == Sample(name, Bases(), cycle, rng.draws[old(rng.cursor)..old(rng.cursor) + 6], clock)
      ensures e.node == name && Valid(e)
    {
      ghost var z := rng.draws[rng.cursor..rng.cursor + 6];
      var noise := rng.NormalVariate(0.0, 0.05);
      var load := Load(cycle, noise);
      noise := rng.NormalVariate(0.0, 3.0);
      var cpu := Cpu(baseCpu, load, noise);
      noise := rng.NormalVariate(0.0, 2.0);
      var mem := Mem(baseMem, load, noise);
      noise := rng.NormalVariate(0.0, 25.0);
      var throughput := Throughput(baseThroughput, load, noise);
      noise := rng.NormalVariate(0.0, 3.0);
      var latency := Latency(baseLatency, load, noise);
      noise := rng.NormalVariate(0.0, 0.001);
      var packetLoss := Loss(lossFloor, load, noise);

      var status := Ok;
      if packetLoss > 0.03 || latency > 200.0 || cpu > 90.0 {
        status := Warn;
      }
      if packetLoss > 0.10 || latency > 400.0 || cpu > 97.0 {
        status := Critical;
      }

      var r := Reading(load, cpu, mem, throughput, latency, packetLoss);
      assert r == Observe(Bases(), cycle, z);
      assert status == Classify(packetLoss, latency, cpu);
      var input := EventInput(
        name,
        Round(latency, Two),
        Round(packetLoss, Four),
        Round(throughput, Two),
        Round(cpu, Two),
        Round(mem, Two),
        Some(Trunc(clock)),
        Some(StatusName(status)));
      assert input == EmittedInput(name, r, clock);
      EmittedInputAccepted(name, r, clock);
      var res := Validate(input, Trunc(clock));
      e := res.value;
    }
  }

  /**
   * A sample reads the clock only through its whole second: two readings in
   * the same second give the same event, and readings in different seconds
   * give events with different timestamps.
   */
  lemma SampleBySecond(name: string, b: Baselines, cycle: real, z: seq<real>, clock1: real, clock2: real)
    requires |z| == 6
    ensures Trunc(clock1) == Trunc(clock2) <==> Sample(name, b, cycle, z, clock1) == Sample(name, b, cycle, z, clock2)
  {
    if Trunc(clock1) == Trunc(clock2) {
      var r := Observe(b, cycle, z);
      assert EmittedInput(name, r, clock1) == EmittedInput(name, r, clock2);
    }
  }

  /**
   * The determinism test: two models of one node, each built on its own
   * stream of the same variates and sampled at the same time but with its
   * own clock reading, give the same event exactly when both readings fall
   * in the same second.
   */
  method Determinism(name: string, draws: seq<real>, cycle: real, clock1: real, clock2: real) returns (e1: Event, e2: Event)
    requires 11 <= |draws|
    ensures e1 == e2 <==> Trunc(clock1) == Trunc(clock2)
    ensures e1 == Sample(name, DrawBaselines(draws[..5]), cycle, draws[5..11], clock1)
  {
    ghost var b := DrawBaselines(draws[..5]);
    ghost var z := draws[5..11];
    var rng1 := new Rng(draws);
    var m1 := new NodeModel(name, rng1);
    assert m1.Bases() == b && rng1.cursor == 5;
    e1 := m1.Generate(cycle, clock1);
    assert e1 == Sample(name, b, cycle, z, clock1);
    var rng2 := new Rng(draws);
    var m2 := new NodeModel(name, rng2);
    assert m2.Bases() == b && rng2.cursor == 5;
    e2 := m2.Generate(cycle, clock2);
    assert e2 == Sample(name, b, cycle, z, clock2);
    SampleBySecond(name, b, cycle, z, clock1, clock2);
  }
}
