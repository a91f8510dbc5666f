/**
 * Scripted fault windows (simulator/incident_model.py): an incident is
 * active on a closed time interval, and a list of relative window specs is
 * turned into absolute windows from one base instant.
 */
module Incidents {
  import opened Wrappers
  import opened Numbers

  /**
   * An incident window. `kind` is the incident type name
   * ("latency_spike", "packet_loss_burst", "throughput_drop", "cpu_spike"),
   * kept as given; `node` is `None` when the incident applies to all nodes.
   */
  datatype Incident = Incident(kind: string, node: Option<string>, startTs: real, endTs: real, severity: real)
  {
    /** Whether the incident is in effect at `now`; both ends of the window count. */
    predicate Active(now: real)
      ensures Active(now) ==> startTs <= endTs
      ensures now < startTs || endTs < now ==> !Active(now)
    {
      startTs <= now <= endTs
    }
  }

  /**
   * One entry of the incident configuration: `start_after_s` and `duration_s`
   * are the values read from the entry; `severity` is `None` when the entry has
   * no "severity" key and `node` is `None` when it has no "node" key.
   */
  datatype IncidentSpec = IncidentSpec(
    kind: string,
    node: Option<string>,
    startAfterS: real,
    durationS: real,
    severity: Option<real>)

  /** The severity of an entry that gives none. */
  const DefaultSeverity: real := 1.0

  /**
   * The window one entry describes, placed after `base`. The offsets go through
   * `int(...)`, so fractional seconds are cut off toward zero.
   */
  function FromSpec(d: IncidentSpec, base: real): (inc: Incident)
    ensures inc.kind == d.kind && inc.node == d.node
    ensures inc.severity == if d.severity.Some? then d.severity.value else DefaultSeverity
    ensures inc.startTs - base == Trunc(d.startAfterS) as real
    ensures inc.endTs - inc.startTs == Trunc(d.durationS) as real
    ensures 0.0 <= d.durationS ==> inc.startTs <= inc.endTs
    ensures d.durationS <= -1.0 ==> inc.endTs < inc.startTs
  {
    var start := base + Trunc(d.startAfterS) as real;
    var end := start + Trunc(d.durationS) as real;
    Incident(d.kind, d.node, start, end, if d.severity.Some? then d.severity.value else DefaultSeverity)
  }

  /**
   * `build_incidents`: one window per entry, in entry order, every one placed
   * after the same base instant (the clock is read once, before the loop).
   */
  method BuildIncidents(specs: seq<IncidentSpec>, base: real) returns (incidents: seq<Incident>)
    ensures |incidents| == |specs|
    ensures forall i :: 0 <= i < |specs| ==> incidents[i] == FromSpec(specs[i], base)
    ensures forall i, j :: 0 <= i < |specs| && 0 <= j < |specs| ==>
      incidents[i].startTs - Trunc(specs[i].startAfterS) as real == incidents[j].startTs - Trunc(specs[j].startAfterS) as real
  {
    incidents := [];
    var i := 0;
    while i < |specs|
      invariant 0 <= i <= |specs|
      invariant |incidents| == i
      invariant forall k :: 0 <= k < i ==> incidents[k] == FromSpec(specs[k], base)
    {
      incidents := incidents + [FromSpec(specs[i], base)];
      i := i + 1;
    }
  }

  /**
   * A built window is active exactly from `base + start_after_s` to
   * `base + start_after_s + duration_s`, both ends included.
   */
  lemma ActiveIff(d: IncidentSpec, base: real, now: real)
    ensures var start := base + Trunc(d.startAfterS) as real;
      FromSpec(d, base).Active(now) <==> start <= now <= start + Trunc(d.durationS) as real
  {
  }

  /**
   * The windowing test: starting 10 s after the base and lasting 5 s, the
   * window is off at +9, on at +10 and +12, and off again at +16.
   */
  lemma WindowExample(base: real)
    ensures var inc := FromSpec(IncidentSpec("latency_spike", Some("router-1"), 10.0, 5.0, Some(3.0)), base);
      && !inc.Active(base + 9.0)
      && inc.Active(base + 10.0)
      && inc.Active(base + 12.0)
      && !inc.Active(base + 16.0)
  {
    var d := IncidentSpec("latency_spike", Some("router-1"), 10.0, 5.0, Some(3.0));
    assert Trunc(d.startAfterS) == 10;
    assert Trunc(d.durationS) == 5;
  }
}
