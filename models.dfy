/**
 * The telemetry event record and the field constraints its constructor
 * enforces (backend/app/models.py): every numeric field has a range, the
 * status is one of three names, and absent timestamp and status take their
 * defaults.
 */
module Models {
  import opened Wrappers

  /** The `status` literal: "OK", "WARN" or "CRITICAL". */
  datatype Status = Ok | Warn | Critical

  function StatusName(s: Status): string
  {
    match s
    case Ok => "OK"
    case Warn => "WARN"
    case Critical => "CRITICAL"
  }

  /** The status a name stands for, if it is one of the three. */
  function ParseStatus(name: string): (r: Option<Status>)
    ensures r.Some? ==> StatusName(r.value) == name
    ensures r.None? ==> forall s: Status :: StatusName(s) != name
  {
    if name == "OK" then Some(Ok)
    else if name == "WARN" then Some(Warn)
    else if name == "CRITICAL" then Some(Critical)
    else None
  }

  /** Naming a status and parsing the name gives the status back. */
  lemma {:induction false} StatusRoundTrip(s: Status)
    ensures ParseStatus(StatusName(s)) == Some(s)
  {
    match s
    case Ok =>
    case Warn =>
      assert StatusName(s) != "OK";
    case Critical =>
      assert StatusName(s) != "OK" && StatusName(s) != "WARN";
  }

  /** A constructed telemetry event. */
  datatype Event = Event(
    node: string,
    latencyMs: real,
    packetLoss: real,
    throughputMbps: real,
    cpuPct: real,
    memPct: real,
    timestamp: int,
    status: Status)

  /** The field constraints every constructed event satisfies. */
  predicate Valid(e: Event)
    ensures Valid(e) <==> forall f :: FieldOk(AsInput(e), f)
  {
    EventFieldsOk(e);
    && 0.0 <= e.latencyMs
    && 0.0 <= e.packetLoss <= 1.0
    && 0.0 <= e.throughputMbps
    && 0.0 <= e.cpuPct <= 100.0
    && 0.0 <= e.memPct <= 100.0
  }

  /** The constructor's checks on an event's own fields are its range constraints. */
  lemma EventFieldsOk(e: Event)
    ensures (forall f :: FieldOk(AsInput(e), f)) <==>
      && 0.0 <= e.latencyMs
      && 0.0 <= e.packetLoss <= 1.0
      && 0.0 <= e.throughputMbps
      && 0.0 <= e.cpuPct <= 100.0
      && 0.0 <= e.memPct <= 100.0
  {
    StatusRoundTrip(e.status);
    assert FieldOk(AsInput(e), StatusLiteral);
    var input := AsInput(e);
    assert (forall f :: FieldOk(input, f)) ==>
      (FieldOk(input, LatencyMs) && FieldOk(input, PacketLoss) && FieldOk(input, ThroughputMbps)
       && FieldOk(input, CpuPct) && FieldOk(input, MemPct));
  }

  /** The arguments given to the constructor; `None` is an omitted argument. */
  datatype EventInput = EventInput(
    node: string,
    latencyMs: real,
    packetLoss: real,
    throughputMbps: real,
    cpuPct: real,
    memPct: real,
    timestamp: Option<int>,
    status: Option<string>)

  /** A field whose constraint an input breaks. */
  datatype FieldError = LatencyMs | PacketLoss | ThroughputMbps | CpuPct | MemPct | StatusLiteral

  /** Whether the input satisfies the constraint on one field. */
  predicate FieldOk(input: EventInput, f: FieldError)
  {
    match f
    case LatencyMs => 0.0 <= input.latencyMs
    case PacketLoss => 0.0 <= input.packetLoss <= 1.0
    case ThroughputMbps => 0.0 <= input.throughputMbps
    case CpuPct => 0.0 <= input.cpuPct <= 100.0
    case MemPct => 0.0 <= input.memPct <= 100.0
    case StatusLiteral => input.status.None? || ParseStatus(input.status.value).Some?
  }

  /** Every broken field, in declaration order. */
  function Violations(input: EventInput): (errs: seq<FieldError>)
    ensures forall f :: f in errs <==> !FieldOk(input, f)
  {
    (if FieldOk(input, LatencyMs) then [] else [LatencyMs])
    + (if FieldOk(input, PacketLoss) then [] else [PacketLoss])
    + (if FieldOk(input, ThroughputMbps) then [] else [ThroughputMbps])
    + (if FieldOk(input, CpuPct) then [] else [CpuPct])
    + (if FieldOk(input, MemPct) then [] else [MemPct])
    + (if FieldOk(input, StatusLiteral) then [] else [StatusLiteral])
  }

  /**
   * Constructing an event: either every constraint holds and the event carries
   * the given values (with the defaults filled in), or the construction fails
   * as a whole, naming every broken field. `now` is the clock reading the
   * timestamp defaults to.
   */
  function Validate(input: EventInput, now: int): (r: Result<Event, seq<FieldError>>)
    ensures r.Success? <==> forall f :: FieldOk(input, f)
    ensures r.Success? ==> Valid(r.value)
    ensures r.Success? ==>
      && r.value.node == input.node
      && r.value.latencyMs == input.latencyMs
      && r.value.packetLoss == input.packetLoss
      && r.value.throughputMbps == input.throughputMbps
      && r.value.cpuPct == input.cpuPct
      && r.value.memPct == input.memPct
    ensures r.Success? ==>
      r.value.timestamp == (if input.timestamp.Some? then input.timestamp.value else now)
    ensures r.Success? && input.status.None? ==> r.value.status == Ok
    ensures r.Success? && input.status.Some? ==> StatusName(r.value.status) == input.status.value
    ensures r.Failure? ==> r.error != [] && forall f :: f in r.error <==> !FieldOk(input, f)
  {
    var errs := Violations(input);
    if errs != [] then Failure(errs)
    else
      assert FieldOk(input, StatusLiteral);
      var status := if input.status.None? then Ok else ParseStatus(input.status.value).value;
      var timestamp := if input.timestamp.Some? then input.timestamp.value else now;
      Success(Event(input.node, input.latencyMs, input.packetLoss, input.throughputMbps,
                    input.cpuPct, input.memPct, timestamp, status))
  }

  /** The constructor arguments that reproduce an event. */
  function AsInput(e: Event): EventInput
  {
    EventInput(e.node, e.latencyMs, e.packetLoss, e.throughputMbps, e.cpuPct, e.memPct,
               Some(e.timestamp), Some(StatusName(e.status)))
  }

  /**
   * An event is valid exactly when constructing it from its own fields
   * succeeds, and the construction then returns the event unchanged.
   */
  lemma ValidIffAccepted(e: Event, now: int)
    ensures Valid(e) <==> Validate(AsInput(e), now) == Success(e)
  {
    StatusRoundTrip(e.status);
    var r := Validate(AsInput(e), now);
    if Valid(e) {
      assert forall f :: FieldOk(AsInput(e), f);
      assert r.Success?;
      assert r.value.status == e.status by {
        assert StatusName(r.value.status) == StatusName(e.status);
        StatusRoundTrip(r.value.status);
      }
    }
  }

  /** The accepted event of the model tests: a packet loss of 0.2 passes. */
  lemma AcceptsPacketLossTwoTenths(now: int)
    ensures Validate(EventInput("router-1", 10.0, 0.2, 500.0, 50.0, 60.0, None, Some("OK")), now)
         == Success(Event("router-1", 10.0, 0.2, 500.0, 50.0, 60.0, now, Ok))
  {
    var input := EventInput("router-1", 10.0, 0.2, 500.0, 50.0, 60.0, None, Some("OK"));
    assert forall f :: FieldOk(input, f);
  }

  /** The rejected event of the model tests: a packet loss of 1.5 fails, on that field alone. */
  lemma RejectsPacketLossOneAndAHalf(now: int)
    ensures Validate(EventInput("router-1", 10.0, 1.5, 500.0, 50.0, 60.0, None, Some("OK")), now)
         == Failure([PacketLoss])
  {
    var input := EventInput("router-1", 10.0, 1.5, 500.0, 50.0, 60.0, None, Some("OK"));
    assert !FieldOk(input, PacketLoss);
    assert FieldOk(input, StatusLiteral);
    assert Violations(input) == [PacketLoss];
  }
}
