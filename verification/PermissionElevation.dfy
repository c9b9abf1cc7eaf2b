/**
  The task-scoped elevation record: prepared, approved or denied, active,
  verified, or blocked (src/agent_bridge_connect/permission_elevation.py:90-560).
*/
module PermissionElevation {
  import opened Outcomes
  import opened Text
  import opened Clock
  import opened NativeRequest

  datatype Status = Prepared | Approved | Active | Verified | Denied | Blocked

  datatype Decision = Decision(kind: string, source: string, at: Stamp)

  const NO_DECISION := Decision("", "", Missing)

  /** The stable reasons for which a record is blocked, and any other text. */
  datatype BlockCode =
    | EscalationIneffective | TransportLost | ProtocolUnavailable | PreflightFailed | ElevationReplay
    | BindingMismatch | ElevationIneffective | HostContainmentUnliftable | UnknownActionOutcome
    | OtherCode(text: string)

  datatype Record = Record(
    elevationId: string, status: Status, blockCode: Option<BlockCode>, facts: Facts,
    decision: Decision, continuation: Continuation, cardinality: Cardinality, createdAt: Stamp)

  predicate IsDecision(kind: string) {
    kind == "approve_full" || kind == "deny"
  }

  // ------------------------------------------------------------ validation

  predicate FactsOk(f: Facts) {
    var b := f.binding;
    IsIdentifier(b.taskId) && IsIdentifier(b.executor) && IsIdentifier(b.runId) && IsIdentifier(b.sessionId)
    && IsIdentifier(b.requestId) && IsIdentifier(b.fingerprint) && IsOptionalDigest(b.pathPlanDigest)
    && ProvenanceOk(f.provenance)
    && Normal(f.authority.executor) == Normal(b.executor)
    && IsIdentifier(f.authority.protocol) && IsOperation(f.authority.methodName)
    && (f.mode == Full ==> f.containment.policy == NativePolicy)
    && (f.mode == ContainedFull ==>
          f.containment.mode == ContainedFull && f.containment.policy == ContainedPolicy
          && f.containment.pathPlanDigest == b.pathPlanDigest && IsDigest(f.containment.profileDigest))
    && (f.operation == "" || IsOperation(f.operation))
  }

  predicate DecisionOk(r: Record) {
    var kind, source := Normal(r.decision.kind), Normal(r.decision.source);
    r.createdAt.At?
    && (kind != "" ==> IsDecision(kind) && source != "")
    && IsOptionalIdentifier(source)
    && !r.decision.at.Malformed?
    && (r.decision.at.At? ==> r.decision.at.instant >= r.createdAt.instant)
  }

  predicate StatusOk(r: Record) {
    var kind, source := Normal(r.decision.kind), Normal(r.decision.source);
    (if r.status == Blocked then r.blockCode.Some? && !r.blockCode.value.OtherCode? && kind != "" else r.blockCode == None)
    && (r.status == Prepared ==> kind == "" && source == "" && r.decision.at.Missing?)
    && (r.status in {Approved, Active, Verified} ==> kind == "approve_full")
    && (r.status == Denied ==> kind == "deny")
    && (r.status in {Active, Verified} ==> r.continuation.count == 1)
  }

  /** `validate_permission_elevation` accepts the record. */
  predicate Valid(r: Record) {
    IsIdentifier(r.elevationId) && FactsOk(r.facts) && DecisionOk(r) && StatusOk(r)
    && ContinuationOk(r.continuation) && CountsOk(r.cardinality)
    && r.cardinality.humanDecisions == (if Normal(r.decision.kind) != "" then 1 else 0)
    && r.cardinality.fullContinuations == r.continuation.count
  }

  function Validated(r: Record): Result<Record> {
    if Valid(r) then Ok(r) else Err("permission_elevation_invalid")
  }

  /** `build_permission_elevation`, on facts that are put together already. */
  function Build(elevationId: string, f: Facts, createdAt: Stamp, now: nat): Result<Record> {
    Validated(Record(elevationId, Prepared, None, f, NO_DECISION, NO_CONTINUATION, FRESH_CARDINALITY, OrNow(createdAt, now)))
  }

  /** The bindings a caller expects. */
  predicate Bound(r: Record, expected: Binding) {
    var b := r.facts.binding;
    b.executor == Normal(expected.executor) && b.taskId == Strip(expected.taskId) && b.runId == Strip(expected.runId)
    && b.sessionId == Strip(expected.sessionId) && b.requestId == Strip(expected.requestId)
    && b.fingerprint == Strip(expected.fingerprint)
  }

  // ------------------------------------------------------------ the writes

  function Decided(r: Record, kind: string, source: string, at: Stamp): Record {
    r.(status := if kind == "approve_full" then Approved else Denied, decision := Decision(kind, source, at),
       cardinality := r.cardinality.(humanDecisions := 1))
  }

  /** `record_permission_elevation_decision` */
  function Decide(r: Record, decision: string, source: string, at: Stamp, now: nat, expected: Binding): Result<Record> {
    var kind, from := Normal(decision), Normal(source);
    if !Valid(r) then Err("permission_elevation_invalid")
    else if !Bound(r, expected) then Err("permission_elevation_binding_mismatch")
    else if !IsDecision(kind) || !IsIdentifier(from) then Err("permission_elevation_decision_invalid")
    else if r.decision.kind != "" then
      if r.decision.kind == kind && r.decision.source == from then Ok(r) else Err("permission_elevation_replay")
    else Validated(Decided(r, kind, from, OrNow(at, now)))
  }

  /** `record_permission_elevation_notification` */
  function Notify(r: Record): Result<Record> {
    if !Valid(r) then Err("permission_elevation_invalid")
    else if r.cardinality.notifications == 1 then Ok(r)
    else Validated(r.(cardinality := r.cardinality.(notifications := 1)))
  }

  function Activated(r: Record, runId: string, sessionId: string): Record {
    r.(status := Active, continuation := Continuation(1, runId, sessionId),
       cardinality := r.cardinality.(fullContinuations := 1))
  }

  /** `activate_permission_elevation` */
  function Activate(r: Record, runId: string, sessionId: string): Result<Record> {
    if !Valid(r) then Err("permission_elevation_invalid")
    else if r.decision.kind != "approve_full" then Err("permission_elevation_state_invalid")
    else if !IsIdentifier(runId) || !IsIdentifier(sessionId) then Err("permission_elevation_binding_invalid")
    else if r.continuation.count == 1 then
      if r.continuation.runId == runId && r.continuation.sessionId == sessionId then Ok(r) else Err("permission_elevation_replay")
    else Validated(Activated(r, runId, sessionId))
  }

  /** `verify_permission_elevation`, from the run and session that were resumed. */
  function Verify(r: Record, runId: string, sessionId: string): Result<Record> {
    var same := r.continuation.runId == Strip(runId) && r.continuation.sessionId == Strip(sessionId);
    if !Valid(r) then Err("permission_elevation_invalid")
    else if r.status == Verified then if same then Ok(r) else Err("permission_elevation_binding_mismatch")
    else if r.status != Active then Err("permission_elevation_state_invalid")
    else if !same then Err("permission_elevation_binding_mismatch")
    else Validated(r.(status := Verified))
  }

  /** `block_permission_elevation` */
  function Block(r: Record, code: BlockCode): Result<Record> {
    if !Valid(r) then Err("permission_elevation_invalid")
    else if r.status == Blocked then Ok(r)
    else if code.OtherCode? || r.status == Verified then Err("permission_elevation_state_invalid")
    else Validated(r.(status := Blocked, blockCode := Some(code)))
  }

  // ------------------------------------------------------------ runs

  datatype Command =
    | ToDecide(decision: string, source: string, at: Stamp, now: nat, expected: Binding)
    | ToNotify
    | ToActivate(runId: string, sessionId: string)
    | ToVerify(runId: string, sessionId: string)
    | ToBlock(code: BlockCode)

  function Apply(r: Record, c: Command): Result<Record> {
    match c
    case ToDecide(decision, source, at, now, expected) => Decide(r, decision, source, at, now, expected)
    case ToNotify => Notify(r)
    case ToActivate(runId, sessionId) => Activate(r, runId, sessionId)
    case ToVerify(runId, sessionId) => Verify(r, runId, sessionId)
    case ToBlock(code) => Block(r, code)
  }

  /** A command that raises leaves the record as it was. */
  function Step(r: Record, c: Command): Record {
    var outcome := Apply(r, c);
    if outcome.Ok? then outcome.value else r
  }

  function Run(r: Record, commands: seq<Command>): Record
    decreases |commands|
  {
    if commands == [] then r else Run(Step(r, commands[0]), commands[1..])
  }

  /** The moves of the machine: no record is blocked before it is decided, and none leaves blocked or verified. */
  predicate IsMove(from: Status, to: Status) {
    (from == Prepared && to in {Approved, Denied})
    || (from == Approved && to in {Active, Blocked})
    || (from == Active && to in {Verified, Blocked})
    || (from == Denied && to == Blocked)
  }

  /** A record whose stored words are normal, as every write leaves them. */
  predicate Kept(r: Record) {
    Valid(r) && Normal(r.decision.kind) == r.decision.kind && Normal(r.decision.source) == r.decision.source
    && (r.continuation.count == 1 ==> r.status in {Active, Verified, Blocked})
  }

  /** What time does to a record. */
  predicate Grows(a: Record, b: Record) {
    b.elevationId == a.elevationId && b.facts == a.facts && b.createdAt == a.createdAt
    && a.cardinality.notifications <= b.cardinality.notifications
    && (a.decision.kind != "" ==> b.decision == a.decision)
    && (a.continuation.count == 1 ==> b.continuation == a.continuation)
    && (a.status in {Verified, Blocked} ==> b.status == a.status)
    && (a.status == Denied ==> b.status in {Denied, Blocked})
  }

  lemma BuiltIsKept(elevationId: string, f: Facts, createdAt: Stamp, now: nat)
    requires Build(elevationId, f, createdAt, now).Ok?
    ensures var r := Build(elevationId, f, createdAt, now).value;
            Kept(r) && r.status == Prepared && r.facts == f && r.cardinality == FRESH_CARDINALITY
            && r.continuation == NO_CONTINUATION && r.decision == NO_DECISION
  {
    hide FactsOk, DecisionOk, IsIdentifier, Normal;
    PlainIsNormal("");
  }

  lemma NotifySucceeds(r: Record)
    requires Kept(r)
    ensures Notify(r).Ok? && Notify(r).value == r.(cardinality := r.cardinality.(notifications := 1))
  {
    hide FactsOk, Normal, IsIdentifier;
  }

  /** A command moves the status along the graph or leaves it alone. */
  lemma StepMoves(r: Record, c: Command)
    requires Kept(r)
    ensures Kept(Step(r, c)) && Grows(r, Step(r, c))
    ensures Step(r, c).status == r.status || IsMove(r.status, Step(r, c).status)
  {
    hide FactsOk, Normal, Strip, IsIdentifier, Bound;
    PlainIsNormal("");
    PlainIsNormal("approve_full");
    PlainIsNormal("deny");
    if c.ToDecide? {
      NormalIsNormal(c.decision);
      NormalIsNormal(c.source);
    }
  }

  /** Over every run: the record stays valid, decided once, continued once, and verified and blocked are final. */
  lemma {:induction false} EveryRunIsKept(r: Record, commands: seq<Command>)
    requires Kept(r)
    ensures Kept(Run(r, commands)) && Grows(r, Run(r, commands))
    decreases |commands|
  {
    hide Kept, Step;
    if commands != [] {
      StepMoves(r, commands[0]);
      EveryRunIsKept(Step(r, commands[0]), commands[1..]);
    }
  }

  /**
    The module promises that any record that is not verified can be blocked;
    a prepared one cannot, because a blocked record must keep its decision.
  */
  lemma BlockedIffDecided(r: Record, code: BlockCode)
    requires Kept(r)
    ensures Block(r, code).Ok? <==> r.status == Blocked || (!code.OtherCode? && r.status !in {Verified, Prepared})
  {
    hide FactsOk, Normal, IsIdentifier, ContinuationOk;
    PlainIsNormal("");
  }

  /** A blocked record is never activated: with a continuation it stays blocked, without one it is refused. */
  lemma BlockedNeverActivates(r: Record, runId: string, sessionId: string)
    requires Kept(r) && r.status == Blocked
    ensures Activate(r, runId, sessionId).Ok? ==> Activate(r, runId, sessionId).value == r && r.continuation.count == 1
  {
    hide FactsOk, Normal, IsIdentifier;
  }

  /** An approved record becomes active exactly under an official run and session. */
  lemma ApprovedActivatesIff(r: Record, runId: string, sessionId: string)
    requires Kept(r) && r.status == Approved
    ensures Activate(r, runId, sessionId).Ok? <==> IsIdentifier(runId) && IsIdentifier(sessionId)
    ensures Activate(r, runId, sessionId).Ok? ==>
              Activate(r, runId, sessionId).value == Activated(r, runId, sessionId)
  {
    hide FactsOk, Normal, IsIdentifier;
    PlainIsNormal("approve_full");
  }
}
