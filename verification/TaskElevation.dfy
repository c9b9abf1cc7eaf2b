/**
  The life of one task elevation: block, notify, answer or expire, activate,
  verify (src/agent_bridge_connect/approval_lifecycle.py:133-163, 485-510,
  785-935, 1193-2030, 2246-2341; src/agent_bridge_connect/service.py:1780-1867,
  2026-2043, 2093-2161, 2176-2223).

  Every operation is a function from the stored task to the task stored after
  it, and to what the caller is told; the class of `TaskService` does the same to the
  store it holds.
*/
module TaskElevation {
  import opened Outcomes
  import opened Text
  import opened Clock
  import opened NativeRequest
  import V3 = ApprovalV3
  import PE = PermissionElevation

  datatype TaskStatus = Running | InputRequired | NeedsRecovery | Failed | Completed | Cancelled | Rejected

  /** A step of the plan; an absent status is empty. */
  datatype PlanStep = PlanStep(id: int, status: string)

  datatype Input = Input(
    inputId: nat, waiting: bool, live: bool, runId: string, sessionId: string, stepId: int,
    requestId: string, fingerprint: string, inputFingerprint: string, toolName: string, toolUseId: string,
    actionFingerprint: string, controlPath: string, nativeEvent: string, deadline: nat, answer: string)

  /** The stored task; `elevations` counts the elevation records ever built for it. */
  datatype Task = Task(
    id: string, assignee: string, sessionId: string, runIds: seq<string>,
    status: TaskStatus, closing: bool, steps: seq<PlanStep>,
    approval: Option<V3.Receipt>, elevation: Option<PE.Record>,
    input: Option<Input>, history: seq<Input>, inputs: nat, elevations: nat)

  datatype Answer =
    | InputIs(inputId: nat, idempotent: bool)
    | AlreadyAnswered
    | Accepted(decision: string)
    | NothingToNotify
    | Notified
    | ElevationIs(status: PE.Status)

  // ------------------------------------------------------------ blocking

  datatype Block = Block(
    runId: string, sessionId: string, requestId: string, fingerprint: string, executor: string, operation: string,
    stepId: Option<int>, toolName: string, toolUseId: string, inputFingerprint: string, actionFingerprint: string,
    controlPath: string, nativeEvent: string,
    authorityExecutor: string, authorityProtocol: string, authorityMethod: string, authorityVersion: Option<int>,
    live: bool)

  /**
    What a block finds around it: the chain, the session snapshot, a fresh
    request id, the fingerprint derived from executor, session and operation for
    a request that brings none, the deadline and the clock.
  */
  datatype Surroundings = Surroundings(
    chainIsHead: bool, sessionSound: bool, freshRequestId: string, derivedFingerprint: string, elevationId: string,
    deadline: nat, now: nat)

  function OrElse(s: string, fallback: string): string {
    if s == "" then fallback else s
  }

  /** The request as it is compared and stored. */
  function Cleaned(b: Block, s: Surroundings): Block {
    b.(executor := Normal(b.executor), runId := Strip(b.runId), sessionId := Strip(b.sessionId),
       requestId := OrElse(Strip(b.requestId), s.freshRequestId),
       fingerprint := OrElse(Strip(b.fingerprint), s.derivedFingerprint), operation := Strip(b.operation))
  }

  /** What is wrong with a request before the task's own state is looked at. */
  function BlockError(t: Task, b: Block, s: Surroundings): string {
    if !s.chainIsHead then "approval_stale_chain"
    else if b.executor != Normal(t.assignee) then "approval_executor_mismatch"
    else if b.runId == "" then "approval_run_missing"
    else if !s.sessionSound then "approval_session_invalid"
    else if Strip(t.sessionId) == "" || Strip(t.sessionId) != b.sessionId then "approval_session_mismatch"
    else if t.runIds == [] || t.runIds[|t.runIds| - 1] != b.runId then "approval_run_mismatch"
    else if b.operation == "" then "approval_operation_invalid"
    else if Normal(b.authorityExecutor) != b.executor || Strip(b.authorityProtocol) == "" || Strip(b.authorityMethod) == ""
            || Strip(b.nativeEvent) == "" then "permission_block_evidence_unavailable"
    else ""
  }

  /** `text.strip()[:limit]` */
  function Clip(text: string, limit: nat): string {
    var clean := Strip(text);
    if |clean| <= limit then clean else clean[..limit]
  }

  predicate SameOrUnsaid(incoming: string, stored: string) {
    incoming == "" || stored == incoming
  }

  /** A replayed request names what the waiting one is about. */
  predicate SameIdentity(i: Input, b: Block) {
    SameOrUnsaid(b.fingerprint, i.fingerprint) && SameOrUnsaid(b.inputFingerprint, i.inputFingerprint)
    && SameOrUnsaid(b.toolName, i.toolName) && SameOrUnsaid(b.toolUseId, i.toolUseId)
    && SameOrUnsaid(b.actionFingerprint, i.actionFingerprint) && SameOrUnsaid(b.controlPath, i.controlPath)
    && SameOrUnsaid(b.nativeEvent, i.nativeEvent)
  }

  /** `_first_incomplete_step_id` */
  function FirstIncomplete(steps: seq<PlanStep>): Option<int> {
    if steps == [] then None
    else if steps[0].status != "done" then Some(steps[0].id)
    else FirstIncomplete(steps[1..])
  }

  function StepToBlock(b: Block, steps: seq<PlanStep>): Option<int> {
    if b.stepId.Some? && b.stepId.value != 0 then b.stepId else FirstIncomplete(steps)
  }

  predicate IsOpen(steps: seq<PlanStep>, stepId: int) {
    exists step <- steps :: step.id == stepId && step.status != "done" && step.status != "completed"
  }

  /** `_resource_block_step`, on every step. */
  function BlockStep(step: PlanStep, stepId: int): PlanStep {
    if step.status == "done" then step
    else if step.id == stepId then step.(status := "blocked")
    else step.(status := OrElse(step.status, "pending"))
  }

  function BlockSteps(steps: seq<PlanStep>, stepId: int): (r: seq<PlanStep>)
    ensures |r| == |steps|
    ensures forall k :: 0 <= k < |steps| ==> r[k] == BlockStep(steps[k], stepId)
  {
    if steps == [] then [] else [BlockStep(steps[0], stepId)] + BlockSteps(steps[1..], stepId)
  }

  function BindingOf(t: Task, b: Block): Binding {
    Binding(t.id, b.executor, b.runId, b.sessionId, b.requestId, b.fingerprint, "")
  }

  function FactsOf(t: Task, b: Block, version: int): Facts {
    Facts(BindingOf(t, b),
          Provenance(Strip(b.nativeEvent), Strip(OrElse(b.toolUseId, b.requestId)), Strip(b.actionFingerprint)),
          Authority(b.executor, Strip(b.authorityProtocol), version, Strip(b.authorityMethod)),
          Full, Containment(Full, NativePolicy, "", ""), b.operation)
  }

  function VersionOr(version: Option<int>, fallback: int): int {
    if version.Some? then version.value else fallback
  }

  function NewInput(t: Task, b: Block, s: Surroundings, stepId: int): Input {
    Input(t.inputs, true, b.live, b.runId, b.sessionId, stepId, b.requestId, b.fingerprint,
          Clip(b.inputFingerprint, 160), Clip(b.toolName, 512), Clip(b.toolUseId, 512), Clip(b.actionFingerprint, 512),
          Clip(b.controlPath, 512), Clip(b.nativeEvent, 512), s.deadline, "")
  }

  predicate IsSettled(s: TaskStatus) {
    s == Completed || s == Failed || s == Cancelled || s == Rejected
  }

  /** `mark_task_needs_recovery`: a closing or settled task keeps its status. */
  function Recovering(t: Task): Task {
    if t.closing || IsSettled(t.status) then t else t.(status := NeedsRecovery)
  }

  /** A repeated block of a decided elevation: the record is blocked as far as it can be, and the task sent to recovery. */
  function Ineffective(t: Task, e: PE.Record): Task {
    var blocked := PE.Block(e, PE.EscalationIneffective);
    Recovering(if blocked.Ok? then t.(elevation := Some(blocked.value)) else t)
  }

  /** The first block of a task: both receipts are built, and the task waits. */
  function BlockFirst(t: Task, b: Block, s: Surroundings): (Task, Result<Answer>) {
    var step := StepToBlock(b, t.steps);
    if step.None? then (t, Err("permission_preflight_failed"))
    else if !IsOpen(t.steps, step.value) then (t, Err("permission_input_invalid"))
    else
      var approval := V3.Build(FactsOf(t, b, VersionOr(b.authorityVersion, 0)), "", Missing, s.now);
      var elevation := PE.Build(s.elevationId, FactsOf(t, b, VersionOr(b.authorityVersion, 1)), Missing, s.now);
      if approval.Err? then (t, Err(approval.code))
      else if elevation.Err? then (t, Err(elevation.code))
      else
        (t.(status := InputRequired, steps := BlockSteps(t.steps, step.value),
            approval := Some(approval.value), elevation := Some(elevation.value),
            input := Some(NewInput(t, b, s, step.value)),
            history := if t.input.Some? then t.history + [t.input.value] else t.history,
            inputs := t.inputs + 1, elevations := t.elevations + 1),
         Ok(InputIs(t.inputs, false)))
  }

  predicate IsWaiting(t: Task) {
    t.input.Some? && t.input.value.waiting
  }

  /** `block_task_for_approval` and `_block_task_for_elevation` */
  function BlockTask(t: Task, request: Block, s: Surroundings): (Task, Result<Answer>) {
    var b := Cleaned(request, s);
    var error := BlockError(t, b, s);
    if error != "" then (t, Err(error))
    else if IsWaiting(t) then
      var input := t.input.value;
      if input.requestId != b.requestId then (t, Err("approval_already_pending"))
      else if !SameIdentity(input, b) then (t, Err("permission_elevation_binding_mismatch"))
      else (t, Ok(InputIs(input.inputId, true)))
    else if t.elevation.None? then BlockFirst(t, b, s)
    else
      var e := t.elevation.value;
      if !PE.Valid(e) then (t, Err("permission_elevation_invalid"))
      else if e.facts.binding.taskId != t.id || e.facts.binding.pathPlanDigest != "" then (t, Err("permission_elevation_binding_mismatch"))
      else if e.status in {PE.Approved, PE.Active, PE.Verified} then (Ineffective(t, e), Err("permission_escalation_ineffective"))
      else (t, Err("permission_elevation_replay"))
  }

  // ------------------------------------------------------------ answering

  /** `permission_denial_source` */
  function DenialSource(responseType: string, message: string): string {
    if responseType != "deny" then "user"
    else if message == "agentbc_permission_dialog_timeout" then "timeout"
    else if message == "agentbc_permission_dialog_closed" then "dialog_closed"
    else "user"
  }

  function Expected(t: Task, i: Input): Binding {
    Binding(t.id, t.assignee, i.runId, t.sessionId, i.requestId, i.fingerprint, "")
  }

  /** One decision on both receipts, or on neither. */
  function DecideBoth(t: Task, i: Input, decision: string, source: string, now: nat): Result<Task> {
    if t.elevation.None? then Err("permission_elevation_binding_mismatch")
    else if t.approval.None? then Err("permission_input_invalid")
    else
      var approval :- V3.Decide(t.approval.value, decision, source, At(now), now, Some(Expected(t, i)));
      var elevation :- PE.Decide(t.elevation.value, decision, source, At(now), now, Expected(t, i));
      Ok(t.(approval := Some(approval), elevation := Some(elevation)))
  }

  /** The live answer also decides an elevation that has no approval beside it. */
  function DecideLive(t: Task, i: Input, decision: string, source: string, now: nat): Result<Task> {
    if t.elevation.Some? && t.approval.None? then
      var elevation :- PE.Decide(t.elevation.value, decision, source, At(now), now, Expected(t, i));
      Ok(t.(elevation := Some(elevation)))
    else DecideBoth(t, i, decision, source, now)
  }

  function Answered(i: Input, answer: string): Input {
    i.(waiting := false, answer := answer)
  }

  function LiveVerdict(responseType: string): string {
    var value := Normal(responseType);
    if value == "approve_full" then "approve" else value
  }

  /** `respond_to_live_claude_elevation`; `activeRun` is the run that holds the active lease. */
  function RespondLive(t: Task, inputId: nat, responseType: string, message: string, activeRun: Option<string>, now: nat)
    : (Task, Result<Answer>)
  {
    if t.input.None? || !t.input.value.live then (t, Err("input_not_pending"))
    else
      var i := t.input.value;
      var verdict := LiveVerdict(responseType);
      if i.inputId != inputId then (t, Err("stale_input"))
      else if !i.waiting then (t, Ok(AlreadyAnswered))
      else if verdict != "approve" && verdict != "deny" then (t, Err("invalid_input_response"))
      else if activeRun != Some(i.runId) then (t, Err("executor_active"))
      else if t.sessionId == "" || Strip(i.sessionId) != t.sessionId then (t, Err("approval_session_mismatch"))
      else if t.elevation.None? || t.elevation.value.status != PE.Prepared then (t, Err("permission_elevation_state_invalid"))
      else if i.deadline <= now then (t, Err("input_expired"))
      else
        var decided := DecideLive(t, i, if verdict == "approve" then "approve_full" else "deny", DenialSource(responseType, message), now);
        if decided.Err? then (t, Err(decided.code))
        else (decided.value.(status := Running, input := Some(Answered(i, verdict))), Ok(Accepted(verdict)))
  }

  predicate IsBlockedStep(steps: seq<PlanStep>, stepId: int) {
    exists step <- steps :: step.id == stepId && step.status == "blocked"
  }

  function UnblockSteps(steps: seq<PlanStep>, stepId: int): seq<PlanStep> {
    if steps == [] then []
    else
      var step := steps[0];
      [if step.id == stepId && step.status == "blocked" then step.(status := "pending") else step] + UnblockSteps(steps[1..], stepId)
  }

  /** `_mark_task_failed_model` writes the task it is given, unless the stored one is closing or failed already. */
  function FailedWith(t: Task, model: Task): Task {
    if t.closing || t.status == Failed then t else model.(status := Failed)
  }

  /** `respond_to_input` and `_respond_to_permission_input` */
  function Respond(t: Task, inputId: nat, responseType: string, message: string, chainIsHead: bool, leaseQuiet: bool, now: nat)
    : (Task, Result<Answer>)
  {
    var response := Strip(responseType);
    if t.input.None? then (t, Err("input_not_pending"))
    else
      var i := t.input.value;
      if i.inputId != inputId then (t, Err("stale_input"))
      else if !i.waiting then (t, Ok(AlreadyAnswered))
      else if t.status != InputRequired then (t, Err("input_not_pending"))
      else if !chainIsHead then (t, Err("stale_input"))
      else if i.deadline <= now then (t, Err("input_expired"))
      else if !leaseQuiet then (t, Err("executor_active"))
      else if response == "permission_option" then (t, Err("native_permission_choice_required"))
      else if response != "approve_full" && response != "deny" then (t, Err("invalid_input_response"))
      else
        var decided := DecideBoth(t, i, response, DenialSource(response, message), now);
        if decided.Err? then (t, Err(decided.code))
        else
          var model := decided.value.(input := Some(Answered(i, response)));
          if response == "deny" then (FailedWith(t, model), Ok(Accepted("deny")))
          else if !IsBlockedStep(t.steps, i.stepId) then (t, Err("permission_input_invalid"))
          else (model.(status := Running, steps := UnblockSteps(t.steps, i.stepId)), Ok(Accepted("approve_full")))
  }

  /** `expire_waiting_inputs` and `_expire_permission_input`, for this task. */
  function Expire(t: Task, now: nat): (Task, Result<Answer>) {
    if !IsWaiting(t) || t.input.value.deadline > now then (t, Ok(AlreadyAnswered))
    else
      var i := t.input.value;
      var model := t.(input := Some(Answered(i, "deny")));
      var decided := DecideBoth(model, i, "deny", "timeout", now);
      var stored := if decided.Ok? then decided.value else t;
      (FailedWith(stored, if decided.Ok? then decided.value else model), Ok(Accepted("deny")))
  }

  // ------------------------------------------------------------ notifying, activating, verifying

  /** `record_task_elevation_notification` */
  function NotifyTask(t: Task): (Task, Result<Answer>) {
    if t.elevation.None? then (t, Ok(NothingToNotify))
    else
      var elevation := PE.Notify(t.elevation.value);
      if elevation.Err? then (t, Err(elevation.code))
      else if t.approval.None? then (t.(elevation := Some(elevation.value)), Ok(Notified))
      else
        var approval := V3.Notify(t.approval.value);
        if approval.Err? then (t, Err(approval.code))
        else (t.(elevation := Some(elevation.value), approval := Some(approval.value)), Ok(Notified))
  }

  function ActivatedRecord(e: PE.Record, runId: string, sessionId: string): Result<PE.Record> {
    if e.status == PE.Approved then PE.Activate(e, runId, sessionId)
    else if e.status in {PE.Active, PE.Verified} then Ok(e)
    else Err("permission_elevation_state_invalid")
  }

  /** `activate_task_elevation` */
  function ActivateTask(t: Task, runId: string, sessionId: string): (Task, Result<Answer>) {
    if t.elevation.None? then (t, Err("permission_elevation_missing"))
    else if !PE.Valid(t.elevation.value) || t.elevation.value.facts.binding.taskId != t.id
    then (t, Err("permission_elevation_invalid"))
    else
      var elevation := ActivatedRecord(t.elevation.value, runId, sessionId);
      if elevation.Err? then (t, Err(elevation.code))
      else if t.approval.None? || !V3.Valid(t.approval.value) then (t, Err("approval_invalid"))
      else
        var approval := if t.approval.value.decision.kind == "approve_full"
                        then V3.Continue(t.approval.value, runId, sessionId) else Ok(t.approval.value);
        if approval.Err? then (t, Err(approval.code))
        else (t.(elevation := Some(elevation.value), approval := Some(approval.value)), Ok(ElevationIs(elevation.value.status)))
  }

  /** `verify_task_elevation` */
  function VerifyTask(t: Task, runId: string, sessionId: string): (Task, Result<Answer>) {
    if t.elevation.None? then (t, Err("permission_elevation_missing"))
    else if t.elevation.value.facts.binding.taskId != t.id then (t, Err("permission_elevation_binding_mismatch"))
    else
      var verified := PE.Verify(t.elevation.value, runId, sessionId);
      if verified.Err? then (t, Err(verified.code))
      else (t.(elevation := Some(verified.value)), Ok(ElevationIs(PE.Verified)))
  }

  // ------------------------------------------------------------ runs

  datatype Event =
    | Blocks(block: Block, surroundings: Surroundings)
    | RespondsLive(inputId: nat, responseType: string, message: string, activeRun: Option<string>, now: nat)
    | Responds(inputId: nat, responseType: string, message: string, chainIsHead: bool, leaseQuiet: bool, now: nat)
    | Expires(now: nat)
    | Notifies
    | Activates(runId: string, sessionId: string)
    | Verifies(runId: string, sessionId: string)
    | StartsRun(runId: string)
    | MovesElsewhere(status: TaskStatus, closing: bool, steps: seq<PlanStep>)

  /** What an event stores, and what it tells; the last two stand for the rest of the service. */
  function Effect(t: Task, e: Event): (Task, Result<Answer>) {
    match e
    case Blocks(block, surroundings) => BlockTask(t, block, surroundings)
    case RespondsLive(inputId, responseType, message, activeRun, now) => RespondLive(t, inputId, responseType, message, activeRun, now)
    case Responds(inputId, responseType, message, chainIsHead, leaseQuiet, now) =>
      Respond(t, inputId, responseType, message, chainIsHead, leaseQuiet, now)
    case Expires(now) => Expire(t, now)
    case Notifies => NotifyTask(t)
    case Activates(runId, sessionId) => ActivateTask(t, runId, sessionId)
    case Verifies(runId, sessionId) => VerifyTask(t, runId, sessionId)
    case StartsRun(runId) => (t.(runIds := t.runIds + [runId]), Ok(AlreadyAnswered))
    case MovesElsewhere(status, closing, steps) => (t.(status := status, closing := closing, steps := steps), Ok(AlreadyAnswered))
  }

  function Step(t: Task, e: Event): Task {
    Effect(t, e).0
  }

  function Run(t: Task, events: seq<Event>): Task
    decreases |events|
  {
    if events == [] then t else Step(Run(t, events[..|events| - 1]), events[|events| - 1])
  }

  // ------------------------------------------------------------ the two receipts in step

  /** The receipts of one elevation say the same. */
  predicate InStep(a: V3.Receipt, e: PE.Record) {
    V3.Kept(a) && PE.Kept(e)
    && a.facts.binding == e.facts.binding && a.createdAt == e.createdAt
    && a.decision == V3.Decision(e.decision.kind, e.decision.source, e.decision.at)
    && a.continuation == e.continuation && a.cardinality == e.cardinality
    && (e.status == PE.Prepared <==> !a.answered)
    && (e.status == PE.Denied <==> a.decision.kind == "deny")
    && (e.status in {PE.Approved, PE.Active, PE.Verified, PE.Blocked} <==> a.decision.kind == "approve_full")
    && (e.status in {PE.Active, PE.Verified} ==>
          a.continuation.count == 1 && IsIdentifier(a.continuation.runId) && IsIdentifier(a.continuation.sessionId))
    && (e.status in {PE.Prepared, PE.Approved, PE.Denied} ==> a.continuation == NO_CONTINUATION)
  }

  /** A stored task: no elevation at all, or one, with its approval in step and nothing waiting but its own request. */
  predicate Lockstep(t: Task) {
    match t.elevation
    case None => t.approval == None && t.input == None && t.elevations == 0
    case Some(e) =>
      t.approval.Some? && InStep(t.approval.value, e) && t.elevations == 1
      && e.facts.binding.taskId == t.id && e.facts.binding.pathPlanDigest == ""
      && t.input.Some?
      && (t.input.value.waiting ==>
            e.status == PE.Prepared && t.input.value.requestId == e.facts.binding.requestId
            && t.input.value.runId == e.facts.binding.runId)
  }

  /** A task that has never been blocked. */
  predicate IsUntouched(t: Task) {
    t.approval == None && t.elevation == None && t.input == None && t.elevations == 0
  }

  // -- one write on both receipts

  lemma DecideInStep(a: V3.Receipt, e: PE.Record, decision: string, source: string, at: Stamp, now: nat, expected: Binding)
    requires InStep(a, e)
    requires V3.Decide(a, decision, source, at, now, Some(expected)).Ok? && PE.Decide(e, decision, source, at, now, expected).Ok?
    ensures var a' := V3.Decide(a, decision, source, at, now, Some(expected)).value;
            var e' := PE.Decide(e, decision, source, at, now, expected).value;
            InStep(a', e') && V3.Grows(a, a') && PE.Grows(e, e')
            && (e.status == PE.Prepared ==> e'.status == (if Normal(decision) == "approve_full" then PE.Approved else PE.Denied))
            && (e.status != PE.Prepared ==> e' == e)
  {
    hide V3.Valid, PE.Valid, Normal, V3.Bound, PE.Bound, IsIdentifier, V3.IsDecision, IsDecisionSource;
    V3.StepKeeps(a, V3.ToDecide(decision, source, at, now, Some(expected)));
    PE.StepMoves(e, PE.ToDecide(decision, source, at, now, expected));
    KindOfStatus(e);
    DecisionWords(Normal(decision));
  }

  lemma DecisionWords(kind: string)
    ensures V3.IsDecision(kind) <==> PE.IsDecision(kind)
    ensures V3.IsDecision(kind) ==> kind == "approve_full" || kind == "deny"
  {
  }

  /** A kept record is undecided exactly while it is prepared. */
  lemma KindOfStatus(e: PE.Record)
    requires PE.Kept(e)
    ensures e.decision.kind == "" <==> e.status == PE.Prepared
    ensures PE.Valid(e)
  {
    hide PE.FactsOk, Normal, IsIdentifier;
    PlainIsNormal("");
  }

  lemma NotifyInStep(a: V3.Receipt, e: PE.Record)
    requires InStep(a, e)
    ensures V3.Notify(a).Ok? && PE.Notify(e).Ok?
    ensures var a' := V3.Notify(a).value;
            var e' := PE.Notify(e).value;
            InStep(a', e') && V3.Grows(a, a') && PE.Grows(e, e') && e'.status == e.status
            && a'.cardinality.notifications == e'.cardinality.notifications == 1
  {
    hide V3.Valid, PE.Valid, Normal, IsIdentifier, V3.IsDecision, IsDecisionSource;
    V3.NotifySucceeds(a);
    PE.NotifySucceeds(e);
    V3.StepKeeps(a, V3.ToNotify);
    PE.StepMoves(e, PE.ToNotify);
  }

  lemma ActivateInStep(a: V3.Receipt, e: PE.Record, runId: string, sessionId: string)
    requires InStep(a, e) && ActivatedRecord(e, runId, sessionId).Ok? && V3.Continue(a, runId, sessionId).Ok?
    ensures var a' := V3.Continue(a, runId, sessionId).value;
            var e' := ActivatedRecord(e, runId, sessionId).value;
            InStep(a', e') && V3.Grows(a, a') && PE.Grows(e, e')
            && a'.continuation == Continuation(1, runId, sessionId)
            && e'.status == (if e.status == PE.Approved then PE.Active else e.status)
  {
    hide V3.Valid, PE.Valid, Normal, V3.IsDecision, IsDecisionSource, IsIdentifier;
    V3.StepKeeps(a, V3.ToContinue(runId, sessionId));
    PE.StepMoves(e, PE.ToActivate(runId, sessionId));
  }

  lemma VerifyInStep(a: V3.Receipt, e: PE.Record, runId: string, sessionId: string)
    requires InStep(a, e) && PE.Verify(e, runId, sessionId).Ok?
    ensures var e' := PE.Verify(e, runId, sessionId).value;
            InStep(a, e') && PE.Grows(e, e') && e'.status == PE.Verified && e.status in {PE.Active, PE.Verified}
            && e.continuation == Continuation(1, Strip(runId), Strip(sessionId))
  {
    hide V3.Kept, PE.Valid, Normal, IsIdentifier, Strip;
    PE.StepMoves(e, PE.ToVerify(runId, sessionId));
  }

  lemma BlockInStep(a: V3.Receipt, e: PE.Record, code: PE.BlockCode)
    requires InStep(a, e) && e.status in {PE.Approved, PE.Active} && PE.Block(e, code).Ok?
    ensures var e' := PE.Block(e, code).value;
            InStep(a, e') && PE.Grows(e, e') && e'.status == PE.Blocked
  {
    hide V3.Kept, PE.Valid, Normal, IsIdentifier;
    PE.StepMoves(e, PE.ToBlock(code));
  }

  // -- one operation

  /** What an operation keeps of the elevation: never a second one, and the first only grows older. */
  predicate Follows(t: Task, u: Task) {
    u.id == t.id && u.assignee == t.assignee && u.sessionId == t.sessionId && t.elevations <= u.elevations
    && (t.elevation.Some? ==> u.elevation.Some? && PE.Grows(t.elevation.value, u.elevation.value))
    && (t.approval.Some? ==> u.approval.Some? && V3.Grows(t.approval.value, u.approval.value))
  }

  lemma FollowsItself(t: Task)
    ensures Follows(t, t)
  {
  }

  lemma FollowsTransitively(t: Task, u: Task, v: Task)
    requires Lockstep(t) && Lockstep(u) && Follows(t, u) && Follows(u, v)
    ensures Follows(t, v)
  {
    hide PE.Valid, V3.Kept, Normal;
    if t.elevation.Some? {
      KindOfStatus(t.elevation.value);
      CountsOfKept(t.elevation.value);
      CountsOfKept(u.elevation.value);
    }
  }

  lemma CountsOfKept(e: PE.Record)
    requires PE.Kept(e)
    ensures 0 <= e.cardinality.notifications <= 1 && 0 <= e.continuation.count <= 1
  {
    hide PE.FactsOk, PE.DecisionOk, PE.StatusOk, Normal;
  }

  lemma FirstBlockKeeps(t: Task, b: Block, s: Surroundings)
    requires Lockstep(t) && t.elevation.None?
    ensures var u := BlockFirst(t, b, s).0; Lockstep(u) && Follows(t, u)
  {
    hide V3.Kept, PE.Kept, V3.Valid, PE.Valid, IsIdentifier, FirstIncomplete, IsOpen, BlockSteps, Clip, Strip,
         V3.Build, PE.Build;
    var va, ve := VersionOr(b.authorityVersion, 0), VersionOr(b.authorityVersion, 1);
    var approval := V3.Build(FactsOf(t, b, va), "", Missing, s.now);
    var elevation := PE.Build(s.elevationId, FactsOf(t, b, ve), Missing, s.now);
    if approval.Ok? && elevation.Ok? {
      V3.BuiltIsKept(FactsOf(t, b, va), "", Missing, s.now);
      PE.BuiltIsKept(s.elevationId, FactsOf(t, b, ve), Missing, s.now);
      BuiltAreFresh(t, b, s);
    }
  }

  lemma BuiltAreFresh(t: Task, b: Block, s: Surroundings)
    requires V3.Build(FactsOf(t, b, VersionOr(b.authorityVersion, 0)), "", Missing, s.now).Ok?
    requires PE.Build(s.elevationId, FactsOf(t, b, VersionOr(b.authorityVersion, 1)), Missing, s.now).Ok?
    ensures var a := V3.Build(FactsOf(t, b, VersionOr(b.authorityVersion, 0)), "", Missing, s.now).value;
            var e := PE.Build(s.elevationId, FactsOf(t, b, VersionOr(b.authorityVersion, 1)), Missing, s.now).value;
            a.decision == V3.NO_DECISION && a.createdAt == e.createdAt == At(s.now)
  {
    hide V3.Valid, PE.Valid, FactsOf;
  }

  lemma BlockKeeps(t: Task, request: Block, s: Surroundings)
    requires Lockstep(t)
    ensures var u := BlockTask(t, request, s).0; Lockstep(u) && Follows(t, u)
  {
    hide InStep, V3.Kept, PE.Kept, PE.Valid, IsIdentifier, Cleaned, BlockError, SameIdentity, BlockFirst, PE.Block,
         V3.Grows, PE.Grows;
    var b := Cleaned(request, s);
    FollowsItself(t);
    if t.elevation.None? {
      FirstBlockKeeps(t, b, s);
    } else {
      IneffectiveKeeps(t);
    }
  }

  lemma IneffectiveKeeps(t: Task)
    requires Lockstep(t) && t.elevation.Some?
    ensures t.elevation.value.status in {PE.Approved, PE.Active, PE.Verified} ==>
              Lockstep(Ineffective(t, t.elevation.value)) && Follows(t, Ineffective(t, t.elevation.value))
  {
    hide InStep, V3.Kept, PE.Kept, PE.Valid, IsIdentifier;
    var e := t.elevation.value;
    FollowsItself(t);
    if e.status in {PE.Approved, PE.Active} && PE.Block(e, PE.EscalationIneffective).Ok? {
      BlockInStep(t.approval.value, e, PE.EscalationIneffective);
    }
  }

  /** Deciding both receipts of a task keeps them in step, whoever else is recorded with it. */
  lemma DecideKeeps(t: Task, i: Input, decision: string, source: string, now: nat)
    requires Lockstep(t) && DecideBoth(t, i, decision, source, now).Ok?
    ensures var u := DecideBoth(t, i, decision, source, now).value;
            u == t.(approval := u.approval, elevation := u.elevation) && Follows(t, u)
            && u.elevation.Some? && u.approval.Some? && InStep(u.approval.value, u.elevation.value)
            && u.elevation.value.facts == t.elevation.value.facts
            && (t.elevation.value.status == PE.Prepared ==>
                  u.elevation.value.status == (if Normal(decision) == "approve_full" then PE.Approved else PE.Denied))
            && (t.elevation.value.status != PE.Prepared ==> u.elevation == t.elevation)
  {
    hide InStep, V3.Decide, PE.Decide, V3.Grows, Normal;
    DecideInStep(t.approval.value, t.elevation.value, decision, source, At(now), now, Expected(t, i));
  }

  lemma RespondLiveKeeps(t: Task, inputId: nat, responseType: string, message: string, activeRun: Option<string>, now: nat)
    requires Lockstep(t)
    ensures var u := RespondLive(t, inputId, responseType, message, activeRun, now).0; Lockstep(u) && Follows(t, u)
  {
    hide InStep, DecideBoth, Normal, Strip, Follows, DenialSource;
    FollowsItself(t);
    if t.input.Some? {
      var decision := if LiveVerdict(responseType) == "approve" then "approve_full" else "deny";
      var source := DenialSource(responseType, message);
      if DecideBoth(t, t.input.value, decision, source, now).Ok? {
        DecideKeeps(t, t.input.value, decision, source, now);
        FollowsLoosely(t, DecideBoth(t, t.input.value, decision, source, now).value);
      }
    }
  }

  /** Status, steps and input are no part of what is followed. */
  lemma FollowsLoosely(t: Task, u: Task)
    requires Follows(t, u)
    ensures forall status, steps, input, closing ::
              Follows(t, u.(status := status, steps := steps, input := input, closing := closing))
    ensures forall status, input :: Follows(t, u.(status := status, input := input))
    ensures forall input :: Follows(t, u.(input := input))
  {
  }

  lemma RespondKeeps(t: Task, inputId: nat, responseType: string, message: string, chainIsHead: bool, leaseQuiet: bool, now: nat)
    requires Lockstep(t)
    ensures var u := Respond(t, inputId, responseType, message, chainIsHead, leaseQuiet, now).0; Lockstep(u) && Follows(t, u)
  {
    hide InStep, DecideBoth, Normal, Strip, V3.Grows, PE.Grows, DenialSource, IsBlockedStep, UnblockSteps;
    FollowsItself(t);
    if t.input.Some? {
      var response := Strip(responseType);
      var source := DenialSource(response, message);
      if DecideBoth(t, t.input.value, response, source, now).Ok? {
        DecideKeeps(t, t.input.value, response, source, now);
      }
    }
  }

  lemma ExpireKeeps(t: Task, now: nat)
    requires Lockstep(t)
    ensures var u := Expire(t, now).0; Lockstep(u) && Follows(t, u)
  {
    hide InStep, DecideBoth, Normal, V3.Grows, PE.Grows;
    FollowsItself(t);
    if IsWaiting(t) {
      var i := t.input.value;
      var model := t.(input := Some(Answered(i, "deny")));
      if DecideBoth(model, i, "deny", "timeout", now).Ok? {
        DecideKeeps(model, i, "deny", "timeout", now);
      }
    }
  }

  lemma NotifyKeeps(t: Task)
    requires Lockstep(t)
    ensures var u := NotifyTask(t).0; Lockstep(u) && Follows(t, u)
    ensures NotifyTask(t).1.Ok?
  {
    hide InStep, V3.Notify, PE.Notify;
    FollowsItself(t);
    if t.elevation.Some? {
      NotifyInStep(t.approval.value, t.elevation.value);
    }
  }

  lemma ActivateKeeps(t: Task, runId: string, sessionId: string)
    requires Lockstep(t)
    ensures var u := ActivateTask(t, runId, sessionId).0; Lockstep(u) && Follows(t, u)
  {
    hide V3.Kept, PE.Kept, V3.Continue, ActivatedRecord, PE.Valid, V3.Valid, IsIdentifier;
    FollowsItself(t);
    if t.elevation.Some? && ActivatedRecord(t.elevation.value, runId, sessionId).Ok? {
      ActivatesDecided(t.elevation.value, runId, sessionId);
      if V3.Continue(t.approval.value, runId, sessionId).Ok? {
        ActivateInStep(t.approval.value, t.elevation.value, runId, sessionId);
      }
    }
  }

  lemma ActivatesDecided(e: PE.Record, runId: string, sessionId: string)
    requires ActivatedRecord(e, runId, sessionId).Ok?
    ensures e.status in {PE.Approved, PE.Active, PE.Verified}
  {
  }

  lemma VerifyKeeps(t: Task, runId: string, sessionId: string)
    requires Lockstep(t)
    ensures var u := VerifyTask(t, runId, sessionId).0; Lockstep(u) && Follows(t, u)
  {
    hide InStep, PE.Verify, V3.Kept, PE.Kept;
    FollowsItself(t);
    if t.elevation.Some? && PE.Verify(t.elevation.value, runId, sessionId).Ok? {
      VerifyInStep(t.approval.value, t.elevation.value, runId, sessionId);
    }
  }

  lemma StepKeeps(t: Task, e: Event)
    requires Lockstep(t)
    ensures Lockstep(Step(t, e)) && Follows(t, Step(t, e))
  {
    hide BlockTask, RespondLive, Respond, Expire, NotifyTask, ActivateTask, VerifyTask, InStep, V3.Grows, PE.Grows;
    match e {
      case Blocks(block, surroundings) => BlockKeeps(t, block, surroundings);
      case RespondsLive(inputId, responseType, message, activeRun, now) =>
        RespondLiveKeeps(t, inputId, responseType, message, activeRun, now);
      case Responds(inputId, responseType, message, chainIsHead, leaseQuiet, now) =>
        RespondKeeps(t, inputId, responseType, message, chainIsHead, leaseQuiet, now);
      case Expires(now) => ExpireKeeps(t, now);
      case Notifies => NotifyKeeps(t);
      case Activates(runId, sessionId) => ActivateKeeps(t, runId, sessionId);
      case Verifies(runId, sessionId) => VerifyKeeps(t, runId, sessionId);
      case _ => FollowsItself(t);
    }
  }

  // -- whole runs

  /**
    Over every run, whatever fails: at most one elevation is ever built, its
    approval and its record stay in step, and both only grow older.
  */
  lemma {:induction false} EveryRunStaysInStep(t: Task, events: seq<Event>)
    requires Lockstep(t)
    ensures Lockstep(Run(t, events)) && Follows(t, Run(t, events))
    decreases |events|
  {
    hide Step, Lockstep, Follows, V3.Kept, PE.Kept;
    if events == [] {
      FollowsItself(t);
    } else {
      var init, last := events[..|events| - 1], events[|events| - 1];
      EveryRunStaysInStep(t, init);
      var before := Run(t, init);
      StepKeeps(before, last);
      FollowsTransitively(t, before, Step(before, last));
    }
  }

  /** A task that has never been blocked starts in step. */
  lemma UntouchedIsInStep(t: Task)
    requires IsUntouched(t)
    ensures Lockstep(t)
  {
  }

  // -- failures

  /** An operation that fails stores nothing; only a repeated block of a decided elevation also blocks its record. */
  lemma FailureWritesNothing(t: Task, e: Event)
    requires Lockstep(t) && Effect(t, e).1.Err?
    ensures Step(t, e).approval == t.approval
    ensures Step(t, e) == t
            || (e.Blocks? && t.elevation.Some? && t.elevation.value.status in {PE.Approved, PE.Active, PE.Verified}
                && Step(t, e) == Ineffective(t, t.elevation.value))
  {
    hide InStep, V3.Decide, PE.Decide, V3.Build, PE.Build, V3.Continue, PE.Activate, PE.Verify, PE.Block, V3.Notify,
         PE.Notify,
         FirstIncomplete, BlockSteps, UnblockSteps, IsOpen, IsBlockedStep, Normal, Strip, SameIdentity, Cleaned, BlockError;
  }

  /** What a repeated block leaves: a decided record is blocked, a verified one stays verified. */
  lemma RepeatedBlock(t: Task)
    requires Lockstep(t) && t.elevation.Some? && t.elevation.value.status in {PE.Approved, PE.Active, PE.Verified}
    ensures var u := Ineffective(t, t.elevation.value);
            u.elevation.Some?
            && (if t.elevation.value.status == PE.Verified then u.elevation == t.elevation
                else u.elevation.value.status == PE.Blocked && u.elevation.value.blockCode == Some(PE.EscalationIneffective))
            && (u.status == t.status || u.status == NeedsRecovery)
  {
    hide InStep, PE.Kept, PE.Valid;
    var e := t.elevation.value;
    assert PE.Kept(e) by { KeptInStep(t.approval.value, e); }
    PE.BlockedIffDecided(e, PE.EscalationIneffective);
  }

  lemma KeptInStep(a: V3.Receipt, e: PE.Record)
    requires InStep(a, e)
    ensures PE.Kept(e) && V3.Kept(a)
  {
    hide PE.Kept, V3.Kept;
  }

  // -- full permission needs an answer

  /** The event is a human approval of the waiting request, before its deadline. */
  predicate Approves(t: Task, e: Event) {
    IsWaiting(t)
    && match e
       case RespondsLive(inputId, responseType, _, activeRun, now) =>
         t.input.value.live && t.input.value.inputId == inputId && LiveVerdict(responseType) == "approve"
         && activeRun == Some(t.input.value.runId) && now < t.input.value.deadline
       case Responds(inputId, responseType, _, chainIsHead, leaseQuiet, now) =>
         t.input.value.inputId == inputId && Strip(responseType) == "approve_full"
         && chainIsHead && leaseQuiet && t.status == InputRequired && now < t.input.value.deadline
       case _ => false
  }

  predicate IsApproved(t: Task) {
    t.elevation.Some? && t.elevation.value.status in {PE.Approved, PE.Active, PE.Verified, PE.Blocked}
  }

  lemma UndecidedStatus(t: Task)
    requires Lockstep(t) && t.elevation.Some?
    ensures !IsApproved(t) ==> t.elevation.value.status in {PE.Prepared, PE.Denied}
    ensures IsWaiting(t) ==> t.elevation.value.status == PE.Prepared
  {
    hide InStep;
    match t.elevation.value.status {
      case Prepared =>
      case Approved =>
      case Active =>
      case Verified =>
      case Denied =>
      case Blocked =>
    }
  }

  function LiveDecision(responseType: string): string {
    if LiveVerdict(responseType) == "approve" then "approve_full" else "deny"
  }

  /** What a live answer that is stored has passed. */
  lemma LiveAnswerGuards(t: Task, e: Event)
    requires e.RespondsLive? && Step(t, e) != t
    ensures IsWaiting(t) && t.input.value.live && t.input.value.inputId == e.inputId
            && e.activeRun == Some(t.input.value.runId) && e.now < t.input.value.deadline
            && LiveVerdict(e.responseType) in {"approve", "deny"} && t.elevation.Some?
    ensures var decided := DecideLive(t, t.input.value, LiveDecision(e.responseType), DenialSource(e.responseType, e.message), e.now);
            decided.Ok? && Step(t, e).elevation == decided.value.elevation
  {
    hide DecideLive, LiveVerdict, Strip, DenialSource;
  }

  lemma LiveAnswerApproves(t: Task, e: Event)
    requires Lockstep(t) && e.RespondsLive? && !IsApproved(t) && IsApproved(Step(t, e))
    ensures Approves(t, e)
  {
    hide Step, InStep, DecideBoth, Normal, Strip, DenialSource, LiveVerdict;
    LiveAnswerGuards(t, e);
    UndecidedStatus(t);
    var decision := LiveDecision(e.responseType);
    PlainIsNormal("approve_full");
    PlainIsNormal("deny");
    DecideKeeps(t, t.input.value, decision, DenialSource(e.responseType, e.message), e.now);
  }

  lemma AnswerApproves(t: Task, e: Event)
    requires Lockstep(t) && e.Responds? && !IsApproved(t) && IsApproved(Step(t, e))
    ensures Approves(t, e)
  {
    hide InStep, DecideBoth, Normal, Strip, DenialSource, IsBlockedStep, UnblockSteps;
    UndecidedStatus(t);
    var response := Strip(e.responseType);
    var source := DenialSource(response, e.message);
    PlainIsNormal("approve_full");
    PlainIsNormal("deny");
    if DecideBoth(t, t.input.value, response, source, e.now).Ok? {
      DecideKeeps(t, t.input.value, response, source, e.now);
    }
  }

  lemma ExpiryNeverApproves(t: Task, now: nat)
    requires Lockstep(t) && !IsApproved(t)
    ensures !IsApproved(Expire(t, now).0)
  {
    hide InStep, DecideBoth, Normal;
    if IsWaiting(t) {
      UndecidedStatus(t);
      var i := t.input.value;
      var model := t.(input := Some(Answered(i, "deny")));
      PlainIsNormal("deny");
      if DecideBoth(model, i, "deny", "timeout", now).Ok? {
        DecideKeeps(model, i, "deny", "timeout", now);
      }
    }
  }

  lemma BlockNeverApproves(t: Task, request: Block, s: Surroundings)
    requires Lockstep(t) && !IsApproved(t)
    ensures !IsApproved(BlockTask(t, request, s).0)
  {
    hide InStep, Cleaned, BlockError, SameIdentity, V3.Build, PE.Build, PE.Valid, FactsOf, FirstIncomplete,
         BlockSteps, IsOpen, Ineffective;
    var b := Cleaned(request, s);
    if t.elevation.None? && BlockFirst(t, b, s).1.Ok? {
      PE.BuiltIsKept(s.elevationId, FactsOf(t, b, VersionOr(b.authorityVersion, 1)), Missing, s.now);
    }
  }

  lemma OthersNeverApprove(t: Task, e: Event)
    requires Lockstep(t) && !IsApproved(t) && !e.RespondsLive? && !e.Responds?
    ensures !IsApproved(Step(t, e))
  {
    hide InStep, BlockTask, Expire, V3.Continue, V3.Valid, PE.Activate, PE.Verify, PE.Notify, V3.Notify, PE.Valid,
         V3.Kept, PE.Kept;
    if t.elevation.Some? {
      UndecidedStatus(t);
    }
    match e {
      case Blocks(block, surroundings) => BlockNeverApproves(t, block, surroundings);
      case Expires(now) => ExpiryNeverApproves(t, now);
      case Notifies =>
        if t.elevation.Some? {
          NotifyInStep(t.approval.value, t.elevation.value);
        }
      case Verifies(runId, sessionId) =>
        if t.elevation.Some? && PE.Verify(t.elevation.value, runId, sessionId).Ok? {
          VerifyInStep(t.approval.value, t.elevation.value, runId, sessionId);
        }
      case _ =>
    }
  }

  /** Whenever the elevation of a run is approved, active, verified or blocked, a human had approved it in time. */
  lemma {:induction false} FullPermissionNeedsAnAnswer(t: Task, events: seq<Event>)
    requires IsUntouched(t) && IsApproved(Run(t, events))
    ensures exists k :: 0 <= k < |events| && Approves(Run(t, events[..k]), events[k])
    decreases |events|
  {
    hide Step, Lockstep, Approves;
    if events != [] {
      var n := |events| - 1;
      var init, last := events[..n], events[n];
      var before := Run(t, init);
      if IsApproved(before) {
        FullPermissionNeedsAnAnswer(t, init);
        var k :| 0 <= k < |init| && Approves(Run(t, init[..k]), init[k]);
        assert init[..k] == events[..k] && init[k] == events[k];
        assert Approves(Run(t, events[..k]), events[k]);
      } else {
        UntouchedIsInStep(t);
        EveryRunStaysInStep(t, init);
        if last.RespondsLive? {
          LiveAnswerApproves(before, last);
        } else if last.Responds? {
          AnswerApproves(before, last);
        } else {
          OthersNeverApprove(before, last);
        }
        assert Approves(Run(t, events[..n]), events[n]);
      }
    }
  }

  /** What a run records of its full continuation: one run and one session, for good. */
  lemma OneContinuation(t: Task, events: seq<Event>, more: seq<Event>)
    requires Lockstep(t)
    requires var u := Run(t, events); u.elevation.Some? && u.elevation.value.status in {PE.Active, PE.Verified}
    ensures var e := Run(t, events).elevation.value;
            var later := Run(Run(t, events), more);
            e.continuation.count == 1 && later.elevation.Some? && later.approval.Some?
            && later.elevation.value.continuation == e.continuation && later.approval.value.continuation == e.continuation
            && later.elevation.value.elevationId == e.elevationId && later.elevations == 1
            && later.elevation.value.status in {PE.Active, PE.Verified, PE.Blocked}
  {
    hide Run, V3.Kept, PE.Kept;
    EveryRunStaysInStep(t, events);
    EveryRunStaysInStep(Run(t, events), more);
  }

  /** Once the notice is reserved it stays reserved: nobody can win it again. */
  lemma NoticeIsWonOnce(t: Task, events: seq<Event>)
    requires Lockstep(t) && t.elevation.Some? && t.elevation.value.cardinality.notifications == 1
    ensures var u := Run(t, events); u.elevation.Some? && u.elevation.value.cardinality.notifications == 1
  {
    hide Run, V3.Kept, PE.Valid;
    EveryRunStaysInStep(t, events);
    CountsOfKept(Run(t, events).elevation.value);
  }

  // -- answers that are told but not stored

  /**
    An accepted answer is stored, unless it is a denial of a task that is
    closing: that one is told as accepted and the request keeps waiting.
  */
  lemma AnswerIsStoredUnlessClosing(t: Task, inputId: nat, responseType: string, message: string, chainIsHead: bool,
                                    leaseQuiet: bool, now: nat)
    requires Respond(t, inputId, responseType, message, chainIsHead, leaseQuiet, now).1.Ok?
    requires Respond(t, inputId, responseType, message, chainIsHead, leaseQuiet, now).1.value.Accepted?
    ensures var (u, answer) := Respond(t, inputId, responseType, message, chainIsHead, leaseQuiet, now);
            IsWaiting(t)
            && (IsWaiting(u) <==> t.closing && answer.value.decision == "deny")
            && (IsWaiting(u) ==> u == t)
            && (!IsWaiting(u) ==> u.input.value.answer == answer.value.decision)
  {
    hide V3.Decide, PE.Decide, Strip, IsBlockedStep, UnblockSteps, DenialSource;
  }

  // -- replayed blocks

  /** The text is stored as it was said. */
  predicate StoredAsSaid(text: string, limit: nat) {
    text == "" || Clip(text, limit) == text
  }

  /**
    The adapter may repeat a block while it waits. The repetition is recognised
    exactly when it names its request and every identity it names is stored as
    it was said: a request without an id is a new one, and a name with
    surrounding space, or longer than is kept, contradicts its own record. The
    derived fingerprint is the same both times, since the request is.
  */
  lemma ReplayedBlockIff(t: Task, request: Block, s: Surroundings, again: Surroundings)
    requires Lockstep(t) && t.elevation.None? && BlockTask(t, request, s).1.Ok?
    requires again.chainIsHead && again.sessionSound && again.derivedFingerprint == s.derivedFingerprint
    ensures var u := BlockTask(t, request, s).0;
            BlockTask(u, request, again).1.Ok? <==>
              (Strip(request.requestId) != "" || again.freshRequestId == s.freshRequestId)
              && StoredAsSaid(request.inputFingerprint, 160) && StoredAsSaid(request.toolName, 512)
              && StoredAsSaid(request.toolUseId, 512) && StoredAsSaid(request.actionFingerprint, 512)
              && StoredAsSaid(request.controlPath, 512) && StoredAsSaid(request.nativeEvent, 512)
    ensures var u := BlockTask(t, request, s).0;
            BlockTask(u, request, again).1.Ok? ==> BlockTask(u, request, again) == (u, Ok(InputIs(t.inputs, true)))
  {
    hide InStep, Strip, Clip, Normal, V3.Build, PE.Build, FirstIncomplete, BlockSteps, IsOpen, FactsOf, StepToBlock, VersionOr,
         PE.Block, PE.Valid, Recovering, Ineffective, V3.Kept;
    var u := BlockTask(t, request, s).0;
    var b, b' := Cleaned(request, s), Cleaned(request, again);
    assert b' == b.(requestId := b'.requestId);
    assert BlockError(u, b', again) == "";
    assert u.input == Some(NewInput(t, b, s, StepToBlock(b, t.steps).value));
  }
}
