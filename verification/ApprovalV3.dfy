/**
  The v3 approval receipt: the one human decision of a task elevation, its
  notification, and its full continuation
  (src/agent_bridge_connect/approval.py:1124-1496).
*/
module ApprovalV3 {
  import opened Outcomes
  import opened Text
  import opened Clock
  import opened NativeRequest

  datatype Decision = Decision(kind: string, source: string, at: Stamp)

  const NO_DECISION := Decision("", "", Missing)

  /** A receipt; `answered` is its state. */
  datatype Receipt = Receipt(
    facts: Facts, profileDigest: string, cardinality: Cardinality, continuation: Continuation,
    answered: bool, decision: Decision, createdAt: Stamp)

  predicate IsDecision(kind: string) {
    kind == "approve_full" || kind == "deny"
  }

  // ------------------------------------------------------------ validation

  predicate FactsOk(f: Facts, profileDigest: string) {
    var b := f.binding;
    IsIdentifier(b.taskId) && IsIdentifier(b.runId) && IsIdentifier(b.requestId) && IsIdentifier(b.fingerprint)
    && IsIdentifier(Normal(b.executor)) && IsIdentifier(b.sessionId)
    && IsOperation(Strip(f.operation))
    && IsOptionalDigest(b.pathPlanDigest) && IsOptionalDigest(profileDigest)
    && Normal(f.authority.executor) == Normal(b.executor)
    && IsIdentifier(Strip(f.authority.protocol)) && IsOperation(Strip(f.authority.methodName))
    && ProvenanceOk(f.provenance)
    && f.containment.mode == f.mode
    && (f.mode == ContainedFull ==>
          f.containment.profileDigest == profileDigest && f.containment.pathPlanDigest == b.pathPlanDigest)
    && (f.mode == Full ==> f.containment.policy == NativePolicy)
  }

  predicate DecisionOk(r: Receipt) {
    var kind, source := Normal(r.decision.kind), Normal(r.decision.source);
    r.createdAt.At?
    && if !r.answered then kind == "" && source == "" && r.decision.at.Missing? && r.continuation.count == 0
       else
         IsDecision(kind) && IsDecisionSource(source)
         && r.decision.at.At? && r.decision.at.instant >= r.createdAt.instant
         && (kind == "deny" ==> r.continuation.count == 0)
  }

  /** `validate_approval_receipt_v3` accepts the receipt. */
  predicate Valid(r: Receipt) {
    FactsOk(r.facts, r.profileDigest)
    && CountsOk(r.cardinality) && ContinuationOk(r.continuation)
    && r.cardinality.fullContinuations == r.continuation.count
    && DecisionOk(r)
  }

  function Validated(r: Receipt): Result<Receipt> {
    if Valid(r) then Ok(r) else Err("approval_invalid")
  }

  /** `build_approval_receipt_v3`, on facts that are put together already. */
  function Build(f: Facts, profileDigest: string, createdAt: Stamp, now: nat): Result<Receipt> {
    Validated(Receipt(f, profileDigest, FRESH_CARDINALITY, NO_CONTINUATION, false, NO_DECISION, OrNow(createdAt, now)))
  }

  /** The bindings a caller expects; the path plan is never one of them. */
  predicate Bound(r: Receipt, expected: Binding) {
    var b := r.facts.binding;
    Normal(b.executor) == Normal(expected.executor) && b.taskId == Strip(expected.taskId) && b.runId == Strip(expected.runId)
    && b.sessionId == Strip(expected.sessionId) && b.requestId == Strip(expected.requestId)
    && b.fingerprint == Strip(expected.fingerprint)
  }

  // ------------------------------------------------------------ the three writes

  function Decided(r: Receipt, kind: string, source: string, at: Stamp): Receipt {
    r.(answered := true, decision := Decision(kind, source, at), cardinality := r.cardinality.(humanDecisions := 1))
  }

  /** `record_approval_decision_v3`; without expected bindings none is compared. */
  function Decide(r: Receipt, decision: string, source: string, at: Stamp, now: nat, expected: Option<Binding>): Result<Receipt> {
    var kind, from := Normal(decision), Normal(source);
    if !Valid(r) then Err("approval_invalid")
    else if expected.Some? && !Bound(r, expected.value) then Err("approval_binding_mismatch")
    else if !IsDecision(kind) || !IsDecisionSource(from) then Err("approval_decision_invalid")
    else if r.answered then
      if r.decision.kind == kind && r.decision.source == from then Ok(r) else Err("approval_replay")
    else Validated(Decided(r, kind, from, OrNow(at, now)))
  }

  function Continued(r: Receipt, runId: string, sessionId: string): Receipt {
    r.(continuation := Continuation(1, runId, sessionId), cardinality := r.cardinality.(fullContinuations := 1))
  }

  /** `record_approval_full_continuation` */
  function Continue(r: Receipt, runId: string, sessionId: string): Result<Receipt> {
    if !Valid(r) then Err("approval_invalid")
    else if r.decision.kind != "approve_full" then Err("approval_continuation_invalid")
    else if !IsIdentifier(runId) || !IsIdentifier(sessionId) then Err("approval_invalid")
    else if r.continuation.count == 1 then
      if r.continuation.runId == runId && r.continuation.sessionId == sessionId then Ok(r) else Err("approval_replay")
    else Validated(Continued(r, runId, sessionId))
  }

  /** `record_approval_notification` */
  function Notify(r: Receipt): Result<Receipt> {
    if !Valid(r) then Err("approval_invalid")
    else if r.cardinality.notifications == 1 then Ok(r)
    else Validated(r.(cardinality := r.cardinality.(notifications := 1)))
  }

  // ------------------------------------------------------------ runs

  datatype Command =
    | ToDecide(decision: string, source: string, at: Stamp, now: nat, expected: Option<Binding>)
    | ToContinue(runId: string, sessionId: string)
    | ToNotify

  function Apply(r: Receipt, c: Command): Result<Receipt> {
    match c
    case ToDecide(decision, source, at, now, expected) => Decide(r, decision, source, at, now, expected)
    case ToContinue(runId, sessionId) => Continue(r, runId, sessionId)
    case ToNotify => Notify(r)
  }

  /** A command that raises leaves the receipt as it was. */
  function Step(r: Receipt, c: Command): Receipt {
    var outcome := Apply(r, c);
    if outcome.Ok? then outcome.value else r
  }

  function Run(r: Receipt, commands: seq<Command>): Receipt
    decreases |commands|
  {
    if commands == [] then r else Run(Step(r, commands[0]), commands[1..])
  }

  /** A receipt as the three writes leave it: valid, and every counter counts what happened. */
  predicate Kept(r: Receipt) {
    Valid(r)
    && r.cardinality.humanDecisions == (if r.answered then 1 else 0)
    && (r.answered ==> IsDecision(r.decision.kind) && IsDecisionSource(r.decision.source))
    && (r.continuation.count == 1 ==>
          r.decision.kind == "approve_full" && IsIdentifier(r.continuation.runId) && IsIdentifier(r.continuation.sessionId))
  }

  /** What time does to a receipt: bindings fixed, counters up, a decision and a continuation made once. */
  predicate Grows(a: Receipt, b: Receipt) {
    b.facts == a.facts && b.profileDigest == a.profileDigest && b.createdAt == a.createdAt
    && a.cardinality.notifications <= b.cardinality.notifications
    && a.cardinality.humanDecisions <= b.cardinality.humanDecisions
    && a.cardinality.fullContinuations <= b.cardinality.fullContinuations
    && (a.answered ==> b.answered && b.decision == a.decision)
    && (a.continuation.count == 1 ==> b.continuation == a.continuation)
  }

  lemma BuiltIsKept(f: Facts, profileDigest: string, createdAt: Stamp, now: nat)
    requires Build(f, profileDigest, createdAt, now).Ok?
    ensures var r := Build(f, profileDigest, createdAt, now).value;
            Kept(r) && !r.answered && r.facts == f && r.cardinality == FRESH_CARDINALITY && r.continuation == NO_CONTINUATION
  {
    hide FactsOk, DecisionOk;
  }

  lemma PlainWordsAreNormal()
    ensures Normal("") == "" && Normal("approve_full") == "approve_full" && Normal("deny") == "deny"
  {
    hide Normal;
    PlainIsNormal("");
    PlainIsNormal("approve_full");
    PlainIsNormal("deny");
  }

  lemma StepKeeps(r: Receipt, c: Command)
    requires Kept(r)
    ensures Kept(Step(r, c)) && Grows(r, Step(r, c))
  {
    hide FactsOk, Normal, Strip, IsIdentifier, IsDecision, IsDecisionSource, Bound;
    PlainWordsAreNormal();
    if c.ToDecide? {
      NormalIsNormal(c.decision);
      NormalIsNormal(c.source);
    }
    PendingIsNoApproval(r);
  }

  lemma PendingIsNoApproval(r: Receipt)
    requires Valid(r)
    ensures r.decision.kind == "approve_full" ==> r.answered
  {
    hide FactsOk, Normal;
    PlainWordsAreNormal();
  }

  /**
    Every receipt that notifying, deciding and continuing can reach, in any
    order and however often: valid, its counters at most one and true, answered
    exactly with its one decision, continued only after approve_full.
  */
  lemma {:induction false} EveryRunIsKept(r: Receipt, commands: seq<Command>)
    requires Kept(r)
    ensures Kept(Run(r, commands)) && Grows(r, Run(r, commands))
    decreases |commands|
  {
    hide Kept, Step;
    if commands != [] {
      var next := Step(r, commands[0]);
      StepKeeps(r, commands[0]);
      EveryRunIsKept(next, commands[1..]);
    }
  }

  // ------------------------------------------------------------ replays

  /** The command says what the receipt already holds. */
  predicate Repeats(r: Receipt, c: Command) {
    match c
    case ToDecide(decision, source, _, _, _) => r.answered && r.decision.kind == Normal(decision) && r.decision.source == Normal(source)
    case ToContinue(runId, sessionId) => r.continuation == Continuation(1, runId, sessionId)
    case ToNotify => r.cardinality.notifications == 1
  }

  /** The command says otherwise than what the receipt already holds. */
  predicate Contradicts(r: Receipt, c: Command) {
    match c
    case ToDecide(decision, source, _, _, _) => r.answered && !(r.decision.kind == Normal(decision) && r.decision.source == Normal(source))
    case ToContinue(runId, sessionId) => r.continuation.count == 1 && r.continuation != Continuation(1, runId, sessionId)
    case ToNotify => false
  }

  lemma SuccessRepeats(r: Receipt, c: Command)
    requires Apply(r, c).Ok?
    ensures Repeats(Apply(r, c).value, c)
  {
    hide FactsOk, DecisionOk, Normal, Bound;
  }

  lemma RepeatsStays(a: Receipt, b: Receipt, c: Command)
    requires Kept(a) && Kept(b) && Grows(a, b) && Repeats(a, c)
    ensures Repeats(b, c)
  {
    hide FactsOk, DecisionOk, Normal;
  }

  /** A repeated command is refused or changes nothing, a contradicting one is refused. */
  lemma ReplayDecides(r: Receipt, c: Command)
    requires Kept(r)
    ensures Repeats(r, c) ==> Step(r, c) == r
    ensures Contradicts(r, c) ==> Apply(r, c).Err?
  {
    hide FactsOk, DecisionOk, Normal, Bound;
  }

  /** An exact replay, at whatever later time, succeeds and changes nothing. */
  lemma ExactReplayIsNoOp(r: Receipt, c: Command, between: seq<Command>)
    requires Kept(r) && Apply(r, c).Ok?
    ensures var later := Run(Apply(r, c).value, between);
            Apply(later, c) == Ok(later)
  {
    hide FactsOk, DecisionOk, Normal, Bound, IsIdentifier, Apply, Kept, Grows, Run;
    var first := Apply(r, c).value;
    StepKeeps(r, c);
    SuccessRepeats(r, c);
    EveryRunIsKept(first, between);
    var later := Run(first, between);
    RepeatsStays(first, later, c);
    SuccessBinds(r, c);
    GrownIsBound(r, first, later, c);
    RepeatSucceeds(later, c);
  }

  /** What the command must find besides the state it repeats. */
  predicate Admissible(r: Receipt, c: Command) {
    match c
    case ToDecide(decision, source, _, _, expected) =>
      (expected.Some? ==> Bound(r, expected.value)) && IsDecision(Normal(decision)) && IsDecisionSource(Normal(source))
    case ToContinue(runId, sessionId) => IsIdentifier(runId) && IsIdentifier(sessionId)
    case ToNotify => true
  }

  lemma SuccessBinds(r: Receipt, c: Command)
    requires Apply(r, c).Ok?
    ensures Admissible(r, c)
  {
    hide FactsOk, DecisionOk, Normal, Bound, IsIdentifier, IsDecision, IsDecisionSource;
  }

  lemma GrownIsBound(r: Receipt, first: Receipt, later: Receipt, c: Command)
    requires Grows(r, first) && Grows(first, later) && Admissible(r, c)
    ensures Admissible(later, c)
  {
    hide Normal, Strip;
  }

  lemma RepeatSucceeds(r: Receipt, c: Command)
    requires Kept(r) && Repeats(r, c) && Admissible(r, c)
    ensures Apply(r, c) == Ok(r)
  {
    hide FactsOk, DecisionOk, Normal, Bound;
  }

  // ------------------------------------------------------------ notifying commutes

  function Notified(r: Receipt): Receipt {
    r.(cardinality := r.cardinality.(notifications := 1))
  }

  lemma NotifySucceeds(r: Receipt)
    requires Kept(r)
    ensures Notify(r) == Ok(Notified(r))
    ensures 0 <= r.cardinality.notifications <= 1
  {
    hide FactsOk, Normal, IsIdentifier;
  }

  /** Every command does to a notified receipt what it does to the receipt. */
  lemma NotifiedAlike(r: Receipt, c: Command)
    requires Kept(r)
    ensures Apply(Notified(r), c).Ok? <==> Apply(r, c).Ok?
    ensures Apply(r, c).Ok? ==> Apply(Notified(r), c).value == Notified(Apply(r, c).value)
  {
    hide FactsOk, DecisionOk, Normal, IsIdentifier, IsDecision, IsDecisionSource;
    SameFactsSameDecision(r, Notified(r));
    match c {
      case ToDecide(decision, source, at, now, _) =>
        var decided := Decided(r, Normal(decision), Normal(source), OrNow(at, now));
        SameFactsSameDecision(decided, Notified(decided));
      case ToContinue(runId, sessionId) =>
        var continued := Continued(r, runId, sessionId);
        SameFactsSameDecision(continued, Notified(continued));
      case ToNotify =>
    }
  }

  lemma SameFactsSameDecision(a: Receipt, b: Receipt)
    requires b == a.(cardinality := b.cardinality)
    ensures DecisionOk(a) <==> DecisionOk(b)
  {
    hide Normal, IsDecision, IsDecisionSource;
  }

  /** Whether the user is notified before or after a decision or a continuation makes no difference. */
  lemma NotifyCommutes(r: Receipt, c: Command)
    requires Kept(r)
    ensures Step(Step(r, c), ToNotify) == Step(Step(r, ToNotify), c)
    ensures Apply(r, c).Ok? <==> Apply(Step(r, ToNotify), c).Ok?
  {
    hide Kept, Notify, Decide, Continue;
    StepKeeps(r, c);
    NotifySucceeds(r);
    NotifySucceeds(Step(r, c));
    NotifiedAlike(r, c);
  }

  // ------------------------------------------------------------ what the validator does not tie

  /** The validator does not tie the counter of decisions to the decision: it accepts either value. */
  lemma ValidatorIgnoresDecisionCount(r: Receipt)
    requires Valid(r)
    ensures Valid(r.(cardinality := r.cardinality.(humanDecisions := 1 - r.cardinality.humanDecisions)))
  {
    hide FactsOk, Normal;
  }
}
