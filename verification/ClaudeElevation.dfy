/**
  The redacted receipt of Claude's same-session elevation: how it is built, how
  it is validated, and how one transition or dialog mark changes it
  (src/agent_bridge_connect/claude_elevation.py).
*/
module ClaudeElevation {
  import opened Outcomes
  import opened Text
  import opened Clock

  datatype Status = SafeDefault | Pending | ResponseReady | Active | Denied | Blocked

  datatype Binding = Binding(
    taskId: string, runId: string, sessionId: string, requestId: string, toolUseId: string,
    requestFingerprint: string, inputFingerprint: string, actionFingerprint: string, operation: string)

  datatype Hop = Hop(from: Status, to: Status, at: Stamp)

  datatype Decision = Decision(kind: string, source: string, at: Stamp)

  datatype Cardinality = Cardinality(
    permissionRequests: int, dialogs: int, humanDecisions: int, setModeUpdates: int, protocolAnomalies: int)

  datatype Receipt = Receipt(
    elevationId: string, status: Status, errorCode: string, binding: Binding,
    pathPlanDigest: string, profileDigest: string,
    decision: Decision, history: seq<Hop>, cardinality: Cardinality,
    createdAt: Stamp, updatedAt: Stamp)

  // ------------------------------------------------------------ the two edge tables

  /** The validator's table: what may follow `from` in a history. */
  predicate MayFollow(from: Status, to: Status) {
    match from
    case SafeDefault => to == Pending
    case Pending => to == ResponseReady || to == Denied || to == Blocked
    case ResponseReady => to == Active || to == Blocked
    case Active => to == Blocked
    case Denied => to == Blocked
    case Blocked => false
  }

  /** The transition function's table: from where `to` may be entered. */
  predicate MayEnter(to: Status, from: Status) {
    match to
    case SafeDefault => false
    case Pending => from == SafeDefault
    case ResponseReady => from == Pending
    case Active => from == ResponseReady
    case Denied => from == Pending
    case Blocked => from == Pending || from == ResponseReady || from == Active || from == Denied
  }

  // ------------------------------------------------------------ histories

  /** The history is a walk through the graph, starting at `from`. */
  predicate IsWalk(from: Status, history: seq<Hop>) {
    history == []
    || (var init, hop := history[..|history| - 1], history[|history| - 1];
        IsWalk(from, init) && hop.from == EndOf(from, init) && MayFollow(hop.from, hop.to))
  }

  function EndOf(from: Status, history: seq<Hop>): Status {
    if history == [] then from else history[|history| - 1].to
  }

  predicate Visited(history: seq<Hop>, s: Status) {
    exists hop <- history :: hop.to == s
  }

  /** How far a status is from the start of the protocol. */
  function Depth(s: Status): nat {
    match s
    case SafeDefault => 0
    case Pending => 1
    case ResponseReady => 2
    case Denied => 2
    case Active => 3
    case Blocked => 4
  }

  /** Every walk from the base state is short: the validator's bound of four never cuts one off. */
  lemma {:induction false} WalkIsShort(history: seq<Hop>)
    requires IsWalk(SafeDefault, history)
    ensures |history| <= Depth(EndOf(SafeDefault, history)) <= 4
  {
    if history != [] {
      WalkIsShort(history[..|history| - 1]);
    }
  }

  lemma {:induction false} PrefixOfWalk(history: seq<Hop>, n: nat)
    requires n <= |history|
    ensures IsWalk(SafeDefault, history) ==> IsWalk(SafeDefault, history[..n])
  {
    if n == |history| {
      assert history[..n] == history;
    } else {
      PrefixOfWalk(history[..|history| - 1], n);
      assert history[..|history| - 1][..n] == history[..n];
    }
  }

  /** The scan of the validator: a running `previous`, refusing the first hop that does not fit. */
  method ScanHistory(history: seq<Hop>) returns (end: Option<Status>)
    ensures end.Some? <==> |history| <= 4 && IsWalk(SafeDefault, history)
    ensures end.Some? ==> end.value == EndOf(SafeDefault, history)
  {
    if |history| > 4 {
      return None;
    }
    var previous := SafeDefault;
    for i := 0 to |history|
      invariant IsWalk(SafeDefault, history[..i])
      invariant previous == EndOf(SafeDefault, history[..i])
    {
      var item := history[i];
      assert history[..i + 1][..i] == history[..i];
      if item.from != previous || !MayFollow(previous, item.to) {
        PrefixOfWalk(history, i + 1);
        return None;
      }
      previous := item.to;
    }
    assert history[..|history|] == history;
    end := Some(previous);
  }

  // ------------------------------------------------------------ validation

  predicate BindingOk(b: Binding) {
    IsIdentifier(b.taskId) && IsIdentifier(b.runId) && IsIdentifier(b.sessionId)
    && IsIdentifier(b.requestId) && IsIdentifier(b.toolUseId) && IsIdentifier(b.operation)
    && IsFingerprint(b.requestFingerprint) && IsDigest(b.inputFingerprint) && IsFingerprint(b.actionFingerprint)
  }

  predicate IsCount(n: int) {
    0 <= n <= 1
  }

  function CheckDecision(r: Receipt): Result<Receipt> {
    var kind := r.decision.kind;
    if kind != "" && kind != "approve" && kind != "deny" then Err("claude_elevation_decision_invalid")
    else if r.status in {ResponseReady, Active} && kind != "approve" then Err("claude_elevation_state_invalid")
    else if r.status == Denied && kind != "deny" then Err("claude_elevation_state_invalid")
    else if kind != "" && !IsIdentifier(r.decision.source) then Err("claude_elevation_decision_invalid")
    else Ok(r)
  }

  function ExpectedSetModeUpdates(r: Receipt): int {
    if r.status in {ResponseReady, Active} || (r.status == Blocked && r.decision.kind == "approve") then 1 else 0
  }

  predicate CardinalityOk(r: Receipt) {
    var c := r.cardinality;
    IsCount(c.dialogs)
    && c.permissionRequests == 1
    && c.humanDecisions == (if r.decision.kind != "" then 1 else 0)
    && c.setModeUpdates == ExpectedSetModeUpdates(r)
    && c.protocolAnomalies == (if r.status == Blocked then 1 else 0)
  }

  /** `validate_claude_elevation_receipt`: the receipt itself, or the code of the first failing check. */
  function Validate(r: Receipt): Result<Receipt> {
    if !IsIdentifier(r.elevationId) || !BindingOk(r.binding) then Err("claude_elevation_binding_invalid")
    else if !IsDigest(r.pathPlanDigest) || !IsDigest(r.profileDigest) then Err("claude_elevation_containment_invalid")
    else if |r.history| > 4 || !IsWalk(SafeDefault, r.history) then Err("claude_elevation_transition_invalid")
    else if EndOf(SafeDefault, r.history) != r.status then Err("claude_elevation_transition_invalid")
    else
      var checked := CheckDecision(r);
      if checked.Err? then checked
      else if !CardinalityOk(r) then Err("claude_elevation_cardinality_invalid")
      else if !r.createdAt.At? || !r.updatedAt.At? then Err("claude_elevation_audit_invalid")
      else Ok(r)
  }

  predicate Valid(r: Receipt) {
    Validate(r).Ok?
  }

  // ------------------------------------------------------------ operations

  const NO_DECISION := Decision("", "", Missing)

  function StripBinding(b: Binding): Binding {
    Binding(Strip(b.taskId), Strip(b.runId), Strip(b.sessionId), Strip(b.requestId), Strip(b.toolUseId),
            Strip(b.requestFingerprint), Strip(b.inputFingerprint), Strip(b.actionFingerprint), Strip(b.operation))
  }

  /** `build_claude_elevation_receipt` */
  function Build(elevationId: string, b: Binding, pathPlanDigest: string, profileDigest: string, now: nat): Result<Receipt> {
    Validate(Receipt(elevationId, SafeDefault, "", StripBinding(b), Strip(pathPlanDigest), Strip(profileDigest),
                     NO_DECISION, [], Cardinality(1, 0, 0, 0, 0), At(now), At(now)))
  }

  /** The receipt after a hop to `target`, before it is validated again. */
  function Advanced(r: Receipt, target: Status, decision: string, source: string, errorCode: string, stamp: Stamp): Receipt {
    var decided := decision != "";
    r.(status := target,
       errorCode := Strip(errorCode),
       history := r.history + [Hop(r.status, target, stamp)],
       decision := if decided then Decision(Lower(Strip(decision)), Lower(Strip(source)), stamp) else r.decision,
       cardinality := r.cardinality.(
         humanDecisions := if decided then 1 else r.cardinality.humanDecisions,
         setModeUpdates := if target == ResponseReady then 1 else r.cardinality.setModeUpdates,
         protocolAnomalies := if target == Blocked then 1 else r.cardinality.protocolAnomalies),
       updatedAt := stamp)
  }

  /** `transition_claude_elevation` */
  function Transition(r: Receipt, target: Status, decision: string, source: string, errorCode: string,
                            at: Stamp, now: nat): Result<Receipt> {
    if !Valid(r) then Validate(r)
    else if r.status == target then Ok(r)
    else if r.status != SafeDefault && target == Pending then Err("claude_elevation_replay")
    else if !MayEnter(target, r.status) then Err("claude_elevation_state_invalid")
    else Validate(Advanced(r, target, decision, source, errorCode, OrNow(at, now)))
  }

  /** `record_claude_elevation_dialog` */
  function RecordDialog(r: Receipt, now: nat): Result<Receipt> {
    if !Valid(r) then Validate(r)
    else if r.cardinality.dialogs == 1 then Ok(r)
    else if r.status != Pending then Err("claude_elevation_state_invalid")
    else Validate(r.(cardinality := r.cardinality.(dialogs := 1), updatedAt := At(now)))
  }

  // ------------------------------------------------------------ one transition

  /** The two tables the source keeps describe one graph. */
  lemma EdgeTablesAgree(from: Status, to: Status)
    ensures MayFollow(from, to) <==> MayEnter(to, from)
  {
  }

  lemma WalkExtends(history: seq<Hop>, hop: Hop)
    requires IsWalk(SafeDefault, history)
    requires hop.from == EndOf(SafeDefault, history) && MayFollow(hop.from, hop.to)
    ensures IsWalk(SafeDefault, history + [hop])
    ensures EndOf(SafeDefault, history + [hop]) == hop.to
    ensures |history + [hop]| <= 4
  {
    assert (history + [hop])[..|history|] == history;
    WalkIsShort(history + [hop]);
  }

  /** What no operation changes. */
  predicate SameIdentity(r: Receipt, r': Receipt) {
    r'.elevationId == r.elevationId && r'.binding == r.binding && r'.createdAt == r.createdAt
    && r'.pathPlanDigest == r.pathPlanDigest && r'.profileDigest == r.profileDigest
  }

  /**
    A transition that succeeds leaves a valid receipt with the same identity
    whose history is the old one, extended by at most the one hop asked for; a
    decision is written only by a transition that carries one.
  */
  lemma TransitionIsMonotone(r: Receipt, target: Status, decision: string, source: string, code: string, at: Stamp, now: nat)
    requires Transition(r, target, decision, source, code, at, now).Ok?
    ensures var r' := Transition(r, target, decision, source, code, at, now).value;
            Valid(r) && Valid(r') && SameIdentity(r, r') && r'.status == target
            && (r' == r || r'.history == r.history + [Hop(r.status, target, OrNow(at, now))])
            && (r' == r <==> r.status == target)
            && (decision == "" ==> r'.decision == r.decision)
  {
    hide IsIdentifier, IsDigest, IsFingerprint, IsWalk, Strip, Lower;
    if r.status != target {
      assert Advanced(r, target, decision, source, code, OrNow(at, now)).history != r.history;
    }
  }

  // ------------------------------------------------------------ the transport's call pattern

  /** The calls the transport makes: a decision only together with response-ready or denied. */
  datatype Command = AskHuman | Approve | Deny | Activate | Block(code: string) | ShowDialog

  function TargetOf(c: Command): Status
    requires !c.ShowDialog?
  {
    match c
    case AskHuman => Pending
    case Approve => ResponseReady
    case Deny => Denied
    case Activate => Active
    case Block(_) => Blocked
  }

  function Perform(r: Receipt, c: Command, now: nat): Result<Receipt> {
    match c
    case Approve => Transition(r, ResponseReady, "approve", "user", "", Missing, now)
    case Deny => Transition(r, Denied, "deny", "user", "", Missing, now)
    case Block(code) => Transition(r, Blocked, "", "", code, Missing, now)
    case ShowDialog => RecordDialog(r, now)
    case _ => Transition(r, TargetOf(c), "", "", "", Missing, now)
  }

  /** Commands one after another; a refused one leaves the receipt as it was. */
  ghost function PerformAll(r: Receipt, commands: seq<(Command, nat)>): Receipt
    decreases |commands|
  {
    if commands == [] then r
    else
      var before := PerformAll(r, commands[..|commands| - 1]);
      var last := commands[|commands| - 1];
      var after := Perform(before, last.0, last.1);
      if after.Ok? then after.value else before
  }

  /** The counters and the decision say exactly which statuses the history has been through. */
  ghost predicate Faithful(r: Receipt) {
    Valid(r)
    && (r.cardinality.setModeUpdates == 1 <==> Visited(r.history, ResponseReady))
    && (r.cardinality.protocolAnomalies == 1 <==> Visited(r.history, Blocked))
    && (r.decision.kind == "approve" <==> Visited(r.history, ResponseReady))
    && (r.decision.kind == "deny" <==> Visited(r.history, Denied))
    && (r.decision.kind != "" ==> r.decision.source == "user")
  }

  lemma VisitedExtends(history: seq<Hop>, hop: Hop, s: Status)
    ensures Visited(history + [hop], s) <==> Visited(history, s) || hop.to == s
  {
  }

  lemma BuiltIsFaithful(elevationId: string, b: Binding, pathPlanDigest: string, profileDigest: string, now: nat)
    requires Build(elevationId, b, pathPlanDigest, profileDigest, now).Ok?
    ensures var r := Build(elevationId, b, pathPlanDigest, profileDigest, now).value;
            Faithful(r) && r.status == SafeDefault && r.history == []
  {
    hide IsIdentifier, IsDigest, IsFingerprint, Strip;
  }

  /** A walk that stands at Pending has been nowhere else, and one that has been blocked stays there. */
  lemma {:induction false} WhatAWalkHasVisited(history: seq<Hop>)
    requires IsWalk(SafeDefault, history)
    ensures var end := EndOf(SafeDefault, history);
            (Visited(history, Blocked) <==> end == Blocked)
            && (end in {SafeDefault, Pending} ==> !Visited(history, ResponseReady) && !Visited(history, Denied))
            && (end in {ResponseReady, Active} ==> Visited(history, ResponseReady) && !Visited(history, Denied))
            && (end == Denied ==> Visited(history, Denied) && !Visited(history, ResponseReady))
            && !(Visited(history, Denied) && Visited(history, ResponseReady))
  {
    if history != [] {
      var init, hop := history[..|history| - 1], history[|history| - 1];
      assert history == init + [hop];
      WhatAWalkHasVisited(init);
      VisitedExtends(init, hop, Blocked);
      VisitedExtends(init, hop, ResponseReady);
      VisitedExtends(init, hop, Denied);
    }
  }

  lemma UserWords()
    ensures Lower(Strip("approve")) == "approve" && Lower(Strip("deny")) == "deny" && Lower(Strip("user")) == "user"
    ensures Strip("") == "" && IsIdentifier("user")
  {
    hide Strip, Lower;
    PlainIsNormal("approve");
    PlainIsNormal("deny");
    PlainIsNormal("user");
    StripIdentity("");
  }

  /**
    Under the call pattern, a faithful receipt accepts a command exactly when
    it already stands at the target or the graph has the edge, and then stays
    faithful: no legal edge is ever refused by the re-validation.
  */
  lemma CommandAcceptedIffEdge(r: Receipt, c: Command, now: nat)
    requires Faithful(r) && !c.ShowDialog?
    ensures Perform(r, c, now).Ok? <==> r.status == TargetOf(c) || MayFollow(r.status, TargetOf(c))
    ensures Perform(r, c, now).Ok? ==> Faithful(Perform(r, c, now).value)
  {
    hide IsIdentifier, IsDigest, IsFingerprint, IsWalk, Visited, EndOf, Strip, Lower;
    var target := TargetOf(c);
    EdgeTablesAgree(r.status, target);
    UserWords();
    if r.status != target && MayFollow(r.status, target) {
      var (decision, source, code) :=
        match c {
          case Approve => ("approve", "user", "")
          case Deny => ("deny", "user", "")
          case Block(code) => ("", "", code)
          case _ => ("", "", "")
        };
      var next := Advanced(r, target, decision, source, code, At(now));
      var hop := Hop(r.status, target, At(now));
      WalkExtends(r.history, hop);
      WhatAWalkHasVisited(r.history);
      WhatAWalkHasVisited(next.history);
      VisitedExtends(r.history, hop, ResponseReady);
      VisitedExtends(r.history, hop, Denied);
      VisitedExtends(r.history, hop, Blocked);
      assert Valid(next);
    }
  }

  lemma DialogKeepsFaithful(r: Receipt, now: nat)
    requires Faithful(r)
    ensures RecordDialog(r, now).Ok? <==> r.cardinality.dialogs == 1 || r.status == Pending
    ensures RecordDialog(r, now).Ok? ==>
      var r' := RecordDialog(r, now).value;
      Faithful(r') && r'.cardinality.dialogs == 1 && SameIdentity(r, r') && r'.history == r.history
      && r'.status == r.status && r'.decision == r.decision
  {
    hide IsIdentifier, IsDigest, IsFingerprint, IsWalk, Visited;
    if r.cardinality.dialogs != 1 && r.status == Pending {
      assert Valid(r.(cardinality := r.cardinality.(dialogs := 1), updatedAt := At(now)));
    }
  }

  /** What every command that succeeds keeps. */
  ghost predicate Extends(r: Receipt, r': Receipt) {
    Faithful(r') && SameIdentity(r, r') && r.history <= r'.history && |r'.history| <= 4
    && (r.decision.kind != "" ==> r'.decision == r.decision)
    && r.cardinality.dialogs <= r'.cardinality.dialogs
    && (r'.status == r.status || MayFollow(r.status, r'.status))
    && (r'.status == r.status ==> r'.history == r.history)
  }

  lemma CommandExtends(r: Receipt, c: Command, now: nat)
    requires Faithful(r) && Perform(r, c, now).Ok?
    ensures Extends(r, Perform(r, c, now).value)
  {
    hide IsIdentifier, IsDigest, IsFingerprint, IsWalk, Visited, Strip, Lower;
    if c.ShowDialog? {
      DialogKeepsFaithful(r, now);
    } else {
      CommandAcceptedIffEdge(r, c, now);
      WhatAWalkHasVisited(r.history);
      EdgeTablesAgree(r.status, TargetOf(c));
    }
  }

  lemma FaithfulIsShort(r: Receipt)
    requires Faithful(r)
    ensures |r.history| <= 4
  {
  }

  /**
    Over any run of commands, refused ones included: the receipt stays valid
    and faithful, keeps its identity, only ever extends its history, takes at
    most four hops, and never changes a decision once it is there.
  */
  lemma {:induction false} RunsStayFaithful(r: Receipt, commands: seq<(Command, nat)>)
    requires Faithful(r)
    ensures var r' := PerformAll(r, commands);
            Faithful(r') && SameIdentity(r, r') && r.history <= r'.history && |r'.history| <= 4
            && (r.decision.kind != "" ==> r'.decision == r.decision)
            && r.cardinality.dialogs <= r'.cardinality.dialogs
    decreases |commands|
  {
    hide Perform, Faithful, Valid;
    if commands == [] {
      FaithfulIsShort(r);
    } else {
      var last := commands[|commands| - 1];
      RunsStayFaithful(r, commands[..|commands| - 1]);
      var before := PerformAll(r, commands[..|commands| - 1]);
      if Perform(before, last.0, last.1).Ok? {
        CommandExtends(before, last.0, last.1);
      }
    }
  }

  /** A blocked receipt is absorbing, and a denied one can only be blocked: neither is ever ready or active again. */
  lemma {:induction false} BlockedAndDeniedAreFinal(r: Receipt, commands: seq<(Command, nat)>)
    requires Faithful(r) && r.status in {Blocked, Denied}
    ensures var r' := PerformAll(r, commands);
            (r.status == Blocked ==> r'.status == Blocked && r'.history == r.history)
            && (r.status == Denied ==> r'.status in {Denied, Blocked})
    decreases |commands|
  {
    hide Perform, Faithful;
    if commands != [] {
      var last := commands[|commands| - 1];
      BlockedAndDeniedAreFinal(r, commands[..|commands| - 1]);
      RunsStayFaithful(r, commands[..|commands| - 1]);
      var before := PerformAll(r, commands[..|commands| - 1]);
      if Perform(before, last.0, last.1).Ok? {
        CommandExtends(before, last.0, last.1);
      }
    }
  }
}
