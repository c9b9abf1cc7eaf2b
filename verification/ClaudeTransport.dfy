/**
  The lock-protected state of the Claude SDK transport and the sections of code
  that run under its locks (src/agent_bridge_connect/claude_sdk_transport.py).

  Every section is a function on the state; the class below holds the fields
  and its methods are proved to change them as the sections say.
*/
module ClaudeTransport {
  import opened Outcomes
  import opened Text
  import opened Clock
  import opened ClaudeElevation
  import opened VerificationEvents

  /** The frozen facts of one transport; the two digests are already defaulted when empty. */
  datatype Identity = Identity(
    preauthorizedFull: bool, safeToFull: bool,
    taskId: string, runId: string, sessionId: string, pathPlanDigest: string, profileDigest: string)

  /** The facts of one native request that a transition may bind. */
  datatype Request = Request(
    requestId: string, toolUseId: string, requestFingerprint: string,
    inputFingerprint: string, actionFingerprint: string, operation: string)

  const NO_REQUEST := Request("", "", "", "", "", "")

  datatype State = State(
    id: Identity,
    elevation: Status, receipt: Option<Receipt>,
    seen: set<string>, pending: set<string>, active: string, activeRequest: string,
    anchor: string, anchorMode: AnchorMode,
    events: seq<ToolEvent>, streamConsumed: bool)

  function Fresh(id: Identity): State {
    State(id, SafeDefault, None, {}, {}, "", "", "", Unset, [], false)
  }

  // ------------------------------------------------------------ sections of can_use_tool

  datatype GateAnswer = LetThrough | AllowNow | DenyNow

  /** The reading of the elevation state before any identity is looked at. */
  function Gate(s: State): GateAnswer {
    if s.id.preauthorizedFull then AllowNow
    else if s.id.safeToFull && s.elevation in {ResponseReady, Active} then AllowNow
    else if s.id.safeToFull && s.elevation in {Blocked, Denied} then DenyNow
    else LetThrough
  }

  predicate Refuses(s: State, toolUseId: string) {
    toolUseId == "" || toolUseId in s.seen || toolUseId in s.pending || s.active != ""
  }

  /** The duplicate and concurrency gate. */
  function Admit(s: State, toolUseId: string): State {
    if Refuses(s, toolUseId) then s
    else s.(seen := s.seen + {toolUseId}, pending := s.pending + {toolUseId}, active := toolUseId)
  }

  function BindRequest(s: State, toolUseId: string, requestId: string): State {
    if s.active == toolUseId then s.(activeRequest := requestId) else s
  }

  /** The `finally` block of the callback. */
  function Release(s: State, toolUseId: string): State {
    var left := s.(pending := s.pending - {toolUseId});
    if left.active == toolUseId then left.(active := "", activeRequest := "") else left
  }

  /** An accepted decision anchors the run to exactly this tool call. */
  function AnchorAccepted(s: State, toolUseId: string): State {
    s.(anchor := toolUseId, anchorMode := ApprovedToolUse)
  }

  // ------------------------------------------------------------ recording a transition

  function BindingOf(id: Identity, r: Request): Binding {
    Binding(id.taskId, id.runId, id.sessionId, r.requestId, r.toolUseId,
            r.requestFingerprint, r.inputFingerprint, r.actionFingerprint, r.operation)
  }

  /** The receipt a transition starts from: the one there is, or a new one bound to this request. */
  function BaseReceipt(s: State, r: Request, elevationId: string, now: nat): Result<Receipt> {
    match s.receipt
    case Some(receipt) => Ok(receipt)
    case None => Build(elevationId, BindingOf(s.id, r), s.id.pathPlanDigest, s.id.profileDigest, now)
  }

  /** The locked part of `_record_elevation_transition`: the new state, or the code it raises. */
  function Record(s: State, c: Command, r: Request, elevationId: string, now: nat): (State, Result<Receipt>) {
    var base := BaseReceipt(s, r, elevationId, now);
    if base.Err? then (s, base)
    else
      var updated := Perform(base.value, c, now);
      if updated.Err? then (s.(receipt := Some(base.value)), updated)
      else (s.(receipt := Some(updated.value), elevation := updated.value.status), updated)
  }

  /** The second locked part, after the receipt could not be published. */
  function FailClosed(s: State): State {
    s.(elevation := Blocked)
  }

  // ------------------------------------------------------------ tool events and death

  /** The record of one tool event, appended in arrival order. */
  function NextEvent(s: State, kind: EventKind, toolUseId: string, toolName: string, sessionId: string): ToolEvent {
    var session := Strip(sessionId);
    ToolEvent(|s.events| + 1, kind, Strip(toolUseId), Strip(toolName),
              if session == "" then s.id.sessionId else session, !s.streamConsumed)
  }

  function Capture(s: State, e: ToolEvent): State {
    s.(events := s.events + [e])
  }

  /** The event is the anchored tool call, in this session and inside the run window. */
  predicate IsAnchored(s: State, e: ToolEvent) {
    s.anchor != "" && e.toolUseId == s.anchor && e.sessionId == s.id.sessionId && e.inWindow
  }

  /** The transition a captured event asks for. */
  function Reaction(s: State, e: ToolEvent): Option<Command> {
    if !s.id.safeToFull || s.elevation != ResponseReady || !IsAnchored(s, e) then None
    else match e.kind
      case PostToolUse => Some(Activate)
      case PostToolUseFailure => Some(Block("claude_elevation_approved_action_failed"))
      case PreToolUse => None
  }

  /** Whether a dying transport has a transition to record. */
  predicate DeathBlocks(s: State) {
    s.id.safeToFull && s.elevation in {Pending, ResponseReady}
  }

  /** `declare_run_authorization`: the new state, and whether the call returned instead of raising. */
  function Declare(s: State, mode: AnchorMode, identity: string): (State, bool) {
    var anchor := if Strip(identity) != "" then Strip(identity)
                  else if mode == DeclaredRun then "run:" + s.id.runId
                  else "";
    if mode == Unset then (s, false)
    else (s.(anchor := anchor, anchorMode := mode), anchor != "")
  }

  // ------------------------------------------------------------ the object

  class Transport {
    const id: Identity
    var elevationState: Status
    var elevationReceipt: Option<Receipt>
    var seenToolUseIds: set<string>
    var pendingToolUseIds: set<string>
    var activeRequest: string
    var activeRequestId: string
    var verificationAnchor: string
    var anchorMode: AnchorMode
    var toolEvents: seq<ToolEvent>
    var toolEventCount: nat
    var streamConsumed: bool

    ghost predicate Valid()
      reads this
    {
      toolEventCount == |toolEvents| && IsLog(toolEvents)
    }

    function View(): State
      reads this
    {
      State(id, elevationState, elevationReceipt, seenToolUseIds, pendingToolUseIds, activeRequest,
            activeRequestId, verificationAnchor, anchorMode, toolEvents, streamConsumed)
    }

    constructor (identity: Identity)
      ensures Valid() && View() == Fresh(identity)
    {
      id := identity;
      elevationState, elevationReceipt := SafeDefault, None;
      seenToolUseIds, pendingToolUseIds := {}, {};
      activeRequest, activeRequestId := "", "";
      verificationAnchor, anchorMode := "", Unset;
      toolEvents, toolEventCount, streamConsumed := [], 0, false;
    }

    method ReadGate() returns (answer: GateAnswer)
      ensures answer == Gate(View())
    {
      if id.preauthorizedFull {
        return AllowNow;
      }
      if id.safeToFull {
        var state := elevationState;
        if state == ResponseReady || state == ClaudeElevation.Status.Active {
          return AllowNow;
        }
        if state == Blocked || state == Denied {
          return DenyNow;
        }
      }
      answer := LetThrough;
    }

    method TryAdmit(toolUseId: string) returns (admitted: bool)
      requires Valid()
      modifies this
      ensures Valid() && View() == Admit(old(View()), toolUseId)
      ensures admitted <==> !Refuses(old(View()), toolUseId)
    {
      if toolUseId == "" || toolUseId in seenToolUseIds || toolUseId in pendingToolUseIds || activeRequest != "" {
        return false;
      }
      seenToolUseIds := seenToolUseIds + {toolUseId};
      pendingToolUseIds := pendingToolUseIds + {toolUseId};
      activeRequest := toolUseId;
      admitted := true;
    }

    method BindRequestId(toolUseId: string, requestId: string)
      requires Valid()
      modifies this`activeRequestId
      ensures Valid() && View() == BindRequest(old(View()), toolUseId, requestId)
    {
      if activeRequest == toolUseId {
        activeRequestId := requestId;
      }
    }

    method Finish(toolUseId: string)
      requires Valid()
      modifies this
      ensures Valid() && View() == Release(old(View()), toolUseId)
    {
      pendingToolUseIds := pendingToolUseIds - {toolUseId};
      if activeRequest == toolUseId {
        activeRequest := "";
        activeRequestId := "";
      }
    }

    method AnchorTo(toolUseId: string)
      requires Valid()
      modifies this
      ensures Valid() && View() == AnchorAccepted(old(View()), toolUseId)
    {
      verificationAnchor := toolUseId;
      anchorMode := ApprovedToolUse;
    }

    method RecordTransition(c: Command, r: Request, elevationId: string, now: nat) returns (outcome: Result<Receipt>)
      requires Valid()
      modifies this`elevationReceipt, this`elevationState
      ensures Valid() && (View(), outcome) == Record(old(View()), c, r, elevationId, now)
    {
      hide Perform, Build, BindingOf, IsLog;
      if elevationReceipt == None {
        var built := Build(elevationId, BindingOf(id, r), id.pathPlanDigest, id.profileDigest, now);
        if built.Err? {
          return built;
        }
        elevationReceipt := Some(built.value);
      }
      outcome := Perform(elevationReceipt.value, c, now);
      if outcome.Ok? {
        elevationReceipt := Some(outcome.value);
        elevationState := outcome.value.status;
      }
    }

    method FailClosedAfterPublish()
      requires Valid()
      modifies this`elevationState
      ensures Valid() && View() == FailClosed(old(View()))
    {
      elevationState := Blocked;
    }

    method CaptureToolEvent(event: string, toolUseId: string, toolName: string, sessionId: string)
      returns (captured: Option<ToolEvent>)
      requires Valid()
      modifies this
      ensures Valid()
      ensures captured.Some? <==> KindOf(event).Some?
      ensures captured.Some? ==>
        captured.value == NextEvent(old(View()), KindOf(event).value, toolUseId, toolName, sessionId)
        && View() == Capture(old(View()), captured.value)
      ensures captured.None? ==> View() == old(View())
    {
      hide Strip, KindOf;
      var kind := KindOf(event);
      if kind.None? {
        return None;
      }
      var inWindow := !streamConsumed;
      toolEventCount := toolEventCount + 1;
      var session := Strip(sessionId);
      var record := ToolEvent(toolEventCount, kind.value, Strip(toolUseId), Strip(toolName),
                              if session != "" then session else id.sessionId, inWindow);
      toolEvents := toolEvents + [record];
      captured := Some(record);
    }

    method DeclareRunAuthorization(mode: AnchorMode, identity: string) returns (ok: bool)
      requires Valid()
      modifies this
      ensures Valid() && (View(), ok) == Declare(old(View()), mode, identity)
    {
      if mode == Unset {
        return false;
      }
      anchorMode := mode;
      verificationAnchor := Strip(identity);
      if verificationAnchor == "" && mode == DeclaredRun {
        verificationAnchor := "run:" + id.runId;
      }
      ok := verificationAnchor != "";
    }

    /** The evidence of this run, under its own anchor and session. */
    method SelectEvidence(sessionId: string, toolName: string) returns (answer: Option<ToolEvent>)
      requires Valid()
      ensures var s := View();
              IsAnswer(s.events, Query(Strip(s.anchor), s.anchorMode,
                       Strip(if sessionId != "" then sessionId else s.id.sessionId), Strip(toolName)), answer)
    {
      var query := Query(Strip(verificationAnchor), anchorMode,
                         Strip(if sessionId != "" then sessionId else id.sessionId), Strip(toolName));
      answer := SelectVerificationEvent(toolEvents, query);
    }
  }
}
