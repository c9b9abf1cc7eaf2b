/**
  The service object: every operation reads the stored task, changes its copy
  step by step, and writes it back once it can no longer fail
  (src/agent_bridge_connect/approval_lifecycle.py:133-163, 1193-2030, 2246-2341).
*/
module TaskService {
  import opened Outcomes
  import opened Text
  import opened Clock
  import opened NativeRequest
  import opened TaskElevation
  import V3 = ApprovalV3
  import PE = PermissionElevation

  class Service {
    var stored: Task

    constructor (task: Task)
      ensures stored == task
    {
      stored := task;
    }

    // -------------------------------------------------- the plan's steps

    static method FirstIncompleteStep(steps: seq<PlanStep>) returns (id: Option<int>)
      ensures id == FirstIncomplete(steps)
    {
      for i := 0 to |steps|
        invariant FirstIncomplete(steps) == FirstIncomplete(steps[i..])
      {
        if steps[i].status != "done" {
          return Some(steps[i].id);
        }
      }
      id := None;
    }

    static method HasOpenStep(steps: seq<PlanStep>, stepId: int) returns (found: bool)
      ensures found == IsOpen(steps, stepId)
    {
      for i := 0 to |steps|
        invariant forall k :: 0 <= k < i ==> !(steps[k].id == stepId && steps[k].status != "done" && steps[k].status != "completed")
      {
        if steps[i].id == stepId && steps[i].status != "done" && steps[i].status != "completed" {
          return true;
        }
      }
      found := false;
    }

    static method HasBlockedStep(steps: seq<PlanStep>, stepId: int) returns (found: bool)
      ensures found == IsBlockedStep(steps, stepId)
    {
      for i := 0 to |steps|
        invariant forall k :: 0 <= k < i ==> !(steps[k].id == stepId && steps[k].status == "blocked")
      {
        if steps[i].id == stepId && steps[i].status == "blocked" {
          return true;
        }
      }
      found := false;
    }

    static method MarkBlocked(steps: seq<PlanStep>, stepId: int) returns (marked: seq<PlanStep>)
      ensures marked == BlockSteps(steps, stepId)
    {
      hide BlockSteps;
      marked := [];
      for i := 0 to |steps|
        invariant marked == BlockSteps(steps, stepId)[..i]
      {
        var step := steps[i];
        if step.status != "done" {
          if step.id == stepId {
            step := step.(status := "blocked");
          } else if step.status == "" {
            step := step.(status := "pending");
          }
        }
        marked := marked + [step];
      }
    }

    static method MarkPending(steps: seq<PlanStep>, stepId: int) returns (marked: seq<PlanStep>)
      ensures marked == UnblockSteps(steps, stepId)
    {
      marked := [];
      for i := 0 to |steps|
        invariant marked + UnblockSteps(steps[i..], stepId) == UnblockSteps(steps, stepId)
      {
        var step := steps[i];
        if step.id == stepId && step.status == "blocked" {
          step := step.(status := "pending");
        }
        assert steps[i..][1..] == steps[i + 1..];
        assert marked + ([step] + UnblockSteps(steps[i + 1..], stepId)) == (marked + [step]) + UnblockSteps(steps[i + 1..], stepId);
        marked := marked + [step];
      }
    }

    // -------------------------------------------------- blocking

    method BlockTaskForElevation(request: Block, s: Surroundings) returns (answer: Result<Answer>)
      modifies this
      ensures (stored, answer) == BlockTask(old(stored), request, s)
    {
      hide V3.Build, PE.Build, PE.Valid, PE.Block, FirstIncomplete, IsOpen, BlockSteps, SameIdentity, Cleaned,
           BlockError, FactsOf, NewInput;
      var task := stored;
      var b := Cleaned(request, s);
      var error := BlockError(task, b, s);
      if error != "" {
        return Err(error);
      }
      if IsWaiting(task) {
        if task.input.value.requestId == b.requestId {
          if !SameIdentity(task.input.value, b) {
            return Err("permission_elevation_binding_mismatch");
          }
          return Ok(InputIs(task.input.value.inputId, true));
        }
        return Err("approval_already_pending");
      }
      if task.elevation.Some? {
        var existing := task.elevation.value;
        if !PE.Valid(existing) {
          return Err("permission_elevation_invalid");
        }
        if existing.facts.binding.taskId != task.id || existing.facts.binding.pathPlanDigest != "" {
          return Err("permission_elevation_binding_mismatch");
        }
        if existing.status in {PE.Approved, PE.Active, PE.Verified} {
          var failed := PE.Block(existing, PE.EscalationIneffective);
          if failed.Ok? {
            task := task.(elevation := Some(failed.value));
            stored := task;
          }
          MarkNeedsRecovery();
          return Err("permission_escalation_ineffective");
        }
        return Err("permission_elevation_replay");
      }
      var stepId := b.stepId;
      if stepId.None? || stepId.value == 0 {
        stepId := FirstIncompleteStep(task.steps);
      }
      if stepId.None? {
        return Err("permission_preflight_failed");
      }
      var open := HasOpenStep(task.steps, stepId.value);
      if !open {
        return Err("permission_input_invalid");
      }
      var receipt := V3.Build(FactsOf(task, b, VersionOr(b.authorityVersion, 0)), "", Missing, s.now);
      if receipt.Err? {
        return Err(receipt.code);
      }
      var elevation := PE.Build(s.elevationId, FactsOf(task, b, VersionOr(b.authorityVersion, 1)), Missing, s.now);
      if elevation.Err? {
        return Err(elevation.code);
      }
      var waiting := NewInput(task, b, s, stepId.value);
      if task.input.Some? {
        task := task.(history := task.history + [task.input.value]);
      }
      var steps := MarkBlocked(task.steps, stepId.value);
      answer := Ok(InputIs(task.inputs, false));
      task := task.(status := InputRequired, steps := steps);
      task := task.(approval := Some(receipt.value), elevation := Some(elevation.value), elevations := task.elevations + 1);
      task := task.(input := Some(waiting), inputs := task.inputs + 1);
      stored := task;
    }

    method MarkNeedsRecovery()
      modifies this
      ensures stored == Recovering(old(stored))
    {
      var task := stored;
      if task.closing {
        return;
      }
      if task.status in {Completed, Failed, Cancelled, Rejected} {
        return;
      }
      task := task.(status := NeedsRecovery);
      stored := task;
    }

    // -------------------------------------------------- answering

    method RespondToLiveElevation(inputId: nat, responseType: string, message: string, activeRun: Option<string>, now: nat)
      returns (answer: Result<Answer>)
      modifies this
      ensures (stored, answer) == RespondLive(old(stored), inputId, responseType, message, activeRun, now)
    {
      hide V3.Decide, PE.Decide, Normal, Strip, DenialSource;
      var task := stored;
      if task.input.None? || !task.input.value.live {
        return Err("input_not_pending");
      }
      var request := task.input.value;
      if request.inputId != inputId {
        return Err("stale_input");
      }
      if !request.waiting {
        return Ok(AlreadyAnswered);
      }
      var verdict := Normal(responseType);
      if verdict == "approve_full" {
        verdict := "approve";
      }
      if verdict != "approve" && verdict != "deny" {
        return Err("invalid_input_response");
      }
      if activeRun != Some(request.runId) {
        return Err("executor_active");
      }
      if task.sessionId == "" || Strip(request.sessionId) != task.sessionId {
        return Err("approval_session_mismatch");
      }
      if task.elevation.None? || task.elevation.value.status != PE.Prepared {
        return Err("permission_elevation_state_invalid");
      }
      var source := DenialSource(responseType, message);
      if request.deadline <= now {
        return Err("input_expired");
      }
      var decision := if verdict == "approve" then "approve_full" else "deny";
      if task.approval.Some? {
        var receipt := V3.Decide(task.approval.value, decision, source, At(now), now, Some(Expected(stored, request)));
        if receipt.Err? {
          return Err(receipt.code);
        }
        task := task.(approval := Some(receipt.value));
      }
      var elevation := PE.Decide(task.elevation.value, decision, source, At(now), now, Expected(stored, request));
      if elevation.Err? {
        return Err(elevation.code);
      }
      task := task.(elevation := Some(elevation.value));
      task := task.(input := Some(Answered(request, verdict)));
      task := task.(status := Running);
      stored := task;
      answer := Ok(Accepted(verdict));
    }

    method RespondToInput(inputId: nat, responseType: string, message: string, chainIsHead: bool, leaseQuiet: bool, now: nat)
      returns (answer: Result<Answer>)
      modifies this
      ensures (stored, answer) == Respond(old(stored), inputId, responseType, message, chainIsHead, leaseQuiet, now)
    {
      hide V3.Decide, PE.Decide, Normal, Strip, DenialSource, IsBlockedStep, UnblockSteps;
      var task := stored;
      if task.input.None? {
        return Err("input_not_pending");
      }
      var request := task.input.value;
      if inputId != request.inputId {
        return Err("stale_input");
      }
      if !request.waiting {
        return Ok(AlreadyAnswered);
      }
      if task.status != InputRequired {
        return Err("input_not_pending");
      }
      if !chainIsHead {
        return Err("stale_input");
      }
      if request.deadline <= now {
        return Err("input_expired");
      }
      if !leaseQuiet {
        return Err("executor_active");
      }
      var response := Strip(responseType);
      if response == "permission_option" {
        return Err("native_permission_choice_required");
      }
      if response != "approve_full" && response != "deny" {
        return Err("invalid_input_response");
      }
      if task.elevation.None? {
        return Err("permission_elevation_binding_mismatch");
      }
      if task.approval.None? {
        return Err("permission_input_invalid");
      }
      var source := DenialSource(response, message);
      var expected := Expected(stored, request);
      var receipt := V3.Decide(task.approval.value, response, source, At(now), now, Some(expected));
      if receipt.Err? {
        return Err(receipt.code);
      }
      task := task.(approval := Some(receipt.value));
      var elevation := PE.Decide(task.elevation.value, response, source, At(now), now, expected);
      if elevation.Err? {
        return Err(elevation.code);
      }
      task := task.(elevation := Some(elevation.value));
      task := task.(input := Some(Answered(request, response)));
      if response == "deny" {
        MarkFailed(task);
        return Ok(Accepted("deny"));
      }
      var blocked := HasBlockedStep(task.steps, request.stepId);
      if !blocked {
        return Err("permission_input_invalid");
      }
      var steps := MarkPending(task.steps, request.stepId);
      task := task.(steps := steps);
      task := task.(status := Running);
      stored := task;
      answer := Ok(Accepted("approve_full"));
    }

    method MarkFailed(model: Task)
      requires model.closing == stored.closing && model.status == stored.status
      modifies this
      ensures stored == FailedWith(old(stored), model)
    {
      var task := model;
      if task.closing {
        return;
      }
      if task.status == Failed {
        return;
      }
      task := task.(status := Failed);
      stored := task;
    }

    method ExpireInput(now: nat) returns (answer: Result<Answer>)
      modifies this
      ensures (stored, answer) == Expire(old(stored), now)
    {
      hide V3.Decide, PE.Decide, Normal;
      var task := stored;
      if !IsWaiting(task) || task.input.value.deadline > now {
        return Ok(AlreadyAnswered);
      }
      var request := task.input.value;
      task := task.(input := Some(Answered(request, "deny")));
      var decided := DecideBoth(task, request, "deny", "timeout", now);
      if decided.Ok? {
        task := decided.value;
        stored := task;
      }
      MarkFailed(task);
      answer := Ok(Accepted("deny"));
    }

    // -------------------------------------------------- notifying, activating, verifying

    method RecordNotification() returns (answer: Result<Answer>)
      modifies this
      ensures (stored, answer) == NotifyTask(old(stored))
    {
      hide V3.Notify, PE.Notify;
      var task := stored;
      if task.elevation.None? {
        return Ok(NothingToNotify);
      }
      var elevation := PE.Notify(task.elevation.value);
      if elevation.Err? {
        return Err(elevation.code);
      }
      if task.approval.Some? {
        var approval := V3.Notify(task.approval.value);
        if approval.Err? {
          return Err(approval.code);
        }
        task := task.(approval := Some(approval.value));
      }
      task := task.(elevation := Some(elevation.value));
      stored := task;
      answer := Ok(Notified);
    }

    /** Whether this caller is the one that reserved the notice. */
    method ReserveNotification() returns (won: bool, answer: Result<Answer>)
      requires Lockstep(stored)
      modifies this
      ensures (stored, answer) == NotifyTask(old(stored))
      ensures won <==> old(stored).elevation.Some? && old(stored).elevation.value.cardinality.notifications == 0
      ensures stored.elevation.Some? ==> stored.elevation.value.cardinality.notifications == 1
    {
      hide V3.Notify, PE.Notify, InStep;
      if stored.elevation.None? {
        answer := RecordNotification();
        return false, answer;
      }
      var already := stored.elevation.value.cardinality.notifications == 1;
      NotifyInStep(stored.approval.value, stored.elevation.value);
      CardinalityInStep(stored);
      answer := RecordNotification();
      won := !already;
    }

    method ActivateElevation(runId: string, sessionId: string) returns (answer: Result<Answer>)
      modifies this
      ensures (stored, answer) == ActivateTask(old(stored), runId, sessionId)
    {
      hide V3.Continue, V3.Valid, PE.Valid, PE.Activate;
      var task := stored;
      if task.elevation.None? {
        return Err("permission_elevation_missing");
      }
      var elevation := task.elevation.value;
      if !PE.Valid(elevation) || elevation.facts.binding.taskId != task.id {
        return Err("permission_elevation_invalid");
      }
      var activated := elevation;
      if elevation.status == PE.Approved {
        var outcome := PE.Activate(elevation, runId, sessionId);
        if outcome.Err? {
          return Err(outcome.code);
        }
        activated := outcome.value;
      } else if elevation.status != PE.Active && elevation.status != PE.Verified {
        return Err("permission_elevation_state_invalid");
      }
      if task.approval.None? || !V3.Valid(task.approval.value) {
        return Err("approval_invalid");
      }
      var approval := task.approval.value;
      if approval.decision.kind == "approve_full" {
        var continued := V3.Continue(approval, runId, sessionId);
        if continued.Err? {
          return Err(continued.code);
        }
        approval := continued.value;
      }
      task := task.(elevation := Some(activated));
      task := task.(approval := Some(approval));
      stored := task;
      answer := Ok(ElevationIs(activated.status));
    }

    method VerifyElevation(runId: string, sessionId: string) returns (answer: Result<Answer>)
      modifies this
      ensures (stored, answer) == VerifyTask(old(stored), runId, sessionId)
    {
      hide PE.Verify;
      var task := stored;
      if task.elevation.None? {
        return Err("permission_elevation_missing");
      }
      if task.elevation.value.facts.binding.taskId != task.id {
        return Err("permission_elevation_binding_mismatch");
      }
      var verified := PE.Verify(task.elevation.value, runId, sessionId);
      if verified.Err? {
        return Err(verified.code);
      }
      task := task.(elevation := Some(verified.value));
      stored := task;
      answer := Ok(ElevationIs(PE.Verified));
    }
  }

  lemma CardinalityInStep(t: Task)
    requires Lockstep(t)
    ensures t.elevation.Some? ==> 0 <= t.elevation.value.cardinality.notifications <= 1
  {
    hide PE.FactsOk, PE.DecisionOk, PE.StatusOk, V3.Kept, Normal;
  }
}
