/**
  The facts of one native permission request that both durable receipts of a
  task elevation are bound to (src/agent_bridge_connect/approval.py:1124-1350;
  src/agent_bridge_connect/permission_elevation.py:90-342).
*/
module NativeRequest {
  import opened Text

  /** The identity of the blocked request. */
  datatype Binding = Binding(
    taskId: string, executor: string, runId: string, sessionId: string,
    requestId: string, fingerprint: string, pathPlanDigest: string)

  datatype Provenance = Provenance(nativeEvent: string, toolCallId: string, actionFingerprint: string)

  datatype Authority = Authority(executor: string, protocol: string, protocolVersion: int, methodName: string)

  /** `full`, or the retired `contained_full`. */
  datatype Mode = Full | ContainedFull

  datatype Policy = NativePolicy | ContainedPolicy | OtherPolicy

  datatype Containment = Containment(mode: Mode, policy: Policy, pathPlanDigest: string, profileDigest: string)

  datatype Facts = Facts(
    binding: Binding, provenance: Provenance, authority: Authority, mode: Mode, containment: Containment,
    operation: string)

  /** The run and session that carried the one full continuation. */
  datatype Continuation = Continuation(count: int, runId: string, sessionId: string)

  const NO_CONTINUATION := Continuation(0, "", "")

  datatype Cardinality = Cardinality(
    permissionRequests: int, notifications: int, humanDecisions: int, elevationReceipts: int, fullContinuations: int)

  const FRESH_CARDINALITY := Cardinality(1, 0, 0, 1, 0)

  /** `^[A-Za-z0-9][A-Za-z0-9._:/-]{0,511}$` */
  predicate IsNativeEvent(s: string) {
    0 < |s| <= 512 && IsAlphanumeric(s[0])
    && forall c <- s :: IsAlphanumeric(c) || c == '.' || c == '_' || c == ':' || c == '/' || c == '-'
  }

  /** `^[^\x00-\x1f]{1,120}$` */
  predicate IsOperation(s: string) {
    0 < |s| <= 120 && forall c <- s :: c >= ' '
  }

  predicate IsOptionalIdentifier(s: string) {
    s == "" || IsIdentifier(s)
  }

  predicate IsOptionalDigest(s: string) {
    s == "" || IsDigest(s)
  }

  /** Who a decision may be recorded for (src/agent_bridge_connect/approval.py:49-51). */
  predicate IsDecisionSource(source: string) {
    source == "user" || source == "timeout" || source == "dialog_closed" || source == "close"
    || source == "stale" || source == "crash" || source == "fail_closed"
  }

  predicate ProvenanceOk(p: Provenance) {
    IsNativeEvent(p.nativeEvent) && IsIdentifier(p.toolCallId) && IsOptionalIdentifier(p.actionFingerprint)
  }

  predicate CountsOk(c: Cardinality) {
    c.permissionRequests == 1 && c.elevationReceipts == 1
    && 0 <= c.notifications <= 1 && 0 <= c.humanDecisions <= 1 && 0 <= c.fullContinuations <= 1
  }

  predicate ContinuationOk(c: Continuation) {
    0 <= c.count <= 1 && IsOptionalIdentifier(c.runId) && IsOptionalIdentifier(c.sessionId)
    && (c.count == 0 ==> c.runId == "" && c.sessionId == "")
  }
}
