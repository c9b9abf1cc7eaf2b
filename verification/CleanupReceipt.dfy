/**
  The v5 cleanup receipt of an executor session and its validator
  (src/agent_bridge_connect/execution_policy.py:311-353, 368-423, 546-562, 658-871;
  src/agent_bridge_connect/container_session_cleanup.py:14-19).
*/
module CleanupReceipt {
  import opened Text
  import opened Clock

  datatype Capability = UnknownCapability | Supported | Unsupported | NotApplicable

  datatype Strategy =
    | NoStrategy | Retain | ClaudeProjectPurge | OfficialDelete | OfficialArchiveThenDelete | ContainerArchiveThenDelete

  datatype CleanupState = NotRequested | Retained | Pending | Succeeded | NotSupported | Failed

  datatype SideStatus = SideUnknown | Absent | Present | SideUnavailable | SideUnverified | SideNotApplicable

  datatype Side = Side(status: SideStatus, checkedAt: Stamp)

  datatype Verification = Verification(cli: Side, desktopBackend: Side, desktopLive: Side)

  datatype CommandStatus =
    | CommandNotRequested | Acknowledged | Confirmed | CommandFailed
    | CommandUnverified | CommandNotApplicable | CommandUnavailable | Rejected

  datatype Evidence = Evidence(
    status: CommandStatus, checkedAt: Stamp, requestDigest: string, routeDigest: string, appInstanceDigest: string)

  datatype Commands = Commands(desktopArchive: Evidence, appServerArchive: Evidence, delete: Evidence)

  datatype Receipt = Receipt(
    capability: Capability, strategy: Strategy, state: CleanupState, attempts: int,
    requestedAt: Stamp, lastAttemptAt: Stamp, nextAttemptAt: Stamp, completedAt: Stamp,
    errorCode: string, retryable: bool, verification: Verification, commands: Commands)

  const MAX_SESSION_CLEANUP_ATTEMPTS := 3

  function EmptyVerification(status: SideStatus): Verification {
    var side := Side(status, Missing);
    Verification(side, side, side)
  }

  function EmptyCommands(status: CommandStatus, at: Stamp): Commands {
    var entry := Evidence(status, at, "", "", "");
    Commands(entry, entry, entry)
  }

  /** `build_session_cleanup_receipt` */
  const FRESH_RECEIPT := Receipt(
    UnknownCapability, NoStrategy, NotRequested, 0, Missing, Missing, Missing, Missing, "", false,
    EmptyVerification(SideUnknown), EmptyCommands(CommandNotRequested, Missing))

  // ------------------------------------------------------------ validation

  predicate IsAcknowledged(e: Evidence) {
    e.status == Acknowledged || e.status == Confirmed
  }

  /** `proof_valid` of an isolated container session. */
  predicate ContainerProof(v: Verification, c: Commands) {
    IsAcknowledged(c.appServerArchive) && !c.appServerArchive.checkedAt.Missing?
    && IsAcknowledged(c.delete) && !c.delete.checkedAt.Missing?
    && v.cli.status == Absent && !v.cli.checkedAt.Missing?
    && c.desktopArchive.status == CommandNotApplicable
  }

  /** `^[a-z][a-z0-9_]{0,63}$` */
  predicate IsLabel(s: string) {
    0 < |s| <= 64 && 'a' <= s[0] <= 'z'
    && forall c <- s :: 'a' <= c <= 'z' || '0' <= c <= '9' || c == '_'
  }

  predicate SideOk(s: Side) {
    !s.checkedAt.Malformed?
  }

  predicate EvidenceOk(e: Evidence) {
    !e.checkedAt.Malformed? && |e.requestDigest| <= 64 && |e.routeDigest| <= 64 && |e.appInstanceDigest| <= 64
  }

  /** The shape of every field, before the state is looked at. */
  predicate FieldsOk(r: Receipt) {
    r.attempts >= 0
    && !r.requestedAt.Malformed? && !r.lastAttemptAt.Malformed? && !r.nextAttemptAt.Malformed? && !r.completedAt.Malformed?
    && (r.errorCode == "" || IsLabel(r.errorCode))
    && SideOk(r.verification.cli) && SideOk(r.verification.desktopBackend) && SideOk(r.verification.desktopLive)
    && EvidenceOk(r.commands.desktopArchive) && EvidenceOk(r.commands.appServerArchive) && EvidenceOk(r.commands.delete)
  }

  predicate HasAttempt(r: Receipt) {
    r.attempts >= 1 && !r.requestedAt.Missing? && !r.lastAttemptAt.Missing?
  }

  predicate IsHarmlessStatus(s: CommandStatus) {
    s == Acknowledged || s == Confirmed || s == CommandNotApplicable || s == CommandNotRequested
  }

  /** The evidence a succeeded receipt must carry under its strategy. */
  predicate SuccessProof(r: Receipt) {
    match r.strategy
    case ContainerArchiveThenDelete => ContainerProof(r.verification, r.commands)
    case OfficialArchiveThenDelete =>
      IsAcknowledged(r.commands.desktopArchive) && IsAcknowledged(r.commands.delete)
      && !r.commands.desktopArchive.checkedAt.Missing? && !r.commands.delete.checkedAt.Missing?
    case _ =>
      IsHarmlessStatus(r.commands.desktopArchive.status) && IsHarmlessStatus(r.commands.appServerArchive.status)
      && IsHarmlessStatus(r.commands.delete.status)
  }

  predicate StateOk(r: Receipt) {
    match r.state
    case NotRequested =>
      r.attempts == 0 && r.requestedAt.Missing? && r.lastAttemptAt.Missing? && r.nextAttemptAt.Missing? && r.completedAt.Missing?
      && r.errorCode == "" && r.capability == UnknownCapability && r.strategy == NoStrategy && !r.retryable
      && r.verification == EmptyVerification(SideUnknown) && r.commands == EmptyCommands(CommandNotRequested, Missing)
    case Retained =>
      r.capability == NotApplicable && r.strategy == Retain
      && !r.completedAt.Missing? && !r.retryable && r.errorCode == ""
    case Pending =>
      r.capability in {UnknownCapability, Supported} && r.strategy != Retain
      && HasAttempt(r) && r.completedAt.Missing? && !r.retryable && r.errorCode == ""
    case Succeeded =>
      r.capability == Supported && r.strategy != NoStrategy && r.strategy != Retain
      && !r.completedAt.Missing? && !r.retryable && r.errorCode == "" && SuccessProof(r)
    case NotSupported =>
      r.capability == Unsupported && r.strategy == NoStrategy
      && !r.completedAt.Missing? && !r.retryable && r.errorCode != ""
    case Failed =>
      r.capability in {UnknownCapability, Supported} && r.strategy != Retain
      && HasAttempt(r) && r.completedAt.Missing? && r.errorCode != ""
      && (r.retryable <==> !r.nextAttemptAt.Missing?)
  }

  /** `validate_session_cleanup_receipt` finds nothing to object to. */
  predicate Valid(r: Receipt) {
    FieldsOk(r) && StateOk(r)
  }

  predicate IsResolved(s: CleanupState) {
    s == Retained || s == Succeeded || s == NotSupported
  }
}
