/**
  The cleanup receipt machine of one auxiliary session: its blockers, its
  transitions, and whole runs of them
  (src/agent_bridge_connect/auxiliary_sessions.py:867-1137).
*/
module AuxiliaryCleanup {
  import opened Outcomes
  import opened Text
  import opened Clock
  import opened AuxiliaryLedger
  import opened CleanupReceipt

  const BAD_TRANSITION := "invalid_auxiliary_session_cleanup_transition"

  /** Evidence handed in by an adapter: none, of no known shape, or well shaped. */
  datatype Given<T> = NotGiven | Shapeless | Given(value: T)

  /** What a caller passes along with the target state. */
  datatype Inputs = Inputs(
    leaseState: string, dialogDelivered: bool, capability: Option<Capability>, strategy: Option<Strategy>,
    errorCode: string, retryable: bool, nextAttemptAt: Stamp,
    verification: Given<Verification>, commands: Given<Commands>, occurredAt: Stamp, archiveAck: bool)

  datatype Blocker =
    | DialogNotDelivered | LeaseNotClosed | LedgerInvalid | ReceiptUnbound
    | RetentionEnabled | PendingReservation | AlreadyResolved

  predicate IsCodex(e: Entry) {
    Normal(e.executor) == "codex"
  }

  /** The run lease is closed and the dialog that ends the task has been delivered. */
  predicate GatesOpen(i: Inputs) {
    i.dialogDelivered && Normal(i.leaseState) == "closed"
  }

  function When(condition: bool, b: Blocker): seq<Blocker> {
    if condition then [b] else []
  }

  /** `auxiliary_cleanup_blockers` */
  function Blockers(e: Entry, i: Inputs): seq<Blocker> {
    var outer := When(!i.dialogDelivered, DialogNotDelivered) + When(Normal(i.leaseState) != "closed", LeaseNotClosed);
    if !EntryOk(e) then outer + [LedgerInvalid]
    else
      outer
      + When(IsCodex(e) && e.source != OfficialSource("codex"), ReceiptUnbound)
      + When(e.retain, RetentionEnabled)
      + When(Strip(e.sessionId) == "", PendingReservation)
      + When(IsResolved(e.cleanup.state), AlreadyResolved)
  }

  function WithoutRetention(blockers: seq<Blocker>): seq<Blocker> {
    if blockers == [] then []
    else (if blockers[0] == RetentionEnabled then [] else [blockers[0]]) + WithoutRetention(blockers[1..])
  }

  // ------------------------------------------------------------ evidence

  /** `normalize_cleanup_verification`: evidence that cannot be read counts as unknown. */
  function NormalVerification(g: Given<Verification>): Verification {
    if g.Given? && SideOk(g.value.cli) && SideOk(g.value.desktopBackend) && SideOk(g.value.desktopLive) then g.value
    else EmptyVerification(SideUnknown)
  }

  /** `normalize_cleanup_commands`: evidence that cannot be read counts as not requested. */
  function NormalCommands(g: Given<Commands>): Commands {
    if g.Given? && !g.value.desktopArchive.checkedAt.Malformed? && !g.value.appServerArchive.checkedAt.Malformed?
       && !g.value.delete.checkedAt.Malformed? then g.value
    else EmptyCommands(CommandNotRequested, Missing)
  }

  function VerificationOr(g: Given<Verification>, fallback: Verification): Verification {
    if g.NotGiven? then fallback else NormalVerification(g)
  }

  function CommandsOr(g: Given<Commands>, fallback: Commands): Commands {
    if g.NotGiven? then fallback else NormalCommands(g)
  }

  function OrElse<T>(o: Option<T>, fallback: T): T {
    if o.Some? then o.value else fallback
  }

  predicate NothingRequested(c: Commands) {
    c.desktopArchive.status == CommandNotRequested && c.appServerArchive.status == CommandNotRequested
    && c.delete.status == CommandNotRequested
  }

  predicate AllAbsent(v: Verification) {
    v.cli.status == Absent && v.desktopBackend.status == Absent && v.desktopLive.status == Absent
  }

  // ------------------------------------------------------------ transitions

  function Validated(r: Receipt): Result<Receipt> {
    if Valid(r) then Ok(r) else Err(BAD_TRANSITION)
  }

  function ToRetained(e: Entry, i: Inputs, at: Stamp): Result<Receipt> {
    var r := e.cleanup;
    if r.state != NotRequested || !e.retain then Err(BAD_TRANSITION)
    else if WithoutRetention(Blockers(e, i)) != [] then Err(BAD_TRANSITION)
    else
      Validated(r.(capability := NotApplicable, strategy := Retain, state := Retained, completedAt := at, errorCode := "",
                   retryable := false, nextAttemptAt := Missing, verification := EmptyVerification(SideUnknown)))
  }

  /** The backoff of a failed cleanup has elapsed. */
  predicate Due(r: Receipt, at: Stamp) {
    r.nextAttemptAt.At? && at.At? && at.instant >= r.nextAttemptAt.instant
  }

  /** Whether a failed cleanup may be tried again. */
  predicate MayRetry(e: Entry, i: Inputs, at: Stamp) {
    var r := e.cleanup;
    if i.archiveAck then IsCodex(e)
    else r.retryable && r.attempts < MAX_SESSION_CLEANUP_ATTEMPTS && Due(r, at)
  }

  function ToPending(e: Entry, i: Inputs, at: Stamp): Result<Receipt> {
    var r := e.cleanup;
    if r.state != NotRequested && r.state != Failed then Err(BAD_TRANSITION)
    else if Blockers(e, i) != [] then Err(BAD_TRANSITION)
    else if r.state == Failed && !MayRetry(e, i, at) then Err(BAD_TRANSITION)
    else
      Validated(r.(capability := OrElse(i.capability, r.capability), strategy := OrElse(i.strategy, r.strategy), state := Pending,
                   attempts := r.attempts + 1, requestedAt := if r.requestedAt.Missing? then at else r.requestedAt,
                   lastAttemptAt := at, nextAttemptAt := Missing, completedAt := Missing, errorCode := "", retryable := false,
                   verification := EmptyVerification(SideUnknown), commands := EmptyCommands(CommandNotRequested, Missing)))
  }

  /** The evidence a success is recorded with, or a refusal. */
  function SuccessEvidence(e: Entry, i: Inputs, at: Stamp): Result<(Verification, Commands)> {
    var r := e.cleanup;
    var strategy := OrElse(i.strategy, r.strategy);
    var given := CommandsOr(i.commands, r.commands);
    if !IsCodex(e) then
      Ok((VerificationOr(i.verification, EmptyVerification(SideNotApplicable)), EmptyCommands(CommandNotApplicable, at)))
    else
      var verification := VerificationOr(i.verification, r.verification);
      if NothingRequested(given) && strategy == OfficialArchiveThenDelete then Err(BAD_TRANSITION)
      else
        var commands := if NothingRequested(given) then EmptyCommands(CommandNotApplicable, at) else given;
        if strategy == ContainerArchiveThenDelete then
          if ContainerProof(verification, commands) then Ok((verification, commands)) else Err(BAD_TRANSITION)
        else if strategy == OfficialArchiveThenDelete then
          if IsAcknowledged(commands.desktopArchive) && IsAcknowledged(commands.delete)
          then Ok((verification.(desktopLive := Side(SideNotApplicable, at)), commands))
          else Err(BAD_TRANSITION)
        else if AllAbsent(verification) then Ok((verification, commands))
        else Err(BAD_TRANSITION)
  }

  function ToSucceeded(e: Entry, i: Inputs, at: Stamp): Result<Receipt> {
    var r := e.cleanup;
    var (verification, commands) :- SuccessEvidence(e, i, at);
    Validated(r.(lastAttemptAt := at, capability := OrElse(i.capability, r.capability), strategy := OrElse(i.strategy, r.strategy),
                 state := Succeeded, completedAt := at, errorCode := "", retryable := false, nextAttemptAt := Missing,
                 verification := verification, commands := commands))
  }

  function ToUnsupported(e: Entry, i: Inputs, at: Stamp): Result<Receipt> {
    var r := e.cleanup;
    Validated(r.(lastAttemptAt := at, capability := OrElse(i.capability, Unsupported), strategy := OrElse(i.strategy, NoStrategy),
                 state := NotSupported, completedAt := at,
                 errorCode := if i.errorCode != "" then i.errorCode else "session_cleanup_unsupported",
                 retryable := false, nextAttemptAt := Missing,
                 verification := VerificationOr(i.verification, r.verification), commands := CommandsOr(i.commands, r.commands)))
  }

  function ToFailed(e: Entry, i: Inputs, at: Stamp): Result<Receipt> {
    var r := e.cleanup;
    Validated(r.(lastAttemptAt := at, capability := OrElse(i.capability, r.capability), strategy := OrElse(i.strategy, r.strategy),
                 state := Failed, completedAt := Missing, errorCode := i.errorCode, retryable := i.retryable,
                 nextAttemptAt := i.nextAttemptAt,
                 verification := VerificationOr(i.verification, r.verification), commands := CommandsOr(i.commands, r.commands)))
  }

  /** `transition_auxiliary_cleanup` */
  function Transition(e: Entry, target: CleanupState, i: Inputs, now: nat): Result<Receipt> {
    var r := e.cleanup;
    var at := OrNow(i.occurredAt, now);
    if !EntryOk(e) then Err(BAD_TRANSITION)
    else if IsResolved(r.state) || r.state == target then Ok(r)
    else if at.Malformed? then Err(BAD_TRANSITION)
    else if target == Retained then ToRetained(e, i, at)
    else if target == Pending then ToPending(e, i, at)
    else if r.state != Pending || target == NotRequested then Err(BAD_TRANSITION)
    else if Blockers(e, i) != [] then Err(BAD_TRANSITION)
    else match target
      case Succeeded => ToSucceeded(e, i, at)
      case NotSupported => ToUnsupported(e, i, at)
      case _ => ToFailed(e, i, at)
  }

  // ------------------------------------------------------------ what the blockers block

  /** The entry may be cleaned as it stands. */
  predicate Cleanable(e: Entry) {
    EntryOk(e) && (IsCodex(e) ==> e.source == OfficialSource("codex")) && !e.retain && Strip(e.sessionId) != ""
    && !IsResolved(e.cleanup.state)
  }

  /** Nothing blocks exactly when the gates are open and the entry may be cleaned. */
  lemma UnblockedIff(e: Entry, i: Inputs)
    ensures Blockers(e, i) == [] <==> GatesOpen(i) && Cleanable(e)
  {
    hide EntryOk, Normal, Strip;
  }

  /** A retained session needs the same, but that it is kept. */
  lemma RetainableIff(e: Entry, i: Inputs)
    ensures WithoutRetention(Blockers(e, i)) == [] <==> GatesOpen(i) && Cleanable(e.(retain := false))
  {
    hide EntryOk, Normal, Strip, WithoutRetention;
    RetentionIsNoDefect(e);
    KeepsAllButRetention(Blockers(e, i));
    var b := Blockers(e, i);
    if GatesOpen(i) && Cleanable(e.(retain := false)) {
      assert forall x <- b :: x == RetentionEnabled;
    } else {
      assert exists x <- b :: x != RetentionEnabled by {
        if EntryOk(e) {
          assert !i.dialogDelivered ==> DialogNotDelivered in b;
          assert Normal(i.leaseState) != "closed" ==> LeaseNotClosed in b;
          assert IsCodex(e) && e.source != OfficialSource("codex") ==> ReceiptUnbound in b;
          assert Strip(e.sessionId) == "" ==> PendingReservation in b;
          assert IsResolved(e.cleanup.state) ==> AlreadyResolved in b;
        } else {
          assert LedgerInvalid in b;
        }
      }
    }
  }

  lemma RetentionIsNoDefect(e: Entry)
    ensures EntryOk(e.(retain := false)) <==> EntryOk(e)
  {
    hide Normal, Strip, Valid, IsLabel, IsExecutor;
  }

  lemma {:induction false} KeepsAllButRetention(blockers: seq<Blocker>)
    ensures WithoutRetention(blockers) == [] <==> forall x <- blockers :: x == RetentionEnabled
  {
    if blockers != [] {
      KeepsAllButRetention(blockers[1..]);
      assert blockers[0] in blockers;
      assert forall x :: x in blockers <==> x == blockers[0] || x in blockers[1..];
    }
  }

  // ------------------------------------------------------------ one transition

  /** The moves of the machine. */
  predicate IsMove(from: CleanupState, to: CleanupState) {
    (from == NotRequested && to in {Retained, Pending})
    || (from == Pending && to in {Succeeded, NotSupported, Failed})
    || (from == Failed && to == Pending)
  }

  /** A transition that changes the receipt is a move, keeps it valid, and finds the gates open and the session bound. */
  lemma TransitionMoves(e: Entry, target: CleanupState, i: Inputs, now: nat)
    requires Transition(e, target, i, now).Ok?
    ensures var r := Transition(e, target, i, now).value;
            EntryOk(e) && Valid(r)
            && (if IsResolved(e.cleanup.state) || e.cleanup.state == target then r == e.cleanup
                else r.state == target && IsMove(e.cleanup.state, target) && GatesOpen(i)
                     && Cleanable(e.(retain := false)) && (e.retain <==> target == Retained)
                     && r.attempts == e.cleanup.attempts + (if target == Pending then 1 else 0))
  {
    hide EntryOk, Valid, Normal, Strip, Blockers, WithoutRetention, SuccessEvidence, MayRetry, NormalVerification,
         NormalCommands;
    UnblockedIff(e, i);
    RetainableIff(e, i);
    RetentionIsNoDefect(e);
    EntryCleanupValid(e);
  }

  lemma EntryCleanupValid(e: Entry)
    requires EntryOk(e)
    ensures Valid(e.cleanup)
  {
    hide Normal, Strip, Valid, IsLabel, IsExecutor;
  }

  /** Resolved is final, and the current state is no transition: neither changes or counts anything, whatever the inputs. */
  lemma NothingToDo(e: Entry, target: CleanupState, i: Inputs, now: nat)
    requires EntryOk(e) && (IsResolved(e.cleanup.state) || e.cleanup.state == target)
    ensures Transition(e, target, i, now) == Ok(e.cleanup)
  {
    hide EntryOk;
  }

  /** The receipt a request for cleanup leads to is valid exactly under these two conditions. */
  predicate RequestableUnder(i: Inputs, r: Receipt) {
    OrElse(i.capability, r.capability) in {UnknownCapability, Supported} && OrElse(i.strategy, r.strategy) != Retain
  }

  /** A failed cleanup is tried again exactly under these conditions. */
  lemma RetryIff(e: Entry, i: Inputs, now: nat)
    requires e.cleanup.state == Failed
    ensures Transition(e, Pending, i, now).Ok? <==>
              Cleanable(e) && GatesOpen(i) && !i.occurredAt.Malformed? && RequestableUnder(i, e.cleanup)
              && (if i.archiveAck then IsCodex(e)
                  else e.cleanup.retryable && e.cleanup.attempts < MAX_SESSION_CLEANUP_ATTEMPTS
                       && Due(e.cleanup, OrNow(i.occurredAt, now)))
  {
    hide EntryOk, IsLabel, Normal, Strip, Blockers;
    UnblockedIff(e, i);
    if EntryOk(e) {
      EntryCleanupValid(e);
    }
  }

  /** With an archive acknowledgement the limit on attempts does not hold. */
  lemma AcknowledgementLiftsTheLimit(e: Entry, i: Inputs, now: nat)
    requires Cleanable(e) && IsCodex(e) && e.cleanup.state == Failed && e.cleanup.attempts == MAX_SESSION_CLEANUP_ATTEMPTS
    requires GatesOpen(i) && i.archiveAck && i.capability.None? && i.strategy.None? && !i.occurredAt.Malformed?
    ensures Transition(e, Pending, i, now).Ok?
    ensures Transition(e, Pending, i, now).value.attempts == MAX_SESSION_CLEANUP_ATTEMPTS + 1
  {
    hide Cleanable, EntryOk, Transition, IsLabel;
    assert EntryOk(e) by { CleanableIsOk(e); }
    EntryCleanupValid(e);
    RetryIff(e, i, now);
    TransitionMoves(e, Pending, i, now);
  }

  lemma CleanableIsOk(e: Entry)
    requires Cleanable(e)
    ensures EntryOk(e) && !e.retain
  {
    hide EntryOk;
  }

  // ------------------------------------------------------------ what a success proves

  /** One of the three proofs of a Codex cleanup. */
  predicate CodexProof(r: Receipt) {
    match r.strategy
    case ContainerArchiveThenDelete => ContainerProof(r.verification, r.commands)
    case OfficialArchiveThenDelete =>
      IsAcknowledged(r.commands.desktopArchive) && !r.commands.desktopArchive.checkedAt.Missing?
      && IsAcknowledged(r.commands.delete) && !r.commands.delete.checkedAt.Missing?
      && r.verification.desktopLive.status == SideNotApplicable
    case _ => AllAbsent(r.verification)
  }

  /** A session that needs no commands: its receipt says so for all three. */
  predicate NoCommandsProof(r: Receipt) {
    r.commands.desktopArchive.status == CommandNotApplicable && r.commands.appServerArchive.status == CommandNotApplicable
    && r.commands.delete.status == CommandNotApplicable
    && r.strategy in {ClaudeProjectPurge, OfficialDelete}
  }

  lemma SuccessIsProved(e: Entry, i: Inputs, now: nat)
    requires e.cleanup.state == Pending && Transition(e, Succeeded, i, now).Ok?
    ensures var r := Transition(e, Succeeded, i, now).value;
            r.capability == Supported && if IsCodex(e) then CodexProof(r) else NoCommandsProof(r)
  {
    hide EntryOk, FieldsOk, Normal, Strip, Blockers;
  }

  // ------------------------------------------------------------ runs

  /** An attempt to move the receipt, or another write of the ledger to the same entry. */
  datatype Event = Attempt(target: CleanupState, inputs: Inputs, now: nat) | Rewrite(entry: Entry)

  /** One change of the receipt, and what it was made with. */
  datatype Change = Change(from: CleanupState, to: CleanupState, inputs: Inputs)

  datatype Trace = Trace(entry: Entry, changes: seq<Change>)

  /** An attempt that raises changes nothing; a write of the ledger leaves the receipt and only grows the entry older. */
  function Step(t: Trace, event: Event): Trace {
    match event
    case Attempt(target, inputs, now) => (
      match Transition(t.entry, target, inputs, now)
      case Ok(r) =>
        if r.state == t.entry.cleanup.state then t
        else Trace(t.entry.(cleanup := r), t.changes + [Change(t.entry.cleanup.state, r.state, inputs)])
      case Err(_) => t)
    case Rewrite(entry) => if EntryOk(entry) && EntryEvolves(t.entry, entry) then t.(entry := entry) else t
  }

  function Run(t: Trace, events: seq<Event>): Trace
    decreases |events|
  {
    hide *;
    if events == [] then t else Step(Run(t, events[..|events| - 1]), events[|events| - 1])
  }

  /** The changes are a walk of the machine from its start to this state, every one of them with open gates. */
  predicate IsWalk(changes: seq<Change>, end: CleanupState) {
    if changes == [] then end == NotRequested
    else
      var last := changes[|changes| - 1];
      last.to == end && IsMove(last.from, last.to) && GatesOpen(last.inputs) && IsWalk(changes[..|changes| - 1], last.from)
  }

  function Requests(changes: seq<Change>): nat {
    if changes == [] then 0
    else Requests(changes[..|changes| - 1]) + (if changes[|changes| - 1].to == Pending then 1 else 0)
  }

  /** How many changes a state takes with so many attempts. */
  function ChangesAt(state: CleanupState, attempts: int): int {
    match state
    case NotRequested => 0
    case Retained => 1
    case Pending => 2 * attempts - 1
    case _ => 2 * attempts
  }

  /** What a bound, cleaned session has behind it. */
  predicate SafelyCleaned(e: Entry) {
    Strip(e.sessionId) != "" && !e.retain && (IsCodex(e) ==> e.source == OfficialSource("codex"))
    && e.cleanup.capability == Supported && if IsCodex(e) then CodexProof(e.cleanup) else NoCommandsProof(e.cleanup)
  }

  ghost predicate TraceOk(t: Trace) {
    EntryOk(t.entry)
    && IsWalk(t.changes, t.entry.cleanup.state)
    && t.entry.cleanup.attempts == Requests(t.changes)
    && |t.changes| == ChangesAt(t.entry.cleanup.state, t.entry.cleanup.attempts)
    && (t.entry.cleanup.state == NotRequested || (Strip(t.entry.sessionId) != "" && (t.entry.retain <==> t.entry.cleanup.state == Retained)))
    && (t.entry.cleanup.state == Succeeded ==> SafelyCleaned(t.entry))
  }

  lemma WalkExtends(changes: seq<Change>, c: Change)
    requires IsWalk(changes, c.from) && IsMove(c.from, c.to) && GatesOpen(c.inputs)
    ensures IsWalk(changes + [c], c.to)
    ensures Requests(changes + [c]) == Requests(changes) + (if c.to == Pending then 1 else 0)
  {
    hide GatesOpen;
    assert (changes + [c])[..|changes|] == changes;
  }

  /** The receipt of an entry can be replaced by any valid one, once it is bound. */
  lemma WithReceipt(e: Entry, r: Receipt)
    requires EntryOk(e) && Valid(r) && e.sessionState != Reserved
    ensures EntryOk(e.(cleanup := r))
  {
    hide Valid, IsLabel, Normal, Strip, IsExecutor;
  }

  lemma BoundIsNotReserved(e: Entry)
    requires EntryOk(e) && Strip(e.sessionId) != ""
    ensures e.sessionState != Reserved
  {
    hide Valid, IsLabel, Normal, Strip, IsExecutor;
    StripIdentity("");
  }

  /** Cleanup has not been asked for exactly when nothing has changed, and then no attempt was made. */
  lemma FreshMeansNoAttempt(t: Trace)
    requires TraceOk(t)
    ensures t.entry.cleanup.state == NotRequested <==> t.changes == []
    ensures t.changes == [] ==> t.entry.cleanup.attempts == 0
  {
    hide EntryOk;
  }

  lemma AttemptKeepsTrace(t: Trace, target: CleanupState, inputs: Inputs, now: nat)
    requires TraceOk(t)
    ensures TraceOk(Step(t, Attempt(target, inputs, now)))
  {
    hide EntryOk, Valid, Transition, GatesOpen, IsWalk, Requests, IsCodex, Strip, CodexProof, NoCommandsProof,
         OfficialSource, EntryEvolves;
    var e := t.entry;
    FreshMeansNoAttempt(t);
    if Transition(e, target, inputs, now).Ok? {
      var r := Transition(e, target, inputs, now).value;
      TransitionMoves(e, target, inputs, now);
      if r.state != e.cleanup.state {
        WalkExtends(t.changes, Change(e.cleanup.state, r.state, inputs));
        BoundIsNotReserved(e);
        WithReceipt(e, r);
        RetentionIsNoDefect(e);
        CodexStays(e, r);
        if target == Succeeded {
          SuccessIsProved(e, inputs, now);
        }
      }
    }
  }

  lemma CodexStays(e: Entry, r: Receipt)
    ensures IsCodex(e.(cleanup := r)) <==> IsCodex(e)
    ensures IsCodex(e.(retain := false)) <==> IsCodex(e)
  {
    hide Normal;
  }

  lemma RewriteKeepsTrace(t: Trace, entry: Entry)
    requires TraceOk(t)
    ensures TraceOk(Step(t, Rewrite(entry)))
  {
    hide EntryOk, IsWalk, Requests, Normal, Strip, CodexProof, NoCommandsProof, OfficialSource;
    StripIdentity("");
  }

  lemma StepKeepsTrace(t: Trace, event: Event)
    requires TraceOk(t)
    ensures TraceOk(Step(t, event))
  {
    hide TraceOk, Step;
    match event {
      case Attempt(target, inputs, now) => AttemptKeepsTrace(t, target, inputs, now);
      case Rewrite(entry) => RewriteKeepsTrace(t, entry);
    }
  }

  /** An entry whose cleanup has not been asked for starts an orderly trace. */
  lemma StartsInOrder(e: Entry)
    requires EntryOk(e) && e.cleanup.state == NotRequested
    ensures TraceOk(Trace(e, []))
  {
    hide IsLabel, Normal, Strip, IsExecutor, FieldsOk;
  }

  /**
    Every run of the machine is a walk: its attempts are its requests, every
    change found the gates open, and a session that was cleaned was bound, not
    to be retained, officially registered, and proved gone.
  */
  lemma {:induction false} EveryCleanupRunIsOrderly(e: Entry, events: seq<Event>)
    requires EntryOk(e) && e.cleanup.state == NotRequested
    ensures TraceOk(Run(Trace(e, []), events))
    decreases |events|
  {
    hide EntryOk, TraceOk, Step;
    if events == [] {
      StartsInOrder(e);
    } else {
      EveryCleanupRunIsOrderly(e, events[..|events| - 1]);
      StepKeepsTrace(Run(Trace(e, []), events[..|events| - 1]), events[|events| - 1]);
    }
  }

  /** A cleaned session had its lease closed and its dialog delivered both when the cleanup was asked for and when it was resolved. */
  lemma CleanedSafely(e: Entry, events: seq<Event>)
    requires EntryOk(e) && e.cleanup.state == NotRequested
    requires Run(Trace(e, []), events).entry.cleanup.state == Succeeded
    ensures var t := Run(Trace(e, []), events);
            SafelyCleaned(t.entry)
            && exists i, j :: 0 <= i < j < |t.changes|
                 && t.changes[i].to == Pending && GatesOpen(t.changes[i].inputs)
                 && t.changes[j].to == Succeeded && GatesOpen(t.changes[j].inputs)
  {
    hide EntryOk, GatesOpen, SafelyCleaned, Requests;
    EveryCleanupRunIsOrderly(e, events);
    var t := Run(Trace(e, []), events);
    var n := |t.changes|;
    assert IsWalk(t.changes, Succeeded);
    var init := t.changes[..n - 1];
    assert IsWalk(init, Pending);
    assert init[|init| - 1] == t.changes[n - 2];
    assert t.changes[n - 2].to == Pending && t.changes[n - 1].to == Succeeded;
  }

  predicate WithoutAck(event: Event) {
    event.Attempt? ==> !event.inputs.archiveAck
  }

  lemma StepKeepsLimit(t: Trace, event: Event)
    requires TraceOk(t) && WithoutAck(event) && t.entry.cleanup.attempts <= MAX_SESSION_CLEANUP_ATTEMPTS
    ensures Step(t, event).entry.cleanup.attempts <= MAX_SESSION_CLEANUP_ATTEMPTS
  {
    hide EntryOk, Valid, Transition, GatesOpen, IsWalk, Requests, Strip, SafelyCleaned, IsCodex, Cleanable;
    match event {
      case Rewrite(_) =>
      case Attempt(target, inputs, now) =>
        var e := t.entry;
        FreshMeansNoAttempt(t);
        if Transition(e, target, inputs, now).Ok? {
          TransitionMoves(e, target, inputs, now);
          if e.cleanup.state == Failed && target == Pending {
            RetryIff(e, inputs, now);
          }
        }
    }
  }

  /**
    Without authoritative acknowledgements the machine stops by itself: at most
    MAX attempts and 2 * MAX changes, however long the run. With them, changes
    are still bounded by twice the attempts.
  */
  lemma {:induction false} CleanupIsBounded(e: Entry, events: seq<Event>)
    requires EntryOk(e) && e.cleanup.state == NotRequested
    ensures var t := Run(Trace(e, []), events);
            (t.entry.cleanup.state != Retained ==> |t.changes| <= 2 * t.entry.cleanup.attempts)
            && ((forall event <- events :: WithoutAck(event)) ==>
                  t.entry.cleanup.attempts <= MAX_SESSION_CLEANUP_ATTEMPTS
                  && |t.changes| <= 2 * MAX_SESSION_CLEANUP_ATTEMPTS)
    decreases |events|
  {
    hide EntryOk, Step, IsWalk, SafelyCleaned, WithoutAck, Requests, Strip;
    EveryCleanupRunIsOrderly(e, events);
    if events == [] {
      FreshMeansNoAttempt(Trace(e, []));
    } else {
      var init, last := events[..|events| - 1], events[|events| - 1];
      if forall event <- events :: WithoutAck(event) {
        assert last in events;
        CleanupIsBounded(e, init);
        EveryCleanupRunIsOrderly(e, init);
        StepKeepsLimit(Run(Trace(e, []), init), last);
      }
    }
  }

  /** A resolved receipt never changes again, whatever is attempted. */
  lemma {:induction false} ResolvedForGood(t: Trace, events: seq<Event>)
    requires TraceOk(t) && IsResolved(t.entry.cleanup.state)
    ensures TraceOk(Run(t, events)) && Run(t, events).entry.cleanup == t.entry.cleanup && Run(t, events).changes == t.changes
    decreases |events|
  {
    hide Transition, EntryOk, TraceOk;
    if events != [] {
      var init, last := events[..|events| - 1], events[|events| - 1];
      ResolvedForGood(t, init);
      var before := Run(t, init);
      StepKeepsTrace(before, last);
      if last.Attempt? {
        assert EntryOk(before.entry) by { TraceEntryOk(before); }
        NothingToDo(before.entry, last.target, last.inputs, last.now);
      }
    }
  }

  lemma TraceEntryOk(t: Trace)
    requires TraceOk(t)
    ensures EntryOk(t.entry)
  {
    hide EntryOk;
  }
}
