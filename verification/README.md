# Approval, elevation, session and configuration protocols of Agent Bridge Connect

This project models the stateful protocols of Agent Bridge Connect and proves
what they guarantee over whole runs. All modules are plain Dafny; `dafny verify
dfyconfig.toml` checks the project.

* **Claude same-session elevation.** `ClaudeElevation` is the receipt with its
  history and its validator, `VerificationEvents` the selection of the tool
  event that verifies a run, `ClaudeTransport` the lock-protected fields of the
  SDK transport (a class whose methods are proved against one function per lock
  section), `ElevationRuns` every interleaving of those sections: callbacks,
  human decisions, time-outs, failed publications, tool events, the end of the
  stream and the death of the transport, and `ElevationBlocked` exactly when a
  blocked transport stays blocked, over all interleavings and over those of the
  worker's event loop.
* **Auxiliary sessions.** `AuxiliaryLedger` is the two-phase ledger (reserve,
  bind, terminal), `CodexCollaboration` the Codex handlers that drive it and
  whole runs of all of them, `CleanupReceipt` the cleanup receipt and its
  validator, `AuxiliaryCleanup` the cleanup machine and its runs.
* **Task elevation.** `NativeRequest` holds the facts both durable receipts are
  bound to, `ApprovalV3` is the approval receipt, `PermissionElevation` the
  elevation record, `TaskElevation` the lifecycle that writes both, and
  `TaskService` the object that holds the stored task.
* **Configuration text.** `JsonText` is the JSON used for values and quoted
  keys, `TomlConfig` the printer and the compatibility parser, and `TomlLines`,
  `TomlRoundTrip` and `TomlExact` the proof of exactly which tables are read
  back as they were written.
* **Bounded JSON and choices.** `BoundedJson` is the recursive bound,
  `BoundedText` whitespace collapse and bounded text, `Redaction` the three
  secret patterns, `ApprovalChoices` the v2 choice broker.

`Outcomes`, `Text` and `Clock` are shared: results and errors, the Python string
operations, and time stamps that are absent, unreadable or an instant.

Where the code and its documentation disagree the model follows the code:

* The docstring of `select_verification_event` says that an event with a failure
  twin never verifies; in approved mode the code does not look at failures, and
  keeps its description exactly when it selects nothing or none was seen
  (`VerificationEvents.ApprovedAnswerIsDocumentedIff`, with a log of two events in
  `ApprovedAnswerCanHaveATwin`).
* The module docstring of `permission_elevation.py` says that any record that is
  not verified can be blocked; a prepared record cannot
  (`PermissionElevation.BlockedIffDecided`).
* `mark_auxiliary_terminal` does not check its time stamp; an unreadable one
  makes the whole ledger unreadable (`AuxiliaryLedger.TerminalStampDecides`).
* A denial answered while a task is closing is reported as accepted and not
  stored (`TaskElevation.AnswerIsStoredUnlessClosing`).
* A block request repeated by an adapter is recognised only when it names its
  request and its identity texts are stored as they were said
  (`TaskElevation.ReplayedBlockIff`).
* With an authoritative archive acknowledgement a cleanup may exceed its limit
  of attempts (`AuxiliaryCleanup.AcknowledgementLiftsTheLimit`).
* Cutting a label can make a secret of a harmless word, and then the validator
  refuses what the builder has built (`ApprovalChoices.BuiltOfferIsValidIff`, with
  an offer in `CutLabelCanBeUnstable`).

The state field of the transport never leaves `blocked` in the runs its worker
can schedule (`ElevationBlocked.BlockedIsFinalOnTheLoop`). That rests on the event
loop: between reading the field and recording its question a callback awaits
nothing. With two callbacks inside that stretch at once, which the locks alone
would allow and the loop does not, the field can be reopened
(`ElevationBlocked.FailingClosedCanBeOvertaken`); the receipt cannot.

## Model

| member | source | states |
|---|---|---|
| ClaudeElevation.ScanHistory | src/agent_bridge_connect/claude_elevation.py:320-350 | the validator's loop with its running `previous` accepts a history exactly when it is a walk of the edge table that ends at the stored status, and rejects it otherwise |
| ClaudeElevation.WalkIsShort | src/agent_bridge_connect/claude_elevation.py:135-188 | every walk of the edge table has at most four steps and none leaves blocked |
| ClaudeElevation.EdgeTablesAgree | src/agent_bridge_connect/claude_elevation.py:152-163 | the edge table of the transition and the one of the validator are the same relation |
| ClaudeElevation.CommandAcceptedIffEdge | src/agent_bridge_connect/claude_elevation.py:135-188 | on a faithful receipt a command of the transport succeeds exactly when its target is the current status or one edge away |
| ClaudeElevation.TransitionIsMonotone | src/agent_bridge_connect/claude_elevation.py:135-188 | a successful transition keeps every binding, appends at most one hop, and leaves the decision as it is unless it carries one |
| ClaudeElevation.CommandExtends | src/agent_bridge_connect/claude_elevation.py:135-188 | a command keeps the receipt faithful: valid, its history a walk, its mode-update and anomaly counters 1 exactly when response-ready and blocked were visited |
| ClaudeElevation.DialogKeepsFaithful | src/agent_bridge_connect/claude_elevation.py:191-200 | recording the one dialog keeps a receipt faithful and is idempotent |
| ClaudeElevation.BuiltIsFaithful | src/agent_bridge_connect/claude_elevation.py:65-132 | every receipt the builder returns is faithful |
| ClaudeElevation.RunsStayFaithful | src/agent_bridge_connect/claude_elevation.py:135-200 | every sequence of commands keeps a receipt valid, with at most four history entries and the decision written at most once |
| ClaudeElevation.BlockedAndDeniedAreFinal | src/agent_bridge_connect/claude_elevation.py:135-188 | a blocked receipt never changes status again and a denied one never becomes response-ready or active |
| VerificationEvents.SelectVerificationEvent | src/agent_bridge_connect/claude_sdk_transport.py:1228-1284 | filter, count, collect failures, sort and scan return exactly the answer the contract determines: in approved mode the unique anchored success or nothing, in declared mode the least-sequence success whose identity is named, unique and without failure twin |
| VerificationEvents.CountIdentities | src/agent_bridge_connect/claude_sdk_transport.py:1264-1267 | the counting dictionary holds exactly how often every identity occurs |
| VerificationEvents.UniqueMatch | src/agent_bridge_connect/claude_sdk_transport.py:1248-1257 | a match is returned exactly when the anchor occurs once |
| VerificationEvents.SortKeeps | src/agent_bridge_connect/claude_sdk_transport.py:1274 | sorting by sequence yields an ordered list with the same events |
| VerificationEvents.AnswerIsUnique | src/agent_bridge_connect/claude_sdk_transport.py:1228-1284 | a log and a query determine the answer |
| VerificationEvents.ApprovedAnswerIsStable | src/agent_bridge_connect/claude_sdk_transport.py:1248-1257 | as the log grows the approved answer never changes to another event and never comes back after a duplicate |
| VerificationEvents.DeclaredAnswerNeverGoesBack | src/agent_bridge_connect/claude_sdk_transport.py:1258-1284 | as the log grows the sequence of the declared answer never decreases |
| VerificationEvents.LateEventsChangeNothing | src/agent_bridge_connect/claude_sdk_transport.py:1135-1148 | events stamped outside the run window never change either answer |
| VerificationEvents.ApprovedModeIgnoresFailures | src/agent_bridge_connect/claude_sdk_transport.py:1248-1257 | appending a failure of whatever call never changes the approved answer |
| VerificationEvents.ApprovedAnswerIsDocumentedIff | src/agent_bridge_connect/claude_sdk_transport.py:1234-1257 | in approved mode the answer is the one the docstring describes if and only if nothing was selected or no failure of the anchor was seen inside the run window; exactly then the answer has no failure twin |
| VerificationEvents.ApprovedAnswerCanHaveATwin | src/agent_bridge_connect/claude_sdk_transport.py:1248-1257 | a log of two events, the success of the approved call and its failure, whose success is selected against the docstring |
| ClaudeTransport.Transport.ReadGate | src/agent_bridge_connect/claude_sdk_transport.py:486-508 | reading the elevation state answers as the gate function says and changes nothing |
| ClaudeTransport.Transport.TryAdmit | src/agent_bridge_connect/claude_sdk_transport.py:509-527 | admits exactly an unseen, not pending identity while nothing is active, and changes the three fields together or not at all |
| ClaudeTransport.Transport.Finish | src/agent_bridge_connect/claude_sdk_transport.py:538-547 | the final block takes exactly this identity out of the pending set and frees the active slot if it holds it |
| ClaudeTransport.Transport.BindRequestId | src/agent_bridge_connect/claude_sdk_transport.py:776-779 | the request id is stored only while this identity still holds the active slot |
| ClaudeTransport.Transport.AnchorTo | src/agent_bridge_connect/claude_sdk_transport.py:945-950 | an accepted decision sets anchor and mode and nothing else |
| ClaudeTransport.Transport.RecordTransition | src/agent_bridge_connect/claude_sdk_transport.py:640-665 | builds the receipt once, keeps it when the transition is refused, and otherwise stores the new receipt and its status together |
| ClaudeTransport.Transport.FailClosedAfterPublish | src/agent_bridge_connect/claude_sdk_transport.py:666-674 | a failed publication blocks the state field and leaves the receipt |
| ClaudeTransport.Transport.CaptureToolEvent | src/agent_bridge_connect/claude_sdk_transport.py:1132-1148 | appends one record under the next sequence number, or nothing for an unknown event; the log stays numbered |
| ClaudeTransport.Transport.DeclareRunAuthorization | src/agent_bridge_connect/claude_sdk_transport.py:1187-1203 | sets mode and anchor, with the default of a declared run, even when it then refuses |
| ClaudeTransport.Transport.SelectEvidence | src/agent_bridge_connect/claude_sdk_transport.py:1228-1284 | the selection over the transport's own log meets the verification contract under its anchor and session |
| ElevationRuns.EveryRunIsSound | src/agent_bridge_connect/claude_sdk_transport.py:464-547 | over every interleaving: one request in flight, every identity asked at most once, a faithful receipt, an anchor a human accepted, and active only on anchored evidence |
| ElevationRuns.AllowOnlyAfterAccept | src/agent_bridge_connect/claude_sdk_transport.py:936-995 | every allow of a run is strictly preceded by a human accept, of the anchored call in safe-to-full mode; the session-wide mode update is answered at most once |
| ElevationRuns.EveryAllowIsAccepted | src/agent_bridge_connect/claude_sdk_transport.py:464-547 | the invariant behind it, for every run of a transport that was not authorised beforehand |
| ElevationRuns.OneQuestionPerCall | src/agent_bridge_connect/claude_sdk_transport.py:514-547 | every tool-use id reaches the control plane at most once over the run, time-outs and exceptions included; the pending set is empty or exactly the active id |
| ElevationRuns.ActiveOnlyOnEvidence | src/agent_bridge_connect/claude_sdk_transport.py:1149-1166 | whenever a run has been active, its log holds an in-window success of the accepted call in the bound session |
| ElevationRuns.ReceiptOnlyGrows | src/agent_bridge_connect/claude_sdk_transport.py:640-665 | between any two moments of a run the receipt keeps its binding, its history is extended along the graph and stays within four entries, a decision stays, blocked is final, denied never opens |
| ElevationRuns.RecordOutcome | src/agent_bridge_connect/claude_sdk_transport.py:626-675 | what recording any transition of the protocol does to an orderly state: nothing when refused, exactly the target status and one more visited status when accepted |
| ElevationRuns.ReadyIsForGood | src/agent_bridge_connect/claude_sdk_transport.py:936-995 | once response-ready was reached, no step of any thread changes the anchor |
| ElevationRuns.NewAllowIsAccepted | src/agent_bridge_connect/claude_sdk_transport.py:486-508 | the step that hands out an allow finds the human accept already recorded |
| ElevationBlocked.FailingClosedIsFinal | src/agent_bridge_connect/claude_sdk_transport.py:640-674 | once the state field is blocked it is blocked in every continuation, all interleavings allowed, if and only if no thread holds a section whose recording the receipt still takes: decided from the receipt's status and where each thread stands |
| ElevationBlocked.NothingAllowedIff | src/agent_bridge_connect/claude_sdk_transport.py:486-547 | once the state field is blocked it stays so and no callback is ever allowed again if and only if, besides, no thread has an allow left to hand out |
| ElevationBlocked.BlockedIsFinalOnTheLoop | src/agent_bridge_connect/claude_sdk_transport.py:464-1035 | in every run the worker's event loop can schedule, with the transport dying at any point from another thread, the state field never leaves blocked |
| ElevationBlocked.TwoPastTheGateReopen | src/agent_bridge_connect/claude_sdk_transport.py:486-547 | the interleaving the loop rules out: two callbacks past their reading of the field, the first of which cannot publish its question, block the field and show it pending again |
| ElevationBlocked.FailingClosedCanBeOvertaken | src/agent_bridge_connect/claude_sdk_transport.py:486-547 | that interleaving from the start of a transport with every identity and event written out |
| JsonText.PrintLoads | src/agent_bridge_connect/config.py:469-480 | decoding what is encoded gives the value back, for every boolean, integer, string of any characters, and nested list |
| JsonText.EscapeReads | src/agent_bridge_connect/config.py:463-480 | the escapes of section 7 of RFC 8259, surrogate pairs included, are inverted by the string reader |
| TomlConfig.WriteTable | src/agent_bridge_connect/config.py:250-268 | the recursive writer appends exactly the lines of the table: scalars first, then every child under its own header |
| TomlConfig.WriteConfig | src/agent_bridge_connect/config.py:248-271 | the whole text is those lines joined and ended by one line break |
| TomlConfig.ScanDottedKey | src/agent_bridge_connect/config.py:391-407 | the loop over the quoted, escaped and start flags splits as the recursive scanner does |
| TomlConfig.LoadConfig | src/agent_bridge_connect/config.py:345-361 | the line loop with its moving table pointer computes the load function, errors included |
| TomlLines.SplitInvertsJoin | src/agent_bridge_connect/config.py:391-407 | splitting the dot-join of printed keys gives exactly those keys back, for every list of keys, whatever dots, quotes and backslashes they hold |
| TomlLines.KeyReads | src/agent_bridge_connect/config.py:380-388 | parsing a printed key gives the key |
| TomlLines.ValueReads | src/agent_bridge_connect/config.py:364-377 | parsing a printed value gives the value |
| TomlLines.HeaderParses | src/agent_bridge_connect/config.py:345-361 | a header line without number sign moves the pointer to exactly its table |
| TomlLines.ScalarParses | src/agent_bridge_connect/config.py:345-361 | a scalar line assigns its value in the current table and nowhere else |
| TomlRoundTrip.TableParses | src/agent_bridge_connect/config.py:248-361 | reading the lines of a table grafts exactly its contents at its path, whatever the tree around it |
| TomlRoundTrip.CleanRoundTrips | src/agent_bridge_connect/config.py:248-361 | every table without number signs, and without equals signs in scalar keys, is read back as it was written |
| TomlExact.RoundTripsExactlyWhenClean | src/agent_bridge_connect/config.py:248-361 | the round trip succeeds if and only if the table is clean: any number sign in a key or string, or equals sign in a scalar key, breaks it |
| TomlExact.ReadBackIsFine | src/agent_bridge_connect/config.py:345-377 | whatever is read back from printed text holds neither character, which is why nothing else can round trip |
| TomlExact.CutUnreadable | src/agent_bridge_connect/config.py:364-377 | a printed value that was cut is unreadable, unless it is a cut integer |
| AuxiliaryLedger.MatchExistingReservation | src/agent_bridge_connect/auxiliary_sessions.py:1215-1236 | the loop returns the first entry of the same run, parent session, executor, purpose and item |
| AuxiliaryLedger.ReserveAuxiliarySession | src/agent_bridge_connect/auxiliary_sessions.py:246-373 | the statement order of the source answers as the reservation function, every refusal with its code |
| AuxiliaryLedger.BindAuxiliaryReceipt | src/agent_bridge_connect/auxiliary_sessions.py:376-461 | likewise for binding, with the overwriting loop |
| AuxiliaryLedger.MarkAuxiliaryTerminal | src/agent_bridge_connect/auxiliary_sessions.py:464-506 | likewise for ending a session |
| AuxiliaryLedger.ReserveKeeps | src/agent_bridge_connect/auxiliary_sessions.py:246-373 | a reservation adds at most one unbound entry under a uuid and a reservation key of its own, or returns the one there is; the ledger stays valid |
| AuxiliaryLedger.BindKeeps | src/agent_bridge_connect/auxiliary_sessions.py:376-461 | binding freezes the official session in exactly the named entry, changes nothing when repeated, and keeps the ledger |
| AuxiliaryLedger.FinalizeKeeps | src/agent_bridge_connect/auxiliary_sessions.py:464-506 | ending changes exactly the named entry, changes nothing when repeated, and keeps the ledger when the stamp can be read |
| AuxiliaryLedger.TerminalStampDecides | src/agent_bridge_connect/auxiliary_sessions.py:464-506 | after an accepted ending the ledger is readable if and only if the stamp is, or the session was terminal before |
| CodexCollaboration.CompletedKeeps | src/agent_bridge_connect/auxiliary_sessions.py:737-785 | a completed item leaves its entry bound to the receiver under the official source and terminal, and touches no other entry |
| CodexCollaboration.FirstCompletionSucceeds | src/agent_bridge_connect/auxiliary_sessions.py:737-785 | the first completion of a reserved child always succeeds, on its own entry |
| CodexCollaboration.ActivityKeeps | src/agent_bridge_connect/auxiliary_sessions.py:788-825 | an activity leaves its entry bound to the child, terminal when completed, and binds no other |
| CodexCollaboration.ApplyKeeps | src/agent_bridge_connect/auxiliary_sessions.py:246-825 | every operation that succeeds keeps the ledger and only lets it grow older |
| CodexCollaboration.EveryRunKeepsTheLedger | src/agent_bridge_connect/auxiliary_sessions.py:246-825 | over every run with readable stamps: at most 16 entries, unique uuids and reservation keys, reserved exactly while unbound, bindings and frozen fields for good, lifecycle forward only |
| CodexCollaboration.SuccessSettles | src/agent_bridge_connect/auxiliary_sessions.py:13-22 | whatever an operation set out to do is in the ledger when it succeeds |
| CodexCollaboration.SettledStays | src/agent_bridge_connect/auxiliary_sessions.py:13-22 | and no later operation takes it out again |
| CodexCollaboration.SettledMeansDone | src/agent_bridge_connect/auxiliary_sessions.py:246-825 | so performing it again changes nothing, and succeeds again unless it is an activity |
| CodexCollaboration.ActivityAgain | src/agent_bridge_connect/auxiliary_sessions.py:788-825 | a repeated activity succeeds exactly when its child is bound once and to the same owner |
| CodexCollaboration.RedeliveriesChangeNothing | src/agent_bridge_connect/auxiliary_sessions.py:246-825 | for every stream, whatever fails and whatever runs in between, dropping each operation that had already succeeded, under the same or another time stamp, leaves the same ledger |
| CodexCollaboration.AtLeastOnceIsOnce | src/agent_bridge_connect/auxiliary_sessions.py:509-825 | a stream that succeeds throughout leaves the ledger its first occurrences leave, time stamps aside |
| CodexCollaboration.CompletedApartIff | src/agent_bridge_connect/auxiliary_sessions.py:737-785 | a completed item keeps the bound sessions pairwise distinct if and only if no entry but its own is bound to its receiver |
| CodexCollaboration.BindingApartIff | src/agent_bridge_connect/auxiliary_sessions.py:376-461 | a direct binding keeps them distinct if and only if no other entry is bound to its session |
| CodexCollaboration.RunBindsApartIff | src/agent_bridge_connect/auxiliary_sessions.py:246-825 | over every run they end up pairwise distinct if and only if no successful binding or completed item names a session another entry holds at that moment |
| CodexCollaboration.ActivitiesBindApart | src/agent_bridge_connect/auxiliary_sessions.py:788-825 | so as long as only activities bind, bound sessions stay pairwise distinct over the whole run |
| CodexCollaboration.CompletedItemsShareAReceiver | src/agent_bridge_connect/auxiliary_sessions.py:737-785 | two reserved children whose items name one receiver both complete and share it |
| CodexCollaboration.ReconcileDescendants | src/agent_bridge_connect/auxiliary_sessions.py:828-864 | returns the official descendants exactly when all of them are registered for this owner |
| CodexCollaboration.RegisteredForGood | src/agent_bridge_connect/auxiliary_sessions.py:828-864 | a child that is registered stays so over every run |
| CodexCollaboration.CompletedIsRegistered | src/agent_bridge_connect/auxiliary_sessions.py:737-864 | a completed item registers its receiver |
| AuxiliaryCleanup.UnblockedIff | src/agent_bridge_connect/auxiliary_sessions.py:867-902 | no blocker is reported exactly when lease and dialog gates are open and the entry is valid, bound, officially registered, not retained and unresolved |
| AuxiliaryCleanup.RetainableIff | src/agent_bridge_connect/auxiliary_sessions.py:949-954 | without its retention blocker a retained session needs exactly the same |
| AuxiliaryCleanup.TransitionMoves | src/agent_bridge_connect/auxiliary_sessions.py:905-1088 | an accepted transition is a move of the machine with open gates, counts an attempt exactly when it requests, and leaves a valid receipt |
| AuxiliaryCleanup.NothingToDo | src/agent_bridge_connect/auxiliary_sessions.py:933-936 | a resolved receipt, or a repeated target, comes back unchanged whatever the inputs, and counts no attempt |
| AuxiliaryCleanup.RetryIff | src/agent_bridge_connect/auxiliary_sessions.py:976-1006 | a failed cleanup is retried exactly under these conditions: gates, entry, stamp, metadata, and either Codex with an archive acknowledgement or retryable, below the limit and past its backoff |
| AuxiliaryCleanup.AcknowledgementLiftsTheLimit | src/agent_bridge_connect/auxiliary_sessions.py:976-988 | with an archive acknowledgement a session at the limit is requested once more |
| AuxiliaryCleanup.SuccessIsProved | src/agent_bridge_connect/auxiliary_sessions.py:1017-1088 | a success carries one of the three proofs of a Codex cleanup, or no commands at all for another executor |
| AuxiliaryCleanup.EveryCleanupRunIsOrderly | src/agent_bridge_connect/auxiliary_sessions.py:905-1088 | every run from an unrequested receipt is a walk of the machine whose attempts are its requests, also while the ledger rewrites the entry |
| AuxiliaryCleanup.CleanedSafely | src/agent_bridge_connect/auxiliary_sessions.py:867-1088 | a session that reached succeeded was bound, not retained, officially registered and proved gone, and had its lease closed and dialog delivered both when requested and when resolved |
| AuxiliaryCleanup.CleanupIsBounded | src/agent_bridge_connect/auxiliary_sessions.py:976-1006 | without acknowledgements a run of any length makes at most MAX attempts and 2 * MAX changes |
| AuxiliaryCleanup.ResolvedForGood | src/agent_bridge_connect/auxiliary_sessions.py:933-936 | a resolved receipt never changes again over any run |
| ApprovalV3.EveryRunIsKept | src/agent_bridge_connect/approval.py:1420-1496 | every receipt that notify, decide and continue reach in any order is valid with fixed bindings, counters at most one and never falling, answered exactly with its one decision, continued only after approve_full |
| ApprovalV3.ExactReplayIsNoOp | src/agent_bridge_connect/approval.py:1451-1484 | an exact replay at whatever later time succeeds and changes nothing |
| ApprovalV3.ReplayDecides | src/agent_bridge_connect/approval.py:1451-1484 | a contradicting replay is refused |
| ApprovalV3.NotifyCommutes | src/agent_bridge_connect/approval.py:1490-1496 | notifying commutes with deciding and continuing, failures included |
| ApprovalV3.BuiltIsKept | src/agent_bridge_connect/approval.py:1124-1243 | a built receipt starts such a run, pending and uncounted |
| ApprovalV3.ValidatorIgnoresDecisionCount | src/agent_bridge_connect/approval.py:1364-1417 | the validator accepts either value of the decision counter; only the writes keep it true |
| PermissionElevation.StepMoves | src/agent_bridge_connect/permission_elevation.py:421-560 | every write is a move of the status graph or changes no status, and keeps the record valid |
| PermissionElevation.EveryRunIsKept | src/agent_bridge_connect/permission_elevation.py:421-560 | over every run: decided once, continued once, verified and blocked final, denied never opened |
| PermissionElevation.BlockedIffDecided | src/agent_bridge_connect/permission_elevation.py:543-560 | a record can be blocked exactly when it is blocked already, or decided and not verified, under a known code |
| PermissionElevation.BlockedNeverActivates | src/agent_bridge_connect/permission_elevation.py:475-511 | a blocked record is never activated |
| PermissionElevation.ApprovedActivatesIff | src/agent_bridge_connect/permission_elevation.py:475-511 | an approved record becomes active exactly under an identifier of a run and of a session |
| TaskElevation.EveryRunStaysInStep | src/agent_bridge_connect/approval_lifecycle.py:1193-2341 | over every run at most one elevation is built, and approval and record agree: prepared iff pending, denied iff deny, approved, active, verified or blocked iff approve_full, same decision, continuation and counters |
| TaskElevation.FullPermissionNeedsAnAnswer | src/agent_bridge_connect/approval_lifecycle.py:1193-2030 | whenever a run's elevation is approved, active, verified or blocked, some earlier event was a human approval of the waiting request before its deadline |
| TaskElevation.OneContinuation | src/agent_bridge_connect/approval_lifecycle.py:1677-1799 | an active or verified elevation has exactly one continuation, of one run and session, for the rest of the run |
| TaskElevation.FailureWritesNothing | src/agent_bridge_connect/approval_lifecycle.py:1193-2341 | a failing operation writes neither receipt, except that a repeated block also blocks a decided record |
| TaskElevation.RepeatedBlock | src/agent_bridge_connect/approval_lifecycle.py:1432-1465 | that exception blocks an approved or active record and leaves a verified one |
| TaskElevation.BlockKeeps | src/agent_bridge_connect/approval_lifecycle.py:1341-1619 | blocking builds the two receipts in step, with the same binding, counters and creation time |
| TaskElevation.ExpireKeeps | src/agent_bridge_connect/approval_lifecycle.py:2246-2341 | expiry denies both receipts or neither |
| TaskElevation.AnswerIsStoredUnlessClosing | src/agent_bridge_connect/approval_lifecycle.py:1801-2030 | an accepted answer is stored if and only if it is not the denial of a closing task |
| TaskElevation.ReplayedBlockIff | src/agent_bridge_connect/approval_lifecycle.py:1392-1425 | a repeated block is recognised if and only if it names its request and every identity text it names is stored as it was said; a fingerprint it leaves out is derived alike both times |
| TaskElevation.NoticeIsWonOnce | src/agent_bridge_connect/approval_lifecycle.py:1631-1674 | a reserved notice stays reserved over every run |
| TaskService.Service.BlockTaskForElevation | src/agent_bridge_connect/approval_lifecycle.py:1341-1619 | the statements of the source, the intermediate write of a repeated block included, store and answer what the lifecycle function says |
| TaskService.Service.RespondToLiveElevation | src/agent_bridge_connect/approval_lifecycle.py:1193-1339 | likewise for the live answer: both receipts, input and status in one write, or no write |
| TaskService.Service.RespondToInput | src/agent_bridge_connect/approval_lifecycle.py:1801-2030 | likewise for the suspended answer |
| TaskService.Service.ExpireInput | src/agent_bridge_connect/approval_lifecycle.py:2246-2341 | likewise for expiry, with its two writes |
| TaskService.Service.RecordNotification | src/agent_bridge_connect/approval_lifecycle.py:1631-1659 | likewise for the notification |
| TaskService.Service.ReserveNotification | src/agent_bridge_connect/approval_lifecycle.py:1661-1674 | the caller wins exactly when no notice was reserved before, and afterwards one is |
| TaskService.Service.ActivateElevation | src/agent_bridge_connect/approval_lifecycle.py:1677-1750 | activation writes the record and the continuation together or nothing |
| TaskService.Service.VerifyElevation | src/agent_bridge_connect/approval_lifecycle.py:1752-1799 | verification writes the record only from the run and session of its continuation |
| TaskService.Service.MarkBlocked | src/agent_bridge_connect/approval_lifecycle.py:151-163 | the loop blocks the named step, keeps done ones and fills in missing statuses |
| BoundedJson.BoundJson | src/agent_bridge_connect/approval_protocol.py:27-40 | the recursion that fills a dictionary and a list in order computes the bound |
| BoundedJson.BoundIsIdempotent | src/agent_bridge_connect/approval_protocol.py:27-40 | a value is left alone if and only if it is within the limits, so bounding twice is bounding once |
| BoundedJson.BoundIsBounded | src/agent_bridge_connect/approval_protocol.py:27-40 | the result has at most 32 items a container, distinct keys of at most 80 and texts of at most 240 characters, and nothing below depth four, colliding keys included |
| BoundedJson.BoundIsSmall | src/agent_bridge_connect/approval_protocol.py:27-40 | the result of any value has at most (32^6 - 1) / 31 values |
| BoundedJson.FullTreeIsFull | src/agent_bridge_connect/approval_protocol.py:27-40 | that bound is exact: a tree reaches it and is left alone |
| BoundedText.BoundedIsFixed | src/agent_bridge_connect/approval.py:2005-2014 | bounded text fits its limit, is single-spaced, and is its own bounded text |
| BoundedText.CollapsedIsFixed | src/agent_bridge_connect/approval.py:2005-2007 | joining the words of single-spaced text gives the text back |
| ApprovalChoices.BuildOfferedChoices | src/agent_bridge_connect/approval.py:741-816 | the loop with its set of handles seen builds every choice with digest and handle; its check for duplicates never fires |
| Redaction.RedactedIsClean | src/agent_bridge_connect/reports.py:1129-1132 | after the three substitutions none of the three secret patterns matches anywhere in the text |
| Redaction.RedactFixesIff | src/agent_bridge_connect/reports.py:40-49 | redaction leaves alone exactly the texts in which no pattern matches, so redacting twice is redacting once |
| Redaction.CollapsedIsClean | src/agent_bridge_connect/approval.py:785-787 | joining the words of a text with single spaces brings no match about |
| ApprovalChoices.UncutLabelIsClean | src/agent_bridge_connect/approval.py:785-796 | so a label that fits its limit never shows a secret |
| ApprovalChoices.RebuildMatchesIff | src/agent_bridge_connect/approval.py:943-991 | the validator, which redacts and bounds every stored label again, accepts what the builder built if and only if no secret pattern matches in a stored label |
| ApprovalChoices.BuiltOfferIsValidIff | src/agent_bridge_connect/approval.py:943-991 | for every list of offered choices the builder accepts: what it built is valid if and only if every redacted caption fits 120 characters or matches no secret pattern where it was cut |
| ApprovalChoices.CutLabelCanBeUnstable | src/agent_bridge_connect/approval.py:785-796 | a harmless caption of 123 characters, cut inside the word "passwords", makes an offer the builder accepts and the validator refuses |
| ApprovalChoices.HandleFindsItsChoice | src/agent_bridge_connect/approval.py:1620-1629 | a handle finds exactly the choice it was built for, and nothing on another request |
| ApprovalChoices.SelectionIsOnce | src/agent_bridge_connect/approval.py:1548-1617 | a selection names an offered, selectable choice; repeated it changes nothing, contradicted it is refused |
| ApprovalChoices.DecisionWithoutSelectionIsInvalid | src/agent_bridge_connect/approval.py:500-519 | a time-out decides without a selection, which is never a valid v2 receipt and can never be selected on |
| ApprovalChoices.NormalizeOfferedChoices | src/agent_bridge_connect/approval_protocol.py:395-430 | the control plane's loop accepts exactly the choices with an option id and a kind as written, and numbers their handles |
| ApprovalChoices.HandlesAgreeIff | src/agent_bridge_connect/approval_protocol.py:395-430 | control plane and receipt give a choice the same handle if and only if they keep the same option id and label |
| ApprovalChoices.PlainChoicesAgree | src/agent_bridge_connect/approval_protocol.py:395-430 | for every list of choices with plain labels and identifiers both accept, agree on every handle, and the receipt is valid |

## Left out

- Legacy cleanup receipts (v1 to v4 and the two-field form), their upgrade and their public projections.
- The primary session's own cleanup machine in `execution_policy.py`, which repeats the auxiliary one.
- JSON floats, `null` and objects as configuration values, lone surrogates, digits outside ASCII in integers, and inline tables: the compatibility parser does not read them back or reads them differently.
- Values of the wrong JSON type inside stored receipts: the datatypes admit only well-typed fields, which the validators of the source check first.
- The screens for secrets and private paths in receipts (regular expressions), and the summary and reason texts they guard; a refused text raises as any other invalid field does.
- Redaction of JSON containers and their keys, and of reason texts, which also screens paths; the model redacts a text.
- Text.Lower: covers ASCII only; `str.lower` also maps letters outside it, so a keyword written with one of them (the Kelvin sign for a k) is refused here.
- SHA-256 is injective by construction, also where a handle keeps 16 digits of it.
- UUID texts: a child id is 32 hexadecimal digits with hyphens anywhere; the braces and URN forms Python also reads are left out.
- The archive acknowledgement fields of an auxiliary entry, and the capability and strategy names outside their enumerations, which the validator refuses.
- The asyncio worker, the SDK client and the control plane's own store; a control-plane wait is a step that is answered, given up or refused.
- ElevationRuns.EveryRunIsSound: lock sections of all threads interleave freely, which is more than the one event loop of the worker allows; the anomaly section has no caller and is not part of a run; there is no event for `declare_run_authorization`, which only transports that are authorised beforehand call.
- ClaudeTransport.Transport.CaptureToolEvent: reads the window flag and appends in one step.
- The copy of the receipt that is published outside the lock, and its order of arrival.
- TaskElevation.EveryRunStaysInStep: tasks that opted into the v3 protocol; v1 and v2 inputs of the same methods, run leases, progress files, event logs and the task index are not modelled.
- TaskElevation.StepKeeps: every operation is atomic; the code serialises blocking, notifying and activating under one lock, and the other operations rely on the store.
- TaskElevation.BlockKeeps: the retired PathPlan and profile digests are the empty texts the code passes.
- TomlConfig.LoadConfig: nested dictionaries are an ordered list of entries and the moving table pointer is a path into it, so sharing of mutable dictionaries is not visible.
- AuxiliaryLedger.ReserveKeeps: uuids are numbers taken from a counter, so a collision of random uuids is not modelled.
- ApprovalChoices.SelectionIsOnce: the decision is stamped as the selection is, as every caller does.
- `auxiliary_cleanup_strategy`, redacted references and the public views of ledger, receipts and elevations: they would only add easy members.
- One-shot permission grants, retired session rules, run leases, terminal delivery, executors, scripts and the command line.
