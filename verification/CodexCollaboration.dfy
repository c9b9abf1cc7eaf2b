/**
  The Codex handlers that drive the auxiliary ledger, whole runs of them mixed
  with the ledger's own operations, and at-least-once delivery
  (src/agent_bridge_connect/auxiliary_sessions.py:509-864).
*/
module CodexCollaboration {
  import opened Outcomes
  import opened Text
  import opened Clock
  import opened AuxiliaryLedger

  const RECEIPT_MISSING := "codex_auxiliary_receipt_missing"
  const SESSION_UNREGISTERED := "codex_auxiliary_session_unregistered"
  const SPAWN_PURPOSE := "collaboration_spawn"

  /** Whose child an event claims to be about. */
  datatype Owner = Owner(taskId: string, runId: string, parentSessionId: string)

  /** The fields of an official item; an absent text is empty, an absent list is empty. */
  datatype Item = Item(
    itemType: string, tool: string, id: string, kind: string, agentThreadId: string,
    receiverThreadId: string, receiverThreadIds: seq<string>)

  datatype Event =
    | ItemStarted(owner: Owner, turnId: string, item: Item, at: Stamp)
    | ItemCompleted(owner: Owner, item: Item, at: Stamp)
    | SubagentActivity(owner: Owner, turnId: string, item: Item, at: Stamp)

  // ------------------------------------------------------------ reserving a child

  predicate IsLive(state: string) {
    state == "active" || state == "input_required" || state == "needs_recovery"
  }

  /** What is wrong with the parent session of a collaboration child. */
  function ParentError(primary: Option<Primary>, owner: Owner): string {
    if primary.None? || Normal(primary.value.executor) != "codex" then RECEIPT_MISSING
    else
      var p := primary.value;
      if Strip(p.sessionId) == "" || Strip(p.sessionId) != Strip(owner.parentSessionId) then SESSION_UNREGISTERED
      else if !p.receiptBound || Strip(p.receiptSource) != OfficialSource("codex") then RECEIPT_MISSING
      else if Strip(owner.runId) !in p.runIds || !IsLive(Normal(p.sessionState)) then SESSION_UNREGISTERED
      else ""
  }

  function SpawnRequest(primary: Primary, owner: Owner, itemId: string, turnId: string, at: Stamp): Reservation {
    Reservation(owner.taskId, owner.runId, "codex", Strip(primary.sessionId), "codex", SPAWN_PURPOSE,
                primary.retain == Some(true), "none", "", Strip(itemId), Strip(turnId), at)
  }

  /** `reserve_codex_collaboration_session` */
  function ReserveSpawn(ext: Extensions, owner: Owner, itemId: string, turnId: string, at: Stamp, now: nat): Result<(Extensions, nat)> {
    if Strip(itemId) == "" then Err(RECEIPT_MISSING)
    else
      var error := ParentError(ext.primary, owner);
      if error != "" || ext.primary.None? then Err(error)
      else Reserve(ext, SpawnRequest(ext.primary.value, owner, itemId, turnId, at), now)
  }

  // ------------------------------------------------------------ binding a child and ending it

  /** The entry reserved for this item, compared as the texts stand. */
  predicate IsSpawn(e: Entry, owner: Owner, itemId: string) {
    e.ownerTaskId == owner.taskId && e.ownerRunId == owner.runId && e.parentSessionId == owner.parentSessionId
    && Normal(e.executor) == "codex" && e.purpose == SPAWN_PURPOSE && e.itemId == itemId
  }

  /** `_codex_collaboration_entry`: the place of the first such entry. */
  function FindSpawn(sessions: seq<Entry>, owner: Owner, itemId: string): (i: nat)
    ensures i <= |sessions|
  {
    if sessions == [] || IsSpawn(sessions[0], owner, itemId) then 0 else 1 + FindSpawn(sessions[1..], owner, itemId)
  }

  function ThreadReceipt(threadId: string): SessionReceipt {
    SessionReceipt(EXECUTION_SESSION_RECEIPT_VERSION, "codex", threadId, "persistent", OfficialSource("codex"))
  }

  function BindCode(code: string): string {
    if code == "auxiliary_receipt_session_mismatch" || code == "auxiliary_receipt_conflict" || code == "auxiliary_receipt_invalid"
    then SESSION_UNREGISTERED else code
  }

  /** `bind_codex_collaboration_receipt` */
  function BindSpawn(ext: Extensions, auxId: nat, receiver: string, now: nat): Result<(Extensions, nat)> {
    var thread := Strip(receiver);
    if thread == "" then Err(RECEIPT_MISSING)
    else if !LedgerOk(ext.sessions) then Err("auxiliary_ledger_invalid")
    else
      var i := FindAux(ext.sessions, auxId);
      if i == |ext.sessions| || Normal(ext.sessions[i].executor) != "codex" || ext.sessions[i].purpose != SPAWN_PURPOSE
      then Err(RECEIPT_MISSING)
      else if Strip(ext.sessions[i].sessionId) != "" && Strip(ext.sessions[i].sessionId) != thread
      then Err(SESSION_UNREGISTERED)
      else
        var bound := Bind(ext, auxId, ThreadReceipt(thread), thread, now);
        if bound.Ok? then bound else Err(BindCode(bound.code))
  }

  /** `mark_codex_collaboration_terminal` */
  function EndSpawn(ext: Extensions, auxId: nat, at: Stamp, now: nat): Result<(Extensions, nat)> {
    var ended := Finalize(ext, auxId, at, now);
    if ended.Ok? then ended
    else if ended.code == "auxiliary_receipt_missing" || ended.code == "auxiliary_session_not_bound" then Err(RECEIPT_MISSING)
    else ended
  }

  // ------------------------------------------------------------ the handlers

  predicate IsSpawnCall(item: Item) {
    item.itemType == "collabAgentToolCall" && item.tool == "spawnAgent"
  }

  /** `_collaboration_receiver_thread_id` */
  function ReceiverOf(item: Item): string {
    var singular := Strip(item.receiverThreadId);
    if singular != "" then
      if item.receiverThreadIds == [] || item.receiverThreadIds == [singular] then singular else ""
    else if |item.receiverThreadIds| == 1 then Strip(item.receiverThreadIds[0])
    else ""
  }

  function WithoutHyphens(s: string): string {
    if s == "" then "" else (if s[0] == '-' then "" else [s[0]]) + WithoutHyphens(s[1..])
  }

  predicate IsHexDigit(c: char) {
    '0' <= c <= '9' || 'a' <= c <= 'f' || 'A' <= c <= 'F'
  }

  predicate IsUuid(s: string) {
    |WithoutHyphens(s)| == 32 && forall c <- WithoutHyphens(s) :: IsHexDigit(c)
  }

  function OnStarted(ext: Extensions, e: Event, now: nat): Result<(Extensions, nat)>
    requires e.ItemStarted?
  {
    if !IsSpawnCall(e.item) then Err(SESSION_UNREGISTERED)
    else ReserveSpawn(ext, e.owner, e.item.id, e.turnId, e.at, now)
  }

  function OnCompleted(ext: Extensions, e: Event, now: nat): Result<(Extensions, nat)>
    requires e.ItemCompleted?
  {
    if !IsSpawnCall(e.item) then Err(SESSION_UNREGISTERED)
    else if Strip(e.item.id) == "" || ReceiverOf(e.item) == "" then Err(RECEIPT_MISSING)
    else if !LedgerOk(ext.sessions) then Err("auxiliary_ledger_invalid")
    else
      var i := FindSpawn(ext.sessions, e.owner, Strip(e.item.id));
      if i == |ext.sessions| then Err(RECEIPT_MISSING)
      else
        var auxId := ext.sessions[i].auxId;
        var (bound, _) :- BindSpawn(ext, auxId, ReceiverOf(e.item), now);
        EndSpawn(bound, auxId, e.at, now)
  }

  /** How many entries are bound to this child. */
  function CountBound(sessions: seq<Entry>, child: string): nat {
    if sessions == [] then 0
    else (if sessions[0].sessionId == child then 1 else 0) + CountBound(sessions[1..], child)
  }

  /** The place of the first entry bound to this child. */
  function FindBound(sessions: seq<Entry>, child: string): (i: nat)
    ensures i <= |sessions| && (i < |sessions| ==> sessions[i].sessionId == child)
    ensures forall j :: 0 <= j < i ==> sessions[j].sessionId != child
  {
    if sessions == [] || sessions[0].sessionId == child then 0 else 1 + FindBound(sessions[1..], child)
  }

  predicate OwnedBy(e: Entry, owner: Owner) {
    e.ownerTaskId == owner.taskId && e.ownerRunId == owner.runId && e.parentSessionId == owner.parentSessionId
  }

  /** The entry an activity is about: the one bound to the child, or a new one when it starts. */
  function ActivityEntry(ext: Extensions, e: Event, now: nat): Result<(Extensions, nat)>
    requires e.SubagentActivity?
  {
    var child := Strip(e.item.agentThreadId);
    var i := FindBound(ext.sessions, child);
    if i < |ext.sessions| then
      if CountBound(ext.sessions, child) != 1 || !OwnedBy(ext.sessions[i], e.owner) then Err(SESSION_UNREGISTERED)
      else Ok((ext, i))
    else if e.item.kind == "started" then
      var (reserved, place) :- ReserveSpawn(ext, e.owner, e.item.id, e.turnId, e.at, now);
      if place < |reserved.sessions| then BindSpawn(reserved, reserved.sessions[place].auxId, child, now) else Err(RECEIPT_MISSING)
    else Err(RECEIPT_MISSING)
  }

  function OnActivity(ext: Extensions, e: Event, now: nat): Result<(Extensions, nat)>
    requires e.SubagentActivity?
  {
    var child := Strip(e.item.agentThreadId);
    if e.item.itemType != "subAgentActivity" || !IsUuid(child) then Err(RECEIPT_MISSING)
    else if child == e.owner.parentSessionId || !(e.item.kind == "started" || e.item.kind == "completed") then Err(SESSION_UNREGISTERED)
    else if !LedgerOk(ext.sessions) then Err("auxiliary_ledger_invalid")
    else
      var (updated, i) :- ActivityEntry(ext, e, now);
      if e.item.kind == "completed" && i < |updated.sessions| then EndSpawn(updated, updated.sessions[i].auxId, e.at, now)
      else Ok((updated, i))
  }

  function Deliver(ext: Extensions, e: Event, now: nat): Result<(Extensions, nat)> {
    match e
    case ItemStarted(_, _, _, _) => OnStarted(ext, e, now)
    case ItemCompleted(_, _, _) => OnCompleted(ext, e, now)
    case SubagentActivity(_, _, _, _) => OnActivity(ext, e, now)
  }

  // ------------------------------------------------------------ runs

  /** Everything that writes the ledger. */
  datatype Op =
    | Reserving(request: Reservation)
    | Binding(auxId: nat, receipt: SessionReceipt, expected: string)
    | Ending(auxId: nat, at: Stamp)
    | Delivering(event: Event)

  function Apply(ext: Extensions, op: Op, now: nat): Result<(Extensions, nat)> {
    match op
    case Reserving(request) => Reserve(ext, request, now)
    case Binding(auxId, receipt, expected) => Bind(ext, auxId, receipt, expected, now)
    case Ending(auxId, at) => Finalize(ext, auxId, at, now)
    case Delivering(event) => Deliver(ext, event, now)
  }

  /** An operation that raises leaves the extensions as they were. */
  function Step(ext: Extensions, op: Op, now: nat): Extensions {
    var outcome := Apply(ext, op, now);
    if outcome.Ok? then outcome.value.0 else ext
  }

  /** A run of operations, each with the time at which it is performed. */
  function Run(ext: Extensions, ops: seq<(Op, nat)>): Extensions
    decreases |ops|
  {
    hide *;
    if ops == [] then ext else Run(Step(ext, ops[0].0, ops[0].1), ops[1..])
  }

  /** The time stamp with which a session would be ended can be read. */
  predicate Readable(op: Op) {
    match op
    case Ending(_, at) => !at.Malformed?
    case Delivering(event) => !event.at.Malformed?
    case _ => true
  }

  // ------------------------------------------------------------ what every operation keeps

  lemma ReserveSpawnIsReserve(ext: Extensions, owner: Owner, itemId: string, turnId: string, at: Stamp, now: nat)
    requires ReserveSpawn(ext, owner, itemId, turnId, at, now).Ok?
    ensures Strip(itemId) != "" && ParentError(ext.primary, owner) == "" && ext.primary.Some?
    ensures ReserveSpawn(ext, owner, itemId, turnId, at, now)
         == Reserve(ext, SpawnRequest(ext.primary.value, owner, itemId, turnId, at), now)
  {
    hide Reserve, Strip, ParentError, SpawnRequest;
    NoParentNoError(ext.primary, owner);
  }

  lemma NoParentNoError(primary: Option<Primary>, owner: Owner)
    ensures primary.None? ==> ParentError(primary, owner) != ""
  {
  }

  lemma ReserveSpawnKeeps(ext: Extensions, owner: Owner, itemId: string, turnId: string, at: Stamp, now: nat)
    requires WellKept(ext) && ReserveSpawn(ext, owner, itemId, turnId, at, now).Ok?
    ensures var (ext', i) := ReserveSpawn(ext, owner, itemId, turnId, at, now).value;
            WellKept(ext') && Evolves(ext, ext') && i < |ext'.sessions|
  {
    hide *;
    ReserveSpawnIsReserve(ext, owner, itemId, turnId, at, now);
    ReserveKeeps(ext, SpawnRequest(ext.primary.value, owner, itemId, turnId, at), now);
  }

  /** Binding a child succeeds only as a binding of the ledger, under the official source. */
  lemma BindSpawnIsBind(ext: Extensions, auxId: nat, receiver: string, now: nat)
    requires BindSpawn(ext, auxId, receiver, now).Ok?
    ensures var thread := Strip(receiver);
            thread != "" && BindSpawn(ext, auxId, receiver, now) == Bind(ext, auxId, ThreadReceipt(thread), thread, now)
            && var i := FindAux(ext.sessions, auxId);
               i < |ext.sessions| && Normal(ext.sessions[i].executor) == "codex" && ext.sessions[i].purpose == SPAWN_PURPOSE
  {
    hide Bind, Strip, Normal, LedgerOk, ThreadReceipt;
  }

  lemma BindSpawnKeeps(ext: Extensions, auxId: nat, receiver: string, now: nat)
    requires WellKept(ext) && BindSpawn(ext, auxId, receiver, now).Ok?
    ensures var (ext', i) := BindSpawn(ext, auxId, receiver, now).value;
            WellKept(ext') && Evolves(ext, ext') && i < |ext'.sessions|
            && i == FindAux(ext.sessions, auxId)
            && ext'.sessions[i].auxId == auxId && ext'.sessions[i].sessionId == Strip(receiver) != ""
            && ext'.sessions[i].source == OfficialSource("codex")
            && (forall j :: 0 <= j < |ext.sessions| && j != i ==> ext'.sessions[j] == ext.sessions[j])
            && |ext'.sessions| == |ext.sessions|
  {
    hide Bind, BindSpawn, Strip, WellKept, Evolves, OfficialSource, BoundEntry, FindAux, ReceiptOk, EntryOk;
    var thread := Strip(receiver);
    StripIdempotent(receiver);
    OfficialIsSolid();
    BindSpawnIsBind(ext, auxId, receiver, now);
    BindKeeps(ext, auxId, ThreadReceipt(thread), thread, now);
    BindOutcome(ext, auxId, ThreadReceipt(thread), thread, now);
    SourceOfBound(ext.sessions[FindAux(ext.sessions, auxId)], ThreadReceipt(thread), now);
  }

  lemma OfficialIsSolid()
    ensures Strip(OfficialSource("codex")) == OfficialSource("codex") != ""
  {
    hide Strip;
    var source := "jsonl_thread_started";
    assert source[0] == 'j' && source[|source| - 1] == 'd';
    StripIdentity(source);
  }

  lemma SourceOfBound(e: Entry, receipt: SessionReceipt, now: nat)
    ensures BoundEntry(e, receipt, now).source == Strip(receipt.source)
  {
  }

  lemma EndSpawnKeeps(ext: Extensions, auxId: nat, at: Stamp, now: nat)
    requires WellKept(ext) && !at.Malformed? && EndSpawn(ext, auxId, at, now).Ok?
    ensures var (ext', i) := EndSpawn(ext, auxId, at, now).value;
            EndSpawn(ext, auxId, at, now) == Finalize(ext, auxId, at, now)
            && WellKept(ext') && Evolves(ext, ext') && i < |ext'.sessions| == |ext.sessions|
            && i == FindAux(ext.sessions, auxId)
            && ext'.sessions[i].auxId == auxId && ext'.sessions[i].sessionState == Terminal
            && (forall j :: 0 <= j < |ext.sessions| && j != i ==> ext'.sessions[j] == ext.sessions[j])
  {
    hide WellKept, Evolves, Strip, LedgerOk, FindAux;
    FinalizeKeeps(ext, auxId, at, now);
  }

  lemma OnCompletedSteps(ext: Extensions, e: Event, now: nat)
    requires e.ItemCompleted? && OnCompleted(ext, e, now).Ok?
    ensures IsSpawnCall(e.item) && Strip(e.item.id) != "" && ReceiverOf(e.item) != "" && LedgerOk(ext.sessions)
    ensures var i := FindSpawn(ext.sessions, e.owner, Strip(e.item.id));
            i < |ext.sessions|
            && var auxId := ext.sessions[i].auxId;
               BindSpawn(ext, auxId, ReceiverOf(e.item), now).Ok?
               && OnCompleted(ext, e, now) == EndSpawn(BindSpawn(ext, auxId, ReceiverOf(e.item), now).value.0, auxId, e.at, now)
  {
    hide IsSpawnCall, Strip, ReceiverOf, LedgerOk, FindSpawn, BindSpawn, EndSpawn;
  }

  lemma ReceiverIsStripped(item: Item)
    ensures Strip(ReceiverOf(item)) == ReceiverOf(item)
  {
    hide Strip;
    StripIdempotent(item.receiverThreadId);
    StripIdentity("");
    if |item.receiverThreadIds| == 1 {
      StripIdempotent(item.receiverThreadIds[0]);
    }
  }

  /** A completed item leaves its entry bound to the receiver and terminal, and touches no other entry. */
  lemma CompletedKeeps(ext: Extensions, e: Event, now: nat)
    requires WellKept(ext) && e.ItemCompleted? && !e.at.Malformed? && OnCompleted(ext, e, now).Ok?
    ensures var (ext', i) := OnCompleted(ext, e, now).value;
            WellKept(ext') && Evolves(ext, ext') && i < |ext'.sessions| == |ext.sessions|
            && i == FindSpawn(ext.sessions, e.owner, Strip(e.item.id))
            && ext'.sessions[i].sessionId == ReceiverOf(e.item) && ext'.sessions[i].source == OfficialSource("codex")
            && ext'.sessions[i].sessionState == Terminal
            && (forall j :: 0 <= j < |ext.sessions| && j != i ==> ext'.sessions[j] == ext.sessions[j])
  {
    hide OnCompleted, Strip, ReceiverOf, LedgerOk, FindSpawn, BindSpawn, EndSpawn, WellKept, EntryEvolves,
         OfficialSource, Finalize, IsSpawnCall;
    OnCompletedSteps(ext, e, now);
    ReceiverIsStripped(e.item);
    var i := FindSpawn(ext.sessions, e.owner, Strip(e.item.id));
    var auxId := ext.sessions[i].auxId;
    BindSpawnKeeps(ext, auxId, ReceiverOf(e.item), now);
    UuidIsItsPlace(ext, i);
    var bound := BindSpawn(ext, auxId, ReceiverOf(e.item), now).value.0;
    EndSpawnKeeps(bound, auxId, e.at, now);
    UuidIsItsPlace(bound, i);
    var ended := EndSpawn(bound, auxId, e.at, now).value.0;
    EvolvesTransitively(ext, bound, ended);
    BoundStays(bound.sessions[i], ended.sessions[i]);
  }

  lemma BoundStays(a: Entry, b: Entry)
    requires EntryEvolves(a, b) && a.sessionId != ""
    ensures b.sessionId == a.sessionId && b.source == a.source
  {
  }

  lemma UuidIsItsPlace(ext: Extensions, i: nat)
    requires WellKept(ext) && i < |ext.sessions|
    ensures FindAux(ext.sessions, ext.sessions[i].auxId) == i
  {
    hide EntryOk, SameKey, IsNormal;
  }

  lemma ActivityGuards(ext: Extensions, e: Event, now: nat)
    requires e.SubagentActivity? && OnActivity(ext, e, now).Ok?
    ensures var child := Strip(e.item.agentThreadId);
            e.item.itemType == "subAgentActivity" && IsUuid(child) && child != e.owner.parentSessionId
            && (e.item.kind == "started" || e.item.kind == "completed") && LedgerOk(ext.sessions)
            && ActivityEntry(ext, e, now).Ok?
  {
    hide Strip, IsUuid, LedgerOk, ActivityEntry, EndSpawn;
  }

  lemma UuidIsText(s: string)
    requires IsUuid(s)
    ensures s != ""
  {
  }

  /** The entry of an activity is bound to the child; it was so before, or this activity has just bound it. */
  lemma ActivityEntryKeeps(ext: Extensions, e: Event, now: nat)
    requires WellKept(ext) && e.SubagentActivity? && Strip(e.item.agentThreadId) != "" && ActivityEntry(ext, e, now).Ok?
    ensures var child := Strip(e.item.agentThreadId);
            var (ext', i) := ActivityEntry(ext, e, now).value;
            WellKept(ext') && Evolves(ext, ext') && i < |ext'.sessions|
            && ext'.sessions[i].sessionId == child
            && (ext' == ext || (FindBound(ext.sessions, child) == |ext.sessions|
                                && |ext.sessions| <= |ext'.sessions|
                                && forall j :: 0 <= j < |ext'.sessions| && j != i ==>
                                     ext'.sessions[j].sessionId == (if j < |ext.sessions| then ext.sessions[j].sessionId else "")))
  {
    hide ReserveSpawn, BindSpawn, Strip, WellKept, EntryEvolves, CountBound, OwnedBy, OfficialSource, LedgerOk;
    var child := Strip(e.item.agentThreadId);
    StripIdempotent(e.item.agentThreadId);
    if FindBound(ext.sessions, child) == |ext.sessions| {
      var (reserved, place) := ReserveSpawn(ext, e.owner, e.item.id, e.turnId, e.at, now).value;
      ReserveSpawnKeeps(ext, e.owner, e.item.id, e.turnId, e.at, now);
      ReserveSpawnAdds(ext, e.owner, e.item.id, e.turnId, e.at, now);
      BindSpawnKeeps(reserved, reserved.sessions[place].auxId, child, now);
      var bound := BindSpawn(reserved, reserved.sessions[place].auxId, child, now).value.0;
      EvolvesTransitively(ext, reserved, bound);
    } else {
      EvolvesToItself(ext);
    }
  }

  /** Reserving a child adds at most one entry, unbound, at the end. */
  lemma ReserveSpawnAdds(ext: Extensions, owner: Owner, itemId: string, turnId: string, at: Stamp, now: nat)
    requires WellKept(ext) && ReserveSpawn(ext, owner, itemId, turnId, at, now).Ok?
    ensures var (ext', i) := ReserveSpawn(ext, owner, itemId, turnId, at, now).value;
            ext' == ext
            || (|ext'.sessions| == |ext.sessions| + 1 && ext'.sessions[..|ext.sessions|] == ext.sessions
                && ext'.sessions[|ext.sessions|].sessionId == "")
  {
    hide ReserveSpawn, Reserve, WellKept, Evolves, Clean, FrozenMatch, SameReservation, SpawnRequest, LedgerOk,
         EntryOk, ParentError;
    ReserveSpawnIsReserve(ext, owner, itemId, turnId, at, now);
    var request := SpawnRequest(ext.primary.value, owner, itemId, turnId, at);
    ReserveOutcome(ext, request, now);
  }

  /** An activity leaves its entry bound to the child, and terminal when the child has completed. */
  lemma ActivityKeeps(ext: Extensions, e: Event, now: nat)
    requires WellKept(ext) && e.SubagentActivity? && !e.at.Malformed? && OnActivity(ext, e, now).Ok?
    ensures var child := Strip(e.item.agentThreadId);
            var (ext', i) := OnActivity(ext, e, now).value;
            WellKept(ext') && Evolves(ext, ext') && i < |ext'.sessions| && child != ""
            && ext'.sessions[i].sessionId == child
            && (e.item.kind == "completed" ==> ext'.sessions[i].sessionState == Terminal)
            && (ext'.sessions == ext.sessions
                || forall j :: 0 <= j < |ext'.sessions| && j != i ==>
                     ext'.sessions[j].sessionId == (if j < |ext.sessions| then ext.sessions[j].sessionId else ""))
            && (FindBound(ext.sessions, child) == |ext.sessions| || FindBound(ext.sessions, child) == i)
  {
    hide ActivityEntry, EndSpawn, Strip, WellKept, EntryEvolves, IsUuid, LedgerOk, Finalize;
    var child := Strip(e.item.agentThreadId);
    ActivityGuards(ext, e, now);
    UuidIsText(child);
    ActivityEntryKeeps(ext, e, now);
    ActivityEntryPlace(ext, e, now);
    var (updated, i) := ActivityEntry(ext, e, now).value;
    if e.item.kind == "completed" {
      EndSpawnKeeps(updated, updated.sessions[i].auxId, e.at, now);
      UuidIsItsPlace(updated, i);
      var ended := EndSpawn(updated, updated.sessions[i].auxId, e.at, now).value.0;
      EvolvesTransitively(ext, updated, ended);
      BoundStays(updated.sessions[i], ended.sessions[i]);
    }
  }

  lemma ActivityEntryPlace(ext: Extensions, e: Event, now: nat)
    requires e.SubagentActivity? && ActivityEntry(ext, e, now).Ok?
    ensures var i := FindBound(ext.sessions, Strip(e.item.agentThreadId));
            i < |ext.sessions| ==>
              ActivityEntry(ext, e, now) == Ok((ext, i)) && OwnedBy(ext.sessions[i], e.owner)
              && CountBound(ext.sessions, Strip(e.item.agentThreadId)) == 1
  {
    hide ReserveSpawn, BindSpawn, Strip, CountBound, OwnedBy;
  }

  /** Every operation that succeeds keeps the ledger and lets it only grow older. */
  lemma ApplyKeeps(ext: Extensions, op: Op, now: nat)
    requires WellKept(ext) && Readable(op) && Apply(ext, op, now).Ok?
    ensures var (ext', i) := Apply(ext, op, now).value;
            WellKept(ext') && Evolves(ext, ext') && i < |ext'.sessions|
  {
    hide Reserve, Bind, Finalize, OnStarted, OnCompleted, OnActivity, WellKept, Evolves, Clean;
    match op {
      case Reserving(request) => ReserveKeeps(ext, request, now);
      case Binding(auxId, receipt, expected) => BindKeeps(ext, auxId, receipt, expected, now);
      case Ending(auxId, at) => FinalizeKeeps(ext, auxId, at, now);
      case Delivering(event) =>
        match event {
          case ItemStarted(owner, turnId, item, at) =>
            StartedIsReserve(ext, event, now);
            ReserveSpawnKeeps(ext, owner, item.id, turnId, at, now);
          case ItemCompleted(_, _, _) => CompletedKeeps(ext, event, now);
          case SubagentActivity(_, _, _, _) => ActivityKeeps(ext, event, now);
        }
    }
  }

  lemma StartedIsReserve(ext: Extensions, e: Event, now: nat)
    requires e.ItemStarted? && OnStarted(ext, e, now).Ok?
    ensures IsSpawnCall(e.item) && OnStarted(ext, e, now) == ReserveSpawn(ext, e.owner, e.item.id, e.turnId, e.at, now)
  {
  }

  /**
    Over every run with readable stamps, whatever succeeds or fails: at most 16
    entries, unique uuids, unique reservation keys, reserved exactly while
    unbound; and no entry is lost, moved, rebound or taken back.
  */
  lemma {:induction false} EveryRunKeepsTheLedger(ext: Extensions, ops: seq<(Op, nat)>)
    requires WellKept(ext) && forall o <- ops :: Readable(o.0)
    ensures WellKept(Run(ext, ops)) && Evolves(ext, Run(ext, ops))
    decreases |ops|
  {
    hide Apply, WellKept, Evolves, Readable;
    if ops == [] {
      EvolvesToItself(ext);
    } else {
      assert ops[0] in ops;
      var (op, now) := ops[0];
      if Apply(ext, op, now).Ok? {
        ApplyKeeps(ext, op, now);
      } else {
        EvolvesToItself(ext);
      }
      var next := Step(ext, op, now);
      EveryRunKeepsTheLedger(next, ops[1..]);
      EvolvesTransitively(ext, next, Run(next, ops[1..]));
    }
  }

  // ------------------------------------------------------------ at-least-once delivery

  /** Why a request for this entry finds it as it wants it. */
  predicate ReservedFor(ext: Extensions, e: Entry, request: Reservation) {
    var r := Clean(request);
    !request.createdAt.Malformed? && ReservationError(ext, r) == "" && SameReservation(e, r) && FrozenMatch(e, r)
  }

  predicate BoundFor(e: Entry, auxId: nat, receipt: SessionReceipt, expected: string) {
    e.auxId == auxId && ReceiptOk(receipt, e.executor)
    && e.sessionId == Strip(receipt.sessionId) != "" && e.source == Strip(receipt.source)
    && (Strip(expected) == "" || Strip(receipt.sessionId) == Strip(expected))
  }

  predicate StartedFor(ext: Extensions, e: Entry, event: Event)
    requires event.ItemStarted?
  {
    IsSpawnCall(event.item) && Strip(event.item.id) != "" && ParentError(ext.primary, event.owner) == "" && ext.primary.Some?
    && ReservedFor(ext, e, SpawnRequest(ext.primary.value, event.owner, event.item.id, event.turnId, event.at))
  }

  predicate CompletedFor(e: Entry, event: Event)
    requires event.ItemCompleted?
  {
    IsSpawnCall(event.item) && Strip(event.item.id) != ""
    && IsSpawn(e, event.owner, Strip(event.item.id))
    && e.sessionId == ReceiverOf(event.item) != "" && e.source == OfficialSource("codex") && e.sessionState == Terminal
  }

  predicate ActiveFor(e: Entry, event: Event)
    requires event.SubagentActivity?
  {
    var child := Strip(event.item.agentThreadId);
    event.item.itemType == "subAgentActivity" && IsUuid(child) && child != "" && child != event.owner.parentSessionId
    && (event.item.kind == "started" || event.item.kind == "completed")
    && e.sessionId == child && (event.item.kind == "completed" ==> e.sessionState == Terminal)
  }

  /** This entry already shows all that the operation would do. */
  predicate Settles(ext: Extensions, e: Entry, op: Op) {
    match op
    case Reserving(request) => ReservedFor(ext, e, request)
    case Binding(auxId, receipt, expected) => BoundFor(e, auxId, receipt, expected)
    case Ending(auxId, _) => e.auxId == auxId && e.sessionId != "" && e.sessionState == Terminal
    case Delivering(event) => (
      match event
      case ItemStarted(_, _, _, _) => StartedFor(ext, e, event)
      case ItemCompleted(_, _, _) => CompletedFor(e, event)
      case SubagentActivity(_, _, _, _) => ActiveFor(e, event))
  }

  ghost predicate Settled(ext: Extensions, op: Op) {
    exists e <- ext.sessions :: Settles(ext, e, op)
  }

  // -- success settles

  lemma ReserveSettles(ext: Extensions, request: Reservation, now: nat)
    requires WellKept(ext) && Reserve(ext, request, now).Ok?
    ensures var (ext', i) := Reserve(ext, request, now).value;
            i < |ext'.sessions| && ext'.primary == ext.primary && ReservedFor(ext', ext'.sessions[i], request)
  {
    hide Reserve, WellKept, SameReservation, FrozenMatch, Clean, ReservationError, EntryEvolves;
    ReserveKeeps(ext, request, now);
    ReservePasses(ext, request, now);
    PrimaryDecides(ext, Reserve(ext, request, now).value.0, Clean(request));
  }

  lemma ReservePasses(ext: Extensions, request: Reservation, now: nat)
    requires Reserve(ext, request, now).Ok?
    ensures !request.createdAt.Malformed? && ReservationError(ext, Clean(request)) == ""
  {
    hide LedgerOk, Clean, FrozenMatch, FindReservation, ReservationError, NewEntry, EntryOk;
  }

  /** Whether a request is refused depends on the primary session alone. */
  lemma PrimaryDecides(a: Extensions, b: Extensions, r: Reservation)
    requires a.primary == b.primary
    ensures ReservationError(a, r) == ReservationError(b, r)
  {
    hide IsExecutor, CleanupReceipt.IsLabel;
  }

  lemma BindSettles(ext: Extensions, auxId: nat, receipt: SessionReceipt, expected: string, now: nat)
    requires WellKept(ext) && Bind(ext, auxId, receipt, expected, now).Ok?
    ensures var (ext', i) := Bind(ext, auxId, receipt, expected, now).value;
            i < |ext'.sessions| && BoundFor(ext'.sessions[i], auxId, receipt, expected)
  {
    hide Bind, WellKept, Evolves, Strip, Normal, EntryOk, BoundEntry, FindAux;
    BindKeeps(ext, auxId, receipt, expected, now);
    BindOutcome(ext, auxId, receipt, expected, now);
    var i := FindAux(ext.sessions, auxId);
    BoundEntryFields(ext.sessions[i], receipt, now);
    ReceiptNamesSource(receipt, ext.sessions[i].executor);
  }

  lemma BoundEntryFields(e: Entry, receipt: SessionReceipt, now: nat)
    ensures BoundEntry(e, receipt, now).source == Strip(receipt.source) && BoundEntry(e, receipt, now).executor == e.executor
  {
  }

  /** An accepted receipt names an official source. */
  lemma ReceiptNamesSource(receipt: SessionReceipt, executor: string)
    requires ReceiptOk(receipt, executor)
    ensures Strip(receipt.source) != ""
  {
    hide Normal, Strip;
    var source := receipt.source;
    assert source != "" && 'a' <= source[0] <= 'z' && 'a' <= source[|source| - 1] <= 'z' by { OfficialText(Normal(receipt.executor)); }
    StripIdentity(source);
  }

  lemma OfficialText(executor: string)
    requires IsExecutor(executor)
    ensures var source := OfficialSource(executor);
            source != "" && 'a' <= source[0] <= 'z' && 'a' <= source[|source| - 1] <= 'z'
  {
  }

  lemma StartedSettles(ext: Extensions, e: Event, now: nat)
    requires WellKept(ext) && e.ItemStarted? && OnStarted(ext, e, now).Ok?
    ensures var (ext', i) := OnStarted(ext, e, now).value;
            i < |ext'.sessions| && StartedFor(ext', ext'.sessions[i], e)
  {
    hide OnStarted, IsSpawnCall, Strip, ParentError, SpawnRequest, ReserveSpawn, Reserve, WellKept, ReservedFor;
    StartedIsReserve(ext, e, now);
    ReserveSpawnIsReserve(ext, e.owner, e.item.id, e.turnId, e.at, now);
    ReserveSettles(ext, SpawnRequest(ext.primary.value, e.owner, e.item.id, e.turnId, e.at), now);
  }

  lemma FirstSpawn(sessions: seq<Entry>, owner: Owner, itemId: string)
    ensures var i := FindSpawn(sessions, owner, itemId);
            (i < |sessions| ==> IsSpawn(sessions[i], owner, itemId))
            && forall j :: 0 <= j < i ==> !IsSpawn(sessions[j], owner, itemId)
  {
    hide IsSpawn;
    if sessions != [] && !IsSpawn(sessions[0], owner, itemId) {
      FirstSpawn(sessions[1..], owner, itemId);
      forall j | 0 < j < FindSpawn(sessions, owner, itemId) ensures !IsSpawn(sessions[j], owner, itemId) {
        assert sessions[1..][j - 1] == sessions[j];
      }
    }
  }

  lemma SpawnStays(a: Entry, b: Entry, owner: Owner, itemId: string)
    requires EntryEvolves(a, b) && IsSpawn(a, owner, itemId)
    ensures IsSpawn(b, owner, itemId)
  {
    hide Normal;
  }

  lemma CompletedSettles(ext: Extensions, e: Event, now: nat)
    requires WellKept(ext) && e.ItemCompleted? && !e.at.Malformed? && OnCompleted(ext, e, now).Ok?
    ensures var (ext', i) := OnCompleted(ext, e, now).value;
            i < |ext'.sessions| && CompletedFor(ext'.sessions[i], e)
  {
    hide OnCompleted, IsSpawnCall, Strip, ReceiverOf, WellKept, EntryEvolves, OfficialSource, IsSpawn, LedgerOk,
         FindSpawn;
    OnCompletedSteps(ext, e, now);
    CompletedKeeps(ext, e, now);
    FirstSpawn(ext.sessions, e.owner, Strip(e.item.id));
    var (ext', i) := OnCompleted(ext, e, now).value;
    SpawnStays(ext.sessions[i], ext'.sessions[i], e.owner, Strip(e.item.id));
  }

  lemma ActivitySettles(ext: Extensions, e: Event, now: nat)
    requires WellKept(ext) && e.SubagentActivity? && !e.at.Malformed? && OnActivity(ext, e, now).Ok?
    ensures var (ext', i) := OnActivity(ext, e, now).value;
            i < |ext'.sessions| && ActiveFor(ext'.sessions[i], e)
  {
    hide OnActivity, IsUuid, Strip, WellKept, Evolves, LedgerOk;
    ActivityGuards(ext, e, now);
    ActivityKeeps(ext, e, now);
  }

  /** An operation that succeeds settles itself. */
  lemma SuccessSettles(ext: Extensions, op: Op, now: nat)
    requires WellKept(ext) && Readable(op) && Apply(ext, op, now).Ok?
    ensures Settled(Apply(ext, op, now).value.0, op)
  {
    hide Reserve, Bind, Finalize, OnStarted, OnCompleted, OnActivity, WellKept, Evolves,
         ReservedFor, BoundFor, StartedFor, CompletedFor, ActiveFor;
    var (ext', i) := Apply(ext, op, now).value;
    ApplyKeeps(ext, op, now);
    match op {
      case Reserving(request) => ReserveSettles(ext, request, now);
      case Binding(auxId, receipt, expected) => BindSettles(ext, auxId, receipt, expected, now);
      case Ending(auxId, at) =>
        FinalizeKeeps(ext, auxId, at, now);
        TerminalIsBound(ext', i);
      case Delivering(event) =>
        match event {
          case ItemStarted(_, _, _, _) => StartedSettles(ext, event, now);
          case ItemCompleted(_, _, _) => CompletedSettles(ext, event, now);
          case SubagentActivity(_, _, _, _) => ActivitySettles(ext, event, now);
        }
    }
    assert Settles(ext', ext'.sessions[i], op) && ext'.sessions[i] in ext'.sessions;
  }

  lemma TerminalIsBound(ext: Extensions, i: nat)
    requires WellKept(ext) && i < |ext.sessions| && ext.sessions[i].sessionState == Terminal
    ensures ext.sessions[i].sessionId != ""
  {
    hide IsNormal, SameKey, LedgerOk;
    assert ext.sessions[i] in ext.sessions;
  }

  // -- settled stays settled

  lemma ReservedForStays(before: Extensions, after: Extensions, a: Entry, b: Entry, request: Reservation)
    requires before.primary == after.primary && SameFrozen(a, b) && ReservedFor(before, a, request)
    ensures ReservedFor(after, b, request)
  {
    hide Clean, Normal, Strip, ReservationError;
    PrimaryDecides(before, after, Clean(request));
  }

  lemma SettlesStays(before: Extensions, after: Extensions, a: Entry, b: Entry, op: Op)
    requires before.primary == after.primary && EntryEvolves(a, b) && Settles(before, a, op)
    ensures Settles(after, b, op)
  {
    hide ReservedFor, SpawnRequest, IsSpawnCall, Strip, ParentError, ReceiverOf, IsSpawn, OfficialSource, IsUuid,
         ReceiptOk;
    match op {
      case Reserving(request) => ReservedForStays(before, after, a, b, request);
      case Binding(_, _, _) =>
      case Ending(_, _) =>
      case Delivering(event) =>
        match event {
          case ItemStarted(owner, turnId, item, at) =>
            ReservedForStays(before, after, a, b, SpawnRequest(before.primary.value, owner, item.id, turnId, at));
          case ItemCompleted(owner, item, _) => SpawnStays(a, b, owner, Strip(item.id));
          case SubagentActivity(_, _, _, _) =>
        }
    }
  }

  lemma SettledStays(before: Extensions, after: Extensions, op: Op)
    requires Evolves(before, after) && Settled(before, op)
    ensures Settled(after, op)
  {
    hide EntryEvolves, Settles;
    var e :| e in before.sessions && Settles(before, e, op);
    var i :| 0 <= i < |before.sessions| && before.sessions[i] == e;
    SettlesStays(before, after, before.sessions[i], after.sessions[i], op);
    assert after.sessions[i] in after.sessions;
  }

  // -- settled means nothing left to do

  lemma ReservationIsUnique(ext: Extensions, i: nat, r: Reservation)
    requires WellKept(ext) && i < |ext.sessions| && SameReservation(ext.sessions[i], r)
    ensures FindReservation(ext.sessions, r) == i
  {
    hide LedgerOk, Normal, SameReservation, SameKey, IsNormal;
    FirstReservation(ext.sessions, r);
    var j := FindReservation(ext.sessions, r);
    if j < |ext.sessions| {
      assert ext.sessions[i] in ext.sessions && ext.sessions[j] in ext.sessions;
      SameRequestSameKey(ext.sessions[j], ext.sessions[i], r);
    }
  }

  lemma SameRequestSameKey(a: Entry, b: Entry, r: Reservation)
    requires IsNormal(a) && IsNormal(b)
    ensures SameReservation(a, r) && SameReservation(b, r) ==> SameKey(a, b)
  {
    hide Normal, Strip;
  }

  lemma ReserveAgain(ext: Extensions, i: nat, request: Reservation, now: nat)
    requires WellKept(ext) && i < |ext.sessions| && ReservedFor(ext, ext.sessions[i], request)
    ensures Reserve(ext, request, now) == Ok((ext, i))
  {
    hide LedgerOk, Clean, FrozenMatch, SameReservation, FindReservation, ReservationError, SameKey, IsNormal;
    ReservationIsUnique(ext, i, Clean(request));
  }

  lemma BindAgain(ext: Extensions, i: nat, auxId: nat, receipt: SessionReceipt, expected: string, now: nat)
    requires WellKept(ext) && i < |ext.sessions| && BoundFor(ext.sessions[i], auxId, receipt, expected)
    ensures Bind(ext, auxId, receipt, expected, now) == Ok((ext, i))
  {
    hide LedgerOk, Strip, ReceiptOk, SameKey, Normal, FindAux, EntryOk, BoundEntry;
    UuidIsItsPlace(ext, i);
    assert ext.sessions[i] in ext.sessions;
    assert IsNormal(ext.sessions[i]);
  }

  lemma FinalizeAgain(ext: Extensions, i: nat, auxId: nat, at: Stamp, now: nat)
    requires WellKept(ext) && i < |ext.sessions|
    requires ext.sessions[i].auxId == auxId && ext.sessions[i].sessionId != "" && ext.sessions[i].sessionState == Terminal
    ensures Finalize(ext, auxId, at, now) == Ok((ext, i))
  {
    hide LedgerOk, Strip, SameKey, Normal, FindAux;
    UuidIsItsPlace(ext, i);
    assert ext.sessions[i] in ext.sessions;
    assert IsNormal(ext.sessions[i]);
  }

  lemma StartedAgain(ext: Extensions, i: nat, e: Event, now: nat)
    requires WellKept(ext) && i < |ext.sessions| && e.ItemStarted? && StartedFor(ext, ext.sessions[i], e)
    ensures OnStarted(ext, e, now) == Ok((ext, i))
  {
    hide WellKept, IsSpawnCall, Strip, ParentError, SpawnRequest, Reserve, ReservedFor;
    ReserveAgain(ext, i, SpawnRequest(ext.primary.value, e.owner, e.item.id, e.turnId, e.at), now);
  }

  lemma SpawnIsUnique(ext: Extensions, i: nat, owner: Owner, itemId: string)
    requires WellKept(ext) && i < |ext.sessions| && IsSpawn(ext.sessions[i], owner, itemId)
    ensures FindSpawn(ext.sessions, owner, itemId) == i
  {
    hide LedgerOk, Normal, IsSpawn, SameKey, IsNormal;
    FirstSpawn(ext.sessions, owner, itemId);
    var j := FindSpawn(ext.sessions, owner, itemId);
    if j < |ext.sessions| {
      assert ext.sessions[i] in ext.sessions && ext.sessions[j] in ext.sessions;
      SameItemSameKey(ext.sessions[j], ext.sessions[i], owner, itemId);
    }
  }

  lemma SameItemSameKey(a: Entry, b: Entry, owner: Owner, itemId: string)
    requires IsNormal(a) && IsNormal(b)
    ensures IsSpawn(a, owner, itemId) && IsSpawn(b, owner, itemId) ==> SameKey(a, b)
  {
    hide Normal, Strip;
  }

  lemma OfficialReceiptOk(thread: string, executor: string)
    requires Normal(executor) == "codex" && Strip(thread) != ""
    ensures ReceiptOk(ThreadReceipt(thread), executor)
  {
    hide Strip, Lower;
    CodexIsNormal();
  }

  lemma CodexIsNormal()
    ensures Normal("codex") == "codex"
  {
    hide Normal;
    PlainIsNormal("codex");
  }

  lemma BindSpawnAgain(ext: Extensions, i: nat, receiver: string, now: nat)
    requires WellKept(ext) && i < |ext.sessions| && Strip(receiver) == receiver != ""
    requires var e := ext.sessions[i];
             e.sessionId == receiver && e.source == OfficialSource("codex") && Normal(e.executor) == "codex" && e.purpose == SPAWN_PURPOSE
    ensures BindSpawn(ext, ext.sessions[i].auxId, receiver, now) == Ok((ext, i))
  {
    hide Strip, Normal, Bind, SameKey, FindAux, EntryOk, ReceiptOk;
    UuidIsItsPlace(ext, i);
    OfficialIsSolid();
    OfficialReceiptOk(receiver, ext.sessions[i].executor);
    BindAgain(ext, i, ext.sessions[i].auxId, ThreadReceipt(receiver), receiver, now);
    assert ext.sessions[i] in ext.sessions;
    assert IsNormal(ext.sessions[i]);
  }

  lemma CompletedAgain(ext: Extensions, i: nat, e: Event, now: nat)
    requires WellKept(ext) && i < |ext.sessions| && e.ItemCompleted? && CompletedFor(ext.sessions[i], e)
    ensures OnCompleted(ext, e, now) == Ok((ext, i))
  {
    hide IsSpawnCall, Strip, ReceiverOf, OfficialSource, LedgerOk, FindSpawn, BindSpawn, Finalize, IsNormal, SameKey,
         Normal;
    SpawnIsUnique(ext, i, e.owner, Strip(e.item.id));
    ReceiverIsStripped(e.item);
    BindSpawnAgain(ext, i, ReceiverOf(e.item), now);
    FinalizeAgain(ext, i, ext.sessions[i].auxId, e.at, now);
  }

  /** A repeated activity can be refused, once another entry is bound to the child, but it never writes. */
  lemma ActivityAgain(ext: Extensions, i: nat, e: Event, now: nat)
    requires WellKept(ext) && i < |ext.sessions| && e.SubagentActivity? && ActiveFor(ext.sessions[i], e)
    ensures OnActivity(ext, e, now).Ok? <==>
              CountBound(ext.sessions, ext.sessions[i].sessionId) == 1 && OwnedBy(ext.sessions[i], e.owner)
    ensures OnActivity(ext, e, now).Ok? ==> OnActivity(ext, e, now) == Ok((ext, i))
  {
    hide IsUuid, Strip, LedgerOk, ReserveSpawn, Finalize, IsNormal, SameKey, CountBound, OwnedBy;
    var child := Strip(e.item.agentThreadId);
    var j := FindBound(ext.sessions, child);
    if CountBound(ext.sessions, child) == 1 {
      OnlyOneBound(ext.sessions, child, i, j);
      if e.item.kind == "completed" {
        FinalizeAgain(ext, i, ext.sessions[i].auxId, e.at, now);
      }
    }
  }

  lemma {:induction false} BoundIsCounted(sessions: seq<Entry>, child: string, i: nat)
    requires i < |sessions| && sessions[i].sessionId == child
    ensures CountBound(sessions, child) >= 1
  {
    if i > 0 {
      BoundIsCounted(sessions[1..], child, i - 1);
    }
  }

  lemma {:induction false} OnlyOneBound(sessions: seq<Entry>, child: string, i: nat, j: nat)
    requires CountBound(sessions, child) == 1 && i < |sessions| && j < |sessions|
    requires sessions[i].sessionId == child && sessions[j].sessionId == child
    ensures i == j
  {
    if i > 0 && j > 0 {
      assert sessions[1..][i - 1] == sessions[i] && sessions[1..][j - 1] == sessions[j];
      BoundIsCounted(sessions[1..], child, i - 1);
      OnlyOneBound(sessions[1..], child, i - 1, j - 1);
    } else if i > 0 {
      BoundIsCounted(sessions[1..], child, i - 1);
    } else if j > 0 {
      BoundIsCounted(sessions[1..], child, j - 1);
    }
  }

  /**
    Performing a settled operation again changes nothing; and it succeeds again,
    unless it is an activity whose child has meanwhile been bound a second time
    or belongs to somebody else.
  */
  lemma SettledMeansDone(ext: Extensions, op: Op, now: nat)
    requires WellKept(ext) && Settled(ext, op)
    ensures Step(ext, op, now) == ext
    ensures !(op.Delivering? && op.event.SubagentActivity?) ==> Apply(ext, op, now).Ok?
  {
    hide WellKept, Reserve, Bind, Finalize, OnStarted, OnCompleted, OnActivity,
         ReservedFor, BoundFor, StartedFor, CompletedFor, ActiveFor;
    var e :| e in ext.sessions && Settles(ext, e, op);
    var i :| 0 <= i < |ext.sessions| && ext.sessions[i] == e;
    match op {
      case Reserving(request) => ReserveAgain(ext, i, request, now);
      case Binding(auxId, receipt, expected) => BindAgain(ext, i, auxId, receipt, expected, now);
      case Ending(auxId, at) => FinalizeAgain(ext, i, auxId, at, now);
      case Delivering(event) =>
        match event {
          case ItemStarted(_, _, _, _) => StartedAgain(ext, i, event, now);
          case ItemCompleted(_, _, _) => CompletedAgain(ext, i, event, now);
          case SubagentActivity(_, _, _, _) => ActivityAgain(ext, i, event, now);
        }
    }
  }

  // -- streams

  function StampOf(op: Op): Stamp {
    match op
    case Reserving(request) => request.createdAt
    case Binding(_, _, _) => Missing
    case Ending(_, at) => at
    case Delivering(event) => event.at
  }

  /** What makes two deliveries the same operation: everything but the time they carry. */
  function Stampless(op: Op): Op {
    match op
    case Reserving(request) => Reserving(request.(createdAt := Missing))
    case Binding(_, _, _) => op
    case Ending(auxId, _) => Ending(auxId, Missing)
    case Delivering(event) => Delivering(event.(at := Missing))
  }

  /** Which entry settles an operation does not depend on its stamp, as long as the stamp can be read. */
  lemma SettlesIgnoresStamp(ext: Extensions, e: Entry, op: Op)
    requires !StampOf(op).Malformed?
    ensures Settles(ext, e, op) <==> Settles(ext, e, Stampless(op))
  {
    hide Strip, Normal, ReservationError, IsSpawnCall, ReceiverOf, IsUuid, OfficialSource, ReceiptOk, ParentError, IsSpawn;
    match op {
      case Reserving(request) => RequestIgnoresStamp(ext, e, request);
      case Delivering(event) =>
        if event.ItemStarted? && ext.primary.Some? {
          RequestIgnoresStamp(ext, e, SpawnRequest(ext.primary.value, event.owner, event.item.id, event.turnId, event.at));
        }
      case _ =>
    }
  }

  lemma RequestIgnoresStamp(ext: Extensions, e: Entry, request: Reservation)
    requires !request.createdAt.Malformed?
    ensures ReservedFor(ext, e, request) <==> ReservedFor(ext, e, request.(createdAt := Missing))
  {
    hide Strip, Normal, IsExecutor, CleanupReceipt.IsLabel;
  }

  /** A redelivery under whatever stamp changes nothing; one whose stamp cannot be read is refused. */
  lemma RedeliveryChangesNothing(ext: Extensions, op: Op, now: nat)
    requires WellKept(ext) && Readable(op) && Settled(ext, Stampless(op))
    ensures Step(ext, op, now) == ext
  {
    hide WellKept, Settles, Apply;
    var e :| e in ext.sessions && Settles(ext, e, Stampless(op));
    if StampOf(op).Malformed? {
      UnreadableIsRefused(ext, op, now);
    } else {
      SettlesIgnoresStamp(ext, e, op);
      SettledMeansDone(ext, op, now);
    }
  }

  lemma UnreadableIsRefused(ext: Extensions, op: Op, now: nat)
    requires Readable(op) && StampOf(op).Malformed?
    ensures Apply(ext, op, now).Err?
  {
    hide Reserve;
    if Reserve(ext, op.request, now).Ok? {
      ReservePasses(ext, op.request, now);
    }
  }

  lemma SuccessSettlesKey(ext: Extensions, op: Op, now: nat)
    requires WellKept(ext) && Readable(op) && Apply(ext, op, now).Ok?
    ensures Settled(Apply(ext, op, now).value.0, Stampless(op))
  {
    hide WellKept, Settles, Apply;
    var next := Apply(ext, op, now).value.0;
    SuccessSettles(ext, op, now);
    if StampOf(op).Malformed? {
      UnreadableIsRefused(ext, op, now);
    }
    var e :| e in next.sessions && Settles(next, e, op);
    SettlesIgnoresStamp(next, e, op);
  }

  /** The run without the operations that had already succeeded, under whatever stamp, when they came again. */
  function WithoutRedeliveries(ext: Extensions, ops: seq<(Op, nat)>, done: set<Op>): seq<(Op, nat)>
    decreases |ops|
  {
    hide *;
    if ops == [] then []
    else
      var (op, now) := ops[0];
      if Stampless(op) in done then WithoutRedeliveries(ext, ops[1..], done)
      else
        [ops[0]]
        + WithoutRedeliveries(Step(ext, op, now), ops[1..], if Apply(ext, op, now).Ok? then done + {Stampless(op)} else done)
  }

  /**
    At-least-once delivery: whatever else runs in between, and whatever fails,
    dropping every operation that had already succeeded leaves the same ledger.
  */
  lemma {:induction false} RedeliveriesChangeNothing(ext: Extensions, ops: seq<(Op, nat)>, done: set<Op>)
    requires WellKept(ext) && (forall o <- ops :: Readable(o.0)) && forall key <- done :: Settled(ext, key)
    ensures Run(ext, ops) == Run(ext, WithoutRedeliveries(ext, ops, done))
    decreases |ops|
  {
    hide Apply, WellKept, Evolves, Readable, Settled, Stampless;
    if ops != [] {
      assert ops[0] in ops;
      var (op, now) := ops[0];
      if Stampless(op) in done {
        RedeliveryChangesNothing(ext, op, now);
        RedeliveriesChangeNothing(ext, ops[1..], done);
      } else {
        var next := Step(ext, op, now);
        var done' := if Apply(ext, op, now).Ok? then done + {Stampless(op)} else done;
        if Apply(ext, op, now).Ok? {
          ApplyKeeps(ext, op, now);
          SuccessSettlesKey(ext, op, now);
          forall key <- done ensures Settled(next, key) {
            SettledStays(ext, next, key);
          }
        }
        RedeliveriesChangeNothing(next, ops[1..], done');
        var kept := WithoutRedeliveries(ext, ops, done);
        assert kept[0] == ops[0];
        assert kept[1..] == WithoutRedeliveries(next, ops[1..], done');
      }
    }
  }

  predicate AllSucceed(ext: Extensions, ops: seq<(Op, nat)>)
    decreases |ops|
  {
    hide *;
    ops == [] || (Apply(ext, ops[0].0, ops[0].1).Ok? && AllSucceed(Step(ext, ops[0].0, ops[0].1), ops[1..]))
  }

  /** The stream without repetitions. */
  function FirstOccurrences(ops: seq<(Op, nat)>, seen: set<Op>): seq<(Op, nat)>
    decreases |ops|
  {
    hide *;
    if ops == [] then []
    else if Stampless(ops[0].0) in seen then FirstOccurrences(ops[1..], seen)
    else [ops[0]] + FirstOccurrences(ops[1..], seen + {Stampless(ops[0].0)})
  }

  lemma {:induction false} SuccessesAreOccurrences(ext: Extensions, ops: seq<(Op, nat)>, done: set<Op>)
    requires WellKept(ext) && (forall o <- ops :: Readable(o.0)) && forall key <- done :: Settled(ext, key)
    requires AllSucceed(ext, ops)
    ensures WithoutRedeliveries(ext, ops, done) == FirstOccurrences(ops, done)
    decreases |ops|
  {
    hide Apply, WellKept, Evolves, Readable, Settled, Stampless;
    if ops != [] {
      assert ops[0] in ops;
      var (op, now) := ops[0];
      var next := Step(ext, op, now);
      ApplyKeeps(ext, op, now);
      if Stampless(op) in done {
        RedeliveryChangesNothing(ext, op, now);
        SuccessesAreOccurrences(next, ops[1..], done);
      } else {
        SuccessSettlesKey(ext, op, now);
        forall key <- done ensures Settled(next, key) {
          SettledStays(ext, next, key);
        }
        SuccessesAreOccurrences(next, ops[1..], done + {Stampless(op)});
      }
    }
  }

  /** A stream that succeeds throughout leaves the ledger its first occurrences leave. */
  lemma AtLeastOnceIsOnce(ext: Extensions, ops: seq<(Op, nat)>)
    requires WellKept(ext) && (forall o <- ops :: Readable(o.0)) && AllSucceed(ext, ops)
    ensures Run(ext, ops) == Run(ext, FirstOccurrences(ops, {}))
  {
    hide WellKept, Readable, AllSucceed;
    RedeliveriesChangeNothing(ext, ops, {});
    SuccessesAreOccurrences(ext, ops, {});
  }

  // ------------------------------------------------------------ distinct children

  /** No two entries are bound to the same session. */
  predicate BoundApart(sessions: seq<Entry>) {
    forall i, j :: 0 <= i < j < |sessions| && sessions[i].sessionId != "" ==> sessions[i].sessionId != sessions[j].sessionId
  }

  /** The operations that bind nothing, or only a child that is not bound yet. */
  predicate BindsApart(op: Op) {
    match op
    case Reserving(_) => true
    case Binding(_, _, _) => false
    case Ending(_, _) => true
    case Delivering(event) => !event.ItemCompleted?
  }

  lemma ReserveKeepsApart(ext: Extensions, request: Reservation, now: nat)
    requires WellKept(ext) && BoundApart(ext.sessions) && Reserve(ext, request, now).Ok?
    ensures BoundApart(Reserve(ext, request, now).value.0.sessions)
  {
    hide Reserve, WellKept, SameReservation, FrozenMatch, Clean, LedgerOk, EntryOk;
    ReserveOutcome(ext, request, now);
  }

  lemma ActivityKeepsApart(ext: Extensions, e: Event, now: nat)
    requires WellKept(ext) && BoundApart(ext.sessions) && e.SubagentActivity? && !e.at.Malformed? && OnActivity(ext, e, now).Ok?
    ensures BoundApart(OnActivity(ext, e, now).value.0.sessions)
  {
    hide OnActivity, Strip, WellKept, EntryEvolves;
    ActivityKeeps(ext, e, now);
    var child := Strip(e.item.agentThreadId);
    var (ext', i) := OnActivity(ext, e, now).value;
    var s, s' := ext.sessions, ext'.sessions;
    if s' != s {
      forall j, k | 0 <= j < k < |s'| && s'[j].sessionId != "" ensures s'[j].sessionId != s'[k].sessionId {
        if j != i && k != i {
          assert j < |s|;
        } else {
          var other := if j == i then k else j;
          assert other < |s| ==> other != FindBound(s, child);
        }
      }
    }
  }

  lemma ApplyKeepsApart(ext: Extensions, op: Op, now: nat)
    requires WellKept(ext) && Readable(op) && BindsApart(op) && BoundApart(ext.sessions) && Apply(ext, op, now).Ok?
    ensures BoundApart(Apply(ext, op, now).value.0.sessions)
  {
    hide Reserve, Bind, Finalize, OnStarted, OnCompleted, OnActivity, WellKept, Evolves, BoundApart;
    match op {
      case Reserving(request) => ReserveKeepsApart(ext, request, now);
      case Ending(auxId, at) => FinalizeKeepsApart(ext, auxId, at, now);
      case Delivering(event) =>
        if event.ItemStarted? {
          StartedIsReserve(ext, event, now);
          ReserveSpawnIsReserve(ext, event.owner, event.item.id, event.turnId, event.at, now);
          ReserveKeepsApart(ext, SpawnRequest(ext.primary.value, event.owner, event.item.id, event.turnId, event.at), now);
        } else {
          ActivityKeepsApart(ext, event, now);
        }
    }
  }

  lemma FinalizeKeepsApart(ext: Extensions, auxId: nat, at: Stamp, now: nat)
    requires WellKept(ext) && !at.Malformed? && BoundApart(ext.sessions) && Finalize(ext, auxId, at, now).Ok?
    ensures BoundApart(Finalize(ext, auxId, at, now).value.0.sessions)
  {
    hide Strip, LedgerOk, WellKept;
  }

  /** Binding one entry keeps the sessions distinct exactly when no other entry is bound to that session. */
  lemma OneBindingApartIff(s: seq<Entry>, s': seq<Entry>, i: nat, child: string)
    requires BoundApart(s) && i < |s| == |s'| && s'[i].sessionId == child != ""
    requires forall j :: 0 <= j < |s| && j != i ==> s'[j] == s[j]
    ensures BoundApart(s') <==> forall j :: 0 <= j < |s| && s[j].sessionId == child ==> j == i
  {
    if j :| 0 <= j < |s| && s[j].sessionId == child && j != i {
      var low, high := if i < j then i else j, if i < j then j else i;
      assert s'[low].sessionId == s'[high].sessionId;
    }
  }

  /** A completed item keeps the bound sessions distinct exactly when no entry but its own is bound to its receiver. */
  lemma CompletedApartIff(ext: Extensions, e: Event, now: nat)
    requires WellKept(ext) && BoundApart(ext.sessions) && e.ItemCompleted? && !e.at.Malformed? && OnCompleted(ext, e, now).Ok?
    ensures BoundApart(OnCompleted(ext, e, now).value.0.sessions) <==>
              forall j :: 0 <= j < |ext.sessions| && ext.sessions[j].sessionId == ReceiverOf(e.item) ==>
                j == FindSpawn(ext.sessions, e.owner, Strip(e.item.id))
  {
    hide OnCompleted, WellKept, Evolves, Strip, ReceiverOf, FindSpawn, OfficialSource, BoundApart;
    CompletedKeeps(ext, e, now);
    CompletedNamesAThread(ext, e, now);
    var (ext', i) := OnCompleted(ext, e, now).value;
    OneBindingApartIff(ext.sessions, ext'.sessions, i, ReceiverOf(e.item));
  }

  lemma CompletedNamesAThread(ext: Extensions, e: Event, now: nat)
    requires e.ItemCompleted? && OnCompleted(ext, e, now).Ok?
    ensures ReceiverOf(e.item) != ""
  {
    hide ReceiverOf, Strip, FindSpawn, LedgerOk, BindSpawn, EndSpawn, IsSpawnCall;
  }

  /** Likewise for a receipt that is bound directly. */
  lemma BindingApartIff(ext: Extensions, auxId: nat, receipt: SessionReceipt, expected: string, now: nat)
    requires WellKept(ext) && BoundApart(ext.sessions) && Bind(ext, auxId, receipt, expected, now).Ok?
    ensures BoundApart(Bind(ext, auxId, receipt, expected, now).value.0.sessions) <==>
              forall j :: 0 <= j < |ext.sessions| && ext.sessions[j].sessionId == Strip(receipt.sessionId) ==>
                ext.sessions[j].auxId == auxId
  {
    hide Bind, WellKept, Evolves, Strip, BoundApart, BoundEntry, EntryOk, ReceiptOk;
    BindKeeps(ext, auxId, receipt, expected, now);
    BindOutcome(ext, auxId, receipt, expected, now);
    var (ext', i) := Bind(ext, auxId, receipt, expected, now).value;
    OneBindingApartIff(ext.sessions, ext'.sessions, i, Strip(receipt.sessionId));
    forall j | 0 <= j < |ext.sessions| && ext.sessions[j].auxId == auxId ensures j == i {
      UuidIsItsPlace(ext, j);
    }
  }

  /** The operation binds a session to which some other entry is bound already. */
  predicate Shares(ext: Extensions, op: Op) {
    var s := ext.sessions;
    match op
    case Binding(auxId, receipt, _) =>
      exists j :: 0 <= j < |s| && s[j].sessionId == Strip(receipt.sessionId) && s[j].auxId != auxId
    case Delivering(event) =>
      event.ItemCompleted?
      && exists j :: 0 <= j < |s| && s[j].sessionId == ReceiverOf(event.item) && j != FindSpawn(s, event.owner, Strip(event.item.id))
    case _ => false
  }

  lemma ApplyApartIff(ext: Extensions, op: Op, now: nat)
    requires WellKept(ext) && Readable(op) && BoundApart(ext.sessions) && Apply(ext, op, now).Ok?
    ensures BoundApart(Apply(ext, op, now).value.0.sessions) <==> !Shares(ext, op)
  {
    hide Reserve, Bind, Finalize, OnStarted, OnCompleted, OnActivity, WellKept, Evolves, BoundApart, Strip, ReceiverOf, FindSpawn;
    match op {
      case Binding(auxId, receipt, expected) => BindingApartIff(ext, auxId, receipt, expected, now);
      case Delivering(event) =>
        if event.ItemCompleted? {
          CompletedApartIff(ext, event, now);
        } else {
          ApplyKeepsApart(ext, op, now);
        }
      case _ => ApplyKeepsApart(ext, op, now);
    }
  }

  /** No operation of the run that succeeds names a session some other entry is bound to at that moment. */
  predicate NeverShares(ext: Extensions, ops: seq<(Op, nat)>)
    decreases |ops|
  {
    hide *;
    ops == []
    || ((Apply(ext, ops[0].0, ops[0].1).Ok? ==> !Shares(ext, ops[0].0)) && NeverShares(Step(ext, ops[0].0, ops[0].1), ops[1..]))
  }

  /** A session that two entries share is shared for good. */
  lemma SharedForGood(before: Extensions, after: Extensions)
    requires Evolves(before, after) && BoundApart(after.sessions)
    ensures BoundApart(before.sessions)
  {
    forall i, j | 0 <= i < j < |before.sessions| && before.sessions[i].sessionId != ""
      ensures before.sessions[i].sessionId != before.sessions[j].sessionId
    {
      assert EntryEvolves(before.sessions[i], after.sessions[i]) && EntryEvolves(before.sessions[j], after.sessions[j]);
    }
  }

  /**
    Over the whole run: the bound sessions end up pairwise distinct exactly when
    no successful binding and no completed item names a session that another
    entry holds at that moment.
  */
  lemma {:induction false} RunBindsApartIff(ext: Extensions, ops: seq<(Op, nat)>)
    requires WellKept(ext) && BoundApart(ext.sessions) && forall o <- ops :: Readable(o.0)
    ensures BoundApart(Run(ext, ops).sessions) <==> NeverShares(ext, ops)
    decreases |ops|
  {
    hide Apply, WellKept, Evolves, Readable, Shares, BoundApart;
    if ops != [] {
      assert ops[0] in ops;
      var (op, now) := ops[0];
      var next := Step(ext, op, now);
      if Apply(ext, op, now).Ok? {
        ApplyKeeps(ext, op, now);
        ApplyApartIff(ext, op, now);
      }
      if BoundApart(next.sessions) {
        RunBindsApartIff(next, ops[1..]);
      } else if BoundApart(Run(ext, ops).sessions) {
        EveryRunKeepsTheLedger(next, ops[1..]);
        SharedForGood(next, Run(next, ops[1..]));
      }
    }
  }

  /** So as long as only activities bind, the bound sessions stay pairwise distinct over the whole run. */
  lemma {:induction false} ActivitiesBindApart(ext: Extensions, ops: seq<(Op, nat)>)
    requires WellKept(ext) && BoundApart(ext.sessions) && forall o <- ops :: Readable(o.0) && BindsApart(o.0)
    ensures BoundApart(Run(ext, ops).sessions)
  {
    hide WellKept, Readable, BindsApart, BoundApart, Run;
    ActivitiesNeverShare(ext, ops);
    RunBindsApartIff(ext, ops);
  }

  lemma {:induction false} ActivitiesNeverShare(ext: Extensions, ops: seq<(Op, nat)>)
    requires forall o <- ops :: BindsApart(o.0)
    ensures NeverShares(ext, ops)
    decreases |ops|
  {
    hide Apply, Step;
    if ops != [] {
      assert ops[0] in ops;
      ActivitiesNeverShare(Step(ext, ops[0].0, ops[0].1), ops[1..]);
    }
  }

  lemma BoundEntryOk(e: Entry, receipt: SessionReceipt, now: nat)
    requires EntryOk(e) && e.sessionState == Reserved && Strip(receipt.sessionId) != "" && Strip(receipt.source) != ""
    ensures EntryOk(BoundEntry(e, receipt, now))
  {
    hide Strip, Normal, IsExecutor, IsProjectMode, CleanupReceipt.Valid, CleanupReceipt.IsLabel;
    StripIdempotent(receipt.sessionId);
    StripIdempotent(receipt.source);
  }

  /** The first completion of a reserved child succeeds. */
  lemma FirstCompletionSucceeds(ext: Extensions, i: nat, e: Event, now: nat)
    requires WellKept(ext) && i < |ext.sessions| && ext.sessions[i].sessionState == Reserved
    requires e.ItemCompleted? && IsSpawnCall(e.item) && Strip(e.item.id) != "" && ReceiverOf(e.item) != ""
    requires IsSpawn(ext.sessions[i], e.owner, Strip(e.item.id))
    ensures OnCompleted(ext, e, now).Ok? && OnCompleted(ext, e, now).value.1 == i
  {
    hide IsSpawnCall, Strip, Normal, ReceiverOf, OfficialSource, LedgerOk, FindSpawn, Evolves, SameKey, FindAux,
         EntryOk, ReceiptOk, IsNormal, BoundEntry;
    var thread := ReceiverOf(e.item);
    var entry := ext.sessions[i];
    assert entry in ext.sessions;
    SpawnIsUnique(ext, i, e.owner, Strip(e.item.id));
    UuidIsItsPlace(ext, i);
    ReceiverIsStripped(e.item);
    OfficialIsSolid();
    OfficialReceiptOk(thread, entry.executor);
    StripIdentity("");
    assert EntryOk(entry) by { LedgerEntryOk(ext.sessions, i); }
    BoundEntryOk(entry, ThreadReceipt(thread), now);
    assert Bind(ext, entry.auxId, ThreadReceipt(thread), thread, now).Ok?;
    assert BindSpawn(ext, entry.auxId, thread, now).Ok?;
    BindSpawnKeeps(ext, entry.auxId, thread, now);
    var bound := BindSpawn(ext, entry.auxId, thread, now).value.0;
    UuidIsItsPlace(bound, i);
    BoundCanEnd(bound, i);
  }

  lemma LedgerEntryOk(sessions: seq<Entry>, i: nat)
    requires LedgerOk(sessions) && i < |sessions|
    ensures EntryOk(sessions[i])
  {
    hide EntryOk;
    assert sessions[i] in sessions;
  }

  lemma BoundCanEnd(ext: Extensions, i: nat)
    requires WellKept(ext) && i < |ext.sessions| && ext.sessions[i].sessionId != ""
    ensures LedgerOk(ext.sessions) && Strip(ext.sessions[i].sessionId) != "" && ext.sessions[i].sessionState != Reserved
  {
    hide LedgerOk, Strip, Normal, SameKey;
    assert ext.sessions[i] in ext.sessions;
    assert IsNormal(ext.sessions[i]);
  }

  /**
    Completed items do bind two entries to one thread: two reserved children
    whose items name the same receiver both complete, and share it.
  */
  lemma CompletedItemsShareAReceiver(ext: Extensions, i: nat, j: nat, owner: Owner, a: Item, b: Item, at: Stamp, now: nat)
    requires WellKept(ext) && i < |ext.sessions| && j < |ext.sessions| && i != j && !at.Malformed?
    requires ext.sessions[i].sessionState == Reserved && ext.sessions[j].sessionState == Reserved
    requires IsSpawn(ext.sessions[i], owner, Strip(a.id)) && IsSpawn(ext.sessions[j], owner, Strip(b.id))
    requires IsSpawnCall(a) && IsSpawnCall(b) && Strip(a.id) != "" && Strip(b.id) != ""
    requires ReceiverOf(a) == ReceiverOf(b) != ""
    ensures var ext' := Step(ext, Delivering(ItemCompleted(owner, a, at)), now);
            var ext'' := Step(ext', Delivering(ItemCompleted(owner, b, at)), now);
            Apply(ext, Delivering(ItemCompleted(owner, a, at)), now).Ok?
            && Apply(ext', Delivering(ItemCompleted(owner, b, at)), now).Ok?
            && !BoundApart(ext''.sessions)
  {
    hide OnCompleted, WellKept, EntryEvolves, Strip, ReceiverOf, FindSpawn, IsSpawnCall, IsSpawn, LedgerOk;
    var first, second := ItemCompleted(owner, a, at), ItemCompleted(owner, b, at);
    FirstCompletionSucceeds(ext, i, first, now);
    CompletedKeeps(ext, first, now);
    var ext' := OnCompleted(ext, first, now).value.0;
    assert ext'.sessions[j] == ext.sessions[j];
    FirstCompletionSucceeds(ext', j, second, now);
    CompletedKeeps(ext', second, now);
    var ext'' := OnCompleted(ext', second, now).value.0;
    assert ext''.sessions[i] == ext'.sessions[i];
    var low, high := if i < j then i else j, if i < j then j else i;
    assert ext''.sessions[low].sessionId == ext''.sessions[high].sessionId != "";
  }

  // ------------------------------------------------------------ reconciliation

  /** One thread of the official listing. */
  datatype Thread = Thread(ancestorThreadId: string, id: string, threadId: string)

  function ThreadName(t: Thread): string {
    Strip(if t.id != "" then t.id else t.threadId)
  }

  predicate IsDescendant(t: Thread, parentSessionId: string) {
    Strip(t.ancestorThreadId) == Strip(parentSessionId) && ThreadName(t) != ""
  }

  /** The entry registers a child of this owner under its session. */
  predicate Registers(e: Entry, owner: Owner) {
    OwnedBy(e, owner) && Normal(e.executor) == "codex" && e.purpose == SPAWN_PURPOSE && Strip(e.sessionId) != ""
  }

  function Registered(sessions: seq<Entry>, owner: Owner): set<string> {
    set e <- sessions | Registers(e, owner) :: Strip(e.sessionId)
  }

  function Descendants(threads: seq<Thread>, parentSessionId: string): set<string> {
    set t <- threads | IsDescendant(t, parentSessionId) :: ThreadName(t)
  }

  /** `reconcile_codex_descendants`: the descendants, when every one of them is registered. */
  method ReconcileDescendants(ext: Extensions, owner: Owner, threads: seq<Thread>) returns (outcome: Result<set<string>>)
    ensures !LedgerOk(ext.sessions) ==> outcome == Err("auxiliary_ledger_invalid")
    ensures LedgerOk(ext.sessions) ==>
      outcome == if Descendants(threads, owner.parentSessionId) <= Registered(ext.sessions, owner)
                 then Ok(Descendants(threads, owner.parentSessionId)) else Err(SESSION_UNREGISTERED)
  {
    hide LedgerOk, Registers, Strip, IsDescendant, ThreadName;
    if !LedgerOk(ext.sessions) {
      return Err("auxiliary_ledger_invalid");
    }
    var registered := Registered(ext.sessions, owner);
    var descendants: set<string> := {};
    for i := 0 to |threads|
      invariant descendants == Descendants(threads[..i], owner.parentSessionId)
    {
      assert threads[..i + 1] == threads[..i] + [threads[i]];
      if IsDescendant(threads[i], owner.parentSessionId) {
        descendants := descendants + {ThreadName(threads[i])};
      }
    }
    assert threads[..|threads|] == threads;
    outcome := if descendants <= registered then Ok(descendants) else Err(SESSION_UNREGISTERED);
  }

  lemma RegistersStays(a: Entry, b: Entry, owner: Owner)
    requires EntryEvolves(a, b) && Registers(a, owner)
    ensures Registers(b, owner) && b.sessionId == a.sessionId
  {
    hide Normal, Strip;
    StripIdentity("");
  }

  /** Whatever is registered stays registered for the rest of every run. */
  lemma RegisteredForGood(ext: Extensions, ops: seq<(Op, nat)>, owner: Owner)
    requires WellKept(ext) && forall o <- ops :: Readable(o.0)
    ensures Registered(ext.sessions, owner) <= Registered(Run(ext, ops).sessions, owner)
  {
    hide WellKept, EntryEvolves, Registers, Strip, Run, Readable;
    EveryRunKeepsTheLedger(ext, ops);
    var after := Run(ext, ops);
    forall child <- Registered(ext.sessions, owner) ensures child in Registered(after.sessions, owner) {
      var e :| e in ext.sessions && Registers(e, owner) && Strip(e.sessionId) == child;
      var i :| 0 <= i < |ext.sessions| && ext.sessions[i] == e;
      RegistersStays(ext.sessions[i], after.sessions[i], owner);
      assert after.sessions[i] in after.sessions;
    }
  }

  /** A completed item registers its receiver. */
  lemma CompletedIsRegistered(ext: Extensions, e: Event, now: nat)
    requires WellKept(ext) && e.ItemCompleted? && !e.at.Malformed? && OnCompleted(ext, e, now).Ok?
    ensures ReceiverOf(e.item) in Registered(OnCompleted(ext, e, now).value.0.sessions, e.owner)
  {
    hide OnCompleted, WellKept, Evolves, Strip, ReceiverOf, Normal, IsSpawnCall;
    CompletedKeeps(ext, e, now);
    CompletedSettles(ext, e, now);
    ReceiverIsStripped(e.item);
    var (ext', i) := OnCompleted(ext, e, now).value;
    assert ext'.sessions[i] in ext'.sessions && Registers(ext'.sessions[i], e.owner);
  }
}
