/**
  The bounded two-phase ledger of auxiliary executor sessions: reserve, bind
  the official receipt, mark terminal (src/agent_bridge_connect/auxiliary_sessions.py:128-506,
  1215-1270; src/agent_bridge_connect/execution_policy.py:1012-1042).
*/
module AuxiliaryLedger {
  import opened Outcomes
  import opened Text
  import opened Clock
  import CleanupReceipt

  const AUXILIARY_SESSION_LIMIT := 16

  datatype SessionState = Reserved | Active | InputRequired | NeedsRecovery | Terminal

  /** One auxiliary session; the uuid is the number under which it was minted, an absent optional text is empty. */
  datatype Entry = Entry(
    auxId: nat, ownerTaskId: string, ownerRunId: string, parentExecutor: string, parentSessionId: string,
    executor: string, sessionId: string, source: string, purpose: string, retain: bool, sessionState: SessionState,
    projectMode: string, projectPath: string, cleanup: CleanupReceipt.Receipt,
    reservedAt: Stamp, boundAt: Stamp, createdAt: Stamp, updatedAt: Stamp,
    itemId: string, turnId: string)

  /** The primary session of the task; `retain` is absent when it is no boolean. */
  datatype Primary = Primary(
    executor: string, sessionId: string, receiptBound: bool, receiptSource: string,
    runIds: seq<string>, sessionState: string, retain: Option<bool>)

  /** The task extensions the ledger lives in, and how many uuids have been minted. */
  datatype Extensions = Extensions(primary: Option<Primary>, sessions: seq<Entry>, minted: nat)

  predicate IsExecutor(s: string) {
    s == "claude" || s == "codex" || s == "hermes"
  }

  predicate IsProjectMode(s: string) {
    s == "native" || s == "ephemeral" || s == "none"
  }

  // ------------------------------------------------------------ validation

  /** `validate_auxiliary_entry` finds nothing to object to. */
  predicate EntryOk(e: Entry) {
    Strip(e.ownerTaskId) != "" && Strip(e.ownerRunId) != "" && Strip(e.parentSessionId) != ""
    && IsExecutor(Normal(e.parentExecutor)) && IsExecutor(Normal(e.executor))
    && CleanupReceipt.IsLabel(e.purpose)
    && (e.sessionState != Reserved ==> Strip(e.sessionId) != "" && Strip(e.source) != "")
    && IsProjectMode(Normal(e.projectMode))
    && CleanupReceipt.Valid(e.cleanup)
    && !e.reservedAt.Malformed? && !e.boundAt.Malformed? && !e.createdAt.Malformed? && !e.updatedAt.Malformed?
    && (e.sessionState == Reserved ==>
          e.sessionId == "" && e.source == "" && e.boundAt.Missing? && e.cleanup.state == CleanupReceipt.NotRequested)
  }

  /** `validate_auxiliary_ledger` finds nothing to object to. */
  predicate LedgerOk(sessions: seq<Entry>) {
    |sessions| <= AUXILIARY_SESSION_LIMIT
    && (forall e <- sessions :: EntryOk(e))
    && (forall i, j :: 0 <= i < j < |sessions| ==> sessions[i].auxId != sessions[j].auxId)
  }

  // ------------------------------------------------------------ reserving

  datatype Reservation = Reservation(
    ownerTaskId: string, ownerRunId: string, parentExecutor: string, parentSessionId: string,
    executor: string, purpose: string, retain: bool, projectMode: string, projectPath: string,
    itemId: string, turnId: string, createdAt: Stamp)

  function Clean(r: Reservation): Reservation {
    Reservation(Strip(r.ownerTaskId), Strip(r.ownerRunId), Normal(r.parentExecutor), Strip(r.parentSessionId),
                Normal(r.executor), Normal(r.purpose), r.retain, Normal(r.projectMode), Strip(r.projectPath),
                Strip(r.itemId), Strip(r.turnId), r.createdAt)
  }

  /** What identifies a reservation: run, parent session, executor, purpose and item. */
  predicate SameReservation(e: Entry, r: Reservation) {
    e.ownerRunId == r.ownerRunId && e.parentSessionId == r.parentSessionId && Normal(e.executor) == r.executor
    && e.purpose == r.purpose && e.itemId == r.itemId
  }

  /** The place of the first entry this reservation matches. */
  function FindReservation(sessions: seq<Entry>, r: Reservation): (i: nat)
    ensures i <= |sessions|
  {
    if sessions == [] || SameReservation(sessions[0], r) then 0 else 1 + FindReservation(sessions[1..], r)
  }

  lemma {:induction false} FirstReservation(sessions: seq<Entry>, r: Reservation)
    ensures var i := FindReservation(sessions, r);
            (i < |sessions| ==> SameReservation(sessions[i], r))
            && forall j :: 0 <= j < i ==> !SameReservation(sessions[j], r)
  {
    hide SameReservation;
    if sessions != [] && !SameReservation(sessions[0], r) {
      FirstReservation(sessions[1..], r);
      forall j | 0 < j < FindReservation(sessions, r) ensures !SameReservation(sessions[j], r) {
        assert sessions[1..][j - 1] == sessions[j];
      }
    }
  }

  /** The frozen fields a repeated reservation must repeat. */
  predicate FrozenMatch(e: Entry, r: Reservation) {
    Strip(e.ownerTaskId) == r.ownerTaskId && Normal(e.parentExecutor) == r.parentExecutor && e.retain == r.retain
    && Normal(e.projectMode) == r.projectMode && Strip(e.projectPath) == r.projectPath
    && e.itemId == r.itemId && e.turnId == r.turnId
  }

  function NewEntry(auxId: nat, r: Reservation, at: Stamp): Entry {
    Entry(auxId, r.ownerTaskId, r.ownerRunId, r.parentExecutor, r.parentSessionId, r.executor, "", "", r.purpose, r.retain,
          Reserved, r.projectMode, r.projectPath, CleanupReceipt.FRESH_RECEIPT, at, Missing, at, at, r.itemId, r.turnId)
  }

  function ReservationError(ext: Extensions, r: Reservation): string {
    if r.ownerTaskId == "" || r.ownerRunId == "" || !IsExecutor(r.executor) || !IsExecutor(r.parentExecutor)
       || r.parentSessionId == "" || !CleanupReceipt.IsLabel(r.purpose) then "auxiliary_reservation_invalid"
    else if ext.primary.Some? && ext.primary.value.retain.Some? && r.retain != ext.primary.value.retain.value
    then "auxiliary_reservation_conflict"
    else ""
  }

  /** `reserve_auxiliary_session`: the new extensions, and the place of the entry. */
  function Reserve(ext: Extensions, request: Reservation, now: nat): Result<(Extensions, nat)> {
    hide *;
    var r := Clean(request);
    var at := OrNow(request.createdAt, now);
    if !LedgerOk(ext.sessions) || at.Malformed? then Err("auxiliary_ledger_invalid")
    else if ReservationError(ext, r) != "" then Err(ReservationError(ext, r))
    else
      var i := FindReservation(ext.sessions, r);
      if i < |ext.sessions| then
        if FrozenMatch(ext.sessions[i], r) then Ok((ext, i)) else Err("auxiliary_reservation_conflict")
      else if |ext.sessions| >= AUXILIARY_SESSION_LIMIT then Err("auxiliary_ledger_full")
      else
        var entry := NewEntry(ext.minted, r, at);
        if !EntryOk(entry) then Err("auxiliary_ledger_invalid")
        else Ok((ext.(sessions := ext.sessions + [entry], minted := ext.minted + 1), |ext.sessions|))
  }

  // ------------------------------------------------------------ binding

  datatype SessionReceipt = SessionReceipt(
    version: int, executor: string, sessionId: string, persistence: string, source: string)

  const EXECUTION_SESSION_RECEIPT_VERSION := 1

  function OfficialSource(executor: string): string {
    if executor == "claude" then "preallocated"
    else if executor == "hermes" then "stderr_receipt"
    else if executor == "codex" then "jsonl_thread_started"
    else ""
  }

  predicate ReceiptOk(r: SessionReceipt, executor: string) {
    r.version == EXECUTION_SESSION_RECEIPT_VERSION
    && IsExecutor(Normal(r.executor)) && Normal(r.executor) == Normal(executor)
    && Strip(r.sessionId) != "" && r.persistence == "persistent"
    && r.source == OfficialSource(Normal(r.executor))
  }

  /** The place of the first entry with this uuid. */
  function FindAux(sessions: seq<Entry>, auxId: nat): (i: nat)
    ensures i <= |sessions| && (i < |sessions| ==> sessions[i].auxId == auxId)
    ensures forall j :: 0 <= j < i ==> sessions[j].auxId != auxId
  {
    if sessions == [] || sessions[0].auxId == auxId then 0 else 1 + FindAux(sessions[1..], auxId)
  }

  function BoundEntry(e: Entry, r: SessionReceipt, now: nat): Entry {
    e.(sessionId := Strip(r.sessionId), source := Strip(r.source), sessionState := Active, boundAt := At(now), updatedAt := At(now))
  }

  /** `bind_auxiliary_receipt` */
  function Bind(ext: Extensions, auxId: nat, receipt: SessionReceipt, expected: string, now: nat): Result<(Extensions, nat)> {
    if !LedgerOk(ext.sessions) then Err("auxiliary_ledger_invalid")
    else
      var i := FindAux(ext.sessions, auxId);
      if i == |ext.sessions| then Err("auxiliary_receipt_missing")
      else
        var e := ext.sessions[i];
        var official := Strip(receipt.sessionId);
        if !ReceiptOk(receipt, e.executor) then Err("auxiliary_receipt_invalid")
        else if Strip(expected) != "" && official != Strip(expected) then Err("auxiliary_receipt_session_mismatch")
        else if Strip(e.sessionId) != "" then
          if Strip(e.sessionId) != official then Err("auxiliary_receipt_conflict")
          else if Strip(receipt.source) != "" && Strip(receipt.source) != Strip(e.source) then Err("auxiliary_receipt_conflict")
          else Ok((ext, i))
        else if e.sessionState != Reserved then Err("auxiliary_receipt_conflict")
        else
          var bound := BoundEntry(e, receipt, now);
          if !EntryOk(bound) then Err("auxiliary_ledger_invalid")
          else Ok((ext.(sessions := ext.sessions[i := bound]), i))
  }

  // ------------------------------------------------------------ terminal

  /** `mark_auxiliary_terminal`; the time stamp is taken as it comes. */
  function Finalize(ext: Extensions, auxId: nat, occurredAt: Stamp, now: nat): Result<(Extensions, nat)> {
    if !LedgerOk(ext.sessions) then Err("auxiliary_ledger_invalid")
    else
      var i := FindAux(ext.sessions, auxId);
      if i == |ext.sessions| then Err("auxiliary_receipt_missing")
      else
        var e := ext.sessions[i];
        if Strip(e.sessionId) == "" then Err("auxiliary_session_not_bound")
        else if e.sessionState == Terminal then Ok((ext, i))
        else if e.sessionState == Reserved then Err("auxiliary_session_conflict")
        else
          var ended := e.(sessionState := Terminal, updatedAt := OrNow(occurredAt, now));
          Ok((ext.(sessions := ext.sessions[i := ended]), i))
  }

  // ------------------------------------------------------------ the loops of the source

  method MatchExistingReservation(sessions: seq<Entry>, r: Reservation) returns (found: Option<nat>)
    ensures found == (var i := FindReservation(sessions, r); if i < |sessions| then Some(i) else None)
  {
    hide *;
    FirstReservation(sessions, r);
    for i := 0 to |sessions|
      invariant forall j :: 0 <= j < i ==> !SameReservation(sessions[j], r)
    {
      if SameReservation(sessions[i], r) {
        return Some(i);
      }
    }
    found := None;
  }

  /** Overwriting the slot of one uuid in the copied list. */
  method OverwriteSlot(sessions: seq<Entry>, entry: Entry) returns (updated: seq<Entry>)
    ensures updated == (var i := FindAux(sessions, entry.auxId); if i < |sessions| then sessions[i := entry] else sessions)
  {
    updated := sessions;
    for index := 0 to |sessions|
      invariant updated == sessions && forall j :: 0 <= j < index ==> sessions[j].auxId != entry.auxId
    {
      if sessions[index].auxId == entry.auxId {
        updated := sessions[index := entry];
        return;
      }
    }
  }

  method FindEntry(sessions: seq<Entry>, auxId: nat) returns (found: Option<Entry>)
    ensures found == (var i := FindAux(sessions, auxId); if i < |sessions| then Some(sessions[i]) else None)
  {
    for index := 0 to |sessions|
      invariant forall j :: 0 <= j < index ==> sessions[j].auxId != auxId
    {
      if sessions[index].auxId == auxId {
        return Some(sessions[index]);
      }
    }
    found := None;
  }

  method ReserveAuxiliarySession(ext: Extensions, request: Reservation, now: nat) returns (outcome: Result<(Extensions, nat)>)
    ensures outcome == Reserve(ext, request, now)
  {
    hide EntryOk, Clean, SameReservation, FrozenMatch, NewEntry, IsExecutor;
    var r := Clean(request);
    var at := OrNow(request.createdAt, now);
    if !LedgerOk(ext.sessions) || at.Malformed? {
      return Err("auxiliary_ledger_invalid");
    }
    if ReservationError(ext, r) != "" {
      return Err(ReservationError(ext, r));
    }
    var found := MatchExistingReservation(ext.sessions, r);
    if found.Some? {
      if !FrozenMatch(ext.sessions[found.value], r) {
        return Err("auxiliary_reservation_conflict");
      }
      return Ok((ext, found.value));
    }
    if |ext.sessions| >= AUXILIARY_SESSION_LIMIT {
      return Err("auxiliary_ledger_full");
    }
    var entry := NewEntry(ext.minted, r, at);
    if !EntryOk(entry) {
      return Err("auxiliary_ledger_invalid");
    }
    outcome := Ok((ext.(sessions := ext.sessions + [entry], minted := ext.minted + 1), |ext.sessions|));
  }

  method BindAuxiliaryReceipt(ext: Extensions, auxId: nat, receipt: SessionReceipt, expected: string, now: nat)
    returns (outcome: Result<Extensions>)
    ensures var spec := Bind(ext, auxId, receipt, expected, now);
            if spec.Ok? then outcome == Ok(spec.value.0) else outcome == Err(spec.code)
  {
    hide EntryOk, ReceiptOk, Strip;
    if !LedgerOk(ext.sessions) {
      return Err("auxiliary_ledger_invalid");
    }
    var found := FindEntry(ext.sessions, auxId);
    if found.None? {
      return Err("auxiliary_receipt_missing");
    }
    var entry := found.value;
    if !ReceiptOk(receipt, entry.executor) {
      return Err("auxiliary_receipt_invalid");
    }
    var official := Strip(receipt.sessionId);
    if Strip(expected) != "" && official != Strip(expected) {
      return Err("auxiliary_receipt_session_mismatch");
    }
    if Strip(entry.sessionId) != "" {
      if Strip(entry.sessionId) == official {
        if Strip(receipt.source) != "" && Strip(receipt.source) != Strip(entry.source) {
          return Err("auxiliary_receipt_conflict");
        }
        return Ok(ext);
      }
      return Err("auxiliary_receipt_conflict");
    }
    if entry.sessionState != Reserved {
      return Err("auxiliary_receipt_conflict");
    }
    entry := BoundEntry(entry, receipt, now);
    if !EntryOk(entry) {
      return Err("auxiliary_ledger_invalid");
    }
    var sessions := OverwriteSlot(ext.sessions, entry);
    outcome := Ok(ext.(sessions := sessions));
  }

  method MarkAuxiliaryTerminal(ext: Extensions, auxId: nat, occurredAt: Stamp, now: nat) returns (outcome: Result<Extensions>)
    ensures var spec := Finalize(ext, auxId, occurredAt, now);
            if spec.Ok? then outcome == Ok(spec.value.0) else outcome == Err(spec.code)
  {
    hide EntryOk, Strip;
    if !LedgerOk(ext.sessions) {
      return Err("auxiliary_ledger_invalid");
    }
    var found := FindEntry(ext.sessions, auxId);
    if found.None? {
      return Err("auxiliary_receipt_missing");
    }
    var entry := found.value;
    if Strip(entry.sessionId) == "" {
      return Err("auxiliary_session_not_bound");
    }
    if entry.sessionState == Terminal {
      return Ok(ext);
    }
    if entry.sessionState == Reserved {
      return Err("auxiliary_session_conflict");
    }
    entry := entry.(sessionState := Terminal, updatedAt := OrNow(occurredAt, now));
    var sessions := OverwriteSlot(ext.sessions, entry);
    outcome := Ok(ext.(sessions := sessions));
  }

  // ------------------------------------------------------------ what one operation keeps

  /** Two entries are for the same reservation. */
  predicate SameKey(a: Entry, b: Entry) {
    a.ownerRunId == b.ownerRunId && a.parentSessionId == b.parentSessionId && a.executor == b.executor
    && a.purpose == b.purpose && a.itemId == b.itemId
  }

  predicate IsNormal(e: Entry) {
    Normal(e.executor) == e.executor && Normal(e.parentExecutor) == e.parentExecutor && Normal(e.projectMode) == e.projectMode
    && Strip(e.ownerTaskId) == e.ownerTaskId && Strip(e.projectPath) == e.projectPath
    && Strip(e.sessionId) == e.sessionId && Strip(e.source) == e.source
  }

  /** The ledger a sequence of operations can have produced. */
  ghost predicate WellKept(ext: Extensions) {
    var s := ext.sessions;
    LedgerOk(s)
    && (forall e <- s :: e.auxId < ext.minted && IsNormal(e) && (e.sessionState == Reserved <==> e.sessionId == ""))
    && (forall i, j :: 0 <= i < j < |s| ==> !SameKey(s[i], s[j]))
  }

  function Rank(s: SessionState): nat {
    match s
    case Reserved => 0
    case Active => 1
    case InputRequired => 1
    case NeedsRecovery => 1
    case Terminal => 2
  }

  /** What never changes in an entry. */
  predicate SameFrozen(a: Entry, b: Entry) {
    a.auxId == b.auxId && a.ownerTaskId == b.ownerTaskId && a.ownerRunId == b.ownerRunId
    && a.parentExecutor == b.parentExecutor && a.parentSessionId == b.parentSessionId && a.executor == b.executor
    && a.purpose == b.purpose && a.retain == b.retain && a.projectMode == b.projectMode && a.projectPath == b.projectPath
    && a.itemId == b.itemId && a.turnId == b.turnId && a.cleanup == b.cleanup
    && a.reservedAt == b.reservedAt && a.createdAt == b.createdAt
  }

  /** An entry grown older: frozen fields frozen, a binding kept, the lifecycle forward only. */
  predicate EntryEvolves(a: Entry, b: Entry) {
    SameFrozen(a, b)
    && (a.sessionId != "" ==> b.sessionId == a.sessionId && b.source == a.source && b.boundAt == a.boundAt)
    && (a.sessionState == b.sessionState || Rank(a.sessionState) < Rank(b.sessionState))
    && (a.sessionState == Terminal ==> a == b)
  }

  /** A ledger grown older: no entry lost, moved or rewritten. */
  ghost predicate Evolves(before: Extensions, after: Extensions) {
    after.primary == before.primary && before.minted <= after.minted
    && |before.sessions| <= |after.sessions|
    && forall i :: 0 <= i < |before.sessions| ==> EntryEvolves(before.sessions[i], after.sessions[i])
  }

  lemma EvolvesTransitively(a: Extensions, b: Extensions, c: Extensions)
    requires Evolves(a, b) && Evolves(b, c)
    ensures Evolves(a, c)
  {
    forall i | 0 <= i < |a.sessions| ensures EntryEvolves(a.sessions[i], c.sessions[i]) {
      assert EntryEvolves(a.sessions[i], b.sessions[i]) && EntryEvolves(b.sessions[i], c.sessions[i]);
    }
  }

  lemma CleanIsNormal(r: Reservation)
    ensures var c := Clean(r);
            Normal(c.executor) == c.executor && Normal(c.parentExecutor) == c.parentExecutor
            && Normal(c.projectMode) == c.projectMode && Strip(c.ownerTaskId) == c.ownerTaskId
            && Strip(c.projectPath) == c.projectPath && Strip("") == ""
  {
    hide Normal, Strip;
    NormalIsNormal(r.executor);
    NormalIsNormal(r.parentExecutor);
    NormalIsNormal(r.projectMode);
    StripIdempotent(r.ownerTaskId);
    StripIdempotent(r.projectPath);
    StripIdentity("");
  }

  /** What a successful reservation has found or made. */
  lemma ReserveOutcome(ext: Extensions, request: Reservation, now: nat)
    requires Reserve(ext, request, now).Ok?
    ensures var r := Clean(request);
            var (ext', i) := Reserve(ext, request, now).value;
            LedgerOk(ext.sessions) && i == FindReservation(ext.sessions, r)
            && (if i < |ext.sessions| then ext' == ext && FrozenMatch(ext.sessions[i], r)
                else
                  var entry := NewEntry(ext.minted, r, OrNow(request.createdAt, now));
                  i == |ext.sessions| < AUXILIARY_SESSION_LIMIT && EntryOk(entry)
                  && ext' == ext.(sessions := ext.sessions + [entry], minted := ext.minted + 1))
  {
    hide LedgerOk, Clean, FrozenMatch, FindReservation, ReservationError, NewEntry, EntryOk;
  }

  lemma NewEntryIsNormal(auxId: nat, request: Reservation, at: Stamp)
    ensures var entry := NewEntry(auxId, Clean(request), at);
            IsNormal(entry) && SameReservation(entry, Clean(request)) && FrozenMatch(entry, Clean(request))
            && entry.sessionState == Reserved && entry.sessionId == ""
  {
    hide Normal, Strip, Clean;
    CleanIsNormal(request);
  }

  lemma KeyOfReservation(e: Entry, other: Entry, r: Reservation)
    requires IsNormal(e) && IsNormal(other) && SameReservation(e, r) && !SameReservation(other, r)
    ensures !SameKey(other, e)
  {
    hide Normal, Strip;
  }

  /** Reserving keeps the ledger: it adds at most one unbound entry under a key of its own. */
  lemma ReserveKeeps(ext: Extensions, request: Reservation, now: nat)
    requires WellKept(ext) && Reserve(ext, request, now).Ok?
    ensures var (ext', i) := Reserve(ext, request, now).value;
            WellKept(ext') && Evolves(ext, ext') && i < |ext'.sessions|
            && SameReservation(ext'.sessions[i], Clean(request))
            && FrozenMatch(ext'.sessions[i], Clean(request))
            && (ext' == ext || (|ext'.sessions| == |ext.sessions| + 1 && i == |ext.sessions| && ext'.sessions[i].sessionId == ""))
  {
    hide Reserve, EntryOk, Clean, IsNormal, SameReservation, FrozenMatch, SameKey, NewEntry;
    var r := Clean(request);
    var (ext', i) := Reserve(ext, request, now).value;
    ReserveOutcome(ext, request, now);
    FirstReservation(ext.sessions, r);
    if i == |ext.sessions| {
      var entry := NewEntry(ext.minted, r, OrNow(request.createdAt, now));
      NewEntryIsNormal(ext.minted, request, OrNow(request.createdAt, now));
      assert entry.auxId == ext.minted by { MintedUnder(ext.minted, r, OrNow(request.createdAt, now)); }
      forall j | 0 <= j < |ext.sessions| ensures !SameKey(ext.sessions[j], entry) {
        assert ext.sessions[j] in ext.sessions;
        KeyOfReservation(entry, ext.sessions[j], r);
      }
    }
  }

  lemma MintedUnder(auxId: nat, r: Reservation, at: Stamp)
    ensures NewEntry(auxId, r, at).auxId == auxId
  {
  }

  /** Replacing one entry by an older self of the same place keeps the ledger. */
  lemma ReplaceKeeps(ext: Extensions, i: nat, e: Entry)
    requires WellKept(ext) && i < |ext.sessions| && EntryEvolves(ext.sessions[i], e)
    requires EntryOk(e) && IsNormal(e) && (e.sessionState == Reserved <==> e.sessionId == "")
    ensures var ext' := ext.(sessions := ext.sessions[i := e]); WellKept(ext') && Evolves(ext, ext')
  {
    hide EntryOk, IsNormal;
    var s, s' := ext.sessions, ext.sessions[i := e];
    forall j, k | 0 <= j < k < |s'| ensures !SameKey(s'[j], s'[k]) && s'[j].auxId != s'[k].auxId {
      assert !SameKey(s[j], s[k]);
    }
    forall x | x in s' ensures EntryOk(x) && x.auxId < ext.minted && IsNormal(x) && (x.sessionState == Reserved <==> x.sessionId == "") {
      assert s[i] in s;
      assert x == e || x in s;
    }
  }

  /** Binding keeps the ledger and freezes the official session in the entry it names. */
  lemma BindKeeps(ext: Extensions, auxId: nat, receipt: SessionReceipt, expected: string, now: nat)
    requires WellKept(ext) && Bind(ext, auxId, receipt, expected, now).Ok?
    ensures var (ext', i) := Bind(ext, auxId, receipt, expected, now).value;
            WellKept(ext') && Evolves(ext, ext') && i < |ext'.sessions|
            && ext'.sessions[i].auxId == auxId && ext'.sessions[i].sessionId == Strip(receipt.sessionId) != ""
            && (ext' == ext <==> ext.sessions[i].sessionId != "")
            && |ext'.sessions| == |ext.sessions|
            && forall j :: 0 <= j < |ext.sessions| && j != i ==> ext'.sessions[j] == ext.sessions[j]
  {
    hide Bind, EntryOk, Strip, IsNormal, WellKept, EntryEvolves, ReceiptOk, FindAux;
    var (ext', i) := Bind(ext, auxId, receipt, expected, now).value;
    BindOutcome(ext, auxId, receipt, expected, now);
    var e := ext.sessions[i];
    KeptEntry(ext, i);
    EvolvesToItself(ext);
    if e.sessionId == "" {
      assert EntryEvolves(e, BoundEntry(e, receipt, now)) by { BoundEvolves(e, receipt, now); }
      BoundIsNormal(e, receipt, now);
      ReplaceKeeps(ext, i, BoundEntry(e, receipt, now));
    }
  }

  /** What a successful binding has found or made. */
  lemma BindOutcome(ext: Extensions, auxId: nat, receipt: SessionReceipt, expected: string, now: nat)
    requires WellKept(ext) && Bind(ext, auxId, receipt, expected, now).Ok?
    ensures var (ext', i) := Bind(ext, auxId, receipt, expected, now).value;
            i == FindAux(ext.sessions, auxId) < |ext.sessions|
            && ReceiptOk(receipt, ext.sessions[i].executor) && Strip(receipt.sessionId) != ""
            && (Strip(expected) == "" || Strip(receipt.sessionId) == Strip(expected))
            && if ext.sessions[i].sessionId != ""
               then ext' == ext && ext.sessions[i].sessionId == Strip(receipt.sessionId)
                    && (Strip(receipt.source) == "" || Strip(receipt.source) == ext.sessions[i].source)
               else ext.sessions[i].sessionState == Reserved && EntryOk(BoundEntry(ext.sessions[i], receipt, now))
                    && ext' == ext.(sessions := ext.sessions[i := BoundEntry(ext.sessions[i], receipt, now)])
  {
    hide EntryOk, Strip, Normal, IsExecutor, OfficialSource, SameKey, LedgerOk, BoundEntry;
    assert ext.sessions[FindAux(ext.sessions, auxId)] in ext.sessions;
    StripIdentity("");
  }

  lemma EvolvesToItself(ext: Extensions)
    ensures Evolves(ext, ext)
  {
  }

  /** What a kept ledger says of each of its entries. */
  lemma KeptEntry(ext: Extensions, i: nat)
    requires WellKept(ext) && i < |ext.sessions|
    ensures var e := ext.sessions[i];
            EntryOk(e) && IsNormal(e) && e.auxId < ext.minted && (e.sessionState == Reserved <==> e.sessionId == "")
    ensures LedgerOk(ext.sessions) && FindAux(ext.sessions, ext.sessions[i].auxId) == i
  {
    hide EntryOk, IsNormal, SameKey;
    assert ext.sessions[i] in ext.sessions;
  }

  lemma BoundEvolves(e: Entry, receipt: SessionReceipt, now: nat)
    requires e.sessionId == "" && e.sessionState == Reserved
    ensures EntryEvolves(e, BoundEntry(e, receipt, now))
  {
    hide Strip;
  }

  lemma BoundIsNormal(e: Entry, receipt: SessionReceipt, now: nat)
    requires IsNormal(e)
    ensures IsNormal(BoundEntry(e, receipt, now))
  {
    hide Normal, Strip;
    StripIdempotent(receipt.sessionId);
    StripIdempotent(receipt.source);
  }

  /** Marking terminal keeps the ledger unless the time stamp is unreadable. */
  lemma FinalizeKeeps(ext: Extensions, auxId: nat, occurredAt: Stamp, now: nat)
    requires WellKept(ext) && !occurredAt.Malformed? && Finalize(ext, auxId, occurredAt, now).Ok?
    ensures var (ext', i) := Finalize(ext, auxId, occurredAt, now).value;
            WellKept(ext') && Evolves(ext, ext') && i < |ext'.sessions|
            && ext'.sessions[i].auxId == auxId && ext'.sessions[i].sessionState == Terminal
            && (ext' == ext <==> ext.sessions[i].sessionState == Terminal)
            && |ext'.sessions| == |ext.sessions|
            && forall j :: 0 <= j < |ext.sessions| && j != i ==> ext'.sessions[j] == ext.sessions[j]
  {
    hide Finalize, Strip, WellKept, EntryEvolves, EntryOk, IsNormal, FindAux;
    FinalizeOutcome(ext, auxId, occurredAt, now);
    var i := FindAux(ext.sessions, auxId);
    var e := ext.sessions[i];
    KeptEntry(ext, i);
    EvolvesToItself(ext);
    StripIdentity("");
    if e.sessionState != Terminal {
      var ended := e.(sessionState := Terminal, updatedAt := OrNow(occurredAt, now));
      EndedIsOk(e, OrNow(occurredAt, now));
      ReplaceKeeps(ext, i, ended);
    }
  }

  /** What marking terminal has found or made. */
  lemma FinalizeOutcome(ext: Extensions, auxId: nat, occurredAt: Stamp, now: nat)
    requires Finalize(ext, auxId, occurredAt, now).Ok?
    ensures var (ext', i) := Finalize(ext, auxId, occurredAt, now).value;
            i == FindAux(ext.sessions, auxId) < |ext.sessions| && Strip(ext.sessions[i].sessionId) != ""
            && if ext.sessions[i].sessionState == Terminal then ext' == ext
               else ext.sessions[i].sessionState != Reserved
                    && ext' == ext.(sessions := ext.sessions[i := ext.sessions[i].(sessionState := Terminal, updatedAt := OrNow(occurredAt, now))])
  {
    hide Strip, LedgerOk, FindAux;
  }

  lemma EndedIsOk(e: Entry, at: Stamp)
    requires EntryOk(e) && IsNormal(e) && e.sessionState != Reserved && e.sessionState != Terminal && !at.Malformed?
    requires Strip(e.sessionId) != ""
    ensures var ended := e.(sessionState := Terminal, updatedAt := at);
            EntryOk(ended) && IsNormal(ended) && EntryEvolves(e, ended)
  {
    hide Strip, Normal, CleanupReceipt.Valid, CleanupReceipt.IsLabel, IsExecutor, IsProjectMode;
  }

  /**
    An unreadable time stamp is stored all the same, and from then on no
    operation can read the ledger: it stays readable exactly when the stamp is
    readable or the session was terminal before.
  */
  lemma TerminalStampDecides(ext: Extensions, auxId: nat, occurredAt: Stamp, now: nat)
    requires WellKept(ext) && Finalize(ext, auxId, occurredAt, now).Ok?
    ensures var (ext', i) := Finalize(ext, auxId, occurredAt, now).value;
            i < |ext.sessions|
            && (LedgerOk(ext'.sessions) <==> !occurredAt.Malformed? || ext.sessions[i].sessionState == Terminal)
  {
    hide Strip, Normal;
    var (ext', i) := Finalize(ext, auxId, occurredAt, now).value;
    if !occurredAt.Malformed? {
      FinalizeKeeps(ext, auxId, occurredAt, now);
    } else if ext.sessions[i].sessionState != Terminal {
      assert ext'.sessions[i] in ext'.sessions;
    }
  }
}
