/**
  The structured tool-lifecycle log of one run and the choice of the single
  event that may prove execution
  (src/agent_bridge_connect/claude_sdk_transport.py:1105-1282).
*/
module VerificationEvents {
  import opened Outcomes
  import opened Text

  datatype EventKind = PreToolUse | PostToolUse | PostToolUseFailure

  datatype ToolEvent = ToolEvent(
    sequence: nat, kind: EventKind, toolUseId: string, toolName: string, sessionId: string, inWindow: bool)

  datatype AnchorMode = Unset | ApprovedToolUse | DeclaredRun

  /** What a caller asks for: the anchor of the run, and the session and tool it expects (empty: any). */
  datatype Query = Query(anchor: string, mode: AnchorMode, session: string, tool: string)

  function KindOf(event: string): Option<EventKind> {
    var name := Strip(event);
    if name == "PreToolUse" then Some(PreToolUse)
    else if name == "PostToolUse" then Some(PostToolUse)
    else if name == "PostToolUseFailure" then Some(PostToolUseFailure)
    else None
  }

  // ------------------------------------------------------------ what counts as evidence

  /** A success of the expected tool and session, seen inside the run window. */
  predicate IsSuccess(e: ToolEvent, q: Query) {
    e.kind == PostToolUse && e.inWindow
    && (q.tool == "" || e.toolName == q.tool)
    && (q.session == "" || e.sessionId == q.session)
  }

  /** How many successes carry this identity. */
  function Successes(events: seq<ToolEvent>, q: Query, id: string): nat {
    if events == [] then 0
    else
      var last := events[|events| - 1];
      Successes(events[..|events| - 1], q, id) + (if IsSuccess(last, q) && last.toolUseId == id then 1 else 0)
  }

  ghost predicate HasFailureTwin(events: seq<ToolEvent>, id: string) {
    exists e <- events :: e.kind == PostToolUseFailure && e.inWindow && e.toolUseId == id
  }

  /** Evidence under a declared run: a unique, named success with no failure twin. */
  ghost predicate Eligible(events: seq<ToolEvent>, q: Query, e: ToolEvent) {
    e in events && IsSuccess(e, q) && e.toolUseId != ""
    && Successes(events, q, e.toolUseId) == 1 && !HasFailureTwin(events, e.toolUseId)
  }

  /** The verification contract: which answer a log and a query determine. */
  ghost predicate IsAnswer(events: seq<ToolEvent>, q: Query, answer: Option<ToolEvent>) {
    if q.anchor == "" then answer == None
    else if q.mode == ApprovedToolUse then
      if Successes(events, q, q.anchor) == 1
      then answer.Some? && answer.value in events && IsSuccess(answer.value, q) && answer.value.toolUseId == q.anchor
      else answer == None
    else
      match answer
      case None => forall e <- events :: !Eligible(events, q, e)
      case Some(best) =>
        Eligible(events, q, best)
        && forall e <- events :: Eligible(events, q, e) ==> best.sequence <= e.sequence
  }

  // ------------------------------------------------------------ the selection

  /** Insertion of one event into a list ordered by sequence, after the ties. */
  function InsertBySequence(e: ToolEvent, sorted: seq<ToolEvent>): (r: seq<ToolEvent>) {
    if sorted == [] || e.sequence >= sorted[|sorted| - 1].sequence then sorted + [e]
    else InsertBySequence(e, sorted[..|sorted| - 1]) + [sorted[|sorted| - 1]]
  }

  function SortBySequence(events: seq<ToolEvent>): seq<ToolEvent> {
    if events == [] then [] else InsertBySequence(events[|events| - 1], SortBySequence(events[..|events| - 1]))
  }

  ghost predicate Ordered(events: seq<ToolEvent>) {
    forall i, j :: 0 <= i < j < |events| ==> events[i].sequence <= events[j].sequence
  }

  lemma {:induction false} InsertKeeps(e: ToolEvent, sorted: seq<ToolEvent>)
    requires Ordered(sorted)
    ensures Ordered(InsertBySequence(e, sorted))
    ensures forall x :: x in InsertBySequence(e, sorted) <==> x == e || x in sorted
  {
    if !(sorted == [] || e.sequence >= sorted[|sorted| - 1].sequence) {
      var init, last := sorted[..|sorted| - 1], sorted[|sorted| - 1];
      assert sorted == init + [last];
      InsertKeeps(e, init);
      var r := InsertBySequence(e, init);
      forall i | 0 <= i < |r| ensures r[i].sequence <= last.sequence {
        assert r[i] in r;
      }
    }
  }

  lemma {:induction false} SortKeeps(events: seq<ToolEvent>)
    ensures Ordered(SortBySequence(events))
    ensures forall x :: x in SortBySequence(events) <==> x in events
  {
    if events != [] {
      assert events == events[..|events| - 1] + [events[|events| - 1]];
      SortKeeps(events[..|events| - 1]);
      InsertKeeps(events[|events| - 1], SortBySequence(events[..|events| - 1]));
    }
  }

  /** The answer of the log, computed as the transport does: filter, count, collect failures, sort, scan. */
  method SelectVerificationEvent(events: seq<ToolEvent>, q: Query) returns (answer: Option<ToolEvent>)
    ensures IsAnswer(events, q, answer)
  {
    hide CountId, Successes, HasFailureTwin, IsSuccess, SortBySequence, InsertBySequence;
    if q.anchor == "" {
      return None;
    }
    NothingCounted(q);
    var postSuccess: seq<ToolEvent> := [];
    for i := 0 to |events|
      invariant forall e :: e in postSuccess <==> e in events[..i] && IsSuccess(e, q)
      invariant forall id :: CountId(postSuccess, id) == Successes(events[..i], q, id)
    {
      assert events[..i + 1] == events[..i] + [events[i]];
      OneMoreCounted(events[..i], events[i], q);
      if IsSuccess(events[i], q) {
        CountIdExtends(postSuccess, events[i]);
        postSuccess := postSuccess + [events[i]];
      }
    }
    assert events[..|events|] == events;
    if q.mode == ApprovedToolUse {
      answer := UniqueMatch(postSuccess, q.anchor);
      return;
    }
    var counts := CountIdentities(postSuccess);
    var failureIds: set<string> := {};
    for i := 0 to |events|
      invariant forall id :: id in failureIds <==> HasFailureTwin(events[..i], id)
    {
      assert events[..i + 1] == events[..i] + [events[i]];
      OneMoreCounted(events[..i], events[i], q);
      if events[i].kind == PostToolUseFailure && events[i].inWindow {
        failureIds := failureIds + {events[i].toolUseId};
      }
    }
    var sorted := SortBySequence(postSuccess);
    SortKeeps(postSuccess);
    for i := 0 to |sorted|
      invariant forall j :: 0 <= j < i ==> !Eligible(events, q, sorted[j])
    {
      var id := sorted[i].toolUseId;
      CountIdOfMember(postSuccess, sorted[i]);
      if id != "" && counts[id] == 1 && id !in failureIds {
        return Some(sorted[i]);
      }
    }
    answer := None;
  }

  lemma NothingCounted(q: Query)
    ensures forall id :: CountId([], id) == 0 && Successes([], q, id) == 0 && !HasFailureTwin([], id)
  {
  }

  lemma OneMoreCounted(events: seq<ToolEvent>, e: ToolEvent, q: Query)
    ensures forall id ::
      Successes(events + [e], q, id) == Successes(events, q, id) + (if IsSuccess(e, q) && e.toolUseId == id then 1 else 0)
    ensures forall id ::
      HasFailureTwin(events + [e], id) <==>
      HasFailureTwin(events, id) || (e.kind == PostToolUseFailure && e.inWindow && e.toolUseId == id)
  {
    assert (events + [e])[..|events|] == events;
  }

  function CountId(events: seq<ToolEvent>, id: string): nat {
    if events == [] then 0
    else CountId(events[..|events| - 1], id) + (if events[|events| - 1].toolUseId == id then 1 else 0)
  }

  lemma CountIdExtends(events: seq<ToolEvent>, e: ToolEvent)
    ensures forall id :: CountId(events + [e], id) == CountId(events, id) + (if e.toolUseId == id then 1 else 0)
  {
    assert (events + [e])[..|events|] == events;
  }

  lemma {:induction false} CountIdOfMember(events: seq<ToolEvent>, e: ToolEvent)
    requires e in events
    ensures CountId(events, e.toolUseId) >= 1
  {
    var init, last := events[..|events| - 1], events[|events| - 1];
    assert events == init + [last];
    if e != last {
      CountIdOfMember(init, e);
    }
  }

  /** The counting dictionary of the declared-run mode. */
  method CountIdentities(events: seq<ToolEvent>) returns (counts: map<string, nat>)
    ensures forall id :: (id in counts <==> CountId(events, id) > 0) && (id in counts ==> counts[id] == CountId(events, id))
  {
    counts := map[];
    for i := 0 to |events|
      invariant forall id :: (id in counts <==> CountId(events[..i], id) > 0)
                          && (id in counts ==> counts[id] == CountId(events[..i], id))
    {
      assert events[..i + 1] == events[..i] + [events[i]];
      CountIdExtends(events[..i], events[i]);
      var id := events[i].toolUseId;
      counts := counts[id := (if id in counts then counts[id] else 0) + 1];
    }
    assert events[..|events|] == events;
  }

  /** The single event with this identity, if there is exactly one. */
  method UniqueMatch(events: seq<ToolEvent>, id: string) returns (found: Option<ToolEvent>)
    ensures found.Some? <==> CountId(events, id) == 1
    ensures found.Some? ==> found.value in events && found.value.toolUseId == id
  {
    var matches: seq<ToolEvent> := [];
    for i := 0 to |events|
      invariant |matches| == CountId(events[..i], id)
      invariant forall e :: e in matches ==> e in events && e.toolUseId == id
    {
      assert events[..i + 1] == events[..i] + [events[i]];
      CountIdExtends(events[..i], events[i]);
      if events[i].toolUseId == id {
        matches := matches + [events[i]];
      }
    }
    assert events[..|events|] == events;
    found := if |matches| != 1 then None else Some(matches[0]);
  }

  // ------------------------------------------------------------ the log grows

  /** A captured log: arrival order is the sequence. */
  ghost predicate IsLog(events: seq<ToolEvent>) {
    forall i :: 0 <= i < |events| ==> events[i].sequence == i + 1
  }

  lemma {:induction false} OneSuccessIsUnique(events: seq<ToolEvent>, q: Query, e: ToolEvent, e': ToolEvent)
    requires e in events && e' in events && IsSuccess(e, q) && IsSuccess(e', q) && e.toolUseId == e'.toolUseId
    requires Successes(events, q, e.toolUseId) <= 1
    ensures e == e'
  {
    var init, last := events[..|events| - 1], events[|events| - 1];
    assert events == init + [last];
    if e != last && e' != last {
      OneSuccessIsUnique(init, q, e, e');
    } else if e != e' {
      SuccessIsCounted(init, q, if e == last then e' else e);
    }
  }

  lemma {:induction false} SuccessIsCounted(events: seq<ToolEvent>, q: Query, e: ToolEvent)
    requires e in events && IsSuccess(e, q)
    ensures Successes(events, q, e.toolUseId) >= 1
  {
    var init, last := events[..|events| - 1], events[|events| - 1];
    assert events == init + [last];
    if e != last {
      SuccessIsCounted(init, q, e);
    }
  }

  lemma {:induction false} SuccessesGrow(events: seq<ToolEvent>, more: seq<ToolEvent>, q: Query, id: string)
    ensures Successes(events + more, q, id) == Successes(events, q, id) + Successes(more, q, id)
  {
    if more == [] {
      assert events + more == events;
    } else {
      var init := more[..|more| - 1];
      assert (events + more)[..|events + more| - 1] == events + init;
      SuccessesGrow(events, init, q, id);
    }
  }

  /** A log determines its answer. */
  lemma AnswerIsUnique(events: seq<ToolEvent>, q: Query, a: Option<ToolEvent>, b: Option<ToolEvent>)
    requires IsLog(events) && IsAnswer(events, q, a) && IsAnswer(events, q, b)
    ensures a == b
  {
    if a.Some? && b.Some? && q.mode == ApprovedToolUse {
      OneSuccessIsUnique(events, q, a.value, b.value);
    }
  }

  /**
    Under the approved anchor the answer never changes to another event, and
    once a duplicate has withdrawn it, it never comes back.
  */
  lemma ApprovedAnswerIsStable(events: seq<ToolEvent>, more: seq<ToolEvent>, q: Query, a: Option<ToolEvent>, b: Option<ToolEvent>)
    requires q.mode == ApprovedToolUse
    requires IsAnswer(events, q, a) && IsAnswer(events + more, q, b)
    ensures a.Some? ==> b == None || b == a
    ensures q.anchor != "" && Successes(events, q, q.anchor) > 1 ==> b == None
  {
    SuccessesGrow(events, more, q, q.anchor);
    if a.Some? && b.Some? {
      OneSuccessIsUnique(events + more, q, a.value, b.value);
    }
  }

  /** Under a declared run the sequence of the answer never decreases as the log grows. */
  lemma DeclaredAnswerNeverGoesBack(events: seq<ToolEvent>, more: seq<ToolEvent>, q: Query, a: ToolEvent, b: ToolEvent)
    requires q.mode != ApprovedToolUse && IsLog(events + more)
    requires IsAnswer(events, q, Some(a)) && IsAnswer(events + more, q, Some(b))
    ensures a.sequence <= b.sequence
  {
    var all := events + more;
    if b in events {
      SuccessesGrow(events, more, q, b.toolUseId);
      SuccessIsCounted(events, q, b);
      assert forall e <- events :: e in all;
      assert Eligible(events, q, b);
    } else {
      var i :| 0 <= i < |events| && events[i] == a;
      var k :| 0 <= k < |more| && more[k] == b;
      assert all[i] == a && all[|events| + k] == b;
    }
  }

  /** Events stamped outside the run window never change either answer. */
  lemma LateEventsChangeNothing(events: seq<ToolEvent>, late: seq<ToolEvent>, q: Query, a: Option<ToolEvent>)
    requires forall e <- late :: !e.inWindow
    ensures IsAnswer(events, q, a) <==> IsAnswer(events + late, q, a)
  {
    var all := events + late;
    forall id ensures Successes(all, q, id) == Successes(events, q, id) {
      SuccessesGrow(events, late, q, id);
      NoLateSuccess(late, q, id);
    }
    assert forall e :: e in all <==> e in events || e in late;
    forall id ensures HasFailureTwin(all, id) <==> HasFailureTwin(events, id) {
      if HasFailureTwin(events, id) {
        var e :| e in events && e.kind == PostToolUseFailure && e.inWindow && e.toolUseId == id;
        assert e in all;
      }
    }
    assert forall e :: Eligible(all, q, e) <==> Eligible(events, q, e);
    if q.anchor != "" && q.mode != ApprovedToolUse && a.None? && IsAnswer(events, q, a) {
      forall e | e in all ensures !Eligible(all, q, e) {
        assert e in events ==> !Eligible(events, q, e);
      }
    }
  }

  /**
    In approved mode a failure of the approved call does not withdraw its
    success, although the method's own description says it should.
  */
  lemma ApprovedModeIgnoresFailures(events: seq<ToolEvent>, failure: ToolEvent, q: Query, a: Option<ToolEvent>)
    requires q.mode == ApprovedToolUse && failure.kind == PostToolUseFailure
    ensures IsAnswer(events, q, a) <==> IsAnswer(events + [failure], q, a)
  {
    SuccessesGrow(events, [failure], q, q.anchor);
    assert Successes([failure], q, q.anchor) == 0;
  }

  /** What the method's description promises of an approved anchor: a success of it, the only one, and no failure of it. */
  ghost predicate IsDocumentedAnswer(events: seq<ToolEvent>, q: Query, answer: Option<ToolEvent>) {
    if q.anchor != "" && Successes(events, q, q.anchor) == 1 && !HasFailureTwin(events, q.anchor)
    then answer.Some? && answer.value in events && IsSuccess(answer.value, q) && answer.value.toolUseId == q.anchor
    else answer == None
  }

  /** The failures seen inside the run window that carry the anchor. */
  function AnchorFailures(events: seq<ToolEvent>, q: Query): nat {
    if events == [] then 0
    else
      var last := events[|events| - 1];
      AnchorFailures(events[..|events| - 1], q)
      + (if last.kind == PostToolUseFailure && last.inWindow && last.toolUseId == q.anchor then 1 else 0)
  }

  lemma {:induction false} TwinIsAFailure(events: seq<ToolEvent>, q: Query)
    ensures HasFailureTwin(events, q.anchor) <==> AnchorFailures(events, q) > 0
  {
    if events != [] {
      var init, last := events[..|events| - 1], events[|events| - 1];
      assert events == init + [last];
      TwinIsAFailure(init, q);
      if HasFailureTwin(init, q.anchor) {
        var e :| e in init && e.kind == PostToolUseFailure && e.inWindow && e.toolUseId == q.anchor;
        assert e in events;
      }
    }
  }

  /**
    Exactly when the code keeps its description in approved mode: unless it
    answers although a failure of the anchor was seen inside the run window. So
    an answer it gives has no failure twin if and only if no such failure was
    seen.
  */
  lemma ApprovedAnswerIsDocumentedIff(events: seq<ToolEvent>, q: Query, a: Option<ToolEvent>)
    requires q.mode == ApprovedToolUse && IsAnswer(events, q, a)
    ensures IsDocumentedAnswer(events, q, a) <==> a.None? || AnchorFailures(events, q) == 0
    ensures a.Some? ==> (!HasFailureTwin(events, a.value.toolUseId) <==> AnchorFailures(events, q) == 0)
  {
    TwinIsAFailure(events, q);
  }

  const SUCCEEDED := ToolEvent(1, PostToolUse, "call", "Bash", "session", true)
  const THEN_FAILED := ToolEvent(2, PostToolUseFailure, "call", "Bash", "session", true)

  /** A log of two events: the approved call succeeds and fails, and its success is selected all the same. */
  lemma ApprovedAnswerCanHaveATwin()
    ensures var events, q := [SUCCEEDED, THEN_FAILED], Query("call", ApprovedToolUse, "session", "Bash");
            IsLog(events) && IsAnswer(events, q, Some(SUCCEEDED)) && HasFailureTwin(events, SUCCEEDED.toolUseId)
            && !IsDocumentedAnswer(events, q, Some(SUCCEEDED))
            && IsAnswer(events, q.(mode := DeclaredRun), None)
  {
    var events, q := [SUCCEEDED, THEN_FAILED], Query("call", ApprovedToolUse, "session", "Bash");
    assert events[..1] == [SUCCEEDED] && [SUCCEEDED][..0] == [];
    assert Successes([SUCCEEDED], q, "call") == 1 && Successes(events, q, "call") == 1;
    assert SUCCEEDED in events && THEN_FAILED in events;
    assert forall e <- events :: !Eligible(events, q.(mode := DeclaredRun), e);
  }

  lemma {:induction false} NoLateSuccess(late: seq<ToolEvent>, q: Query, id: string)
    requires forall e <- late :: !e.inWindow
    ensures Successes(late, q, id) == 0
  {
    if late != [] {
      NoLateSuccess(late[..|late| - 1], q, id);
    }
  }
}
