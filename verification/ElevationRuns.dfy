/**
  Whole runs of the Claude transport: callbacks, human decisions, time-outs,
  failed publications, tool events and transport death, interleaved at the
  granularity of the transport's lock sections.
*/
module ElevationRuns {
  import opened Outcomes
  import opened Clock
  import opened ClaudeElevation
  import opened VerificationEvents
  import opened ClaudeTransport

  /** One native callback: the facts of its request, and the identity a new receipt would get. */
  datatype Call = Call(request: Request, elevationId: string) {
    function Id(): string {
      request.toolUseId
    }
  }

  datatype Verdict = AllowPlain | AllowSetMode | Refused | Raised

  /** What a transition is recorded for. */
  datatype Errand =
    | ForPending(call: Call)
    | ForReady(call: Call)
    | ForDenied(call: Call)
    | ForSetModeRejected(call: Call)
    | ForReaction(event: ToolEvent, command: Command)
    | ForDeath

  /** Where one thread of control stands: the next section it will run. */
  datatype Thread =
    | Entered(call: Call)
    | PastGate(call: Call)
    | Admitted(call: Call)
    | Recording(errand: Errand)
    | Publishing(errand: Errand)
    | Failing(errand: Errand)
    | Asking(call: Call)
    | Waiting(call: Call)
    | Accepted(call: Call)
    | Leaving(call: Call, verdict: Verdict)
    | Captured(event: ToolEvent)
    | Dying
    | Gone

  datatype Fact = Asked(id: string) | HumanAccepted(id: string) | HumanDenied(id: string) | Returned(id: string, verdict: Verdict)

  /** The transport, its threads, what has happened so far, and which thread is inside the gate. */
  datatype World = World(state: State, threads: map<nat, Thread>, log: seq<Fact>, holder: Option<nat>)

  datatype Event =
    | Arrive(t: nat, call: Call)
    | Go(t: nat, ok: bool, now: nat)
    | Decide(t: nat, accept: bool)
    | GiveUp(t: nat)
    | Observe(t: nat, kind: EventKind, toolUseId: string, toolName: string, sessionId: string)
    | CloseStream
    | Die(t: nat)

  function Start(id: Identity): World {
    World(Fresh(id), map[], [], None)
  }

  // ------------------------------------------------------------ steps

  function CommandOf(e: Errand): Command {
    match e
    case ForPending(_) => AskHuman
    case ForReady(_) => Approve
    case ForDenied(_) => Deny
    case ForSetModeRejected(_) => Block("claude_sdk_set_mode_rejected")
    case ForReaction(_, c) => c
    case ForDeath => Block("claude_sdk_transport_lost")
  }

  function RequestOf(e: Errand): Request {
    if e.ForPending? then e.call.request else NO_REQUEST
  }

  function ElevationIdOf(e: Errand): string {
    if e.ForPending? then e.call.elevationId else ""
  }

  /** Where a thread goes after its transition was recorded and published, or was not. */
  function After(e: Errand, ok: bool): Thread {
    match e
    case ForPending(call) => if ok then Asking(call) else Leaving(call, Raised)
    case ForReady(call) => Leaving(call, if ok then AllowSetMode else Raised)
    case ForDenied(call) => Leaving(call, if ok then Refused else Raised)
    case ForSetModeRejected(call) => Leaving(call, Raised)
    case ForReaction(_, _) => Gone
    case ForDeath => Gone
  }

  function Put(w: World, t: nat, th: Thread): World {
    w.(threads := w.threads[t := th])
  }

  function Tell(w: World, f: Fact): World {
    w.(log := w.log + [f])
  }

  /** The next section of thread `t`; `ok` says whether its surroundings let it succeed. */
  function GoOn(w: World, t: nat, ok: bool, now: nat): World
    requires t in w.threads
  {
    match w.threads[t]
    case Entered(call) => (
      match Gate(w.state)
      case AllowNow => Put(Tell(w, Returned(call.Id(), AllowPlain)), t, Gone)
      case DenyNow => Put(Tell(w, Returned(call.Id(), Refused)), t, Gone)
      case LetThrough => Put(w, t, PastGate(call)))
    case PastGate(call) =>
      if Refuses(w.state, call.Id()) then Put(Tell(w, Returned(call.Id(), Refused)), t, Gone)
      else Put(w, t, Admitted(call)).(state := Admit(w.state, call.Id()), holder := Some(t))
    case Admitted(call) =>
      Put(w, t, if w.state.id.safeToFull then Recording(ForPending(call)) else Asking(call))
        .(state := BindRequest(w.state, call.Id(), call.request.requestId))
    case Recording(e) =>
      var (state, outcome) := Record(w.state, CommandOf(e), RequestOf(e), ElevationIdOf(e), now);
      Put(w, t, if outcome.Ok? then Publishing(e) else After(e, false)).(state := state)
    case Publishing(e) => Put(w, t, if ok then After(e, true) else Failing(e))
    case Failing(e) => Put(w, t, After(e, false)).(state := FailClosed(w.state))
    case Asking(call) => Put(Tell(w, Asked(call.Id())), t, if ok then Waiting(call) else Leaving(call, Raised))
    case Waiting(_) => w
    case Accepted(call) =>
      Put(w, t, if w.state.id.safeToFull then Recording(if ok then ForReady(call) else ForSetModeRejected(call))
                else Leaving(call, if ok then AllowPlain else Raised))
    case Leaving(call, verdict) =>
      Put(Tell(w, Returned(call.Id(), verdict)), t, Gone).(state := Release(w.state, call.Id()), holder := None)
    case Captured(event) =>
      var reaction := Reaction(w.state, event);
      Put(w, t, if reaction.Some? then Recording(ForReaction(event, reaction.value)) else Gone)
    case Dying => Put(w, t, if DeathBlocks(w.state) then Recording(ForDeath) else Gone)
    case Gone => w
  }

  /** One event of a run; an event that does not fit where its thread stands does nothing. */
  function Step(w: World, e: Event): World {
    match e
    case Arrive(t, call) => if t in w.threads then w else Put(w, t, Entered(call))
    case Go(t, ok, now) => if t in w.threads then GoOn(w, t, ok, now) else w
    case Decide(t, accept) =>
      if t !in w.threads || !w.threads[t].Waiting? then w
      else
        var call := w.threads[t].call;
        if accept then Put(Tell(w, HumanAccepted(call.Id())), t, Accepted(call)).(state := AnchorAccepted(w.state, call.Id()))
        else Put(Tell(w, HumanDenied(call.Id())), t,
                 if w.state.id.safeToFull then Recording(ForDenied(call)) else Leaving(call, Refused))
    case GiveUp(t) =>
      if t !in w.threads || !(w.threads[t].Waiting? || w.threads[t].Asking?) then w
      else Put(w, t, Leaving(w.threads[t].call, Raised))
    case Observe(t, kind, toolUseId, toolName, sessionId) =>
      if t in w.threads then w
      else
        var event := NextEvent(w.state, kind, toolUseId, toolName, sessionId);
        Put(w, t, Captured(event)).(state := Capture(w.state, event))
    case CloseStream => w.(state := w.state.(streamConsumed := true))
    case Die(t) => if t in w.threads then w else Put(w, t, Dying)
  }

  function Run(w: World, events: seq<Event>): World
    decreases |events|
  {
    if events == [] then w else Step(Run(w, events[..|events| - 1]), events[|events| - 1])
  }

  // ------------------------------------------------------------ who is inside the gate

  predicate IsCallErrand(e: Errand) {
    e.ForPending? || e.ForReady? || e.ForDenied? || e.ForSetModeRejected?
  }

  /** The thread has been admitted and has not left yet. */
  predicate Inside(th: Thread) {
    th.Admitted? || th.Asking? || th.Waiting? || th.Accepted? || th.Leaving?
    || ((th.Recording? || th.Publishing? || th.Failing?) && IsCallErrand(th.errand))
  }

  function CallOf(th: Thread): Call
    requires Inside(th)
  {
    if th.Recording? || th.Publishing? || th.Failing? then th.errand.call else th.call
  }

  /** At most one request is in flight, and the pending set is exactly the active identity. */
  ghost predicate OneInFlight(w: World) {
    (forall t <- w.threads :: Inside(w.threads[t]) <==> w.holder == Some(t))
    && match w.holder
       case None => w.state.active == "" && w.state.pending == {}
       case Some(h) =>
         h in w.threads && Inside(w.threads[h])
         && w.state.active == CallOf(w.threads[h]).Id() != ""
         && w.state.pending == {w.state.active}
         && w.state.active in w.state.seen
  }

  /** Recording a transition touches the receipt and the elevation state, nothing else. */
  lemma RecordFrame(s: State, c: Command, r: Request, elevationId: string, now: nat)
    ensures var s' := Record(s, c, r, elevationId, now).0;
            s' == s.(receipt := s'.receipt, elevation := s'.elevation)
  {
    hide Perform, Build;
  }

  /** A thread on its way through the gate. */
  predicate AtTheGate(th: Thread) {
    th.Entered? || th.PastGate? || th.Admitted?
  }

  predicate InErrand(th: Thread) {
    th.Recording? || th.Publishing? || th.Failing?
  }

  lemma GateKeepsOneInFlight(w: World, t: nat, ok: bool, now: nat)
    requires OneInFlight(w) && t in w.threads && AtTheGate(w.threads[t])
    ensures OneInFlight(GoOn(w, t, ok, now))
  {
    hide Record, Gate, Reaction, DeathBlocks, Release, FailClosed;
  }

  lemma ErrandKeepsOneInFlight(w: World, t: nat, ok: bool, now: nat)
    requires OneInFlight(w) && t in w.threads && InErrand(w.threads[t])
    ensures OneInFlight(GoOn(w, t, ok, now))
  {
    hide Record, Gate, Reaction, DeathBlocks, Release, Admit, BindRequest;
    if w.threads[t].Recording? {
      var e := w.threads[t].errand;
      RecordFrame(w.state, CommandOf(e), RequestOf(e), ElevationIdOf(e), now);
    }
  }

  lemma RestKeepsOneInFlight(w: World, t: nat, ok: bool, now: nat)
    requires OneInFlight(w) && t in w.threads && !AtTheGate(w.threads[t]) && !InErrand(w.threads[t])
    ensures OneInFlight(GoOn(w, t, ok, now))
  {
    hide Record, Gate, Reaction, DeathBlocks, Admit, BindRequest;
  }

  lemma GoKeepsOneInFlight(w: World, t: nat, ok: bool, now: nat)
    requires OneInFlight(w) && t in w.threads
    ensures OneInFlight(GoOn(w, t, ok, now))
  {
    hide GoOn, OneInFlight;
    if AtTheGate(w.threads[t]) {
      GateKeepsOneInFlight(w, t, ok, now);
    } else if InErrand(w.threads[t]) {
      ErrandKeepsOneInFlight(w, t, ok, now);
    } else {
      RestKeepsOneInFlight(w, t, ok, now);
    }
  }

  lemma StepKeepsOneInFlight(w: World, e: Event)
    requires OneInFlight(w)
    ensures OneInFlight(Step(w, e))
  {
    hide GoOn, NextEvent;
    if e.Go? && e.t in w.threads {
      GoKeepsOneInFlight(w, e.t, e.ok, e.now);
    }
  }

  // ------------------------------------------------------------ each identity asks once

  /** How often this identity has been put to the control plane. */
  function TimesAsked(log: seq<Fact>, id: string): nat {
    if log == [] then 0
    else TimesAsked(log[..|log| - 1], id) + (if log[|log| - 1] == Asked(id) then 1 else 0)
  }

  /** The thread has been admitted but its question is still to come. */
  predicate YetToAsk(th: Thread) {
    th.Admitted? || th.Asking?
    || ((th.Recording? || th.Publishing? || th.Failing?) && th.errand.ForPending?)
  }

  ghost predicate AskedOnce(w: World) {
    (forall id :: TimesAsked(w.log, id) <= 1)
    && (forall id :: TimesAsked(w.log, id) == 1 ==> id in w.state.seen)
    && (w.holder.Some? && w.holder.value in w.threads && YetToAsk(w.threads[w.holder.value]) ==>
          TimesAsked(w.log, CallOf(w.threads[w.holder.value]).Id()) == 0)
  }

  lemma TellAsks(log: seq<Fact>, f: Fact)
    ensures forall id :: TimesAsked(log + [f], id) == TimesAsked(log, id) + (if f == Asked(id) then 1 else 0)
  {
    assert (log + [f])[..|log|] == log;
  }

  lemma QuestionKeepsAskedOnce(w: World, t: nat, ok: bool, now: nat)
    requires OneInFlight(w) && AskedOnce(w) && t in w.threads && !InErrand(w.threads[t])
    ensures AskedOnce(GoOn(w, t, ok, now))
  {
    hide Record, Gate, Reaction, DeathBlocks, TimesAsked, FailClosed;
    var w' := GoOn(w, t, ok, now);
    if w'.log != w.log {
      TellAsks(w.log, w'.log[|w.log|]);
      assert w'.log == w.log + [w'.log[|w.log|]];
    }
  }

  lemma ErrandKeepsAskedOnce(w: World, t: nat, ok: bool, now: nat)
    requires OneInFlight(w) && AskedOnce(w) && t in w.threads && InErrand(w.threads[t])
    ensures AskedOnce(GoOn(w, t, ok, now))
  {
    hide Record, Gate, Reaction, DeathBlocks, TimesAsked, Release, Admit, BindRequest;
    if w.threads[t].Recording? {
      var e := w.threads[t].errand;
      RecordFrame(w.state, CommandOf(e), RequestOf(e), ElevationIdOf(e), now);
    }
  }

  lemma StepKeepsAskedOnce(w: World, e: Event)
    requires OneInFlight(w) && AskedOnce(w)
    ensures AskedOnce(Step(w, e))
  {
    hide GoOn, NextEvent, TimesAsked;
    if e.Go? && e.t in w.threads {
      if InErrand(w.threads[e.t]) {
        ErrandKeepsAskedOnce(w, e.t, e.ok, e.now);
      } else {
        QuestionKeepsAskedOnce(w, e.t, e.ok, e.now);
      }
    } else {
      var w' := Step(w, e);
      if w'.log != w.log {
        TellAsks(w.log, w'.log[|w.log|]);
        assert w'.log == w.log + [w'.log[|w.log|]];
      }
    }
  }

  // ------------------------------------------------------------ the receipt and the state field

  /** The receipt is faithful, and the field shows its status unless it has failed closed. */
  ghost predicate ReceiptOk(w: World) {
    match w.state.receipt
    case None => w.state.elevation == SafeDefault
    case Some(r) => w.state.id.safeToFull && Faithful(r) && r.status != SafeDefault && w.state.elevation in {r.status, Blocked}
  }

  ghost predicate BeenReady(w: World) {
    w.state.receipt.Some? && Visited(w.state.receipt.value.history, ResponseReady)
  }

  /** Without a receipt only the first question can be recorded. */
  lemma NoReceiptNoTransition(s: State, c: Command, now: nat)
    requires s.receipt == None
    ensures Record(s, c, NO_REQUEST, "", now) == (s, Record(s, c, NO_REQUEST, "", now).1)
    ensures Record(s, c, NO_REQUEST, "", now).1.Err?
  {
  }

  /** What recording a transition does to a state whose receipt is in order. */
  lemma RecordOutcome(w: World, e: Errand, now: nat)
    requires ReceiptOk(w) && w.state.id.safeToFull && (e.ForReaction? ==> e.command.Activate? || e.command.Block?)
    ensures var (s', outcome) := Record(w.state, CommandOf(e), RequestOf(e), ElevationIdOf(e), now);
            ReceiptOk(w.(state := s'))
            && (outcome.Err? ==> s' == w.state)
            && (outcome.Ok? ==> s'.receipt == Some(outcome.value) && s'.elevation == TargetOf(CommandOf(e)) == outcome.value.status)
            && (w.state.receipt.Some? ==> s'.receipt.Some? && Extends(w.state.receipt.value, s'.receipt.value))
            && (w.state.receipt.None? && outcome.Ok? ==> e.ForPending?)
            && (outcome.Ok? ==> forall s ::
                  Visited(outcome.value.history, s) <==>
                  (w.state.receipt.Some? && Visited(w.state.receipt.value.history, s)) || s == TargetOf(CommandOf(e)))
  {
    hide Perform, Build, Faithful, Visited;
    var c := CommandOf(e);
    match w.state.receipt {
      case Some(r) =>
        FaithfulExtends(r);
        CommandAcceptedIffEdge(r, c, now);
        if Perform(r, c, now).Ok? {
          CommandExtends(r, c, now);
          CommandTarget(r, c, now);
        }
      case None =>
        if e.ForPending? {
          var built := BaseReceipt(w.state, RequestOf(e), ElevationIdOf(e), now);
          if built.Ok? {
            BuiltIsFaithful(e.call.elevationId, BindingOf(w.state.id, e.call.request), w.state.id.pathPlanDigest,
                            w.state.id.profileDigest, now);
            CommandAcceptedIffEdge(built.value, c, now);
            CommandTarget(built.value, c, now);
            EmptyVisitsNothing();
          }
        } else {
          NoReceiptNoTransition(w.state, c, now);
        }
    }
  }

  lemma FaithfulExtends(r: Receipt)
    requires Faithful(r)
    ensures Extends(r, r)
  {
    FaithfulIsShort(r);
  }

  /** A command that succeeds stands at its target and has visited nothing else that is new. */
  lemma CommandTarget(r: Receipt, c: Command, now: nat)
    requires Faithful(r) && !c.ShowDialog? && Perform(r, c, now).Ok?
    ensures var r' := Perform(r, c, now).value;
            r'.status == TargetOf(c)
            && forall s :: Visited(r'.history, s) <==> Visited(r.history, s) || (s == TargetOf(c) && s != SafeDefault)
  {
    hide Transition, Visited;
    var r' := Perform(r, c, now).value;
    match c {
      case Approve => TransitionIsMonotone(r, ResponseReady, "approve", "user", "", Missing, now);
      case Deny => TransitionIsMonotone(r, Denied, "deny", "user", "", Missing, now);
      case Block(code) => TransitionIsMonotone(r, Blocked, "", "", code, Missing, now);
      case AskHuman => TransitionIsMonotone(r, Pending, "", "", "", Missing, now);
      case Activate => TransitionIsMonotone(r, Active, "", "", "", Missing, now);
      case ShowDialog =>
    }
    if r' == r {
      StandsWhereItWent(r);
    } else {
      forall s ensures Visited(r'.history, s) <==> Visited(r.history, s) || s == TargetOf(c) {
        VisitedExtends(r.history, r'.history[|r.history|], s);
      }
    }
  }

  lemma EmptyVisitsNothing()
    ensures forall s :: !Visited([], s)
  {
  }

  lemma StandsWhereItWent(r: Receipt)
    requires Faithful(r) && r.status != SafeDefault
    ensures Visited(r.history, r.status)
  {
  }

  // ------------------------------------------------------------ who was asked, and what was answered

  /** The human has accepted this call, and its thread is on the way to the native answer. */
  predicate AfterAccept(th: Thread) {
    th.Accepted?
    || ((th.Recording? || th.Publishing? || th.Failing?) && (th.errand.ForReady? || th.errand.ForSetModeRejected?))
    || (th.Leaving? && th.verdict in {AllowSetMode, AllowPlain})
  }

  /** What a thread inside the gate may still be doing once the session has been made ready. */
  predicate CalmAfterReady(th: Thread) {
    th.Admitted? || th.Leaving?
    || (th.Recording? && th.errand.ForPending?)
    || ((th.Publishing? || th.Failing?) && th.errand.ForReady?)
  }

  /** Every transition that is about to be recorded is one the protocol makes. */
  ghost predicate ErrandsOk(w: World) {
    forall t <- w.threads ::
      var th := w.threads[t];
      (th.Recording? || th.Publishing? || th.Failing?) ==>
        w.state.id.safeToFull
        && (th.Publishing? || th.Failing? ==> w.state.receipt.Some?)
        && (th.errand.ForReaction? ==> th.errand.command.Activate? || th.errand.command.Block?)
  }

  /** The anchor is a call a human accepted: of the thread that acts on the answer, and of a ready session. */
  ghost predicate AnchorOk(w: World) {
    (w.holder.Some? && w.holder.value in w.threads ==>
       var th := w.threads[w.holder.value];
       (AfterAccept(th) ==>
          w.state.anchor == CallOf(th).Id() && HumanAccepted(w.state.anchor) in w.log)
       && (BeenReady(w) ==> CalmAfterReady(th))
       && (th.Leaving? && th.verdict == AllowPlain ==> !w.state.id.safeToFull)
       && (th.Leaving? && th.verdict == AllowSetMode ==> BeenReady(w))
       && ((th.Publishing? || th.Failing?) && th.errand.ForReady? ==> BeenReady(w)))
    && (BeenReady(w) ==> w.state.anchor != "" && HumanAccepted(w.state.anchor) in w.log)
  }

  ghost predicate Sound(w: World) {
    OneInFlight(w) && AskedOnce(w) && ReceiptOk(w) && ErrandsOk(w) && AnchorOk(w)
  }

  /** The section that records a transition keeps the anchor right. */
  lemma RecordingKeepsAnchor(w: World, t: nat, now: nat)
    requires Sound(w) && t in w.threads && w.threads[t].Recording?
    ensures var w' := GoOn(w, t, true, now); ReceiptOk(w') && ErrandsOk(w') && AnchorOk(w')
  {
    hide Record, Faithful, Extends, Visited, TimesAsked, AskedOnce;
    var e := w.threads[t].errand;
    RecordFrame(w.state, CommandOf(e), RequestOf(e), ElevationIdOf(e), now);
    RecordOutcome(w, e, now);
    var w' := GoOn(w, t, true, now);
    assert BeenReady(w') ==> BeenReady(w) || e.ForReady?;
    assert BeenReady(w) && e.ForReady? ==> w.holder == Some(t);
    if BeenReady(w) && e.ForPending? {
      ReadyAsksNoMore(w.state, e, now);
    }
  }

  /** Once ready, the first question can never be recorded again. */
  lemma ReadyAsksNoMore(s: State, e: Errand, now: nat)
    requires e.ForPending? && s.receipt.Some? && Faithful(s.receipt.value)
    requires Visited(s.receipt.value.history, ResponseReady)
    ensures Record(s, AskHuman, RequestOf(e), ElevationIdOf(e), now).1.Err?
  {
    hide Perform, Faithful, Visited;
    var r := s.receipt.value;
    CommandAcceptedIffEdge(r, AskHuman, now);
    FaithfulWalks(r);
    WhatAWalkHasVisited(r.history);
  }

  lemma FaithfulWalks(r: Receipt)
    requires Faithful(r)
    ensures IsWalk(SafeDefault, r.history) && EndOf(SafeDefault, r.history) == r.status
  {
  }

  lemma QuietSectionKeepsReceipt(w: World, t: nat, ok: bool, now: nat)
    requires OneInFlight(w) && ReceiptOk(w) && ErrandsOk(w) && t in w.threads && !w.threads[t].Recording?
    ensures var w' := GoOn(w, t, ok, now);
            ReceiptOk(w') && ErrandsOk(w')
            && w'.state.receipt == w.state.receipt && w'.state.anchor == w.state.anchor && w'.state.id == w.state.id
            && w.log <= w'.log
  {
    hide Record, Gate, Faithful, OneInFlight, Extends, Visited;
    var th := w.threads[t];
    if AtTheGate(th) {
      hide ReceiptOk;
      GateTouchesLittle(w, t, ok, now);
      SameReceiptSameVerdict(w, GoOn(w, t, ok, now));
    }
  }

  lemma GateTouchesLittle(w: World, t: nat, ok: bool, now: nat)
    requires t in w.threads && AtTheGate(w.threads[t])
    ensures var w' := GoOn(w, t, ok, now);
            w'.state.id == w.state.id && w'.state.receipt == w.state.receipt && w'.state.elevation == w.state.elevation
            && w'.state.anchor == w.state.anchor && w.log <= w'.log
  {
    hide Gate;
  }

  lemma SameReceiptSameVerdict(w: World, w': World)
    requires w'.state.id == w.state.id && w'.state.receipt == w.state.receipt && w'.state.elevation == w.state.elevation
    ensures ReceiptOk(w) <==> ReceiptOk(w')
  {
    hide Faithful;
  }

  lemma ReadyOnlyWhenElevating(w: World)
    requires ReceiptOk(w) && BeenReady(w)
    ensures w.state.id.safeToFull
  {
  }

  /** A section that records nothing keeps the anchor right. */
  lemma QuietSectionKeepsAnchor(w: World, t: nat, ok: bool, now: nat)
    requires Sound(w) && t in w.threads && !w.threads[t].Recording?
    ensures AnchorOk(GoOn(w, t, ok, now))
  {
    hide GoOn, OneInFlight, ReceiptOk, AskedOnce, ErrandsOk, AnchorOk;
    QuietSectionKeepsReceipt(w, t, ok, now);
    if BeenReady(w) {
      ReadyOnlyWhenElevating(w);
    }
    if AtTheGate(w.threads[t]) {
      GateKeepsAnchor(w, t, ok, now);
    } else if InErrand(w.threads[t]) {
      ErrandKeepsAnchor(w, t, ok, now);
    } else {
      RestKeepsAnchor(w, t, ok, now);
    }
  }

  /** What a section that records nothing leaves as it was. */
  ghost predicate Quiet(w: World, w': World) {
    (BeenReady(w') <==> BeenReady(w)) && w'.state.anchor == w.state.anchor && w'.state.id == w.state.id && w.log <= w'.log
    && (BeenReady(w) ==> w.state.id.safeToFull)
  }

  lemma GateKeepsAnchor(w: World, t: nat, ok: bool, now: nat)
    requires OneInFlight(w) && AnchorOk(w) && t in w.threads && AtTheGate(w.threads[t])
    requires Quiet(w, GoOn(w, t, ok, now))
    ensures AnchorOk(GoOn(w, t, ok, now))
  {
    hide Gate, BeenReady, Record, Reaction, DeathBlocks, Release, FailClosed;
  }

  lemma ErrandKeepsAnchor(w: World, t: nat, ok: bool, now: nat)
    requires OneInFlight(w) && AnchorOk(w) && t in w.threads && InErrand(w.threads[t]) && !w.threads[t].Recording?
    requires Quiet(w, GoOn(w, t, ok, now))
    ensures AnchorOk(GoOn(w, t, ok, now))
  {
    hide Gate, BeenReady, Record, Reaction, DeathBlocks, Release, Admit, BindRequest;
  }

  lemma RestKeepsAnchor(w: World, t: nat, ok: bool, now: nat)
    requires OneInFlight(w) && AnchorOk(w) && t in w.threads && !AtTheGate(w.threads[t]) && !InErrand(w.threads[t])
    requires Quiet(w, GoOn(w, t, ok, now))
    ensures AnchorOk(GoOn(w, t, ok, now))
  {
    hide Gate, BeenReady, Record, Reaction, DeathBlocks, Admit, BindRequest, FailClosed;
  }

  lemma GoKeepsAnchor(w: World, t: nat, ok: bool, now: nat)
    requires Sound(w) && t in w.threads
    ensures var w' := GoOn(w, t, ok, now); ReceiptOk(w') && ErrandsOk(w') && AnchorOk(w')
  {
    hide GoOn, AskedOnce, ReceiptOk, ErrandsOk, AnchorOk;
    if w.threads[t].Recording? {
      RecordingKeepsAnchor(w, t, now);
      assert GoOn(w, t, ok, now) == GoOn(w, t, true, now) by { RecordingIgnoresLuck(w, t, ok, now); }
    } else {
      QuietSectionKeepsReceipt(w, t, ok, now);
      QuietSectionKeepsAnchor(w, t, ok, now);
    }
  }

  lemma RecordingIgnoresLuck(w: World, t: nat, ok: bool, now: nat)
    requires t in w.threads && w.threads[t].Recording?
    ensures GoOn(w, t, ok, now) == GoOn(w, t, true, now)
  {
  }

  lemma DecideKeepsAnchor(w: World, t: nat, accept: bool)
    requires Sound(w)
    ensures var w' := Step(w, Decide(t, accept)); ReceiptOk(w') && ErrandsOk(w') && AnchorOk(w')
  {
    hide TimesAsked, AskedOnce, Faithful, Visited;
  }

  lemma OthersKeepAnchor(w: World, e: Event)
    requires Sound(w) && !e.Go? && !e.Decide?
    ensures var w' := Step(w, e); ReceiptOk(w') && ErrandsOk(w') && AnchorOk(w')
  {
    hide TimesAsked, AskedOnce, Faithful, Visited, NextEvent;
  }

  lemma StepKeepsSound(w: World, e: Event)
    requires Sound(w)
    ensures Sound(Step(w, e))
  {
    hide GoOn, NextEvent, OneInFlight, AskedOnce, ReceiptOk, ErrandsOk, AnchorOk;
    StepKeepsOneInFlight(w, e);
    StepKeepsAskedOnce(w, e);
    match e {
      case Go(t, ok, now) => if t in w.threads { GoKeepsAnchor(w, t, ok, now); }
      case Decide(t, accept) => DecideKeepsAnchor(w, t, accept);
      case _ => OthersKeepAnchor(w, e);
    }
  }

  // ------------------------------------------------------------ every allow is preceded by an accept

  predicate Allows(f: Fact) {
    f.Returned? && f.verdict in {AllowPlain, AllowSetMode}
  }

  /** How many answers carried the session-wide mode update. */
  function ModeUpdates(log: seq<Fact>): nat {
    if log == [] then 0
    else
      var f := log[|log| - 1];
      ModeUpdates(log[..|log| - 1]) + (if f.Returned? && f.verdict == AllowSetMode then 1 else 0)
  }

  /** The call a human must have accepted for this allow. */
  function MustHaveAccepted(w: World, f: Fact): string {
    if w.state.id.safeToFull then w.state.anchor else f.id
  }

  /** The thread is handing out the one answer that carries the mode update. */
  predicate Delivering(th: Thread) {
    ((th.Publishing? || th.Failing?) && th.errand.ForReady?) || (th.Leaving? && th.verdict == AllowSetMode)
  }

  ghost predicate AllowsOk(w: World) {
    forall i :: 0 <= i < |w.log| && Allows(w.log[i]) ==>
      HumanAccepted(MustHaveAccepted(w, w.log[i])) in w.log[..i]
      && (w.state.id.safeToFull ==> BeenReady(w))
      && (w.log[i].verdict == AllowSetMode ==> w.log[i].id == w.state.anchor && BeenReady(w))
  }

  ghost predicate ModeUpdatesOk(w: World) {
    ModeUpdates(w.log) <= 1
    && (ModeUpdates(w.log) == 1 ==> BeenReady(w))
    && (w.holder.Some? && w.holder.value in w.threads && Delivering(w.threads[w.holder.value]) ==> ModeUpdates(w.log) == 0)
  }

  /** Once ready, the anchor and the readiness stay. */
  lemma ReadyIsForGood(w: World, e: Event)
    requires Sound(w) && BeenReady(w)
    ensures var w' := Step(w, e); BeenReady(w') && w'.state.anchor == w.state.anchor && w'.state.id == w.state.id
  {
    hide NextEvent, Record, Faithful, Visited, TimesAsked, AskedOnce;
    if e.Go? && e.t in w.threads && w.threads[e.t].Recording? {
      var errand := w.threads[e.t].errand;
      RecordFrame(w.state, CommandOf(errand), RequestOf(errand), ElevationIdOf(errand), e.now);
      RecordOutcome(w, errand, e.now);
    }
  }

  lemma IdentityStays(w: World, e: Event)
    ensures Step(w, e).state.id == w.state.id
    ensures w.log <= Step(w, e).log && |Step(w, e).log| <= |w.log| + 1
  {
    hide NextEvent, Record, Gate, Reaction, DeathBlocks;
    if e.Go? && e.t in w.threads && w.threads[e.t].Recording? {
      var errand := w.threads[e.t].errand;
      RecordFrame(w.state, CommandOf(errand), RequestOf(errand), ElevationIdOf(errand), e.now);
    }
  }

  /** When a step hands out an allow, the human has accepted before. */
  lemma NewAllowIsAccepted(w: World, e: Event, f: Fact)
    requires Sound(w) && !w.state.id.preauthorizedFull
    requires Step(w, e).log == w.log + [f] && Allows(f)
    ensures var w' := Step(w, e);
            HumanAccepted(MustHaveAccepted(w', f)) in w.log
            && (w.state.id.safeToFull ==> BeenReady(w'))
            && (f.verdict == AllowSetMode ==>
                  f.id == w'.state.anchor && BeenReady(w')
                  && w.holder.Some? && w.holder.value in w.threads && Delivering(w.threads[w.holder.value]))
  {
    hide NextEvent, Record, TimesAsked, AskedOnce;
    assert Step(w, e).log[|w.log|] == f;
    assert e.Go?;
    if w.threads[e.t].Entered? && w.state.id.safeToFull {
      ReadyStateHasBeenReady(w);
    }
  }

  lemma ReadyStateHasBeenReady(w: World)
    requires ReceiptOk(w) && w.state.elevation in {ResponseReady, ClaudeElevation.Status.Active}
    ensures BeenReady(w)
  {
    var r := w.state.receipt.value;
    FaithfulWalks(r);
    WhatAWalkHasVisited(r.history);
  }

  lemma StepKeepsAllows(w: World, e: Event)
    requires Sound(w) && AllowsOk(w) && !w.state.id.preauthorizedFull
    ensures AllowsOk(Step(w, e))
  {
    hide Step, Sound, BeenReady;
    IdentityStays(w, e);
    var w' := Step(w, e);
    if BeenReady(w) {
      ReadyIsForGood(w, e);
    }
    forall i | 0 <= i < |w'.log| && Allows(w'.log[i])
      ensures HumanAccepted(MustHaveAccepted(w', w'.log[i])) in w'.log[..i]
      ensures w'.state.id.safeToFull ==> BeenReady(w')
      ensures w'.log[i].verdict == AllowSetMode ==> w'.log[i].id == w'.state.anchor && BeenReady(w')
    {
      if i < |w.log| {
        assert w'.log[i] == w.log[i] && w'.log[..i] == w.log[..i];
      } else {
        assert w'.log == w.log + [w'.log[i]];
        NewAllowIsAccepted(w, e, w'.log[i]);
        assert w'.log[..i] == w.log;
      }
    }
  }

  lemma TellModeUpdates(log: seq<Fact>, f: Fact)
    ensures ModeUpdates(log + [f]) == ModeUpdates(log) + (if f.Returned? && f.verdict == AllowSetMode then 1 else 0)
  {
    assert (log + [f])[..|log|] == log;
  }

  lemma StepKeepsModeUpdates(w: World, e: Event)
    requires Sound(w) && ModeUpdatesOk(w) && !w.state.id.preauthorizedFull
    ensures ModeUpdatesOk(Step(w, e))
  {
    hide Step, Sound, BeenReady, ModeUpdates;
    StepKeepsSound(w, e);
    IdentityStays(w, e);
    var w' := Step(w, e);
    if BeenReady(w) {
      ReadyIsForGood(w, e);
    }
    if w'.log != w.log {
      var f := w'.log[|w.log|];
      assert w'.log == w.log + [f];
      TellModeUpdates(w.log, f);
      if Allows(f) {
        NewAllowIsAccepted(w, e, f);
        if f.verdict == AllowSetMode {
          LeavesWithItsAnswer(w, e, f);
        }
      }
    }
    DeliveryStartsOnce(w, e);
  }

  lemma LeavesWithItsAnswer(w: World, e: Event, f: Fact)
    requires Sound(w)
    requires Step(w, e).log == w.log + [f] && f.Returned? && f.verdict == AllowSetMode
    ensures Step(w, e).holder == None
  {
    hide NextEvent, Record, TimesAsked, AskedOnce, AnchorOk, ReceiptOk;
    assert Step(w, e).log[|w.log|] == f;
  }

  /** A thread starts to deliver only in the step that makes the session ready. */
  lemma DeliveryStartsOnce(w: World, e: Event)
    requires Sound(w)
    ensures var w' := Step(w, e);
            w'.holder.Some? && w'.holder.value in w'.threads && Delivering(w'.threads[w'.holder.value]) ==>
              (!BeenReady(w) || (w.holder.Some? && w.holder.value in w.threads && Delivering(w.threads[w.holder.value])))
  {
    hide NextEvent, Record, Faithful, Visited, TimesAsked, AskedOnce, ReceiptOk;
  }

  // ------------------------------------------------------------ active only on evidence

  ghost predicate HasEvidence(s: State) {
    exists e <- s.events :: e.kind == PostToolUse && IsAnchored(s, e)
  }

  ghost predicate EvidenceOk(w: World) {
    (w.state.receipt.Some? && Visited(w.state.receipt.value.history, ClaudeElevation.Status.Active) ==> HasEvidence(w.state))
    && forall t <- w.threads :: ThreadEvidence(w, w.threads[t])
  }

  lemma EventsOnlyGrow(w: World, e: Event)
    ensures w.state.events <= Step(w, e).state.events
  {
    hide NextEvent, Record, Gate, Reaction, DeathBlocks;
    if e.Go? && e.t in w.threads && w.threads[e.t].Recording? {
      var errand := w.threads[e.t].errand;
      RecordFrame(w.state, CommandOf(errand), RequestOf(errand), ElevationIdOf(errand), e.now);
    }
  }

  /** A thread holds a captured event of the log, and reacts only in a ready session to an anchored one. */
  ghost predicate ThreadEvidence(w: World, th: Thread) {
    (th.Captured? ==> th.event in w.state.events)
    && ((th.Recording? || th.Publishing? || th.Failing?) && th.errand.ForReaction? ==>
          BeenReady(w) && th.errand.event in w.state.events && IsAnchored(w.state, th.errand.event)
          && (th.errand.command.Activate? ==> th.errand.event.kind == PostToolUse))
  }

  lemma EvidenceLasts(w: World, e: Event, th: Thread)
    requires Sound(w) && ThreadEvidence(w, th)
    ensures ThreadEvidence(Step(w, e), th)
  {
    hide Step, Sound, BeenReady;
    EventsOnlyGrow(w, e);
    IdentityStays(w, e);
    if BeenReady(w) {
      ReadyIsForGood(w, e);
    }
  }

  /** Where a step sends thread `t`, seen from the state before. */
  lemma MovedThread(w: World, e: Event, t: nat)
    requires t in Step(w, e).threads && !(t in w.threads && Step(w, e).threads[t] == w.threads[t])
    ensures var w' := Step(w, e);
            var th := w'.threads[t];
            (th.Captured? ==> th.event in w'.state.events)
            && ((th.Recording? || th.Publishing? || th.Failing?) && th.errand.ForReaction? ==>
                  t in w.threads
                  && ((w.threads[t].Captured? && w.threads[t].event == th.errand.event
                       && Reaction(w.state, th.errand.event) == Some(th.errand.command))
                      || ((w.threads[t].Recording? || w.threads[t].Publishing?) && w.threads[t].errand == th.errand)))
  {
    hide NextEvent, Record, Gate, Reaction, DeathBlocks, Release, Admit, BindRequest, FailClosed, AnchorAccepted;
  }

  lemma ReactionIsEvidence(w: World, event: ToolEvent)
    requires ReceiptOk(w) && Reaction(w.state, event).Some?
    ensures BeenReady(w) && IsAnchored(w.state, event)
    ensures Reaction(w.state, event).value.Activate? ==> event.kind == PostToolUse
  {
    ReadyStateHasBeenReady(w);
  }

  lemma ThreadsKeepEvidence(w: World, e: Event, t: nat)
    requires Sound(w) && EvidenceOk(w) && t in Step(w, e).threads
    ensures ThreadEvidence(Step(w, e), Step(w, e).threads[t])
  {
    hide Step, BeenReady, OneInFlight, AskedOnce, ReceiptOk, ErrandsOk, AnchorOk, HasEvidence, Reaction;
    var th := Step(w, e).threads[t];
    assert t in w.threads ==> ThreadEvidence(w, w.threads[t]);
    if t in w.threads && th == w.threads[t] {
      EvidenceLasts(w, e, th);
    } else {
      MovedThread(w, e, t);
      if (th.Recording? || th.Publishing? || th.Failing?) && th.errand.ForReaction? {
        if w.threads[t].Captured? {
          ReactionIsEvidence(w, th.errand.event);
        }
        EvidenceLasts(w, e, Recording(th.errand));
      }
    }
  }

  lemma StepKeepsEvidence(w: World, e: Event)
    requires Sound(w) && EvidenceOk(w)
    ensures EvidenceOk(Step(w, e))
  {
    hide GoOn, NextEvent, Faithful, OneInFlight, AskedOnce, AnchorOk, ReceiptOk, ErrandsOk, Visited;
    var w' := Step(w, e);
    forall t | t in w'.threads
      ensures ThreadEvidence(w', w'.threads[t])
    {
      ThreadsKeepEvidence(w, e, t);
    }
    ActivationHasEvidence(w, e);
  }

  lemma ActivationHasEvidence(w: World, e: Event)
    requires Sound(w) && EvidenceOk(w)
    ensures var w' := Step(w, e);
            w'.state.receipt.Some? && Visited(w'.state.receipt.value.history, ClaudeElevation.Status.Active) ==> HasEvidence(w'.state)
  {
    hide NextEvent, Record, Gate, Reaction, DeathBlocks, Faithful, Visited, OneInFlight, AskedOnce, AnchorOk;
    var w' := Step(w, e);
    EventsOnlyGrow(w, e);
    IdentityStays(w, e);
    if w.state.receipt.Some? && Visited(w.state.receipt.value.history, ClaudeElevation.Status.Active) {
      ActiveWasReady(w);
      ReadyIsForGood(w, e);
      var event :| event in w.state.events && event.kind == PostToolUse && IsAnchored(w.state, event);
      assert event in w'.state.events && IsAnchored(w'.state, event);
    } else if e.Go? && e.t in w.threads && w.threads[e.t].Recording? {
      var errand := w.threads[e.t].errand;
      RecordFrame(w.state, CommandOf(errand), RequestOf(errand), ElevationIdOf(errand), e.now);
      RecordOutcome(w, errand, e.now);
      if errand.ForReaction? && errand.command.Activate? {
        assert IsAnchored(w'.state, errand.event) && errand.event in w'.state.events;
      }
    }
  }

  lemma {:induction false} ActiveWalkWasReady(history: seq<Hop>)
    requires IsWalk(SafeDefault, history) && Visited(history, ClaudeElevation.Status.Active)
    ensures Visited(history, ResponseReady)
  {
    var init, hop := history[..|history| - 1], history[|history| - 1];
    VisitedExtends(init, hop, ResponseReady);
    VisitedExtends(init, hop, ClaudeElevation.Status.Active);
    assert history == init + [hop];
    if Visited(init, ClaudeElevation.Status.Active) {
      ActiveWalkWasReady(init);
    } else {
      WhatAWalkHasVisited(init);
    }
  }

  lemma ActiveWasReady(w: World)
    requires ReceiptOk(w) && w.state.receipt.Some?
    requires Visited(w.state.receipt.value.history, ClaudeElevation.Status.Active)
    ensures BeenReady(w)
  {
    hide Visited;
    FaithfulWalks(w.state.receipt.value);
    ActiveWalkWasReady(w.state.receipt.value.history);
  }

  // ------------------------------------------------------------ the theorems

  lemma StartIsSound(id: Identity)
    ensures Sound(Start(id)) && AllowsOk(Start(id)) && ModeUpdatesOk(Start(id)) && EvidenceOk(Start(id))
  {
  }

  /**
    Every run of a transport, whatever the interleaving: one request in flight
    at most, every identity asked at most once, the receipt faithful, the
    anchor accepted, and active reached only on anchored evidence.
  */
  lemma {:induction false} EveryRunIsSound(id: Identity, events: seq<Event>)
    ensures var w := Run(Start(id), events); w.state.id == id && Sound(w) && EvidenceOk(w)
    decreases |events|
  {
    hide Step, Sound, EvidenceOk;
    if events == [] {
      StartIsSound(id);
    } else {
      EveryRunIsSound(id, events[..|events| - 1]);
      var w, e := Run(Start(id), events[..|events| - 1]), events[|events| - 1];
      StepKeepsSound(w, e);
      StepKeepsEvidence(w, e);
      IdentityStays(w, e);
    }
  }

  lemma {:induction false} EveryAllowIsAccepted(id: Identity, events: seq<Event>)
    requires !id.preauthorizedFull
    ensures var w := Run(Start(id), events); AllowsOk(w) && ModeUpdatesOk(w)
    decreases |events|
  {
    hide Step, Sound, AllowsOk, ModeUpdatesOk;
    if events == [] {
      StartIsSound(id);
    } else {
      EveryAllowIsAccepted(id, events[..|events| - 1]);
      var w, e := Run(Start(id), events[..|events| - 1]), events[|events| - 1];
      EveryRunIsSound(id, events[..|events| - 1]);
      StepKeepsAllows(w, e);
      StepKeepsModeUpdates(w, e);
    }
  }

  /**
    No allow without a human: whenever a callback of a run is answered with an
    allow, a human accept came strictly before it, of this very call in the
    native-choice mode and of the anchored call in safe-to-full mode; and the
    answer that lifts the whole session is given at most once.
  */
  lemma AllowOnlyAfterAccept(id: Identity, events: seq<Event>, i: nat)
    requires !id.preauthorizedFull
    ensures var w := Run(Start(id), events);
            ModeUpdates(w.log) <= 1
            && (i < |w.log| && Allows(w.log[i]) ==>
                  exists j :: 0 <= j < i && w.log[j] == HumanAccepted(if id.safeToFull then w.state.anchor else w.log[i].id))
  {
    EveryAllowIsAccepted(id, events);
    EveryRunIsSound(id, events);
    var w := Run(Start(id), events);
    if i < |w.log| && Allows(w.log[i]) {
      var f := HumanAccepted(MustHaveAccepted(w, w.log[i]));
      assert f in w.log[..i];
      var j :| 0 <= j < i && w.log[..i][j] == f;
    }
  }

  /** At most one permission request is in flight, and every tool call reaches the control plane at most once. */
  lemma OneQuestionPerCall(id: Identity, events: seq<Event>, toolUseId: string)
    ensures var w := Run(Start(id), events);
            TimesAsked(w.log, toolUseId) <= 1
            && (w.state.pending == {} || w.state.pending == {w.state.active})
            && (forall t, u :: t in w.threads && u in w.threads && Inside(w.threads[t]) && Inside(w.threads[u]) ==> t == u)
  {
    EveryRunIsSound(id, events);
  }

  /** The transport reaches active only through an in-window success of the accepted call, in the bound session. */
  lemma ActiveOnlyOnEvidence(id: Identity, events: seq<Event>)
    requires var w := Run(Start(id), events);
             w.state.elevation == ClaudeElevation.Status.Active
             || (w.state.receipt.Some? && Visited(w.state.receipt.value.history, ClaudeElevation.Status.Active))
    ensures var w := Run(Start(id), events);
            HumanAccepted(w.state.anchor) in w.log
            && exists e <- w.state.events ::
                 e.kind == PostToolUse && e.inWindow && e.toolUseId == w.state.anchor && e.sessionId == id.sessionId
  {
    hide Run;
    EveryRunIsSound(id, events);
    var w := Run(Start(id), events);
    if w.state.elevation == ClaudeElevation.Status.Active {
      StandsWhereItWent(w.state.receipt.value);
    }
    ActiveWasReady(w);
    var e :| e in w.state.events && e.kind == PostToolUse && IsAnchored(w.state, e);
  }

  // ------------------------------------------------------------ the receipt over time

  /** What time does to a receipt: nothing is unbound, rewritten or shortened. */
  ghost predicate Grows(before: Option<Receipt>, after: Option<Receipt>) {
    before.Some? ==>
      after.Some? && SameIdentity(before.value, after.value)
      && before.value.history <= after.value.history
      && (before.value.decision.kind != "" ==> after.value.decision == before.value.decision)
      && (before.value.status == Blocked ==> after.value.status == Blocked && after.value.history == before.value.history)
      && (before.value.status == Denied ==> after.value.status in {Denied, Blocked})
  }

  lemma StepGrows(w: World, e: Event)
    requires Sound(w)
    ensures Grows(w.state.receipt, Step(w, e).state.receipt)
  {
    hide NextEvent, Record, Gate, Reaction, DeathBlocks, Faithful, OneInFlight, AskedOnce, AnchorOk, Visited;
    if e.Go? && e.t in w.threads && w.threads[e.t].Recording? {
      var errand := w.threads[e.t].errand;
      RecordFrame(w.state, CommandOf(errand), RequestOf(errand), ElevationIdOf(errand), e.now);
      RecordOutcome(w, errand, e.now);
    }
  }

  /**
    Between any two moments of a run the receipt keeps its binding, its history
    only grows along the graph, a decision stays, blocked is final, and denied
    never becomes ready or active.
  */
  lemma {:induction false} ReceiptOnlyGrows(id: Identity, events: seq<Event>, more: seq<Event>)
    ensures var before := Run(Start(id), events).state.receipt;
            var after := Run(Start(id), events + more).state.receipt;
            Grows(before, after)
            && (after.Some? ==> IsWalk(SafeDefault, after.value.history) && |after.value.history| <= 4)
    decreases |more|
  {
    hide Step, Sound;
    var w' := Run(Start(id), events + more);
    EveryRunIsSound(id, events + more);
    if w'.state.receipt.Some? {
      SoundReceiptWalks(w');
    }
    if more == [] {
      assert events + more == events;
    } else {
      var init := more[..|more| - 1];
      assert (events + more)[..|events + more| - 1] == events + init;
      ReceiptOnlyGrows(id, events, init);
      EveryRunIsSound(id, events + init);
      StepGrows(Run(Start(id), events + init), more[|more| - 1]);
    }
  }

  lemma SoundReceiptWalks(w: World)
    requires Sound(w) && w.state.receipt.Some?
    ensures IsWalk(SafeDefault, w.state.receipt.value.history) && |w.state.receipt.value.history| <= 4
  {
  }
}
