/**
  Exactly when a blocked transport stays blocked: over all continuations of a
  run, over the runs the worker's event loop can schedule, and the one
  interleaving that the loop rules out
  (src/agent_bridge_connect/claude_sdk_transport.py).
*/
module ElevationBlocked {
  import opened Outcomes
  import opened Text
  import opened Clock
  import opened ClaudeElevation
  import opened VerificationEvents
  import opened ClaudeTransport
  import opened ElevationRuns

  // ------------------------------------------------------------ who can still reopen the field

  function StatusOf(s: State): Status {
    match s.receipt
    case None => SafeDefault
    case Some(r) => r.status
  }

  /** A receipt with this status takes the command. */
  predicate Takes(st: Status, c: Command)
    requires !c.ShowDialog?
  {
    st == TargetOf(c) || MayFollow(st, TargetOf(c))
  }

  /** Recording this errand would show a status other than blocked. */
  predicate Opens(st: Status, e: Errand) {
    var c := CommandOf(e);
    !c.ShowDialog? && TargetOf(c) != Blocked && Takes(st, c)
  }

  /** The thread inside the gate is about to block the receipt, and nobody else is admitted before it has. */
  predicate BlocksFirst(w: World) {
    w.holder.Some? && w.holder.value in w.threads
    && w.threads[w.holder.value].Recording? && w.threads[w.holder.value].errand.ForSetModeRejected?
  }

  /** What thread `th` holds, and the receipt's status, still let it record something other than blocked. */
  predicate CanReopen(w: World, th: Thread) {
    var st := StatusOf(w.state);
    match th
    case PastGate(call) => st == Pending && call.Id() != "" && call.Id() !in w.state.seen && !BlocksFirst(w)
    case Admitted(_) => st == Pending
    case Recording(e) => Opens(st, e)
    case Publishing(e) => e.ForPending? && (Takes(st, Approve) || Takes(st, Deny))
    case Asking(_) => Takes(st, Approve) || Takes(st, Deny)
    case Waiting(_) => Takes(st, Approve) || Takes(st, Deny)
    case Accepted(_) => Takes(st, Approve)
    case _ => false
  }

  ghost predicate Shut(w: World) {
    w.state.elevation == Blocked && forall t <- w.threads :: !CanReopen(w, w.threads[t])
  }

  /** A blocked receipt takes nothing but being blocked again. */
  lemma BlockedReceiptShuts(w: World)
    requires StatusOf(w.state) == Blocked && w.state.elevation == Blocked
    ensures Shut(w)
  {
  }

  // ------------------------------------------------------------ shut stays shut

  lemma RecordingKeepsShut(w: World, t: nat, ok: bool, now: nat)
    requires Sound(w) && Shut(w) && t in w.threads && w.threads[t].Recording?
    ensures Shut(GoOn(w, t, ok, now))
  {
    hide Record, Faithful, Visited, Extends, OneInFlight, AskedOnce, AnchorOk;
    var e := w.threads[t].errand;
    RecordFrame(w.state, CommandOf(e), RequestOf(e), ElevationIdOf(e), now);
    RecordOutcome(w, e, now);
    RecordAccepts(w, e, now);
    var w' := GoOn(w, t, ok, now);
    if Record(w.state, CommandOf(e), RequestOf(e), ElevationIdOf(e), now).1.Ok? {
      BlockedReceiptShuts(w');
    }
  }

  /** In a sound world with a receipt, recording succeeds exactly when the receipt takes the command. */
  lemma RecordAccepts(w: World, e: Errand, now: nat)
    requires ReceiptOk(w) && w.state.receipt.Some? && !CommandOf(e).ShowDialog?
    ensures Record(w.state, CommandOf(e), RequestOf(e), ElevationIdOf(e), now).1.Ok? <==> Takes(StatusOf(w.state), CommandOf(e))
  {
    hide Perform, Faithful;
    CommandAcceptedIffEdge(w.state.receipt.value, CommandOf(e), now);
  }

  lemma GateKeepsShut(w: World, t: nat, ok: bool, now: nat)
    requires Sound(w) && Shut(w) && t in w.threads && AtTheGate(w.threads[t])
    ensures Shut(GoOn(w, t, ok, now))
  {
    hide Record, Reaction, DeathBlocks, Release, FailClosed, Faithful, AskedOnce, AnchorOk, ErrandsOk;
    var w' := GoOn(w, t, ok, now);
    GateTouchesLittle(w, t, ok, now);
    forall u | u in w'.threads ensures !CanReopen(w', w'.threads[u]) {
      if u != t {
        assert !CanReopen(w, w.threads[u]);
      }
    }
  }

  lemma PublicationKeepsShut(w: World, t: nat, ok: bool, now: nat)
    requires Sound(w) && Shut(w) && t in w.threads && InErrand(w.threads[t]) && !w.threads[t].Recording?
    ensures Shut(GoOn(w, t, ok, now))
  {
    hide Record, Gate, Admit, BindRequest, Release, Reaction, DeathBlocks, Opens, Takes, Sound;
    var w' := GoOn(w, t, ok, now);
    forall u | u in w'.threads ensures !CanReopen(w', w'.threads[u]) {
      if u != t {
        assert !CanReopen(w, w.threads[u]);
      }
    }
  }

  lemma RestKeepsShut(w: World, t: nat, ok: bool, now: nat)
    requires Sound(w) && Shut(w) && t in w.threads && !AtTheGate(w.threads[t]) && !InErrand(w.threads[t])
    ensures Shut(GoOn(w, t, ok, now))
  {
    hide Record, Gate, Admit, BindRequest, FailClosed, DeathBlocks, Takes, Faithful, AskedOnce, AnchorOk, ErrandsOk;
    var w' := GoOn(w, t, ok, now);
    forall u | u in w'.threads ensures !CanReopen(w', w'.threads[u]) {
      if u != t {
        assert !CanReopen(w, w.threads[u]);
      }
    }
  }

  lemma StepKeepsShut(w: World, e: Event)
    requires Sound(w) && Shut(w)
    ensures Shut(Step(w, e))
  {
    hide GoOn, NextEvent, Sound;
    if e.Go? && e.t in w.threads {
      if w.threads[e.t].Recording? {
        RecordingKeepsShut(w, e.t, e.ok, e.now);
      } else if AtTheGate(w.threads[e.t]) {
        GateKeepsShut(w, e.t, e.ok, e.now);
      } else if InErrand(w.threads[e.t]) {
        PublicationKeepsShut(w, e.t, e.ok, e.now);
      } else {
        RestKeepsShut(w, e.t, e.ok, e.now);
      }
    } else {
      OthersKeepShut(w, e);
    }
  }

  lemma OthersKeepShut(w: World, e: Event)
    requires Sound(w) && Shut(w) && !(e.Go? && e.t in w.threads)
    ensures Shut(Step(w, e))
  {
    hide GoOn, NextEvent, Takes, AskedOnce, AnchorOk, ErrandsOk, ReceiptOk;
    var w' := Step(w, e);
    forall u | u in w'.threads ensures !CanReopen(w', w'.threads[u]) {
      if u in w.threads {
        assert !CanReopen(w, w.threads[u]);
      }
    }
  }

  lemma {:induction false} ShutForGood(w: World, events: seq<Event>)
    requires Sound(w) && Shut(w)
    ensures Sound(Run(w, events)) && Shut(Run(w, events))
    decreases |events|
  {
    hide Step, Sound, Shut;
    if events != [] {
      var before, e := Run(w, events[..|events| - 1]), events[|events| - 1];
      ShutForGood(w, events[..|events| - 1]);
      StepKeepsSound(before, e);
      StepKeepsShut(before, e);
    }
  }

  // ------------------------------------------------------------ a way out of blocked

  lemma {:induction false} RunStarts(w: World, e: Event, rest: seq<Event>)
    ensures Run(w, [e] + rest) == Run(Step(w, e), rest)
    decreases |rest|
  {
    hide Step;
    if rest == [] {
      assert [e] + rest == [e] && [e][..0] == [];
    } else {
      var init := rest[..|rest| - 1];
      RunStarts(w, e, init);
      assert ([e] + rest)[..|rest|] == [e] + init;
    }
  }

  /** How many sections a thread is away from recording. */
  function Distance(th: Thread): nat {
    match th
    case Recording(_) => 0
    case Accepted(_) => 1
    case Admitted(_) => 1
    case Waiting(_) => 2
    case Asking(_) => 3
    case Publishing(_) => 4
    case PastGate(_) => 5
    case _ => 6
  }

  /** How many sections the thread inside the gate needs to leave it. */
  function ToLeave(w: World): nat {
    if w.holder.None? || w.holder.value !in w.threads then 0
    else match w.threads[w.holder.value]
      case Leaving(_, _) => 1
      case Publishing(_) => 2
      case Failing(_) => 2
      case _ => 3
  }

  /** The next event on the way of thread `t` to its recording. */
  function Onward(w: World, t: nat): Event
    requires t in w.threads
  {
    if w.threads[t].Waiting? then Decide(t, Takes(StatusOf(w.state), Approve)) else Go(t, true, 0)
  }

  lemma RecordingReopens(w: World, t: nat)
    requires Sound(w) && w.state.receipt.Some? && t in w.threads
    requires w.threads[t].Recording? && CanReopen(w, w.threads[t])
    ensures Step(w, Go(t, true, 0)).state.elevation != Blocked
  {
    hide Record, Faithful, Visited, Extends, OneInFlight, AskedOnce, AnchorOk;
    var e := w.threads[t].errand;
    RecordOutcome(w, e, 0);
    RecordAccepts(w, e, 0);
  }

  /** One section brings a thread that can reopen the field closer to doing so. */
  lemma ComesCloser(w: World, t: nat)
    requires Sound(w) && w.state.receipt.Some? && t in w.threads
    requires CanReopen(w, w.threads[t]) && !w.threads[t].Recording?
    requires w.threads[t].PastGate? ==> w.holder.None?
    ensures var w' := Step(w, Onward(w, t));
            w'.state.receipt == w.state.receipt
            && t in w'.threads && CanReopen(w', w'.threads[t]) && Distance(w'.threads[t]) < Distance(w.threads[t])
  {
    hide Record, Gate, Reaction, DeathBlocks, Release, FailClosed, Faithful, AskedOnce, AnchorOk, ErrandsOk;
  }

  /** When nobody inside can reopen the field, the thread inside leaves without touching the receipt. */
  lemma HolderLeaves(w: World, t: nat)
    requires Sound(w) && w.state.receipt.Some? && t in w.threads && w.holder.Some?
    requires w.threads[t].PastGate? && CanReopen(w, w.threads[t])
    requires w.holder.value in w.threads && !CanReopen(w, w.threads[w.holder.value])
    ensures var w' := Step(w, Go(w.holder.value, true, 0));
            w'.state.receipt == w.state.receipt
            && t in w'.threads && w'.threads[t] == w.threads[t] && CanReopen(w', w.threads[t]) && ToLeave(w') < ToLeave(w)
  {
    hide Record, Gate, Reaction, DeathBlocks, Admit, BindRequest, Faithful, AskedOnce, AnchorOk;
  }

  /** A run that leaves blocked, from every world in which some thread can reopen the field. */
  lemma ReopeningRun(w: World, t: nat) returns (events: seq<Event>)
    requires Sound(w) && w.state.receipt.Some? && t in w.threads && CanReopen(w, w.threads[t])
    ensures Run(w, events).state.elevation != Blocked
    decreases Distance(w.threads[t]), ToLeave(w)
  {
    hide Step, Sound, CanReopen, Onward, OneInFlight;
    if w.threads[t].Recording? {
      RecordingReopens(w, t);
      RunStarts(w, Go(t, true, 0), []);
      return [Go(t, true, 0)];
    }
    var next := Onward(w, t);
    if w.threads[t].PastGate? && w.holder.Some? {
      HolderIsInside(w);
      var h := w.holder.value;
      if CanReopen(w, w.threads[h]) {
        events := ReopeningRun(w, h);
        return;
      }
      HolderLeaves(w, t);
      next := Go(h, true, 0);
    } else {
      ComesCloser(w, t);
    }
    StepKeepsSound(w, next);
    var rest := ReopeningRun(Step(w, next), t);
    RunStarts(w, next, rest);
    events := [next] + rest;
  }

  lemma HolderIsInside(w: World)
    requires Sound(w) && w.holder.Some?
    ensures w.holder.value in w.threads && Inside(w.threads[w.holder.value])
    ensures Distance(w.threads[w.holder.value]) < 5 || !CanReopen(w, w.threads[w.holder.value])
  {
    hide AskedOnce, ReceiptOk, ErrandsOk, AnchorOk;
  }

  lemma BlockedHasReceipt(w: World)
    requires Sound(w) && w.state.elevation == Blocked
    ensures w.state.receipt.Some? && w.state.id.safeToFull
  {
    hide OneInFlight, AskedOnce, ErrandsOk, AnchorOk, Faithful;
  }

  /**
    Once the state field is blocked, it is blocked in every continuation if and
    only if no thread can reopen it.
  */
  lemma FailingClosedIsFinal(w: World)
    requires Sound(w) && w.state.elevation == Blocked
    ensures (forall events :: Run(w, events).state.elevation == Blocked)
            <==> (forall t <- w.threads :: !CanReopen(w, w.threads[t]))
  {
    hide Run, Sound, CanReopen;
    BlockedHasReceipt(w);
    if t :| t in w.threads && CanReopen(w, w.threads[t]) {
      var events := ReopeningRun(w, t);
    } else {
      forall events ensures Run(w, events).state.elevation == Blocked {
        ShutForGood(w, events);
      }
    }
  }

  // ------------------------------------------------------------ answers still to come

  /** The thread has an allow to hand out that nothing can stop. */
  predicate OwesAllow(th: Thread) {
    (th.Leaving? && th.verdict in {AllowPlain, AllowSetMode}) || (th.Publishing? && th.errand.ForReady?)
  }

  ghost predicate Settled(w: World) {
    forall t <- w.threads :: !OwesAllow(w.threads[t])
  }

  /** Still settled, and no allow was handed out. */
  ghost predicate StaysSettled(w: World, w': World) {
    Settled(w') && (w'.log == w.log || exists f :: w'.log == w.log + [f] && !Allows(f))
  }

  lemma SectionStaysSettled(w: World, t: nat, ok: bool, now: nat)
    requires Sound(w) && Shut(w) && Settled(w) && !w.state.id.preauthorizedFull && t in w.threads
    ensures StaysSettled(w, GoOn(w, t, ok, now))
  {
    hide Perform, Build, Reaction, DeathBlocks, Release, Faithful, OneInFlight, AskedOnce, AnchorOk;
    if w.threads[t].Recording? && !w.threads[t].errand.ForReaction? {
      RecordAccepts(w, w.threads[t].errand, now);
    }
  }

  lemma StepStaysSettled(w: World, e: Event)
    requires Sound(w) && Shut(w) && Settled(w) && !w.state.id.preauthorizedFull
    ensures StaysSettled(w, Step(w, e))
  {
    hide GoOn, NextEvent, OneInFlight, AskedOnce, AnchorOk;
    if e.Go? && e.t in w.threads {
      SectionStaysSettled(w, e.t, e.ok, e.now);
    }
  }

  lemma {:induction false} NothingIsAllowed(w: World, events: seq<Event>, i: nat)
    requires Sound(w) && Shut(w) && Settled(w) && !w.state.id.preauthorizedFull
    ensures var w' := Run(w, events);
            Settled(w') && w'.state.id == w.state.id && w.log <= w'.log
            && (|w.log| <= i < |w'.log| ==> !Allows(w'.log[i]))
    decreases |events|
  {
    hide Step, Sound, Shut, Settled;
    if events != [] {
      var before, e := Run(w, events[..|events| - 1]), events[|events| - 1];
      NothingIsAllowed(w, events[..|events| - 1], i);
      ShutForGood(w, events[..|events| - 1]);
      StepStaysSettled(before, e);
      IdentityStays(before, e);
    }
  }

  /** A run that hands out an allow, from every world in which a thread owes one. */
  lemma AllowingRun(w: World, t: nat) returns (events: seq<Event>)
    requires t in w.threads && OwesAllow(w.threads[t])
    ensures var w' := Run(w, events); |w'.log| == |w.log| + 1 && Allows(w'.log[|w.log|])
  {
    hide Record;
    var go := Go(t, true, 0);
    if w.threads[t].Leaving? {
      events := [go];
      RunStarts(w, go, []);
    } else {
      events := [go, go];
      RunStarts(w, go, [go]);
      RunStarts(Step(w, go), go, []);
      assert [go] + [go] == events && [go] + [] == [go];
    }
  }

  /** No event of any continuation hands out an allow. */
  ghost predicate NoMoreAllows(w: World) {
    forall events, i :: |w.log| <= i < |Run(w, events).log| ==> !Allows(Run(w, events).log[i])
  }

  lemma SomeAllowIsOwed(w: World, t: nat)
    requires t in w.threads && OwesAllow(w.threads[t])
    ensures !NoMoreAllows(w)
  {
    hide Run, OwesAllow;
    var events := AllowingRun(w, t);
    var i := |w.log|;
    assert |w.log| <= i < |Run(w, events).log| && Allows(Run(w, events).log[i]);
  }

  lemma NoAllowIsOwed(w: World)
    requires Sound(w) && Shut(w) && Settled(w) && !w.state.id.preauthorizedFull
    ensures NoMoreAllows(w)
  {
    hide Run, Sound, Shut, Settled;
    forall events, i | |w.log| <= i < |Run(w, events).log| ensures !Allows(Run(w, events).log[i]) {
      NothingIsAllowed(w, events, i);
    }
  }

  /**
    Once the state field is blocked, it stays so and nothing is ever allowed
    again, if and only if no thread can reopen it and none owes an allow. (A
    transport authorised beforehand allows everything and records nothing.)
  */
  lemma NothingAllowedIff(w: World)
    requires Sound(w) && w.state.elevation == Blocked && !w.state.id.preauthorizedFull
    ensures (forall events :: Run(w, events).state.elevation == Blocked) && NoMoreAllows(w)
            <==> (forall t <- w.threads :: !CanReopen(w, w.threads[t]) && !OwesAllow(w.threads[t]))
  {
    hide Run, Sound, CanReopen, OwesAllow;
    FailingClosedIsFinal(w);
    if Shut(w) {
      if t :| t in w.threads && OwesAllow(w.threads[t]) {
        SomeAllowIsOwed(w, t);
      } else {
        NoAllowIsOwed(w);
      }
    }
  }

  // ------------------------------------------------------------ what the worker's event loop can schedule

  /** Everything but the recording of the transport's death runs on the one event loop of the worker. */
  predicate OnLoop(th: Thread) {
    !th.Dying? && !(InErrand(th) && th.errand.ForDeath?)
  }

  /** The thread has not begun, awaits the control plane, or is done: the loop may run something else. */
  predicate Resting(th: Thread) {
    th.Entered? || th.Asking? || th.Waiting? || th.Gone?
  }

  /** Nothing else on the loop stands between two awaits. */
  ghost predicate LoopIsFree(w: World, t: nat) {
    forall u <- w.threads :: u != t && OnLoop(w.threads[u]) ==> Resting(w.threads[u])
  }

  ghost predicate Schedulable(w: World, e: Event) {
    match e
    case Go(t, _, _) => t in w.threads && OnLoop(w.threads[t]) ==> LoopIsFree(w, t)
    case Decide(t, _) => LoopIsFree(w, t)
    case GiveUp(t) => LoopIsFree(w, t)
    case Observe(t, _, _, _, _) => LoopIsFree(w, t)
    case _ => true
  }

  ghost predicate ScheduledRun(w: World, events: seq<Event>)
    decreases |events|
  {
    events == []
    || (ScheduledRun(w, events[..|events| - 1]) && Schedulable(Run(w, events[..|events| - 1]), events[|events| - 1]))
  }

  /** A death is published only after it was recorded, and a blocked field is shut. */
  ghost predicate LoopOk(w: World) {
    (w.state.elevation == Blocked ==> Shut(w))
    && forall t <- w.threads ::
         (w.threads[t].Publishing? || w.threads[t].Failing?) && w.threads[t].errand.ForDeath? ==> StatusOf(w.state) == Blocked
  }

  /** What an errand records, and that its thread then publishes. */
  lemma RecordedShuts(w: World, t: nat, ok: bool, now: nat)
    requires Sound(w) && LoopOk(w) && w.state.elevation != Blocked && t in w.threads && w.threads[t].Recording?
    ensures LoopOk(GoOn(w, t, ok, now))
  {
    hide Record, Faithful, Visited, OneInFlight, AskedOnce, AnchorOk, CanReopen;
    var e := w.threads[t].errand;
    RecordFrame(w.state, CommandOf(e), RequestOf(e), ElevationIdOf(e), now);
    RecordOutcome(w, e, now);
    var w' := GoOn(w, t, ok, now);
    if w'.state.elevation == Blocked {
      BlockedReceiptShuts(w');
    }
  }

  /** A thread whose publication failed is the only one between two awaits, so nobody is past the gate. */
  lemma FailedShuts(w: World, t: nat, ok: bool, now: nat)
    requires Sound(w) && EvidenceOk(w) && LoopOk(w) && t in w.threads && w.threads[t].Failing?
    requires OnLoop(w.threads[t]) ==> LoopIsFree(w, t)
    ensures LoopOk(GoOn(w, t, ok, now))
  {
    hide Record, Faithful, Visited, AskedOnce, BeenReady;
    var w' := GoOn(w, t, ok, now);
    if w.threads[t].errand.ForDeath? {
      BlockedReceiptShuts(w');
    } else {
      assert ThreadEvidence(w, w.threads[t]);
      forall u | u in w'.threads ensures !CanReopen(w', w'.threads[u]) {
        if u != t && Inside(w.threads[u]) {
          assert w.holder == Some(u);
        }
      }
    }
  }

  lemma StepKeepsLoopOk(w: World, e: Event)
    requires Sound(w) && EvidenceOk(w) && LoopOk(w) && Schedulable(w, e)
    ensures LoopOk(Step(w, e))
  {
    hide GoOn, NextEvent, Sound, EvidenceOk, CanReopen, LoopIsFree;
    if e.Go? && e.t in w.threads && w.threads[e.t].Failing? {
      FailedShuts(w, e.t, e.ok, e.now);
    } else if e.Go? && e.t in w.threads && w.threads[e.t].Recording? && w.state.elevation != Blocked {
      RecordedShuts(w, e.t, e.ok, e.now);
    } else {
      if w.state.elevation == Blocked {
        StepKeepsShut(w, e);
      }
      if w.state.elevation != Blocked {
        OnlyErrandsBlock(w, e);
      }
      DeathsStayRecorded(w, e);
    }
  }

  /** Nothing else blocks the field. */
  lemma OnlyErrandsBlock(w: World, e: Event)
    requires w.state.elevation != Blocked
    requires e.Go? && e.t in w.threads ==> !w.threads[e.t].Failing? && !w.threads[e.t].Recording?
    ensures Step(w, e).state.elevation != Blocked
  {
    hide Record, NextEvent, Gate, Reaction, DeathBlocks;
  }

  /** A death that is being published has been recorded, and a blocked receipt stays so. */
  lemma DeathsStayRecorded(w: World, e: Event)
    requires Sound(w) && LoopOk(w)
    ensures var w' := Step(w, e);
            forall t <- w'.threads ::
              (w'.threads[t].Publishing? || w'.threads[t].Failing?) && w'.threads[t].errand.ForDeath? ==> StatusOf(w'.state) == Blocked
  {
    hide GoOn, NextEvent, Faithful, Visited, OneInFlight, AskedOnce, AnchorOk, ReceiptOk, CanReopen;
    var w' := Step(w, e);
    StepGrows(w, e);
    forall t | t in w'.threads && (w'.threads[t].Publishing? || w'.threads[t].Failing?) && w'.threads[t].errand.ForDeath?
      ensures StatusOf(w'.state) == Blocked
    {
      if !(t in w.threads && w'.threads[t] == w.threads[t]) {
        DeathIsRecordedFirst(w, e, t);
      }
    }
  }

  /** A death that is about to be published or failed has just been recorded, or was being published before. */
  lemma DeathMoves(w: World, e: Event, t: nat)
    requires t in Step(w, e).threads && !(t in w.threads && Step(w, e).threads[t] == w.threads[t])
    requires var th := Step(w, e).threads[t]; (th.Publishing? || th.Failing?) && th.errand.ForDeath?
    ensures e.Go? && t in w.threads && InErrand(w.threads[t]) && w.threads[t].errand.ForDeath?
    ensures if w.threads[t].Recording?
            then var (s', outcome) := Record(w.state, CommandOf(ForDeath), RequestOf(ForDeath), ElevationIdOf(ForDeath), e.now);
                 outcome.Ok? && Step(w, e).state == s'
            else w.threads[t].Publishing? && Step(w, e).state == w.state
  {
    hide Record, NextEvent, Gate, Reaction, DeathBlocks, Admit, BindRequest, Release, FailClosed;
  }

  lemma DeathIsRecordedFirst(w: World, e: Event, t: nat)
    requires Sound(w) && LoopOk(w)
    requires t in Step(w, e).threads && !(t in w.threads && Step(w, e).threads[t] == w.threads[t])
    requires var th := Step(w, e).threads[t]; (th.Publishing? || th.Failing?) && th.errand.ForDeath?
    ensures StatusOf(Step(w, e).state) == Blocked
  {
    hide Record, Step, Faithful, Visited, OneInFlight, AskedOnce, AnchorOk, Shut, Extends;
    DeathMoves(w, e, t);
    if w.threads[t].Recording? {
      RecordOutcome(w, ForDeath, e.now);
    }
  }

  lemma {:induction false} ScheduledIsLoopOk(id: Identity, events: seq<Event>)
    requires ScheduledRun(Start(id), events)
    ensures LoopOk(Run(Start(id), events))
    decreases |events|
  {
    hide Step, Sound, EvidenceOk, LoopOk, Schedulable;
    if events == [] {
      StartIsLoopOk(id);
    } else {
      ScheduledIsLoopOk(id, events[..|events| - 1]);
      EveryRunIsSound(id, events[..|events| - 1]);
      StepKeepsLoopOk(Run(Start(id), events[..|events| - 1]), events[|events| - 1]);
    }
  }

  lemma StartIsLoopOk(id: Identity)
    ensures LoopOk(Start(id))
  {
  }

  /**
    On the event loop blocked is final: in every run it can schedule, with the
    death of the transport coming in at any point, the state field never
    leaves blocked.
  */
  lemma {:induction false} BlockedIsFinalOnTheLoop(id: Identity, events: seq<Event>, more: seq<Event>)
    requires ScheduledRun(Start(id), events + more)
    requires Run(Start(id), events).state.elevation == Blocked
    ensures Run(Start(id), events + more).state.elevation == Blocked
    decreases |more|
  {
    hide Step, Sound, EvidenceOk, Schedulable;
    if more == [] {
      assert events + more == events;
    } else {
      var init := more[..|more| - 1];
      assert (events + more)[..|events + more| - 1] == events + init;
      BlockedIsFinalOnTheLoop(id, events, init);
      ScheduledIsLoopOk(id, events + init);
      EveryRunIsSound(id, events + init);
      StepKeepsShut(Run(Start(id), events + init), more[|more| - 1]);
    }
  }

  // ------------------------------------------------------------ what the event loop rules out

  /** Two callbacks are past their reading of the field at once; the first records its question and cannot publish it. */
  function TwoPastTheGate(a: Call, b: Call): seq<Event> {
    [Arrive(0, a), Go(0, true, 0), Arrive(1, b), Go(1, true, 0)]
  }

  const FIRST_FAILS: seq<Event> :=
    [Go(0, true, 0), Go(0, true, 0), Go(0, true, 0), Go(0, false, 0), Go(0, true, 0)]

  const SECOND_RECORDS: seq<Event> :=
    [Go(0, true, 0), Go(1, true, 0), Go(1, true, 0), Go(1, true, 0)]

  lemma {:induction false} RunAppends(w: World, events: seq<Event>, more: seq<Event>)
    ensures Run(w, events + more) == Run(Run(w, events), more)
    decreases |more|
  {
    hide Step;
    if more == [] {
      assert events + more == events;
    } else {
      assert (events + more)[..|events + more| - 1] == events + more[..|more| - 1];
      RunAppends(w, events, more[..|more| - 1]);
    }
  }

  lemma RunOfFour(w: World, e0: Event, e1: Event, e2: Event, e3: Event)
    ensures Run(w, [e0, e1, e2, e3]) == Step(Step(Step(Step(w, e0), e1), e2), e3)
  {
    hide Step;
    RunStarts(w, e0, [e1, e2, e3]);
    RunStarts(Step(w, e0), e1, [e2, e3]);
    RunStarts(Step(Step(w, e0), e1), e2, [e3]);
    RunStarts(Step(Step(Step(w, e0), e1), e2), e3, []);
    assert [e0, e1, e2, e3] == [e0] + [e1, e2, e3] && [e1, e2, e3] == [e1] + [e2, e3];
    assert [e2, e3] == [e2] + [e3] && [e3] == [e3] + [];
  }

  /** The first receipt of this call can be built. */
  predicate Buildable(id: Identity, call: Call) {
    Build(call.elevationId, BindingOf(id, call.request), id.pathPlanDigest, id.profileDigest, 0).Ok?
  }

  /** The world after the two callbacks have read the field. */
  function BothPast(id: Identity, a: Call, b: Call): World {
    World(Fresh(id), map[0 := PastGate(a), 1 := PastGate(b)], [], None)
  }

  lemma BothPassTheGate(id: Identity, a: Call, b: Call)
    requires id.safeToFull && !id.preauthorizedFull
    ensures Run(Start(id), TwoPastTheGate(a, b)) == BothPast(id, a, b)
  {
    hide Run, Record;
    RunOfFour(Start(id), Arrive(0, a), Go(0, true, 0), Arrive(1, b), Go(1, true, 0));
    var w := Step(Step(Step(Start(id), Arrive(0, a)), Go(0, true, 0)), Arrive(1, b));
    assert w == World(Fresh(id), map[0 := PastGate(a), 1 := Entered(b)], [], None);
  }

  const GO0 := Go(0, true, 0)
  const GO1 := Go(1, true, 0)

  /** The first question is recorded from a fresh state. */
  lemma FirstQuestionIsRecorded(s: State, call: Call)
    requires s.receipt == None && Buildable(s.id, call)
    ensures var (s', outcome) := Record(s, AskHuman, call.request, call.elevationId, 0);
            outcome.Ok? && s'.elevation == Pending && StatusOf(s') == Pending && s'.receipt.Some? && Faithful(s'.receipt.value)
            && s' == s.(receipt := s'.receipt, elevation := s'.elevation)
  {
    hide Perform, Build, Faithful;
    var built := Build(call.elevationId, BindingOf(s.id, call.request), s.id.pathPlanDigest, s.id.profileDigest, 0);
    BuiltIsFaithful(call.elevationId, BindingOf(s.id, call.request), s.id.pathPlanDigest, s.id.profileDigest, 0);
    CommandAcceptedIffEdge(built.value, AskHuman, 0);
    CommandTarget(built.value, AskHuman, 0);
  }

  /** The first callback is admitted and on its way to record its question. */
  lemma FirstIsAdmitted(id: Identity, a: Call, b: Call)
    requires id.safeToFull && a.Id() != ""
    ensures var w := Step(Step(BothPast(id, a, b), GO0), GO0);
            w.threads == map[0 := Recording(ForPending(a)), 1 := PastGate(b)] && w.holder == Some(0)
            && w.state == Fresh(id).(seen := {a.Id()}, pending := {a.Id()}, active := a.Id(), activeRequest := a.request.requestId)
  {
    hide Record;
    var w := Step(BothPast(id, a, b), GO0);
    assert w.threads == map[0 := Admitted(a), 1 := PastGate(b)];
  }

  /** What is left of a question that was recorded and could not be published. */
  lemma QuestionIsNotPublished(w: World, a: Call, b: Call)
    requires w.threads == map[0 := Recording(ForPending(a)), 1 := PastGate(b)]
    requires w.state.receipt == None && Buildable(w.state.id, a)
    ensures var w' := Step(Step(Step(w, GO0), Go(0, false, 0)), GO0);
            w'.threads == map[0 := Leaving(a, Raised), 1 := PastGate(b)] && w'.holder == w.holder
            && w'.state.receipt.Some? && Faithful(w'.state.receipt.value) && StatusOf(w'.state) == Pending
            && w'.state == w.state.(receipt := w'.state.receipt, elevation := Blocked)
  {
    hide Record, Buildable, Faithful;
    FirstQuestionIsRecorded(w.state, a);
    var w1 := Step(w, GO0);
    assert w1.threads == map[0 := Publishing(ForPending(a)), 1 := PastGate(b)];
  }

  lemma FirstCannotPublish(id: Identity, a: Call, b: Call)
    requires id.safeToFull && a.Id() != "" && Buildable(id, a)
    ensures var w := Run(BothPast(id, a, b), FIRST_FAILS);
            w.threads == map[0 := Leaving(a, Raised), 1 := PastGate(b)] && w.holder == Some(0)
            && w.state.id == id && w.state.elevation == Blocked && StatusOf(w.state) == Pending
            && w.state.receipt.Some? && Faithful(w.state.receipt.value)
            && w.state.seen == {a.Id()} && w.state.pending == {a.Id()} && w.state.active == a.Id()
  {
    hide Run, Step, Buildable, Faithful;
    var w0 := BothPast(id, a, b);
    FirstIsAdmitted(id, a, b);
    QuestionIsNotPublished(Step(Step(w0, GO0), GO0), a, b);
    var four := [GO0, GO0, GO0, Go(0, false, 0)];
    RunOfFour(w0, GO0, GO0, GO0, Go(0, false, 0));
    RunAppends(w0, four, [GO0]);
    RunStarts(Run(w0, four), GO0, []);
    RunOfNothing(Step(Run(w0, four), GO0));
    assert [GO0] + [] == [GO0] && FIRST_FAILS == four + [GO0];
  }

  lemma RunOfNothing(w: World)
    ensures Run(w, []) == w
  {
  }

  lemma SecondReopens(w: World, a: Call, b: Call)
    requires w.threads == map[0 := Leaving(a, Raised), 1 := PastGate(b)] && w.holder == Some(0)
    requires w.state.id.safeToFull && w.state.elevation == Blocked && StatusOf(w.state) == Pending
    requires w.state.receipt.Some? && Faithful(w.state.receipt.value)
    requires w.state.seen == {a.Id()} && w.state.pending == {a.Id()} && w.state.active == a.Id()
    requires b.Id() != "" && b.Id() != a.Id()
    ensures Run(w, SECOND_RECORDS).state.elevation == Pending
  {
    hide Run, Perform, Build, Faithful;
    var w1 := Step(w, GO0);
    var w2 := Step(w1, GO1);
    assert w2.threads == map[0 := Gone, 1 := Admitted(b)];
    var w3 := Step(w2, GO1);
    assert w3.threads == map[0 := Gone, 1 := Recording(ForPending(b))];
    CommandAcceptedIffEdge(w.state.receipt.value, AskHuman, 0);
    CommandTarget(w.state.receipt.value, AskHuman, 0);
    RunOfFour(w, GO0, GO1, GO1, GO1);
  }

  /**
    Without the event loop blocked is not final: two callbacks past their
    reading of the field at once, the first of which records its question and
    fails to publish it, leave the field blocked, and the second then shows it
    pending. The loop never schedules this run, because between the reading and
    the recording a callback awaits nothing.
  */
  lemma TwoPastTheGateReopen(id: Identity, a: Call, b: Call)
    requires id.safeToFull && !id.preauthorizedFull && a.Id() != "" && b.Id() != "" && b.Id() != a.Id() && Buildable(id, a)
    ensures var events := TwoPastTheGate(a, b) + FIRST_FAILS;
            Run(Start(id), events).state.elevation == Blocked
            && Run(Start(id), events + SECOND_RECORDS).state.elevation == Pending
            && !ScheduledRun(Start(id), events + SECOND_RECORDS)
  {
    hide Run, Buildable, ScheduledRun, Faithful;
    var events := TwoPastTheGate(a, b) + FIRST_FAILS;
    BothPassTheGate(id, a, b);
    RunAppends(Start(id), TwoPastTheGate(a, b), FIRST_FAILS);
    FirstCannotPublish(id, a, b);
    RunAppends(Start(id), events, SECOND_RECORDS);
    SecondReopens(Run(Start(id), events), a, b);
    if ScheduledRun(Start(id), events + SECOND_RECORDS) {
      BlockedIsFinalOnTheLoop(id, events, SECOND_RECORDS);
    }
  }

  // ------------------------------------------------------------ such callbacks exist

  function Zeros(n: nat): (s: string)
    ensures |s| == n && forall c <- s :: c == '0'
  {
    if n == 0 then "" else "0" + Zeros(n - 1)
  }

  const DIGEST := "sha256:" + Zeros(64)
  const FINGERPRINT := "fp-" + Zeros(40)
  const SAFE_RUN := Identity(false, true, "task", "run", "session", DIGEST, DIGEST)

  function CallNamed(toolUseId: string): Call {
    Call(Request("request", toolUseId, FINGERPRINT, DIGEST, FINGERPRINT, "read"), "elevation")
  }

  /** The overtaking with everything written out. */
  lemma FailingClosedCanBeOvertaken()
    ensures var events := TwoPastTheGate(CallNamed("first"), CallNamed("second")) + FIRST_FAILS;
            Run(Start(SAFE_RUN), events).state.elevation == Blocked
            && Run(Start(SAFE_RUN), events + SECOND_RECORDS).state.elevation == Pending
            && !ScheduledRun(Start(SAFE_RUN), events + SECOND_RECORDS)
  {
    hide Run, Buildable, ScheduledRun;
    FirstIsBuildable();
    assert "first" != "second" by { assert "first"[0] != "second"[0]; }
    TwoPastTheGateReopen(SAFE_RUN, CallNamed("first"), CallNamed("second"));
  }

  lemma DigestsAreDigests()
    ensures IsDigest(DIGEST) && IsFingerprint(FINGERPRINT)
    ensures Strip(DIGEST) == DIGEST && Strip(FINGERPRINT) == FINGERPRINT
  {
    hide Strip, Zeros;
    assert DIGEST[7..] == Zeros(64) && DIGEST[..7] == "sha256:";
    assert FINGERPRINT[3..] == Zeros(40) && FINGERPRINT[..3] == "fp-";
    EndsInAZero("sha256:", 64);
    EndsInAZero("fp-", 40);
  }

  lemma EndsInAZero(front: string, n: nat)
    requires front != "" && !IsSpace(front[0]) && n > 0
    ensures Strip(front + Zeros(n)) == front + Zeros(n)
  {
    hide Strip, Zeros;
    assert Zeros(n)[n - 1] in Zeros(n);
    StripIdentity(front + Zeros(n));
  }

  lemma LettersAreIdentifiers(s: string)
    requires 0 < |s| <= 512 && forall c <- s :: 'a' <= c <= 'z'
    ensures IsIdentifier(s) && Strip(s) == s
  {
    hide Strip;
    assert s[0] in s && s[|s| - 1] in s;
    StripIdentity(s);
  }

  /** What a first receipt asks of the facts it binds. */
  lemma PlainCallIsBuildable(id: Identity, call: Call)
    requires IsIdentifier(id.taskId) && IsIdentifier(id.runId) && IsIdentifier(id.sessionId) && IsIdentifier(call.elevationId)
    requires IsIdentifier(call.request.requestId) && IsIdentifier(call.request.toolUseId) && IsIdentifier(call.request.operation)
    requires IsFingerprint(call.request.requestFingerprint) && IsFingerprint(call.request.actionFingerprint)
    requires IsDigest(call.request.inputFingerprint) && IsDigest(id.pathPlanDigest) && IsDigest(id.profileDigest)
    requires StripBinding(BindingOf(id, call.request)) == BindingOf(id, call.request)
    requires Strip(id.pathPlanDigest) == id.pathPlanDigest && Strip(id.profileDigest) == id.profileDigest
    ensures Buildable(id, call)
  {
    hide Strip, IsDigest, IsFingerprint, IsIdentifier;
  }

  lemma FirstIsBuildable()
    ensures Buildable(SAFE_RUN, CallNamed("first"))
  {
    hide Strip, IsDigest, IsFingerprint, IsIdentifier, Zeros, Buildable;
    DigestsAreDigests();
    LettersAreIdentifiers("task");
    LettersAreIdentifiers("run");
    LettersAreIdentifiers("session");
    LettersAreIdentifiers("request");
    LettersAreIdentifiers("first");
    LettersAreIdentifiers("read");
    LettersAreIdentifiers("elevation");
    PlainCallIsBuildable(SAFE_RUN, CallNamed("first"));
  }
}
