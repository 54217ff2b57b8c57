/**
 The wait of a worker for its checkpointer: it polls the backlog and never looks at the order to stop, so
 that it ends only if the checkpointer can still come to a pass.
 */
module CheckpointWait {
  import opened Options
  import opened WorkerThreads

  // ------------------------------------------------------------------------------------------
  // When the wait can end
  // ------------------------------------------------------------------------------------------

  /** The worker waits for the checkpointer. */
  predicate Waits(s: State) {
    Shaped(s) && s.kinds == [Worker, Checkpointer] && s.workers[0].pc == Awaiting
  }

  /** The checkpointer can come to a pass: it is on its way to one, it has been signalled since its last
      one, or it may wake up by itself. An error in its last pass ends the thread. */
  predicate CanPass(l: Local, spurious: bool) {
    match l.pc
    case Starting => true
    case Top => true
    case Pass => true
    case Woken => true
    case Clearing => true
    case Relock(ok) => ok && (spurious || l.slot.bDoWork)
    case Judge(ok) => ok && (spurious || l.slot.bDoWork)
    case Waiting => spurious
    case _ => false
  }

  /** The wait of worker `i` can end. */
  predicate Releasable(s: State, spurious: bool)
    requires Waits(s)
  {
    !s.backlog || CanPass(s.workers[1], spurious)
  }

  /** lsm_info does not fail for the worker that waits, and the checkpointer wakes up by itself only if
      that is allowed. */
  predicate Orderly(e: Event, spurious: bool) {
    !(e.WorkerSteps? && e.i == 0 && !e.r.ok) && (e == SpuriousWakeup(1) ==> spurious)
  }

  predicate AllOrderly(events: seq<Event>, spurious: bool) {
    forall k {:trigger events[k]} :: 0 <= k < |events| ==> Orderly(events[k], spurious)
  }

  /** Some run from `s` takes the worker out of its wait. */
  ghost predicate Releases(s: State, events: seq<Event>, spurious: bool)
    requires Shaped(s)
  {
    AllOrderly(events, spurious) && Run(s, events).Some? && !Waits(Run(s, events).value)
  }

  // ------------------------------------------------------------------------------------------
  // It cannot end otherwise
  // ------------------------------------------------------------------------------------------

  predicate Hangs(s: State, spurious: bool) {
    Inv(s) && Waits(s) && !Releasable(s, spurious)
  }

  /** While the worker waits, nobody but the checkpointer itself touches what the checkpointer shares. */
  lemma CheckpointerAlone(s: State)
    requires Inv(s) && Waits(s)
    ensures s.workers[1].slot.pWorker && !Concerns(s.client, 1)
    ensures s.workers[1].slot.owner == Free || s.workers[1].slot.owner == ByWorker
    ensures s.workers[1].slot.owner == ByWorker <==> WorkerHolds(s.workers[1].pc)
    ensures PcOk(s.workers[1].pc, Checkpointer)
  {
    assert WorkerOk(s, 0) && WorkerOk(s, 1);
  }

  lemma CheckpointerStaysAway(l: Local, r: Result, backlog: bool, spurious: bool)
    requires !CanPass(l, spurious) && l.slot.pWorker && PcOk(l.pc, Checkpointer)
    requires OwnNext(l, Checkpointer, r, backlog).Some?
    ensures !CanPass(OwnNext(l, Checkpointer, r, backlog).value, spurious)
    ensures l.pc != Pass
  {
  }

  /** What stays the same: the wait itself, and a client that waits for the worker to exit. */
  predicate Unmoved(s: State, s': State)
    requires Waits(s) && Waits(s')
  {
    && s'.workers[0].slot.served == s.workers[0].slot.served
    && (s.client == Stopping(0, Join) ==> s'.client == Stopping(0, Join))
  }

  lemma ClientHangsOn(s: State, spurious: bool)
    requires Hangs(s, spurious) && ClientNext(s).Some?
    ensures Hangs(ClientNext(s).value, spurious) && Unmoved(s, ClientNext(s).value)
  {
    CheckpointerAlone(s);
    ClientStepInv(s);
  }

  lemma WorkerHangsOn(s: State, i: nat, r: Result, spurious: bool)
    requires Hangs(s, spurious) && i < 2 && Orderly(WorkerSteps(i, r), spurious) && WorkerNext(s, i, r).Some?
    ensures Hangs(WorkerNext(s, i, r).value, spurious) && Unmoved(s, WorkerNext(s, i, r).value)
  {
    CheckpointerAlone(s);
    WorkerInv(s, i, r);
    CheckpointerStaysAway(s.workers[1], r, s.backlog, spurious);
  }

  lemma HangsOn(s: State, e: Event, spurious: bool)
    requires Hangs(s, spurious) && Orderly(e, spurious) && Next(s, e).Some?
    ensures Hangs(Next(s, e).value, spurious) && Unmoved(s, Next(s, e).value)
  {
    match e
    case ClientSteps => ClientHangsOn(s, spurious);
    case WorkerSteps(i, r) => WorkerHangsOn(s, i, r, spurious);
    case _ => NextInv(s, e);
  }

  lemma {:induction false} HangsForEver(s: State, events: seq<Event>, spurious: bool)
    requires Hangs(s, spurious) && AllOrderly(events, spurious) && Run(s, events).Some?
    ensures Hangs(Run(s, events).value, spurious) && Unmoved(s, Run(s, events).value)
  {
    if events != [] {
      var before := events[..|events| - 1];
      HangsForEver(s, before, spurious);
      HangsOn(Run(s, before).value, events[|events| - 1], spurious);
    }
  }

  // ------------------------------------------------------------------------------------------
  // It can end in these cases
  // ------------------------------------------------------------------------------------------

  const GOOD := Result(true, false, false)

  /** How many steps the checkpointer is away from its pass. */
  function Ahead(pc: Pc): nat {
    match pc
    case Pass => 0
    case Top => 1
    case Clearing => 2
    case Starting => 2
    case Woken => 3
    case Waiting => 4
    case Judge(_) => 5
    case _ => 6
  }

  /** The step that takes it there. */
  function TowardsPass(pc: Pc): Event {
    if pc == Waiting then SpuriousWakeup(1) else WorkerSteps(1, GOOD)
  }

  lemma CheckpointerApproaches(l: Local, backlog: bool, spurious: bool)
    requires CanPass(l, spurious) && l.slot.pWorker && l.pc != Pass && l.pc != Waiting
    requires l.slot.owner == Free || l.slot.owner == ByWorker
    requires l.slot.owner == ByWorker <==> WorkerHolds(l.pc)
    ensures var l' := OwnNext(l, Checkpointer, GOOD, backlog);
            l'.Some? && CanPass(l'.value, spurious) && Ahead(l'.value.pc) < Ahead(l.pc)
  {
  }

  lemma ApproachStep(s: State, spurious: bool)
    requires Inv(s) && Waits(s) && CanPass(s.workers[1], spurious) && s.workers[1].pc != Pass
    ensures var s' := Next(s, TowardsPass(s.workers[1].pc));
            && s'.Some? && Inv(s'.value) && Waits(s'.value) && CanPass(s'.value.workers[1], spurious)
            && Ahead(s'.value.workers[1].pc) < Ahead(s.workers[1].pc)
  {
    CheckpointerAlone(s);
    if s.workers[1].pc != Waiting {
      CheckpointerApproaches(s.workers[1], s.backlog, spurious);
    }
    NextInv(s, TowardsPass(s.workers[1].pc));
  }

  lemma RunStep(s: State, events: seq<Event>, e: Event)
    requires Shaped(s) && Run(s, events).Some?
    ensures Run(s, events + [e]) == Next(Run(s, events).value, e)
  {
    assert (events + [e])[..|events|] == events;
  }

  /** A successful checkpoint, and then the worker's own step. */
  lemma Released(s: State, events: seq<Event>, spurious: bool)
    requires Shaped(s) && AllOrderly(events, spurious) && Run(s, events).Some?
    requires var s' := Run(s, events).value; Waits(s') && !s'.backlog
    ensures Releases(s, events + [WorkerSteps(0, GOOD)], spurious)
  {
    RunStep(s, events, WorkerSteps(0, GOOD));
  }

  /** The worker waits and the checkpointer can come to a pass. */
  predicate Near(s: State, spurious: bool) {
    Inv(s) && Waits(s) && CanPass(s.workers[1], spurious)
  }

  lemma CheckpointReleases(s: State, events: seq<Event>, spurious: bool)
    requires Shaped(s) && AllOrderly(events, spurious) && Run(s, events).Some?
    requires var s' := Run(s, events).value; Waits(s') && s'.workers[1].pc == Pass
    ensures Releases(s, events + [WorkerSteps(1, GOOD)] + [WorkerSteps(0, GOOD)], spurious)
  {
    RunStep(s, events, WorkerSteps(1, GOOD));
    Released(s, events + [WorkerSteps(1, GOOD)], spurious);
  }

  lemma OrderlyStep(s: State, events: seq<Event>, spurious: bool)
    requires Shaped(s) && AllOrderly(events, spurious) && Run(s, events).Some?
    requires var s' := Run(s, events).value; Near(s', spurious) && s'.workers[1].pc != Pass
    ensures var s' := Run(s, events).value;
            var more := events + [TowardsPass(s'.workers[1].pc)];
            && AllOrderly(more, spurious) && Run(s, more).Some? && Near(Run(s, more).value, spurious)
            && Ahead(Run(s, more).value.workers[1].pc) < Ahead(s'.workers[1].pc)
  {
    var s' := Run(s, events).value;
    ApproachStep(s', spurious);
    RunStep(s, events, TowardsPass(s'.workers[1].pc));
  }

  lemma {:induction false} Approach(s: State, events: seq<Event>, spurious: bool) returns (more: seq<Event>)
    requires Shaped(s) && AllOrderly(events, spurious) && Run(s, events).Some? && Near(Run(s, events).value, spurious)
    ensures Releases(s, more, spurious)
    decreases Ahead(Run(s, events).value.workers[1].pc)
  {
    var pc := Run(s, events).value.workers[1].pc;
    if pc == Pass {
      CheckpointReleases(s, events, spurious);
      more := events + [WorkerSteps(1, GOOD)] + [WorkerSteps(0, GOOD)];
    } else {
      OrderlyStep(s, events, spurious);
      more := Approach(s, events + [TowardsPass(pc)], spurious);
    }
  }

  /** From every state that can be reached: a worker that waits for the checkpointer can still get out of
      the wait, without an error of lsm_info, exactly when there is no backlog or the checkpointer can
      come to a pass. */
  lemma WaitEndsIff(full: bool, past: seq<Event>, spurious: bool)
    requires Run(Start([Worker, Checkpointer], full), past).Some?
    requires Waits(Run(Start([Worker, Checkpointer], full), past).value)
    ensures var s := Run(Start([Worker, Checkpointer], full), past).value;
            (exists events :: Releases(s, events, spurious)) <==> Releasable(s, spurious)
  {
    var s := Run(Start([Worker, Checkpointer], full), past).value;
    RunInv([Worker, Checkpointer], full, past);
    if !s.backlog {
      Released(s, [], spurious);
    } else if Releasable(s, spurious) {
      var events := Approach(s, [], spurious);
    } else if events :| Releases(s, events, spurious) {
      HangsForEver(s, events, spurious);
    }
  }

  /** Otherwise no run answers what the worker has been asked for, and a client that joins it never comes
      back. */
  lemma NeverAnswered(full: bool, past: seq<Event>, events: seq<Event>, spurious: bool)
    requires Run(Start([Worker, Checkpointer], full), past).Some?
    requires var s := Run(Start([Worker, Checkpointer], full), past).value;
             && Waits(s) && !Releasable(s, spurious)
             && AllOrderly(events, spurious) && Run(s, events).Some?
    ensures var s := Run(Start([Worker, Checkpointer], full), past).value;
            var s' := Run(s, events).value;
            && Waits(s') && s'.backlog
            && (!Answered(s.workers[0], CallOn(s.workers[0])) ==> !Answered(s'.workers[0], CallOn(s.workers[0])))
            && (s.client == Stopping(0, Join) ==> s'.client == Stopping(0, Join))
  {
    RunInv([Worker, Checkpointer], full, past);
    HangsForEver(Run(Start([Worker, Checkpointer], full), past).value, events, spurious);
  }

  // ------------------------------------------------------------------------------------------
  // Such states are reached
  // ------------------------------------------------------------------------------------------

  const BOTH := [Worker, Checkpointer]
  const ERROR := Result(false, false, false)
  const WRITES := Result(true, true, true)
  const BUSY := Result(true, false, true)

  function Two(a: Local, b: Local, c: ClientPc, backlog: bool): State {
    State(BOTH, [a, b], c, backlog)
  }

  /** A run from the start leads to this state. */
  predicate LeadsTo(events: seq<Event>, s: State) {
    Run(Start(BOTH, false), events) == Some(s)
  }

  lemma OneMore(events: seq<Event>, s: State, e: Event)
    requires LeadsTo(events, s) && Next(s, e).Some?
    ensures LeadsTo(events + [e], Next(s, e).value)
  {
    RunStep(Start(BOTH, false), events, e);
  }

  /** One more step of the checkpointer. */
  lemma SecondSteps(events: seq<Event>, a: Local, b: Local, c: ClientPc, full: bool, r: Result)
    returns (more: seq<Event>, b': Local)
    requires LeadsTo(events, Two(a, b, c, full)) && !b.pc.Raising? && OwnNext(b, Checkpointer, r, full).Some?
    ensures OwnNext(b, Checkpointer, r, full) == Some(b')
    ensures LeadsTo(more, Two(a, b', c, BacklogAfter(full, Checkpointer, b.pc, r)))
  {
    b' := OwnNext(b, Checkpointer, r, full).value;
    more := events + [WorkerSteps(1, r)];
    OneMore(events, Two(a, b, c, full), WorkerSteps(1, r));
    assert [a, b][1 := b'] == [a, b'];
  }

  /** One more step of the worker. */
  lemma FirstSteps(events: seq<Event>, a: Local, b: Local, c: ClientPc, full: bool, r: Result)
    returns (more: seq<Event>, a': Local)
    requires LeadsTo(events, Two(a, b, c, full)) && !a.pc.Raising? && OwnNext(a, Worker, r, full).Some?
    ensures OwnNext(a, Worker, r, full) == Some(a')
    ensures LeadsTo(more, Two(a', b, c, BacklogAfter(full, Worker, a.pc, r)))
  {
    a' := OwnNext(a, Worker, r, full).value;
    more := events + [WorkerSteps(0, r)];
    OneMore(events, Two(a, b, c, full), WorkerSteps(0, r));
    assert [a, b][0 := a'] == [a', b];
  }

  /** One more step of the worker in signalling the checkpointer. */
  lemma FirstRaises(events: seq<Event>, a: Local, b: Local, c: ClientPc, full: bool)
    returns (more: seq<Event>, a': Local, b': Local)
    requires LeadsTo(events, Two(a, b, c, full)) && a.pc.Raising? && SignalOn(b, a.pc.stage, ByRaiser).Some?
    ensures a' == a.(pc := AfterRaise(a.pc.stage, a.pc.ok)) && SignalOn(b, a.pc.stage, ByRaiser) == Some(b')
    ensures LeadsTo(more, Two(a', b', c, full))
  {
    a', b' := a.(pc := AfterRaise(a.pc.stage, a.pc.ok)), SignalOn(b, a.pc.stage, ByRaiser).value;
    more := events + [WorkerSteps(0, GOOD)];
    OneMore(events, Two(a, b, c, full), WorkerSteps(0, GOOD));
  }

  /** One more step of the client in stopping the worker. */
  lemma ClientStops(events: seq<Event>, a: Local, b: Local, stage: Stage, full: bool)
    returns (more: seq<Event>, a': Local, c': ClientPc)
    requires LeadsTo(events, Two(a, b, Stopping(0, stage), full)) && StopOn(a, stage).Some?
    ensures StopOn(a, stage) == Some(a') && c' == AfterStop(2, 0, stage, a.slot.pWorker)
    ensures LeadsTo(more, Two(a', b, c', full))
  {
    a', c' := StopOn(a, stage).value, AfterStop(2, 0, stage, a.slot.pWorker);
    more := events + [ClientSteps];
    OneMore(events, Two(a, b, Stopping(0, stage), full), ClientSteps);
    assert [a, b][0 := a'] == [a', b];
  }

  const DEAD := Local(Slot(Free, false, true, true, true, 0, 0), Exited)

  lemma CheckpointFails() returns (events: seq<Event>)
    ensures LeadsTo(events, Two(FRESH, FRESH.(pc := Relock(false)), Idle, false))
  {
    assert Start(BOTH, false).workers == [FRESH, FRESH];
    var b;
    events, b := SecondSteps([], FRESH, FRESH, Idle, false, GOOD);
    events, b := SecondSteps(events, FRESH, b, Idle, false, GOOD);
    events, b := SecondSteps(events, FRESH, b, Idle, false, ERROR);
  }

  lemma CheckpointerLeaves(events: seq<Event>) returns (more: seq<Event>)
    requires LeadsTo(events, Two(FRESH, FRESH.(pc := Relock(false)), Idle, false))
    ensures LeadsTo(more, Two(FRESH, DEAD, Idle, false))
  {
    var b;
    more, b := SecondSteps(events, FRESH, FRESH.(pc := Relock(false)), Idle, false, GOOD);
    more, b := SecondSteps(more, FRESH, b, Idle, false, GOOD);
    more, b := SecondSteps(more, FRESH, b, Idle, false, GOOD);
  }

  /** The first pass of the worker writes, and leaves a backlog. */
  lemma WorkerWrites(events: seq<Event>, l: Local) returns (more: seq<Event>)
    requires LeadsTo(events, Two(FRESH, l, Idle, false))
    ensures LeadsTo(more, Two(FRESH.(pc := Raising(Lock, true)), l, Idle, true))
  {
    var a;
    more, a := FirstSteps(events, FRESH, l, Idle, false, GOOD);
    more, a := FirstSteps(more, a, l, Idle, false, GOOD);
    more, a := FirstSteps(more, a, l, Idle, false, GOOD);
    more, a := FirstSteps(more, a, l, Idle, false, WRITES);
  }

  /** What the checkpointer shares after one more signal. */
  function Signalled(l: Local): Local {
    l.(slot := l.slot.(bDoWork := true, signals := l.slot.signals + 1))
  }

  lemma WorkerSignals(events: seq<Event>, l: Local) returns (more: seq<Event>)
    requires LeadsTo(events, Two(FRESH.(pc := Raising(Lock, true)), l, Idle, true)) && l.slot.owner == Free
    ensures var l' := Signalled(l);
            LeadsTo(more, Two(FRESH.(pc := Raising(Wake, true)), l'.(slot := l'.slot.(owner := ByRaiser)), Idle, true))
  {
    var a, b;
    more, a, b := FirstRaises(events, FRESH.(pc := Raising(Lock, true)), l, Idle, true);
    more, a, b := FirstRaises(more, a, b, Idle, true);
  }

  /** The worker signals the checkpointer and waits for it. */
  lemma WorkerWaits(events: seq<Event>, l: Local) returns (more: seq<Event>)
    requires LeadsTo(events, Two(FRESH.(pc := Raising(Lock, true)), l, Idle, true))
    requires l.slot.owner == Free && l.pc != Waiting
    ensures LeadsTo(more, Two(FRESH.(pc := Awaiting), Signalled(l), Idle, true))
  {
    more := WorkerSignals(events, l);
    var a, b := FRESH.(pc := Raising(Wake, true)), Signalled(l);
    more, a, b := FirstRaises(more, a, b.(slot := b.slot.(owner := ByRaiser)), Idle, true);
    more, a, b := FirstRaises(more, a, b, Idle, true);
    more, a := FirstSteps(more, a, b, Idle, true, GOOD);
  }

  /** The client tells the worker to stop and joins it. */
  lemma ClientJoins(events: seq<Event>, l: Local) returns (more: seq<Event>)
    requires LeadsTo(events, Two(FRESH.(pc := Awaiting), l, Idle, true))
    ensures LeadsTo(more, Two(Local(FRESH.slot.(pWorker := false), Awaiting), l, Stopping(0, Join), true))
  {
    var a, c := FRESH.(pc := Awaiting), Stopping(0, Check);
    OneMore(events, Two(a, l, Idle, true), ClientShutsDown);
    more, a, c := ClientStops(events + [ClientShutsDown], a, l, Check, true);
    more, a, c := ClientStops(more, a, l, Lock, true);
    more, a, c := ClientStops(more, a, l, Set, true);
    more, a, c := ClientStops(more, a, l, Wake, true);
    more, a, c := ClientStops(more, a, l, Unlock, true);
  }

  /** A run to a state from which mt_shutdown never returns: the checkpointer has failed and is gone, the
      worker waits for it although it has been told to stop, and the client joins the worker. */
  lemma ShutdownHangs() returns (past: seq<Event>)
    ensures var s := Run(Start(BOTH, false), past);
            && s.Some? && Waits(s.value) && !Releasable(s.value, true)
            && !s.value.workers[0].slot.pWorker && s.value.client == Stopping(0, Join)
            && s.value.workers[1].pc == Exited && s.value.workers[1].slot.failed
  {
    past := CheckpointFails();
    past := CheckpointerLeaves(past);
    past := WorkerWrites(past, DEAD);
    past := WorkerWaits(past, DEAD);
    past := ClientJoins(past, Signalled(DEAD));
  }

  /** The checkpointer after one signal. */
  function Checkpoints(owner: Owner, bDoWork: bool, served: nat, pc: Pc): Local {
    Local(Slot(owner, bDoWork, true, false, true, 1, served), pc)
  }

  /** The first checkpoint finds the database busy, and the signal asks for another. */
  lemma FirstIsBusy(events: seq<Event>) returns (more: seq<Event>)
    requires LeadsTo(events, Two(FRESH.(pc := Awaiting), Checkpoints(Free, true, 0, Starting), Idle, true))
    ensures LeadsTo(more, Two(FRESH.(pc := Awaiting), Checkpoints(ByWorker, true, 1, Clearing), Idle, true))
  {
    var a, b := FRESH.(pc := Awaiting), Checkpoints(Free, true, 0, Starting);
    more, b := SecondSteps(events, a, b, Idle, true, GOOD);
    more, b := SecondSteps(more, a, b, Idle, true, GOOD);
    more, b := SecondSteps(more, a, b, Idle, true, BUSY);
    more, b := SecondSteps(more, a, b, Idle, true, GOOD);
    more, b := SecondSteps(more, a, b, Idle, true, GOOD);
  }

  /** The next one does so too, and the checkpointer goes to sleep. */
  lemma SecondIsBusy(events: seq<Event>) returns (more: seq<Event>)
    requires LeadsTo(events, Two(FRESH.(pc := Awaiting), Checkpoints(ByWorker, true, 1, Clearing), Idle, true))
    ensures LeadsTo(more, Two(FRESH.(pc := Awaiting), Checkpoints(Free, false, 1, Waiting), Idle, true))
  {
    var a, b := FRESH.(pc := Awaiting), Checkpoints(ByWorker, true, 1, Clearing);
    more, b := SecondSteps(events, a, b, Idle, true, GOOD);
    more, b := SecondSteps(more, a, b, Idle, true, GOOD);
    more, b := SecondSteps(more, a, b, Idle, true, BUSY);
    more, b := SecondSteps(more, a, b, Idle, true, GOOD);
    more, b := SecondSteps(more, a, b, Idle, true, GOOD);
  }

  /** A run in which nothing fails, to a state that only a spurious wakeup ends: the checkpointer has found
      the database busy and sleeps, and the worker, which alone signals it, waits for it. */
  lemma BusyHangs() returns (past: seq<Event>)
    ensures var s := Run(Start(BOTH, false), past);
            && s.Some? && Waits(s.value) && Releasable(s.value, true) && !Releasable(s.value, false)
            && s.value.workers[1].pc == Waiting && s.value.client == Idle
  {
    assert Start(BOTH, false).workers == [FRESH, FRESH];
    past := WorkerWrites([], FRESH);
    past := WorkerWaits(past, FRESH);
    assert Signalled(FRESH) == Checkpoints(Free, true, 0, Starting);
    past := FirstIsBusy(past);
    past := SecondIsBusy(past);
  }
}
