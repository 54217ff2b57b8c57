/**
 The background workers of a test database: a client that signals and stops them, one or two worker
 threads, and for each worker a mutex, a condition variable and two flags. A step is one access to
 shared memory, and any interleaving of steps may happen, spurious wakeups included.
 */
module WorkerThreads {
  import opened Options

  datatype Kind = Checkpointer | Worker | WorkerAC

  datatype Owner = Free | ByWorker | ByRaiser | ByClient

  /** LsmWorker. `signals` counts the signals so far and `served` those that came before the start of
      the last work pass. */
  datatype Slot = Slot(owner: Owner, bDoWork: bool, pWorker: bool, failed: bool, alive: bool, signals: nat, served: nat)

  /** The next action of a thread that signals or stops a worker. */
  datatype Stage = Check | Lock | Set | Wake | Unlock | Join

  /** Where a worker thread is in worker_main; `ok` says that its last result was LSM_OK or LSM_BUSY. */
  datatype Pc =
    | Starting
    | Top
    | Awaiting
    | Pass
    | Raising(stage: Stage, ok: bool)
    | Recheck(ok: bool)
    | Relock(ok: bool)
    | Judge(ok: bool)
    | Waiting
    | Woken
    | Clearing
    | Leaving
    | Exited

  datatype ClientPc = Idle | Signalling(stage: Stage) | Stopping(i: nat, stage: Stage) | Done

  /** A worker thread with the object it shares with the others. */
  datatype Local = Local(slot: Slot, pc: Pc)

  /** `backlog` says that the data written since the last checkpoint has reached the size at which a
      worker waits for the checkpointer. */
  datatype State = State(kinds: seq<Kind>, workers: seq<Local>, client: ClientPc, backlog: bool)

  /** What a call of the database gives a worker: `ok` for LSM_OK or LSM_BUSY, and whether lsm_work has
      written something. `full` says that the call leaves a backlog, where it can make or end one. */
  datatype Result = Result(ok: bool, wrote: bool, full: bool)

  datatype Event =
    | ClientSignals(full: bool)
    | ClientShutsDown
    | ClientSteps
    | WorkerSteps(i: nat, r: Result)
    | SpuriousWakeup(i: nat)

  /** One worker of any kind, or a worker with a checkpointer. */
  predicate Shaped(s: State) {
    |s.workers| == |s.kinds| && ((|s.kinds| == 1 && s.kinds[0] != Worker) || s.kinds == [Worker, Checkpointer])
  }

  const FRESH := Local(Slot(Free, false, true, false, true, 0, 0), Starting)

  function Start(kinds: seq<Kind>, backlog: bool): State {
    State(kinds, seq(|kinds|, _ => FRESH), Idle, backlog)
  }

  // ------------------------------------------------------------------------------------------
  // Steps
  // ------------------------------------------------------------------------------------------

  function Acquire(l: Local, who: Owner): Option<Local> {
    if l.slot.owner == Free then Some(l.(slot := l.slot.(owner := who))) else None
  }

  function Release(l: Local): Local {
    l.(slot := l.slot.(owner := Free))
  }

  /** pthread_cond_signal: it wakes the worker if it waits and does nothing otherwise. */
  function Wakened(l: Local): Local {
    if l.pc == Waiting then l.(pc := Woken) else l
  }

  /** mt_signal_worker, one action at a time. */
  function SignalOn(l: Local, stage: Stage, who: Owner): Option<Local> {
    match stage
    case Lock => Acquire(l, who)
    case Set => Some(l.(slot := l.slot.(bDoWork := true, signals := l.slot.signals + 1)))
    case Wake => Some(Wakened(l))
    case Unlock => Some(Release(l))
    case _ => None
  }

  /** mt_stop_worker; the join waits for the thread to exit. */
  function StopOn(l: Local, stage: Stage): Option<Local> {
    match stage
    case Check => Some(l)
    case Lock => Acquire(l, ByClient)
    case Set => Some(l.(slot := l.slot.(pWorker := false)))
    case Wake => Some(Wakened(l))
    case Unlock => Some(Release(l))
    case Join => if l.pc == Exited then Some(l.(slot := l.slot.(alive := false))) else None
  }

  function After(stage: Stage): Stage {
    match stage
    case Check => Lock
    case Lock => Set
    case Set => Wake
    case Wake => Unlock
    case _ => Join
  }

  function AfterSignal(stage: Stage): ClientPc {
    if stage == Unlock then Idle else Signalling(After(stage))
  }

  /** mt_shutdown stops one worker after the other. */
  function AfterStop(n: nat, i: nat, stage: Stage, running: bool): ClientPc {
    if stage == Join || (stage == Check && !running) then (if i + 1 < n then Stopping(i + 1, Check) else Done)
    else Stopping(i, After(stage))
  }

  function ClientNext(s: State): Option<State>
    requires Shaped(s)
  {
    match s.client
    case Signalling(stage) =>
      var l := SignalOn(s.workers[0], stage, ByClient);
      if l.None? then None else Some(s.(workers := s.workers[0 := l.value], client := AfterSignal(stage)))
    case Stopping(i, stage) =>
      if i >= |s.workers| then None
      else
        var l := StopOn(s.workers[i], stage);
        if l.None? then None
        else Some(s.(workers := s.workers[i := l.value],
                     client := AfterStop(|s.workers|, i, stage, s.workers[i].slot.pWorker)))
    case _ => None
  }

  /** The end of one call of lsm_work or lsm_checkpoint. */
  function PassEnd(kind: Kind, ok: bool, wrote: bool): Pc {
    if kind == Checkpointer || !wrote then Relock(ok)
    else if kind == Worker then Raising(Lock, ok)
    else Recheck(ok)
  }

  function AfterRaise(stage: Stage, ok: bool): Pc {
    if stage == Unlock then Recheck(ok) else Raising(After(stage), ok)
  }

  function LockThen(l: Local, pc: Pc): Option<Local> {
    if l.slot.owner == Free then Some(Local(l.slot.(owner := ByWorker), pc)) else None
  }

  /** The start of a pass, which follows every signal so far. */
  function StartPass(slot: Slot): Local {
    Local(slot.(served := slot.signals), Pass)
  }

  /** A worker with a checkpointer waits for it before each pass. */
  function BeforePass(slot: Slot, kind: Kind): Local {
    if kind == Worker then Local(slot, Awaiting) else StartPass(slot)
  }

  /** worker_main, except where it signals the other worker. The wait for the checkpointer, which polls
      the backlog, ends when there is none or lsm_info fails. */
  function OwnNext(l: Local, kind: Kind, r: Result, backlog: bool): Option<Local> {
    var slot := l.slot;
    match l.pc
    case Starting => LockThen(l, Top)
    case Top =>
      if slot.pWorker then Some(BeforePass(slot.(owner := Free), kind))
      else Some(l.(pc := Leaving))
    case Awaiting => if backlog && r.ok then None else Some(StartPass(slot))
    case Pass => Some(l.(pc := PassEnd(kind, r.ok, r.wrote)))
    case Recheck(ok0) => if slot.pWorker then Some(BeforePass(slot, kind)) else Some(l.(pc := Relock(ok0)))
    case Relock(ok0) => LockThen(l, Judge(ok0))
    case Judge(ok0) =>
      if !ok0 then Some(Local(slot.(failed := true), Leaving))
      else if slot.pWorker && !slot.bDoWork then Some(Local(slot.(owner := Free), Waiting))
      else Some(l.(pc := Clearing))
    case Woken => LockThen(l, Clearing)
    case Clearing => Some(Local(slot.(bDoWork := false), Top))
    case Leaving => Some(Local(slot.(owner := Free), Exited))
    case _ => None
  }

  /** Passes that write can make a backlog; only a checkpoint ends it. */
  function BacklogAfter(backlog: bool, kind: Kind, pc: Pc, r: Result): bool {
    if pc != Pass then backlog
    else if kind == Checkpointer then backlog && !(r.ok && !r.full)
    else backlog || (r.wrote && r.full)
  }

  function WorkerNext(s: State, i: nat, r: Result): Option<State>
    requires Shaped(s) && i < |s.workers|
  {
    var pc := s.workers[i].pc;
    if pc.Raising? then
      if i == 1 || |s.workers| < 2 then None
      else
        var l := SignalOn(s.workers[1], pc.stage, ByRaiser);
        if l.None? then None
        else Some(s.(workers := [s.workers[0].(pc := AfterRaise(pc.stage, pc.ok)), l.value]))
    else
      var l := OwnNext(s.workers[i], s.kinds[i], r, s.backlog);
      if l.None? then None
      else Some(s.(workers := s.workers[i := l.value], backlog := BacklogAfter(s.backlog, s.kinds[i], pc, r)))
  }

  function Next(s: State, e: Event): Option<State>
    requires Shaped(s)
  {
    match e
    case ClientSignals(full) =>
      if s.client == Idle then Some(s.(client := Signalling(Lock), backlog := s.backlog || full)) else None
    case ClientShutsDown => if s.client == Idle then Some(s.(client := Stopping(0, Check))) else None
    case ClientSteps => ClientNext(s)
    case WorkerSteps(i, r) => if i < |s.workers| then WorkerNext(s, i, r) else None
    case SpuriousWakeup(i) =>
      if i < |s.workers| && s.workers[i].pc == Waiting
      then Some(s.(workers := s.workers[i := s.workers[i].(pc := Woken)]))
      else None
  }

  // ------------------------------------------------------------------------------------------
  // The invariant
  // ------------------------------------------------------------------------------------------

  predicate Holding(stage: Stage) {
    stage == Set || stage == Wake || stage == Unlock
  }

  predicate WorkerHolds(pc: Pc) {
    pc == Top || pc.Judge? || pc == Clearing || pc == Leaving
  }

  predicate RaiserHolds(pc: Pc) {
    pc.Raising? && Holding(pc.stage)
  }

  /** The client signals or stops worker `i`. */
  predicate Concerns(c: ClientPc, i: nat) {
    (c.Signalling? && i == 0) || (c.Stopping? && c.i == i)
  }

  predicate ClientHolds(c: ClientPc, i: nat) {
    Concerns(c, i) && Holding(c.stage)
  }

  /** Some thread has changed a flag and has yet to signal the condition variable. */
  predicate WakePending(raiser: Pc, c: ClientPc, i: nat) {
    (raiser.Raising? && raiser.stage == Wake) || (Concerns(c, i) && c.stage == Wake)
  }

  predicate Stopped(c: ClientPc, i: nat) {
    c.Done? || (c.Stopping? && c.i > i)
  }

  /** The client has told worker `i` to stop. */
  predicate Told(c: ClientPc, i: nat) {
    Stopped(c, i) || (c.Stopping? && c.i == i && (c.stage == Wake || c.stage == Unlock || c.stage == Join))
  }

  /** A pass is under way or over, and no new one is about to start. */
  predicate Settled(pc: Pc) {
    pc == Pass || pc.Raising? || pc.Recheck? || pc.Relock? || pc.Judge? || pc == Waiting
  }

  /** What the other threads are doing to a worker. */
  datatype Env = Env(raiserHolds: bool, clientHolds: bool, wakePending: bool, told: bool, stopped: bool)

  /** `raiser` is the thread that may signal worker `i` besides the client. */
  function EnvOf(raiser: Pc, c: ClientPc, i: nat): Env {
    Env(RaiserHolds(raiser), ClientHolds(c, i), WakePending(raiser, c, i), Told(c, i), Stopped(c, i))
  }

  /** Mutual exclusion. */
  predicate Exclusive(l: Local, env: Env) {
    && (l.slot.owner == ByWorker <==> WorkerHolds(l.pc))
    && (l.slot.owner == ByRaiser <==> env.raiserHolds)
    && (l.slot.owner == ByClient <==> env.clientHolds)
  }

  /** No lost wakeup, and signals that no pass has followed are remembered. */
  predicate Remembers(l: Local, env: Env) {
    && (l.pc == Waiting && (l.slot.bDoWork || !l.slot.pWorker) ==> env.wakePending)
    && l.slot.served <= l.slot.signals
    && (!l.slot.bDoWork && (Settled(l.pc) || l.pc == Starting) ==> l.slot.served == l.slot.signals)
  }

  predicate Stops(l: Local, env: Env) {
    && l.slot.pWorker == !env.told
    && l.slot.alive == !env.stopped
    && (!l.slot.alive ==> l.pc == Exited)
    && (l.pc == Leaving || l.pc == Exited ==> l.slot.failed || !l.slot.pWorker)
  }

  predicate LocalInv(l: Local, env: Env) {
    Exclusive(l, env) && Remembers(l, env) && Stops(l, env)
  }

  function Raiser(s: State, i: nat): Pc
    requires Shaped(s)
  {
    if i == 1 then s.workers[0].pc else Exited
  }

  predicate ClientOk(c: ClientPc, n: nat) {
    && (c.Stopping? ==> c.i < n)
    && (c.Signalling? ==> c.stage != Check && c.stage != Join)
  }

  /** Only a worker with a checkpointer waits for it and signals it, and a checkpointer makes one pass at
      a time. */
  predicate PcOk(pc: Pc, kind: Kind) {
    && (pc.Raising? ==> kind == Worker && pc.stage != Check && pc.stage != Join)
    && (pc == Awaiting ==> kind == Worker)
    && (pc.Recheck? ==> kind != Checkpointer)
  }

  predicate WorkerOk(s: State, i: nat)
    requires Shaped(s) && i < |s.workers|
  {
    LocalInv(s.workers[i], EnvOf(Raiser(s, i), s.client, i)) && PcOk(s.workers[i].pc, s.kinds[i])
  }

  predicate Inv(s: State) {
    Shaped(s) && ClientOk(s.client, |s.workers|) && WorkerOk(s, 0) && (|s.workers| == 2 ==> WorkerOk(s, 1))
  }

  lemma StartInv(kinds: seq<Kind>, full: bool)
    requires Shaped(Start(kinds, full))
    ensures Inv(Start(kinds, full))
  {
  }

  lemma OwnExclusive(l: Local, env: Env, kind: Kind, r: Result, backlog: bool)
    requires Exclusive(l, env) && OwnNext(l, kind, r, backlog).Some?
    ensures Exclusive(OwnNext(l, kind, r, backlog).value, env)
  {
  }

  lemma OwnRemembers(l: Local, env: Env, kind: Kind, r: Result, backlog: bool)
    requires Remembers(l, env) && OwnNext(l, kind, r, backlog).Some?
    ensures Remembers(OwnNext(l, kind, r, backlog).value, env)
  {
    if l.pc == Pass {
      assert Settled(PassEnd(kind, r.ok, r.wrote));
    }
  }

  lemma OwnStops(l: Local, env: Env, kind: Kind, r: Result, backlog: bool)
    requires Stops(l, env) && OwnNext(l, kind, r, backlog).Some?
    ensures Stops(OwnNext(l, kind, r, backlog).value, env)
  {
  }

  /** A step of the worker itself. */
  lemma OwnInv(l: Local, env: Env, kind: Kind, r: Result, backlog: bool)
    requires LocalInv(l, env) && OwnNext(l, kind, r, backlog).Some?
    ensures LocalInv(OwnNext(l, kind, r, backlog).value, env)
  {
    OwnExclusive(l, env, kind, r, backlog);
    OwnRemembers(l, env, kind, r, backlog);
    OwnStops(l, env, kind, r, backlog);
  }

  lemma OwnPc(l: Local, kind: Kind, r: Result, backlog: bool)
    requires OwnNext(l, kind, r, backlog).Some? && PcOk(l.pc, kind)
    ensures !RaiserHolds(l.pc) && !RaiserHolds(OwnNext(l, kind, r, backlog).value.pc)
    ensures PcOk(OwnNext(l, kind, r, backlog).value.pc, kind)
    ensures WakePending(l.pc, Idle, 1) == WakePending(OwnNext(l, kind, r, backlog).value.pc, Idle, 1) == false
  {
  }

  /** A step of the other worker that signals this one. */
  lemma RaiseInv(l: Local, stage: Stage, ok: bool, c: ClientPc, i: nat)
    requires LocalInv(l, EnvOf(Raising(stage, ok), c, i)) && SignalOn(l, stage, ByRaiser).Some?
    ensures LocalInv(SignalOn(l, stage, ByRaiser).value, EnvOf(AfterRaise(stage, ok), c, i))
  {
  }

  /** The worker that signals the other one. */
  lemma RaiserOwn(l: Local, env: Env)
    requires LocalInv(l, env) && l.pc.Raising?
    ensures LocalInv(l.(pc := AfterRaise(l.pc.stage, l.pc.ok)), env)
  {
  }

  lemma ClientSignalInv(l: Local, raiser: Pc, stage: Stage)
    requires LocalInv(l, EnvOf(raiser, Signalling(stage), 0)) && SignalOn(l, stage, ByClient).Some?
    ensures LocalInv(SignalOn(l, stage, ByClient).value, EnvOf(raiser, AfterSignal(stage), 0))
  {
  }

  lemma ClientStopInv(l: Local, raiser: Pc, stage: Stage, n: nat, i: nat)
    requires LocalInv(l, EnvOf(raiser, Stopping(i, stage), i)) && StopOn(l, stage).Some? && i < n
    ensures LocalInv(StopOn(l, stage).value, EnvOf(raiser, AfterStop(n, i, stage, l.slot.pWorker), i))
  {
    var c' := AfterStop(n, i, stage, l.slot.pWorker);
    match stage
    case Check => assert c' == Stopping(i, Lock);
    case Join => assert Stopped(c', i) && Told(c', i) && !Concerns(c', i);
    case _ => assert c' == Stopping(i, After(stage));
  }

  /** The first worker signals the second. */
  lemma RaisingStepInv(s: State, r: Result)
    requires Inv(s) && s.workers[0].pc.Raising? && WorkerNext(s, 0, r).Some?
    ensures Inv(WorkerNext(s, 0, r).value)
  {
    var l := s.workers[0];
    RaiserOwn(l, EnvOf(Exited, s.client, 0));
    RaiseInv(s.workers[1], l.pc.stage, l.pc.ok, s.client, 1);
  }

  /** What the first worker does by itself is no concern of the second. */
  lemma OwnEnv(l: Local, kind: Kind, r: Result, backlog: bool, c: ClientPc)
    requires OwnNext(l, kind, r, backlog).Some? && PcOk(l.pc, kind)
    ensures EnvOf(OwnNext(l, kind, r, backlog).value.pc, c, 1) == EnvOf(l.pc, c, 1)
  {
    OwnPc(l, kind, r, backlog);
  }

  lemma OwnStepInv(s: State, i: nat, r: Result)
    requires Inv(s) && i < |s.workers| && !s.workers[i].pc.Raising? && WorkerNext(s, i, r).Some?
    ensures Inv(WorkerNext(s, i, r).value)
  {
    var l := s.workers[i];
    OwnInv(l, EnvOf(Raiser(s, i), s.client, i), s.kinds[i], r, s.backlog);
    OwnPc(l, s.kinds[i], r, s.backlog);
    OwnEnv(l, s.kinds[i], r, s.backlog, s.client);
  }

  lemma WorkerInv(s: State, i: nat, r: Result)
    requires Inv(s) && i < |s.workers| && WorkerNext(s, i, r).Some?
    ensures Inv(WorkerNext(s, i, r).value)
  {
    if s.workers[i].pc.Raising? {
      RaisingStepInv(s, r);
    } else {
      OwnStepInv(s, i, r);
    }
  }

  /** Signalling or stopping one worker does not change what is done to another. */
  lemma OtherEnv(raiser: Pc, c: ClientPc, c': ClientPc, i: nat, j: nat)
    requires i != j && Concerns(c, i)
    requires c.Signalling? ==> i == 0 && (c' == Idle || c'.Signalling?)
    requires c.Stopping? ==> (c'.Stopping? && c'.i == i) || c' == Stopping(i + 1, Check) || (c'.Done? && j < i)
    ensures EnvOf(raiser, c', j) == EnvOf(raiser, c, j)
  {
  }

  /** The raiser's own wakeup is no concern of the worker it signals. */
  lemma WakenedEnv(raiser: Local, stage: Stage, who: Owner, c: ClientPc, i: nat)
    ensures SignalOn(raiser, stage, who).Some? ==>
              EnvOf(SignalOn(raiser, stage, who).value.pc, c, i) == EnvOf(raiser.pc, c, i)
    ensures StopOn(raiser, stage).Some? ==> EnvOf(StopOn(raiser, stage).value.pc, c, i) == EnvOf(raiser.pc, c, i)
  {
  }

  lemma SignalStepInv(s: State)
    requires Inv(s) && s.client.Signalling? && ClientNext(s).Some?
    ensures Inv(ClientNext(s).value)
  {
    var c, l := s.client, s.workers[0];
    ClientSignalInv(l, Exited, c.stage);
    WakenedEnv(l, c.stage, ByClient, AfterSignal(c.stage), 1);
    OtherEnv(l.pc, c, AfterSignal(c.stage), 0, 1);
  }

  /** The order to stop leaves a pc that is no raiser's as one that is none. */
  lemma StopKeepsPc(l: Local, stage: Stage, kind: Kind)
    requires StopOn(l, stage).Some? && PcOk(l.pc, kind)
    ensures PcOk(StopOn(l, stage).value.pc, kind)
  {
  }

  lemma AfterStopOk(i: nat, n: nat, stage: Stage, running: bool)
    requires i < n
    ensures ClientOk(AfterStop(n, i, stage, running), n)
  {
  }

  lemma StopOnlyInv(s: State)
    requires Inv(s) && s.client.Stopping? && s.client.i == 0 && |s.workers| == 1 && ClientNext(s).Some?
    ensures Inv(ClientNext(s).value)
  {
    var c, l := s.client, s.workers[0];
    AfterStopOk(0, 1, c.stage, l.slot.pWorker);
    StopKeepsPc(l, c.stage, s.kinds[0]);
    ClientStopInv(l, Exited, c.stage, 1, 0);
  }

  lemma StopFirstFields(s: State)
    requires Shaped(s) && |s.workers| == 2 && s.client.Stopping? && s.client.i == 0 && ClientNext(s).Some?
    ensures var l := StopOn(s.workers[0], s.client.stage);
            && l.Some?
            && ClientNext(s).value == State(s.kinds, [l.value, s.workers[1]],
                                            AfterStop(2, 0, s.client.stage, s.workers[0].slot.pWorker), s.backlog)
  {
    var l := StopOn(s.workers[0], s.client.stage).value;
    assert s.workers[0 := l] == [l, s.workers[1]];
  }

  lemma StopFirstInv(s: State)
    requires Inv(s) && s.client.Stopping? && s.client.i == 0 && |s.workers| == 2 && ClientNext(s).Some?
    ensures Inv(ClientNext(s).value)
  {
    var c, l := s.client, s.workers[0];
    var c' := AfterStop(2, 0, c.stage, l.slot.pWorker);
    StopFirstFields(s);
    AfterStopOk(0, 2, c.stage, l.slot.pWorker);
    StopKeepsPc(l, c.stage, s.kinds[0]);
    ClientStopInv(l, Exited, c.stage, 2, 0);
    WakenedEnv(l, c.stage, ByClient, c', 1);
    OtherEnv(l.pc, c, c', 0, 1);
  }

  lemma StopSecondFields(s: State)
    requires Inv(s) && s.client.Stopping? && s.client.i == 1 && ClientNext(s).Some?
    ensures var l := StopOn(s.workers[1], s.client.stage);
            && l.Some? && |s.workers| == 2
            && ClientNext(s).value == State(s.kinds, [s.workers[0], l.value],
                                            AfterStop(2, 1, s.client.stage, s.workers[1].slot.pWorker), s.backlog)
  {
    var l := StopOn(s.workers[1], s.client.stage).value;
    assert s.workers[1 := l] == [s.workers[0], l];
  }

  lemma StopSecondInv(s: State)
    requires Inv(s) && s.client.Stopping? && s.client.i == 1 && ClientNext(s).Some?
    ensures Inv(ClientNext(s).value)
  {
    var c, l := s.client, s.workers[1];
    var c' := AfterStop(2, 1, c.stage, l.slot.pWorker);
    StopSecondFields(s);
    AfterStopOk(1, 2, c.stage, l.slot.pWorker);
    ClientStopInv(l, s.workers[0].pc, c.stage, 2, 1);
    StopKeepsPc(l, c.stage, Checkpointer);
    OtherEnv(Exited, c, c', 1, 0);
  }

  lemma ClientStepInv(s: State)
    requires Inv(s) && ClientNext(s).Some?
    ensures Inv(ClientNext(s).value)
  {
    if s.client.Signalling? {
      SignalStepInv(s);
    } else if |s.workers| == 1 {
      StopOnlyInv(s);
    } else if s.client.i == 0 {
      StopFirstInv(s);
    } else {
      StopSecondInv(s);
    }
  }

  lemma NextInv(s: State, e: Event)
    requires Inv(s) && Next(s, e).Some?
    ensures Inv(Next(s, e).value)
  {
    match e
    case WorkerSteps(i, r) => WorkerInv(s, i, r);
    case ClientSteps => ClientStepInv(s);
    case ClientSignals(full) => IdleEnv(s, Signalling(Lock), s.backlog || full);
    case ClientShutsDown => IdleEnv(s, Stopping(0, Check), s.backlog);
    case SpuriousWakeup(i) => SpuriousInv(s, i);
  }

  /** Nothing changes for the workers before the client takes a mutex. */
  lemma IdleEnv(s: State, c: ClientPc, backlog: bool)
    requires Inv(s) && s.client == Idle && (c == Signalling(Lock) || c == Stopping(0, Check))
    ensures Inv(s.(client := c, backlog := backlog))
  {
    assert EnvOf(Exited, c, 0) == EnvOf(Exited, Idle, 0);
    assert EnvOf(s.workers[0].pc, c, 1) == EnvOf(s.workers[0].pc, Idle, 1);
  }

  lemma SpuriousLocal(l: Local, env: Env)
    requires LocalInv(l, env) && l.pc == Waiting
    ensures LocalInv(l.(pc := Woken), env)
  {
  }

  lemma SpuriousInv(s: State, i: nat)
    requires Inv(s) && i < |s.workers| && s.workers[i].pc == Waiting
    ensures Inv(s.(workers := s.workers[i := s.workers[i].(pc := Woken)]))
  {
    SpuriousLocal(s.workers[i], EnvOf(Raiser(s, i), s.client, i));
    assert EnvOf(Woken, s.client, 1) == EnvOf(Waiting, s.client, 1);
  }

  // ------------------------------------------------------------------------------------------
  // Every run
  // ------------------------------------------------------------------------------------------

  /** The state after a run, if each of its events can happen when its turn comes. */
  function Run(s: State, events: seq<Event>): (r: Option<State>)
    requires Shaped(s)
    ensures r.Some? ==> Shaped(r.value) && r.value.kinds == s.kinds
  {
    if events == [] then Some(s)
    else
      var before := Run(s, events[..|events| - 1]);
      if before.None? then None else Next(before.value, events[|events| - 1])
  }

  lemma {:induction false} RunInv(kinds: seq<Kind>, full: bool, events: seq<Event>)
    requires Shaped(Start(kinds, full)) && Run(Start(kinds, full), events).Some?
    ensures Inv(Run(Start(kinds, full), events).value)
  {
    if events == [] {
      StartInv(kinds, full);
    } else {
      RunInv(kinds, full, events[..|events| - 1]);
      NextInv(Run(Start(kinds, full), events[..|events| - 1]).value, events[|events| - 1]);
    }
  }

  /** A thread holds the mutex of worker `i` and is about to signal its condition variable. */
  predicate WakeComing(s: State, i: nat)
    requires Shaped(s)
  {
    WakePending(Raiser(s, i), s.client, i)
  }

  /** No lost wakeup: in every reachable state a worker that waits although it was signalled or told
      to stop is about to be woken, and one that waits otherwise has served every signal. */
  lemma NoLostWakeup(kinds: seq<Kind>, full: bool, events: seq<Event>, i: nat)
    requires Shaped(Start(kinds, full)) && Run(Start(kinds, full), events).Some? && i < |kinds|
    requires Run(Start(kinds, full), events).value.workers[i].pc == Waiting
    ensures var s := Run(Start(kinds, full), events).value;
            var slot := s.workers[i].slot;
            && (slot.bDoWork || !slot.pWorker ==> WakeComing(s, i) && slot.owner != Free)
            && (!WakeComing(s, i) ==> slot.served == slot.signals && slot.pWorker)
  {
    RunInv(kinds, full, events);
  }

  /** Two threads never hold the same mutex, and no thread uses one that has been destroyed. */
  lemma MutexesAreUsedWell(kinds: seq<Kind>, full: bool, events: seq<Event>, i: nat)
    requires Shaped(Start(kinds, full)) && Run(Start(kinds, full), events).Some? && i < |kinds|
    ensures var s := Run(Start(kinds, full), events).value;
            var l, raiser := s.workers[i], Raiser(s, i);
            && !(WorkerHolds(l.pc) && RaiserHolds(raiser))
            && !(WorkerHolds(l.pc) && ClientHolds(s.client, i))
            && !(RaiserHolds(raiser) && ClientHolds(s.client, i))
            && (l.pc != Exited || raiser.Raising? || Concerns(s.client, i) ==> l.slot.alive)
  {
    RunInv(kinds, full, events);
  }

  // ------------------------------------------------------------------------------------------
  // Signals are served and workers stop
  // ------------------------------------------------------------------------------------------

  /** How far the worker is from starting a pass, or from leaving if it has been told to stop. */
  function Distance(pc: Pc, stop: bool): nat {
    match pc
    case Exited => 0
    case Leaving => 1
    case Top => 2
    case Clearing => 3
    case Starting => 3
    case Woken => 4
    case Judge(_) => 4
    case Relock(_) => 5
    case Pass => 6
    case Awaiting => if stop then 7 else 1
    case Recheck(_) => 7
    case Raising(stage, _) =>
      if stage == Unlock then 8 else if stage == Wake then 9 else if stage == Set then 10 else 11
    case Waiting => 12
  }

  /** What a worker has been asked for: passes that start after the first `signals` signals, or to stop. */
  datatype Call = Call(signals: nat, stop: bool)

  function CallOn(l: Local): Call {
    Call(l.slot.signals, !l.slot.pWorker)
  }

  predicate Answered(l: Local, call: Call) {
    l.pc == Exited || (!call.stop && call.signals <= l.slot.served)
  }

  predicate Open(l: Local, call: Call) {
    call.signals <= l.slot.signals && (call.stop ==> !l.slot.pWorker)
  }

  /** A call is answered for good, and stays open until then. */
  predicate Keeps(l: Local, l': Local, call: Call) {
    (Answered(l, call) ==> Answered(l', call)) && (Open(l, call) ==> Open(l', call))
  }

  function StepsLeft(l: Local, call: Call): nat {
    Distance(l.pc, call.stop)
  }

  /** What the other threads do to a worker takes it no further from its answer. */
  lemma OthersKeep(l: Local, stage: Stage, who: Owner, call: Call)
    ensures SignalOn(l, stage, who).Some? ==>
              var l' := SignalOn(l, stage, who).value; Keeps(l, l', call) && StepsLeft(l', call) <= StepsLeft(l, call)
    ensures StopOn(l, stage).Some? ==>
              var l' := StopOn(l, stage).value; Keeps(l, l', call) && StepsLeft(l', call) <= StepsLeft(l, call)
  {
  }

  lemma OwnKeeps(l: Local, env: Env, kind: Kind, r: Result, backlog: bool, call: Call)
    requires Remembers(l, env) && OwnNext(l, kind, r, backlog).Some?
    ensures Keeps(l, OwnNext(l, kind, r, backlog).value, call)
  {
  }

  /** Its own steps bring it closer, except at the end of a pass that has written. A worker that has a
      call to answer does not go to sleep. */
  lemma OwnCloser(l: Local, env: Env, kind: Kind, r: Result, backlog: bool, call: Call)
    requires Remembers(l, env) && OwnNext(l, kind, r, backlog).Some? && Open(l, call)
    requires !Answered(OwnNext(l, kind, r, backlog).value, call)
    ensures StepsLeft(OwnNext(l, kind, r, backlog).value, call) < StepsLeft(l, call) + if r.wrote then 6 else 0
  {
    match l.pc
    case Top =>
    case Pass =>
    case Judge(_) =>
    case _ =>
  }

  predicate IsOwn(e: Event, i: nat) {
    e.WorkerSteps? && e.i == i
  }

  predicate IsWrite(e: Event, i: nat) {
    IsOwn(e, i) && e.r.wrote
  }

  function Count(b: bool): nat {
    if b then 1 else 0
  }

  /** How many of the events are steps of worker `i`. */
  function OwnSteps(events: seq<Event>, i: nat): nat {
    if events == [] then 0 else OwnSteps(events[..|events| - 1], i) + Count(IsOwn(events[|events| - 1], i))
  }

  /** How many of those report that something was written. */
  function Writes(events: seq<Event>, i: nat): nat {
    if events == [] then 0 else Writes(events[..|events| - 1], i) + Count(IsWrite(events[|events| - 1], i))
  }

  predicate Closer(l: Local, l': Local, call: Call, own: bool, wrote: bool) {
    && Keeps(l, l', call)
    && (Open(l, call) && !Answered(l', call) ==>
          StepsLeft(l', call) + Count(own) <= StepsLeft(l, call) + 6 * Count(wrote))
  }

  lemma OwnStepCloser(l: Local, env: Env, kind: Kind, r: Result, backlog: bool, call: Call)
    requires Remembers(l, env) && OwnNext(l, kind, r, backlog).Some?
    ensures Closer(l, OwnNext(l, kind, r, backlog).value, call, true, r.wrote)
  {
    OwnKeeps(l, env, kind, r, backlog, call);
    if Open(l, call) && !Answered(OwnNext(l, kind, r, backlog).value, call) {
      OwnCloser(l, env, kind, r, backlog, call);
    }
  }

  lemma RaiserCloser(l: Local, call: Call, wrote: bool)
    requires l.pc.Raising? && PcOk(l.pc, Worker)
    ensures Closer(l, l.(pc := AfterRaise(l.pc.stage, l.pc.ok)), call, true, wrote)
  {
  }

  lemma RaisedCloser(l: Local, stage: Stage, call: Call)
    requires SignalOn(l, stage, ByRaiser).Some?
    ensures Closer(l, SignalOn(l, stage, ByRaiser).value, call, false, false)
  {
    OthersKeep(l, stage, ByRaiser, call);
  }

  lemma OwnStepOf(s: State, j: nat, r: Result, i: nat, call: Call)
    requires Shaped(s) && j < |s.workers| && i < |s.workers| && WorkerNext(s, j, r).Some? && WorkerOk(s, j)
    requires !s.workers[j].pc.Raising?
    ensures Closer(s.workers[i], WorkerNext(s, j, r).value.workers[i], call, i == j, i == j && r.wrote)
  {
    if i == j {
      OwnStepCloser(s.workers[j], EnvOf(Raiser(s, j), s.client, j), s.kinds[j], r, s.backlog, call);
    } else {
      SameCloser(s.workers[i], call);
    }
  }

  lemma RaisingStepOf(s: State, r: Result, i: nat, call: Call)
    requires Shaped(s) && |s.workers| == 2 && i < 2 && WorkerNext(s, 0, r).Some? && PcOk(s.workers[0].pc, Worker)
    requires s.workers[0].pc.Raising?
    ensures Closer(s.workers[i], WorkerNext(s, 0, r).value.workers[i], call, i == 0, i == 0 && r.wrote)
  {
    if i == 0 {
      RaiserCloser(s.workers[0], call, r.wrote);
    } else {
      RaisedCloser(s.workers[1], s.workers[0].pc.stage, call);
    }
  }

  lemma WorkerCloser(s: State, j: nat, r: Result, i: nat, call: Call)
    requires Inv(s) && j < |s.workers| && i < |s.workers| && WorkerNext(s, j, r).Some?
    ensures Closer(s.workers[i], WorkerNext(s, j, r).value.workers[i], call, i == j, i == j && r.wrote)
  {
    assert WorkerOk(s, j);
    if s.workers[j].pc.Raising? {
      RaisingStepOf(s, r, i, call);
    } else {
      OwnStepOf(s, j, r, i, call);
    }
  }

  lemma ClientCloser(s: State, i: nat, call: Call)
    requires Inv(s) && i < |s.workers| && ClientNext(s).Some?
    ensures Closer(s.workers[i], ClientNext(s).value.workers[i], call, false, false)
  {
    OthersKeep(s.workers[i], s.client.stage, ByClient, call);
  }

  lemma SpuriousCloser(s: State, j: nat, i: nat, call: Call)
    requires Shaped(s) && i < |s.workers| && j < |s.workers| && s.workers[j].pc == Waiting
    ensures Closer(s.workers[i], s.workers[j := s.workers[j].(pc := Woken)][i], call, false, false)
  {
  }

  lemma SameCloser(l: Local, call: Call)
    ensures Closer(l, l, call, false, false)
  {
  }

  lemma NextSize(s: State, e: Event)
    requires Shaped(s) && Next(s, e).Some?
    ensures Shaped(Next(s, e).value) && |Next(s, e).value.workers| == |s.workers|
  {
  }

  lemma NextCloser(s: State, e: Event, i: nat, call: Call)
    requires Inv(s) && i < |s.workers| && Next(s, e).Some?
    ensures Shaped(Next(s, e).value) && |Next(s, e).value.workers| == |s.workers|
    ensures Closer(s.workers[i], Next(s, e).value.workers[i], call, IsOwn(e, i), IsWrite(e, i))
  {
    NextSize(s, e);
    match e
    case WorkerSteps(j, r) => WorkerCloser(s, j, r, i, call);
    case ClientSteps => ClientCloser(s, i, call);
    case SpuriousWakeup(j) => SpuriousCloser(s, j, i, call);
    case _ => SameCloser(s.workers[i], call);
  }

  lemma {:induction false} RunCloser(s: State, events: seq<Event>, i: nat, call: Call)
    requires Inv(s) && i < |s.workers| && Run(s, events).Some? && Open(s.workers[i], call)
    ensures var s' := Run(s, events).value;
            && Inv(s') && |s'.workers| == |s.workers| && Open(s'.workers[i], call)
            && (|| Answered(s'.workers[i], call)
                || StepsLeft(s'.workers[i], call) + OwnSteps(events, i) <=
                   StepsLeft(s.workers[i], call) + 6 * Writes(events, i))
  {
    if events != [] {
      var before := events[..|events| - 1];
      RunCloser(s, before, i, call);
      NextCloser(Run(s, before).value, events[|events| - 1], i, call);
      NextInv(Run(s, before).value, events[|events| - 1]);
    }
  }

  lemma NothingLeft(l: Local, call: Call)
    ensures StepsLeft(l, call) == 0 ==> Answered(l, call)
  {
  }

  lemma AnsweredFrom(s: State, events: seq<Event>, i: nat)
    requires Inv(s) && i < |s.workers| && Run(s, events).Some?
    requires OwnSteps(events, i) >= StepsLeft(s.workers[i], CallOn(s.workers[i])) + 6 * Writes(events, i)
    ensures |Run(s, events).value.workers| == |s.workers|
    ensures Answered(Run(s, events).value.workers[i], CallOn(s.workers[i]))
  {
    RunCloser(s, events, i, CallOn(s.workers[i]));
    NothingLeft(Run(s, events).value.workers[i], CallOn(s.workers[i]));
  }

  /** In every interleaving, from every state that can be reached: once a worker has taken that many
      steps of its own, whatever the others did meanwhile, a pass has started after every signal that
      had been sent, or the thread has exited; and it has exited if it had been told to stop. */
  lemma CallsAreAnswered(kinds: seq<Kind>, full: bool, past: seq<Event>, events: seq<Event>, i: nat)
    requires Shaped(Start(kinds, full)) && Run(Start(kinds, full), past).Some? && i < |kinds|
    requires Run(Run(Start(kinds, full), past).value, events).Some?
    requires var l := Run(Start(kinds, full), past).value.workers[i];
             OwnSteps(events, i) >= StepsLeft(l, CallOn(l)) + 6 * Writes(events, i)
    ensures var s := Run(Start(kinds, full), past).value;
            var l, l' := s.workers[i], Run(s, events).value.workers[i];
            l'.pc == Exited || (l.slot.pWorker && l'.slot.served >= l.slot.signals)
  {
    RunInv(kinds, full, past);
    AnsweredFrom(Run(Start(kinds, full), past).value, events, i);
  }

  // ------------------------------------------------------------------------------------------
  // No thread is stuck
  // ------------------------------------------------------------------------------------------

  predicate CanStep(s: State, e: Event)
    requires Shaped(s)
  {
    Next(s, e).Some?
  }

  /** The next step of the thread that holds the mutex of worker `j`. */
  function HolderStep(owner: Owner, j: nat, r: Result): Event {
    match owner
    case ByClient => ClientSteps
    case ByRaiser => WorkerSteps(0, r)
    case _ => WorkerSteps(j, r)
  }

  lemma WorkerCanStep(l: Local, kind: Kind, r: Result, backlog: bool)
    requires WorkerHolds(l.pc)
    ensures OwnNext(l, kind, r, backlog).Some?
  {
  }

  lemma ClientCanStep(s: State, j: nat)
    requires Shaped(s) && j < |s.workers| && ClientHolds(s.client, j)
    ensures CanStep(s, ClientSteps)
  {
  }

  lemma RaiserCanStep(s: State, r: Result)
    requires Shaped(s) && |s.workers| == 2 && RaiserHolds(s.workers[0].pc)
    ensures CanStep(s, WorkerSteps(0, r))
  {
  }

  /** Whoever holds a mutex can go on. */
  lemma HolderCanStep(s: State, j: nat, r: Result)
    requires Inv(s) && j < |s.workers| && s.workers[j].slot.owner != Free
    ensures CanStep(s, HolderStep(s.workers[j].slot.owner, j, r))
  {
    assert WorkerOk(s, j);
    assert Exclusive(s.workers[j], EnvOf(Raiser(s, j), s.client, j));
    match s.workers[j].slot.owner
    case ByWorker => WorkerCanStep(s.workers[j], s.kinds[j], r, s.backlog);
    case ByClient => ClientCanStep(s, j);
    case ByRaiser => RaiserCanStep(s, r);
  }

  /** The worker whose mutex worker `i` needs next. */
  function Needed(s: State, i: nat): nat
    requires Shaped(s) && i < |s.workers|
  {
    if s.workers[i].pc.Raising? then 1 else i
  }

  /** The worker waits for the checkpointer, and the call of lsm_info finds a backlog. */
  predicate AwaitsCheckpoint(s: State, i: nat, r: Result)
    requires Shaped(s) && i < |s.workers|
  {
    s.workers[i].pc == Awaiting && s.backlog && r.ok
  }

  lemma BlockedByHolder(s: State, i: nat, r: Result)
    requires Inv(s) && i < |s.workers| && !CanStep(s, WorkerSteps(i, r))
    requires s.workers[i].pc != Exited
    requires s.workers[i].pc == Waiting ==> !Answered(s.workers[i], CallOn(s.workers[i]))
    requires !AwaitsCheckpoint(s, i, r)
    ensures Needed(s, i) < |s.workers| && s.workers[Needed(s, i)].slot.owner != Free
  {
  }

  /** A worker that has not exited and cannot go on has nothing to answer and waits, or it waits for the
      checkpointer, or it needs a mutex, or a wakeup from the thread that holds its mutex; and that
      thread can go on. */
  lemma NeverStuck(kinds: seq<Kind>, full: bool, events: seq<Event>, i: nat, r: Result)
    requires Shaped(Start(kinds, full)) && Run(Start(kinds, full), events).Some? && i < |kinds|
    ensures var s := Run(Start(kinds, full), events).value;
            || s.workers[i].pc == Exited
            || (s.workers[i].pc == Waiting && Answered(s.workers[i], CallOn(s.workers[i])))
            || AwaitsCheckpoint(s, i, r)
            || CanStep(s, WorkerSteps(i, r))
            || (&& Needed(s, i) < |s.workers| && s.workers[Needed(s, i)].slot.owner != Free
                && CanStep(s, HolderStep(s.workers[Needed(s, i)].slot.owner, Needed(s, i), r)))
  {
    RunInv(kinds, full, events);
    var s := Run(Start(kinds, full), events).value;
    if && s.workers[i].pc != Exited && !CanStep(s, WorkerSteps(i, r)) && !AwaitsCheckpoint(s, i, r)
       && (s.workers[i].pc == Waiting ==> !Answered(s.workers[i], CallOn(s.workers[i]))) {
      BlockedByHolder(s, i, r);
      HolderCanStep(s, Needed(s, i), r);
    }
  }
}
