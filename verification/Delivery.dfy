/** Ordered callback delivery as a transition system: any number of goroutines calling enqueue on any
    number of subscriptions, the worker pool with its submitters, workers and Stop callers, the
    fallback and signal goroutines, and the wait in SubMux.Close. One action is one critical section,
    channel operation, WaitGroup operation or goroutine launch. */
module Delivery {
  import opened Common
  import opened Sequencer

  type Sub = int
  type Tid = nat

  datatype Task = Drain(sub: Sub) | Job(id: nat)

  datatype Call = TrySubmit | Submit | SubmitWithContext

  /** Where a drain function runs: on a worker, as the ticket-th task ever queued, or on a goroutine
      of its own. */
  datatype Host = OnWorker(ticket: nat) | OnFallback

  /** Program counters. A goroutine that has returned is at Finished. */
  datatype PC =
    // callbackSequencer.enqueue
    | EnqLock(sub: Sub, msg: Message, pooled: bool)
    | AddDrain(sub: Sub) | GoDrain(sub: Sub)
    | AddSignal(sub: Sub, dropped: nat) | GoSignal(sub: Sub, dropped: nat)
    | SignalCallback(sub: Sub, dropped: nat)
    // WorkerPool.Submit, SubmitWithContext, TrySubmit
    | RLock(call: Call, task: Task)
    | Select1(call: Call, task: Task)
    | Select2(call: Call, task: Task)
    | RUnlock(call: Call, task: Task, ok: bool)
    // the drain function
    | DrainLock(sub: Sub, host: Host)
    | Callback(sub: Sub, msg: Message, host: Host)
    | DrainReturn(host: Host)
    // WorkerPool.worker
    | Receive
    | JobRun(id: nat, ticket: nat)
    // WorkerPool.Stop, then callbackWg.Wait of SubMux.Close
    | StopFlag | StopCancel | StopLock | StopAcquire | StopClose | StopUnlock | StopWait
    | StopReturned | CloseReturned
    | Submitted(id: nat, ok: bool)  // a submit call has returned to its caller
    | Finished

  datatype SubState = SubState(q: Sequencer, h: History)

  datatype Pool = Pool(
    started: bool, stopped: bool,               // under wp.mu
    cancelled: bool,                            // wp.ctx is done
    cap: nat, queue: seq<Task>, closed: bool,   // taskQueue
    readers: int, writer: bool, waiting: bool,  // submitMu
    wg: int,                                    // workers still running
    panicked: bool,                             // a send on, or a close of, the closed taskQueue
    sent: seq<Task>, taken: nat, ran: seq<nat>) // history: queued, received, and tickets completed

  /** signalled: for each subscription, the DroppedCount of every signal its callback has been run on. */
  datatype State = State(threads: map<Tid, PC>, subs: map<Sub, SubState>, pool: Pool, callbackWg: int,
                         signalled: map<Sub, seq<nat>>)

  function Signalled(st: State, s: Sub): seq<nat> {
    if s in st.signalled then st.signalled[s] else []
  }

  predicate Init(st: State) {
    && st.threads == map[] && st.subs == map[] && st.callbackWg == 0 && st.pool.cap > 0 && st.signalled == map[]
    && st.pool == Pool(false, false, false, st.pool.cap, [], false, 0, false, false, 0, false, [], 0, [])
  }

  datatype Action =
    | NewSubscription(s: Sub, limit: int)
    | BeginEnqueue(t: Tid, s: Sub, m: Message, pooled: bool)
    | BeginSubmit(t: Tid, call: Call, id: nat)
    | BeginStop(t: Tid)
    | StartPool(workers: set<Tid>)
    | EnqueueSection(t: Tid)
    | WgAdd(t: Tid) | Go(t: Tid) | SignalDone(t: Tid)
    | TakeRLock(t: Tid) | Proceed(t: Tid) | GiveUp(t: Tid) | Send(t: Tid) | ReleaseRLock(t: Tid)
    | DrainSection(t: Tid) | CallbackDone(t: Tid) | TaskReturn(t: Tid)
    | ReceiveTask(t: Tid) | WorkerExit(t: Tid)
    | StopStep(t: Tid)

  /** The actions that start a new call; all the others continue one. */
  predicate External(a: Action) {
    a.NewSubscription? || a.BeginEnqueue? || a.BeginSubmit? || a.BeginStop? || a.StartPool?
  }

  predicate Enabled(st: State, a: Action) {
    if External(a) then MayBegin(st, a) else a.t in st.threads && Ready(st, a, st.threads[a.t])
  }

  predicate MayBegin(st: State, a: Action)
    requires External(a)
  {
    match a
    case NewSubscription(s, _) => s !in st.subs
    case StartPool(ws) => !st.pool.started && ws != {} && ws !! st.threads.Keys
    case BeginEnqueue(t, s, _, _) => t !in st.threads && s in st.subs
    case BeginSubmit(t, _, _) => t !in st.threads
    case BeginStop(t) => t !in st.threads
  }

  predicate Ready(st: State, a: Action, pc: PC)
    requires !External(a)
  {
    match a
    case EnqueueSection(_) => pc.EnqLock? && pc.sub in st.subs
    case WgAdd(_) => pc.AddDrain? || pc.AddSignal?
    case Go(_) => pc.GoDrain? || pc.GoSignal?
    case SignalDone(_) => pc.SignalCallback?
    case TakeRLock(_) => pc.RLock? && !st.pool.writer && !st.pool.waiting
    case Proceed(_) => pc.Select1? && !st.pool.cancelled
    case GiveUp(_) => MayGiveUp(st.pool, pc)
    case Send(_) => pc.Select2? && (st.pool.closed || |st.pool.queue| < st.pool.cap)
    case ReleaseRLock(_) => pc.RUnlock?
    case DrainSection(_) => pc.DrainLock? && pc.sub in st.subs
    case CallbackDone(_) => pc.Callback? && pc.sub in st.subs
    case TaskReturn(_) => pc.JobRun? || pc.DrainReturn?
    case ReceiveTask(_) => pc.Receive? && st.pool.queue != []
    case WorkerExit(_) => pc.Receive? && st.pool.queue == [] && st.pool.closed
    case StopStep(_) => StopReady(st, pc)
  }

  /** A submitter may leave without sending: the pool's context is done, the caller's own context is
      done (at any moment), or TrySubmit finds no room. */
  predicate MayGiveUp(p: Pool, pc: PC) {
    match pc
    case Select1(call, _) => p.cancelled || call.SubmitWithContext?
    case Select2(call, _) =>
      if call.TrySubmit? then !p.closed && |p.queue| >= p.cap
      else p.cancelled || call.SubmitWithContext?
    case _ => false
  }

  predicate StopReady(st: State, pc: PC) {
    match pc
    case StopFlag => true
    case StopCancel => true
    case StopLock => !st.pool.writer && !st.pool.waiting
    case StopAcquire => st.pool.readers == 0
    case StopClose => true
    case StopUnlock => true
    case StopWait => st.pool.wg == 0
    case StopReturned => st.callbackWg == 0
    case _ => false
  }

  function Apply(st: State, a: Action): State
    requires Enabled(st, a)
  {
    if External(a) then Begin(st, a) else Move(st, a, st.threads[a.t])
  }

  function Begin(st: State, a: Action): State
    requires External(a)
  {
    match a
    case NewSubscription(s, limit) =>
      st.(subs := st.subs[s := SubState(NewSequencer(limit), NO_HISTORY)])
    case StartPool(ws) =>
      st.(threads := WithWorkers(st.threads, ws), pool := st.pool.(started := true, wg := st.pool.wg + |ws|))
    case BeginEnqueue(t, s, m, pooled) => st.(threads := st.threads[t := EnqLock(s, m, pooled)])
    case BeginSubmit(t, call, id) => st.(threads := st.threads[t := RLock(call, Job(id))])
    case BeginStop(t) => st.(threads := st.threads[t := StopFlag])
  }

  function WithWorkers(threads: map<Tid, PC>, ws: set<Tid>): (r: map<Tid, PC>)
  {
    threads + map t | t in ws :: Receive
  }

  /** The effect of an action by a goroutine that is at pc. */
  function Move(st: State, a: Action, pc: PC): State
    requires !External(a) && Ready(st, a, pc)
  {
    State(st.threads[a.t := NextPC(st, a, pc)], NextSubs(st, a, pc), NextPool(st.pool, a, pc),
          NextCallbackWg(st, a, pc), NextSignalled(st, a, pc))
  }

  /** Where the goroutine that acts goes. */
  function NextPC(st: State, a: Action, pc: PC): PC
    requires !External(a) && Ready(st, a, pc)
  {
    match a
    case EnqueueSection(_) =>
      (match EnqueueLocked(st.subs[pc.sub].q, pc.msg).1
       case Dropped(Some(n)) => AddSignal(pc.sub, n)
       case StartDrain => if pc.pooled then RLock(TrySubmit, Drain(pc.sub)) else AddDrain(pc.sub)
       case _ => Finished)
    case WgAdd(_) => if pc.AddDrain? then GoDrain(pc.sub) else GoSignal(pc.sub, pc.dropped)
    case Go(_) =>  // enqueue has nothing left to do: its identifier passes to the goroutine it launches
      if pc.GoDrain? then DrainLock(pc.sub, OnFallback) else SignalCallback(pc.sub, pc.dropped)
    case SignalDone(_) => Finished
    case TakeRLock(_) => Select1(pc.call, pc.task)
    case Proceed(_) => Select2(pc.call, pc.task)
    case GiveUp(_) => RUnlock(pc.call, pc.task, false)
    case Send(_) => if st.pool.closed then Finished else RUnlock(pc.call, pc.task, true)
    case ReleaseRLock(_) => AfterSubmit(pc)
    case DrainSection(_) =>
      (match DrainLocked(st.subs[pc.sub].q).1
       case None => DrainReturn(pc.host)
       case Some(m) => Callback(pc.sub, m, pc.host))
    case CallbackDone(_) => DrainLock(pc.sub, pc.host)
    case TaskReturn(_) => if pc.JobRun? || pc.host.OnWorker? then Receive else Finished
    case ReceiveTask(_) =>
      (match st.pool.queue[0]
       case Drain(s) => DrainLock(s, OnWorker(st.pool.taken))
       case Job(id) => JobRun(id, st.pool.taken))
    case WorkerExit(_) => Finished
    case StopStep(_) =>
      (match pc
       case StopFlag => if !st.pool.started || st.pool.stopped then Finished else StopCancel
       case StopCancel => StopLock
       case StopLock => StopAcquire
       case StopAcquire => StopClose
       case StopClose => if st.pool.closed then Finished else StopUnlock
       case StopUnlock => StopWait
       case StopWait => StopReturned
       case StopReturned => CloseReturned)
  }

  /** Where a submitter goes when its submit call has returned: enqueue retries a refused TrySubmit
      with Submit, and a refused Submit with a goroutine of its own. */
  function AfterSubmit(pc: PC): PC
    requires pc.RUnlock?
  {
    if pc.task.Job? then Submitted(pc.task.id, pc.ok)
    else if pc.ok then Finished
    else if pc.call.TrySubmit? then RLock(Submit, pc.task)
    else AddDrain(pc.task.sub)
  }

  function NextPool(p: Pool, a: Action, pc: PC): Pool {
    match a
    case TakeRLock(_) => p.(readers := p.readers + 1)
    case ReleaseRLock(_) => p.(readers := p.readers - 1)
    case Send(_) =>
      if p.closed then p.(panicked := true)
      else if pc.Select2? then p.(queue := p.queue + [pc.task], sent := p.sent + [pc.task])
      else p
    case ReceiveTask(_) => if p.queue == [] then p else p.(queue := p.queue[1..], taken := p.taken + 1)
    case TaskReturn(_) =>
      if pc.JobRun? then p.(ran := p.ran + [pc.ticket])
      else if pc.DrainReturn? && pc.host.OnWorker? then p.(ran := p.ran + [pc.host.ticket])
      else p
    case WorkerExit(_) => p.(wg := p.wg - 1)
    case StopStep(_) =>
      (match pc
       case StopFlag => if !p.started || p.stopped then p else p.(stopped := true)
       case StopCancel => p.(cancelled := true)
       case StopLock => p.(waiting := true)
       case StopAcquire => p.(waiting := false, writer := true)
       case StopClose => if p.closed then p.(panicked := true) else p.(closed := true)
       case StopUnlock => p.(writer := false)
       case _ => p)
    case _ => p
  }

  function NextSubs(st: State, a: Action, pc: PC): map<Sub, SubState>
    requires !External(a) && Ready(st, a, pc)
  {
    match a
    case EnqueueSection(_) =>
      var u := st.subs[pc.sub];
      st.subs[pc.sub := SubState(EnqueueLocked(u.q, pc.msg).0, RecordEnqueue(u.h, u.q, pc.msg))]
    case DrainSection(_) =>
      var u := st.subs[pc.sub];
      st.subs[pc.sub := u.(q := DrainLocked(u.q).0)]
    case CallbackDone(_) =>
      var u := st.subs[pc.sub];
      st.subs[pc.sub := u.(h := u.h.(delivered := u.h.delivered + [pc.msg]))]
    case _ => st.subs
  }

  function NextCallbackWg(st: State, a: Action, pc: PC): int {
    match a
    case WgAdd(_) => st.callbackWg + 1
    case SignalDone(_) => st.callbackWg - 1
    case TaskReturn(_) => if pc == DrainReturn(OnFallback) then st.callbackWg - 1 else st.callbackWg
    case _ => st.callbackWg
  }

  function NextSignalled(st: State, a: Action, pc: PC): map<Sub, seq<nat>> {
    if a.SignalDone? && pc.SignalCallback? then st.signalled[pc.sub := Signalled(st, pc.sub) + [pc.dropped]]
    else st.signalled
  }

  /** The states and actions of a run: each action is enabled where it is taken. */
  ghost predicate Run(st: State, acts: seq<Action>, st': State)
    decreases |acts|
  {
    if acts == [] then st == st'
    else Enabled(st, acts[0]) && Run(Apply(st, acts[0]), acts[1..], st')
  }
}
