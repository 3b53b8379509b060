/** Progress: left to themselves, the goroutines of the delivery protocol settle after a bounded number
    of actions, whatever the schedule, and a settled system has delivered every accepted message. */
module DeliveryLiveness {
  import opened Common
  import opened Sequencer
  import opened Delivery
  import opened DeliveryInv
  import opened DeliveryTasks
  import opened DeliveryTheorems
  import opened Sums

  // ----- A bound on the work left -----

  /** Work left for a goroutine, not counting the messages and tasks it has yet to pick up. */
  function Work(pc: PC): nat {
    match pc
    case EnqLock(_, _, _) => 16
    case RLock(call, _) => if call.TrySubmit? then 13 else 9
    case Select1(call, _) => if call.TrySubmit? then 12 else 8
    case Select2(call, _) => if call.TrySubmit? then 11 else 7
    case RUnlock(call, _, ok) => if ok then 1 else if call.TrySubmit? then 10 else 6
    case AddDrain(_) => 5
    case GoDrain(_) => 4
    case AddSignal(_, _) => 3
    case GoSignal(_, _) => 2
    case SignalCallback(_, _) => 1
    case DrainLock(_, _) => 3
    case Callback(_, _, _) => 4
    case DrainReturn(_) => 2
    case JobRun(_, _) => 2
    case Receive => 1
    case StopFlag => 9
    case StopCancel => 8
    case StopLock => 7
    case StopAcquire => 6
    case StopClose => 5
    case StopUnlock => 4
    case StopWait => 3
    case StopReturned => 2
    case CloseReturned => 0
    case Submitted(_, _) => 0
    case Finished => 0
  }

  ghost function Works(ths: Threads): map<Tid, nat> { map t | t in ths :: Work(ths[t]) }

  ghost function Backlogs(subs: Subs): map<Sub, nat> { map s | s in subs :: |subs[s].q.queue| }

  ghost function WorkLeft(st: State): nat {
    Sum(Works(st.threads)) + 2 * Sum(Backlogs(st.subs)) + 3 * |st.pool.queue|
  }

  lemma WorksGoto(ths: Threads, t: Tid, pc: PC)
    ensures Sum(Works(ths[t := pc])) == Sum(Works(ths)) + Work(pc) - Work(PCOf(ths, t))
  {
    assert Works(ths[t := pc]) == Works(ths)[t := Work(pc)];
    SumUpdate(Works(ths), t, Work(pc));
  }

  lemma BacklogsSet(subs: Subs, s: Sub, u: SubState)
    requires s in subs
    ensures Sum(Backlogs(subs[s := u])) == Sum(Backlogs(subs)) + |u.q.queue| - |subs[s].q.queue|
  {
    assert Backlogs(subs[s := u]) == Backlogs(subs)[s := |u.q.queue|];
    SumUpdate(Backlogs(subs), s, |u.q.queue|);
  }

  /** A critical section of the sequencer sheds more work than it adds. */
  lemma WorkOfSection(st: State, a: Action, pc: PC)
    requires Acts(st, a, pc) && (a.EnqueueSection? || a.DrainSection?)
    ensures Work(NextPC(st, a, pc)) + 2 * |NextSubs(st, a, pc)[pc.sub].q.queue|
          < Work(pc) + 2 * |st.subs[pc.sub].q.queue|
    ensures NextPool(st.pool, a, pc) == st.pool
  {
  }

  /** So does every other action, tasks queued included. */
  lemma WorkMoves(st: State, a: Action, pc: PC)
    requires Acts(st, a, pc) && !a.EnqueueSection? && !a.DrainSection?
    ensures Work(NextPC(st, a, pc)) + 3 * |NextPool(st.pool, a, pc).queue| < Work(pc) + 3 * |st.pool.queue|
  {
    match a
    case WgAdd(_) =>
    case Go(_) =>
    case SignalDone(_) =>
    case TakeRLock(_) =>
    case Proceed(_) =>
    case GiveUp(_) =>
    case Send(_) =>
    case ReleaseRLock(_) =>
    case CallbackDone(_) =>
    case TaskReturn(_) =>
    case ReceiveTask(_) =>
    case WorkerExit(_) =>
    case StopStep(_) =>
  }

  lemma WorkShrinks(st: State, a: Action)
    requires Enabled(st, a) && !External(a)
    ensures WorkLeft(Apply(st, a)) < WorkLeft(st)
  {
    var pc := st.threads[a.t];
    var subs' := NextSubs(st, a, pc);
    WorksGoto(st.threads, a.t, NextPC(st, a, pc));
    if a.EnqueueSection? || a.DrainSection? {
      WorkOfSection(st, a, pc);
      BacklogsSet(st.subs, pc.sub, subs'[pc.sub]);
    } else {
      WorkMoves(st, a, pc);
      if a.CallbackDone? {
        BacklogsSet(st.subs, pc.sub, subs'[pc.sub]);
      }
    }
  }

  /** However the scheduler chooses, only that many actions can follow without a new call. */
  lemma {:induction false} RunsAreBounded(st: State, acts: seq<Action>, st': State)
    requires Run(st, acts, st') && forall a | a in acts :: !External(a)
    ensures |acts| + WorkLeft(st') <= WorkLeft(st)
    decreases |acts|
  {
    if acts == [] {
    } else {
      assert acts[0] in acts && forall a | a in acts[1..] :: a in acts;
      WorkShrinks(st, acts[0]);
      RunsAreBounded(Apply(st, acts[0]), acts[1..], st');
    }
  }

  // ----- A system that cannot move has delivered everything -----

  ghost predicate Settled(st: State) {
    forall a | !External(a) :: !Enabled(st, a)
  }

  /** Goroutines that can always move. */
  lemma FreeToMove(st: State, t: Tid)
    requires TokenInv(st.threads, st.pool.queue, st.subs) && t in st.threads
    requires var pc := st.threads[t];
             pc.EnqLock? || pc.AddDrain? || pc.AddSignal? || pc.RUnlock? || Plays(pc, Tracked)
             || (Plays(pc, Worker) && !pc.Receive?)
    ensures !Settled(st)
  {
    var pc := st.threads[t];
    assert Token(pc).Some? ==> Token(pc).value in st.subs;
    match pc
    case EnqLock(_, _, _) => assert Enabled(st, EnqueueSection(t));
    case AddDrain(_) => assert Enabled(st, WgAdd(t));
    case AddSignal(_, _) => assert Enabled(st, WgAdd(t));
    case GoDrain(_) => assert Enabled(st, Go(t));
    case GoSignal(_, _) => assert Enabled(st, Go(t));
    case SignalCallback(_, _) => assert Enabled(st, SignalDone(t));
    case RUnlock(_, _, _) => assert Enabled(st, ReleaseRLock(t));
    case _ => RunnerMoves(st, t);
  }

  lemma RunnerMoves(st: State, t: Tid)
    requires TokenInv(st.threads, st.pool.queue, st.subs) && t in st.threads
    requires var pc := st.threads[t]; pc.DrainLock? || pc.Callback? || pc.DrainReturn? || pc.JobRun?
    ensures !Settled(st)
  {
    var pc := st.threads[t];
    assert Token(pc).Some? ==> Token(pc).value in st.subs;
    match pc
    case DrainLock(_, _) => assert Enabled(st, DrainSection(t));
    case Callback(_, _, _) => assert Enabled(st, CallbackDone(t));
    case DrainReturn(_) => assert Enabled(st, TaskReturn(t));
    case JobRun(_, _) => assert Enabled(st, TaskReturn(t));
  }

  /** A worker moves unless there is nothing to do and the queue is open. */
  lemma WorkerMoves(st: State, t: Tid)
    requires TokenInv(st.threads, st.pool.queue, st.subs) && t in st.threads && Plays(st.threads[t], Worker)
    requires st.pool.queue != [] || st.pool.closed
    ensures !Settled(st)
  {
    if st.threads[t].Receive? {
      assert Enabled(st, ReceiveTask(t)) || Enabled(st, WorkerExit(t));
    } else {
      FreeToMove(st, t);
    }
  }

  lemma QueuedTaskMoves(st: State)
    requires PoolInv(st.threads, st.pool) && TokenInv(st.threads, st.pool.queue, st.subs)
    requires st.pool.started && st.pool.queue != []
    ensures !Settled(st)
  {
    var w :| w in st.threads && Plays(st.threads[w], Worker);
    WorkerMoves(st, w);
  }

  ghost predicate Sound(st: State) {
    && CountInv(st.threads, st.pool, st.callbackWg) && PoolInv(st.threads, st.pool)
    && TokenInv(st.threads, st.pool.queue, st.subs)
  }

  lemma SomeCast(ths: Threads, r: Role) returns (t: Tid)
    requires |Cast(ths, r)| != 0
    ensures t in ths && Plays(ths[t], r)
  {
    t :| t in Cast(ths, r);
  }

  /** The Stop call that owns the shutdown is never stuck. */
  lemma OwnerMoves(st: State, t: Tid)
    requires Sound(st) && t in st.threads && 0 < Phase(st.threads[t]) < 8
    ensures !Settled(st)
  {
    var pc := st.threads[t];
    if pc.StopAcquire? && st.pool.readers != 0 {
      var r := SomeCast(st.threads, Reader);
      ReaderEnabled(st, r);
    } else if pc.StopWait? && st.pool.wg != 0 {
      var w := SomeCast(st.threads, Worker);
      WorkerMoves(st, w);
    } else if pc.StopReturned? && st.callbackWg != 0 {
      var w := SomeCast(st.threads, Tracked);
      FreeToMove(st, w);
    } else {
      OwnerSteps(st, t);
    }
  }

  lemma OwnerSteps(st: State, t: Tid)
    requires PoolInv(st.threads, st.pool) && t in st.threads && 0 < Phase(st.threads[t]) < 8
    requires var pc := st.threads[t];
             && (pc.StopAcquire? ==> st.pool.readers == 0) && (pc.StopWait? ==> st.pool.wg == 0)
             && (pc.StopReturned? ==> st.callbackWg == 0)
    ensures !Settled(st)
  {
    assert Enabled(st, StopStep(t));
  }

  lemma LockerMoves(st: State, t: Tid)
    requires Sound(st) && t in st.threads && st.threads[t].RLock?
    ensures !Settled(st)
  {
    if st.pool.writer || st.pool.waiting {
      var o :| o in st.threads && Phase(st.threads[o]) > 0;
      OwnerMoves(st, o);
    } else {
      assert Enabled(st, TakeRLock(t));
    }
  }

  lemma SenderMoves(st: State, t: Tid)
    requires PoolInv(st.threads, st.pool) && TokenInv(st.threads, st.pool.queue, st.subs)
    requires st.pool.started && t in st.threads && (st.threads[t].Select1? || st.threads[t].Select2?)
    ensures !Settled(st)
  {
    if st.threads[t].Select1? {
      assert Enabled(st, GiveUp(t)) || Enabled(st, Proceed(t));
    } else if |st.pool.queue| < st.pool.cap {
      assert Enabled(st, Send(t));
    } else {
      QueuedTaskMoves(st);
    }
  }

  predicate AtRest(pc: PC) { pc.Finished? || pc.Submitted? || pc.Receive? || pc.CloseReturned? }

  lemma ThreadMoves(st: State, t: Tid)
    requires Sound(st) && st.pool.started && t in st.threads && !AtRest(st.threads[t])
    ensures !Settled(st)
  {
    var pc := st.threads[t];
    if pc.RLock? {
      LockerMoves(st, t);
    } else if pc.Select1? || pc.Select2? {
      SenderMoves(st, t);
    } else if 0 < Phase(pc) < 8 {
      OwnerMoves(st, t);
    } else if pc.StopFlag? {
      assert Enabled(st, StopStep(t));
    } else {
      FreeToMove(st, t);
    }
  }

  /** Where every goroutine of a settled system is, and that the pool's queue is empty. */
  lemma SettledThreads(st: State)
    requires Sound(st) && st.pool.started && Settled(st)
    ensures forall t | t in st.threads :: AtRest(st.threads[t])
    ensures st.pool.queue == []
  {
    forall t | t in st.threads && !AtRest(st.threads[t])
      ensures false
    {
      ThreadMoves(st, t);
    }
    if st.pool.queue != [] {
      QueuedTaskMoves(st);
    }
  }

  /** Every accepted message is delivered: from any reachable state of a started pool, any way of
      letting the goroutines go on takes at most WorkLeft(st) actions, and if it stops only because
      nothing can move, every subscription has been handed everything it accepted and every queued
      task has run. */
  lemma EventualDelivery(st: State, acts: seq<Action>, st': State)
    requires Reachable(st) && Run(st, acts, st') && st'.pool.started && forall a | a in acts :: !External(a)
    ensures |acts| <= WorkLeft(st)
    ensures Settled(st') ==>
              && (forall s | s in st'.subs ::
                    st'.subs[s].q.queue == [] && st'.subs[s].h.delivered == st'.subs[s].h.accepted)
              && (forall n | 0 <= n < |st'.pool.sent| :: n in st'.pool.ran)
  {
    RunsAreBounded(st, acts, st');
    InvAfter(st, acts, st');
    if Settled(st') {
      SettledIsDelivered(st');
    }
  }

  lemma InvAfter(st: State, acts: seq<Action>, st': State)
    requires Reachable(st) && Run(st, acts, st')
    ensures Inv(st')
  {
    ReachableInv(st);
    InvRun(st, acts, st');
  }

  lemma SettledIsDelivered(st: State)
    requires Inv(st) && st.pool.started && Settled(st)
    ensures forall s | s in st.subs ::
              st.subs[s].q.queue == [] && st.subs[s].h.delivered == st.subs[s].h.accepted
    ensures forall n | 0 <= n < |st.pool.sent| :: n in st.pool.ran
  {
    SettledThreads(st);
    RestIsEmptyHanded(st.threads);
    AllRan(st.threads, st.pool);
    NonePending(st);
  }

  lemma NonePending(st: State)
    requires TokenInv(st.threads, st.pool.queue, st.subs) && FlowInv(st.threads, st.subs) && st.pool.queue == []
    requires forall t | t in st.threads :: Token(st.threads[t]).None?
    ensures forall s | s in st.subs ::
              st.subs[s].q.queue == [] && st.subs[s].h.delivered == st.subs[s].h.accepted
  {
    forall s | s in st.subs
      ensures st.subs[s].q.queue == [] && st.subs[s].h.delivered == st.subs[s].h.accepted
    {
      NothingPending(st, s);
    }
  }

  lemma RestIsEmptyHanded(ths: Threads)
    requires forall t | t in ths :: AtRest(ths[t])
    ensures forall t | t in ths :: Token(ths[t]).None? && Ticket(ths[t]).None?
  {
    forall t | t in ths
      ensures Token(ths[t]).None? && Ticket(ths[t]).None?
    {
      assert AtRest(ths[t]);
    }
  }

  lemma AllRan(ths: Threads, p: Pool)
    requires TicketInv(ths, p) && p.queue == [] && forall t | t in ths :: Ticket(ths[t]).None?
    ensures forall n | 0 <= n < |p.sent| :: n in p.ran
  {
    assert forall n: nat :: !Running(ths, n);
  }
}
