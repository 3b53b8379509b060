/** What the delivery protocol owes besides the messages: a callback on every overflow signal, an answer to every
    submit call, and a goroutine of its own for a drain only once the pool has stopped taking tasks. */
module DeliverySignals {
  import opened Common
  import opened Sequencer
  import opened Delivery
  import opened DeliveryInv
  import opened DeliveryTasks
  import opened DeliveryTheorems
  import opened DeliveryLiveness

  // ----- Counting goroutines -----

  function At(ths: Threads, f: PC -> bool): set<Tid> {
    set t | t in ths && f(ths[t])
  }

  lemma AtGoto(ths: Threads, t: Tid, pc: PC, f: PC -> bool)
    ensures |At(ths[t := pc], f)| == |At(ths, f)| + One(f(pc)) - One(t in ths && f(ths[t]))
  {
    AtMembers(ths, t, pc, f);
    SizeOfSwap(At(ths, f), t, f(pc));
  }

  lemma AtMembers(ths: Threads, t: Tid, pc: PC, f: PC -> bool)
    ensures At(ths[t := pc], f) == At(ths, f) - {t} + if f(pc) then {t} else {}
  {
    forall u: Tid
      ensures u in At(ths[t := pc], f) <==> if u == t then f(pc) else u in At(ths, f)
    {
    }
  }

  lemma AtStart(ths: Threads, ws: set<Tid>, f: PC -> bool)
    requires ws !! ths.Keys && !f(Receive)
    ensures At(WithWorkers(ths, ws), f) == At(ths, f)
  {
    forall u: Tid
      ensures u in At(WithWorkers(ths, ws), f) <==> u in At(ths, f)
    {
    }
  }

  // ----- Overflow signals -----

  /** The goroutine is to run, or runs, the callback of s on an overflow signal. */
  predicate Signals(pc: PC, s: Sub) {
    (pc.AddSignal? || pc.GoSignal? || pc.SignalCallback?) && pc.sub == s
  }

  function SignalsFor(s: Sub): PC -> bool {
    pc => Signals(pc, s)
  }

  ghost predicate SignalInv(st: State, s: Sub) {
    && s in st.subs
    && HistoryInv(st.subs[s].q, st.subs[s].h)
    && |RunStarts(st.subs[s].h.offers)| == |Signalled(st, s)| + |At(st.threads, SignalsFor(s))|
    && (forall t | t in st.threads && Signals(st.threads[t], s) :: st.threads[t].dropped == 1)
    && (forall n | n in Signalled(st, s) :: n == 1)
  }

  /** Nobody signals for a subscription that does not exist. */
  ghost predicate NoSignals(st: State, s: Sub) {
    && (forall t | t in st.threads :: !Signals(st.threads[t], s) && !(st.threads[t].EnqLock? && st.threads[t].sub == s))
    && s !in st.signalled
  }

  ghost predicate SignalsKept(st: State) {
    forall s: Sub :: if s in st.subs then SignalInv(st, s) else NoSignals(st, s)
  }

  lemma SignalBegin(st: State, a: Action, s: Sub)
    requires SignalsKept(st) && External(a) && MayBegin(st, a)
    ensures var st' := Begin(st, a); if s in st'.subs then SignalInv(st', s) else NoSignals(st', s)
  {
    assert if s in st.subs then SignalInv(st, s) else NoSignals(st, s);
    var f := SignalsFor(s);
    match a
    case NewSubscription(_, _) =>
      if s !in st.subs {
        assert At(st.threads, f) == {};
      }
    case StartPool(ws) => AtStart(st.threads, ws, f);
    case BeginEnqueue(t, r, m, pooled) => AtGoto(st.threads, t, EnqLock(r, m, pooled), f);
    case BeginSubmit(t, call, id) => AtGoto(st.threads, t, RLock(call, Job(id)), f);
    case BeginStop(t) => AtGoto(st.threads, t, StopFlag, f);
  }

  /** The critical section of enqueue decides on a signal exactly when a run of drops begins. */
  lemma SignalEnqueue(st: State, a: Action, pc: PC, s: Sub)
    requires SignalInv(st, s) && Acts(st, a, pc) && a.EnqueueSection?
    ensures SignalInv(Move(st, a, pc), s)
  {
    AtGoto(st.threads, a.t, NextPC(st, a, pc), SignalsFor(s));
    EnqueueSignals(st, a, pc, s);
  }

  lemma EnqueueSignals(st: State, a: Action, pc: PC, s: Sub)
    requires s in st.subs && HistoryInv(st.subs[s].q, st.subs[s].h) && Acts(st, a, pc) && a.EnqueueSection?
    ensures s in NextSubs(st, a, pc)
    ensures var u, u' := st.subs[s], NextSubs(st, a, pc)[s];
            && HistoryInv(u'.q, u'.h)
            && |RunStarts(u'.h.offers)| == |RunStarts(u.h.offers)| + One(Signals(NextPC(st, a, pc), s))
    ensures Signals(NextPC(st, a, pc), s) ==> NextPC(st, a, pc).dropped == 1
    ensures !Signals(pc, s) && NextSignalled(st, a, pc) == st.signalled
  {
    if pc.sub == s {
      var u := st.subs[s];
      EnqueueKeepsHistory(u.q, u.h, pc.msg);
      NewSignalIsOne(u.q, u.h, pc.msg);
    }
  }

  lemma NewSignalIsOne(q: Sequencer, h: History, m: Message)
    requires HistoryInv(q, h)
    ensures match EnqueueLocked(q, m).1 case Dropped(Some(n)) => n == 1 case _ => true
    ensures |RecordEnqueue(h, q, m).signals|
         == |h.signals| + match EnqueueLocked(q, m).1 case Dropped(Some(n)) => 1 case _ => 0
  {
  }

  /** Every other step keeps the signals, moves one along, or completes one. */
  lemma SignalMove(st: State, a: Action, pc: PC, s: Sub)
    requires SignalInv(st, s) && Acts(st, a, pc) && !a.EnqueueSection?
    ensures SignalInv(Move(st, a, pc), s)
  {
    AtGoto(st.threads, a.t, NextPC(st, a, pc), SignalsFor(s));
    SignalPCs(st, a, pc, s);
    SignalSubs(st, a, pc, s);
    SignalCounts(st, a, pc, s);
  }

  lemma SignalCounts(st: State, a: Action, pc: PC, s: Sub)
    requires SignalInv(st, s) && Acts(st, a, pc) && !a.EnqueueSection?
    ensures var st' := Move(st, a, pc);
            && (forall t | t in st'.threads && Signals(st'.threads[t], s) :: st'.threads[t].dropped == 1)
            && (forall n | n in Signalled(st', s) :: n == 1)
            && |Signalled(st', s)| == |Signalled(st, s)| + One(a.SignalDone? && Signals(pc, s))
  {
    SignalPCs(st, a, pc, s);
  }

  lemma SignalPCs(st: State, a: Action, pc: PC, s: Sub)
    requires Acts(st, a, pc) && !a.EnqueueSection?
    ensures var pc' := NextPC(st, a, pc);
            if a.SignalDone? then !Signals(pc', s)
            else (Signals(pc', s) <==> Signals(pc, s)) && (Signals(pc, s) ==> pc'.dropped == pc.dropped)
    ensures var st' := Move(st, a, pc);
            Signalled(st', s)
            == Signalled(st, s) + if a.SignalDone? && pc.sub == s then [pc.dropped] else []
  {
  }

  lemma SignalSubs(st: State, a: Action, pc: PC, s: Sub)
    requires Acts(st, a, pc) && !a.EnqueueSection? && s in st.subs && HistoryInv(st.subs[s].q, st.subs[s].h)
    ensures s in NextSubs(st, a, pc) && NextSubs(st, a, pc)[s].h.offers == st.subs[s].h.offers
    ensures HistoryInv(NextSubs(st, a, pc)[s].q, NextSubs(st, a, pc)[s].h)
  {
    if a.DrainSection? && pc.sub == s {
      DrainKeepsHistory(st.subs[s].q, st.subs[s].h);
    }
  }

  lemma NoSignalMove(st: State, a: Action, pc: PC, s: Sub)
    requires NoSignals(st, s) && Acts(st, a, pc) && s !in st.subs
    ensures NoSignals(Move(st, a, pc), s) && s !in NextSubs(st, a, pc)
  {
  }

  lemma SignalStep(st: State, a: Action)
    requires SignalsKept(st) && Enabled(st, a)
    ensures SignalsKept(Apply(st, a))
  {
    forall s: Sub
      ensures if s in Apply(st, a).subs then SignalInv(Apply(st, a), s) else NoSignals(Apply(st, a), s)
    {
      if External(a) {
        SignalBegin(st, a, s);
      } else {
        var pc := st.threads[a.t];
        if s !in st.subs {
          NoSignalMove(st, a, pc, s);
        } else if a.EnqueueSection? {
          SignalEnqueue(st, a, pc, s);
        } else {
          SignalMove(st, a, pc, s);
        }
      }
    }
  }

  lemma {:induction false} SignalRun(st: State, acts: seq<Action>, st': State)
    requires SignalsKept(st) && Run(st, acts, st')
    ensures SignalsKept(st')
    decreases |acts|
  {
    if acts == [] {
    } else {
      SignalStep(st, acts[0]);
      SignalRun(Apply(st, acts[0]), acts[1..], st');
    }
  }

  /** In every reachable state the maximal runs of drops of a subscription are as many as the signals its callback has
      been run on and the goroutines that have yet to run it on one; each carries the count 1. */
  lemma SignalsAreDelivered(st: State, s: Sub)
    requires Reachable(st) && s in st.subs
    ensures |RunStarts(st.subs[s].h.offers)| == |Signalled(st, s)| + |At(st.threads, SignalsFor(s))|
    ensures forall t | t in st.threads && Signals(st.threads[t], s) :: st.threads[t].dropped == 1
    ensures forall n | n in Signalled(st, s) :: n == 1
  {
    var st0, acts :| Init(st0) && Run(st0, acts, st);
    assert SignalsKept(st0);
    SignalRun(st0, acts, st);
    assert SignalInv(st, s);
  }

  /** Where nothing can move, and when Close returns without an enqueue in progress, every overflow episode has been
      signalled: there is one callback for each maximal run of drops. */
  lemma AllSignalled(st: State, s: Sub)
    requires Reachable(st) && s in st.subs
    requires (st.pool.started && Settled(st)) || (NoEnqueue(st.threads) && st.callbackWg == 0)
    ensures |RunStarts(st.subs[s].h.offers)| == |Signalled(st, s)| && forall n | n in Signalled(st, s) :: n == 1
  {
    SignalsAreDelivered(st, s);
    if st.pool.started && Settled(st) {
      NoSignalsAtRest(st, s);
    } else {
      NoSignalsAtClose(st, s);
    }
    assert At(st.threads, SignalsFor(s)) == {};
  }

  lemma NoSignalsAtRest(st: State, s: Sub)
    requires Reachable(st) && st.pool.started && Settled(st)
    ensures forall t | t in st.threads :: !Signals(st.threads[t], s)
  {
    ReachableInv(st);
    SettledThreads(st);
    forall t | t in st.threads
      ensures !Signals(st.threads[t], s)
    {
      assert AtRest(st.threads[t]);
    }
  }

  lemma NoSignalsAtClose(st: State, s: Sub)
    requires Reachable(st) && NoEnqueue(st.threads) && st.callbackWg == 0
    ensures forall t | t in st.threads :: !Signals(st.threads[t], s)
  {
    ReachableCounts(st);
    NoneCast(st.threads, Tracked);
    forall t | t in st.threads
      ensures !Signals(st.threads[t], s)
    {
      assert !Enqueuing(st.threads[t]) && !Plays(st.threads[t], Tracked);
    }
  }

  // ----- Answers to submit calls -----

  /** A submit call for task id that has been, or is about to be, answered true. */
  predicate Accepted(pc: PC, id: nat) {
    pc == Submitted(id, true) || (pc.RUnlock? && pc.ok && pc.task == Job(id))
  }

  function AcceptedFor(id: nat): PC -> bool {
    pc => Accepted(pc, id)
  }

  ghost predicate JobInv(st: State, id: nat) {
    multiset(st.pool.sent)[Job(id)] == |At(st.threads, AcceptedFor(id))|
  }

  lemma JobMove(st: State, a: Action, pc: PC, id: nat)
    requires PoolInv(st.threads, st.pool) && JobInv(st, id) && Acts(st, a, pc)
    ensures JobInv(Move(st, a, pc), id)
  {
    AtGoto(st.threads, a.t, NextPC(st, a, pc), AcceptedFor(id));
    JobPCs(st, a, pc, id);
  }

  lemma JobPCs(st: State, a: Action, pc: PC, id: nat)
    requires PoolInv(st.threads, st.pool) && Acts(st, a, pc)
    ensures NextPool(st.pool, a, pc).sent == if a.Send? then st.pool.sent + [pc.task] else st.pool.sent
    ensures Accepted(NextPC(st, a, pc), id) <==> if a.Send? then pc.task == Job(id) else Accepted(pc, id)
    ensures a.Send? ==> !Accepted(pc, id)
  {
  }

  lemma JobStep(st: State, a: Action, id: nat)
    requires PoolInv(st.threads, st.pool) && JobInv(st, id) && Enabled(st, a)
    ensures JobInv(Apply(st, a), id)
  {
    var f := AcceptedFor(id);
    if a.StartPool? {
      AtStart(st.threads, a.workers, f);
    } else if a.BeginEnqueue? {
      AtGoto(st.threads, a.t, EnqLock(a.s, a.m, a.pooled), f);
    } else if a.BeginSubmit? {
      AtGoto(st.threads, a.t, RLock(a.call, Job(a.id)), f);
    } else if a.BeginStop? {
      AtGoto(st.threads, a.t, StopFlag, f);
    } else if !External(a) {
      JobMove(st, a, st.threads[a.t], id);
    }
  }

  lemma {:induction false} JobRunInv(st: State, acts: seq<Action>, st': State, id: nat)
    requires Inv(st) && JobInv(st, id) && Run(st, acts, st')
    ensures JobInv(st', id)
    decreases |acts|
  {
    if acts == [] {
    } else {
      JobStep(st, acts[0], id);
      InvStep(st, acts[0]);
      JobRunInv(Apply(st, acts[0]), acts[1..], st', id);
    }
  }

  /** A task has been queued exactly as often as submit calls for it have been answered true, or are about to be. */
  lemma AnswersAreTrue(st: State, id: nat)
    requires Reachable(st)
    ensures multiset(st.pool.sent)[Job(id)] == |At(st.threads, AcceptedFor(id))|
  {
    var st0, acts :| Init(st0) && Run(st0, acts, st);
    InitInv(st0);
    assert At(st0.threads, AcceptedFor(id)) == {};
    JobRunInv(st0, acts, st, id);
  }

  /** TrySubmit never waits for the queue: once it holds the read lock it can move at once, and it is refused only if
      the pool's context is done or the queue is full. Submit is refused only if that context is done. */
  lemma RefusedForAReason(st: State, t: Tid)
    requires Reachable(st) && t in st.threads && (st.threads[t].Select1? || st.threads[t].Select2?)
    ensures st.threads[t].call.TrySubmit? ==> exists a :: !External(a) && a.t == t && Enabled(st, a)
    ensures Enabled(st, GiveUp(t)) ==>
              || st.pool.cancelled || st.threads[t].call.SubmitWithContext?
              || (st.threads[t].call.TrySubmit? && |st.pool.queue| == st.pool.cap)
    ensures Enabled(st, Send(t)) ==> |st.pool.queue| < st.pool.cap && !st.pool.closed
  {
    ReachablePool(st);
    if st.threads[t].Select1? {
      assert Enabled(st, Proceed(t)) || Enabled(st, GiveUp(t));
    } else if st.threads[t].call.TrySubmit? {
      assert Enabled(st, Send(t)) || Enabled(st, GiveUp(t));
    }
  }

  // ----- The order of TrySubmit, Submit and the fallback -----

  /** Where a call of enqueue with a pool can be: it gives up on the pool only when Submit has been refused, and that
      only when the pool's context is done. */
  predicate OnItsWay(pc: PC, p: Pool) {
    match pc
    case EnqLock(_, _, pooled) => pooled
    case RLock(call, task) => task.Drain? && !call.SubmitWithContext?
    case Select1(call, task) => task.Drain? && !call.SubmitWithContext?
    case Select2(call, task) => task.Drain? && !call.SubmitWithContext?
    case RUnlock(call, task, ok) => task.Drain? && !call.SubmitWithContext? && (call.Submit? && !ok ==> p.cancelled)
    case AddDrain(_) => p.cancelled
    case GoDrain(_) => p.cancelled
    case DrainLock(_, host) => host.OnFallback? && p.cancelled
    case Callback(_, _, host) => host.OnFallback? && p.cancelled
    case DrainReturn(host) => host.OnFallback? && p.cancelled
    case AddSignal(_, _) => true
    case GoSignal(_, _) => true
    case SignalCallback(_, _) => true
    case Finished => true
    case _ => false
  }

  lemma WayStep(st: State, a: Action, t: Tid)
    requires Enabled(st, a) && t in st.threads && OnItsWay(st.threads[t], st.pool)
    ensures t in Apply(st, a).threads && OnItsWay(Apply(st, a).threads[t], Apply(st, a).pool)
  {
    if External(a) {
    } else if a.t == t {
      WayMove(st, a, st.threads[t]);
    } else if st.pool.cancelled {
      CancelledStays(st, a, st.threads[a.t]);
    }
  }

  lemma CancelledStays(st: State, a: Action, pc: PC)
    requires Acts(st, a, pc) && st.pool.cancelled
    ensures NextPool(st.pool, a, pc).cancelled
  {
    match a
    case EnqueueSection(_) =>
    case WgAdd(_) =>
    case Go(_) =>
    case SignalDone(_) =>
    case TakeRLock(_) =>
    case Proceed(_) =>
    case GiveUp(_) =>
    case Send(_) =>
    case ReleaseRLock(_) =>
    case DrainSection(_) =>
    case CallbackDone(_) =>
    case TaskReturn(_) =>
    case ReceiveTask(_) =>
    case WorkerExit(_) =>
    case StopStep(_) =>
  }

  lemma WayMove(st: State, a: Action, pc: PC)
    requires Acts(st, a, pc) && OnItsWay(pc, st.pool)
    ensures OnItsWay(NextPC(st, a, pc), NextPool(st.pool, a, pc))
  {
    if st.pool.cancelled {
      CancelledStays(st, a, pc);
    }
  }

  /** A drain is run on a goroutine of its own, for a call of enqueue that has a pool, only when the pool's context is
      done: otherwise TrySubmit or, when the queue is full, Submit has it run by the pool. */
  lemma {:induction false} FallbackIsLast(st: State, acts: seq<Action>, st': State, t: Tid)
    requires Run(st, acts, st') && t in st.threads && OnItsWay(st.threads[t], st.pool)
    ensures t in st'.threads && OnItsWay(st'.threads[t], st'.pool)
    decreases |acts|
  {
    if acts == [] {
    } else {
      WayStep(st, acts[0], t);
      FallbackIsLast(Apply(st, acts[0]), acts[1..], st', t);
    }
  }

  lemma EnqueueIsOnItsWay(st: State, t: Tid, s: Sub, m: Message)
    requires Enabled(st, BeginEnqueue(t, s, m, true))
    ensures OnItsWay(Apply(st, BeginEnqueue(t, s, m, true)).threads[t], st.pool)
  {
  }
}
