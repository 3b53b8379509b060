/** What the delivery protocol guarantees over whole runs. */
module DeliveryTheorems {
  import opened Common
  import opened Sequencer
  import opened Delivery
  import opened DeliveryInv
  import opened DeliveryTasks

  ghost predicate Reachable(st: State) {
    exists st0, acts :: Init(st0) && Run(st0, acts, st)
  }

  lemma ReachableInv(st: State)
    requires Reachable(st)
    ensures Inv(st)
  {
    var st0, acts :| Init(st0) && Run(st0, acts, st);
    InitInv(st0);
    InvRun(st0, acts, st);
  }

  // The parts of the invariant, one by one.

  lemma ReachableCounts(st: State)
    requires Reachable(st)
    ensures CountInv(st.threads, st.pool, st.callbackWg)
  {
    ReachableInv(st);
  }

  lemma ReachablePool(st: State)
    requires Reachable(st)
    ensures PoolInv(st.threads, st.pool)
  {
    ReachableInv(st);
  }

  lemma ReachableTickets(st: State)
    requires Reachable(st)
    ensures TicketInv(st.threads, st.pool)
  {
    ReachableInv(st);
  }

  lemma ReachableTokens(st: State)
    requires Reachable(st)
    ensures TokenInv(st.threads, st.pool.queue, st.subs)
  {
    ReachableInv(st);
  }

  lemma ReachableFlow(st: State)
    requires Reachable(st)
    ensures FlowInv(st.threads, st.subs)
  {
    ReachableInv(st);
  }

  // ----- Ordered, non-overlapping delivery -----

  /** The message inside the callback of s, if any. */
  ghost predicate InFlight(st: State, s: Sub, flight: seq<Message>) {
    if Delivering(st.threads, s) then
      exists t :: t in st.threads && st.threads[t].Callback? && st.threads[t].sub == s && flight == [st.threads[t].msg]
    else
      flight == []
  }

  /** In every reachable state the accepted messages of a subscription are those delivered, then at
      most one in its callback, then those queued; so delivery follows acceptance without gaps,
      repetitions or reordering. */
  lemma FifoDelivery(st: State, s: Sub) returns (flight: seq<Message>)
    requires Reachable(st) && s in st.subs
    ensures |flight| <= 1 && InFlight(st, s, flight)
    ensures st.subs[s].h.accepted == st.subs[s].h.delivered + flight + st.subs[s].q.queue
    ensures st.subs[s].h.delivered <= st.subs[s].h.accepted == Kept(st.subs[s].h.offers)
  {
    ReachableFlow(st);
    if Delivering(st.threads, s) {
      var t :| t in st.threads && st.threads[t].Callback? && st.threads[t].sub == s;
      flight := [st.threads[t].msg];
    } else {
      flight := [];
    }
  }

  lemma NoOverlap(st: State, s: Sub, t: Tid, u: Tid)
    requires Reachable(st) && t in st.threads && u in st.threads
    requires st.threads[t].Callback? && st.threads[u].Callback? && st.threads[t].sub == s == st.threads[u].sub
    ensures t == u
  {
    ReachableTokens(st);
    SoleCallback(st.threads, st.pool.queue, st.subs, t, s);
  }

  // ----- The drain token -----

  /** The places a drain token can be. */
  datatype Place = Held(t: Tid) | InQueue(i: nat)

  predicate TokenAt(st: State, s: Sub, pl: Place) {
    match pl
    case Held(t) => t in st.threads && Token(st.threads[t]) == Some(s)
    case InQueue(i) => i < |st.pool.queue| && st.pool.queue[i] == Drain(s)
  }

  /** active is true exactly when a token exists, a second token never does, and a non-empty queue
      always has one: no wake-up is lost and no second drain starts. */
  lemma OneToken(st: State, s: Sub)
    requires Reachable(st) && s in st.subs
    ensures st.subs[s].q.active <==> exists pl :: TokenAt(st, s, pl)
    ensures forall p1, p2 :: TokenAt(st, s, p1) && TokenAt(st, s, p2) ==> p1 == p2
    ensures st.subs[s].q.queue != [] ==> exists pl :: TokenAt(st, s, pl)
  {
    ReachableTokens(st);
    var q := st.pool.queue;
    if Drain(s) in q {
      var i :| 0 <= i < |q| && q[i] == Drain(s);
      assert TokenAt(st, s, InQueue(i));
    } else if Carried(st.threads, s) {
      var t :| t in st.threads && Token(st.threads[t]) == Some(s);
      assert TokenAt(st, s, Held(t));
    }
    assert forall t | t in st.threads && Token(st.threads[t]) == Some(s) :: Carried(st.threads, s);
    forall p1, p2 | TokenAt(st, s, p1) && TokenAt(st, s, p2)
      ensures p1 == p2
    {
      if p1.InQueue? && p2.InQueue? {
        assert q[p1.i] == q[p2.i];
      }
    }
    forall pl | TokenAt(st, s, pl)
      ensures st.subs[s].q.active
    {
      if pl.InQueue? { assert Drain(s) in q; } else { assert Carried(st.threads, s); }
    }
  }

  // ----- Overflow episodes -----

  lemma OverflowAccounting(st: State, s: Sub)
    requires Reachable(st) && s in st.subs
    ensures var q, h := st.subs[s].q, st.subs[s].h;
            && EndsWithDrops(h.offers, q.dropCount) && q.overflowing == (q.dropCount > 0)
            && |h.signals| == |RunStarts(h.offers)| && (forall n | n in h.signals :: n == 1)
            && (forall o | o in h.offers :: !o.kept <==> q.limit > 0 && o.depth == q.limit)
            && |h.offers| == |h.accepted| + Drops(h.offers)
            && (q.limit > 0 ==> |q.queue| <= q.limit)
  {
    ReachableFlow(st);
  }

  // ----- The worker pool -----

  /** Nothing is ever sent on the closed queue, which is closed once; what is queued is what was sent and not
      received, in its order, and fits; a worker runs the task it received; and when the Stop call that closed
      the queue has returned, every task ever queued has been run, once. */
  lemma StopDrainsPool(st: State)
    requires Reachable(st)
    ensures !st.pool.panicked
    ensures st.pool.taken <= |st.pool.sent| && st.pool.queue == st.pool.sent[st.pool.taken..]
            && |st.pool.queue| <= st.pool.cap
    ensures forall t | t in st.threads :: RunsItsTask(st.pool, st.threads[t])
    ensures forall i, j | 0 <= i < j < |st.pool.ran| :: st.pool.ran[i] != st.pool.ran[j]
    ensures forall n | n in st.pool.ran :: 0 <= n < |st.pool.sent|
    ensures (exists t :: t in st.threads && Phase(st.threads[t]) >= 7) ==>
              forall n | 0 <= n < |st.pool.sent| :: n in st.pool.ran
  {
    ReachablePool(st);
    ReachableTickets(st);
    if t :| t in st.threads && Phase(st.threads[t]) >= 7 {
      NoWorkersLeft(st, t);
    }
  }

  lemma NoWorkersLeft(st: State, t: Tid)
    requires PoolInv(st.threads, st.pool) && TicketInv(st.threads, st.pool)
    requires t in st.threads && Phase(st.threads[t]) >= 7
    ensures !HasWorker(st.threads) && st.pool.queue == [] && st.pool.taken == |st.pool.sent|
    ensures forall n: nat :: !Running(st.threads, n)
  {
    forall w | w in st.threads
      ensures Ticket(st.threads[w]).None?
    {
      assert !Plays(st.threads[w], Worker);
    }
  }

  /** While a Stop call waits for submitMu, every submitter holding the read lock can move. */
  lemma ReadersLeave(st: State, t: Tid)
    requires Reachable(st) && st.pool.waiting && t in st.threads && Plays(st.threads[t], Reader)
    ensures exists a :: !External(a) && a.t == t && Enabled(st, a)
  {
    ReachablePool(st);
    ReaderEnabled(st, t);
  }

  lemma ReaderEnabled(st: State, t: Tid)
    requires PoolInv(st.threads, st.pool) && st.pool.cancelled
    requires t in st.threads && Plays(st.threads[t], Reader)
    ensures exists a :: !External(a) && a.t == t && Enabled(st, a)
  {
    match st.threads[t]
    case Select1(_, _) => assert Enabled(st, GiveUp(t));
    case Select2(_, _) => assert Enabled(st, GiveUp(t)) || Enabled(st, Send(t));
    case RUnlock(_, _, _) => assert Enabled(st, ReleaseRLock(t));
  }

  // ----- Shutdown -----

  /** The goroutine is inside enqueue. */
  predicate Enqueuing(pc: PC) {
    match pc
    case EnqLock(_, _, _) => true
    case AddDrain(_) => true
    case GoDrain(_) => true
    case AddSignal(_, _) => true
    case GoSignal(_, _) => true
    case RLock(_, task) => task.Drain?
    case Select1(_, task) => task.Drain?
    case Select2(_, task) => task.Drain?
    case RUnlock(_, task, _) => task.Drain?
    case _ => false
  }

  ghost predicate NoEnqueue(ths: Threads) {
    forall t | t in ths :: !Enqueuing(ths[t])
  }

  ghost predicate CloseDone(ths: Threads) {
    exists t :: t in ths && ths[t].CloseReturned?
  }

  ghost predicate Winding(ths: Threads) {
    NoEnqueue(ths) && (CloseDone(ths) ==> forall t | t in ths :: !Plays(ths[t], Tracked))
  }

  lemma NoEnqueueMoves(st: State, a: Action, pc: PC)
    requires Acts(st, a, pc) && !Enqueuing(pc)
    ensures !Enqueuing(NextPC(st, a, pc))
    ensures Plays(NextPC(st, a, pc), Tracked) ==> Plays(pc, Tracked)
    ensures NextPC(st, a, pc).CloseReturned? ==> st.callbackWg == 0
  {
  }

  lemma WindingMove(ths: Threads, t: Tid, pc: PC)
    requires Winding(ths) && !Enqueuing(pc) && (Plays(pc, Tracked) ==> Plays(PCOf(ths, t), Tracked))
    requires pc.CloseReturned? ==> forall u | u in ths :: !Plays(ths[u], Tracked)
    ensures Winding(ths[t := pc])
  {
  }

  lemma WindingBegin(st: State, a: Action)
    requires Winding(st.threads) && External(a) && MayBegin(st, a) && !a.BeginEnqueue?
    ensures Winding(Begin(st, a).threads)
  {
    match a
    case NewSubscription(_, _) =>
    case StartPool(ws) =>
      assert forall t | t in WithWorkers(st.threads, ws) :: t in st.threads || t in ws;
    case BeginSubmit(t, call, id) => WindingMove(st.threads, t, RLock(call, Job(id)));
    case BeginStop(t) => WindingMove(st.threads, t, StopFlag);
  }

  lemma WindingStep(st: State, a: Action, pc: PC)
    requires CountInv(st.threads, st.pool, st.callbackWg) && Winding(st.threads) && Acts(st, a, pc)
    ensures Winding(Move(st, a, pc).threads)
  {
    NoEnqueueMoves(st, a, pc);
    if st.callbackWg == 0 { NoneCast(st.threads, Tracked); }
    WindingMove(st.threads, a.t, NextPC(st, a, pc));
  }

  /** No token anywhere: everything accepted has been delivered. */
  lemma NothingPending(st: State, s: Sub)
    requires TokenInv(st.threads, st.pool.queue, st.subs) && FlowInv(st.threads, st.subs) && s in st.subs
    requires Drain(s) !in st.pool.queue && forall t | t in st.threads :: Token(st.threads[t]) != Some(s)
    ensures st.subs[s].q.queue == [] && st.subs[s].h.delivered == st.subs[s].h.accepted
  {
    assert !Carried(st.threads, s);
    forall t | t in st.threads && st.threads[t].Callback?
      ensures st.threads[t].sub != s
    {
      assert Token(st.threads[t]) == Some(st.threads[t].sub);
    }
    assert !Delivering(st.threads, s);
  }

  lemma {:induction false} WindingRun(st: State, acts: seq<Action>, st': State)
    requires Inv(st) && Winding(st.threads) && Run(st, acts, st') && forall a | a in acts :: !a.BeginEnqueue?
    ensures Inv(st') && Winding(st'.threads)
    decreases |acts|
  {
    if acts == [] {
    } else {
      assert acts[0] in acts && forall a | a in acts[1..] :: a in acts;
      InvStep(st, acts[0]);
      if External(acts[0]) {
        WindingBegin(st, acts[0]);
      } else {
        WindingStep(st, acts[0], st.threads[acts[0].t]);
      }
      WindingRun(Apply(st, acts[0]), acts[1..], st');
    }
  }

  lemma NoTokenLeft(st: State, t: Tid)
    requires PoolInv(st.threads, st.pool) && Winding(st.threads) && t in st.threads && st.threads[t].CloseReturned?
    ensures forall u | u in st.threads :: Token(st.threads[u]).None?
  {
    assert Phase(st.threads[t]) >= 7;
    forall u | u in st.threads
      ensures Token(st.threads[u]).None?
    {
      var pc := st.threads[u];
      assert !Enqueuing(pc) && !Plays(pc, Tracked) && !Plays(pc, Worker);
    }
  }

  /** SubMux.Close: if at some moment before Close returns no enqueue is in progress, and none starts
      afterwards, then once the pool's Stop and callbackWg.Wait have returned every subscription has
      been handed every message it accepted. */
  lemma CloseDeliversAll(st: State, acts: seq<Action>, st': State, s: Sub)
    requires Reachable(st) && NoEnqueue(st.threads) && !CloseDone(st.threads)
    requires Run(st, acts, st') && (forall a | a in acts :: !a.BeginEnqueue?)
    requires CloseDone(st'.threads) && s in st'.subs
    ensures st'.subs[s].q.queue == [] && st'.subs[s].h.delivered == st'.subs[s].h.accepted
  {
    ReachableInv(st);
    WindingRun(st, acts, st');
    ClosedIsDelivered(st', s);
  }

  lemma ClosedIsEmpty(st: State)
    requires PoolInv(st.threads, st.pool) && TicketInv(st.threads, st.pool)
    requires Winding(st.threads) && CloseDone(st.threads)
    ensures st.pool.queue == [] && forall u | u in st.threads :: Token(st.threads[u]).None?
  {
    var t :| t in st.threads && st.threads[t].CloseReturned?;
    NoWorkersLeft(st, t);
    NoTokenLeft(st, t);
  }

  lemma ClosedIsDelivered(st: State, s: Sub)
    requires PoolInv(st.threads, st.pool) && TicketInv(st.threads, st.pool)
    requires TokenInv(st.threads, st.pool.queue, st.subs) && FlowInv(st.threads, st.subs)
    requires Winding(st.threads) && CloseDone(st.threads) && s in st.subs
    ensures st.subs[s].q.queue == [] && st.subs[s].h.delivered == st.subs[s].h.accepted
  {
    ClosedIsEmpty(st);
    NothingPending(st, s);
  }
}
