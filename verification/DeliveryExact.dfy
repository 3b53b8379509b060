/** What Close leaves behind, exactly: the invariant that a drain not yet begun has something to drain, and
    its consequence for shutdown. */
module DeliveryExact {
  import opened Common
  import opened Delivery
  import opened DeliveryInv
  import opened DeliveryTasks
  import opened DeliveryTheorems
  import opened Sequencer

  /** The subscription has something queued. */
  predicate Laden(subs: Subs, s: Sub) {
    s in subs && subs[s].q.queue != []
  }

  /** The goroutine carries the token of s and has not begun to drain. */
  predicate Submits(pc: PC, s: Sub) {
    Token(pc) == Some(s) && !Hosted(pc)
  }

  /** A drain that is being submitted, or waits in the pool, finds a message. */
  ghost predicate LoadInv(ths: Threads, queue: seq<Task>, subs: Subs) {
    && (forall t, s: Sub | t in ths && Submits(ths[t], s) :: Laden(subs, s))
    && (forall i | 0 <= i < |queue| && queue[i].Drain? :: Laden(subs, queue[i].sub))
  }

  /** A goroutine moves on without taking up a token. */
  lemma LoadMove(ths: Threads, queue: seq<Task>, subs: Subs, t: Tid, pc: PC)
    requires LoadInv(ths, queue, subs)
    requires forall s: Sub | Submits(pc, s) :: Submits(PCOf(ths, t), s)
    ensures LoadInv(ths[t := pc], queue, subs)
  {
  }

  lemma LoadBegin(st: State, a: Action)
    requires LoadInv(st.threads, st.pool.queue, st.subs) && External(a) && MayBegin(st, a)
    ensures var st' := Begin(st, a); LoadInv(st'.threads, st'.pool.queue, st'.subs)
  {
    match a
    case NewSubscription(_, _) =>
      assert forall s: Sub | Laden(st.subs, s) :: Laden(Begin(st, a).subs, s);
    case StartPool(ws) =>
      assert forall t | t in WithWorkers(st.threads, ws) && t !in st.threads ::
               WithWorkers(st.threads, ws)[t] == Receive;
    case BeginEnqueue(t, s, m, pooled) => LoadMove(st.threads, st.pool.queue, st.subs, t, EnqLock(s, m, pooled));
    case BeginSubmit(t, call, id) => LoadMove(st.threads, st.pool.queue, st.subs, t, RLock(call, Job(id)));
    case BeginStop(t) => LoadMove(st.threads, st.pool.queue, st.subs, t, StopFlag);
  }

  /** Accepting a message leaves the queue with one, dropping it leaves the queue as it is. */
  lemma LoadEnqueue(st: State, a: Action, pc: PC)
    requires LoadInv(st.threads, st.pool.queue, st.subs) && Acts(st, a, pc) && a.EnqueueSection?
    ensures var st' := Move(st, a, pc); LoadInv(st'.threads, st'.pool.queue, st'.subs)
  {
    var st' := Move(st, a, pc);
    assert forall s: Sub | Laden(st.subs, s) :: Laden(st'.subs, s);
    assert forall s: Sub | Submits(st'.threads[a.t], s) :: s == pc.sub && Laden(st'.subs, s);
  }

  /** Only the holder of the one token takes messages out. */
  lemma LoadDrain(st: State, a: Action, pc: PC)
    requires TokenInv(st.threads, st.pool.queue, st.subs) && LoadInv(st.threads, st.pool.queue, st.subs)
    requires Acts(st, a, pc) && a.DrainSection?
    ensures var st' := Move(st, a, pc); LoadInv(st'.threads, st'.pool.queue, st'.subs)
  {
    var ths, queue := st.threads, st.pool.queue;
    var st' := Move(st, a, pc);
    assert Token(ths[a.t]) == Some(pc.sub) && Carried(ths, pc.sub);
    assert forall s: Sub | s != pc.sub && Laden(st.subs, s) :: Laden(st'.subs, s);
    forall t, s: Sub | t in st'.threads && Submits(st'.threads[t], s)
      ensures Laden(st'.subs, s)
    {
      assert t != a.t && Submits(ths[t], s) && s != pc.sub;
    }
  }

  lemma LoadQueue(st: State, a: Action, pc: PC)
    requires LoadInv(st.threads, st.pool.queue, st.subs) && Acts(st, a, pc) && (a.Send? || a.ReceiveTask?)
    ensures var st' := Move(st, a, pc); LoadInv(st'.threads, st'.pool.queue, st'.subs)
  {
    if a.Send? && pc.task.Drain? {
      assert Submits(pc, pc.task.sub);
    }
    LoadMove(st.threads, st.pool.queue, st.subs, a.t, NextPC(st, a, pc));
  }

  /** Every other action takes its goroutine's token along or leaves it behind. */
  lemma LoadMoves(st: State, a: Action, pc: PC)
    requires Acts(st, a, pc) && !a.EnqueueSection? && !a.DrainSection? && !a.Send? && !a.ReceiveTask?
    ensures forall s: Sub | Submits(NextPC(st, a, pc), s) :: Submits(pc, s)
    ensures NextPool(st.pool, a, pc).queue == st.pool.queue
    ensures forall s: Sub | Laden(st.subs, s) :: Laden(NextSubs(st, a, pc), s)
  {
  }

  lemma LoadStep(st: State, a: Action)
    requires TokenInv(st.threads, st.pool.queue, st.subs) && LoadInv(st.threads, st.pool.queue, st.subs)
    requires Enabled(st, a)
    ensures var st' := Apply(st, a); LoadInv(st'.threads, st'.pool.queue, st'.subs)
  {
    if External(a) {
      LoadBegin(st, a);
    } else {
      var pc := st.threads[a.t];
      if a.EnqueueSection? {
        LoadEnqueue(st, a, pc);
      } else if a.DrainSection? {
        LoadDrain(st, a, pc);
      } else if a.Send? || a.ReceiveTask? {
        LoadQueue(st, a, pc);
      } else {
        LoadMoves(st, a, pc);
        LoadMove(st.threads, st.pool.queue, st.subs, a.t, NextPC(st, a, pc));
      }
    }
  }

  lemma {:induction false} LoadRun(st: State, acts: seq<Action>, st': State)
    requires Inv(st) && LoadInv(st.threads, st.pool.queue, st.subs) && Run(st, acts, st')
    ensures LoadInv(st'.threads, st'.pool.queue, st'.subs)
    decreases |acts|
  {
    if acts == [] {
    } else {
      InvStep(st, acts[0]);
      LoadStep(st, acts[0]);
      LoadRun(Apply(st, acts[0]), acts[1..], st');
    }
  }

  lemma ReachableLoad(st: State)
    requires Reachable(st)
    ensures LoadInv(st.threads, st.pool.queue, st.subs)
  {
    var st0, acts :| Init(st0) && Run(st0, acts, st);
    InitInv(st0);
    LoadRun(st0, acts, st);
  }

  /** Close is about to return in goroutine t: Stop has returned and callbackWg.Wait can. */
  predicate Closing(st: State, t: Tid) {
    t in st.threads && st.threads[t].StopReturned? && Enabled(st, StopStep(t))
  }

  /** An enqueue in progress still has the drain of s to hand over. */
  predicate HandsOver(pc: PC, s: Sub) {
    Enqueuing(pc) && Token(pc) == Some(s)
  }

  /** When Close returns, tokens are left only with enqueues in progress. */
  lemma OnlyEnqueuersLeft(st: State, t: Tid, u: Tid, s: Sub)
    requires CountInv(st.threads, st.pool, st.callbackWg)
    requires PoolInv(st.threads, st.pool) && TicketInv(st.threads, st.pool)
    requires Closing(st, t) && u in st.threads && Token(st.threads[u]) == Some(s)
    ensures HandsOver(st.threads[u], s) && !Hosted(st.threads[u])
  {
    NoWorkersLeft(st, t);
    NoneCast(st.threads, Tracked);
    assert !Plays(st.threads[u], Worker) && !Plays(st.threads[u], Tracked);
  }

  lemma TokensAtClose(st: State, t: Tid, s: Sub)
    requires Reachable(st) && Closing(st, t)
    ensures st.pool.queue == []
    ensures forall u | u in st.threads && Token(st.threads[u]) == Some(s) ::
              HandsOver(st.threads[u], s) && !Hosted(st.threads[u])
  {
    ReachableCounts(st);
    ReachablePool(st);
    ReachableTickets(st);
    NoWorkersLeft(st, t);
    forall u | u in st.threads && Token(st.threads[u]) == Some(s)
      ensures HandsOver(st.threads[u], s) && !Hosted(st.threads[u])
    {
      OnlyEnqueuersLeft(st, t, u, s);
    }
  }

  lemma AllHandedOver(st: State, s: Sub)
    requires Reachable(st) && s in st.subs && st.pool.queue == []
    requires forall u | u in st.threads :: Token(st.threads[u]) != Some(s)
    ensures st.subs[s].h.delivered == st.subs[s].h.accepted
  {
    ReachableTokens(st);
    ReachableFlow(st);
    NothingPending(st, s);
  }

  /** For every subscription: when Close returns, everything it accepted has been delivered if and only if
      no enqueue in progress has yet to hand over its drain. */
  lemma CloseIsExact(st: State, t: Tid, s: Sub)
    requires Reachable(st) && Closing(st, t) && s in st.subs
    ensures st.subs[s].h.delivered == st.subs[s].h.accepted
            <==> forall u | u in st.threads :: !HandsOver(st.threads[u], s)
  {
    TokensAtClose(st, t, s);
    if forall u | u in st.threads :: !HandsOver(st.threads[u], s) {
      AllHandedOver(st, s);
    } else {
      var u :| u in st.threads && HandsOver(st.threads[u], s);
      LeftBehind(st, u, s);
    }
  }

  /** What an enqueue in progress has yet to hand over is left behind. */
  lemma LeftBehind(st: State, u: Tid, s: Sub)
    requires Reachable(st) && s in st.subs && u in st.threads
    requires Token(st.threads[u]) == Some(s) && !Hosted(st.threads[u])
    ensures |st.subs[s].h.delivered| < |st.subs[s].h.accepted|
  {
    ReachableLoad(st);
    assert Submits(st.threads[u], s) && Laden(st.subs, s);
    var flight := FifoDelivery(st, s);
  }
}
