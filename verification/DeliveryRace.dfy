/** Why CloseDeliversAll asks that no enqueue be in progress: a message accepted before Stop begins is
    left undelivered when its enqueuer has not reached the pool yet. */
module DeliveryRace {
  import opened Sequencer
  import opened Delivery
  import opened DeliveryInv
  import opened DeliveryTheorems

  lemma {:induction false} RunSnoc(st: State, acts: seq<Action>, mid: State, a: Action)
    requires Run(st, acts, mid) && Enabled(mid, a)
    ensures Run(st, acts + [a], Apply(mid, a))
    decreases |acts|
  {
    if acts == [] {
      assert [a][1..] == [];
    } else {
      RunSnoc(Apply(st, acts[0]), acts[1..], mid, a);
      assert (acts + [a])[1..] == acts[1..] + [a];
    }
  }

  lemma ReachableStep(st: State, a: Action) returns (st': State)
    requires Reachable(st) && Enabled(st, a)
    ensures st' == Apply(st, a) && Reachable(st')
  {
    var st0, acts :| Init(st0) && Run(st0, acts, st);
    RunSnoc(st0, acts, st, a);
    st' := Apply(st, a);
  }

  /** A message is accepted and its enqueuer has yet to submit the drain; the pool is idle. */
  ghost predicate Poised(st: State, m: Message) {
    && st.threads == map[1 := Receive, 2 := RLock(TrySubmit, Drain(0)), 3 := StopFlag]
    && 0 in st.subs && st.subs[0].h.accepted == [m] && st.subs[0].h.delivered == []
    && st.pool.started && !st.pool.stopped && !st.pool.writer && !st.pool.waiting && !st.pool.closed
    && st.pool.queue == [] && st.pool.readers == 0 && st.pool.wg == 1 && st.callbackWg == 0
  }

  lemma ReachStarted() returns (st: State)
    ensures Reachable(st) && st.threads == map[1 := Receive]
            && st.subs == map[0 := SubState(NewSequencer(0), NO_HISTORY)]
    ensures st.pool == Pool(true, false, false, 1, [], false, 0, false, false, 1, false, [], 0, [])
            && st.callbackWg == 0
  {
    var pool := Pool(false, false, false, 1, [], false, 0, false, false, 0, false, [], 0, []);
    var st0 := State(map[], map[], pool, 0, map[]);
    assert Init(st0) && Run(st0, [], st0);
    var st1 := ReachableStep(st0, NewSubscription(0, 0));
    st := ReachableStep(st1, StartPool({1}));
  }

  lemma ReachEnqueuing(m: Message) returns (st: State)
    ensures Reachable(st) && st.threads == map[1 := Receive, 2 := EnqLock(0, m, true)]
            && st.subs == map[0 := SubState(NewSequencer(0), NO_HISTORY)]
    ensures st.pool == Pool(true, false, false, 1, [], false, 0, false, false, 1, false, [], 0, [])
            && st.callbackWg == 0
  {
    var st2 := ReachStarted();
    st := ReachableStep(st2, BeginEnqueue(2, 0, m, true));
  }

  lemma ReachEnqueued(m: Message) returns (st: State)
    ensures Reachable(st) && st.threads == map[1 := Receive, 2 := RLock(TrySubmit, Drain(0))]
    ensures 0 in st.subs && st.subs[0].h.accepted == [m] && st.subs[0].h.delivered == []
    ensures st.pool == Pool(true, false, false, 1, [], false, 0, false, false, 1, false, [], 0, [])
            && st.callbackWg == 0
  {
    var st3 := ReachEnqueuing(m);
    st := ReachableStep(st3, EnqueueSection(2));
    assert st.threads[2] == RLock(TrySubmit, Drain(0));
  }

  lemma ReachPoised(m: Message) returns (st: State)
    ensures Reachable(st) && Poised(st, m)
  {
    var st4 := ReachEnqueued(m);
    st := ReachableStep(st4, BeginStop(3));
  }

  lemma StopOnce(st: State, pc: PC) returns (st': State)
    requires Reachable(st) && 3 in st.threads && st.threads[3] == pc && Ready(st, StopStep(3), pc)
    ensures st' == Move(st, StopStep(3), pc) && Reachable(st')
  {
    st' := ReachableStep(st, StopStep(3));
  }

  lemma StopFlagged(m: Message) returns (st: State)
    ensures Reachable(st) && st.threads == map[1 := Receive, 2 := RLock(TrySubmit, Drain(0)), 3 := StopLock]
    ensures 0 in st.subs && st.subs[0].h.accepted == [m] && st.subs[0].h.delivered == []
    ensures !st.pool.writer && !st.pool.waiting && st.pool.readers == 0
    ensures !st.pool.closed && st.pool.queue == [] && st.pool.wg == 1 && st.callbackWg == 0
  {
    var a := ReachPoised(m);
    var b := StopOnce(a, StopFlag);
    st := StopOnce(b, StopCancel);
  }

  lemma StopBegun(m: Message) returns (st: State)
    ensures Reachable(st) && st.threads == map[1 := Receive, 2 := RLock(TrySubmit, Drain(0)), 3 := StopClose]
    ensures 0 in st.subs && st.subs[0].h.accepted == [m] && st.subs[0].h.delivered == []
    ensures !st.pool.closed && st.pool.queue == [] && st.pool.wg == 1 && st.callbackWg == 0
  {
    var c := StopFlagged(m);
    var d := StopOnce(c, StopLock);
    st := StopOnce(d, StopAcquire);
  }

  lemma QueueClosed(m: Message) returns (st: State)
    ensures Reachable(st) && st.threads == map[1 := Receive, 2 := RLock(TrySubmit, Drain(0)), 3 := StopWait]
    ensures 0 in st.subs && st.subs[0].h.accepted == [m] && st.subs[0].h.delivered == []
    ensures st.pool.closed && st.pool.queue == [] && st.pool.wg == 1 && st.callbackWg == 0
  {
    var e := StopBegun(m);
    var f := StopOnce(e, StopClose);
    st := StopOnce(f, StopUnlock);
  }

  lemma WorkerGone(m: Message) returns (st: State)
    ensures Reachable(st) && st.threads == map[1 := Finished, 2 := RLock(TrySubmit, Drain(0)), 3 := StopWait]
    ensures 0 in st.subs && st.subs[0].h.accepted == [m] && st.subs[0].h.delivered == []
    ensures st.pool.closed && st.pool.wg == 0 && st.callbackWg == 0
  {
    var g := QueueClosed(m);
    st := ReachableStep(g, WorkerExit(1));
  }

  lemma CloseCanOvertakeEnqueue(m: Message) returns (st: State)
    ensures Reachable(st) && CloseDone(st.threads) && !NoEnqueue(st.threads)
    ensures 0 in st.subs && st.subs[0].h.accepted == [m] && st.subs[0].h.delivered == []
  {
    var h := WorkerGone(m);
    var i := StopOnce(h, StopWait);
    st := StopOnce(i, StopReturned);
    assert st.threads[3].CloseReturned? && Enqueuing(st.threads[2]);
  }
}
