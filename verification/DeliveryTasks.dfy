/** Preservation of the ticket and token parts of the delivery invariant. */
module DeliveryTasks {
  import opened Common
  import opened Sequencer
  import opened Delivery
  import opened DeliveryInv

  // ----- Tickets -----

  lemma TicketFrame(ths: Threads, p: Pool, p': Pool, t: Tid, pc: PC)
    requires TicketInv(ths, p)
    requires p'.sent == p.sent && p'.taken == p.taken && p'.ran == p.ran && p'.queue == p.queue
    requires Ticket(pc) == Ticket(PCOf(ths, t)) && RunsItsTask(p, pc)
    ensures TicketInv(ths[t := pc], p')
  {
    var ths' := ths[t := pc];
    forall n: nat | n < p.taken && Running(ths, n)
      ensures Running(ths', n)
    {
      var u :| u in ths && Ticket(ths[u]) == Some(n);
      assert u in ths' && Ticket(ths'[u]) == Some(n);
    }
  }

  lemma TicketSend(ths: Threads, p: Pool, t: Tid, pc: PC, task: Task)
    requires TicketInv(ths, p) && Ticket(pc).None? && Ticket(PCOf(ths, t)).None?
    ensures TicketInv(ths[t := pc], p.(queue := p.queue + [task], sent := p.sent + [task]))
  {
    var p' := p.(queue := p.queue + [task], sent := p.sent + [task]);
    assert p'.queue == p'.sent[p.taken..];
    assert TicketInv(ths, p');
    TicketFrame(ths, p', p', t, pc);
  }

  lemma TicketReceive(ths: Threads, p: Pool, t: Tid, pc: PC)
    requires TicketInv(ths, p) && p.queue != [] && Ticket(PCOf(ths, t)).None?
    requires pc == match p.queue[0] case Drain(s) => DrainLock(s, OnWorker(p.taken)) case Job(id) => JobRun(id, p.taken)
    ensures TicketInv(ths[t := pc], p.(queue := p.queue[1..], taken := p.taken + 1))
  {
    var ths', p' := ths[t := pc], p.(queue := p.queue[1..], taken := p.taken + 1);
    forall n: nat | n < p'.taken && n !in p.ran
      ensures Running(ths', n)
    {
      if n == p.taken {
        assert t in ths' && Ticket(ths'[t]) == Some(n);
      } else {
        var u :| u in ths && Ticket(ths[u]) == Some(n);
        assert u in ths' && Ticket(ths'[u]) == Some(n);
      }
    }
  }

  lemma TicketReturn(ths: Threads, p: Pool, t: Tid, n: nat)
    requires TicketInv(ths, p) && t in ths && Ticket(ths[t]) == Some(n)
    ensures TicketInv(ths[t := Receive], p.(ran := p.ran + [n]))
  {
    var ths', p' := ths[t := Receive], p.(ran := p.ran + [n]);
    forall k: nat | k < p.taken && k !in p'.ran
      ensures Running(ths', k)
    {
      assert k !in p.ran;
      var u :| u in ths && Ticket(ths[u]) == Some(k);
      assert u in ths' && Ticket(ths'[u]) == Some(k);
    }
    forall u | u in ths'
      ensures RunsItsTask(p', ths'[u])
    {
      assert u != t ==> RunsItsTask(p, ths[u]);
    }
  }

  lemma TicketStart(ths: Threads, p: Pool, ws: set<Tid>)
    requires TicketInv(ths, p) && ws !! ths.Keys
    ensures TicketInv(WithWorkers(ths, ws), p.(started := true, wg := p.wg + |ws|))
  {
    var ths' := WithWorkers(ths, ws);
    forall n: nat | n < p.taken && Running(ths, n)
      ensures Running(ths', n)
    {
      var u :| u in ths && Ticket(ths[u]) == Some(n);
      assert u in ths' && Ticket(ths'[u]) == Some(n);
    }
  }

  /** The actions that neither queue, receive nor complete a task. */
  lemma TicketMoves(st: State, a: Action, pc: PC)
    requires Acts(st, a, pc) && !a.Send? && !a.ReceiveTask? && !(a.TaskReturn? && Ticket(pc).Some?)
    requires RunsItsTask(st.pool, pc)
    ensures var p, p', pc' := st.pool, NextPool(st.pool, a, pc), NextPC(st, a, pc);
            && p'.sent == p.sent && p'.taken == p.taken && p'.ran == p.ran && p'.queue == p.queue
            && Ticket(pc') == Ticket(pc) && RunsItsTask(p, pc')
  {
    match a
    case EnqueueSection(_) =>
    case WgAdd(_) =>
    case Go(_) =>
    case SignalDone(_) =>
    case TakeRLock(_) =>
    case Proceed(_) =>
    case GiveUp(_) =>
    case ReleaseRLock(_) =>
    case DrainSection(_) =>
    case CallbackDone(_) =>
    case TaskReturn(_) =>
    case WorkerExit(_) =>
    case StopStep(_) =>
  }

  lemma TicketStep(st: State, a: Action, pc: PC)
    requires PoolInv(st.threads, st.pool) && TicketInv(st.threads, st.pool) && Acts(st, a, pc)
    ensures var st' := Move(st, a, pc); TicketInv(st'.threads, st'.pool)
  {
    var ths, p := st.threads, st.pool;
    if a.Send? {
      assert !p.closed;
      TicketSend(ths, p, a.t, RUnlock(pc.call, pc.task, true), pc.task);
    } else if a.ReceiveTask? {
      TicketReceive(ths, p, a.t, NextPC(st, a, pc));
    } else if a.TaskReturn? && Ticket(pc).Some? {
      TicketReturn(ths, p, a.t, Ticket(pc).value);
    } else {
      TicketMoves(st, a, pc);
      TicketFrame(ths, p, NextPool(p, a, pc), a.t, NextPC(st, a, pc));
    }
  }

  lemma TicketBegin(st: State, a: Action)
    requires TicketInv(st.threads, st.pool) && External(a) && MayBegin(st, a)
    ensures var st' := Begin(st, a); TicketInv(st'.threads, st'.pool)
  {
    var ths, p := st.threads, st.pool;
    match a
    case NewSubscription(_, _) =>
    case StartPool(ws) => TicketStart(ths, p, ws);
    case BeginEnqueue(t, s, m, pooled) => TicketFrame(ths, p, p, t, EnqLock(s, m, pooled));
    case BeginSubmit(t, call, id) => TicketFrame(ths, p, p, t, RLock(call, Job(id)));
    case BeginStop(t) => TicketFrame(ths, p, p, t, StopFlag);
  }

  // ----- Tokens -----

  type Subs = map<Sub, SubState>

  /** subs and subs' agree on everything the token invariant looks at, except for subscription s. */
  ghost predicate SameOthers(subs: Subs, subs': Subs, s: Sub) {
    && subs.Keys == subs'.Keys
    && forall r | r in subs && r != s ::
         subs'[r].q.active == subs[r].q.active && (subs'[r].q.queue != [] ==> subs[r].q.queue != [])
  }

  lemma CarriedByOthers(ths: Threads, t: Tid, pc: PC, s: Sub)
    requires Token(pc) != Some(s) && Token(PCOf(ths, t)) != Some(s)
    ensures Carried(ths[t := pc], s) == Carried(ths, s)
  {
    var ths' := ths[t := pc];
    if Carried(ths, s) {
      var u :| u in ths && Token(ths[u]) == Some(s);
      assert u in ths' && Token(ths'[u]) == Some(s);
    }
  }

  /** The goroutine keeps the token it has, or stays without one. */
  lemma TokenFrame(ths: Threads, q: seq<Task>, subs: Subs, subs': Subs, t: Tid, pc: PC)
    requires TokenInv(ths, q, subs) && subs.Keys == subs'.Keys
    requires forall s | s in subs :: subs'[s].q.active == subs[s].q.active
                                     && (subs'[s].q.queue != [] ==> subs[s].q.active)
    requires Token(pc) == Token(PCOf(ths, t)) && (pc.EnqLock? ==> pc.sub in subs)
    ensures TokenInv(ths[t := pc], q, subs')
  {
    var ths' := ths[t := pc];
    forall s
      ensures Carried(ths', s) == Carried(ths, s)
    {
      if Token(pc) == Some(s) {
        assert t in ths && t in ths' && Token(ths[t]) == Some(s) && Token(ths'[t]) == Some(s);
      } else {
        CarriedByOthers(ths, t, pc, s);
      }
    }
  }

  /** An idle sequencer's token is created in the hands of the enqueuer. */
  lemma TokenGain(ths: Threads, q: seq<Task>, subs: Subs, subs': Subs, t: Tid, pc: PC, s: Sub)
    requires TokenInv(ths, q, subs) && SameOthers(subs, subs', s) && s in subs
    requires !subs[s].q.active && subs'[s].q.active
    requires Token(PCOf(ths, t)).None? && Token(pc) == Some(s) && !pc.EnqLock?
    ensures TokenInv(ths[t := pc], q, subs')
  {
    var ths' := ths[t := pc];
    assert Token(ths'[t]) == Some(s);
    assert !Carried(ths, s) && Drain(s) !in q;
    forall r | r != s
      ensures Carried(ths', r) == Carried(ths, r)
    {
      CarriedByOthers(ths, t, pc, r);
    }
  }

  /** A drain that finds its queue empty destroys the token. */
  lemma TokenLose(ths: Threads, q: seq<Task>, subs: Subs, subs': Subs, t: Tid, pc: PC, s: Sub)
    requires TokenInv(ths, q, subs) && SameOthers(subs, subs', s) && t in ths && s in subs
    requires !subs'[s].q.active && subs'[s].q.queue == []
    requires Token(ths[t]) == Some(s) && Token(pc).None? && !pc.EnqLock?
    ensures TokenInv(ths[t := pc], q, subs')
  {
    var ths' := ths[t := pc];
    assert Carried(ths, s);
    assert Drain(s) !in q;
    assert !Carried(ths', s);
    forall r | r != s
      ensures Carried(ths', r) == Carried(ths, r)
    {
      CarriedByOthers(ths, t, pc, r);
    }
  }

  /** A successful submit puts the token in the pool's queue. */
  lemma TokenSend(ths: Threads, q: seq<Task>, subs: Subs, t: Tid, pc: PC, task: Task)
    requires TokenInv(ths, q, subs) && t in ths && Token(pc).None? && !pc.EnqLock?
    requires Token(ths[t]) == if task.Drain? then Some(task.sub) else None
    ensures TokenInv(ths[t := pc], q + [task], subs)
  {
    var ths', q' := ths[t := pc], q + [task];
    if task.Drain? {
      assert Carried(ths, task.sub);
      assert !Carried(ths', task.sub);
    }
    forall r | task != Drain(r)
      ensures Carried(ths', r) == Carried(ths, r) && (Drain(r) in q' <==> Drain(r) in q)
    {
      CarriedByOthers(ths, t, pc, r);
    }
  }

  /** A worker takes the token at the front of the pool's queue. */
  lemma TokenReceive(ths: Threads, q: seq<Task>, subs: Subs, t: Tid, pc: PC)
    requires TokenInv(ths, q, subs) && q != [] && Token(PCOf(ths, t)).None? && !pc.EnqLock?
    requires Token(pc) == if q[0].Drain? then Some(q[0].sub) else None
    ensures TokenInv(ths[t := pc], q[1..], subs)
  {
    var ths', q' := ths[t := pc], q[1..];
    if q[0].Drain? {
      assert Token(ths'[t]) == Some(q[0].sub);
      assert q[0] in q && q[0] !in q';
    }
    forall r | q[0] != Drain(r)
      ensures Carried(ths', r) == Carried(ths, r) && (Drain(r) in q' <==> Drain(r) in q)
    {
      CarriedByOthers(ths, t, pc, r);
      assert q == [q[0]] + q';
    }
  }

  lemma TokenStart(ths: Threads, q: seq<Task>, subs: Subs, ws: set<Tid>)
    requires TokenInv(ths, q, subs) && ws !! ths.Keys
    ensures TokenInv(WithWorkers(ths, ws), q, subs)
  {
    var ths' := WithWorkers(ths, ws);
    assert forall t | t in ths' && (Token(ths'[t]).Some? || ths'[t].EnqLock?) :: t in ths && ths[t] == ths'[t];
    forall s
      ensures Carried(ths', s) == Carried(ths, s)
    {
      if Carried(ths, s) {
        var u :| u in ths && Token(ths[u]) == Some(s);
        assert u in ths' && Token(ths'[u]) == Some(s);
      }
    }
  }

  lemma TokenBegin(st: State, a: Action)
    requires TokenInv(st.threads, st.pool.queue, st.subs) && External(a) && MayBegin(st, a)
    ensures var st' := Begin(st, a); TokenInv(st'.threads, st'.pool.queue, st'.subs)
  {
    var ths, q, subs := st.threads, st.pool.queue, st.subs;
    match a
    case NewSubscription(_, _) =>
    case StartPool(ws) => TokenStart(ths, q, subs, ws);
    case BeginEnqueue(t, s, m, pooled) => TokenFrame(ths, q, subs, subs, t, EnqLock(s, m, pooled));
    case BeginSubmit(t, call, id) => TokenFrame(ths, q, subs, subs, t, RLock(call, Job(id)));
    case BeginStop(t) => TokenFrame(ths, q, subs, subs, t, StopFlag);
  }

  /** The actions that touch neither a sequencer nor the pool's queue. */
  lemma TokenMoves(st: State, a: Action, pc: PC)
    requires Acts(st, a, pc)
    requires !a.EnqueueSection? && !a.DrainSection? && !a.CallbackDone? && !a.Send? && !a.ReceiveTask?
    ensures var p, p', pc' := st.pool, NextPool(st.pool, a, pc), NextPC(st, a, pc);
            p'.queue == p.queue && Token(pc') == Token(pc) && !pc'.EnqLock? && NextSubs(st, a, pc) == st.subs
  {
    match a
    case WgAdd(_) =>
    case Go(_) =>
    case SignalDone(_) =>
    case TakeRLock(_) =>
    case Proceed(_) =>
    case GiveUp(_) =>
    case ReleaseRLock(_) =>
    case TaskReturn(_) =>
    case WorkerExit(_) =>
    case StopStep(_) =>
  }

  lemma TokenEnqueue(st: State, a: Action, pc: PC)
    requires TokenInv(st.threads, st.pool.queue, st.subs) && Acts(st, a, pc) && a.EnqueueSection?
    ensures var st' := Move(st, a, pc); TokenInv(st'.threads, st'.pool.queue, st'.subs)
  {
    var ths, q, subs, subs', pc' := st.threads, st.pool.queue, st.subs, NextSubs(st, a, pc), NextPC(st, a, pc);
    if EnqueueLocked(subs[pc.sub].q, pc.msg).1.StartDrain? {
      TokenGain(ths, q, subs, subs', a.t, pc', pc.sub);
    } else {
      TokenFrame(ths, q, subs, subs', a.t, pc');
    }
  }

  lemma TokenDrain(st: State, a: Action, pc: PC)
    requires TokenInv(st.threads, st.pool.queue, st.subs) && Acts(st, a, pc) && a.DrainSection?
    ensures var st' := Move(st, a, pc); TokenInv(st'.threads, st'.pool.queue, st'.subs)
  {
    var ths, q, subs, subs', pc' := st.threads, st.pool.queue, st.subs, NextSubs(st, a, pc), NextPC(st, a, pc);
    assert Token(ths[a.t]) == Some(pc.sub) && Carried(ths, pc.sub);
    if subs[pc.sub].q.queue == [] {
      TokenLose(ths, q, subs, subs', a.t, pc', pc.sub);
    } else {
      TokenFrame(ths, q, subs, subs', a.t, pc');
    }
  }

  lemma TokenSendStep(st: State, a: Action, pc: PC)
    requires PoolInv(st.threads, st.pool) && TokenInv(st.threads, st.pool.queue, st.subs)
    requires Acts(st, a, pc) && a.Send?
    ensures var st' := Move(st, a, pc); TokenInv(st'.threads, st'.pool.queue, st'.subs)
  {
    assert !st.pool.closed;
    TokenSend(st.threads, st.pool.queue, st.subs, a.t, RUnlock(pc.call, pc.task, true), pc.task);
  }

  lemma TokenReceiveStep(st: State, a: Action, pc: PC)
    requires TokenInv(st.threads, st.pool.queue, st.subs) && Acts(st, a, pc) && a.ReceiveTask?
    ensures var st' := Move(st, a, pc); TokenInv(st'.threads, st'.pool.queue, st'.subs)
  {
    TokenReceive(st.threads, st.pool.queue, st.subs, a.t, NextPC(st, a, pc));
  }

  lemma TokenCallback(st: State, a: Action, pc: PC)
    requires TokenInv(st.threads, st.pool.queue, st.subs) && Acts(st, a, pc) && a.CallbackDone?
    ensures var st' := Move(st, a, pc); TokenInv(st'.threads, st'.pool.queue, st'.subs)
  {
    TokenFrame(st.threads, st.pool.queue, st.subs, NextSubs(st, a, pc), a.t, DrainLock(pc.sub, pc.host));
  }

  lemma TokenStep(st: State, a: Action, pc: PC)
    requires PoolInv(st.threads, st.pool) && TokenInv(st.threads, st.pool.queue, st.subs) && Acts(st, a, pc)
    ensures var st' := Move(st, a, pc); TokenInv(st'.threads, st'.pool.queue, st'.subs)
  {
    if a.EnqueueSection? {
      TokenEnqueue(st, a, pc);
    } else if a.DrainSection? {
      TokenDrain(st, a, pc);
    } else if a.CallbackDone? {
      TokenCallback(st, a, pc);
    } else if a.Send? {
      TokenSendStep(st, a, pc);
    } else if a.ReceiveTask? {
      TokenReceiveStep(st, a, pc);
    } else {
      TokenMoves(st, a, pc);
      TokenFrame(st.threads, st.pool.queue, st.subs, st.subs, a.t, NextPC(st, a, pc));
    }
  }

  // ----- Messages -----

  lemma FlowFrame(ths: Threads, subs: Subs, t: Tid, pc: PC)
    requires FlowInv(ths, subs) && !pc.Callback? && !PCOf(ths, t).Callback?
    ensures FlowInv(ths[t := pc], subs)
  {
    var ths' := ths[t := pc];
    forall s | Delivering(ths, s)
      ensures Delivering(ths', s)
    {
      var u :| u in ths && ths[u].Callback? && ths[u].sub == s;
      assert u in ths' && ths'[u].Callback? && ths'[u].sub == s;
    }
  }

  /** A change to one sequencer whose drain is not inside a callback before or after. */
  lemma FlowIdle(ths: Threads, subs: Subs, t: Tid, pc: PC, s: Sub, u: SubState)
    requires FlowInv(ths, subs) && s in subs && !pc.Callback? && !PCOf(ths, t).Callback? && !Delivering(ths, s)
    requires HistoryInv(u.q, u.h) && u.h.accepted == u.h.delivered + u.q.queue
    ensures FlowInv(ths[t := pc], subs[s := u])
  {
    FlowFrame(ths, subs, t, pc);
  }

  lemma FlowEnqueue(ths: Threads, subs: Subs, t: Tid, pc: PC, s: Sub, m: Message)
    requires FlowInv(ths, subs) && s in subs && !pc.Callback? && !PCOf(ths, t).Callback?
    ensures var u := subs[s];
            FlowInv(ths[t := pc], subs[s := SubState(EnqueueLocked(u.q, m).0, RecordEnqueue(u.h, u.q, m))])
  {
    var u := subs[s];
    var u' := SubState(EnqueueLocked(u.q, m).0, RecordEnqueue(u.h, u.q, m));
    var subs' := subs[s := u'];
    EnqueueKeepsHistory(u.q, u.h, m);
    var tail := if Full(u.q) then [] else [m];
    assert u'.h.accepted == u.h.accepted + tail && u'.q.queue == u.q.queue + tail;
    forall v | v in ths && ths[v].Callback? && ths[v].sub == s
      ensures u'.h.accepted == u'.h.delivered + [ths[v].msg] + u'.q.queue
    {
      assert u.h.accepted == u.h.delivered + [ths[v].msg] + u.q.queue;
    }
    assert FlowInv(ths, subs');
    FlowFrame(ths, subs', t, pc);
  }

  /** Between the pop and the end of the callback the message is in flight. */
  lemma FlowPop(ths: Threads, subs: Subs, t: Tid, s: Sub, host: Host)
    requires FlowInv(ths, subs) && s in subs && t in ths && ths[t] == DrainLock(s, host)
    requires !Delivering(ths, s) && subs[s].q.queue != []
    ensures var (q', item) := DrainLocked(subs[s].q);
            FlowInv(ths[t := Callback(s, item.value, host)], subs[s := subs[s].(q := q')])
  {
    var u := subs[s];
    var m := u.q.queue[0];
    DrainKeepsHistory(u.q, u.h);
    assert u.q.queue == [m] + u.q.queue[1..];
    assert u.h.accepted == u.h.delivered + [m] + u.q.queue[1..];
    var ths', subs' := ths[t := Callback(s, m, host)], subs[s := u.(q := DrainLocked(u.q).0)];
    assert Delivering(ths', s) by { assert t in ths' && ths'[t].Callback? && ths'[t].sub == s; }
    forall r | r in subs && r != s && Delivering(ths, r)
      ensures Delivering(ths', r)
    {
      var v :| v in ths && ths[v].Callback? && ths[v].sub == r;
      assert v in ths' && ths'[v].Callback? && ths'[v].sub == r;
    }
    forall v | v in ths' && ths'[v].Callback? && ths'[v].sub in subs'
      ensures var w := subs'[ths'[v].sub]; w.h.accepted == w.h.delivered + [ths'[v].msg] + w.q.queue
    {
      if v != t {
        assert Delivering(ths, ths[v].sub);
      }
    }
  }

  lemma FlowDeliver(ths: Threads, subs: Subs, t: Tid, pc: PC)
    requires FlowInv(ths, subs) && t in ths && ths[t] == pc && pc.Callback? && pc.sub in subs
    requires forall v | v in ths && ths[v].Callback? && ths[v].sub == pc.sub :: v == t
    ensures var u := subs[pc.sub];
            FlowInv(ths[t := DrainLock(pc.sub, pc.host)],
                    subs[pc.sub := u.(h := u.h.(delivered := u.h.delivered + [pc.msg]))])
  {
    var u := subs[pc.sub];
    var ths', subs' := ths[t := DrainLock(pc.sub, pc.host)],
                       subs[pc.sub := u.(h := u.h.(delivered := u.h.delivered + [pc.msg]))];
    assert !Delivering(ths', pc.sub);
    forall r | r in subs && r != pc.sub && Delivering(ths, r)
      ensures Delivering(ths', r)
    {
      var v :| v in ths && ths[v].Callback? && ths[v].sub == r;
      assert v in ths' && ths'[v].Callback? && ths'[v].sub == r;
    }
  }

  /** Only the holder of the token can be inside the callback. */
  lemma SoleCallback(ths: Threads, q: seq<Task>, subs: Subs, t: Tid, s: Sub)
    requires TokenInv(ths, q, subs) && t in ths && Token(ths[t]) == Some(s)
    ensures forall v | v in ths && ths[v].Callback? && ths[v].sub == s :: v == t
    ensures !ths[t].Callback? ==> !Delivering(ths, s)
  {
    forall v | v in ths && ths[v].Callback? && ths[v].sub == s
      ensures v == t
    {
      assert Token(ths[v]) == Some(s);
    }
  }

  lemma FlowMoves(st: State, a: Action, pc: PC)
    requires Acts(st, a, pc) && !a.EnqueueSection? && !a.DrainSection? && !a.CallbackDone?
    ensures !pc.Callback? && !NextPC(st, a, pc).Callback? && NextSubs(st, a, pc) == st.subs
  {
  }

  lemma FlowDrainEnd(st: State, a: Action, pc: PC)
    requires FlowInv(st.threads, st.subs) && Acts(st, a, pc) && a.DrainSection?
    requires !Delivering(st.threads, pc.sub) && st.subs[pc.sub].q.queue == []
    ensures var st' := Move(st, a, pc); FlowInv(st'.threads, st'.subs)
  {
    var u := st.subs[pc.sub];
    DrainKeepsHistory(u.q, u.h);
    FlowIdle(st.threads, st.subs, a.t, DrainReturn(pc.host), pc.sub, u.(q := DrainLocked(u.q).0));
  }

  lemma FlowDrainNext(st: State, a: Action, pc: PC)
    requires FlowInv(st.threads, st.subs) && Acts(st, a, pc) && a.DrainSection?
    requires !Delivering(st.threads, pc.sub) && st.subs[pc.sub].q.queue != []
    ensures var st' := Move(st, a, pc); FlowInv(st'.threads, st'.subs)
  {
    FlowPop(st.threads, st.subs, a.t, pc.sub, pc.host);
  }

  lemma DrainerAlone(st: State, a: Action, pc: PC)
    requires TokenInv(st.threads, st.pool.queue, st.subs) && Acts(st, a, pc) && a.DrainSection?
    ensures !Delivering(st.threads, pc.sub)
  {
    SoleCallback(st.threads, st.pool.queue, st.subs, a.t, pc.sub);
  }

  lemma FlowDrainStep(st: State, a: Action, pc: PC)
    requires FlowInv(st.threads, st.subs) && Acts(st, a, pc) && a.DrainSection?
    requires !Delivering(st.threads, pc.sub)
    ensures var st' := Move(st, a, pc); FlowInv(st'.threads, st'.subs)
  {
    if st.subs[pc.sub].q.queue == [] {
      FlowDrainEnd(st, a, pc);
    } else {
      FlowDrainNext(st, a, pc);
    }
  }

  lemma CallbackAlone(st: State, a: Action, pc: PC)
    requires TokenInv(st.threads, st.pool.queue, st.subs) && Acts(st, a, pc) && a.CallbackDone?
    ensures forall v | v in st.threads && st.threads[v].Callback? && st.threads[v].sub == pc.sub :: v == a.t
  {
    SoleCallback(st.threads, st.pool.queue, st.subs, a.t, pc.sub);
  }

  lemma FlowCallbackStep(st: State, a: Action, pc: PC)
    requires FlowInv(st.threads, st.subs) && Acts(st, a, pc) && a.CallbackDone?
    requires forall v | v in st.threads && st.threads[v].Callback? && st.threads[v].sub == pc.sub :: v == a.t
    ensures var st' := Move(st, a, pc); FlowInv(st'.threads, st'.subs)
  {
    FlowDeliver(st.threads, st.subs, a.t, pc);
  }

  lemma FlowEnqueueStep(st: State, a: Action, pc: PC)
    requires FlowInv(st.threads, st.subs) && Acts(st, a, pc) && a.EnqueueSection?
    ensures var st' := Move(st, a, pc); FlowInv(st'.threads, st'.subs)
  {
    FlowEnqueue(st.threads, st.subs, a.t, NextPC(st, a, pc), pc.sub, pc.msg);
  }

  lemma FlowStep(st: State, a: Action, pc: PC)
    requires TokenInv(st.threads, st.pool.queue, st.subs) && FlowInv(st.threads, st.subs) && Acts(st, a, pc)
    ensures var st' := Move(st, a, pc); FlowInv(st'.threads, st'.subs)
  {
    if a.EnqueueSection? {
      FlowEnqueueStep(st, a, pc);
    } else if a.DrainSection? {
      DrainerAlone(st, a, pc);
      FlowDrainStep(st, a, pc);
    } else if a.CallbackDone? {
      CallbackAlone(st, a, pc);
      FlowCallbackStep(st, a, pc);
    } else {
      FlowMoves(st, a, pc);
      FlowFrame(st.threads, st.subs, a.t, NextPC(st, a, pc));
    }
  }

  lemma FlowBegin(st: State, a: Action)
    requires TokenInv(st.threads, st.pool.queue, st.subs) && FlowInv(st.threads, st.subs)
    requires External(a) && MayBegin(st, a)
    ensures var st' := Begin(st, a); FlowInv(st'.threads, st'.subs)
  {
    var ths, subs := st.threads, st.subs;
    match a
    case NewSubscription(s, limit) =>
      forall v | v in ths && ths[v].Callback?
        ensures ths[v].sub != s
      {
        assert Token(ths[v]) == Some(ths[v].sub);
      }
    case StartPool(ws) =>
      var ths' := WithWorkers(ths, ws);
      forall s | Delivering(ths, s)
        ensures Delivering(ths', s)
      {
        var u :| u in ths && ths[u].Callback? && ths[u].sub == s;
        assert u in ths' && ths'[u].Callback? && ths'[u].sub == s;
      }
    case BeginEnqueue(t, s, m, pooled) => FlowFrame(ths, subs, t, EnqLock(s, m, pooled));
    case BeginSubmit(t, call, id) => FlowFrame(ths, subs, t, RLock(call, Job(id)));
    case BeginStop(t) => FlowFrame(ths, subs, t, StopFlag);
  }

  // ----- All together -----

  lemma InvStep(st: State, a: Action)
    requires Inv(st) && Enabled(st, a)
    ensures Inv(Apply(st, a))
  {
    if External(a) {
      CountBegin(st, a);
      PoolBegin(st, a);
      TicketBegin(st, a);
      TokenBegin(st, a);
      FlowBegin(st, a);
    } else {
      var pc := st.threads[a.t];
      CountStep(st, a, pc);
      PoolStep(st, a, pc);
      TicketStep(st, a, pc);
      TokenStep(st, a, pc);
      FlowStep(st, a, pc);
    }
  }

  /** The invariant holds in every state of every run. */
  lemma {:induction false} InvRun(st: State, acts: seq<Action>, st': State)
    requires Inv(st) && Run(st, acts, st')
    ensures Inv(st')
    decreases |acts|
  {
    if acts == [] {
    } else {
      InvStep(st, acts[0]);
      InvRun(Apply(st, acts[0]), acts[1..], st');
    }
  }
}
