/** The inductive invariant of the delivery protocol, and its preservation by every action. */
module DeliveryInv {
  import opened Common
  import opened Sequencer
  import opened Delivery

  // ----- Counters: each one equals the number of goroutines it stands for -----

  datatype Role = Reader | Worker | Tracked

  predicate Hosted(pc: PC) { pc.DrainLock? || pc.Callback? || pc.DrainReturn? }

  predicate Plays(pc: PC, r: Role) {
    match r
    case Reader => pc.Select1? || pc.Select2? || pc.RUnlock?
    case Worker => pc.Receive? || pc.JobRun? || (Hosted(pc) && pc.host.OnWorker?)
    case Tracked =>
      pc.GoDrain? || pc.GoSignal? || pc.SignalCallback? || (Hosted(pc) && pc.host.OnFallback?)
  }

  function Cast(threads: map<Tid, PC>, r: Role): set<Tid> {
    set t | t in threads && Plays(threads[t], r)
  }

  lemma CastGoto(threads: map<Tid, PC>, t: Tid, pc: PC, r: Role)
    ensures |Cast(threads[t := pc], r)|
         == |Cast(threads, r)| + One(Plays(pc, r)) - One(Plays(PCOf(threads, t), r))
  {
    CastMembers(threads, t, pc, r);
    SizeOfSwap(Cast(threads, r), t, Plays(pc, r));
  }

  lemma SizeOfSwap(s: set<Tid>, t: Tid, there: bool)
    ensures |s - {t} + if there then {t} else {}| == |s| + One(there) - One(t in s)
  {
    var rest := s - {t};
    assert s == if t in s then rest + {t} else rest;
    if !there {
      assert rest + {} == rest;
    }
  }

  lemma CastMembers(threads: map<Tid, PC>, t: Tid, pc: PC, r: Role)
    ensures Cast(threads[t := pc], r) == Cast(threads, r) - {t} + if Plays(pc, r) then {t} else {}
  {
    forall u: Tid
      ensures u in Cast(threads[t := pc], r) <==> if u == t then Plays(pc, r) else u in Cast(threads, r)
    {
    }
  }

  ghost predicate CountInv(ths: Threads, p: Pool, callbackWg: int) {
    && p.readers == |Cast(ths, Reader)|
    && p.wg == |Cast(ths, Worker)|
    && callbackWg == |Cast(ths, Tracked)|
  }

  // ----- The pool: locking, cancellation and closing -----

  /** How far the Stop call that owns the shutdown has come; 0 for every other goroutine. */
  function Phase(pc: PC): nat {
    match pc
    case StopCancel => 1 case StopLock => 2 case StopAcquire => 3 case StopClose => 4
    case StopUnlock => 5 case StopWait => 6 case StopReturned => 7 case CloseReturned => 8
    case _ => 0
  }

  predicate FlagsAt(p: Pool, phase: nat) {
    && p.cancelled == (phase >= 2)
    && p.waiting == (phase == 3)
    && p.writer == (phase == 4 || phase == 5)
    && p.closed == (phase >= 5)
  }

  type Threads = map<Tid, PC>

  ghost predicate HasOwner(ths: Threads) {
    exists t :: t in ths && Phase(ths[t]) > 0
  }

  ghost predicate HasWorker(ths: Threads) {
    exists t :: t in ths && Plays(ths[t], Worker)
  }

  ghost predicate PoolInv(ths: Threads, p: Pool) {
    && 0 < p.cap && |p.queue| <= p.cap && !p.panicked
    // one Stop call owns the shutdown, and its position determines every flag
    && (forall t | t in ths && Phase(ths[t]) > 0 :: p.started && p.stopped && FlagsAt(p, Phase(ths[t])))
    && (forall t, u | t in ths && u in ths && Phase(ths[t]) > 0 && Phase(ths[u]) > 0 :: t == u)
    && (if p.stopped then HasOwner(ths) else FlagsAt(p, 0))
    // nobody is submitting while the queue is being closed, and nobody can send afterwards
    && (forall t | t in ths :: p.writer ==> !Plays(ths[t], Reader))
    && (forall t | t in ths :: p.closed ==> !ths[t].Select2?)
    // workers leave only when the closed queue is empty
    && (forall t | t in ths && Plays(ths[t], Worker) :: p.started)
    && (p.started ==> HasWorker(ths) || (p.closed && p.queue == []))
    && (forall t | t in ths && Phase(ths[t]) >= 7 :: !HasWorker(ths))
  }

  // ----- Tasks: every queued task is run once -----

  function Ticket(pc: PC): Option<nat> {
    if pc.JobRun? then Some(pc.ticket)
    else if Hosted(pc) && pc.host.OnWorker? then Some(pc.host.ticket)
    else None
  }

  /** A goroutine with a ticket is running what the ticket stands for. */
  predicate RunsItsTask(p: Pool, pc: PC) {
    Ticket(pc).Some? ==>
      var n := Ticket(pc).value;
      && n < p.taken <= |p.sent| && n !in p.ran
      && (pc.JobRun? ==> p.sent[n] == Job(pc.id))
      && (pc.DrainLock? || pc.Callback? ==> p.sent[n] == Drain(pc.sub))
  }

  ghost predicate Running(ths: Threads, n: nat) {
    exists t :: t in ths && Ticket(ths[t]) == Some(n)
  }

  ghost predicate TicketInv(ths: Threads, p: Pool) {
    && p.taken <= |p.sent| && p.queue == p.sent[p.taken..]
    && (forall t | t in ths :: RunsItsTask(p, ths[t]))
    && (forall t, u | t in ths && u in ths && Ticket(ths[t]).Some? && Ticket(ths[t]) == Ticket(ths[u]) :: t == u)
    && (forall n | n in p.ran :: n < p.taken)
    && (forall i, j | 0 <= i < j < |p.ran| :: p.ran[i] != p.ran[j])
    && (forall n: nat | n < p.taken :: n in p.ran || Running(ths, n))
  }

  // ----- Drain tokens -----

  /** The subscription whose drain token the goroutine carries. */
  function Token(pc: PC): Option<Sub> {
    match pc
    case AddDrain(s) => Some(s)
    case GoDrain(s) => Some(s)
    case RLock(_, Drain(s)) => Some(s)
    case Select1(_, Drain(s)) => Some(s)
    case Select2(_, Drain(s)) => Some(s)
    case RUnlock(_, Drain(s), ok) => if ok then None else Some(s)
    case DrainLock(s, _) => Some(s)
    case Callback(s, _, _) => Some(s)
    case _ => None
  }

  ghost predicate Carried(ths: Threads, s: Sub) {
    exists t :: t in ths && Token(ths[t]) == Some(s)
  }

  ghost predicate TokenInv(ths: Threads, queue: seq<Task>, subs: map<Sub, SubState>) {
    && (forall t | t in ths && ths[t].EnqLock? :: ths[t].sub in subs)
    && (forall t | t in ths && Token(ths[t]).Some? :: Token(ths[t]).value in subs)
    && (forall t, u | t in ths && u in ths && Token(ths[t]).Some? && Token(ths[t]) == Token(ths[u]) :: t == u)
    && (forall i | 0 <= i < |queue| && queue[i].Drain? :: queue[i].sub in subs && !Carried(ths, queue[i].sub))
    && (forall i, j | 0 <= i < j < |queue| && queue[i].Drain? :: queue[i] != queue[j])
    && (forall s | s in subs :: subs[s].q.active == (Drain(s) in queue || Carried(ths, s)))
    && (forall s | s in subs && subs[s].q.queue != [] :: subs[s].q.active)
  }

  // ----- Messages -----

  ghost predicate Delivering(ths: Threads, s: Sub) {
    exists t :: t in ths && ths[t].Callback? && ths[t].sub == s
  }

  /** Accepted so far = delivered, then the message now in the callback, then the queue. */
  ghost predicate FlowInv(ths: Threads, subs: map<Sub, SubState>) {
    && (forall s | s in subs :: HistoryInv(subs[s].q, subs[s].h))
    && (forall t | t in ths && ths[t].Callback? && ths[t].sub in subs ::
          var u := subs[ths[t].sub];
          u.h.accepted == u.h.delivered + [ths[t].msg] + u.q.queue)
    && (forall s | s in subs && !Delivering(ths, s) ::
          subs[s].h.accepted == subs[s].h.delivered + subs[s].q.queue)
  }

  ghost predicate Inv(st: State) {
    && CountInv(st.threads, st.pool, st.callbackWg) && PoolInv(st.threads, st.pool) && TicketInv(st.threads, st.pool)
    && TokenInv(st.threads, st.pool.queue, st.subs) && FlowInv(st.threads, st.subs)
  }

  lemma InitInv(st: State)
    requires Init(st)
    ensures Inv(st)
  {
  }

  // ----- Preservation -----

  /** The program counter of t, where a goroutine not started yet counts as Finished. */
  function PCOf(ths: Threads, t: Tid): PC {
    if t in ths then ths[t] else Finished
  }

  /** Goroutine a.t is at pc and takes action a. */
  predicate Acts(st: State, a: Action, pc: PC) {
    !External(a) && a.t in st.threads && st.threads[a.t] == pc && Ready(st, a, pc)
  }

  function One(b: bool): int { if b then 1 else 0 }

  function Counter(p: Pool, callbackWg: int, r: Role): int {
    match r
    case Reader => p.readers
    case Worker => p.wg
    case Tracked => callbackWg
  }

  /** Every continuing action moves each counter by what its goroutine enters or leaves. */
  lemma CounterMove(st: State, a: Action, pc: PC, r: Role)
    requires !External(a) && Ready(st, a, pc) && (pc.Select2? || pc.StopClose? ==> !st.pool.closed)
    ensures Counter(NextPool(st.pool, a, pc), NextCallbackWg(st, a, pc), r) - Counter(st.pool, st.callbackWg, r)
            == One(Plays(NextPC(st, a, pc), r)) - One(Plays(pc, r))
  {
  }

  lemma CountMove(ths: Threads, t: Tid, pc: PC, p: Pool, p': Pool, wg: int, wg': int)
    requires CountInv(ths, p, wg)
    requires p'.readers - p.readers == One(Plays(pc, Reader)) - One(Plays(PCOf(ths, t), Reader))
    requires p'.wg - p.wg == One(Plays(pc, Worker)) - One(Plays(PCOf(ths, t), Worker))
    requires wg' - wg == One(Plays(pc, Tracked)) - One(Plays(PCOf(ths, t), Tracked))
    ensures CountInv(ths[t := pc], p', wg')
  {
    CastGoto(ths, t, pc, Reader);
    CastGoto(ths, t, pc, Worker);
    CastGoto(ths, t, pc, Tracked);
  }

  lemma CastStart(ths: Threads, ws: set<Tid>, r: Role)
    requires ws !! ths.Keys
    ensures |Cast(WithWorkers(ths, ws), r)| == |Cast(ths, r)| + if r.Worker? then |ws| else 0
  {
    var joined := if r.Worker? then ws else {};
    assert Cast(WithWorkers(ths, ws), r) == Cast(ths, r) + joined;
    assert Cast(ths, r) !! joined;
  }

  lemma CountStart(ths: Threads, ws: set<Tid>, p: Pool, wg: int)
    requires CountInv(ths, p, wg) && ws !! ths.Keys
    ensures CountInv(WithWorkers(ths, ws), p.(started := true, wg := p.wg + |ws|), wg)
  {
    CastStart(ths, ws, Worker);
    CastStart(ths, ws, Reader);
    CastStart(ths, ws, Tracked);
  }

  lemma CountBegin(st: State, a: Action)
    requires CountInv(st.threads, st.pool, st.callbackWg) && External(a) && MayBegin(st, a)
    ensures var st' := Begin(st, a); CountInv(st'.threads, st'.pool, st'.callbackWg)
  {
    match a
    case NewSubscription(_, _) =>
    case StartPool(ws) => CountStart(st.threads, ws, st.pool, st.callbackWg);
    case BeginEnqueue(t, s, m, pooled) =>
      CountMove(st.threads, t, EnqLock(s, m, pooled), st.pool, st.pool, st.callbackWg, st.callbackWg);
    case BeginSubmit(t, call, id) =>
      CountMove(st.threads, t, RLock(call, Job(id)), st.pool, st.pool, st.callbackWg, st.callbackWg);
    case BeginStop(t) =>
      CountMove(st.threads, t, StopFlag, st.pool, st.pool, st.callbackWg, st.callbackWg);
  }

  lemma CountStep(st: State, a: Action, pc: PC)
    requires CountInv(st.threads, st.pool, st.callbackWg) && PoolInv(st.threads, st.pool)
    requires Acts(st, a, pc)
    ensures var st' := Move(st, a, pc); CountInv(st'.threads, st'.pool, st'.callbackWg)
  {
    assert Phase(pc) > 0 ==> FlagsAt(st.pool, Phase(pc));
    CounterMove(st, a, pc, Reader);
    CounterMove(st, a, pc, Worker);
    CounterMove(st, a, pc, Tracked);
    CountMove(st.threads, a.t, NextPC(st, a, pc), st.pool, NextPool(st.pool, a, pc),
              st.callbackWg, NextCallbackWg(st, a, pc));
  }

  /** A goroutine that leaves the shutdown and the workers alone keeps the pool invariant. */
  lemma PoolMoveFrame(ths: Threads, p: Pool, t: Tid, pc: PC)
    requires PoolInv(ths, p)
    requires Phase(pc) == Phase(PCOf(ths, t)) && Plays(pc, Worker) == Plays(PCOf(ths, t), Worker)
    requires Plays(pc, Reader) && !Plays(PCOf(ths, t), Reader) ==> !p.writer
    requires pc.Select2? ==> !p.closed
    ensures PoolInv(ths[t := pc], p)
  {
    HasOwnerFrame(ths, t, pc);
    HasWorkerFrame(ths, t, pc);
  }

  /** So does a change of the readers, the queue and the record of tasks. */
  lemma PoolFrame(ths: Threads, p: Pool, p': Pool, t: Tid, pc: PC)
    requires PoolInv(ths, p)
    requires SameShutdown(p, p') && |p'.queue| <= p.cap && (p.closed && p.queue == [] ==> p'.queue == [])
    requires Phase(pc) == Phase(PCOf(ths, t)) && Plays(pc, Worker) == Plays(PCOf(ths, t), Worker)
    requires Plays(pc, Reader) && !Plays(PCOf(ths, t), Reader) ==> !p.writer
    requires pc.Select2? ==> !p.closed
    ensures PoolInv(ths[t := pc], p')
  {
    PoolMoveFrame(ths, p, t, pc);
  }

  lemma HasOwnerFrame(ths: Threads, t: Tid, pc: PC)
    requires Phase(pc) == Phase(PCOf(ths, t))
    ensures HasOwner(ths) ==> HasOwner(ths[t := pc])
  {
    if HasOwner(ths) {
      var o :| o in ths && Phase(ths[o]) > 0;
      assert Phase(ths[t := pc][o]) > 0;
    }
  }

  lemma HasWorkerFrame(ths: Threads, t: Tid, pc: PC)
    requires Plays(pc, Worker) == Plays(PCOf(ths, t), Worker)
    ensures HasWorker(ths[t := pc]) == HasWorker(ths)
  {
    if HasWorker(ths) {
      var w :| w in ths && Plays(ths[w], Worker);
      assert w in ths[t := pc];
    }
  }

  lemma PoolWorkerExit(ths: Threads, p: Pool, t: Tid)
    requires PoolInv(ths, p) && t in ths && ths[t].Receive? && p.queue == [] && p.closed
    ensures PoolInv(ths[t := Finished], p.(wg := p.wg - 1))
  {
    var ths' := ths[t := Finished];
    var o :| o in ths && Phase(ths[o]) > 0;
    assert Phase(ths'[o]) > 0;
    if HasWorker(ths') {
      assert HasWorker(ths);
    }
  }

  lemma PoolStart(ths: Threads, p: Pool, ws: set<Tid>)
    requires PoolInv(ths, p) && !p.started && ws != {} && ws !! ths.Keys
    ensures PoolInv(WithWorkers(ths, ws), p.(started := true, wg := p.wg + |ws|))
  {
    var ths' := WithWorkers(ths, ws);
    var w :| w in ws;
    assert w in ths' && Plays(ths'[w], Worker);
    assert forall t | t in ths' && Phase(ths'[t]) > 0 :: t in ths && ths[t] == ths'[t];
    assert !p.stopped;
  }

  lemma NoneCast(ths: Threads, r: Role)
    requires |Cast(ths, r)| == 0
    ensures forall t | t in ths :: !Plays(ths[t], r)
  {
    assert forall t | t in ths && Plays(ths[t], r) :: t in Cast(ths, r);
  }

  /** The steps of Stop after its flag: only the owner takes them, one phase at a time. */
  lemma PoolStopOwner(ths: Threads, p: Pool, t: Tid, pc: PC, p': Pool)
    requires PoolInv(ths, p) && t in ths && 0 < Phase(ths[t]) && Phase(pc) == Phase(ths[t]) + 1
    requires p' == p.(cancelled := p'.cancelled, waiting := p'.waiting, writer := p'.writer, closed := p'.closed)
    requires FlagsAt(p', Phase(pc))
    requires pc.StopClose? ==> forall u | u in ths :: !Plays(ths[u], Reader)
    requires pc.StopReturned? ==> forall u | u in ths :: !Plays(ths[u], Worker)
    ensures PoolInv(ths[t := pc], p')
  {
    var ths' := ths[t := pc];
    assert forall u | u in ths' && u != t :: Phase(ths'[u]) == 0;
    assert Phase(ths'[t]) > 0;
    assert !Plays(ths[t], Worker) && !Plays(pc, Worker) && !Plays(pc, Reader);
    assert HasWorker(ths') == HasWorker(ths) by {
      if HasWorker(ths) {
        var w :| w in ths && Plays(ths[w], Worker);
        assert w in ths' && Plays(ths'[w], Worker);
      }
    }
  }

  lemma PoolStopFlag(ths: Threads, p: Pool, t: Tid)
    requires PoolInv(ths, p) && t in ths && ths[t].StopFlag? && p.started && !p.stopped
    ensures PoolInv(ths[t := StopCancel], p.(stopped := true))
  {
    var ths' := ths[t := StopCancel];
    assert forall u | u in ths :: Phase(ths[u]) == 0;
    assert Phase(ths'[t]) > 0;
    assert HasWorker(ths') by {
      var w :| w in ths && Plays(ths[w], Worker);
      assert w in ths' && Plays(ths'[w], Worker);
    }
  }

  predicate Quiet(a: Action) {
    !External(a) && !a.WorkerExit? && !a.StopStep?
  }

  // What PoolFrame asks for, checked action by action.

  /** Only the readers, the queue and the record of tasks may differ. */
  predicate SameShutdown(p: Pool, p': Pool) {
    p' == p.(readers := p'.readers, queue := p'.queue, sent := p'.sent, taken := p'.taken, ran := p'.ran)
  }

  lemma TakingPool(p: Pool, a: Action, pc: PC)
    requires a.ReceiveTask? || a.TaskReturn?
    ensures SameShutdown(p, NextPool(p, a, pc))
  {
    match a
    case ReceiveTask(_) =>
    case TaskReturn(_) =>
  }

  lemma SubmittingPool(p: Pool, a: Action, pc: PC)
    requires Quiet(a) && !a.ReceiveTask? && !a.TaskReturn? && (a.Send? ==> !p.closed)
    ensures SameShutdown(p, NextPool(p, a, pc))
  {
    match a
    case EnqueueSection(_) =>
    case WgAdd(_) =>
    case Go(_) =>
    case SignalDone(_) =>
    case TakeRLock(_) =>
    case Proceed(_) =>
    case GiveUp(_) =>
    case Send(_) =>
    case ReleaseRLock(_) =>
    case DrainSection(_) =>
    case CallbackDone(_) =>
  }

  lemma QuietPool(p: Pool, a: Action, pc: PC)
    requires Quiet(a) && (a.Send? ==> !p.closed)
    ensures SameShutdown(p, NextPool(p, a, pc))
  {
    if a.ReceiveTask? || a.TaskReturn? {
      TakingPool(p, a, pc);
    } else {
      SubmittingPool(p, a, pc);
    }
  }

  lemma QuietQueue(st: State, a: Action, pc: PC)
    requires Quiet(a) && Ready(st, a, pc) && (pc.Select2? ==> !st.pool.closed) && |st.pool.queue| <= st.pool.cap
    ensures var p, p' := st.pool, NextPool(st.pool, a, pc);
            |p'.queue| <= p.cap && (p.closed && p.queue == [] ==> p'.queue == [])
  {
    if a.Send? || a.ReceiveTask? {
    } else {
      assert NextPool(st.pool, a, pc).queue == st.pool.queue;
    }
  }

  lemma QuietRoles(st: State, a: Action, pc: PC)
    requires Quiet(a) && Ready(st, a, pc) && (pc.Select2? ==> !st.pool.closed)
    ensures var pc' := NextPC(st, a, pc);
            && Phase(pc') == Phase(pc) && Plays(pc', Worker) == Plays(pc, Worker)
            && (Plays(pc', Reader) && !Plays(pc, Reader) ==> !st.pool.writer)
            && (pc'.Select2? ==> !st.pool.cancelled)
  {
  }

  lemma StopMoves(st: State, t: Tid, pc: PC)
    requires Ready(st, StopStep(t), pc) && Phase(pc) > 0 && FlagsAt(st.pool, Phase(pc))
    ensures var p, p', pc' := st.pool, NextPool(st.pool, StopStep(t), pc), NextPC(st, StopStep(t), pc);
            && Phase(pc') == Phase(pc) + 1 && FlagsAt(p', Phase(pc'))
            && p' == p.(cancelled := p'.cancelled, waiting := p'.waiting, writer := p'.writer, closed := p'.closed)
            && (pc'.StopClose? ==> p.readers == 0) && (pc'.StopReturned? ==> p.wg == 0)
            && (pc'.CloseReturned? ==> st.callbackWg == 0)
  {
  }

  lemma PoolBegin(st: State, a: Action)
    requires PoolInv(st.threads, st.pool) && External(a) && MayBegin(st, a)
    ensures PoolInv(Begin(st, a).threads, Begin(st, a).pool)
  {
    var ths, p := st.threads, st.pool;
    match a
    case NewSubscription(_, _) =>
    case StartPool(ws) => PoolStart(ths, p, ws);
    case BeginEnqueue(t, s, m, pooled) => PoolFrame(ths, p, p, t, EnqLock(s, m, pooled));
    case BeginSubmit(t, call, id) => PoolFrame(ths, p, p, t, RLock(call, Job(id)));
    case BeginStop(t) => PoolFrame(ths, p, p, t, StopFlag);
  }

  lemma PoolStopStep(st: State, t: Tid, pc: PC)
    requires CountInv(st.threads, st.pool, st.callbackWg) && PoolInv(st.threads, st.pool)
    requires Acts(st, StopStep(t), pc)
    ensures var st' := Move(st, StopStep(t), pc); PoolInv(st'.threads, st'.pool)
  {
    var ths, p := st.threads, st.pool;
    if Phase(pc) > 0 {
      StopMoves(st, t, pc);
      if p.readers == 0 { NoneCast(ths, Reader); }
      if p.wg == 0 { NoneCast(ths, Worker); }
      PoolStopOwner(ths, p, t, NextPC(st, StopStep(t), pc), NextPool(p, StopStep(t), pc));
    } else if p.started && !p.stopped {
      PoolStopFlag(ths, p, t);
    } else {
      PoolFrame(ths, p, p, t, Finished);
    }
  }

  lemma PoolStep(st: State, a: Action, pc: PC)
    requires CountInv(st.threads, st.pool, st.callbackWg) && PoolInv(st.threads, st.pool)
    requires Acts(st, a, pc)
    ensures var st' := Move(st, a, pc); PoolInv(st'.threads, st'.pool)
  {
    var ths, p := st.threads, st.pool;
    if a.StopStep? {
      PoolStopStep(st, a.t, pc);
    } else if a.WorkerExit? {
      PoolWorkerExit(ths, p, a.t);
    } else {
      ClosedIsCancelled(ths, p);
      QuietPool(p, a, pc);
      QuietQueue(st, a, pc);
      QuietRoles(st, a, pc);
      PoolFrame(ths, p, NextPool(p, a, pc), a.t, NextPC(st, a, pc));
    }
  }

  lemma ClosedIsCancelled(ths: Threads, p: Pool)
    requires PoolInv(ths, p)
    ensures p.closed ==> p.cancelled
  {
    if p.stopped { var o :| o in ths && Phase(ths[o]) > 0; }
  }
}
