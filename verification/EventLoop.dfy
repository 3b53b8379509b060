/** The command protocol of a connection's event loop (eventloop.go, pool.go sendCommand, submux.go
    unsubscribe): senders hand commands to the loop through cmdCh, each command carries a one-slot
    response channel, and the loop drains cmdCh and then closes loopDone when it exits. */
module EventLoop {

  /** What is written to a response channel. */
  datatype Reply = Ok | RedisError(code: nat) | LoopStopped

  datatype Loop =
    | Selecting            // in the select of runEventLoop
    | Executing(cmd: nat)  // between receiving a command and answering it
    | Draining             // drainCmdCh
    | ClosingLoopDone      // the deferred close(loopDone)
    | Exited

  /** A goroutine that sends a command and, for an unsubscribe, waits for the answer. */
  datatype Client =
    | Sending(cmd: nat)
    | Waiting(cmd: nat)
    | GotReply(cmd: nat, reply: Reply)
    | GaveUp(cmd: nat)       // loopDone was closed and no reply was there
    | CancelledWait(cmd: nat)// the caller's context was done and no reply was there
    | NotSent(cmd: nat)      // sendCommand returned an error

  datatype State = State(
    cap: nat, cmdCh: seq<nat>, loop: Loop, loopDone: bool, done: bool,
    next: nat,                     // commands are numbered as they are created
    response: map<nat, seq<Reply>>,// the buffered channel of each command
    clients: map<nat, Client>,
    written: map<nat, seq<Reply>>, // history: every value put in each response channel
    lost: bool,                    // a reply went to the default case
    sent: seq<nat>,                // history: the commands put in cmdCh, and those taken from it
    taken: seq<nat>)

  predicate Init(st: State) {
    st == State(st.cap, [], Selecting, false, false, 0, map[], map[], map[], false, [], []) && st.cap > 0
  }

  datatype Action =
    | Receive | Answer(reply: Reply, fatal: bool) | MessageChannelClosed | SeeDone | DrainOne | DrainEnd | CloseLoopDone
    | CloseDone
    | BeginSend(t: nat) | Send(t: nat) | SendRefused(t: nat)
    | TakeReply(t: nat) | SeeLoopDone(t: nat) | SeeContext(t: nat)

  /** The loop's own steps, not counting those that something outside it has to allow. */
  predicate LoopAction(a: Action) {
    a.Receive? || a.Answer? || a.DrainOne? || a.DrainEnd? || a.CloseLoopDone?
  }

  predicate ClientAt(st: State, t: nat, sending: bool) {
    t in st.clients && (if sending then st.clients[t].Sending? else st.clients[t].Waiting?)
    && st.clients[t].cmd in st.response && st.clients[t].cmd in st.written
  }

  predicate Enabled(st: State, a: Action) {
    match a
    case Receive => st.loop.Selecting? && st.cmdCh != []
    case Answer(reply, fatal) =>  // a nil error never ends the loop
      st.loop.Executing? && !reply.LoopStopped? && (reply.Ok? ==> !fatal)
      && st.loop.cmd in st.response && st.loop.cmd in st.written
    case MessageChannelClosed => st.loop.Selecting?
    case SeeDone => st.loop.Selecting? && st.done
    case DrainOne => st.loop.Draining? && st.cmdCh != [] && st.cmdCh[0] in st.response && st.cmdCh[0] in st.written
    case DrainEnd => st.loop.Draining? && st.cmdCh == []
    case CloseLoopDone => st.loop.ClosingLoopDone?
    case CloseDone => true
    case BeginSend(t) => t !in st.clients
    case Send(t) => ClientAt(st, t, true) && |st.cmdCh| < st.cap
    case SendRefused(t) => ClientAt(st, t, true)  // loopDone, done or the sender's context
    case TakeReply(t) => ClientAt(st, t, false) && st.response[st.clients[t].cmd] != []
    case SeeLoopDone(t) => ClientAt(st, t, false) && st.loopDone
    case SeeContext(t) => ClientAt(st, t, false)
  }

  /** The non-blocking send on a one-slot response channel. */
  function Write(st: State, cmd: nat, reply: Reply): State
    requires cmd in st.response && cmd in st.written
  {
    if st.response[cmd] == [] then
      st.(response := st.response[cmd := [reply]], written := st.written[cmd := st.written[cmd] + [reply]])
    else st.(lost := true)
  }

  function Settle(st: State, t: nat, otherwise: Client): State
    requires ClientAt(st, t, false)
  {
    var cmd := st.clients[t].cmd;
    if st.response[cmd] != [] then
      st.(clients := st.clients[t := GotReply(cmd, st.response[cmd][0])],
          response := st.response[cmd := st.response[cmd][1..]])
    else st.(clients := st.clients[t := otherwise])
  }

  function Apply(st: State, a: Action): State
    requires Enabled(st, a)
  {
    match a
    case Receive =>
      st.(loop := Executing(st.cmdCh[0]), cmdCh := st.cmdCh[1..], taken := st.taken + [st.cmdCh[0]])
    case Answer(reply, fatal) => Write(st, st.loop.cmd, reply).(loop := if fatal then Draining else Selecting)
    case MessageChannelClosed => st.(loop := Draining)
    case SeeDone => st.(loop := Draining)
    case DrainOne =>
      Write(st, st.cmdCh[0], LoopStopped).(cmdCh := st.cmdCh[1..], taken := st.taken + [st.cmdCh[0]])
    case DrainEnd => st.(loop := ClosingLoopDone)
    case CloseLoopDone => st.(loop := Exited, loopDone := true)
    case CloseDone => st.(done := true)
    case BeginSend(t) =>
      st.(clients := st.clients[t := Sending(st.next)], next := st.next + 1,
          response := st.response[st.next := []], written := st.written[st.next := []])
    case Send(t) =>
      st.(cmdCh := st.cmdCh + [st.clients[t].cmd], clients := st.clients[t := Waiting(st.clients[t].cmd)],
          sent := st.sent + [st.clients[t].cmd])
    case SendRefused(t) => st.(clients := st.clients[t := NotSent(st.clients[t].cmd)])
    case TakeReply(t) => Settle(st, t, st.clients[t])
    case SeeLoopDone(t) => Settle(st, t, GaveUp(st.clients[t].cmd))
    case SeeContext(t) => Settle(st, t, CancelledWait(st.clients[t].cmd))
  }

  ghost predicate Run(st: State, acts: seq<Action>, st': State)
    decreases |acts|
  {
    if acts == [] then st == st'
    else Enabled(st, acts[0]) && Run(Apply(st, acts[0]), acts[1..], st')
  }

  // ----- The invariant -----

  /** The command is still on its way to an answer. */
  predicate Unanswered(st: State, cmd: nat) {
    cmd in st.cmdCh || st.loop == Executing(cmd)
  }

  ghost predicate CommandInv(st: State) {
    && !st.lost && |st.cmdCh| <= st.cap && st.cap > 0
    && st.response.Keys == st.written.Keys
    && (forall c | c in st.response :: c < st.next)
    && (forall c | c in st.written :: |st.written[c]| <= 1 && (st.response[c] == [] || st.response[c] == st.written[c]))
    && (forall i | 0 <= i < |st.cmdCh| :: st.cmdCh[i] in st.written && st.written[st.cmdCh[i]] == [])
    && (forall i, j | 0 <= i < j < |st.cmdCh| :: st.cmdCh[i] != st.cmdCh[j])
    && (st.loop.Executing? ==>
          st.loop.cmd in st.written && st.written[st.loop.cmd] == [] && st.loop.cmd !in st.cmdCh)
    && (st.loopDone <==> st.loop.Exited?)
  }

  ghost predicate ClientInv(st: State) {
    && (forall t | t in st.clients :: st.clients[t].cmd < st.next && st.clients[t].cmd in st.written)
    && (forall t, u | t in st.clients && u in st.clients && st.clients[t].cmd == st.clients[u].cmd :: t == u)
    && (forall t | t in st.clients :: OneClient(st, st.clients[t]))
  }

  /** What a client knows about its command. */
  ghost predicate OneClient(st: State, k: Client)
    requires k.cmd in st.written
  {
    var w := st.written[k.cmd];
    match k
    case Sending(c) => w == [] && c !in st.cmdCh && st.loop != Executing(c) && c in st.response && st.response[c] == []
    case NotSent(c) => w == [] && c !in st.cmdCh && st.loop != Executing(c)
    case Waiting(c) =>
      c in st.response && st.response[c] == w && (w == [] ==> Unanswered(st, c))
    case GotReply(_, reply) => w == [reply]
    case GaveUp(c) => w == [] && c in st.cmdCh && st.loop.Exited?
    case CancelledWait(_) => true
  }

  ghost predicate Inv(st: State) { CommandInv(st) && ClientInv(st) }

  lemma InvReceive(st: State)
    requires Inv(st) && Enabled(st, Receive)
    ensures Inv(Apply(st, Receive))
  {
    var st' := Apply(st, Receive);
    var c := st.cmdCh[0];
    assert st.cmdCh == [c] + st'.cmdCh;
    assert forall d :: Unanswered(st', d) == Unanswered(st, d);
  }

  /** Writing the first reply of a command that is leaving the loop. */
  lemma InvWrite(st: State, cmd: nat, reply: Reply, loop: Loop, cmdCh: seq<nat>)
    requires Inv(st) && cmd in st.written && st.written[cmd] == [] && !st.loop.Exited? && !loop.Exited?
             && !loop.Executing?
    requires Unanswered(st, cmd) && cmd !in cmdCh && |cmdCh| <= st.cap
    requires forall d | d != cmd :: (d in cmdCh <==> Unanswered(st, d))
    requires forall i, j | 0 <= i < j < |cmdCh| :: cmdCh[i] != cmdCh[j]
    ensures cmd in st.response && Inv(Write(st, cmd, reply).(loop := loop, cmdCh := cmdCh))
  {
    var st' := Write(st, cmd, reply).(loop := loop, cmdCh := cmdCh);
    assert st.response[cmd] == [] && st'.written[cmd] == [reply];
    forall i | 0 <= i < |cmdCh|
      ensures cmdCh[i] in st'.written && st'.written[cmdCh[i]] == []
    {
      assert cmdCh[i] in cmdCh;
      assert Unanswered(st, cmdCh[i]);
    }
    forall t | t in st'.clients
      ensures OneClient(st', st'.clients[t])
    {
      assert OneClient(st, st.clients[t]);
    }
  }

  lemma InvAnswer(st: State, reply: Reply, fatal: bool)
    requires Inv(st) && Enabled(st, Answer(reply, fatal))
    ensures Inv(Apply(st, Answer(reply, fatal)))
  {
    InvWrite(st, st.loop.cmd, reply, if fatal then Draining else Selecting, st.cmdCh);
  }

  lemma InvDrain(st: State)
    requires Inv(st) && Enabled(st, DrainOne)
    ensures Inv(Apply(st, DrainOne))
  {
    assert st.cmdCh == [st.cmdCh[0]] + st.cmdCh[1..];
    InvWrite(st, st.cmdCh[0], LoopStopped, Draining, st.cmdCh[1..]);
    HistoryIsFree(Write(st, st.cmdCh[0], LoopStopped).(loop := Draining, cmdCh := st.cmdCh[1..]),
                  st.taken + [st.cmdCh[0]]);
  }

  lemma HistoryIsFree(st: State, taken: seq<nat>)
    requires Inv(st)
    ensures Inv(st.(taken := taken))
  {
    forall t | t in st.clients
      ensures OneClient(st.(taken := taken), st.clients[t])
    {
      assert OneClient(st, st.clients[t]);
    }
  }

  /** The loop moves on without touching a command. */
  lemma InvLoopMove(st: State, loop: Loop, loopDone: bool, done: bool)
    requires Inv(st) && !st.loop.Executing? && !loop.Executing? && loopDone == loop.Exited?
    requires st.loop.Exited? ==> loop.Exited?
    ensures Inv(st.(loop := loop, loopDone := loopDone, done := done))
  {
    var st' := st.(loop := loop, loopDone := loopDone, done := done);
    forall t | t in st'.clients
      ensures OneClient(st', st'.clients[t])
    {
      assert OneClient(st, st.clients[t]);
    }
  }

  lemma InvCloseDone(st: State)
    requires Inv(st)
    ensures Inv(st.(done := true))
  {
    var st' := st.(done := true);
    forall t | t in st'.clients
      ensures OneClient(st', st'.clients[t])
    {
      assert OneClient(st, st.clients[t]);
    }
  }

  lemma CommandBeginSend(st: State, t: nat)
    requires Inv(st) && Enabled(st, BeginSend(t))
    ensures CommandInv(Apply(st, BeginSend(t)))
    ensures st.next !in st.written && st.next !in st.cmdCh && st.loop != Executing(st.next)
  {
    forall i | 0 <= i < |st.cmdCh|
      ensures st.cmdCh[i] < st.next
    {
      assert st.cmdCh[i] in st.response;
    }
  }

  lemma InvBeginSend(st: State, t: nat)
    requires Inv(st) && Enabled(st, BeginSend(t))
    ensures Inv(Apply(st, BeginSend(t)))
  {
    var st' := Apply(st, BeginSend(t));
    CommandBeginSend(st, t);
    forall u | u in st'.clients
      ensures OneClient(st', st'.clients[u])
    {
      if u != t { assert OneClient(st, st.clients[u]); }
    }
  }

  lemma InvSend(st: State, t: nat)
    requires Inv(st) && Enabled(st, Send(t))
    ensures Inv(Apply(st, Send(t)))
  {
    var st' := Apply(st, Send(t));
    var c := st.clients[t].cmd;
    assert OneClient(st, st.clients[t]);
    assert forall d :: d in st'.cmdCh <==> d in st.cmdCh || d == c;
    forall u | u in st'.clients
      ensures OneClient(st', st'.clients[u])
    {
      if u != t { assert OneClient(st, st.clients[u]) && st.clients[u].cmd != c; }
    }
  }

  lemma InvRefused(st: State, t: nat)
    requires Inv(st) && Enabled(st, SendRefused(t))
    ensures Inv(Apply(st, SendRefused(t)))
  {
    var st' := Apply(st, SendRefused(t));
    forall u | u in st'.clients
      ensures OneClient(st', st'.clients[u])
    {
      assert OneClient(st, st.clients[u]);
    }
  }

  lemma InvSettle(st: State, t: nat, otherwise: Client)
    requires Inv(st) && ClientAt(st, t, false) && otherwise.cmd == st.clients[t].cmd
    requires otherwise.CancelledWait? || (otherwise.GaveUp? && st.loopDone) || st.response[st.clients[t].cmd] != []
    ensures Inv(Settle(st, t, otherwise))
  {
    var st' := Settle(st, t, otherwise);
    assert OneClient(st, st.clients[t]);
    forall u | u in st'.clients
      ensures OneClient(st', st'.clients[u])
    {
      assert OneClient(st, st.clients[u]);
      if u != t { assert st.clients[u].cmd != st.clients[t].cmd; }
    }
  }

  lemma InvStep(st: State, a: Action)
    requires Inv(st) && Enabled(st, a)
    ensures Inv(Apply(st, a))
  {
    match a
    case Receive => InvReceive(st);
    case Answer(reply, fatal) => InvAnswer(st, reply, fatal);
    case MessageChannelClosed => InvLoopMove(st, Draining, st.loopDone, st.done);
    case SeeDone => InvLoopMove(st, Draining, st.loopDone, st.done);
    case DrainOne => InvDrain(st);
    case DrainEnd => InvLoopMove(st, ClosingLoopDone, st.loopDone, st.done);
    case CloseLoopDone => InvLoopMove(st, Exited, true, st.done);
    case CloseDone => InvCloseDone(st);
    case BeginSend(t) => InvBeginSend(st, t);
    case Send(t) => InvSend(st, t);
    case SendRefused(t) => InvRefused(st, t);
    case TakeReply(t) => InvSettle(st, t, st.clients[t]);
    case SeeLoopDone(t) => InvSettle(st, t, GaveUp(st.clients[t].cmd));
    case SeeContext(t) => InvSettle(st, t, CancelledWait(st.clients[t].cmd));
  }

  lemma {:induction false} InvRun(st: State, acts: seq<Action>, st': State)
    requires Inv(st) && Run(st, acts, st')
    ensures Inv(st')
    decreases |acts|
  {
    if acts == [] {
    } else {
      InvStep(st, acts[0]);
      InvRun(Apply(st, acts[0]), acts[1..], st');
    }
  }

  // ----- The theorems -----

  ghost predicate Reachable(st: State) {
    exists st0, acts :: Init(st0) && Run(st0, acts, st)
  }

  lemma ReachableInv(st: State)
    requires Reachable(st)
    ensures Inv(st)
  {
    var st0, acts :| Init(st0) && Run(st0, acts, st);
    InvRun(st0, acts, st);
  }

  /** A response channel gets at most one value, none goes to the default case, a waiter that returns a
      reply returns the one the loop wrote, and a waiter that reports a stopped loop had no reply: its
      command was buffered after the drain, where nothing will ever read it. */
  lemma OneReply(st: State)
    requires Reachable(st)
    ensures !st.lost
    ensures forall c | c in st.written :: |st.written[c]| <= 1
    ensures forall t | t in st.clients && st.clients[t].cmd in st.written ::
              var k := st.clients[t];
              && (k.GotReply? ==> st.written[k.cmd] == [k.reply])
              && (k.GaveUp? ==> st.written[k.cmd] == [] && k.cmd in st.cmdCh && st.loop.Exited?)
  {
    ReachableInv(st);
    assert forall t | t in st.clients :: OneClient(st, st.clients[t]);
  }

  /** A waiter is never stuck: its reply is there, or the loop has exited, or the loop can move. */
  lemma WaiterWakes(st: State, t: nat)
    requires Reachable(st) && t in st.clients && st.clients[t].Waiting?
    ensures st.loop.Exited? ==> Enabled(st, SeeLoopDone(t))
    ensures Enabled(st, TakeReply(t)) || Enabled(st, SeeLoopDone(t)) || exists a :: LoopAction(a) && Enabled(st, a)
  {
    ReachableInv(st);
    var c := st.clients[t].cmd;
    assert OneClient(st, st.clients[t]);
    match st.loop
    case Selecting => assert Enabled(st, TakeReply(t)) || Enabled(st, Receive);
    case Executing(_) => assert Enabled(st, Answer(Ok, false));
    case Draining => assert Enabled(st, DrainOne) || Enabled(st, DrainEnd);
    case ClosingLoopDone => assert Enabled(st, CloseLoopDone);
    case Exited =>
  }

  // ----- How long a waiter waits -----

  function Position(s: seq<nat>, c: nat): (i: nat)
    requires c in s
    ensures i < |s| && s[i] == c
  {
    if s[0] == c then 0 else 1 + Position(s[1..], c)
  }

  lemma {:induction false} PositionStays(s: seq<nat>, d: nat, c: nat)
    requires c in s
    ensures Position(s + [d], c) == Position(s, c)
    decreases |s|
  {
    if s[0] == c {
    } else {
      assert (s + [d])[1..] == s[1..] + [d];
      PositionStays(s[1..], d, c);
    }
  }

  /** All that the loop does, except for handling messages. */
  predicate LoopStep(a: Action) {
    LoopAction(a) || a.MessageChannelClosed? || a.SeeDone?
  }

  function LoopSteps(acts: seq<Action>): nat {
    if acts == [] then 0 else (if LoopStep(acts[0]) then 1 else 0) + LoopSteps(acts[1..])
  }

  /** The steps of the loop until command c is answered or the loop has exited. */
  function Left(loop: Loop, cmdCh: seq<nat>, c: nat): nat {
    match loop
    case Selecting => if c in cmdCh then 2 * Position(cmdCh, c) + 2 else 0
    case Executing(d) => if d == c then 1 else if c in cmdCh then 2 * Position(cmdCh, c) + 3 else 0
    case Draining => if c in cmdCh then Position(cmdCh, c) + 1 else 0
    case ClosingLoopDone => 1
    case Exited => 0
  }

  /** The goroutine has returned, or can now. */
  predicate Informed(st: State, t: nat) {
    t in st.clients && !st.clients[t].Sending?
    && (st.clients[t].Waiting? ==> Enabled(st, TakeReply(t)) || Enabled(st, SeeLoopDone(t)))
  }

  lemma UninformedIsUnanswered(st: State, t: nat)
    requires Inv(st) && t in st.clients && st.clients[t].Waiting? && !Informed(st, t)
    ensures var c := st.clients[t].cmd;
            c in st.response && st.response[c] == [] && !st.loop.Exited? && Unanswered(st, c)
  {
    assert OneClient(st, st.clients[t]);
  }

  predicate ActionOf(a: Action, t: nat) {
    match a
    case BeginSend(u) => u == t
    case Send(u) => u == t
    case SendRefused(u) => u == t
    case TakeReply(u) => u == t
    case SeeLoopDone(u) => u == t
    case SeeContext(u) => u == t
    case _ => false
  }

  lemma ClientStays(st: State, a: Action, t: nat)
    requires Enabled(st, a) && t in st.clients && !ActionOf(a, t)
    ensures t in Apply(st, a).clients && Apply(st, a).clients[t] == st.clients[t]
  {
  }

  lemma ReplyStays(st: State, a: Action, t: nat)
    requires Inv(st) && Enabled(st, a) && !ActionOf(a, t) && ClientAt(st, t, false)
    ensures var c, st' := st.clients[t].cmd, Apply(st, a);
            && c in st'.response && c in st'.written && (st.response[c] != [] ==> st'.response[c] != [])
            && (st.loopDone ==> st'.loopDone)
  {
    if a.BeginSend? {
      assert st.next !in st.response;
    }
  }

  lemma InformedStays(st: State, a: Action, t: nat)
    requires Inv(st) && Enabled(st, a) && Informed(st, t)
    ensures Informed(Apply(st, a), t)
  {
    if !ActionOf(a, t) {
      ClientStays(st, a, t);
      if st.clients[t].Waiting? {
        ReplyStays(st, a, t);
      }
    }
  }

  /** A step of the loop brings an unanswered waiter closer to the answer, and no other step takes it
      further away. */
  lemma LoopComesCloser(st: State, a: Action, t: nat)
    requires Inv(st) && Enabled(st, a) && t in st.clients && st.clients[t].Waiting? && !Informed(st, t)
    ensures var st', c := Apply(st, a), st.clients[t].cmd;
            || Informed(st', t)
            || (&& t in st'.clients && st'.clients[t] == st.clients[t]
                && Left(st'.loop, st'.cmdCh, c) + (if LoopStep(a) then 1 else 0) <= Left(st.loop, st.cmdCh, c))
  {
    UninformedIsUnanswered(st, t);
    if !ActionOf(a, t) {
      ClientStays(st, a, t);
      ReplyStays(st, a, t);
      LeftShrinks(st, a, st.clients[t].cmd);
    }
  }

  lemma LeftShrinks(st: State, a: Action, c: nat)
    requires Inv(st) && Enabled(st, a) && !st.loop.Exited? && Unanswered(st, c)
    ensures var st' := Apply(st, a);
            || (LoopStep(a) && (a.CloseLoopDone? || (c in st'.response && st'.response[c] != [])))
            || Left(st'.loop, st'.cmdCh, c) + (if LoopStep(a) then 1 else 0) <= Left(st.loop, st.cmdCh, c)
  {
    if LoopStep(a) {
      LeftAtLoopStep(st, a, c);
    } else if a.Send? && c in st.cmdCh {
      PositionStays(st.cmdCh, st.clients[a.t].cmd, c);
    }
  }

  lemma LeftAtLoopStep(st: State, a: Action, c: nat)
    requires CommandInv(st) && Enabled(st, a) && LoopStep(a) && !st.loop.Exited? && Unanswered(st, c)
    ensures var st' := Apply(st, a);
            || a.CloseLoopDone? || (c in st'.response && st'.response[c] != [])
            || Left(st'.loop, st'.cmdCh, c) < Left(st.loop, st.cmdCh, c)
  {
    if st.cmdCh != [] {
      assert st.cmdCh == [st.cmdCh[0]] + st.cmdCh[1..];
    }
  }

  /** A waiter whose command is the i-th in the channel, counting from zero, has its reply or sees that the
      loop has exited after at most 2 i + 3 steps of the loop, whatever else is interleaved. */
  lemma {:induction false} WaiterBound(st: State, acts: seq<Action>, st': State, t: nat)
    requires Inv(st) && Run(st, acts, st') && t in st.clients && st.clients[t].Waiting?
    requires LoopSteps(acts) >= Left(st.loop, st.cmdCh, st.clients[t].cmd)
    ensures Informed(st', t)
    ensures st.clients[t].cmd in st.cmdCh ==>
              Left(st.loop, st.cmdCh, st.clients[t].cmd) <= 2 * Position(st.cmdCh, st.clients[t].cmd) + 3
    decreases |acts|
  {
    if Informed(st, t) {
      InformedRun(st, acts, st', t);
    } else if acts == [] {
      UninformedIsUnanswered(st, t);
    } else {
      var st1 := Apply(st, acts[0]);
      LoopComesCloser(st, acts[0], t);
      InvStep(st, acts[0]);
      if Informed(st1, t) {
        InformedRun(st1, acts[1..], st', t);
      } else {
        WaiterBound(st1, acts[1..], st', t);
      }
    }
  }

  lemma {:induction false} InformedRun(st: State, acts: seq<Action>, st': State, t: nat)
    requires Inv(st) && Run(st, acts, st') && Informed(st, t)
    ensures Informed(st', t)
    decreases |acts|
  {
    if acts == [] {
    } else {
      InvStep(st, acts[0]);
      InformedStays(st, acts[0], t);
      InformedRun(Apply(st, acts[0]), acts[1..], st', t);
    }
  }

  // ----- What the loop answers -----

  /** Commands are taken in the order in which they were sent, and each one taken is answered or being executed. */
  ghost predicate QueueInv(st: State) {
    && st.sent == st.taken + st.cmdCh
    && (forall c | c in st.taken :: c in st.written && (st.written[c] != [] || st.loop == Executing(c)))
    && (st.loop.Executing? ==> st.taken != [] && st.taken[|st.taken| - 1] == st.loop.cmd)
  }

  lemma QueueReceive(st: State)
    requires Inv(st) && QueueInv(st) && Enabled(st, Receive)
    ensures QueueInv(Apply(st, Receive))
  {
    assert st.cmdCh == [st.cmdCh[0]] + st.cmdCh[1..];
    assert st.cmdCh[0] in st.written;
  }

  lemma QueueDrain(st: State)
    requires Inv(st) && QueueInv(st) && Enabled(st, DrainOne)
    ensures QueueInv(Apply(st, DrainOne))
  {
    assert st.cmdCh == [st.cmdCh[0]] + st.cmdCh[1..];
    assert st.written[st.cmdCh[0]] == [] && st.response[st.cmdCh[0]] == [];
  }

  lemma QueueAnswer(st: State, reply: Reply, fatal: bool)
    requires Inv(st) && QueueInv(st) && Enabled(st, Answer(reply, fatal))
    ensures QueueInv(Apply(st, Answer(reply, fatal)))
  {
  }

  lemma QueueClient(st: State, a: Action)
    requires Inv(st) && QueueInv(st) && Enabled(st, a) && !LoopStep(a)
    ensures QueueInv(Apply(st, a))
  {
    if a.Send? {
      assert st.taken + (st.cmdCh + [st.clients[a.t].cmd]) == (st.taken + st.cmdCh) + [st.clients[a.t].cmd];
    } else if a.BeginSend? {
      assert st.next !in st.response;
    }
  }

  lemma QueueStep(st: State, a: Action)
    requires Inv(st) && QueueInv(st) && Enabled(st, a)
    ensures QueueInv(Apply(st, a))
  {
    if a.Receive? {
      QueueReceive(st);
    } else if a.DrainOne? {
      QueueDrain(st);
    } else if a.Answer? {
      QueueAnswer(st, a.reply, a.fatal);
    } else if !LoopStep(a) {
      QueueClient(st, a);
    }
  }

  lemma {:induction false} QueueRun(st: State, acts: seq<Action>, st': State)
    requires Inv(st) && QueueInv(st) && Run(st, acts, st')
    ensures QueueInv(st')
    decreases |acts|
  {
    if acts == [] {
    } else {
      InvStep(st, acts[0]);
      QueueStep(st, acts[0]);
      QueueRun(Apply(st, acts[0]), acts[1..], st');
    }
  }

  /** Commands are taken first in, first out, by the loop or by the drain, and every one taken has exactly one
      answer, except the one being executed, which has none yet; those still in the channel have none. */
  lemma TakenAreAnswered(st: State)
    requires Reachable(st)
    ensures st.sent == st.taken + st.cmdCh
    ensures forall c | c in st.taken :: c in st.written && |st.written[c]| == if st.loop == Executing(c) then 0 else 1
    ensures forall c | c in st.cmdCh :: c in st.written && st.written[c] == []
  {
    ReachableInv(st);
    var st0, acts :| Init(st0) && Run(st0, acts, st);
    QueueRun(st0, acts, st);
  }

  lemma AnswerStep(st: State, a: Action, c: nat)
    requires Inv(st) && Enabled(st, a) && c in st.written && st.written[c] != []
    ensures c in Apply(st, a).written && Apply(st, a).written[c] == st.written[c]
  {
    if a.BeginSend? {
      assert st.next !in st.response;
    }
  }

  lemma {:induction false} AnswerStays(st: State, acts: seq<Action>, st': State, c: nat)
    requires Inv(st) && Run(st, acts, st') && c in st.written && st.written[c] != []
    ensures c in st'.written && st'.written[c] == st.written[c]
    decreases |acts|
  {
    if acts == [] {
    } else {
      InvStep(st, acts[0]);
      AnswerStep(st, acts[0], c);
      AnswerStays(Apply(st, acts[0]), acts[1..], st', c);
    }
  }

  /** What a command is answered, once and for all: the outcome of its execution, or that the loop has stopped when
      it is drained. A waiter that gets a reply gets that. */
  lemma AnswersAre(st: State, a: Action, acts: seq<Action>, st': State, t: nat)
    requires Inv(st) && Enabled(st, a) && Run(Apply(st, a), acts, st')
    ensures a.Answer? ==> st.loop.cmd in st'.written && st'.written[st.loop.cmd] == [a.reply]
    ensures a.DrainOne? ==> st.cmdCh[0] in st'.written && st'.written[st.cmdCh[0]] == [LoopStopped]
    ensures t in st'.clients && st'.clients[t].GotReply? ==>
              && (a.Answer? && st'.clients[t].cmd == st.loop.cmd ==> st'.clients[t].reply == a.reply)
              && (a.DrainOne? && st'.clients[t].cmd == st.cmdCh[0] ==> st'.clients[t].reply == LoopStopped)
  {
    InvStep(st, a);
    InvRun(Apply(st, a), acts, st');
    if a.Answer? {
      AnswerStays(Apply(st, a), acts, st', st.loop.cmd);
    }
    if a.DrainOne? {
      AnswerStays(Apply(st, a), acts, st', st.cmdCh[0]);
    }
    if t in st'.clients {
      assert OneClient(st', st'.clients[t]);
    }
  }

  /** However a waiter wakes, it takes the reply if one has been written, and else returns what woke it. */
  lemma RepliesComeFirst(st: State, a: Action, t: nat)
    requires Inv(st) && Enabled(st, a) && (a == TakeReply(t) || a == SeeLoopDone(t) || a == SeeContext(t))
    ensures var c := st.clients[t].cmd;
            Apply(st, a).clients[t]
            == if st.written[c] != [] then GotReply(c, st.written[c][0])
               else if a.SeeLoopDone? then GaveUp(c) else CancelledWait(c)
    ensures st.clients[t].cmd in Apply(st, a).response && Apply(st, a).response[st.clients[t].cmd] == []
  {
    assert OneClient(st, st.clients[t]);
  }

  predicate Ending(loop: Loop) {
    loop.Draining? || loop.ClosingLoopDone? || loop.Exited?
  }

  /** A fatal outcome ends the loop, and any other outcome does not. */
  lemma FatalEnds(st: State, reply: Reply, fatal: bool)
    requires Enabled(st, Answer(reply, fatal))
    ensures Ending(Apply(st, Answer(reply, fatal)).loop) <==> fatal
    ensures !fatal ==> Apply(st, Answer(reply, fatal)).loop.Selecting?
  {
  }

  /** Once the loop is ending, nothing more is executed: every answer given from then on is that it has stopped,
      and when it has exited loopDone is closed. */
  lemma {:induction false} EndingStops(st: State, acts: seq<Action>, st': State)
    requires Inv(st) && Run(st, acts, st') && Ending(st.loop)
    ensures Ending(st'.loop) && forall a | a in acts :: !a.Receive? && !a.Answer?
    ensures forall c | c in st'.written ::
              || st'.written[c] == [] || st'.written[c] == [LoopStopped]
              || (c in st.written && st'.written[c] == st.written[c])
    ensures st'.loopDone <==> st'.loop.Exited?
    decreases |acts|
  {
    if acts == [] {
    } else {
      EndingStep(st, acts[0]);
      InvStep(st, acts[0]);
      EndingStops(Apply(st, acts[0]), acts[1..], st');
      assert acts == [acts[0]] + acts[1..];
    }
  }

  lemma EndingStep(st: State, a: Action)
    requires Inv(st) && Enabled(st, a) && Ending(st.loop)
    ensures Ending(Apply(st, a).loop) && !a.Receive? && !a.Answer?
    ensures var st' := Apply(st, a);
            forall c | c in st'.written ::
              || st'.written[c] == [] || st'.written[c] == [LoopStopped]
              || (c in st.written && st'.written[c] == st.written[c])
  {
  }

  // ----- The drain, and who has sent -----

  predicate Drained(loop: Loop) {
    loop.ClosingLoopDone? || loop.Exited?
  }

  /** Command c has been sent, and taken if the drain is over. */
  predicate Reached(st: State, c: nat) {
    c in st.sent && (Drained(st.loop) ==> c in st.taken)
  }

  lemma ReachedStep(st: State, a: Action, c: nat)
    requires QueueInv(st) && Enabled(st, a) && Reached(st, c)
    ensures Reached(Apply(st, a), c)
  {
  }

  lemma {:induction false} ReachedRun(st: State, acts: seq<Action>, st': State, c: nat)
    requires Inv(st) && QueueInv(st) && Run(st, acts, st') && Reached(st, c)
    ensures Reached(st', c) && Inv(st') && QueueInv(st')
    decreases |acts|
  {
    if acts == [] {
    } else {
      InvStep(st, acts[0]);
      QueueStep(st, acts[0]);
      ReachedStep(st, acts[0], c);
      ReachedRun(Apply(st, acts[0]), acts[1..], st', c);
    }
  }

  /** However the loop ends, every command sent before its drain is over has been answered when loopDone is
      closed, and nobody gives up on it. */
  lemma DrainAnswersAll(st: State, acts: seq<Action>, st': State, c: nat)
    requires Reachable(st) && Run(st, acts, st') && c in st.sent && !Drained(st.loop)
    requires st'.loop.Exited?
    ensures c in st'.written && |st'.written[c]| == 1
    ensures forall t | t in st'.clients && st'.clients[t].cmd == c :: !st'.clients[t].GaveUp?
  {
    ReachableInv(st);
    var st0, acts0 :| Init(st0) && Run(st0, acts0, st);
    QueueRun(st0, acts0, st);
    ReachedRun(st, acts, st', c);
    assert forall t | t in st'.clients :: OneClient(st', st'.clients[t]);
  }

  /** A client's command has been sent unless it is being sent or was refused. */
  ghost predicate SentInv(st: State) {
    && (forall t | t in st.clients :: SentBy(st.clients[t], st.sent))
    && (forall c | c in st.sent :: c < st.next)
  }

  predicate SentBy(k: Client, sent: seq<nat>) {
    k.cmd in sent <==> !k.Sending? && !k.NotSent?
  }

  lemma SentGrows(st: State, a: Action)
    requires Enabled(st, a)
    ensures Apply(st, a).sent == if a.Send? then st.sent + [st.clients[a.t].cmd] else st.sent
  {
  }

  lemma NumbersGrow(st: State, a: Action)
    requires Enabled(st, a)
    ensures Apply(st, a).next == if a.BeginSend? then st.next + 1 else st.next
  {
  }

  lemma SentAt(st: State, a: Action, t: nat)
    requires ClientInv(st) && SentInv(st) && Enabled(st, a) && t in Apply(st, a).clients
    ensures SentBy(Apply(st, a).clients[t], Apply(st, a).sent)
  {
    SentGrows(st, a);
    if t in st.clients {
      assert SentBy(st.clients[t], st.sent);
      if !ActionOf(a, t) {
        ClientStays(st, a, t);
      }
    }
  }

  lemma SentStep(st: State, a: Action)
    requires ClientInv(st) && SentInv(st) && Enabled(st, a)
    ensures SentInv(Apply(st, a))
  {
    SentGrows(st, a);
    NumbersGrow(st, a);
    forall t | t in Apply(st, a).clients
      ensures SentBy(Apply(st, a).clients[t], Apply(st, a).sent)
    {
      SentAt(st, a, t);
    }
  }

  lemma {:induction false} SentRun(st: State, acts: seq<Action>, st': State)
    requires Inv(st) && SentInv(st) && Run(st, acts, st')
    ensures SentInv(st')
    decreases |acts|
  {
    if acts == [] {
    } else {
      InvStep(st, acts[0]);
      SentStep(st, acts[0]);
      SentRun(Apply(st, acts[0]), acts[1..], st');
    }
  }

  /** Whoever waits, has returned from a wait or was cancelled in it has had its command sent, in its turn; a
      refused command is never sent, and so never answered. */
  lemma SentIffWaiting(st: State, t: nat)
    requires Reachable(st) && t in st.clients
    ensures st.clients[t].cmd in st.sent <==> !st.clients[t].Sending? && !st.clients[t].NotSent?
    ensures st.clients[t].NotSent? ==> st.clients[t].cmd in st.written && st.written[st.clients[t].cmd] == []
  {
    ReachableInv(st);
    var st0, acts :| Init(st0) && Run(st0, acts, st);
    SentRun(st0, acts, st);
    assert SentBy(st.clients[t], st.sent) && OneClient(st, st.clients[t]);
  }

  /** The connection is done once it has been closed, and not before; then the loop can end. */
  lemma {:induction false} CloseIsSeen(st: State, acts: seq<Action>, st': State)
    requires Run(st, acts, st')
    ensures st'.done <==> st.done || CloseDone in acts
    ensures st'.done && st'.loop.Selecting? ==> Enabled(st', SeeDone)
    decreases |acts|
  {
    if acts == [] {
    } else {
      CloseIsSeen(Apply(st, acts[0]), acts[1..], st');
      assert acts == [acts[0]] + acts[1..];
    }
  }
}
