/** What the selections of BalancedAll return: the connection that was chosen or made, for the node it was made
    for, and listed for the caller's slot. */
module BalancedResults {
  import opened Common
  import opened Seqs
  import opened ConnPool
  import opened BalancedAll

  // ----- From the creator on -----

  /** Creator k of pending result id is bound to return r, or has. */
  predicate Bound(st: State, k: nat, id: nat, r: Result) {
    k in st.calls && match st.calls[k]
                     case Created(_, _, i, c) => i == id && r == Got(c)
                     case CreateFailed(_, _, i) => i == id && r == CreateError
                     case Resolving(i, x) => i == id && x == r
                     case Returned(x, of) => of == Some(id) && x == r
                     case Creating(_, _, _) => false
                     case Waiting(_, _) => false
                     case Linking(_, _, _) => false
  }

  lemma BoundStep(st: State, a: Action, k: nat, id: nat, r: Result)
    requires Bound(st, k, id, r) && Enabled(st, a)
    ensures Bound(Apply(st, a), k, id, r)
  {
  }

  lemma {:induction false} BoundRun(st: State, acts: seq<Action>, st': State, k: nat, id: nat, r: Result)
    requires Bound(st, k, id, r) && Run(st, acts, st')
    ensures Bound(st', k, id, r)
    decreases |acts|
  {
    if acts == [] {
    } else {
      BoundStep(st, acts[0], k, id, r);
      BoundRun(Apply(st, acts[0]), acts[1..], st', k, id, r);
    }
  }

  /** What a creator has in hand. */
  function Outcome(x: Call): Result
    requires x.Created? || x.CreateFailed?
  {
    if x.Created? then Got(x.conn) else CreateError
  }

  /** A creator that has its connection returns that connection, and one whose attempt failed returns the error;
      every waiter that is not cancelled returns the same. */
  lemma CreatorReturns(st: State, acts: seq<Action>, st': State, creator: nat, waiter: nat)
    requires Reachable(st) && Run(st, acts, st')
    requires creator in st.calls && (st.calls[creator].Created? || st.calls[creator].CreateFailed?)
    ensures creator in st'.calls
    ensures st'.calls[creator].Returned? ==> st'.calls[creator].result == Outcome(st.calls[creator])
    ensures waiter in st.calls && st.calls[waiter].Waiting? && st.calls[waiter].id == st.calls[creator].id
            && Cancel(waiter) !in acts ==>
              && waiter in st'.calls
              && (st'.calls[waiter].Returned? ==> st'.calls[waiter].result == Outcome(st.calls[creator]))
              && (st'.calls[waiter].Linking? ==> Got(st'.calls[waiter].conn) == Outcome(st.calls[creator]))
  {
    var id, r := st.calls[creator].id, Outcome(st.calls[creator]);
    BoundRun(st, acts, st', creator, id, r);
    if waiter in st.calls && st.calls[waiter].Waiting? && st.calls[waiter].id == id && Cancel(waiter) !in acts {
      ReachableInv(st);
      FollowsRun(st, acts, st', waiter, id);
      CreatorFollows(st, acts, st', creator, id, r);
    }
  }

  /** What is stored for a pending result is what its creator was bound to. */
  lemma CreatorFollows(st: State, acts: seq<Action>, st': State, k: nat, id: nat, r: Result)
    requires Inv(st) && Run(st, acts, st') && Bound(st, k, id, r) && Owner(st.calls[k]) && !r.Cancelled?
    ensures id in st'.results ==> st'.results[id] == r
  {
    StoredRun(st, acts, st', k, id, r);
  }

  predicate Stored(st: State, id: nat, r: Result) {
    id in st.results ==> st.results[id] == r
  }

  lemma {:induction false} StoredRun(st: State, acts: seq<Action>, st': State, k: nat, id: nat, r: Result)
    requires Inv(st) && Run(st, acts, st') && Bound(st, k, id, r) && Stored(st, id, r) && !r.Cancelled?
    ensures Stored(st', id, r)
    decreases |acts|
  {
    if acts == [] {
    } else {
      StoredStep(st, acts[0], k, id, r);
      BoundStep(st, acts[0], k, id, r);
      PendingStep(st, acts[0]);
      ConnStep(st, acts[0]);
      StoredRun(Apply(st, acts[0]), acts[1..], st', k, id, r);
    }
  }

  lemma StoredStep(st: State, a: Action, k: nat, id: nat, r: Result)
    requires Pending(st) && Enabled(st, a) && Bound(st, k, id, r) && Stored(st, id, r) && !r.Cancelled?
    ensures Stored(Apply(st, a), id, r)
  {
    assert Told(st.calls[k], st.results, st.nextId);
  }

  // ----- Nodes -----

  /** Connections and pending results keep to the node they were made for. */
  ghost predicate NodeInv(st: State) {
    && (forall c | c in st.pool.metas :: c in st.h.made && st.h.made[c] == st.pool.metas[c].node)
    && (forall c | c in st.h.made :: c < st.nextConn)
    && (forall id | id in st.h.purpose :: id < st.nextId)
    && (forall n | n in st.pool.pending :: For(st, st.pool.pending[n], n))
    && (forall k | k in st.calls :: KeepsTo(st, st.calls[k]))
    && (forall id | id in st.results :: MadeFor(st, id, st.results[id]))
  }

  predicate For(st: State, id: nat, n: string) {
    id in st.h.purpose && st.h.purpose[id] == n
  }

  /** A connection that answers pending result id is one made for its node. */
  predicate MadeFor(st: State, id: nat, r: Result) {
    id in st.h.purpose && (r.Got? ==> r.conn in st.h.made && st.h.made[r.conn] == st.h.purpose[id])
  }

  predicate KeepsTo(st: State, x: Call) {
    match x
    case Creating(_, n, id) => For(st, id, n)
    case Created(_, n, id, c) => For(st, id, n) && MadeFor(st, id, Got(c))
    case CreateFailed(_, n, id) => For(st, id, n)
    case Resolving(id, r) => MadeFor(st, id, r)
    case Waiting(_, id) => id in st.h.purpose
    case Linking(_, id, c) => MadeFor(st, id, Got(c))
    case Returned(r, of) => of.Some? ==> MadeFor(st, of.value, r)
  }

  /** New entries in the histories leave what was there. */
  predicate Longer(st: State, st': State) {
    && (forall c | c in st.h.made :: c in st'.h.made && st'.h.made[c] == st.h.made[c])
    && (forall id | id in st.h.purpose :: id in st'.h.purpose && st'.h.purpose[id] == st.h.purpose[id])
  }

  lemma HistoriesGrow(st: State, a: Action)
    requires NodeInv(st) && Enabled(st, a)
    ensures Longer(st, Apply(st, a))
  {
    assert st.nextConn !in st.h.made && st.nextId !in st.h.purpose;
  }

  lemma NodesOfMetas(st: State, a: Action)
    requires NodeInv(st) && Enabled(st, a)
    ensures var st' := Apply(st, a);
            && (forall c | c in st'.pool.metas :: c in st'.h.made && st'.h.made[c] == st'.pool.metas[c].node)
            && (forall c | c in st'.h.made :: c < st'.nextConn)
            && (forall id | id in st'.h.purpose :: id < st'.nextId)
  {
  }

  lemma NodesOfPending(st: State, a: Action)
    requires NodeInv(st) && Enabled(st, a)
    ensures var st' := Apply(st, a);
            && (forall n | n in st'.pool.pending :: For(st', st'.pool.pending[n], n))
            && (forall id | id in st'.results :: MadeFor(st', id, st'.results[id]))
  {
    HistoriesGrow(st, a);
    var st' := Apply(st, a);
    forall n | n in st'.pool.pending
      ensures For(st', st'.pool.pending[n], n)
    {
      if n in st.pool.pending {
        assert For(st, st.pool.pending[n], n);
      }
    }
    forall id | id in st'.results
      ensures MadeFor(st', id, st'.results[id])
    {
      if a.Resolve? && id == st.calls[a.k].id {
        assert KeepsTo(st, st.calls[a.k]);
      } else {
        assert MadeFor(st, id, st.results[id]);
      }
    }
  }

  lemma NodesOfCall(st: State, a: Action, k: nat)
    requires NodeInv(st) && Enabled(st, a) && k in Apply(st, a).calls
    ensures KeepsTo(Apply(st, a), Apply(st, a).calls[k])
  {
    HistoriesGrow(st, a);
    if k in st.calls {
      assert KeepsTo(st, st.calls[k]);
      if a.Wake? && a.k == k {
        assert MadeFor(st, st.calls[k].id, st.results[st.calls[k].id]);
      }
    } else if a.d.Build? && a.d.node in st.pool.pending {
      assert For(st, st.pool.pending[a.d.node], a.d.node);
    }
  }

  lemma NodeStep(st: State, a: Action)
    requires NodeInv(st) && Enabled(st, a)
    ensures NodeInv(Apply(st, a))
  {
    NodesOfMetas(st, a);
    NodesOfPending(st, a);
    forall k | k in Apply(st, a).calls
      ensures KeepsTo(Apply(st, a), Apply(st, a).calls[k])
    {
      NodesOfCall(st, a, k);
    }
  }

  lemma {:induction false} NodeRun(st: State, acts: seq<Action>, st': State)
    requires NodeInv(st) && Run(st, acts, st')
    ensures NodeInv(st')
    decreases |acts|
  {
    if acts == [] {
    } else {
      NodeStep(st, acts[0]);
      NodeRun(Apply(st, acts[0]), acts[1..], st');
    }
  }

  // ----- One selection, from beginning to end -----

  /** Call k is about slot and node n. */
  predicate About(st: State, k: nat, slot: nat, n: string) {
    k in st.calls && match st.calls[k]
                     case Creating(s, m, id) => s == slot && m == n && For(st, id, n)
                     case Created(s, m, id, _) => s == slot && m == n && For(st, id, n)
                     case CreateFailed(s, m, id) => s == slot && m == n && For(st, id, n)
                     case Waiting(s, id) => s == slot && For(st, id, n)
                     case Linking(s, id, _) => s == slot && For(st, id, n)
                     case Resolving(id, _) => For(st, id, n)
                     case Returned(r, of) => of.Some? && For(st, of.value, n) && !r.NoNodes?
  }

  /** No pending result is resolved by something else than a connection or a failed attempt. */
  ghost predicate Plain(st: State) {
    && (forall k | k in st.calls && st.calls[k].Resolving? ::
          st.calls[k].result.Got? || st.calls[k].result.CreateError?)
    && (forall id | id in st.results :: st.results[id].Got? || st.results[id].CreateError?)
  }

  lemma PlainStep(st: State, a: Action)
    requires Plain(st) && Enabled(st, a)
    ensures Plain(Apply(st, a))
  {
  }

  lemma AboutStep(st: State, a: Action, k: nat, slot: nat, n: string)
    requires NodeInv(st) && Plain(st) && Enabled(st, a) && About(st, k, slot, n)
    ensures About(Apply(st, a), k, slot, n)
  {
    HistoriesGrow(st, a);
    if StepOf(a, k) {
      assert KeepsTo(st, st.calls[k]);
    } else {
      OthersStand(st, a, k);
    }
  }

  lemma {:induction false} AboutRun(st: State, acts: seq<Action>, st': State, k: nat, slot: nat, n: string)
    requires NodeInv(st) && Plain(st) && Run(st, acts, st') && About(st, k, slot, n)
    ensures NodeInv(st') && Plain(st') && About(st', k, slot, n)
    decreases |acts|
  {
    if acts == [] {
    } else {
      AboutStep(st, acts[0], k, slot, n);
      NodeStep(st, acts[0]);
      PlainStep(st, acts[0]);
      AboutRun(Apply(st, acts[0]), acts[1..], st', k, slot, n);
    }
  }

  /** The critical section in which a creator registers its connection: listed last under its node, listed for the
      slot, the pending entry gone, and that connection is what it goes on to broadcast and return. */
  lemma ListRegisters(st: State, k: nat)
    requires Enabled(st, List(k))
    ensures var x, st' := st.calls[k], Apply(st, List(k));
            && ListOf(st'.pool.nodes, x.node) == ListOf(st.pool.nodes, x.node) + [x.conn]
            && (forall n: string | n != x.node :: ListOf(st'.pool.nodes, n) == ListOf(st.pool.nodes, n))
            && Routes(st'.pool, x.slot, x.conn) && x.node !in st'.pool.pending
            && st'.pool.metas == st.pool.metas
            && Bound(st', k, x.id, Got(x.conn))
  {
    var x := st.calls[k];
    RoutesOneMore(st.pool.(pending := st.pool.pending - {x.node},
                           nodes := st.pool.nodes[x.node := ListOf(st.pool.nodes, x.node) + [x.conn]]), x.slot, x.conn);
  }

  /** A connection is made active, for the node chosen, and is not one the pool has known. */
  lemma ConnectMakes(st: State, k: nat)
    requires Reachable(st) && Enabled(st, Connect(k))
    ensures var x, c, st' := st.calls[k], st.nextConn, Apply(st, Connect(k));
            && c !in st.pool.metas && (forall n: string :: !Lists(st.pool, n, c))
            && c in st'.pool.metas && st'.pool.metas[c] == Meta(x.node, Active, 0)
            && st'.calls[k] == Created(x.slot, x.node, x.id, c)
  {
    ReachableInv(st);
  }

  /** Where a call that returns a connection has listed it for its slot. */
  lemma {:induction false} RoutedOnTheWay(st: State, acts: seq<Action>, st': State, k: nat, slot: nat, n: string,
                                          c: Conn)
    returns (i: nat, mid: State)
    requires NodeInv(st) && Plain(st) && Run(st, acts, st') && About(st, k, slot, n)
    requires !st.calls[k].Resolving? && !st.calls[k].Returned?
    requires k in st'.calls && st'.calls[k].Returned? && st'.calls[k].result == Got(c)
    ensures i <= |acts| && Run(st, acts[..i], mid) && Routes(mid.pool, slot, c)
    decreases |acts|
  {
    var a, st1 := acts[0], Apply(st, acts[0]);
    assert Run(st1, [], st1) && acts[..1] == [a] && [a][1..] == [];
    if a == List(k) {
      ListRegisters(st, k);
      BoundRun(st1, acts[1..], st', k, st.calls[k].id, Got(st.calls[k].conn));
      i, mid := 1, st1;
    } else if a == Link(k) {
      RoutesOneMore(st.pool, slot, st.calls[k].conn);
      BoundRun(st1, acts[1..], st', k, st.calls[k].id, Got(st.calls[k].conn));
      i, mid := 1, st1;
    } else {
      AboutStep(st, a, k, slot, n);
      NodeStep(st, a);
      PlainStep(st, a);
      if st1.calls[k].Resolving? || st1.calls[k].Returned? {
        EndsWithout(st, a, acts[1..], st', k, c);
      } else {
        i, mid := RoutedOnTheWay(st1, acts[1..], st', k, slot, n, c);
        assert acts[..i + 1][1..] == acts[1..][..i] && acts[..i + 1][0] == a;
        i := i + 1;
      }
    }
  }

  /** Any other way to the end brings no connection. */
  lemma EndsWithout(st: State, a: Action, rest: seq<Action>, st': State, k: nat, c: Conn)
    requires Plain(st) && Enabled(st, a) && a != List(k) && a != Link(k) && Run(Apply(st, a), rest, st')
    requires k in st.calls && !st.calls[k].Resolving? && !st.calls[k].Returned?
    requires var x := Apply(st, a).calls[k]; x.Resolving? || x.Returned?
    ensures !(k in st'.calls && st'.calls[k].Returned? && st'.calls[k].result == Got(c))
  {
    var x := Apply(st, a).calls[k];
    if x.Resolving? {
      BoundRun(Apply(st, a), rest, st', k, x.id, x.result);
    } else if x.of.Some? {
      BoundRun(Apply(st, a), rest, st', k, x.of.value, x.result);
    }
  }

  lemma ReachableNodes(st: State)
    requires Reachable(st)
    ensures NodeInv(st) && Plain(st)
  {
    var st0, acts :| Init(st0) && Run(st0, acts, st);
    NodeRun(st0, acts, st);
    PlainRun(st0, acts, st);
  }

  lemma {:induction false} PlainRun(st: State, acts: seq<Action>, st': State)
    requires Plain(st) && Run(st, acts, st')
    ensures Plain(st')
    decreases |acts|
  {
    if acts == [] {
    } else {
      PlainStep(st, acts[0]);
      PlainRun(Apply(st, acts[0]), acts[1..], st');
    }
  }

  /** A selection that has to connect, or to wait for a connection being made, returns an error of the attempt, or is
      cancelled in its wait, or returns a connection that was made for the node chosen and that it found listed
      for its slot on the way. */
  lemma SelectionReturns(st: State, k: nat, slot: nat, nodes: seq<string>, n: string, acts: seq<Action>, st': State)
    returns (i: nat, mid: State)
    requires Reachable(st) && Enabled(st, Start(k, slot, nodes, Build(n)))
    requires Run(Apply(st, Start(k, slot, nodes, Build(n))), acts, st')
    ensures k in st'.calls
    ensures st'.calls[k].Returned? ==> !st'.calls[k].result.NoNodes?
    ensures st'.calls[k].Returned? && st'.calls[k].result.Got? ==>
              && st'.calls[k].result.conn in st'.h.made && st'.h.made[st'.calls[k].result.conn] == n
              && i <= |acts| && Run(Apply(st, Start(k, slot, nodes, Build(n))), acts[..i], mid)
              && Routes(mid.pool, slot, st'.calls[k].result.conn)
  {
    var a := Start(k, slot, nodes, Build(n));
    var st1 := Apply(st, a);
    ReachableNodes(st);
    NodeStep(st, a);
    PlainStep(st, a);
    if n in st.pool.pending {
      assert For(st, st.pool.pending[n], n);
    }
    AboutRun(st1, acts, st', k, slot, n);
    assert KeepsTo(st', st'.calls[k]);
    i, mid := 0, st1;
    if st'.calls[k].Returned? && st'.calls[k].result.Got? {
      i, mid := RoutedOnTheWay(st1, acts, st', k, slot, n, st'.calls[k].result.conn);
    }
  }

  /** A selection that reuses a connection, or finds no node, is over at once, and returns that connection, listed for
      its slot, or the error. */
  lemma SelectionEnds(st: State, k: nat, slot: nat, nodes: seq<string>, d: Decision, acts: seq<Action>, st': State)
    requires Enabled(st, Start(k, slot, nodes, d)) && !d.Build?
    requires Run(Apply(st, Start(k, slot, nodes, d)), acts, st')
    ensures k in st'.calls && st'.calls[k] == Returned(if d.Reuse? then Got(d.conn) else NoNodes, None)
    ensures d.Reuse? ==> Routes(Apply(st, Start(k, slot, nodes, d)).pool, slot, d.conn)
  {
    if d.Reuse? {
      RoutesOneMore(st.pool, slot, d.conn);
    }
    OverRun(Apply(st, Start(k, slot, nodes, d)), acts, st', k);
  }

  lemma {:induction false} OverRun(st: State, acts: seq<Action>, st': State, k: nat)
    requires Run(st, acts, st') && k in st.calls && st.calls[k].Returned?
    ensures k in st'.calls && st'.calls[k] == st.calls[k]
    decreases |acts|
  {
    if acts == [] {
    } else {
      OverRun(Apply(st, acts[0]), acts[1..], st', k);
    }
  }
}
