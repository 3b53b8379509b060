/** Any number of concurrent selectLeastLoadedAcrossNodes calls (pool.go), each critical section one
    step, with connections that are created, fail and are removed at any moment in between. */
module BalancedAll {
  import opened Common
  import opened Seqs
  import opened ConnPool

  datatype Result = Got(conn: Conn) | CreateError | Cancelled | NoNodes

  /** Where a call is between its critical sections. */
  datatype Call =
    | Creating(slot: nat, node: string, id: nat)             // pending entry made, connecting
    | Created(slot: nat, node: string, id: nat, conn: Conn)  // connected, metadata registered, not listed
    | CreateFailed(slot: nat, node: string, id: nat)
    | Resolving(id: nat, result: Result)                     // pending entry deleted, result not broadcast
    | Waiting(slot: nat, id: nat)                            // in pending.wait
    | Linking(slot: nat, id: nat, conn: Conn)                // woken with a connection
    | Returned(result: Result, of: Option<nat>)              // of: the pending result it made or waited for

  datatype SlotEntry = SlotEntry(slot: nat, conn: Conn)

  datatype History = History(
    orphans: set<Conn>,         // connections removed between their creation and their listing
    stale: set<SlotEntry>,      // entries of a slot's list made after the connection was removed
    made: map<Conn, string>,    // the node that each connection was made for
    purpose: map<nat, string>)  // the node that each pending result is about

  datatype State = State(
    pool: Pool,
    calls: map<nat, Call>,
    results: map<nat, Result>,  // the resolved pendingConnectionResults
    nextConn: Conn,             // connections and pending results are numbered as they are made
    nextId: nat,
    h: History)

  predicate Init(st: State) {
    st == State(Pool(map[], map[], map[], map[]), map[], map[], 0, 0, History({}, {}, map[], map[]))
  }

  datatype Action =
    | Start(k: nat, slot: nat, nodes: seq<string>, d: Decision)
    | Connect(k: nat) | FailConnect(k: nat)
    | List(k: nat) | Abandon(k: nat) | Resolve(k: nat)
    | Wake(k: nat) | Cancel(k: nat) | Link(k: nat)
    // the rest of the program
    | Degrade(c: Conn, to: ConnState) | SetLoad(c: Conn, load: nat) | Drop(c: Conn) | Forget(slot: nat)

  ghost predicate Enabled(st: State, a: Action) {
    match a
    case Start(k, _, nodes, d) => k !in st.calls && IsChoice(st.pool, nodes, d)
    case Connect(k) => k in st.calls && st.calls[k].Creating?
    case FailConnect(k) => k in st.calls && st.calls[k].Creating?
    case List(k) => k in st.calls && st.calls[k].Created?
    case Abandon(k) => k in st.calls && st.calls[k].CreateFailed?
    case Resolve(k) => k in st.calls && st.calls[k].Resolving?
    case Wake(k) => k in st.calls && st.calls[k].Waiting? && st.calls[k].id in st.results
    case Cancel(k) => k in st.calls && st.calls[k].Waiting?
    case Link(k) => k in st.calls && st.calls[k].Linking?
    case Degrade(c, to) => c in st.pool.metas && !to.Active?
    case SetLoad(c, _) => c in st.pool.metas
    case Drop(_) => true
    case Forget(_) => true
  }

  function Apply(st: State, a: Action): State
    requires Enabled(st, a)
  {
    match a
    case Start(k, slot, _, d) =>
      var (pool, sel) := AfterSelect(st.pool, slot, d, st.nextId);
      st.(pool := pool, calls := st.calls[k := Begin(slot, sel)],
          nextId := if sel.Creates? then st.nextId + 1 else st.nextId,
          h := if sel.Creates? then st.h.(purpose := st.h.purpose[st.nextId := sel.node]) else st.h)
    case Connect(k) =>
      var x := st.calls[k];
      st.(pool := st.pool.(metas := st.pool.metas[st.nextConn := Meta(x.node, Active, 0)]),
          calls := st.calls[k := Created(x.slot, x.node, x.id, st.nextConn)], nextConn := st.nextConn + 1,
          h := st.h.(made := st.h.made[st.nextConn := x.node]))
    case FailConnect(k) =>
      var x := st.calls[k];
      st.(calls := st.calls[k := CreateFailed(x.slot, x.node, x.id)])
    case List(k) =>
      var x := st.calls[k];
      st.(pool := Register(st.pool, x.slot, x.node, x.conn),
          calls := st.calls[k := Resolving(x.id, Got(x.conn))],
          h := st.h.(orphans := if x.conn in st.pool.metas then st.h.orphans else st.h.orphans + {x.conn},
                     stale := StaleWith(st, x.slot, x.conn)))
    case Abandon(k) =>
      var x := st.calls[k];
      st.(pool := st.pool.(pending := st.pool.pending - {x.node}),
          calls := st.calls[k := Resolving(x.id, CreateError)])
    case Resolve(k) =>
      var x := st.calls[k];
      st.(results := st.results[x.id := x.result], calls := st.calls[k := Returned(x.result, Some(x.id))])
    case Wake(k) =>
      var x := st.calls[k];
      st.(calls := st.calls[k := if st.results[x.id].Got? then Linking(x.slot, x.id, st.results[x.id].conn)
                                 else Returned(st.results[x.id], Some(x.id))])
    case Cancel(k) => st.(calls := st.calls[k := Returned(Cancelled, Some(st.calls[k].id))])
    case Link(k) =>
      var x := st.calls[k];
      st.(pool := AddSlot(st.pool, x.slot, x.conn), calls := st.calls[k := Returned(Got(x.conn), Some(x.id))],
          h := st.h.(stale := StaleWith(st, x.slot, x.conn)))
    case Degrade(c, to) =>
      st.(pool := st.pool.(metas := st.pool.metas[c := st.pool.metas[c].(state := to)]))
    case SetLoad(c, load) =>
      st.(pool := st.pool.(metas := st.pool.metas[c := st.pool.metas[c].(load := load)]))
    case Drop(c) => st.(pool := Remove(st.pool, c))
    case Forget(slot) =>
      st.(pool := Invalidate(st.pool, slot), h := st.h.(stale := set e | e in st.h.stale && e.slot != slot))
  }

  /** The stale entries when c is listed for slot. */
  function StaleWith(st: State, slot: nat, c: Conn): set<SlotEntry> {
    if c in st.pool.metas then st.h.stale else st.h.stale + {SlotEntry(slot, c)}
  }

  /** How a call goes on after its first critical section. */
  function Begin(slot: nat, sel: Selection): Call {
    match sel
    case Reused(c) => Returned(Got(c), None)
    case Awaits(id) => Waiting(slot, id)
    case Creates(n, id) => Creating(slot, n, id)
    case NoValidNode => Returned(NoNodes, None)
  }

  ghost predicate Run(st: State, acts: seq<Action>, st': State)
    decreases |acts|
  {
    if acts == [] then st == st'
    else Enabled(st, acts[0]) && Run(Apply(st, acts[0]), acts[1..], st')
  }

  // ----- Pending results -----

  predicate InFlight(x: Call) {
    x.Creating? || x.Created? || x.CreateFailed?
  }

  /** The call that will resolve x.id. */
  predicate Owner(x: Call) {
    InFlight(x) || x.Resolving?
  }

  ghost predicate Owned(calls: map<nat, Call>, id: nat) {
    exists k :: k in calls && Owner(calls[k]) && calls[k].id == id
  }

  ghost predicate Built(calls: map<nat, Call>, n: string, id: nat) {
    exists k :: k in calls && InFlight(calls[k]) && calls[k].node == n && calls[k].id == id
  }

  /** What a call that is not an owner knows about its pending result. */
  predicate Told(x: Call, results: map<nat, Result>, nextId: nat) {
    match x
    case Waiting(_, id) => id < nextId
    case Linking(_, id, c) => id in results && results[id] == Got(c)
    case Returned(r, of) => of.Some? && r != Cancelled ==> of.value in results && results[of.value] == r
    case Creating(_, _, _) => true
    case Created(_, _, _, _) => true
    case CreateFailed(_, _, _) => true
    case Resolving(_, _) => true
  }

  /** The pending entries are those of the creations in flight. */
  ghost predicate Entries(pending: map<string, nat>, calls: map<nat, Call>) {
    && (forall k | k in calls && InFlight(calls[k]) ::
          calls[k].node in pending && pending[calls[k].node] == calls[k].id)
    && (forall n | n in pending :: Built(calls, n, pending[n]))
  }

  /** Each pending result is either resolved or has exactly one owner. */
  ghost predicate Owners(calls: map<nat, Call>, results: map<nat, Result>, nextId: nat) {
    && (forall k, l | k in calls && l in calls && Owner(calls[k]) && Owner(calls[l])
        && calls[k].id == calls[l].id :: k == l)
    && (forall k | k in calls && Owner(calls[k]) :: calls[k].id < nextId && calls[k].id !in results)
    && (forall id | id in results :: id < nextId)
    && (forall id: nat | id < nextId :: id in results || Owned(calls, id))
  }

  ghost predicate AllTold(calls: map<nat, Call>, results: map<nat, Result>, nextId: nat) {
    forall k | k in calls :: Told(calls[k], results, nextId)
  }

  lemma OwnedFrame(calls: map<nat, Call>, k: nat, x: Call, id: nat)
    requires Owned(calls, id)
    requires k in calls && Owner(calls[k]) ==> Owner(x) && x.id == calls[k].id
    ensures Owned(calls[k := x], id)
  {
    var l :| l in calls && Owner(calls[l]) && calls[l].id == id;
    assert l in calls[k := x];
  }

  lemma BuiltFrame(calls: map<nat, Call>, k: nat, x: Call, n: string, id: nat)
    requires Built(calls, n, id)
    requires k in calls && InFlight(calls[k]) && calls[k].node == n ==>
             InFlight(x) && x.node == n && x.id == calls[k].id
    ensures Built(calls[k := x], n, id)
  {
    var l :| l in calls && InFlight(calls[l]) && calls[l].node == n && calls[l].id == id;
    assert l in calls[k := x];
  }

  /** A call that goes on without owning, or keeping what it owns. */
  predicate Keeps(calls: map<nat, Call>, k: nat, x: Call) {
    if k in calls && Owner(calls[k]) then
      InFlight(calls[k]) && InFlight(x) && x.node == calls[k].node && x.id == calls[k].id
    else !Owner(x)
  }

  lemma EntriesMove(pending: map<string, nat>, calls: map<nat, Call>, k: nat, x: Call)
    requires Entries(pending, calls)
    requires if k in calls && InFlight(calls[k]) then InFlight(x) && x.node == calls[k].node && x.id == calls[k].id
             else !InFlight(x)
    ensures Entries(pending, calls[k := x])
  {
    forall n | n in pending ensures Built(calls[k := x], n, pending[n]) { BuiltFrame(calls, k, x, n, pending[n]); }
  }

  lemma EntriesStart(pending: map<string, nat>, calls: map<nat, Call>, k: nat, slot: nat, n: string, id: nat)
    requires Entries(pending, calls) && k !in calls && n !in pending
    ensures Entries(pending[n := id], calls[k := Creating(slot, n, id)])
  {
    var x, pending' := Creating(slot, n, id), pending[n := id];
    forall m | m in pending'
      ensures Built(calls[k := x], m, pending'[m])
    {
      if m == n {
        assert k in calls[k := x];
      } else {
        BuiltFrame(calls, k, x, m, pending[m]);
      }
    }
  }

  /** Two creations in flight are for two nodes. */
  lemma OneBuilder(pending: map<string, nat>, calls: map<nat, Call>, results: map<nat, Result>, nextId: nat, k: nat,
                   l: nat)
    requires Entries(pending, calls) && Owners(calls, results, nextId)
    requires k in calls && l in calls && InFlight(calls[k]) && InFlight(calls[l]) && calls[k].node == calls[l].node
    ensures k == l
  {
    assert calls[k].id == pending[calls[k].node] == calls[l].id;
  }

  lemma EntriesLeave(pending: map<string, nat>, calls: map<nat, Call>, results: map<nat, Result>, nextId: nat,
                     k: nat, r: Result)
    requires Entries(pending, calls) && Owners(calls, results, nextId) && k in calls && InFlight(calls[k])
    ensures Entries(pending - {calls[k].node}, calls[k := Resolving(calls[k].id, r)])
  {
    var x := Resolving(calls[k].id, r);
    forall m | m in pending && m != calls[k].node
      ensures Built(calls[k := x], m, pending[m])
    {
      BuiltFrame(calls, k, x, m, pending[m]);
    }
    forall l | l in calls && l != k && InFlight(calls[l])
      ensures calls[l].node != calls[k].node
    {
      if calls[l].node == calls[k].node {
        OneBuilder(pending, calls, results, nextId, k, l);
      }
    }
  }

  lemma OwnersMove(calls: map<nat, Call>, results: map<nat, Result>, nextId: nat, k: nat, x: Call)
    requires Owners(calls, results, nextId)
    requires if k in calls && Owner(calls[k]) then Owner(x) && x.id == calls[k].id else !Owner(x)
    ensures Owners(calls[k := x], results, nextId)
  {
    forall id: nat | id < nextId && id !in results
      ensures Owned(calls[k := x], id)
    {
      OwnedFrame(calls, k, x, id);
    }
  }

  lemma OwnersStart(calls: map<nat, Call>, results: map<nat, Result>, nextId: nat, k: nat, x: Call)
    requires Owners(calls, results, nextId) && k !in calls && Owner(x) && x.id == nextId
    ensures Owners(calls[k := x], results, nextId + 1)
  {
    forall id: nat | id <= nextId && id !in results
      ensures Owned(calls[k := x], id)
    {
      if id == nextId {
        assert k in calls[k := x];
      } else {
        OwnedFrame(calls, k, x, id);
      }
    }
  }

  lemma OwnersResolve(calls: map<nat, Call>, results: map<nat, Result>, nextId: nat, k: nat, x: Call)
    requires Owners(calls, results, nextId) && k in calls && calls[k].Resolving? && !Owner(x)
    ensures Owners(calls[k := x], results[calls[k].id := calls[k].result], nextId)
  {
    var resolved := calls[k].id;
    forall id: nat | id < nextId && id !in results
      ensures id == resolved || Owned(calls[k := x], id)
    {
      var l :| l in calls && Owner(calls[l]) && calls[l].id == id;
      assert l in calls[k := x];
    }
  }

  /** Results are only ever added, so what a call was told stays true. */
  lemma ToldMove(calls: map<nat, Call>, results: map<nat, Result>, nextId: nat,
                 results': map<nat, Result>, nextId': nat, k: nat, x: Call)
    requires AllTold(calls, results, nextId) && nextId <= nextId' && Told(x, results', nextId')
    requires forall id | id in results :: id in results' && results'[id] == results[id]
    ensures AllTold(calls[k := x], results', nextId')
  {
    forall l | l in calls && l != k
      ensures Told(calls[l], results', nextId')
    {
      assert Told(calls[l], results, nextId);
    }
  }

  ghost predicate Pending(st: State) {
    && Entries(st.pool.pending, st.calls)
    && Owners(st.calls, st.results, st.nextId)
    && AllTold(st.calls, st.results, st.nextId)
  }

  lemma PendingMove(st: State, k: nat, x: Call)
    requires Pending(st) && Keeps(st.calls, k, x) && Told(x, st.results, st.nextId)
    ensures Entries(st.pool.pending, st.calls[k := x])
    ensures Owners(st.calls[k := x], st.results, st.nextId)
    ensures AllTold(st.calls[k := x], st.results, st.nextId)
  {
    EntriesMove(st.pool.pending, st.calls, k, x);
    OwnersMove(st.calls, st.results, st.nextId, k, x);
    ToldMove(st.calls, st.results, st.nextId, st.results, st.nextId, k, x);
  }

  lemma PendingLeave(st: State, k: nat, r: Result)
    requires Pending(st) && k in st.calls && InFlight(st.calls[k])
    ensures var calls := st.calls[k := Resolving(st.calls[k].id, r)];
            && Entries(st.pool.pending - {st.calls[k].node}, calls)
            && Owners(calls, st.results, st.nextId) && AllTold(calls, st.results, st.nextId)
  {
    var x := Resolving(st.calls[k].id, r);
    EntriesLeave(st.pool.pending, st.calls, st.results, st.nextId, k, r);
    OwnersMove(st.calls, st.results, st.nextId, k, x);
    ToldMove(st.calls, st.results, st.nextId, st.results, st.nextId, k, x);
  }

  lemma PendingResolve(st: State, k: nat)
    requires Pending(st) && Enabled(st, Resolve(k))
    ensures Pending(Apply(st, Resolve(k)))
  {
    var x := st.calls[k];
    var x' := Returned(x.result, Some(x.id));
    EntriesMove(st.pool.pending, st.calls, k, x');
    OwnersResolve(st.calls, st.results, st.nextId, k, x');
    ToldMove(st.calls, st.results, st.nextId, st.results[x.id := x.result], st.nextId, k, x');
  }

  lemma PendingStart(st: State, k: nat, slot: nat, nodes: seq<string>, d: Decision)
    requires Pending(st) && Enabled(st, Start(k, slot, nodes, d))
    ensures Pending(Apply(st, Start(k, slot, nodes, d)))
  {
    var sel := AfterSelect(st.pool, slot, d, st.nextId).1;
    var x := Begin(slot, sel);
    if sel.Creates? {
      EntriesStart(st.pool.pending, st.calls, k, slot, sel.node, st.nextId);
      OwnersStart(st.calls, st.results, st.nextId, k, x);
      ToldMove(st.calls, st.results, st.nextId, st.results, st.nextId + 1, k, x);
    } else {
      if sel.Awaits? {
        assert Built(st.calls, d.node, sel.id);
      }
      PendingMove(st, k, x);
    }
  }

  lemma PendingStep(st: State, a: Action)
    requires Pending(st) && Enabled(st, a)
    ensures Pending(Apply(st, a))
  {
    match a
    case Start(k, slot, nodes, d) => PendingStart(st, k, slot, nodes, d);
    case Connect(k) => PendingMove(st, k, Created(st.calls[k].slot, st.calls[k].node, st.calls[k].id, st.nextConn));
    case FailConnect(k) => PendingMove(st, k, CreateFailed(st.calls[k].slot, st.calls[k].node, st.calls[k].id));
    case List(k) => PendingLeave(st, k, Got(st.calls[k].conn));
    case Abandon(k) => PendingLeave(st, k, CreateError);
    case Resolve(k) => PendingResolve(st, k);
    case Wake(k) => PendingMove(st, k, Apply(st, a).calls[k]);
    case Cancel(k) => PendingMove(st, k, Apply(st, a).calls[k]);
    case Link(k) => PendingMove(st, k, Apply(st, a).calls[k]);
    case Degrade(_, _) =>
    case SetLoad(_, _) =>
    case Drop(_) =>
    case Forget(_) =>
  }

  // ----- Connections -----

  predicate Lists(pool: Pool, n: string, c: Conn) {
    c in ListOf(pool.nodes, n)
  }

  /** The node lists: no repetition, and an entry's metadata names the node it is listed under, unless
      the connection was removed before it was listed. */
  ghost predicate Listings(pool: Pool, nextConn: Conn, orphans: set<Conn>) {
    && ListsOk(pool.nodes) && ListsOk(pool.slots)
    && (forall n: string, c: Conn | Lists(pool, n, c) ::
          && c < nextConn
          && (c in pool.metas <==> c !in orphans)
          && (c in pool.metas ==> pool.metas[c].node == n))
    && (forall c | c in pool.metas :: c < nextConn)
    && (forall c | c in orphans :: c < nextConn && c !in pool.metas)
  }

  /** A connection that is made but not listed. */
  ghost predicate Unlisted(pool: Pool, nextConn: Conn, orphans: set<Conn>, c: Conn, node: string) {
    && c < nextConn && c !in orphans
    && (c in pool.metas ==> pool.metas[c].node == node)
    && (forall n: string :: !Lists(pool, n, c))
  }

  ghost predicate Makers(pool: Pool, calls: map<nat, Call>, nextConn: Conn, orphans: set<Conn>) {
    && (forall k | k in calls && calls[k].Created? :: Unlisted(pool, nextConn, orphans, calls[k].conn, calls[k].node))
    && (forall k, l | k in calls && l in calls && calls[k].Created? && calls[l].Created?
        && calls[k].conn == calls[l].conn :: k == l)
  }

  /** A node has at most one active listed connection, and none while one is being created. */
  ghost predicate Exclusive(pool: Pool, calls: map<nat, Call>) {
    && (forall n: string, c: Conn, d: Conn | Lists(pool, n, c) && Lists(pool, n, d) && IsActive(pool, c)
        && IsActive(pool, d) ::
          c == d)
    && (forall k | k in calls && InFlight(calls[k]) :: Idle(pool, calls[k].node))
  }

  ghost predicate Idle(pool: Pool, n: string) {
    forall c: Conn | Lists(pool, n, c) :: !IsActive(pool, c)
  }

  ghost predicate ConnInv(st: State) {
    && Listings(st.pool, st.nextConn, st.h.orphans)
    && Makers(st.pool, st.calls, st.nextConn, st.h.orphans)
    && Exclusive(st.pool, st.calls)
  }

  /** Nothing is listed that was not, no metadata is made or renamed, and nothing becomes active. */
  ghost predicate Shrinks(pool: Pool, pool': Pool) {
    && (forall n: string, c: Conn | Lists(pool', n, c) :: Lists(pool, n, c))
    && (forall c | c in pool'.metas :: c in pool.metas && pool'.metas[c].node == pool.metas[c].node)
    && (forall c | IsActive(pool', c) :: IsActive(pool, c))
  }

  lemma MakersShrink(pool: Pool, pool': Pool, calls: map<nat, Call>, calls': map<nat, Call>, nextConn: Conn,
                     orphans: set<Conn>)
    requires Shrinks(pool, pool') && Makers(pool, calls, nextConn, orphans) && Exclusive(pool, calls)
    requires forall k | k in calls' && calls'[k].Created? :: k in calls && calls[k] == calls'[k]
    requires forall k | k in calls' && InFlight(calls'[k]) :: Idle(pool, calls'[k].node)
    ensures Makers(pool', calls', nextConn, orphans) && Exclusive(pool', calls')
  {
    forall k | k in calls' && InFlight(calls'[k])
      ensures Idle(pool', calls'[k].node)
    {
      assert Idle(pool, calls'[k].node);
    }
  }

  /** A step that leaves the node lists alone, and at most changes a load or deactivates a connection. */
  lemma ConnQuiet(st: State, pool': Pool, calls': map<nat, Call>)
    requires ConnInv(st) && ListsOk(pool'.slots) && pool'.nodes == st.pool.nodes
    requires pool'.metas.Keys == st.pool.metas.Keys
    requires forall c | c in pool'.metas ::
               && pool'.metas[c].node == st.pool.metas[c].node
               && (pool'.metas[c].state.Active? ==> st.pool.metas[c].state.Active?)
    requires forall k | k in calls' && calls'[k].Created? :: k in st.calls && st.calls[k] == calls'[k]
    requires forall k | k in calls' && InFlight(calls'[k]) :: Idle(st.pool, calls'[k].node)
    ensures Listings(pool', st.nextConn, st.h.orphans)
    ensures Makers(pool', calls', st.nextConn, st.h.orphans) && Exclusive(pool', calls')
  {
    MakersShrink(st.pool, pool', st.calls, calls', st.nextConn, st.h.orphans);
  }

  lemma ConnStart(st: State, k: nat, slot: nat, nodes: seq<string>, d: Decision)
    requires ConnInv(st) && Enabled(st, Start(k, slot, nodes, d))
    ensures ConnInv(Apply(st, Start(k, slot, nodes, d)))
  {
    var st' := Apply(st, Start(k, slot, nodes, d));
    if d.Reuse? {
      AddSlotKeeps(st.pool, slot, d.conn);
    }
    if d.Build? {
      BuildIsIdle(st.pool, nodes, d.node);
      assert Idle(st.pool, d.node);
    }
    ConnQuiet(st, st'.pool, st'.calls);
  }

  lemma SameLists(pool: Pool, pool': Pool)
    requires pool'.nodes == pool.nodes
    ensures forall n: string, c: Conn :: Lists(pool', n, c) <==> Lists(pool, n, c)
  {
    forall n: string, c: Conn
      ensures Lists(pool', n, c) <==> Lists(pool, n, c)
    {
    }
  }

  lemma ListsOneMore(pool: Pool, pool': Pool, m: string, d: Conn)
    requires pool'.nodes == pool.nodes[m := ListOf(pool.nodes, m) + [d]]
    ensures forall n: string, c: Conn :: Lists(pool', n, c) <==> Lists(pool, n, c) || (n == m && c == d)
    ensures ListsOk(pool.nodes) && !Lists(pool, m, d) ==> ListsOk(pool'.nodes)
  {
    forall n: string, c: Conn
      ensures Lists(pool', n, c) <==> Lists(pool, n, c) || (n == m && c == d)
    {
    }
  }

  lemma ConnConnect(st: State, k: nat)
    requires ConnInv(st) && Enabled(st, Connect(k))
    ensures ConnInv(Apply(st, Connect(k)))
  {
    var st' := Apply(st, Connect(k));
    SameLists(st.pool, st'.pool);
    forall n: string | Idle(st.pool, n)
      ensures Idle(st'.pool, n)
    {
    }
    assert Unlisted(st'.pool, st'.nextConn, st'.h.orphans, st.nextConn, st.calls[k].node);
  }

  /** Listing c under n leaves at most c active there. */
  lemma ListExclusive(pool: Pool, pool': Pool, calls: map<nat, Call>, calls': map<nat, Call>, k: nat)
    requires Exclusive(pool, calls) && k in calls && calls[k].Created?
    requires pool'.nodes == pool.nodes[calls[k].node := ListOf(pool.nodes, calls[k].node) + [calls[k].conn]]
    requires pool'.metas == pool.metas
    requires forall l | l in calls' && InFlight(calls'[l]) ::
               l in calls && calls[l] == calls'[l] && calls[l].node != calls[k].node
    ensures Exclusive(pool', calls')
  {
    ListsOneMore(pool, pool', calls[k].node, calls[k].conn);
    assert Idle(pool, calls[k].node);
    forall l | l in calls' && InFlight(calls'[l])
      ensures Idle(pool', calls'[l].node)
    {
      assert Idle(pool, calls'[l].node);
    }
  }

  lemma ListListings(st: State, k: nat)
    requires ConnInv(st) && Enabled(st, List(k))
    ensures var st' := Apply(st, List(k)); Listings(st'.pool, st'.nextConn, st'.h.orphans)
  {
    var x := st.calls[k];
    var unlinked := st.pool.(pending := st.pool.pending - {x.node},
                             nodes := st.pool.nodes[x.node := ListOf(st.pool.nodes, x.node) + [x.conn]]);
    AddSlotKeeps(unlinked, x.slot, x.conn);
    ListsOneMore(st.pool, unlinked, x.node, x.conn);
    SameLists(unlinked, Apply(st, List(k)).pool);
    assert Unlisted(st.pool, st.nextConn, st.h.orphans, x.conn, x.node);
  }

  lemma ListMakers(st: State, k: nat)
    requires ConnInv(st) && Enabled(st, List(k))
    ensures var st' := Apply(st, List(k)); Makers(st'.pool, st'.calls, st'.nextConn, st'.h.orphans)
  {
    var st' := Apply(st, List(k));
    ListsOneMore(st.pool, st'.pool, st.calls[k].node, st.calls[k].conn);
    forall l | l in st'.calls && st'.calls[l].Created?
      ensures Unlisted(st'.pool, st'.nextConn, st'.h.orphans, st'.calls[l].conn, st'.calls[l].node)
    {
      assert Unlisted(st.pool, st.nextConn, st.h.orphans, st.calls[l].conn, st.calls[l].node);
      assert st.calls[l].conn != st.calls[k].conn;
    }
  }

  lemma ConnList(st: State, k: nat)
    requires ConnInv(st) && Pending(st) && Enabled(st, List(k))
    ensures ConnInv(Apply(st, List(k)))
  {
    var st' := Apply(st, List(k));
    ListListings(st, k);
    ListMakers(st, k);
    forall l | l in st'.calls && InFlight(st'.calls[l])
      ensures st.calls[l].node != st.calls[k].node
    {
      if st.calls[l].node == st.calls[k].node {
        OneBuilder(st.pool.pending, st.calls, st.results, st.nextId, k, l);
      }
    }
    ListExclusive(st.pool, st'.pool, st.calls, st'.calls, k);
  }

  lemma ConnDrop(st: State, c: Conn)
    requires ConnInv(st)
    ensures ConnInv(Apply(st, Drop(c)))
  {
    if c in st.pool.metas {
      var st' := Apply(st, Drop(c));
      assert forall n | n in st.pool.nodes && c in st.pool.nodes[n] :: Lists(st.pool, n, c);
      RemoveClears(st.pool, c);
      forall n: string, d: Conn | Lists(st'.pool, n, d)
        ensures d != c && Lists(st.pool, n, d)
      {
        assert ListOf(st'.pool.nodes, n) == Without(ListOf(st.pool.nodes, n), c);
        WithoutOnly(ListOf(st.pool.nodes, n), c, d);
      }
      MakersShrink(st.pool, st'.pool, st.calls, st.calls, st.nextConn, st.h.orphans);
    }
  }

  /** The steps of a call that leave the node lists alone. */
  lemma ConnCall(st: State, a: Action)
    requires ConnInv(st) && Enabled(st, a)
    requires a.FailConnect? || a.Abandon? || a.Resolve? || a.Wake? || a.Cancel? || a.Link?
    ensures ConnInv(Apply(st, a))
  {
    var st' := Apply(st, a);
    if a.Link? {
      AddSlotKeeps(st.pool, st.calls[a.k].slot, st.calls[a.k].conn);
    }
    ConnQuiet(st, st'.pool, st'.calls);
  }

  lemma ConnOutside(st: State, a: Action)
    requires ConnInv(st) && Enabled(st, a) && (a.Degrade? || a.SetLoad? || a.Forget?)
    ensures ConnInv(Apply(st, a))
  {
    ConnQuiet(st, Apply(st, a).pool, st.calls);
  }

  lemma ConnStep(st: State, a: Action)
    requires ConnInv(st) && Pending(st) && Enabled(st, a)
    ensures ConnInv(Apply(st, a))
  {
    if a.Start? {
      ConnStart(st, a.k, a.slot, a.nodes, a.d);
    } else if a.Connect? {
      ConnConnect(st, a.k);
    } else if a.List? {
      ConnList(st, a.k);
    } else if a.Drop? {
      ConnDrop(st, a.c);
    } else if a.Degrade? || a.SetLoad? || a.Forget? {
      ConnOutside(st, a);
    } else {
      ConnCall(st, a);
    }
  }

  ghost predicate Inv(st: State) {
    Pending(st) && ConnInv(st)
  }

  lemma {:induction false} InvRun(st: State, acts: seq<Action>, st': State)
    requires Inv(st) && Run(st, acts, st')
    ensures Inv(st')
    decreases |acts|
  {
    if acts == [] {
    } else {
      PendingStep(st, acts[0]);
      ConnStep(st, acts[0]);
      InvRun(Apply(st, acts[0]), acts[1..], st');
    }
  }

  // ----- What follows -----

  ghost predicate Reachable(st: State) {
    exists st0, acts :: Init(st0) && Run(st0, acts, st)
  }

  lemma ReachableInv(st: State)
    requires Reachable(st)
    ensures Inv(st)
  {
    var st0, acts :| Init(st0) && Run(st0, acts, st);
    assert Inv(st0);
    InvRun(st0, acts, st);
  }

  /** At every moment a node has at most one active listed connection or creation in flight. */
  lemma OnePerNode(st: State)
    requires Reachable(st)
    ensures forall n: string, c: Conn, d: Conn |
              Lists(st.pool, n, c) && Lists(st.pool, n, d) && IsActive(st.pool, c) && IsActive(st.pool, d) :: c == d
    ensures forall k, l | k in st.calls && l in st.calls && InFlight(st.calls[k]) && InFlight(st.calls[l])
                          && st.calls[k].node == st.calls[l].node :: k == l
    ensures forall k, c: Conn | k in st.calls && InFlight(st.calls[k]) && Lists(st.pool, st.calls[k].node, c) ::
              !IsActive(st.pool, c)
  {
    ReachableInv(st);
    forall k, l | k in st.calls && l in st.calls && InFlight(st.calls[k]) && InFlight(st.calls[l])
                  && st.calls[k].node == st.calls[l].node
      ensures k == l
    {
      OneBuilder(st.pool.pending, st.calls, st.results, st.nextId, k, l);
    }
    forall k, c: Conn | k in st.calls && InFlight(st.calls[k]) && Lists(st.pool, st.calls[k].node, c)
      ensures !IsActive(st.pool, c)
    {
      assert Idle(st.pool, st.calls[k].node);
    }
  }

  /** Whenever a call decides: a connection it reuses is active, of the shard, and carries no more than any
      active connection of the shard; a node it connects to has neither an active connection nor a
      creation in flight. */
  lemma SpreadThenBalance(st: State, k: nat, slot: nat, nodes: seq<string>, d: Decision)
    requires Reachable(st) && Enabled(st, Start(k, slot, nodes, d))
    ensures var x := Apply(st, Start(k, slot, nodes, d)).calls[k];
            && (d.Reuse? ==>
                  && x == Returned(Got(d.conn), None) && IsActive(st.pool, d.conn)
                  && (exists n | n in nodes :: Lists(st.pool, n, d.conn))
                  && (forall n, c: Conn | n in nodes && Lists(st.pool, n, c) && IsActive(st.pool, c) ::
                        Load(st.pool, d.conn) <= Load(st.pool, c))
                  && (forall n | n in nodes :: ListOf(st.pool.nodes, n) != []))
            && (x.Creating? ==>
                  && x.node in nodes && Idle(st.pool, x.node)
                  && (forall l | l in st.calls && InFlight(st.calls[l]) :: st.calls[l].node != x.node)
                  && ((exists n | n in nodes :: ListOf(st.pool.nodes, n) == []) ==>
                        ListOf(st.pool.nodes, x.node) == []))
            && (x.Waiting? ==> d.Build? && d.node in nodes && Built(st.calls, d.node, x.id))
  {
    ReachableInv(st);
    if d.Reuse? {
      ReuseIsMinimal(st.pool, nodes, d.conn);
      var n :| n in nodes && d.conn in ListOf(st.pool.nodes, n);
      assert Lists(st.pool, n, d.conn);
    }
    if d.Build? {
      BuildIsIdle(st.pool, nodes, d.node);
      assert Idle(st.pool, d.node);
    }
  }

  /** A pending result is resolved at most once; until it is, exactly one call is to resolve it, so a
      waiter either can wake or has its creator at work. */
  lemma ResolvedOnce(st: State)
    requires Reachable(st)
    ensures forall k | Enabled(st, Resolve(k)) :: st.calls[k].id !in st.results
    ensures forall k | k in st.calls && st.calls[k].Waiting? ::
              || Enabled(st, Wake(k))
              || exists l :: l in st.calls && Owner(st.calls[l]) && st.calls[l].id == st.calls[k].id
    ensures forall k, l | k in st.calls && l in st.calls && Owner(st.calls[k]) && Owner(st.calls[l])
                          && st.calls[k].id == st.calls[l].id :: k == l
  {
    ReachableInv(st);
    forall k | k in st.calls && st.calls[k].Waiting? && !Enabled(st, Wake(k))
      ensures exists l :: l in st.calls && Owner(st.calls[l]) && st.calls[l].id == st.calls[k].id
    {
      assert Told(st.calls[k], st.results, st.nextId);
      assert Owned(st.calls, st.calls[k].id);
    }
  }

  /** The steps a creator has left before its result is broadcast. */
  function Stage(x: Call): nat {
    if x.Creating? then 3 else if x.Created? || x.CreateFailed? then 2 else if x.Resolving? then 1 else 0
  }

  predicate StepOf(a: Action, k: nat) {
    match a
    case Start(l, _, _, _) => l == k
    case Connect(l) => l == k
    case FailConnect(l) => l == k
    case List(l) => l == k
    case Abandon(l) => l == k
    case Resolve(l) => l == k
    case Wake(l) => l == k
    case Cancel(l) => l == k
    case Link(l) => l == k
    case Degrade(_, _) => false
    case SetLoad(_, _) => false
    case Drop(_) => false
    case Forget(_) => false
  }

  /** A creator can always go on, only its own steps move it, and each brings it closer to the broadcast. */
  lemma CreatorGoesOn(st: State, k: nat, a: Action)
    requires k in st.calls && Owner(st.calls[k])
    ensures match st.calls[k]
            case Created(_, _, _, _) => Enabled(st, List(k))
            case CreateFailed(_, _, _) => Enabled(st, Abandon(k))
            case Resolving(_, _) => Enabled(st, Resolve(k))
            case _ => Enabled(st, Connect(k)) && Enabled(st, FailConnect(k))
    ensures Enabled(st, a) && !StepOf(a, k) ==>
              k in Apply(st, a).calls && Apply(st, a).calls[k] == st.calls[k]
    ensures Enabled(st, a) && StepOf(a, k) ==>
              && k in Apply(st, a).calls
              && Stage(Apply(st, a).calls[k]) == Stage(st.calls[k]) - 1
              && (Stage(st.calls[k]) == 1 ==> st.calls[k].id in Apply(st, a).results)
              && (Stage(st.calls[k]) > 1 ==> Owner(Apply(st, a).calls[k]) && Apply(st, a).calls[k].id == st.calls[k].id)
  {
  }

  function StepsOf(acts: seq<Action>, k: nat): nat {
    if acts == [] then 0 else (if StepOf(acts[0], k) then 1 else 0) + StepsOf(acts[1..], k)
  }

  lemma {:induction false} ResultsStay(st: State, acts: seq<Action>, st': State, id: nat)
    requires Run(st, acts, st') && id in st.results
    ensures id in st'.results
    decreases |acts|
  {
    if acts == [] {
    } else {
      ResultsStay(Apply(st, acts[0]), acts[1..], st', id);
    }
  }

  /** In any run in which a creator takes three steps, whatever else is interleaved and however the
      connection attempt ends, its result has been broadcast: every waiter can wake. */
  lemma {:induction false} CreatorBroadcasts(st: State, acts: seq<Action>, st': State, k: nat)
    requires Run(st, acts, st') && k in st.calls && Owner(st.calls[k])
    requires StepsOf(acts, k) >= Stage(st.calls[k])
    ensures st.calls[k].id in st'.results
    ensures forall w | w in st'.calls && st'.calls[w].Waiting? && st'.calls[w].id == st.calls[k].id ::
              Enabled(st', Wake(w))
    decreases |acts|
  {
    var st1 := Apply(st, acts[0]);
    CreatorGoesOn(st, k, acts[0]);
    if Owner(st1.calls[k]) {
      CreatorBroadcasts(st1, acts[1..], st', k);
    } else {
      ResultsStay(st1, acts[1..], st', st.calls[k].id);
    }
  }

  /** Call k is concerned with pending result id, and has been told nothing but what is stored there. */
  ghost predicate Follows(st: State, k: nat, id: nat) {
    k in st.calls && match st.calls[k]
                     case Creating(_, _, i) => i == id
                     case Created(_, _, i, _) => i == id
                     case CreateFailed(_, _, i) => i == id
                     case Resolving(i, _) => i == id
                     case Waiting(_, i) => i == id
                     case Linking(_, i, c) => i == id && id in st.results && st.results[id] == Got(c)
                     case Returned(r, of) => of == Some(id) && id in st.results && st.results[id] == r
  }

  lemma OthersStand(st: State, a: Action, k: nat)
    requires Enabled(st, a) && k in st.calls && !StepOf(a, k)
    ensures k in Apply(st, a).calls && Apply(st, a).calls[k] == st.calls[k]
  {
  }

  lemma ResultsStand(st: State, a: Action, id: nat)
    requires Owners(st.calls, st.results, st.nextId) && Enabled(st, a) && id in st.results
    ensures id in Apply(st, a).results && Apply(st, a).results[id] == st.results[id]
  {
    if a.Resolve? {
      assert st.calls[a.k].id !in st.results;
    }
  }

  /** The steps that call k takes itself. */
  lemma FollowsOwn(st: State, a: Action, k: nat, id: nat)
    requires Owners(st.calls, st.results, st.nextId)
    requires Enabled(st, a) && Follows(st, k, id) && StepOf(a, k) && a != Cancel(k)
    ensures Follows(Apply(st, a), k, id)
  {
    if id in st.results {
      ResultsStand(st, a, id);
    }
  }

  lemma FollowsStep(st: State, a: Action, k: nat, id: nat)
    requires Pending(st) && Enabled(st, a) && Follows(st, k, id) && a != Cancel(k)
    ensures Follows(Apply(st, a), k, id)
  {
    if StepOf(a, k) {
      FollowsOwn(st, a, k, id);
    } else {
      OthersStand(st, a, k);
      if id in st.results {
        ResultsStand(st, a, id);
      }
    }
  }

  lemma {:induction false} FollowsRun(st: State, acts: seq<Action>, st': State, k: nat, id: nat)
    requires Pending(st) && Run(st, acts, st') && Follows(st, k, id) && Cancel(k) !in acts
    ensures Follows(st', k, id)
    decreases |acts|
  {
    if acts == [] {
    } else {
      FollowsStep(st, acts[0], k, id);
      PendingStep(st, acts[0]);
      FollowsRun(Apply(st, acts[0]), acts[1..], st', k, id);
    }
  }

  /** The creator and every waiter that is not cancelled return the same thing. */
  lemma WaitersGetTheResult(st: State, acts: seq<Action>, st': State, creator: nat, waiter: nat)
    requires Reachable(st) && Run(st, acts, st') && Cancel(waiter) !in acts
    requires creator in st.calls && Owner(st.calls[creator])
    requires waiter in st.calls && st.calls[waiter].Waiting? && st.calls[waiter].id == st.calls[creator].id
    requires creator in st'.calls && st'.calls[creator].Returned?
    requires waiter in st'.calls && st'.calls[waiter].Returned?
    ensures st'.calls[waiter].result == st'.calls[creator].result
  {
    ReachableInv(st);
    var id := st.calls[creator].id;
    FollowsRun(st, acts, st', waiter, id);
    assert Cancel(creator) !in acts by { NeverCancelled(st, acts, st', creator); }
    FollowsRun(st, acts, st', creator, id);
  }

  /** A creator is never in wait, so it is not cancelled there. */
  lemma {:induction false} NeverCancelled(st: State, acts: seq<Action>, st': State, k: nat)
    requires Run(st, acts, st') && k in st.calls && (Owner(st.calls[k]) || st.calls[k].Returned?)
    ensures Cancel(k) !in acts
    decreases |acts|
  {
    if acts == [] {
    } else {
      assert acts[0] != Cancel(k);
      NeverCancelled(Apply(st, acts[0]), acts[1..], st', k);
      assert acts == [acts[0]] + acts[1..];
    }
  }

  /** The indexes at every moment: lists are without repetition and never empty, and an entry of a node's
      list has metadata naming the node if and only if it was not removed before it was listed. */
  lemma IndexesAgree(st: State)
    requires Reachable(st)
    ensures ListsOk(st.pool.nodes) && ListsOk(st.pool.slots)
    ensures forall n: string, c: Conn | Lists(st.pool, n, c) ::
              (c in st.pool.metas && st.pool.metas[c].node == n) <==> c !in st.h.orphans
    ensures forall c | c in st.pool.metas ::
              var q := Remove(st.pool, c);
              && c !in q.metas && ListsOk(q.nodes) && ListsOk(q.slots)
              && (forall n: string :: ListOf(q.nodes, n) == Without(ListOf(st.pool.nodes, n), c) && !Lists(q, n, c))
              && (forall s: nat ::
                    ListOf(q.slots, s) == Without(ListOf(st.pool.slots, s), c) && c !in ListOf(q.slots, s))
  {
    ReachableInv(st);
    forall c | c in st.pool.metas
      ensures var q := Remove(st.pool, c);
              && c !in q.metas && ListsOk(q.nodes) && ListsOk(q.slots)
              && (forall n: string :: ListOf(q.nodes, n) == Without(ListOf(st.pool.nodes, n), c) && !Lists(q, n, c))
              && (forall s: nat ::
                    ListOf(q.slots, s) == Without(ListOf(st.pool.slots, s), c) && c !in ListOf(q.slots, s))
    {
      assert forall n | n in st.pool.nodes && c in st.pool.nodes[n] :: Lists(st.pool, n, c);
      RemoveClears(st.pool, c);
    }
  }

  // ----- Slot entries without metadata -----

  predicate Routes(pool: Pool, slot: nat, c: Conn) {
    c in ListOf(pool.slots, slot)
  }

  /** The stale entries are those without metadata. */
  ghost predicate Slots(pool: Pool, nextConn: Conn, stale: set<SlotEntry>) {
    && (forall s: nat, c: Conn | Routes(pool, s, c) :: c < nextConn && (c !in pool.metas <==> SlotEntry(s, c) in stale))
    && (forall e | e in stale :: Routes(pool, e.slot, e.conn))
  }

  predicate Known(r: Result, nextConn: Conn) {
    r.Got? ==> r.conn < nextConn
  }

  /** No call speaks of a connection that has yet to be made. */
  ghost predicate Spoken(calls: map<nat, Call>, results: map<nat, Result>, nextConn: Conn) {
    && (forall k | k in calls ::
          match calls[k]
          case Created(_, _, _, c) => c < nextConn
          case Linking(_, _, c) => c < nextConn
          case Resolving(_, r) => Known(r, nextConn)
          case Creating(_, _, _) => true
          case CreateFailed(_, _, _) => true
          case Waiting(_, _) => true
          case Returned(_, _) => true)
    && (forall id | id in results :: Known(results[id], nextConn))
  }

  ghost predicate SlotInv(st: State) {
    && Slots(st.pool, st.nextConn, st.h.stale) && Spoken(st.calls, st.results, st.nextConn)
    && (forall c | c in st.pool.metas :: c < st.nextConn)
  }

  lemma SpokenStep(st: State, a: Action)
    requires Spoken(st.calls, st.results, st.nextConn) && Enabled(st, a)
    ensures var st' := Apply(st, a); Spoken(st'.calls, st'.results, st'.nextConn)
  {
  }

  lemma RoutesOneMore(pool: Pool, slot: nat, c: Conn)
    ensures forall s: nat, d: Conn ::
              Routes(AddSlot(pool, slot, c), s, d) <==> Routes(pool, s, d) || (s == slot && d == c)
    ensures AddSlot(pool, slot, c).metas == pool.metas
  {
    forall s: nat, d: Conn
      ensures Routes(AddSlot(pool, slot, c), s, d) <==> Routes(pool, s, d) || (s == slot && d == c)
    {
    }
  }

  lemma SameRoutes(pool: Pool, pool': Pool)
    requires pool'.slots == pool.slots
    ensures forall s: nat, c: Conn :: Routes(pool', s, c) <==> Routes(pool, s, c)
  {
    forall s: nat, c: Conn
      ensures Routes(pool', s, c) <==> Routes(pool, s, c)
    {
    }
  }

  /** A connection is listed for a slot: by List, by Link, or when it is reused. */
  lemma SlotsAdd(st: State, pool: Pool, slot: nat, c: Conn)
    requires Slots(st.pool, st.nextConn, st.h.stale) && c < st.nextConn
    requires pool.slots == st.pool.slots && pool.metas == st.pool.metas
    ensures Slots(AddSlot(pool, slot, c), st.nextConn, StaleWith(st, slot, c))
  {
    SameRoutes(st.pool, pool);
    RoutesOneMore(pool, slot, c);
  }

  lemma SlotsDrop(st: State, c: Conn)
    requires Slots(st.pool, st.nextConn, st.h.stale) && ListsOk(st.pool.slots)
    ensures Slots(Remove(st.pool, c), st.nextConn, st.h.stale)
  {
    if c in st.pool.metas {
      SlotsCleared(st.pool, c);
      forall s: nat, d: Conn
        ensures Routes(Remove(st.pool, c), s, d) <==> Routes(st.pool, s, d) && d != c
      {
        WithoutDistinct(ListOf(st.pool.slots, s), c);
      }
    }
  }

  lemma SlotsStart(st: State, k: nat, slot: nat, nodes: seq<string>, d: Decision)
    requires SlotInv(st) && Enabled(st, Start(k, slot, nodes, d))
    ensures var st' := Apply(st, Start(k, slot, nodes, d)); Slots(st'.pool, st'.nextConn, st'.h.stale)
  {
    if d.Reuse? {
      ReuseIsMinimal(st.pool, nodes, d.conn);
      SlotsAdd(st, st.pool, slot, d.conn);
    } else {
      SameRoutes(st.pool, Apply(st, Start(k, slot, nodes, d)).pool);
    }
  }

  lemma SlotsList(st: State, k: nat)
    requires SlotInv(st) && Enabled(st, List(k))
    ensures var st' := Apply(st, List(k)); Slots(st'.pool, st'.nextConn, st'.h.stale)
  {
    var x := st.calls[k];
    SlotsAdd(st, st.pool.(pending := st.pool.pending - {x.node},
                          nodes := st.pool.nodes[x.node := ListOf(st.pool.nodes, x.node) + [x.conn]]), x.slot, x.conn);
  }

  lemma SlotsForget(st: State, slot: nat)
    requires Slots(st.pool, st.nextConn, st.h.stale)
    ensures var st' := Apply(st, Forget(slot)); Slots(st'.pool, st'.nextConn, st'.h.stale)
  {
    forall s: nat, c: Conn
      ensures Routes(Invalidate(st.pool, slot), s, c) <==> Routes(st.pool, s, c) && s != slot
    {
    }
  }

  /** A step that leaves the slot lists alone, and of the metadata at most makes that of a new connection. */
  lemma SlotsQuiet(st: State, st': State)
    requires SlotInv(st) && st'.pool.slots == st.pool.slots && st'.h.stale == st.h.stale && st.nextConn <= st'.nextConn
    requires forall c | c < st.nextConn :: c in st'.pool.metas <==> c in st.pool.metas
    ensures Slots(st'.pool, st'.nextConn, st'.h.stale)
  {
    SameRoutes(st.pool, st'.pool);
  }

  lemma SlotsStep(st: State, a: Action)
    requires SlotInv(st) && ListsOk(st.pool.slots) && Enabled(st, a)
    ensures var st' := Apply(st, a); Slots(st'.pool, st'.nextConn, st'.h.stale)
  {
    if a.Start? {
      SlotsStart(st, a.k, a.slot, a.nodes, a.d);
    } else if a.List? {
      SlotsList(st, a.k);
    } else if a.Link? {
      SlotsAdd(st, st.pool, st.calls[a.k].slot, st.calls[a.k].conn);
    } else if a.Drop? {
      SlotsDrop(st, a.c);
    } else if a.Forget? {
      SlotsForget(st, a.slot);
    } else {
      SlotsQuiet(st, Apply(st, a));
    }
  }

  lemma SlotStep(st: State, a: Action)
    requires SlotInv(st) && ConnInv(st) && Pending(st) && Enabled(st, a)
    ensures SlotInv(Apply(st, a))
  {
    SlotsStep(st, a);
    SpokenStep(st, a);
    ConnStep(st, a);
  }

  lemma {:induction false} SlotRun(st: State, acts: seq<Action>, st': State)
    requires Inv(st) && SlotInv(st) && Run(st, acts, st')
    ensures SlotInv(st')
    decreases |acts|
  {
    if acts == [] {
    } else {
      SlotStep(st, acts[0]);
      PendingStep(st, acts[0]);
      ConnStep(st, acts[0]);
      SlotRun(Apply(st, acts[0]), acts[1..], st');
    }
  }

  /** In every reachable state an entry of a slot's list is without metadata if and only if it was made when the
      connection had already been removed, and the slot has not been invalidated since. */
  lemma SlotsAgree(st: State, slot: nat, c: Conn)
    requires Reachable(st) && Routes(st.pool, slot, c)
    ensures c !in st.pool.metas <==> SlotEntry(slot, c) in st.h.stale
  {
    var st0, acts :| Init(st0) && Run(st0, acts, st);
    assert Inv(st0) && SlotInv(st0);
    SlotRun(st0, acts, st);
  }

  lemma StaleStep(st: State, a: Action, e: SlotEntry)
    requires Enabled(st, a) && e in st.h.stale && a != Forget(e.slot)
    ensures e in Apply(st, a).h.stale
  {
  }

  lemma {:induction false} StaleRun(st: State, acts: seq<Action>, st': State, e: SlotEntry)
    requires Run(st, acts, st') && e in st.h.stale && Forget(e.slot) !in acts
    ensures e in st'.h.stale
    decreases |acts|
  {
    if acts == [] {
    } else {
      assert acts[0] in acts && forall a | a in acts[1..] :: a in acts;
      StaleStep(st, acts[0], e);
      StaleRun(Apply(st, acts[0]), acts[1..], st', e);
    }
  }

  /** Only invalidating the slot takes such an entry away. */
  lemma StaleStays(st: State, acts: seq<Action>, st': State, slot: nat, c: Conn)
    requires Inv(st) && SlotInv(st) && Run(st, acts, st') && SlotEntry(slot, c) in st.h.stale && Forget(slot) !in acts
    ensures SlotEntry(slot, c) in st'.h.stale && Routes(st'.pool, slot, c) && c !in st'.pool.metas
  {
    StaleRun(st, acts, st', SlotEntry(slot, c));
    SlotRun(st, acts, st');
  }

  // ----- Node entries without metadata -----

  /** A connection removed before it was listed stays listed for ever: removePubSub finds no metadata. */
  lemma {:induction false} OrphanStays(st: State, acts: seq<Action>, st': State, n: string, c: Conn)
    requires Inv(st) && Run(st, acts, st') && c in st.h.orphans && Lists(st.pool, n, c)
    ensures c in st'.h.orphans && Lists(st'.pool, n, c) && c !in st'.pool.metas
    decreases |acts|
  {
    if acts == [] {
    } else {
      var st1 := Apply(st, acts[0]);
      PendingStep(st, acts[0]);
      ConnStep(st, acts[0]);
      OrphanStep(st, acts[0], n, c);
      OrphanStays(st1, acts[1..], st', n, c);
    }
  }

  lemma DropKeepsListed(pool: Pool, d: Conn, n: string, c: Conn)
    requires Lists(pool, n, c) && (d in pool.metas ==> d != c)
    ensures Lists(Remove(pool, d), n, c)
  {
    if d in pool.metas && n in pool.nodes {
      WithoutKeeps(pool.nodes[n], d, c);
    }
  }

  lemma OrphanStep(st: State, a: Action, n: string, c: Conn)
    requires Listings(st.pool, st.nextConn, st.h.orphans) && Enabled(st, a) && c in st.h.orphans && Lists(st.pool, n, c)
    ensures c in Apply(st, a).h.orphans && Lists(Apply(st, a).pool, n, c)
  {
    if a.Drop? {
      DropKeepsListed(st.pool, a.c, n, c);
    } else if a.List? {
      ListsOneMore(st.pool, Apply(st, a).pool, st.calls[a.k].node, st.calls[a.k].conn);
    } else {
      SameLists(st.pool, Apply(st, a).pool);
    }
  }

  /** Such an entry keeps its node from being spread to: in any later state, as long as every other node of
      the shard has a connection and some connection of the shard is active, every selection reuses an
      active connection, so this node is given none, although all it has may be removed ones. */
  lemma OrphanStarves(st: State, acts: seq<Action>, st': State, n: string, c: Conn, nodes: seq<string>, d: Decision)
    requires Inv(st) && Run(st, acts, st') && c in st.h.orphans && Lists(st.pool, n, c)
    requires n in nodes && IsChoice(st'.pool, nodes, d) && AnyActive(st'.pool, nodes)
    requires forall m | m in nodes && m != n :: ListOf(st'.pool.nodes, m) != []
    ensures d.Reuse? && IsActive(st'.pool, d.conn) && d.conn != c
  {
    OrphanStays(st, acts, st', n, c);
    assert AllConnected(st'.pool, nodes);
    ReuseIsMinimal(st'.pool, nodes, d.conn);
  }

  lemma {:induction false} RunOneMore(st: State, acts: seq<Action>, st': State, a: Action)
    requires Run(st, acts, st') && Enabled(st', a)
    ensures Run(st, acts + [a], Apply(st', a))
    decreases |acts|
  {
    if acts == [] {
      assert Run(Apply(st', a), [a][1..], Apply(st', a));
    } else {
      RunOneMore(Apply(st, acts[0]), acts[1..], st', a);
      assert (acts + [a])[1..] == acts[1..] + [a];
    }
  }

  lemma ReachableStep(st: State, a: Action) returns (st': State)
    requires Reachable(st) && Enabled(st, a)
    ensures st' == Apply(st, a) && Reachable(st')
  {
    var st0, acts :| Init(st0) && Run(st0, acts, st);
    RunOneMore(st0, acts, st, a);
    st' := Apply(st, a);
  }

  lemma StartOnUnconnected(n: string) returns (st: State)
    requires n != ""
    ensures Reachable(st) && st.calls == map[0 := Creating(0, n, 0)]
    ensures st.pool.nodes == map[] && st.nextConn == 0
  {
    var st0 := State(Pool(map[], map[], map[], map[]), map[], map[], 0, 0, History({}, {}, map[], map[]));
    assert Init(st0) && Run(st0, [], st0);
    assert FewestAt(st0.pool, [n], 0);
    assert !AllConnected(st0.pool, [n]) by { assert n in [n] && ListOf(st0.pool.nodes, n) == []; }
    st := ReachableStep(st0, Start(0, 0, [n], Build(n)));
  }

  /** It does happen: the connection fails, and is removed, before the creator has the lock again. */
  lemma OrphanHappens(n: string) returns (st: State)
    requires n != ""
    ensures Reachable(st) && 0 in st.h.orphans && Lists(st.pool, n, 0)
  {
    var st1 := StartOnUnconnected(n);
    var st2 := ReachableStep(st1, Connect(0));
    var st3 := ReachableStep(st2, Degrade(0, Failed));
    var st4 := ReachableStep(st3, Degrade(0, Closed));
    var st5 := ReachableStep(st4, Drop(0));
    assert st5.calls[0] == Created(0, n, 0, 0) && 0 !in st5.pool.metas;
    st := ReachableStep(st5, List(0));
    ListsOneMore(st5.pool, st.pool, n, 0);
  }

  lemma WaiterIsWoken(n: string) returns (st: State)
    requires n != ""
    ensures Reachable(st) && 0 in st.pool.metas && !st.pool.metas[0].state.Closed?
    ensures 1 in st.calls && st.calls[1] == Linking(0, 0, 0)
  {
    var st1 := StartOnUnconnected(n);
    assert FewestAt(st1.pool, [n], 0);
    assert !AllConnected(st1.pool, [n]) by { assert n in [n] && ListOf(st1.pool.nodes, n) == []; }
    ReachableInv(st1);
    assert st1.calls[0].node in st1.pool.pending && st1.pool.pending[n] == 0;
    var st2 := ReachableStep(st1, Start(1, 0, [n], Build(n)));
    assert st2.calls == map[0 := Creating(0, n, 0), 1 := Waiting(0, 0)];
    st := WakeFrom(st2, n);
  }

  lemma WakeFrom(st2: State, n: string) returns (st: State)
    requires Reachable(st2) && st2.calls == map[0 := Creating(0, n, 0), 1 := Waiting(0, 0)] && st2.nextConn == 0
    ensures Reachable(st) && 0 in st.pool.metas && !st.pool.metas[0].state.Closed?
    ensures 1 in st.calls && st.calls[1] == Linking(0, 0, 0)
  {
    var st3 := ReachableStep(st2, Connect(0));
    assert st3.calls[0] == Created(0, n, 0, 0);
    var st4 := ReachableStep(st3, List(0));
    assert st4.calls[0] == Resolving(0, Got(0)) && st4.calls[1] == Waiting(0, 0);
    var st5 := ReachableStep(st4, Resolve(0));
    assert st5.results[0] == Got(0);
    st := ReachableStep(st5, Wake(1));
  }

  /** It does happen: the connection fails and is removed after the broadcast, before a waiter lists it. */
  lemma StaleHappens(n: string) returns (st: State)
    requires n != ""
    ensures Reachable(st) && Routes(st.pool, 0, 0) && 0 !in st.pool.metas
  {
    var st1 := WaiterIsWoken(n);
    var st2 := ReachableStep(st1, Degrade(0, Failed));
    var st3 := ReachableStep(st2, Degrade(0, Closed));
    var st4 := ReachableStep(st3, Drop(0));
    assert st4.calls[1] == Linking(0, 0, 0) && 0 !in st4.pool.metas;
    st := ReachableStep(st4, Link(1));
    RoutesOneMore(st4.pool, 0, 0);
  }
}
