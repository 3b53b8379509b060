/** The connection pool (pubSubPool in pool.go): three maps that index the same connections, and the
    choice of a connection or of a node to connect to. */
module ConnPool {
  import opened Common
  import opened Seqs

  datatype ConnState = Active | Failed | Closed

  /** pubSubMetadata, as far as the pool looks at it; load is its subscription count. */
  datatype Meta = Meta(node: string, state: ConnState, load: nat)

  datatype Pool = Pool(
    nodes: map<string, seq<Conn>>,  // nodePubSubs
    slots: map<nat, seq<Conn>>,     // hashslotPubSubs
    metas: map<Conn, Meta>,         // pubSubMetadata
    pending: map<string, nat>)      // pendingConnections: the number of a pendingConnectionResult

  /** A map of lists read as Go reads it: an absent key has the empty list. */
  function ListOf<K>(m: map<K, seq<Conn>>, k: K): seq<Conn> {
    if k in m then m[k] else []
  }

  predicate IsActive(p: Pool, c: Conn) {
    c in p.metas && p.metas[c].state.Active?
  }

  function Load(p: Pool, c: Conn): nat {
    if c in p.metas then p.metas[c].load else 0
  }

  // ----- The least loaded connection -----

  /** Entry i is active, no active entry has a smaller load, and no earlier one an equal load. */
  ghost predicate Leads(p: Pool, list: seq<Conn>, i: nat) {
    && i < |list| && IsActive(p, list[i])
    && forall j | 0 <= j < |list| && IsActive(p, list[j]) ::
         Load(p, list[i]) <= Load(p, list[j]) && (j < i ==> Load(p, list[i]) < Load(p, list[j]))
  }

  ghost predicate IsLeast(p: Pool, list: seq<Conn>, r: Option<Conn>) {
    match r
    case None => forall c | c in list :: !IsActive(p, c)
    case Some(c) => exists i: nat :: i < |list| && list[i] == c && Leads(p, list, i)
  }

  lemma LeastUnique(p: Pool, list: seq<Conn>, r: Option<Conn>, r': Option<Conn>)
    requires IsLeast(p, list, r) && IsLeast(p, list, r')
    ensures r == r'
  {
    if r.Some? && r'.Some? {
      var i: nat :| i < |list| && list[i] == r.value && Leads(p, list, i);
      var j: nat :| j < |list| && list[j] == r'.value && Leads(p, list, j);
      assert i == j;
    }
  }

  function Better(p: Pool, a: Option<Conn>, b: Option<Conn>): Option<Conn> {
    if a.Some? && (b.None? || Load(p, a.value) <= Load(p, b.value)) then a else b
  }

  /** Searching two lists in turn is searching their concatenation. */
  lemma LeastMerge(p: Pool, list: seq<Conn>, r: Option<Conn>, list': seq<Conn>, r': Option<Conn>)
    requires IsLeast(p, list, r) && IsLeast(p, list', r')
    ensures IsLeast(p, list + list', Better(p, r, r'))
  {
    var all := list + list';
    if r.Some? {
      var i: nat :| i < |list| && list[i] == r.value && Leads(p, list, i);
      if Better(p, r, r') == r {
        assert Leads(p, all, i);
      }
    }
    if r'.Some? && Better(p, r, r') == r' && Better(p, r, r') != r {
      var i: nat :| i < |list'| && list'[i] == r'.value && Leads(p, list', i);
      assert all[|list| + i] == list'[i];
      assert forall j | 0 <= j < |list| :: all[j] == list[j];
      assert forall j | |list| <= j < |all| :: all[j] == list'[j - |list|];
      assert Leads(p, all, |list| + i);
    }
  }

  lemma LeastOfOne(p: Pool, c: Conn)
    ensures IsLeast(p, [c], if IsActive(p, c) then Some(c) else None)
  {
    if IsActive(p, c) {
      assert Leads(p, [c], 0);
    }
  }

  // ----- Spread first, then balance -----

  /** The connections listed for the nodes of a shard, in order. */
  function Shard(p: Pool, nodes: seq<string>): seq<Conn> {
    if nodes == [] then []
    else Shard(p, nodes[..|nodes| - 1]) + ListOf(p.nodes, nodes[|nodes| - 1])
  }

  lemma {:induction false} ShardHas(p: Pool, nodes: seq<string>, c: Conn)
    ensures c in Shard(p, nodes) <==> exists n | n in nodes :: c in ListOf(p.nodes, n)
  {
    if nodes == [] {
    } else {
      var k := |nodes| - 1;
      ShardHas(p, nodes[..k], c);
      assert nodes == nodes[..k] + [nodes[k]];
    }
  }

  predicate AllConnected(p: Pool, nodes: seq<string>) {
    forall n | n in nodes :: ListOf(p.nodes, n) != []
  }

  ghost predicate AnyActive(p: Pool, nodes: seq<string>) {
    exists c | c in Shard(p, nodes) :: IsActive(p, c)
  }

  function Conns(p: Pool, n: string): nat {
    |ListOf(p.nodes, n)|
  }

  /** The first of the nodes with the fewest listed connections. */
  ghost predicate Fewest(p: Pool, nodes: seq<string>, n: string) {
    exists i :: 0 <= i < |nodes| && nodes[i] == n && FewestAt(p, nodes, i)
  }

  predicate FewestAt(p: Pool, nodes: seq<string>, i: nat)
    requires i < |nodes|
  {
    forall j | 0 <= j < |nodes| ::
      Conns(p, nodes[i]) <= Conns(p, nodes[j]) && (j < i ==> Conns(p, nodes[i]) < Conns(p, nodes[j]))
  }

  datatype Decision = Reuse(conn: Conn) | Build(node: string) | NoNode

  /** What the first critical section of selectLeastLoadedAcrossNodes decides. */
  ghost predicate IsChoice(p: Pool, nodes: seq<string>, d: Decision) {
    match d
    case Reuse(c) => AllConnected(p, nodes) && IsLeast(p, Shard(p, nodes), Some(c))
    case Build(n) => !(AllConnected(p, nodes) && AnyActive(p, nodes)) && n != "" && Fewest(p, nodes, n)
    case NoNode => !(AllConnected(p, nodes) && AnyActive(p, nodes)) && (nodes == [] || Fewest(p, nodes, ""))
  }

  lemma ChoiceUnique(p: Pool, nodes: seq<string>, d: Decision, d': Decision)
    requires IsChoice(p, nodes, d) && IsChoice(p, nodes, d')
    ensures d == d'
  {
    if d.Reuse? && d'.Reuse? {
      LeastUnique(p, Shard(p, nodes), Some(d.conn), Some(d'.conn));
    }
  }

  /** A reused connection is an active one of the shard, no active connection of the shard carries less,
      and no node of the shard is without a connection. */
  lemma ReuseIsMinimal(p: Pool, nodes: seq<string>, c: Conn)
    requires IsChoice(p, nodes, Reuse(c))
    ensures IsActive(p, c) && exists n | n in nodes :: c in ListOf(p.nodes, n)
    ensures forall n, d | n in nodes && d in ListOf(p.nodes, n) && IsActive(p, d) :: Load(p, c) <= Load(p, d)
    ensures AllConnected(p, nodes)
  {
    ShardHas(p, nodes, c);
    forall n, d | n in nodes && d in ListOf(p.nodes, n) && IsActive(p, d)
      ensures Load(p, c) <= Load(p, d)
    {
      ShardHas(p, nodes, d);
    }
  }

  /** A node chosen for a new connection is of the shard and has no active connection, and as few
      connections as any; it has none at all when some node of the shard has none. */
  lemma BuildIsIdle(p: Pool, nodes: seq<string>, n: string)
    requires IsChoice(p, nodes, Build(n))
    ensures n in nodes && n != ""
    ensures forall c | c in ListOf(p.nodes, n) :: !IsActive(p, c)
    ensures forall m | m in nodes :: |ListOf(p.nodes, n)| <= |ListOf(p.nodes, m)|
    ensures !AllConnected(p, nodes) ==> ListOf(p.nodes, n) == []
  {
    if !AllConnected(p, nodes) {
      var m :| m in nodes && ListOf(p.nodes, m) == [];
      assert Conns(p, m) == 0;
    }
    forall c | c in ListOf(p.nodes, n)
      ensures !IsActive(p, c)
    {
      ShardHas(p, nodes, c);
    }
  }

  // ----- Updates -----

  /** addHashslotPubSub */
  function AddSlot(p: Pool, slot: nat, c: Conn): Pool {
    if c in ListOf(p.slots, slot) then p
    else p.(slots := p.slots[slot := ListOf(p.slots, slot) + [c]])
  }

  datatype Selection = Reused(conn: Conn) | Awaits(id: nat) | Creates(node: string, id: nat) | NoValidNode

  /** The rest of the first critical section, the decision taken; id numbers a new pending result. */
  function AfterSelect(p: Pool, slot: nat, d: Decision, id: nat): (Pool, Selection) {
    match d
    case Reuse(c) => (AddSlot(p, slot, c), Reused(c))
    case Build(n) =>
      if n in p.pending then (p, Awaits(p.pending[n]))
      else (p.(pending := p.pending[n := id]), Creates(n, id))
    case NoNode => (p, NoValidNode)
  }

  /** The second critical section, after a successful connection. */
  function Register(p: Pool, slot: nat, n: string, c: Conn): Pool {
    AddSlot(p.(pending := p.pending - {n}, nodes := p.nodes[n := ListOf(p.nodes, n) + [c]]), slot, c)
  }

  function Invalidate(p: Pool, slot: nat): Pool {
    p.(slots := p.slots - {slot})
  }

  function DropFrom<K>(m: map<K, seq<Conn>>, k: K, c: Conn): map<K, seq<Conn>> {
    if k !in m then m
    else if Without(m[k], c) == [] then m - {k}
    else m[k := Without(m[k], c)]
  }

  /** removePubSub */
  function Remove(p: Pool, c: Conn): Pool {
    if c !in p.metas then p
    else p.(nodes := DropFrom(p.nodes, p.metas[c].node, c),
            slots := map s | s in p.slots && Without(p.slots[s], c) != [] :: Without(p.slots[s], c),
            metas := p.metas - {c})
  }

  // ----- The indexes -----

  ghost predicate ListsOk<K(!new)>(m: map<K, seq<Conn>>) {
    forall k | k in m :: m[k] != [] && Distinct(m[k])
  }

  lemma AddSlotKeeps(p: Pool, slot: nat, c: Conn)
    requires ListsOk(p.slots)
    ensures ListsOk(AddSlot(p, slot, c).slots) && c in ListOf(AddSlot(p, slot, c).slots, slot)
    ensures AddSlot(p, slot, c).(slots := p.slots) == p
  {
  }

  /** After removePubSub the connection is in none of the indexes, and every list keeps its other
      entries in their order. */
  lemma RemoveClears(p: Pool, c: Conn)
    requires ListsOk(p.nodes) && ListsOk(p.slots)
    requires c in p.metas && forall n | n in p.nodes && c in p.nodes[n] :: n == p.metas[c].node
    ensures var q := Remove(p, c);
            && ListsOk(q.nodes) && ListsOk(q.slots)
            && q.metas == p.metas - {c} && q.pending == p.pending
            && (forall n :: ListOf(q.nodes, n) == Without(ListOf(p.nodes, n), c) && c !in ListOf(q.nodes, n))
            && (forall s :: ListOf(q.slots, s) == Without(ListOf(p.slots, s), c) && c !in ListOf(q.slots, s))
  {
    NodesCleared(p, c);
    SlotsCleared(p, c);
  }

  lemma NodesCleared(p: Pool, c: Conn)
    requires ListsOk(p.nodes) && c in p.metas && forall n | n in p.nodes && c in p.nodes[n] :: n == p.metas[c].node
    ensures var q := Remove(p, c);
            && ListsOk(q.nodes)
            && forall n :: ListOf(q.nodes, n) == Without(ListOf(p.nodes, n), c) && c !in ListOf(q.nodes, n)
  {
    var q := Remove(p, c);
    forall n
      ensures ListOf(q.nodes, n) == Without(ListOf(p.nodes, n), c) && c !in ListOf(q.nodes, n)
      ensures n in q.nodes ==> Distinct(q.nodes[n])
    {
      WithoutDistinct(ListOf(p.nodes, n), c);
      if n != p.metas[c].node {
        WithoutAbsent(ListOf(p.nodes, n), c);
      }
    }
  }

  lemma SlotsCleared(p: Pool, c: Conn)
    requires ListsOk(p.slots) && c in p.metas
    ensures var q := Remove(p, c);
            && ListsOk(q.slots)
            && forall s :: ListOf(q.slots, s) == Without(ListOf(p.slots, s), c) && c !in ListOf(q.slots, s)
  {
    var q := Remove(p, c);
    forall s
      ensures ListOf(q.slots, s) == Without(ListOf(p.slots, s), c) && c !in ListOf(q.slots, s)
      ensures s in q.slots ==> Distinct(q.slots[s])
    {
      WithoutDistinct(ListOf(p.slots, s), c);
    }
  }

  // ----- The code -----

  class PubSubPool {
    var nodePubSubs: map<string, seq<Conn>>
    var hashslotPubSubs: map<nat, seq<Conn>>
    var pubSubMetadata: map<Conn, Meta>
    var pendingConnections: map<string, nat>

    ghost function Value(): Pool
      reads this
    {
      Pool(nodePubSubs, hashslotPubSubs, pubSubMetadata, pendingConnections)
    }

    constructor ()
      ensures Value() == Pool(map[], map[], map[], map[])
    {
      nodePubSubs, hashslotPubSubs, pubSubMetadata, pendingConnections := map[], map[], map[], map[];
    }

    method AddHashslotPubSub(slot: nat, c: Conn)
      modifies this`hashslotPubSubs
      ensures Value() == AddSlot(old(Value()), slot, c)
    {
      if c in ListOf(hashslotPubSubs, slot) {
        return;
      }
      hashslotPubSubs := hashslotPubSubs[slot := ListOf(hashslotPubSubs, slot) + [c]];
    }

    method FindLeastLoadedPubSub(pubsubs: seq<Conn>) returns (best: Option<Conn>)
      ensures IsLeast(Value(), pubsubs, best)
    {
      best := None;
      var minSubs := 0; // meaningful once there is a best
      for i := 0 to |pubsubs|
        invariant IsLeast(Value(), pubsubs[..i], best)
        invariant best.Some? ==> minSubs == Load(Value(), best.value)
      {
        var ps := pubsubs[i];
        LeastOfOne(Value(), ps);
        LeastMerge(Value(), pubsubs[..i], best, [ps], if IsActive(Value(), ps) then Some(ps) else None);
        assert pubsubs[..i + 1] == pubsubs[..i] + [ps];
        if ps in pubSubMetadata && pubSubMetadata[ps].state.Active? {
          var count := pubSubMetadata[ps].load;
          if best.None? || count < minSubs {
            minSubs := count;
            best := Some(ps);
          }
        }
      }
      assert pubsubs[..|pubsubs|] == pubsubs;
    }

    /** The cached connection of getPubSubForHashslot. */
    method CachedPubSub(slot: nat) returns (best: Option<Conn>)
      ensures IsLeast(Value(), ListOf(Value().slots, slot), best)
    {
      best := FindLeastLoadedPubSub(ListOf(hashslotPubSubs, slot));
    }

    /** The loop over the nodes of the shard: it finds what a search of all their connections would. */
    method Survey(nodes: seq<string>)
      returns (best: Option<Conn>, nodeConnCounts: map<string, nat>, hasUnconnectedNode: bool)
      ensures IsLeast(Value(), Shard(Value(), nodes), best)
      ensures forall n | n in nodes :: n in nodeConnCounts && nodeConnCounts[n] == Conns(Value(), n)
      ensures hasUnconnectedNode == !AllConnected(Value(), nodes)
    {
      best, nodeConnCounts, hasUnconnectedNode := None, map[], false;
      for i := 0 to |nodes|
        invariant IsLeast(Value(), Shard(Value(), nodes[..i]), best)
        invariant forall n | n in nodes[..i] :: n in nodeConnCounts && nodeConnCounts[n] == Conns(Value(), n)
        invariant hasUnconnectedNode == !AllConnected(Value(), nodes[..i])
      {
        var n := nodes[i];
        assert nodes[..i + 1] == nodes[..i] + [n];
        assert nodes[..i + 1][..i] == nodes[..i];
        var pubsubs := ListOf(nodePubSubs, n);
        assert Shard(Value(), nodes[..i + 1]) == Shard(Value(), nodes[..i]) + pubsubs;
        nodeConnCounts := nodeConnCounts[n := |pubsubs|];
        if pubsubs == [] {
          hasUnconnectedNode := true;
          assert n in nodes[..i + 1] && ListOf(Value().nodes, n) == [];
          assert Shard(Value(), nodes[..i + 1]) == Shard(Value(), nodes[..i]);
        } else {
          var nodeBest := FindLeastLoadedPubSub(pubsubs);
          LeastMerge(Value(), Shard(Value(), nodes[..i]), best, pubsubs, nodeBest);
          if nodeBest.Some? && (best.None? || pubSubMetadata[nodeBest.value].load < pubSubMetadata[best.value].load) {
            best := nodeBest;
          }
        }
      }
      assert nodes[..|nodes|] == nodes;
    }

    /** The loop that picks the node with the fewest connections. */
    method PickNode(nodes: seq<string>, nodeConnCounts: map<string, nat>) returns (bestNode: string)
      requires forall n | n in nodes :: n in nodeConnCounts && nodeConnCounts[n] == Conns(Value(), n)
      ensures nodes == [] ==> bestNode == ""
      ensures nodes != [] ==> Fewest(Value(), nodes, bestNode)
    {
      bestNode := "";
      var minConns := 0; // meaningful once i > 0
      ghost var at := 0;
      for i := 0 to |nodes|
        invariant i == 0 ==> bestNode == ""
        invariant i > 0 ==> 0 <= at < i && nodes[at] == bestNode && minConns == Conns(Value(), bestNode)
        invariant forall j | 0 <= j < i ::
                    minConns <= Conns(Value(), nodes[j]) && (j < at ==> minConns < Conns(Value(), nodes[j]))
      {
        if i == 0 || nodeConnCounts[nodes[i]] < minConns {
          minConns, bestNode, at := nodeConnCounts[nodes[i]], nodes[i], i;
        }
      }
      if nodes != [] {
        assert FewestAt(Value(), nodes, at);
      }
    }

    /** The first critical section of selectLeastLoadedAcrossNodes. */
    method Select(slot: nat, nodes: seq<string>, id: nat) returns (sel: Selection, ghost d: Decision)
      modifies this
      ensures IsChoice(old(Value()), nodes, d)
      ensures (Value(), sel) == AfterSelect(old(Value()), slot, d, id)
    {
      var best, nodeConnCounts, hasUnconnectedNode := Survey(nodes);
      if best.Some? && !hasUnconnectedNode {
        d := Reuse(best.value);
        AddHashslotPubSub(slot, best.value);
        return Reused(best.value), d;
      }
      if best.Some? {
        assert !AllConnected(Value(), nodes);
      }
      var bestNode := PickNode(nodes, nodeConnCounts);
      if bestNode == "" {
        return NoValidNode, NoNode;
      }
      d := Build(bestNode);
      if bestNode in pendingConnections {
        return Awaits(pendingConnections[bestNode]), d;
      }
      pendingConnections := pendingConnections[bestNode := id];
      return Creates(bestNode, id), d;
    }

    /** The second critical section, with the connection or without. */
    method Finish(slot: nat, n: string, created: Option<Conn>)
      modifies this
      ensures Value() == match created
                         case Some(c) => Register(old(Value()), slot, n, c)
                         case None => old(Value()).(pending := old(Value()).pending - {n})
    {
      pendingConnections := pendingConnections - {n};
      if created.Some? {
        nodePubSubs := nodePubSubs[n := ListOf(nodePubSubs, n) + [created.value]];
        AddHashslotPubSub(slot, created.value);
      }
    }

    method InvalidateHashslot(slot: nat)
      modifies this`hashslotPubSubs
      ensures Value() == Invalidate(old(Value()), slot)
    {
      hashslotPubSubs := hashslotPubSubs - {slot};
    }

    /** Deletes the first occurrence of c, if there is one. */
    static method Delete(list: seq<Conn>, c: Conn) returns (rest: seq<Conn>)
      ensures rest == Without(list, c)
    {
      for i := 0 to |list|
        invariant c !in list[..i]
      {
        if list[i] == c {
          WithoutAt(list, c, i);
          return list[..i] + list[i + 1..];
        }
      }
      assert list[..|list|] == list;
      WithoutAbsent(list, c);
      return list;
    }

    method RemovePubSub(c: Conn)
      modifies this
      ensures Value() == Remove(old(Value()), c)
    {
      if c !in pubSubMetadata {
        return;
      }
      var n := pubSubMetadata[c].node;
      if n in nodePubSubs {
        var rest := Delete(nodePubSubs[n], c);
        nodePubSubs := if rest == [] then nodePubSubs - {n} else nodePubSubs[n := rest];
      }
      RemoveFromSlots(c);
      pubSubMetadata := pubSubMetadata - {c};
    }

    /** The loop over hashslotPubSubs, in any order. */
    method RemoveFromSlots(c: Conn)
      modifies this`hashslotPubSubs
      ensures hashslotPubSubs ==
                map s | s in old(hashslotPubSubs) && Without(old(hashslotPubSubs)[s], c) != [] ::
                  Without(old(hashslotPubSubs)[s], c)
    {
      ghost var was := hashslotPubSubs;
      var todo := hashslotPubSubs.Keys;
      while todo != {}
        invariant todo <= hashslotPubSubs.Keys <= was.Keys
        invariant forall s | s in todo :: hashslotPubSubs[s] == was[s]
        invariant forall s | s in was && s !in todo ::
                    && (s in hashslotPubSubs <==> Without(was[s], c) != [])
                    && (s in hashslotPubSubs ==> hashslotPubSubs[s] == Without(was[s], c))
      {
        var slot :| slot in todo;
        var rest := Delete(hashslotPubSubs[slot], c);
        hashslotPubSubs := if rest == [] then hashslotPubSubs - {slot} else hashslotPubSubs[slot := rest];
        todo := todo - {slot};
      }
    }
  }
}
