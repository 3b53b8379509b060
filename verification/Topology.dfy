/** Cluster topology (topology.go): the slot maps built from CLUSTER SLOTS, their enrichment with the
    replicas of CLUSTER NODES, and the diff between two refreshes. */
module Topology {
  import opened Common
  import opened Seqs

  type Slot = nat

  /** One entry of CLUSTER SLOTS: an inclusive range and its nodes, master first. */
  datatype SlotRange = SlotRange(start: Slot, end: Slot, nodes: seq<string>)

  predicate Covers(r: SlotRange, s: Slot) {
    r.nodes != [] && r.start <= s <= r.end
  }

  /** The nodes of the last non-empty range that covers s. */
  function Serving(slots: seq<SlotRange>, s: Slot): (nodes: Option<seq<string>>)
    ensures nodes.Some? ==> nodes.value != []
  {
    if slots == [] then None
    else
      var last := slots[|slots| - 1];
      if Covers(last, s) then Some(last.nodes) else Serving(slots[..|slots| - 1], s)
  }

  /** lo, lo + 1, .., hi - 1 */
  function Interval(lo: nat, hi: nat): (r: seq<Slot>)
    requires lo <= hi
    ensures |r| == hi - lo && forall i | 0 <= i < |r| :: r[i] == lo + i
  {
    seq(hi - lo, i => lo + i)
  }

  function RangeSlots(r: SlotRange, node: string): seq<Slot> {
    if r.nodes != [] && r.nodes[0] == node && r.start <= r.end then Interval(r.start, r.end + 1) else []
  }

  /** The slots of every range whose master is node, range after range. */
  function OwnedSlots(slots: seq<SlotRange>, node: string): seq<Slot> {
    if slots == [] then []
    else OwnedSlots(slots[..|slots| - 1], node) + RangeSlots(slots[|slots| - 1], node)
  }

  lemma DistinctConcat(a: seq<Slot>, b: seq<Slot>)
    requires Distinct(a) && Distinct(b) && forall x | x in b :: x !in a
    ensures Distinct(a + b)
  {
    forall i, j | 0 <= i < |a| && 0 <= j < |b|
      ensures a[i] != b[j]
    {
      assert b[j] in b;
    }
  }

  // ----- Disjoint ranges: the two indexes are inverse -----

  ghost predicate Disjoint(slots: seq<SlotRange>) {
    forall i, j, s | 0 <= i < j < |slots| && Covers(slots[i], s) :: !Covers(slots[j], s)
  }

  lemma {:induction false} ServedMeansCovered(slots: seq<SlotRange>, s: Slot) returns (i: nat)
    requires Serving(slots, s).Some?
    ensures i < |slots| && Covers(slots[i], s) && Serving(slots, s) == Some(slots[i].nodes)
    decreases |slots|
  {
    var n := |slots| - 1;
    if Covers(slots[n], s) { i := n; } else { i := ServedMeansCovered(slots[..n], s); }
  }

  lemma {:induction false} CoveredMeansServed(slots: seq<SlotRange>, s: Slot, i: nat)
    requires i < |slots| && Covers(slots[i], s)
    ensures Serving(slots, s).Some?
    decreases |slots|
  {
    var n := |slots| - 1;
    if !Covers(slots[n], s) { CoveredMeansServed(slots[..n], s, i); }
  }

  /** For disjoint ranges nodeToHashslots lists exactly the slots a node owns, each once. */
  lemma {:induction false} OwnedIsInverse(slots: seq<SlotRange>, node: string)
    requires Disjoint(slots)
    ensures forall s: Slot ::
              s in OwnedSlots(slots, node) <==> Serving(slots, s).Some? && Serving(slots, s).value[0] == node
    ensures Distinct(OwnedSlots(slots, node))
    decreases |slots|
  {
    if slots == [] {
    } else {
      var n := |slots| - 1;
      var init, last := slots[..n], slots[n];
      OwnedIsInverse(init, node);
      var head, tail := OwnedSlots(init, node), RangeSlots(last, node);
      forall s: Slot | Covers(last, s)
        ensures Serving(init, s).None?
      {
        forall i | 0 <= i < n
          ensures !Covers(init[i], s)
        {
          assert init[i] == slots[i];
        }
        if Serving(init, s).Some? {
          var i := ServedMeansCovered(init, s);
        }
      }
      forall s: Slot
        ensures s in tail <==> Covers(last, s) && last.nodes[0] == node
      {
        if Covers(last, s) && last.nodes[0] == node { assert tail[s - last.start] == s; }
      }
      DistinctConcat(head, tail);
    }
  }

  // ----- Enrichment -----

  datatype Role = Master | Replica | FailedReplica | OtherRole

  /** One parsed line of CLUSTER NODES. */
  datatype NodeRecord = NodeRecord(id: string, addr: string, role: Role, masterId: string)

  function MasterAddrs(records: seq<NodeRecord>): map<string, string> {
    if records == [] then map[]
    else
      var r := records[|records| - 1];
      var m := MasterAddrs(records[..|records| - 1]);
      if r.role.Master? then m[r.id := r.addr] else m
  }

  /** The replicas that are not flagged as failing, in order. */
  function Healthy(records: seq<NodeRecord>): seq<NodeRecord> {
    if records == [] then []
    else
      var r := records[|records| - 1];
      Healthy(records[..|records| - 1]) + if r.role.Replica? then [r] else []
  }

  /** The addresses of those replicas whose master is known and has address master, in order. */
  function ReplicasOf(replicas: seq<NodeRecord>, masters: map<string, string>, master: string): seq<string> {
    if replicas == [] then []
    else
      var r := replicas[|replicas| - 1];
      ReplicasOf(replicas[..|replicas| - 1], masters, master)
      + if r.masterId in masters && masters[r.masterId] == master then [r.addr] else []
  }

  function Replicas(records: seq<NodeRecord>, master: string): seq<string> {
    ReplicasOf(Healthy(records), MasterAddrs(records), master)
  }

  function EnrichNodes(nodes: seq<string>, records: seq<NodeRecord>): seq<string> {
    if |nodes| == 1 then nodes + Replicas(records, nodes[0]) else nodes
  }

  function EnrichMap(m: map<Slot, seq<string>>, records: seq<NodeRecord>): map<Slot, seq<string>> {
    map s | s in m :: EnrichNodes(m[s], records)
  }

  /** Enriching keeps the slots and every master, extends only lists that hold the master alone, and
      enriching again with the same output changes nothing. */
  lemma EnrichProperties(m: map<Slot, seq<string>>, records: seq<NodeRecord>)
    ensures EnrichMap(m, records).Keys == m.Keys
    ensures forall s | s in m :: m[s] <= EnrichMap(m, records)[s]
    ensures forall s | s in m && |m[s]| != 1 :: EnrichMap(m, records)[s] == m[s]
    ensures EnrichMap(EnrichMap(m, records), records) == EnrichMap(m, records)
  {
    var e := EnrichMap(m, records);
    forall s | s in m
      ensures EnrichNodes(e[s], records) == e[s]
    {
      if |e[s]| == 1 { assert e[s] == m[s] + [] && Replicas(records, m[s][0]) == []; }
    }
  }

  /** The j-th record is the last one of a master with that id, and gives the address. */
  predicate NamesMaster(records: seq<NodeRecord>, j: nat, id: string, addr: string) {
    && j < |records| && records[j].role.Master? && records[j].id == id && records[j].addr == addr
    && forall i | j < i < |records| :: !(records[i].role.Master? && records[i].id == id)
  }

  lemma {:induction false} MasterAddrsCorrect(records: seq<NodeRecord>, id: string, addr: string)
    ensures id in MasterAddrs(records) && MasterAddrs(records)[id] == addr <==>
              exists j: nat :: NamesMaster(records, j, id, addr)
    decreases |records|
  {
    if records == [] {
    } else {
      var n := |records| - 1;
      var init, r := records[..n], records[n];
      MasterAddrsCorrect(init, id, addr);
      if r.role.Master? && r.id == id {
        assert r.addr == addr ==> NamesMaster(records, n, id, addr);
      } else {
        assert forall j: nat :: NamesMaster(init, j, id, addr) <==> NamesMaster(records, j, id, addr);
      }
    }
  }

  /** The i-th record is a replica, not flagged as failing, of the master at that address. */
  ghost predicate ReplicaAt(records: seq<NodeRecord>, i: nat, master: string) {
    && i < |records| && records[i].role.Replica?
    && exists j: nat :: NamesMaster(records, j, records[i].masterId, master)
  }

  /** idx picks, in order, those entries of part whose masterId is known to be at master. */
  ghost predicate Picks(idx: seq<nat>, part: seq<NodeRecord>, masters: map<string, string>, master: string) {
    && (forall a, b | 0 <= a < b < |idx| :: idx[a] < idx[b])
    && (forall i: nat :: i in idx <==>
          i < |part| && part[i].role.Replica? && part[i].masterId in masters && masters[part[i].masterId] == master)
  }

  predicate Wanted(r: NodeRecord, masters: map<string, string>, master: string) {
    r.role.Replica? && r.masterId in masters && masters[r.masterId] == master
  }

  lemma PicksNext(idx: seq<nat>, part: seq<NodeRecord>, r: NodeRecord, masters: map<string, string>, master: string)
    requires Picks(idx, part, masters, master)
    ensures Picks(if Wanted(r, masters, master) then idx + [|part|] else idx, part + [r], masters, master)
  {
    assert forall k | 0 <= k < |idx| :: idx[k] in idx;
    var idx' := if Wanted(r, masters, master) then idx + [|part|] else idx;
    forall i: nat
      ensures i in idx' <==> i < |part + [r]| && Wanted((part + [r])[i], masters, master)
    {
      assert i in idx' <==> i in idx || (Wanted(r, masters, master) && i == |part|);
    }
  }

  lemma ReplicasNext(part: seq<NodeRecord>, r: NodeRecord, masters: map<string, string>, master: string)
    ensures ReplicasOf(Healthy(part + [r]), masters, master)
         == ReplicasOf(Healthy(part), masters, master) + if Wanted(r, masters, master) then [r.addr] else []
  {
    assert (part + [r])[..|part|] == part;
    if r.role.Replica? {
      assert (Healthy(part) + [r])[..|Healthy(part)|] == Healthy(part);
    } else {
      assert Healthy(part + [r]) == Healthy(part);
    }
  }

  /** rs are the addresses of the records picked. */
  predicate Shows(rs: seq<string>, idx: seq<nat>, part: seq<NodeRecord>) {
    |rs| == |idx| && forall k | 0 <= k < |idx| :: idx[k] < |part| && rs[k] == part[idx[k]].addr
  }

  lemma ShowsNext(rs: seq<string>, idx: seq<nat>, part: seq<NodeRecord>, r: NodeRecord)
    requires Shows(rs, idx, part)
    ensures Shows(rs, idx, part + [r]) && Shows(rs + [r.addr], idx + [|part|], part + [r])
  {
  }

  ghost predicate Picked(idx: seq<nat>, part: seq<NodeRecord>, masters: map<string, string>, master: string) {
    Picks(idx, part, masters, master) && Shows(ReplicasOf(Healthy(part), masters, master), idx, part)
  }

  lemma PickNext(idx: seq<nat>, part: seq<NodeRecord>, r: NodeRecord, masters: map<string, string>, master: string)
    requires Picked(idx, part, masters, master)
    ensures Picked(if Wanted(r, masters, master) then idx + [|part|] else idx, part + [r], masters, master)
  {
    var rs := ReplicasOf(Healthy(part), masters, master);
    PicksNext(idx, part, r, masters, master);
    ReplicasNext(part, r, masters, master);
    ShowsNext(rs, idx, part, r);
    assert rs + [] == rs;
  }

  lemma PickNone(masters: map<string, string>, master: string)
    ensures Picked([], [], masters, master)
  {
  }

  lemma {:induction false} ReplicasPicked(records: seq<NodeRecord>, masters: map<string, string>, master: string)
    returns (idx: seq<nat>)
    ensures Picked(idx, records, masters, master)
  {
    if records == [] {
      idx := [];
      PickNone(masters, master);
    } else {
      var n := |records| - 1;
      idx := ReplicasPicked(records[..n], masters, master);
      PickNext(idx, records[..n], records[n], masters, master);
      assert records == records[..n] + [records[n]];
      idx := if Wanted(records[n], masters, master) then idx + [n] else idx;
    }
  }

  /** The addresses appended to a master's slots are those of its healthy replicas, one for each such record and
      in the order of the records. */
  lemma ReplicasExact(records: seq<NodeRecord>, master: string) returns (idx: seq<nat>)
    ensures forall a, b | 0 <= a < b < |idx| :: idx[a] < idx[b]
    ensures forall i: nat :: i in idx <==> ReplicaAt(records, i, master)
    ensures |Replicas(records, master)| == |idx|
    ensures forall k | 0 <= k < |idx| :: idx[k] < |records| && Replicas(records, master)[k] == records[idx[k]].addr
  {
    idx := ReplicasPicked(records, MasterAddrs(records), master);
    forall i: nat
      ensures i in idx <==> ReplicaAt(records, i, master)
    {
      if i < |records| {
        MasterAddrsCorrect(records, records[i].masterId, master);
      }
    }
  }

  // ----- Diffs -----

  /** oldNode and newNode are empty strings for a slot that appears or disappears. */
  datatype Migration = Migration(slot: Slot, oldNode: string, newNode: string)

  type Owners = map<Slot, string>

  function NodeOr(m: Owners, s: Slot): string { if s in m then m[s] else "" }

  predicate Changed(prev: Owners, cur: Owners, s: Slot) {
    if s in cur then s !in prev || prev[s] != cur[s] else s in prev
  }

  /** A diff from prev to cur: every changed slot once, in any order, with its two owners. */
  ghost predicate IsDiff(ms: seq<Migration>, prev: Owners, cur: Owners) {
    && (forall i, j | 0 <= i < j < |ms| :: ms[i].slot != ms[j].slot)
    && (forall i | 0 <= i < |ms| ::
          Changed(prev, cur, ms[i].slot)
            && ms[i] == Migration(ms[i].slot, NodeOr(prev, ms[i].slot), NodeOr(cur, ms[i].slot)))
    && (forall s | Changed(prev, cur, s) :: Mentions(ms, s))
  }

  ghost predicate Mentions(ms: seq<Migration>, s: Slot) {
    exists i :: 0 <= i < |ms| && ms[i].slot == s
  }

  /** Replaying a diff on a map of owners. */
  function Replay(m: Owners, ms: seq<Migration>): Owners {
    if ms == [] then m
    else
      var prev := Replay(m, ms[..|ms| - 1]);
      var x := ms[|ms| - 1];
      if x.newNode == "" then prev - {x.slot} else prev[x.slot := x.newNode]
  }

  lemma {:induction false} ReplayAt(m: Owners, ms: seq<Migration>, s: Slot)
    requires forall i, j | 0 <= i < j < |ms| :: ms[i].slot != ms[j].slot
    ensures !Mentions(ms, s) ==> (s in Replay(m, ms) <==> s in m) && NodeOr(Replay(m, ms), s) == NodeOr(m, s)
    ensures forall i | 0 <= i < |ms| && ms[i].slot == s ::
              NodeOr(Replay(m, ms), s) == ms[i].newNode && (s in Replay(m, ms) <==> ms[i].newNode != "")
    decreases |ms|
  {
    if ms == [] {
    } else {
      var n := |ms| - 1;
      ReplayAt(m, ms[..n], s);
      if ms[n].slot == s {
        assert !Mentions(ms[..n], s);
      } else {
        assert Mentions(ms[..n], s) ==> Mentions(ms, s);
        assert !Mentions(ms, s) ==> !Mentions(ms[..n], s);
        forall i | 0 <= i < |ms| && ms[i].slot == s
          ensures i < n && ms[..n][i] == ms[i] {}
      }
    }
  }

  /** Replaying a diff reproduces the new owners exactly when no slot has just got an empty address,
      which a diff cannot tell from a slot that disappeared. */
  lemma ReplayDiff(ms: seq<Migration>, prev: Owners, cur: Owners)
    requires IsDiff(ms, prev, cur)
    ensures Replay(prev, ms) == cur <==> forall s | s in cur && cur[s] == "" :: !Changed(prev, cur, s)
  {
    var r := Replay(prev, ms);
    forall s: Slot
      ensures NodeOr(r, s) == NodeOr(cur, s)
      ensures s in r <==> s in cur && !(cur[s] == "" && Changed(prev, cur, s))
    {
      ReplayAt(prev, ms, s);
      if Mentions(ms, s) {
        var i :| 0 <= i < |ms| && ms[i].slot == s;
      }
    }
    if forall s | s in cur && cur[s] == "" :: !Changed(prev, cur, s) {
      assert r == cur by {
        assert r.Keys == cur.Keys;
        forall s | s in cur ensures r[s] == cur[s] { assert NodeOr(r, s) == NodeOr(cur, s); }
      }
    }
  }

  /** A slot that gets an empty address is reported like one that disappears, and is lost in the replay. */
  lemma EmptyAddressIsLost(s: Slot)
    ensures var ms, cur := [Migration(s, "", "")], map[s := ""];
            IsDiff(ms, map[], cur) && Replay(map[], ms) == map[] && Replay(map[], ms) != cur
  {
    var ms: seq<Migration>, cur: Owners := [Migration(s, "", "")], map[s := ""];
    assert ms[0].slot == s && Mentions(ms, s);
    assert ms[..0] == [] && Replay(map[], ms[..0]) == map[];
    assert s in cur;
  }

  lemma {:induction false} ReplayConcat(m: Owners, a: seq<Migration>, b: seq<Migration>)
    ensures Replay(m, a + b) == Replay(Replay(m, a), b)
    decreases |b|
  {
    if b == [] {
      assert a + b == a;
    } else {
      assert (a + b)[..|a + b| - 1] == a + b[..|b| - 1];
      ReplayConcat(m, a, b[..|b| - 1]);
    }
  }

  // ----- The code -----

  function ListOr<K, V>(m: map<K, seq<V>>, k: K): seq<V> { if k in m then m[k] else [] }

  /** The enriched map, except for the slots still to do. */
  ghost function Partly(m: map<Slot, seq<string>>, todo: set<Slot>, records: seq<NodeRecord>): map<Slot, seq<string>> {
    map s | s in m :: if s in todo then m[s] else EnrichNodes(m[s], records)
  }

  lemma PartlyStep(m: map<Slot, seq<string>>, todo: set<Slot>, s: Slot, records: seq<NodeRecord>)
    requires s in m && s in todo
    ensures Partly(m, todo - {s}, records) == Partly(m, todo, records)[s := EnrichNodes(m[s], records)]
  {
  }

  lemma ExtendOne(nodes: seq<string>, masterReplicas: map<string, seq<string>>, records: seq<NodeRecord>)
    requires forall m :: ListOr(masterReplicas, m) == Replicas(records, m)
    ensures EnrichNodes(nodes, records)
         == if |nodes| == 1 && nodes[0] in masterReplicas && |masterReplicas[nodes[0]]| != 0
            then nodes + masterReplicas[nodes[0]] else nodes
  {
    if |nodes| == 1 {
      assert ListOr(masterReplicas, nodes[0]) == Replicas(records, nodes[0]);
      assert nodes + [] == nodes;
    }
  }

  // ----- The three indexes, slot by slot -----

  datatype Maps = Maps(owner: Owners, nodes: map<Slot, seq<string>>, lists: map<string, seq<Slot>>)

  function Max(a: int, b: int): int { if a < b then b else a }

  function PutSlot(m: Maps, s: Slot, nodes: seq<string>): Maps
    requires nodes != []
  {
    Maps(m.owner[s := nodes[0]], m.nodes[s := nodes], m.lists[nodes[0] := ListOr(m.lists, nodes[0]) + [s]])
  }

  /** The slots of r below hi. */
  function PutRange(m: Maps, r: SlotRange, hi: Slot): Maps
    requires r.nodes != []
  {
    if hi <= r.start then m else PutSlot(PutRange(m, r, hi - 1), hi - 1, r.nodes)
  }

  function PutAll(slots: seq<SlotRange>): Maps {
    if slots == [] then Maps(map[], map[], map[])
    else
      var r := slots[|slots| - 1];
      var m := PutAll(slots[..|slots| - 1]);
      if r.nodes == [] then m else PutRange(m, r, Max(r.start, r.end + 1))
  }

  ghost predicate Serves(m: Maps, s: Slot, nodes: Option<seq<string>>) {
    if nodes.None? then s !in m.owner && s !in m.nodes
    else
      && nodes.value != [] && s in m.owner && s in m.nodes
      && m.owner[s] == nodes.value[0] && m.nodes[s] == nodes.value
  }

  lemma {:induction false} PutRangeCorrect(m: Maps, r: SlotRange, hi: Slot, s: Slot, was: Option<seq<string>>,
                                           node: string)
    requires r.nodes != [] && r.start <= hi && Serves(m, s, was)
    ensures Serves(PutRange(m, r, hi), s, if r.start <= s < hi then Some(r.nodes) else was)
    ensures ListOr(PutRange(m, r, hi).lists, node)
         == ListOr(m.lists, node) + if node == r.nodes[0] then Interval(r.start, hi) else []
    decreases hi
  {
    if hi <= r.start {
    } else {
      PutRangeCorrect(m, r, hi - 1, s, was, node);
      assert Interval(r.start, hi) == Interval(r.start, hi - 1) + [hi - 1];
    }
  }

  /** update: the owner and the nodes of a slot are those of the last non-empty range covering it, the
      two slot maps have one domain, and a node's list is that of its ranges. */
  lemma {:induction false} UpdateCorrect(slots: seq<SlotRange>, s: Slot, node: string)
    ensures Serves(PutAll(slots), s, Serving(slots, s))
    ensures ListOr(PutAll(slots).lists, node) == OwnedSlots(slots, node)
    decreases |slots|
  {
    if slots == [] {
    } else {
      var init, r := slots[..|slots| - 1], slots[|slots| - 1];
      UpdateCorrect(init, s, node);
      if r.nodes != [] {
        PutRangeCorrect(PutAll(init), r, Max(r.start, r.end + 1), s, Serving(init, s), node);
      }
    }
  }

  class TopologyState {
    var hashslotToNode: Owners
    var hashslotToNodes: map<Slot, seq<string>>
    var nodeToHashslots: map<string, seq<Slot>>

    constructor ()
      ensures hashslotToNode == map[] && hashslotToNodes == map[] && nodeToHashslots == map[]
    {
      hashslotToNode, hashslotToNodes, nodeToHashslots := map[], map[], map[];
    }

    ghost function Value(): Maps
      reads this
    {
      Maps(hashslotToNode, hashslotToNodes, nodeToHashslots)
    }

    method Update(slots: seq<SlotRange>)
      modifies this
      ensures Value() == PutAll(slots)
    {
      hashslotToNode, hashslotToNodes, nodeToHashslots := map[], map[], map[];
      for i := 0 to |slots|
        invariant Value() == PutAll(slots[..i])
      {
        assert slots[..i + 1][..i] == slots[..i];
        var slot := slots[i];
        if |slot.nodes| == 0 {
          continue;
        }
        UpdateRange(slot);
      }
      assert slots[..|slots|] == slots;
    }

    /** The inner loop of update, over the slots of one range. */
    method UpdateRange(slot: SlotRange)
      requires slot.nodes != []
      modifies this
      ensures Value() == PutRange(old(Value()), slot, Max(slot.start, slot.end + 1))
    {
      var masterAddr := slot.nodes[0];
      var allNodeAddrs := slot.nodes;
      var hashslot := slot.start;
      while hashslot <= slot.end
        invariant slot.start <= hashslot <= Max(slot.start, slot.end + 1)
        invariant Value() == PutRange(old(Value()), slot, hashslot)
        decreases slot.end + 1 - hashslot
      {
        hashslotToNode := hashslotToNode[hashslot := masterAddr];
        hashslotToNodes := hashslotToNodes[hashslot := allNodeAddrs];
        nodeToHashslots := nodeToHashslots[masterAddr := ListOr(nodeToHashslots, masterAddr) + [hashslot]];
        hashslot := hashslot + 1;
      }
    }

    method EnrichWithReplicaInfo(records: seq<NodeRecord>)
      modifies this`hashslotToNodes
      ensures hashslotToNodes == EnrichMap(old(hashslotToNodes), records)
    {
      var masterIDToAddr: map<string, string> := map[];
      var replicas: seq<NodeRecord> := [];
      for i := 0 to |records|
        invariant masterIDToAddr == MasterAddrs(records[..i]) && replicas == Healthy(records[..i])
      {
        assert records[..i + 1][..i] == records[..i];
        if records[i].role == Master {
          masterIDToAddr := masterIDToAddr[records[i].id := records[i].addr];
        } else if records[i].role == Replica {
          replicas := replicas + [records[i]];
        }
      }
      assert records[..|records|] == records;
      var masterReplicas := GroupReplicas(replicas, masterIDToAddr);
      Extend(masterReplicas, records);
    }

    /** The second loop of enrichWithReplicaInfo. */
    static method GroupReplicas(replicas: seq<NodeRecord>, masters: map<string, string>)
      returns (masterReplicas: map<string, seq<string>>)
      ensures forall m :: ListOr(masterReplicas, m) == ReplicasOf(replicas, masters, m)
    {
      masterReplicas := map[];
      for i := 0 to |replicas|
        invariant forall m :: ListOr(masterReplicas, m) == ReplicasOf(replicas[..i], masters, m)
      {
        assert replicas[..i + 1][..i] == replicas[..i];
        if replicas[i].masterId in masters {
          var masterAddr := masters[replicas[i].masterId];
          masterReplicas := masterReplicas[masterAddr := ListOr(masterReplicas, masterAddr) + [replicas[i].addr]];
        }
      }
      assert replicas[..|replicas|] == replicas;
    }

    /** The last loop of enrichWithReplicaInfo, over the slots in any order. */
    method Extend(masterReplicas: map<string, seq<string>>, ghost records: seq<NodeRecord>)
      requires forall m :: ListOr(masterReplicas, m) == Replicas(records, m)
      modifies this`hashslotToNodes
      ensures hashslotToNodes == EnrichMap(old(hashslotToNodes), records)
    {
      ghost var was := hashslotToNodes;
      var todo := hashslotToNodes.Keys;
      while todo != {}
        invariant todo <= was.Keys && hashslotToNodes == Partly(was, todo, records)
        decreases |todo|
      {
        var s :| s in todo;
        PartlyStep(was, todo, s, records);
        todo := todo - {s};
        var nodes := hashslotToNodes[s];
        ExtendOne(nodes, masterReplicas, records);
        if |nodes| != 0 {
          var masterAddr := nodes[0];
          if masterAddr in masterReplicas && |masterReplicas[masterAddr]| != 0 {
            if |nodes| == 1 {
              hashslotToNodes := hashslotToNodes[s := nodes + masterReplicas[masterAddr]];
            }
          }
        }
      }
    }

    /** Two passes over maps, each in any order. */
    method CompareAndDetectChanges(previous: TopologyState) returns (migrations: seq<Migration>)
      ensures IsDiff(migrations, previous.hashslotToNode, hashslotToNode)
    {
      migrations := ModifiedOrNew(previous.hashslotToNode, hashslotToNode);
      migrations := Removed(previous.hashslotToNode, hashslotToNode, migrations);
    }

    static method ModifiedOrNew(prev: Owners, cur: Owners) returns (migrations: seq<Migration>)
      ensures PartialDiff(migrations, prev, cur, cur.Keys)
    {
      migrations := [];
      var todo := cur.Keys;
      ghost var seen: set<Slot> := {};
      while todo != {}
        invariant seen + todo == cur.Keys && seen !! todo && PartialDiff(migrations, prev, cur, seen)
        decreases |todo|
      {
        var s :| s in todo;
        todo := todo - {s};
        if s !in prev || prev[s] != cur[s] {
          AddChange(migrations, prev, cur, seen, s);
          migrations := migrations + [Migration(s, NodeOr(prev, s), cur[s])];
        }
        seen := seen + {s};
      }
    }

    static method Removed(prev: Owners, cur: Owners, found: seq<Migration>) returns (migrations: seq<Migration>)
      requires PartialDiff(found, prev, cur, cur.Keys)
      ensures IsDiff(migrations, prev, cur)
    {
      migrations := found;
      ghost var seen := cur.Keys;
      var todo := prev.Keys;
      while todo != {}
        invariant forall x | x in cur :: x in seen
        invariant forall x | x in prev :: x in seen || x in todo
        invariant forall x | x in todo :: x in prev && (x in seen ==> x in cur)
        invariant PartialDiff(migrations, prev, cur, seen)
        decreases |todo|
      {
        var s :| s in todo;
        todo := todo - {s};
        if s !in cur {
          AddChange(migrations, prev, cur, seen, s);
          migrations := migrations + [Migration(s, prev[s], "")];
          seen := seen + {s};
        }
      }
      WholeDiff(migrations, prev, cur, seen);
    }
  }

  /** A diff restricted to the slots looked at so far. */
  ghost predicate PartialDiff(ms: seq<Migration>, prev: Owners, cur: Owners, seen: set<Slot>) {
    && (forall i, j | 0 <= i < j < |ms| :: ms[i].slot != ms[j].slot)
    && (forall i | 0 <= i < |ms| :: ms[i].slot in seen && Changed(prev, cur, ms[i].slot)
          && ms[i] == Migration(ms[i].slot, NodeOr(prev, ms[i].slot), NodeOr(cur, ms[i].slot)))
    && (forall s | s in seen && Changed(prev, cur, s) :: Mentions(ms, s))
  }

  lemma WholeDiff(ms: seq<Migration>, prev: Owners, cur: Owners, seen: set<Slot>)
    requires PartialDiff(ms, prev, cur, seen)
    requires (forall s | s in prev :: s in seen) && (forall s | s in cur :: s in seen)
    ensures IsDiff(ms, prev, cur)
  {
  }

  lemma AddChange(ms: seq<Migration>, prev: Owners, cur: Owners, seen: set<Slot>, s: Slot)
    requires PartialDiff(ms, prev, cur, seen) && s !in seen && Changed(prev, cur, s)
    ensures PartialDiff(ms + [Migration(s, NodeOr(prev, s), NodeOr(cur, s))], prev, cur, seen + {s})
  {
    var ms' := ms + [Migration(s, NodeOr(prev, s), NodeOr(cur, s))];
    assert ms'[|ms|].slot == s;
    forall x | x in seen + {s} && Changed(prev, cur, x)
      ensures Mentions(ms', x)
    {
      if x != s {
        var i :| 0 <= i < |ms| && ms[i].slot == x;
        assert ms'[i].slot == x;
      }
    }
  }

  // ----- Refreshes -----

  /** What the cluster answered: nothing, or its slots and perhaps its nodes. */
  datatype Answer = Unreachable | Slots(slots: seq<SlotRange>, nodes: Option<seq<NodeRecord>>)

  predicate NamedMasters(slots: seq<SlotRange>) {
    forall i | 0 <= i < |slots| && slots[i].nodes != [] :: slots[i].nodes[0] != ""
  }

  class TopologyMonitor {
    var currentState: TopologyState
    ghost var reported: seq<Migration> // every diff handed to handleMigrations, one after the other

    /** The diffs reported so far, replayed from nothing, give the owners known now. */
    ghost predicate Valid()
      reads this, currentState
    {
      Replay(map[], reported) == currentState.hashslotToNode
    }

    constructor ()
      ensures Valid() && fresh(currentState) && reported == []
    {
      currentState := new TopologyState();
      reported := [];
    }

    /** refreshTopology: a failed query changes nothing; a successful one swaps the state and reports
        exactly the changes of owner. What was reported can be replayed as long as every master that
        was ever answered has an address. */
    method RefreshTopology(answer: Answer) returns (migrations: seq<Migration>)
      modifies this
      ensures reported == old(reported) + migrations
      ensures old(Valid()) && (answer.Slots? ==> NamedMasters(answer.slots)) ==> Valid()
      ensures IsDiff(migrations, old(currentState.hashslotToNode), currentState.hashslotToNode)
      ensures answer.Unreachable? ==> currentState == old(currentState) && migrations == []
      ensures answer.Slots? ==>
                && fresh(currentState)
                && currentState.Value() == Refreshed(answer)
    {
      if answer.Unreachable? {
        migrations := [];
        assert reported + [] == reported;
        return;
      }
      var newState := new TopologyState();
      newState.Update(answer.slots);
      if answer.nodes.Some? {
        newState.EnrichWithReplicaInfo(answer.nodes.value);
      }
      var previousState := currentState;
      migrations := newState.CompareAndDetectChanges(previousState);
      currentState := newState;
      ReplayConcat(map[], reported, migrations);
      if NamedMasters(answer.slots) {
        NamedOwners(answer.slots);
      }
      ReplayDiff(migrations, previousState.hashslotToNode, newState.hashslotToNode);
      reported := reported + migrations;
    }
  }

  /** The state after a successful query. */
  function Refreshed(answer: Answer): Maps
    requires answer.Slots?
  {
    var m := PutAll(answer.slots);
    if answer.nodes.Some? then m.(nodes := EnrichMap(m.nodes, answer.nodes.value)) else m
  }

  /** After any refresh index 0 of a slot's nodes is its owner and both maps have the same slots. */
  lemma MasterFirst(answer: Answer, s: Slot)
    requires answer.Slots?
    ensures var m := Refreshed(answer);
            && (s in m.owner <==> s in m.nodes) && (s in m.owner <==> Serving(answer.slots, s).Some?)
            && (s in m.owner ==> m.nodes[s] != [] && m.nodes[s][0] == m.owner[s] == Serving(answer.slots, s).value[0])
  {
    UpdateCorrect(answer.slots, s, "");
    if answer.nodes.Some? {
      EnrichProperties(PutAll(answer.slots).nodes, answer.nodes.value);
    }
  }

  /** After any refresh the nodes of a slot are those the cluster answered, followed, when it answered its nodes as
      well and the slot had its master alone, by that master's healthy replicas. */
  lemma RefreshedNodes(answer: Answer, s: Slot)
    requires answer.Slots? && Serving(answer.slots, s).Some?
    ensures s in Refreshed(answer).nodes
    ensures var nodes := Serving(answer.slots, s).value;
            Refreshed(answer).nodes[s]
            == nodes + if answer.nodes.Some? && |nodes| == 1 then Replicas(answer.nodes.value, nodes[0]) else []
  {
    UpdateCorrect(answer.slots, s, "");
  }

  lemma NamedOwners(slots: seq<SlotRange>)
    requires NamedMasters(slots)
    ensures forall s | s in PutAll(slots).owner :: PutAll(slots).owner[s] != ""
  {
    forall s | s in PutAll(slots).owner
      ensures PutAll(slots).owner[s] != ""
    {
      UpdateCorrect(slots, s, "");
      var i := ServedMeansCovered(slots, s);
    }
  }
}
