/** The resubscription loop of a migration (topology.go, resubscribeOnNewNode) with its goroutines: the
    progress counter is conserved on every path, and a channel is subscribed at most once. */
module Resubscribe {
  import opened Common
  import opened Seqs
  import opened Registry

  /** Subscriptions of one group share one SUBSCRIBE command. */
  datatype Group = Group(subType: SubType, channel: string)

  function GroupOf(s: Sub): Group {
    Group(s.subType, s.channel)
  }

  /** What became of one subscription. */
  datatype Entry =
    | Skipped(sub: Sub)              // context expired, or no connection: the group is only counted
    | Unlisted(sub: Sub)             // the new connection has lost its metadata
    | Late(sub: Sub, conn: Conn)     // first on the new connection, but the context has expired
    | Joined(sub: Sub, conn: Conn)   // the channel is already listed on the new connection
    | Spawned(sub: Sub, conn: Conn)  // a goroutine is to have the subscribe command sent

  predicate Placed(e: Entry) {
    e.Late? || e.Joined? || e.Spawned?
  }

  // ----- Grouping -----

  function Keep(subs: seq<Sub>, gs: set<Group>): seq<Sub> {
    if subs == [] then []
    else if GroupOf(subs[0]) in gs then [subs[0]] + Keep(subs[1..], gs)
    else Keep(subs[1..], gs)
  }

  lemma {:induction false} KeepSnoc(subs: seq<Sub>, s: Sub, gs: set<Group>)
    ensures Keep(subs + [s], gs) == Keep(subs, gs) + if GroupOf(s) in gs then [s] else []
  {
    if subs == [] {
      assert Keep([s][1..], gs) == [];
    } else {
      assert (subs + [s])[1..] == subs[1..] + [s];
      KeepSnoc(subs[1..], s, gs);
    }
  }

  /** The groups partition the subscriptions. */
  lemma {:induction false} KeepSplit(subs: seq<Sub>, gs: set<Group>, g: Group)
    requires g !in gs
    ensures multiset(Keep(subs, gs + {g})) == multiset(Keep(subs, gs)) + multiset(Keep(subs, {g}))
  {
    if subs == [] {
    } else {
      KeepSplit(subs[1..], gs, g);
    }
  }

  lemma {:induction false} KeepPart(subs: seq<Sub>, gs: set<Group>)
    ensures multiset(Keep(subs, gs)) <= multiset(subs)
    ensures (forall s | s in subs :: GroupOf(s) in gs) ==> Keep(subs, gs) == subs
    ensures forall s | s in Keep(subs, gs) :: s in subs && GroupOf(s) in gs
  {
    if subs == [] {
    } else {
      KeepPart(subs[1..], gs);
      assert subs == [subs[0]] + subs[1..];
    }
  }

  lemma {:induction false} KeepDistinct(subs: seq<Sub>, gs: set<Group>)
    requires Distinct(subs)
    ensures Distinct(Keep(subs, gs))
  {
    if subs == [] {
    } else {
      KeepDistinct(subs[1..], gs);
      var rest := Keep(subs[1..], gs);
      KeepPart(subs[1..], gs);
      forall j | 0 <= j < |rest|
        ensures rest[j] != subs[0]
      {
        assert rest[j] in subs[1..];
      }
    }
  }

  ghost predicate Grouped(groups: map<Group, seq<Sub>>, subs: seq<Sub>) {
    && (forall s | s in subs :: GroupOf(s) in groups) && (forall g | g in groups :: groups[g] != [])
    && (forall g: Group :: Keep(subs, {g}) == if g in groups then groups[g] else [])
  }

  function Grow(groups: map<Group, seq<Sub>>, s: Sub): map<Group, seq<Sub>> {
    groups[GroupOf(s) := (if GroupOf(s) in groups then groups[GroupOf(s)] else []) + [s]]
  }

  lemma GroupedSnoc(groups: map<Group, seq<Sub>>, subs: seq<Sub>, s: Sub)
    requires Grouped(groups, subs)
    ensures Grouped(Grow(groups, s), subs + [s])
  {
    forall g: Group
      ensures Keep(subs + [s], {g}) == if g in Grow(groups, s) then Grow(groups, s)[g] else []
    {
      KeepSnoc(subs, s, {g});
    }
  }

  lemma GroupedNext(groups: map<Group, seq<Sub>>, subs: seq<Sub>, i: nat)
    requires i < |subs| && Grouped(groups, subs[..i])
    ensures Grouped(Grow(groups, subs[i]), subs[..i + 1])
  {
    GroupedSnoc(groups, subs[..i], subs[i]);
    assert subs[..i + 1] == subs[..i] + [subs[i]];
  }

  /** The two-level map of subscriptions by type and channel. */
  method GroupSubs(subs: seq<Sub>) returns (groups: map<Group, seq<Sub>>)
    ensures Grouped(groups, subs)
  {
    groups := map[];
    for i := 0 to |subs|
      invariant Grouped(groups, subs[..i])
    {
      GroupedNext(groups, subs, i);
      groups := Grow(groups, subs[i]);
    }
    assert subs[..|subs|] == subs;
  }

  // ----- Logs -----

  function Subs(log: seq<Entry>): (r: seq<Sub>)
    ensures |r| == |log| && forall i | 0 <= i < |log| :: r[i] == log[i].sub
  {
    seq(|log|, i requires 0 <= i < |log| => log[i].sub)
  }

  predicate OnePerGroup(log: seq<Entry>) {
    forall i, j | 0 <= i < j < |log| && log[i].Spawned? && log[j].Spawned? ::
      GroupOf(log[i].sub) != GroupOf(log[j].sub)
  }

  predicate ListedOn(metas: map<Conn, Reg>, c: Conn, s: Sub) {
    s in Listed(At(metas, c), s.channel)
  }

  ghost predicate Placements(metas: map<Conn, Reg>, log: seq<Entry>) {
    forall e | e in log && Placed(e) :: ListedOn(metas, e.conn, e.sub)
  }

  /** Nothing but s has been unlisted anywhere. */
  ghost predicate KeepsOthers(metas: map<Conn, Reg>, metas': map<Conn, Reg>, s: Sub) {
    forall c: Conn, x: Sub | x != s && ListedOn(metas, c, x) :: ListedOn(metas', c, x)
  }

  ghost predicate Grown(metas: map<Conn, Reg>, metas': map<Conn, Reg>) {
    forall c: Conn, x: Sub | ListedOn(metas, c, x) :: ListedOn(metas', c, x)
  }

  lemma RemoveKeepsOthers(metas: map<Conn, Reg>, c: Conn, s: Sub)
    ensures KeepsOthers(metas, metas[c := Remove(At(metas, c), s)], s)
  {
    forall d: Conn, x: Sub | x != s && ListedOn(metas, d, x)
      ensures ListedOn(metas[c := Remove(At(metas, c), s)], d, x)
    {
      if d == c && x.channel == s.channel {
        WithoutKeeps(Listed(At(metas, c), s.channel), s, x);
      }
    }
  }

  lemma AddGrows(metas: map<Conn, Reg>, c: Conn, s: Sub)
    ensures Grown(metas, metas[c := Add(At(metas, c), s)])
    ensures ListedOn(metas[c := Add(At(metas, c), s)], c, s)
  {
  }

  lemma OpGrows(metas: map<Conn, Reg>, c: Conn, op: Op)
    requires !op.OpRemove?
    ensures Grown(metas, metas[c := Step(At(metas, c), op)])
  {
    forall d: Conn, x: Sub | ListedOn(metas, d, x)
      ensures ListedOn(metas[c := Step(At(metas, c), op)], d, x)
    {
      if d == c {
        StepKeepsListed(At(metas, c), op, x);
      }
    }
  }

  lemma KeepsThenGrows(m0: map<Conn, Reg>, m1: map<Conn, Reg>, m2: map<Conn, Reg>, s: Sub)
    requires KeepsOthers(m0, m1, s) && Grown(m1, m2)
    ensures KeepsOthers(m0, m2, s)
  {
  }

  predicate NoRemoval(ops: seq<Op>) {
    forall op | op in ops :: !op.OpRemove?
  }

  /** A subscription alone in the list at the second look was preceded by nobody. */
  lemma AloneAtLook(metas: map<Conn, Reg>, metas': map<Conn, Reg>, s: Sub, c: Conn)
    requires ListedOn(metas', c, s) && Grown(metas, metas')
    ensures |Listed(At(metas', c), s.channel)| == 1 ==>
              forall x: Sub | x != s && x.channel == s.channel :: !ListedOn(metas, c, x)
  {
    if |Listed(At(metas', c), s.channel)| == 1 {
      forall x: Sub | x != s && x.channel == s.channel && ListedOn(metas, c, x)
        ensures false
      {
        AloneInList(Listed(At(metas', c), s.channel), s, x);
      }
    }
  }

  /** A list of one has no room for a second subscription. */
  lemma AloneInList(list: seq<Sub>, s: Sub, x: Sub)
    requires s in list && x in list && s != x
    ensures |list| != 1
  {
  }

  /** One group in progress: mine is what became of its first |mine| subscriptions. */
  ghost predicate GroupSoFar(metas: map<Conn, Reg>, mine: seq<Entry>, conn: Conn) {
    && OnePerGroup(mine)
    && forall e | e in mine && Placed(e) :: e.conn == conn && ListedOn(metas, conn, e.sub)
  }

  /** Nothing outside the group has been unlisted. */
  ghost predicate KeepsOutside(metas: map<Conn, Reg>, metas': map<Conn, Reg>, group: seq<Sub>) {
    forall c: Conn, x: Sub | x !in group && ListedOn(metas, c, x) :: ListedOn(metas', c, x)
  }

  /** What a group adds to the log when it has been dealt with. */
  ghost predicate GroupHandled(metas: map<Conn, Reg>, metas': map<Conn, Reg>, log: seq<Entry>, log': seq<Entry>,
                               group: seq<Sub>) {
    && log <= log' && Subs(log') == Subs(log) + group
    && KeepsOutside(metas, metas', group)
    && (Distinct(group) ==> OnePerGroup(log'[|log|..]) && Placements(metas', log'[|log|..]))
  }

  function Skips(group: seq<Sub>): (r: seq<Entry>)
    ensures |r| == |group| && forall i | 0 <= i < |r| :: r[i] == Skipped(group[i])
  {
    seq(|group|, i requires 0 <= i < |group| => Skipped(group[i]))
  }

  lemma SkipsAreHandled(metas: map<Conn, Reg>, metas': map<Conn, Reg>, log: seq<Entry>, group: seq<Sub>)
    requires Grown(metas, metas')
    ensures GroupHandled(metas, metas', log, log + Skips(group), group)
  {
    assert (log + Skips(group))[|log|..] == Skips(group);
    assert Subs(log + Skips(group)) == Subs(log) + group;
  }

  lemma GrownThenHandled(m0: map<Conn, Reg>, m1: map<Conn, Reg>, m2: map<Conn, Reg>, log: seq<Entry>,
                         log': seq<Entry>, group: seq<Sub>)
    requires Grown(m0, m1) && GroupHandled(m1, m2, log, log', group)
    ensures GroupHandled(m0, m2, log, log', group)
  {
  }

  lemma OutsideNext(m0: map<Conn, Reg>, m1: map<Conn, Reg>, m2: map<Conn, Reg>, group: seq<Sub>, s: Sub)
    requires KeepsOutside(m0, m1, group) && KeepsOthers(m1, m2, s) && s in group
    ensures KeepsOutside(m0, m2, group)
  {
  }

  lemma MineDiffer(mine: seq<Entry>, group: seq<Sub>, g: Group)
    requires |mine| < |group| && Subs(mine) == group[..|mine|] && Distinct(group)
    requires forall s | s in group :: GroupOf(s) == g
    ensures forall d | d in mine ::
              d.sub != group[|mine|] && GroupOf(d.sub) == GroupOf(group[|mine|])
  {
    forall k | 0 <= k < |mine|
      ensures mine[k].sub == group[k]
    {
      assert Subs(mine)[k] == group[..|mine|][k];
    }
  }

  lemma GroupExtends(metas: map<Conn, Reg>, metas': map<Conn, Reg>, mine: seq<Entry>, e: Entry, conn: Conn)
    requires GroupSoFar(metas, mine, conn) && KeepsOthers(metas, metas', e.sub)
    requires forall d | d in mine :: d.sub != e.sub && GroupOf(d.sub) == GroupOf(e.sub)
    requires Placed(e) ==> e.conn == conn && ListedOn(metas', conn, e.sub)
    requires e.Spawned? ==> forall x: Sub | x != e.sub && x.channel == e.sub.channel :: !ListedOn(metas, conn, x)
    ensures GroupSoFar(metas', mine + [e], conn)
  {
    if e.Spawned? {
      forall d | d in mine
        ensures !d.Spawned?
      {
        assert GroupOf(d.sub).channel == GroupOf(e.sub).channel;
        assert !ListedOn(metas, conn, d.sub);
      }
    }
  }

  /** Groups handled one after the other do not disturb each other. */
  lemma GroupsExtend(metas: map<Conn, Reg>, metas': map<Conn, Reg>, log: seq<Entry>, mine: seq<Entry>, g: Group)
    requires OnePerGroup(log) && Placements(metas, log) && forall e | e in log :: GroupOf(e.sub) != g
    requires OnePerGroup(mine) && Placements(metas', mine) && forall e | e in mine :: GroupOf(e.sub) == g
    requires forall c: Conn, x: Sub | GroupOf(x) != g && ListedOn(metas, c, x) :: ListedOn(metas', c, x)
    ensures OnePerGroup(log + mine) && Placements(metas', log + mine)
  {
    var all := log + mine;
    forall i, j | 0 <= i < j < |all| && all[i].Spawned? && all[j].Spawned?
      ensures GroupOf(all[i].sub) != GroupOf(all[j].sub)
    {
      if i < |log| <= j {
        assert all[i] in log && all[j] in mine;
      }
    }
  }

  /** The run so far: the groups in handled have been dealt with, and nothing else. */
  ghost predicate Progress(metas: map<Conn, Reg>, log: seq<Entry>, subs: seq<Sub>, handled: set<Group>) {
    && multiset(Subs(log)) == multiset(Keep(subs, handled))
    && (forall e | e in log :: GroupOf(e.sub) in handled)
    && (Distinct(subs) ==> OnePerGroup(log) && Placements(metas, log))
  }

  lemma ProgressStart(metas: map<Conn, Reg>, subs: seq<Sub>)
    ensures Progress(metas, [], subs, {})
  {
    KeepNone(subs);
  }

  lemma {:induction false} KeepNone(subs: seq<Sub>)
    ensures Keep(subs, {}) == []
  {
    if subs == [] {
    } else {
      KeepNone(subs[1..]);
    }
  }

  /** The entries that a group adds are of that group. */
  lemma AddedAre(log: seq<Entry>, log': seq<Entry>, group: seq<Sub>, g: Group)
    requires log <= log' && Subs(log') == Subs(log) + group && forall s | s in group :: GroupOf(s) == g
    ensures forall e | e in log'[|log|..] :: GroupOf(e.sub) == g
  {
    var mine := log'[|log|..];
    forall i | 0 <= i < |mine|
      ensures GroupOf(mine[i].sub) == g
    {
      assert Subs(log')[|log| + i] == group[i];
    }
  }

  lemma ProgressStep(metas: map<Conn, Reg>, metas': map<Conn, Reg>, log: seq<Entry>, log': seq<Entry>,
                     subs: seq<Sub>, handled: set<Group>, g: Group)
    requires Progress(metas, log, subs, handled) && g !in handled
    requires log <= log' && Subs(log') == Subs(log) + Keep(subs, {g})
    requires Distinct(Keep(subs, {g})) ==> OnePerGroup(log'[|log|..]) && Placements(metas', log'[|log|..])
    requires forall c: Conn, x: Sub | x !in Keep(subs, {g}) && ListedOn(metas, c, x) :: ListedOn(metas', c, x)
    ensures Progress(metas', log', subs, handled + {g})
  {
    var mine := log'[|log|..];
    assert log' == log + mine;
    KeepSplit(subs, handled, g);
    KeepPart(subs, {g});
    AddedAre(log, log', Keep(subs, {g}), g);
    if Distinct(subs) {
      KeepDistinct(subs, {g});
      GroupsExtend(metas, metas', log, mine, g);
    }
  }

  lemma ProgressBounds(metas: map<Conn, Reg>, log: seq<Entry>, subs: seq<Sub>, handled: set<Group>)
    requires Progress(metas, log, subs, handled)
    ensures multiset(Subs(log)) <= multiset(subs)
    ensures (forall s | s in subs :: GroupOf(s) in handled) ==> multiset(Subs(log)) == multiset(subs)
  {
    KeepPart(subs, handled);
  }

  /** A group being moved: mine is what became of its first |mine| subscriptions. */
  ghost predicate GroupRun(metas: map<Conn, Reg>, metas': map<Conn, Reg>, mine: seq<Entry>, group: seq<Sub>,
                           conn: Conn) {
    && |mine| <= |group| && Subs(mine) == group[..|mine|]
    && KeepsOutside(metas, metas', group)
    && (Distinct(group) ==> GroupSoFar(metas', mine, conn))
  }

  lemma GroupNext(m0: map<Conn, Reg>, m1: map<Conn, Reg>, m2: map<Conn, Reg>, mine: seq<Entry>, e: Entry,
                  group: seq<Sub>, g: Group, conn: Conn)
    requires GroupRun(m0, m1, mine, group, conn) && |mine| < |group| && e.sub == group[|mine|]
    requires forall s | s in group :: GroupOf(s) == g
    requires KeepsOthers(m1, m2, e.sub)
    requires Placed(e) ==> e.conn == conn && ListedOn(m2, conn, e.sub)
    requires e.Spawned? ==> forall x: Sub | x != e.sub && x.channel == e.sub.channel :: !ListedOn(m1, conn, x)
    ensures GroupRun(m0, m2, mine + [e], group, conn)
  {
    OutsideNext(m0, m1, m2, group, e.sub);
    assert Subs(mine + [e]) == group[..|mine|] + [e.sub] == group[..|mine| + 1];
    if Distinct(group) {
      MineDiffer(mine, group, g);
      GroupExtends(m1, m2, mine, e, conn);
    }
  }

  lemma GroupDone(metas: map<Conn, Reg>, metas': map<Conn, Reg>, log: seq<Entry>, mine: seq<Entry>, group: seq<Sub>,
                  conn: Conn)
    requires GroupRun(metas, metas', mine, group, conn) && |mine| == |group|
    ensures GroupHandled(metas, metas', log, log + mine, group)
  {
    assert (log + mine)[|log|..] == mine && group[..|group|] == group;
    assert Subs(log + mine) == Subs(log) + Subs(mine);
  }

  // ----- Who sends SUBSCRIBE -----

  /** The second look at the list: what becomes of a subscription just added to it. */
  function Verdict(look: Reg, sub: Sub, conn: Conn, expired: bool): Entry {
    if |Listed(look, sub.channel)| != 1 then Joined(sub, conn)
    else if expired then Late(sub, conn)
    else Spawned(sub, conn)
  }

  /** One move as the registry of the new connection sees it: before is the registry when the subscription
      is added; ops come between that and the second look, later after it, with everything that others
      do. */
  datatype Move = Move(before: Reg, ops: seq<Op>, look: Reg, expired: bool, later: seq<Op>, end: Reg)

  ghost predicate MoveOf(m: Move, sub: Sub, conn: Conn, e: Entry) {
    && Reaches(Add(m.before, sub), m.ops, m.look) && OpRemove(sub) !in m.ops
    && Reaches(m.look, m.later, m.end) && OpRemove(sub) !in m.later
    && e == Verdict(m.look, sub, conn, m.expired)
  }

  /** Some subscriber of ch is told to send SUBSCRIBE in the course of ops. */
  predicate Asked(r: Reg, ops: seq<Op>, ch: string)
    decreases |ops|
  {
    ops != []
    && ((ops[0].OpAddFirst? && ops[0].sub.channel == ch && AddFirst(r, ops[0].sub, ch).1)
        || Asked(Step(r, ops[0]), ops[1..], ch))
  }

  /** Nobody else sends SUBSCRIBE for the channel of moved unasked, as another migration would. */
  predicate Undisputed(ops: seq<Op>, moved: Sub) {
    forall op | op in ops :: op.OpSetPending? && op.sub.channel == moved.channel ==> op.sub == moved
  }

  lemma StepKeepsListed(r: Reg, op: Op, s: Sub)
    requires s in Listed(r, s.channel) && op != OpRemove(s)
    ensures s in Listed(Step(r, op), s.channel)
  {
    if op.OpRemove? && op.sub.channel == s.channel {
      WithoutKeeps(Listed(r, s.channel), op.sub, s);
    }
  }

  /** As long as a subscription stays listed, nobody is told to send SUBSCRIBE for its channel. */
  lemma {:induction false} NobodyAsked(r: Reg, s: Sub, ops: seq<Op>, r': Reg)
    requires s in Listed(r, s.channel) && Reaches(r, ops, r') && OpRemove(s) !in ops
    ensures !Asked(r, ops, s.channel) && s in Listed(r', s.channel)
    decreases |ops|
  {
    if ops == [] {
    } else {
      assert ops[0] in ops && forall op | op in ops[1..] :: op in ops;
      StepKeepsListed(r, ops[0], s);
      NobodyAsked(Step(r, ops[0]), s, ops[1..], r');
    }
  }

  /** What becomes of the subscribe command of a goroutine. */
  datatype Fate =
    | Refused    // sendCommand fails: the loop has exited, the connection is closed or the context is done
    | Unwritten  // the loop takes the command but cannot write it
    | Lost       // the loop exits with the command still in its channel
    | Written

  /** What that does to the registry, by the goroutine or by the loop. */
  function FateOps(fate: Fate, channel: string): seq<Op> {
    if fate.Refused? || fate.Unwritten? then [OpDropPending(channel)] else []
  }

  /** A subscription moves to a connection where its channel has no listener. Between its listing and the
      second look, and ever after while it stays listed, the registry is used in any way; fate is what the
      connection does with a command given to it then. SUBSCRIBE goes out for the channel, written for the
      migration or left to a subscriber told to send it, if and only if nobody else is listed at the second
      look, the context is live after it, and the command is written. */
  lemma SubscribeGoesOut(m: Move, moved: Sub, conn: Conn, e: Entry, fate: Fate)
    requires MoveOf(m, moved, conn, e) && Undisputed(m.ops + m.later, moved)
    requires Listed(m.before, moved.channel) == [] && moved.channel !in m.before.pending
    ensures Asked(Add(m.before, moved), m.ops, moved.channel) || Asked(m.look, m.later, moved.channel)
            || (e.Spawned? && fate.Written?)
            <==> |Listed(m.look, moved.channel)| == 1 && !m.expired && fate.Written?
  {
    NobodyAsked(Add(m.before, moved), moved, m.ops, m.look);
    NobodyAsked(m.look, moved, m.later, m.end);
  }

  /** A subscription that joins, is late or has its command fail leaves the channel without SUBSCRIBE for as
      long as it stays. */
  lemma SilentAfter(look: Reg, s: Sub)
    requires s in Listed(look, s.channel)
    ensures forall later, end | Reaches(look, later, end) && OpRemove(s) !in later :: !Asked(look, later, s.channel)
  {
    forall later, end | Reaches(look, later, end) && OpRemove(s) !in later
      ensures !Asked(look, later, s.channel)
    {
      NobodyAsked(look, s, later, end);
    }
  }

  /** It does happen: another subscriber of the channel comes between the listing and the second look. It is
      told not to subscribe, the migration joins it, and nobody subscribes as long as the one moved is
      listed. */
  lemma NeitherSubscribes(moved: Sub, other: Sub, conn: Conn, expired: bool) returns (m: Move)
    requires moved.channel == other.channel && moved != other
    ensures m.before == Reg(map[], map[]) && m.later == [] && MoveOf(m, moved, conn, Joined(moved, conn))
    ensures Undisputed(m.ops, moved) && !Asked(Add(m.before, moved), m.ops, moved.channel)
    ensures forall later, end | Reaches(m.look, later, end) && OpRemove(moved) !in later ::
              !Asked(m.look, later, moved.channel)
  {
    var empty := Reg(map[], map[]);
    var look := Step(Add(empty, moved), OpAddFirst(other));
    m := Move(empty, [OpAddFirst(other)], look, expired, [], look);
    assert Reaches(look, [], look) && m.ops[1..] == [];
    NobodyAsked(Add(empty, moved), moved, m.ops, look);
    SilentAfter(look, moved);
  }

  /** Likewise when the context expires before the check, with nobody else about. */
  lemma LateLeavesSilence(moved: Sub, conn: Conn) returns (m: Move)
    ensures m.before == Reg(map[], map[]) && m.ops == m.later == [] && MoveOf(m, moved, conn, Late(moved, conn))
    ensures forall later, end | Reaches(m.look, later, end) && OpRemove(moved) !in later ::
              !Asked(m.look, later, moved.channel)
  {
    var look := Add(Reg(map[], map[]), moved);
    m := Move(Reg(map[], map[]), [], look, true, [], look);
    SilentAfter(look, moved);
  }

  /** Likewise when the command fails, in any of its ways, although the moved subscription is alone at the
      look and the context is live after it. */
  lemma FailureLeavesSilence(moved: Sub, conn: Conn, fate: Fate) returns (m: Move)
    requires !fate.Written?
    ensures m.before == Reg(map[], map[]) && MoveOf(m, moved, conn, Spawned(moved, conn))
    ensures |Listed(m.look, moved.channel)| == 1 && !m.expired && Undisputed(m.ops + m.later, moved)
    ensures m.later == [OpSetPending(moved)] + FateOps(fate, moved.channel)
    ensures forall later, end | Reaches(m.end, later, end) && OpRemove(moved) !in later ::
              !Asked(m.end, later, moved.channel)
  {
    var look := Add(Reg(map[], map[]), moved);
    var pending := Step(look, OpSetPending(moved));
    assert Reaches(pending, [], pending);
    if FateOps(fate, moved.channel) == [] {
      m := Move(Reg(map[], map[]), [], look, false, [OpSetPending(moved)], pending);
    } else {
      var end := Step(pending, OpDropPending(moved.channel));
      m := Move(Reg(map[], map[]), [], look, false, [OpSetPending(moved), OpDropPending(moved.channel)], end);
      assert Reaches(end, [], end) && [OpDropPending(moved.channel)][1..] == [];
      assert m.later[1..] == [OpDropPending(moved.channel)];
      assert Reaches(pending, m.later[1..], end);
    }
    SilentAfter(m.end, moved);
  }

  // ----- The code -----

  datatype SubState = Pending | Active | Failed | Closed

  /** What happens to the objects shared with the rest of the program: an operation on a registry, by the loop or
      by others, or a setState, resetConfirmation or setPubSub of the loop. */
  datatype Event =
    | Registry(conn: Conn, op: Op, mine: bool)
    | SetsState(sub: Sub, state: SubState)
    | Resets(sub: Sub)
    | SetsConn(sub: Sub, conn: Conn)

  /** The registries after the events. */
  function EventsOn(metas: map<Conn, Reg>, events: seq<Event>): map<Conn, Reg> {
    if events == [] then metas
    else
      var n := |events| - 1;
      var m := EventsOn(metas, events[..n]);
      if events[n].Registry? then m[events[n].conn := Step(At(m, events[n].conn), events[n].op)] else m
  }

  lemma EventsOnNext(metas: map<Conn, Reg>, events: seq<Event>, e: Event)
    ensures var m := EventsOn(metas, events);
            EventsOn(metas, events + [e]) == if e.Registry? then m[e.conn := Step(At(m, e.conn), e.op)] else m
  {
    assert (events + [e])[..|events|] == events;
  }

  /** What the loop finds on its way with one subscription: the old connection, while it has metadata; whether it is
      still active; whether the new one has metadata; whether the context expires by the check. */
  datatype SubEnv = SubEnv(was: Option<Conn>, stillActive: bool, metaFound: bool, expires: bool)

  /** And with a group: whether the context expires by the first check; the connection, if one is got; whether the
      context expires while none is got; and what is found for the i-th subscription. */
  datatype GroupEnv = GroupEnv(expires: bool, conn: Option<Conn>, expiresConnecting: bool, subs: nat -> SubEnv)

  /** The loop's own doing for one subscription of which e becomes. */
  function Doing(sub: Sub, conn: Conn, env: SubEnv, e: Entry): seq<Event> {
    Leaving(sub, env) + [SetsConn(sub, conn)] + Placing(sub, conn, e)
  }

  function Leaving(sub: Sub, env: SubEnv): seq<Event> {
    if env.was.None? then []
    else [Registry(env.was.value, OpRemove(sub), true)] + if env.stillActive then [SetsState(sub, Closed)] else []
  }

  function Placing(sub: Sub, conn: Conn, e: Entry): seq<Event> {
    if Placed(e) then [Registry(conn, OpAdd(sub), true)] + Settling(sub, conn, e) else []
  }

  function Settling(sub: Sub, conn: Conn, e: Entry): seq<Event> {
    if e.Joined? then [SetsState(sub, Active)]
    else if e.Spawned? then [Resets(sub), SetsState(sub, Pending), Registry(conn, OpSetPending(sub), true)]
    else []
  }

  lemma NoneBefore(m0: map<Conn, Reg>, m1: map<Conn, Reg>, s: Sub, c: Conn)
    requires KeepsOthers(m0, m1, s)
    ensures (forall x: Sub | x != s && x.channel == s.channel :: !ListedOn(m1, c, x)) ==>
              forall x: Sub | x != s && x.channel == s.channel :: !ListedOn(m0, c, x)
  {
  }

  /** What the end of a goroutine does to the registry of its connection. */
  function Cleanup(fate: Fate, e: Entry): seq<Event>
    requires e.Spawned?
  {
    var ops := FateOps(fate, e.sub.channel);
    if ops == [] then [] else [Registry(e.conn, ops[0], false)]
  }

  // ----- How groups fare -----

  /** Each entry of a group that is moved: on the connection, or without its metadata; late only when the context has
      expired; and done holds the loop's own doing for it. */
  predicate MovedTo(mine: seq<Entry>, done: seq<seq<Event>>, conn: Conn, envs: nat -> SubEnv, expired: bool) {
    && |done| == |mine|
    && forall i | 0 <= i < |mine| ::
         && (if envs(i).metaFound then Placed(mine[i]) && mine[i].conn == conn else mine[i].Unlisted?)
         && (mine[i].Late? ==> expired)
         && done[i] == Doing(mine[i].sub, conn, envs(i), mine[i])
  }

  lemma MovedNext(mine: seq<Entry>, done: seq<seq<Event>>, e: Entry, d: seq<Event>, conn: Conn, envs: nat -> SubEnv,
                  expired: bool, expired': bool)
    requires MovedTo(mine, done, conn, envs, expired) && (expired ==> expired') && (e.Late? ==> expired')
    requires if envs(|mine|).metaFound then Placed(e) && e.conn == conn else e.Unlisted?
    requires d == Doing(e.sub, conn, envs(|mine|), e)
    ensures MovedTo(mine + [e], done + [d], conn, envs, expired')
  {
  }

  function Nothing(n: nat): (r: seq<seq<Event>>)
    ensures |r| == n && forall i | 0 <= i < n :: r[i] == []
  {
    seq(n, i => [])
  }

  /** A group is skipped exactly when the context has expired at the first check or no connection is got. */
  predicate Fares(mine: seq<Entry>, done: seq<seq<Event>>, group: seq<Sub>, env: GroupEnv, gone: bool, expired: bool) {
    if gone || env.conn.None? then mine == Skips(group) && done == Nothing(|group|) && (env.conn.Some? ==> expired)
    else |mine| == |group| && MovedTo(mine, done, env.conn.value, env.subs, expired)
  }

  /** What a turn of the loop over the groups leaves. */
  ghost predicate Handled(metas: map<Conn, Reg>, metas': map<Conn, Reg>, log: seq<Entry>, log': seq<Entry>,
                          done: seq<seq<Event>>, done': seq<seq<Event>>, group: seq<Sub>, env: GroupEnv, gone: bool,
                          expired: bool) {
    && GroupHandled(metas, metas', log, log', group) && done <= done'
    && Fares(log'[|log|..], done'[|done|..], group, env, gone, expired)
  }

  lemma HandledBySkip(metas: map<Conn, Reg>, metas': map<Conn, Reg>, log: seq<Entry>, done: seq<seq<Event>>,
                      group: seq<Sub>, env: GroupEnv, gone: bool, expired: bool)
    requires Grown(metas, metas') && (gone || env.conn.None?) && (env.conn.Some? ==> expired)
    ensures Handled(metas, metas', log, log + Skips(group), done, done + Nothing(|group|), group, env, gone, expired)
  {
    SkipsAreHandled(metas, metas', log, group);
    assert (log + Skips(group))[|log|..] == Skips(group);
    assert (done + Nothing(|group|))[|done|..] == Nothing(|group|);
  }

  lemma HandledByMove(m0: map<Conn, Reg>, m1: map<Conn, Reg>, m2: map<Conn, Reg>, log: seq<Entry>, mine: seq<Entry>,
                      done: seq<seq<Event>>, ours: seq<seq<Event>>, group: seq<Sub>, env: GroupEnv, expired: bool)
    requires Grown(m0, m1) && env.conn.Some? && GroupRun(m1, m2, mine, group, env.conn.value) && |mine| == |group|
    requires MovedTo(mine, ours, env.conn.value, env.subs, expired)
    ensures Handled(m0, m2, log, log + mine, done, done + ours, group, env, false, expired)
  {
    GroupDone(m1, m2, log, mine, group, env.conn.value);
    GrownThenHandled(m0, m1, m2, log, log + mine, group);
    assert (log + mine)[|log|..] == mine && (done + ours)[|done|..] == ours;
  }

  lemma HandledAfter(m0: map<Conn, Reg>, m1: map<Conn, Reg>, m2: map<Conn, Reg>, log: seq<Entry>, log': seq<Entry>,
                     done: seq<seq<Event>>, done': seq<seq<Event>>, group: seq<Sub>, env: GroupEnv, gone: bool,
                     expired: bool)
    requires Grown(m0, m1) && Handled(m1, m2, log, log', done, done', group, env, gone, expired)
    ensures Handled(m0, m2, log, log', done, done', group, env, gone, expired)
  {
    GrownThenHandled(m0, m1, m2, log, log', group);
  }

  /** The context expires neither before the first check nor while subscriptions are moved. */
  ghost predicate Unhurried(env: GroupEnv) {
    !env.expires && forall i: nat :: !env.subs(i).expires
  }

  /** It expires while no connection is got. */
  predicate GivesUp(env: GroupEnv) {
    env.conn.None? && env.expiresConnecting
  }

  /** The group gets a connection that keeps its metadata. */
  ghost predicate Welcoming(env: GroupEnv) {
    env.conn.Some? && forall i: nat :: env.subs(i).metaFound
  }

  /** The place of entry i among those of its group. */
  function Rank(log: seq<Entry>, g: Group): nat {
    if log == [] then 0 else Rank(log[..|log| - 1], g) + if GroupOf(log[|log| - 1].sub) == g then 1 else 0
  }

  /** What becomes of an entry, the k-th of its group, and what the loop does for it. */
  predicate ExplainedBy(e: Entry, d: seq<Event>, k: nat, env: GroupEnv, expired: bool) {
    && (e.Skipped? ==> (env.conn.None? || expired) && d == [])
    && (e.Late? ==> expired)
    && (!e.Skipped? ==>
          && env.conn.Some?
          && (if env.subs(k).metaFound then Placed(e) && e.conn == env.conn.value else e.Unlisted?)
          && d == Doing(e.sub, env.conn.value, env.subs(k), e))
  }

  predicate Explained(log: seq<Entry>, done: seq<seq<Event>>, env: Group -> GroupEnv, expired: bool) {
    && |done| == |log|
    && forall i | 0 <= i < |log| :: ExplainedEntry(log, done, i, env, expired)
  }

  predicate ExplainedEntry(log: seq<Entry>, done: seq<seq<Event>>, i: nat, env: Group -> GroupEnv, expired: bool)
    requires i < |log| && i < |done|
  {
    var g := GroupOf(log[i].sub);
    ExplainedBy(log[i], done[i], Rank(log[..i], g), env(g), expired)
  }

  lemma {:induction false} RankNone(log: seq<Entry>, g: Group)
    requires forall e | e in log :: GroupOf(e.sub) != g
    ensures Rank(log, g) == 0
  {
    if log == [] {
    } else {
      assert log[|log| - 1] in log;
      RankNone(log[..|log| - 1], g);
    }
  }

  /** The entries of a group that come after those of others have their ranks from zero. */
  lemma {:induction false} RankOfMine(log: seq<Entry>, mine: seq<Entry>, g: Group)
    requires forall e | e in log :: GroupOf(e.sub) != g
    requires forall e | e in mine :: GroupOf(e.sub) == g
    ensures Rank(log + mine, g) == |mine|
    decreases |mine|
  {
    if mine == [] {
      assert log + mine == log;
      RankNone(log, g);
    } else {
      var n := |mine| - 1;
      assert (log + mine)[..|log + mine| - 1] == log + mine[..n];
      assert mine[n] in mine;
      RankOfMine(log, mine[..n], g);
    }
  }

  lemma ExplainedAt(log: seq<Entry>, mine: seq<Entry>, ours: seq<seq<Event>>, k: nat, group: seq<Sub>,
                    g: Group, env: Group -> GroupEnv, gone: bool, expired: bool)
    requires k < |mine| && (gone ==> expired)
    requires forall e | e in log :: GroupOf(e.sub) != g
    requires forall e | e in mine :: GroupOf(e.sub) == g
    requires Fares(mine, ours, group, env(g), gone, expired)
    ensures |ours| == |mine| && ExplainedBy(mine[k], ours[k], Rank(log + mine[..k], g), env(g), expired)
  {
    RankOfMine(log, mine[..k], g);
  }

  /** One group after the others. */
  lemma ExplainedNext(log: seq<Entry>, done: seq<seq<Event>>, mine: seq<Entry>, ours: seq<seq<Event>>, group: seq<Sub>,
                      g: Group, env: Group -> GroupEnv, before: bool, gone: bool, expired: bool)
    requires Explained(log, done, env, before) && (before ==> expired) && (gone ==> expired)
    requires forall e | e in log :: GroupOf(e.sub) != g
    requires forall e | e in mine :: GroupOf(e.sub) == g
    requires Fares(mine, ours, group, env(g), gone, expired)
    ensures Explained(log + mine, done + ours, env, expired)
  {
    var all, alld := log + mine, done + ours;
    forall i | 0 <= i < |all|
      ensures i < |alld| && ExplainedEntry(all, alld, i, env, expired)
    {
      if i < |log| {
        assert all[..i] == log[..i];
        assert ExplainedEntry(log, done, i, env, before);
      } else {
        var k := i - |log|;
        assert all[..i] == log + mine[..k] && mine[k] in mine;
        ExplainedAt(log, mine, ours, k, group, g, env, gone, expired);
      }
    }
  }

  lemma ExplainedAfter(log: seq<Entry>, done: seq<seq<Event>>, log': seq<Entry>, done': seq<seq<Event>>,
                       group: seq<Sub>, g: Group, env: Group -> GroupEnv, before: bool, gone: bool, expired: bool)
    requires Explained(log, done, env, before) && (before ==> expired) && (gone ==> expired)
    requires log <= log' && done <= done'
    requires forall e | e in log :: GroupOf(e.sub) != g
    requires forall e | e in log'[|log|..] :: GroupOf(e.sub) == g
    requires Fares(log'[|log|..], done'[|done|..], group, env(g), gone, expired)
    ensures Explained(log', done', env, expired)
  {
    assert log' == log + log'[|log|..] && done' == done + done'[|done|..];
    ExplainedNext(log, done, log'[|log|..], done'[|done|..], group, g, env, before, gone, expired);
  }

  /** A turn of the loop over the groups. */
  lemma TurnNext(m: map<Conn, Reg>, m': map<Conn, Reg>, log: seq<Entry>, log': seq<Entry>, done: seq<seq<Event>>,
                 done': seq<seq<Event>>, subs: seq<Sub>, handled: set<Group>, g: Group, env: Group -> GroupEnv,
                 before: bool, gone: bool, expired: bool)
    requires Progress(m, log, subs, handled) && g !in handled
    requires Explained(log, done, env, before) && (before ==> expired) && (gone ==> expired)
    requires Handled(m, m', log, log', done, done', Keep(subs, {g}), env(g), gone, expired)
    ensures Progress(m', log', subs, handled + {g})
    ensures Explained(log', done', env, expired)
  {
    KeepPart(subs, {g});
    AddedAre(log, log', Keep(subs, {g}), g);
    ExplainedAfter(log, done, log', done', Keep(subs, {g}), g, env, before, gone, expired);
    ProgressStep(m, m', log, log', subs, handled, g);
  }

  /** The last group in the log is one for which the context expired while no connection was got. */
  predicate EndsGivingUp(log: seq<Entry>, env: Group -> GroupEnv) {
    log != [] && GivesUp(env(GroupOf(log[|log| - 1].sub)))
  }

  lemma LastOfTurn(log: seq<Entry>, log': seq<Entry>, group: seq<Sub>, g: Group)
    requires log <= log' && Subs(log') == Subs(log) + group && group != []
    requires forall s | s in group :: GroupOf(s) == g
    ensures log' != [] && GroupOf(log'[|log'| - 1].sub) == g
  {
    assert Subs(log')[|log'| - 1] == group[|group| - 1];
  }

  /** A turn that returns early. */
  lemma TurnGivesUp(m: map<Conn, Reg>, m': map<Conn, Reg>, log: seq<Entry>, log': seq<Entry>, done: seq<seq<Event>>,
                    done': seq<seq<Event>>, subs: seq<Sub>, g: Group, env: Group -> GroupEnv, gone: bool, expired: bool)
    requires Handled(m, m', log, log', done, done', Keep(subs, {g}), env(g), gone, expired)
    requires Keep(subs, {g}) != [] && GivesUp(env(g))
    ensures EndsGivingUp(log', env) && exists s :: s in subs && GivesUp(env(GroupOf(s)))
  {
    KeepPart(subs, {g});
    LastOfTurn(log, log', Keep(subs, {g}), g);
    var s := Keep(subs, {g})[0];
    assert s in Keep(subs, {g});
  }

  /** With connections for all, and time for all, every subscription is moved. */
  lemma AllMoved(log: seq<Entry>, done: seq<seq<Event>>, env: Group -> GroupEnv)
    requires Explained(log, done, env, false) && forall g: Group :: Welcoming(env(g))
    ensures forall e | e in log :: (e.Joined? || e.Spawned?) && Some(e.conn) == env(GroupOf(e.sub)).conn
  {
    forall i | 0 <= i < |log|
      ensures (log[i].Joined? || log[i].Spawned?) && Some(log[i].conn) == env(GroupOf(log[i].sub)).conn
    {
      assert ExplainedEntry(log, done, i, env, false);
      assert Welcoming(env(GroupOf(log[i].sub)));
    }
  }

  /** A subscription taken off a connection is not listed there afterwards, unless somebody lists it again. */
  lemma {:induction false} TakenOff(metas: map<Conn, Reg>, events: seq<Event>, i: nat, c: Conn, sub: Sub)
    requires i < |events| && events[i].Registry? && events[i].conn == c && events[i].op == OpRemove(sub)
    requires RegInv(At(EventsOn(metas, events[..i]), c))
    requires forall j | i < j < |events| && events[j].Registry? && events[j].conn == c ::
               events[j].op != OpAdd(sub) && events[j].op != OpAddFirst(sub)
    ensures !ListedOn(EventsOn(metas, events), c, sub)
    decreases |events|
  {
    var n := |events| - 1;
    if i == n {
      WithoutDistinct(Listed(At(EventsOn(metas, events[..n]), c), sub.channel), sub);
    } else {
      assert events[..n][..i] == events[..i];
      TakenOff(metas, events[..n], i, c, sub);
      if events[n].Registry? && events[n].conn == c {
        StaysOff(At(EventsOn(metas, events[..n]), c), events[n].op, sub);
      }
    }
  }

  lemma StaysOff(r: Reg, op: Op, sub: Sub)
    requires sub !in Listed(r, sub.channel) && op != OpAdd(sub) && op != OpAddFirst(sub)
    ensures sub !in Listed(Step(r, op), sub.channel)
  {
    if op.OpRemove? && sub in Without(Listed(r, op.sub.channel), op.sub) {
      WithoutOnly(Listed(r, op.sub.channel), op.sub, sub);
    }
  }

  /** One migration: the counter it reports progress on, its running goroutines, and what it shares with
      the rest of the program. */
  class Resubscription {
    var metas: map<Conn, Reg>     // the registries, by connection
    var home: map<Sub, Conn>      // sub.pubsub
    var states: map<Sub, SubState>
    var expired: bool             // ctx.Err() != nil
    var processed: nat            // processedCount
    var flying: set<nat>          // the goroutines added to wg and not done, by the place of their entry in log
    var log: seq<Entry>           // what became of the subscriptions, in the order they were handled
    ghost var fates: map<nat, Fate> // of the goroutines that are done
    ghost var events: seq<Event>    // the operations on registries, by whomever
    ghost var turn: seq<Event>      // what the loop has done for the subscription it is at
    ghost var done: seq<seq<Event>> // and for those before, one for each entry of log
    ghost const start: map<Conn, Reg>

    /** The progress counter and the goroutines account for the log: every subscription handled is counted or
        has a goroutine that will count it, and every goroutine started is running or has met one fate. */
    ghost predicate Books()
      reads this
    {
      && processed + |flying| == |log| == |done| && metas == EventsOn(start, events)
      && (forall i | i in flying :: i < |log| && log[i].Spawned? && i !in fates)
      && (forall i | i in fates :: i < |log| && log[i].Spawned?)
      && (forall i: nat | i < |log| && log[i].Spawned? :: i in flying || i in fates)
    }

    constructor (metas: map<Conn, Reg>, home: map<Sub, Conn>, states: map<Sub, SubState>, expired: bool)
      ensures this.metas == metas && this.home == home && this.states == states && this.expired == expired
      ensures log == [] && turn == [] && done == [] && events == [] && this.start == metas && Books()
    {
      this.metas, this.home, this.states, this.expired := metas, home, states, expired;
      processed, flying, log, fates := 0, {}, [], map[];
      events, start, turn, done := [], metas, [], [];
    }

    /** Adds a subscription that is counted at once. */
    method Count(e: Entry)
      requires Books() && !e.Spawned?
      modifies this`processed, this`log, this`done, this`turn
      ensures Books() && log == old(log) + [e] && done == old(done) + [old(turn)] && turn == []
    {
      processed := processed + 1;
      log := log + [e];
      done, turn := done + [turn], [];
    }

    /** setState by the loop. */
    method SetState(sub: Sub, state: SubState)
      modifies this`states, this`turn
      ensures states == old(states)[sub := state] && turn == old(turn) + [SetsState(sub, state)]
    {
      states := states[sub := state];
      turn := turn + [SetsState(sub, state)];
    }

    /** resetConfirmation by the loop. */
    ghost method Reset(sub: Sub)
      modifies this`turn
      ensures turn == old(turn) + [Resets(sub)]
    {
      turn := turn + [Resets(sub)];
    }

    /** setPubSub by the loop. */
    method SetConn(sub: Sub, conn: Conn)
      modifies this`home, this`turn
      ensures home == old(home)[sub := conn] && turn == old(turn) + [SetsConn(sub, conn)]
    {
      home := home[sub := conn];
      turn := turn + [SetsConn(sub, conn)];
    }

    /** An operation on the registry of c. */
    method Operate(c: Conn, op: Op, mine: bool)
      requires Books()
      modifies this`metas, this`events, this`turn
      ensures Books() && metas == old(metas)[c := Step(old(At(metas, c)), op)]
      ensures events == old(events) + [Registry(c, op, mine)]
      ensures turn == if mine then old(turn) + [Registry(c, op, true)] else old(turn)
    {
      EventsOnNext(start, events, Registry(c, op, mine));
      metas := metas[c := Step(At(metas, c), op)];
      events := events + [Registry(c, op, mine)];
      turn := if mine then turn + [Registry(c, op, true)] else turn;
    }

    /** Time passes before a look at the context. */
    method Look(expires: bool) returns (gone: bool)
      modifies this`expired
      ensures gone == expired == (old(expired) || expires)
    {
      expired := expired || expires;
      gone := expired;
    }

    /** Whatever else happens meanwhile: subscriptions move and change state, any registry is used in any way but
        for removals, and goroutines of this migration end. For the registry of the connection watched, ops is
        what happened to it. */
    method Interfere(ghost watched: Conn) returns (ghost ops: seq<Op>)
      requires Books()
      modifies this`metas, this`home, this`states, this`processed, this`flying, this`fates, this`events, this`turn
      ensures Books() && turn == old(turn)
      ensures Grown(old(metas), metas)
      ensures Reaches(old(At(metas, watched)), ops, At(metas, watched)) && NoRemoval(ops)
    {
      home, states := *, *;
      ops := [];
      var uses: nat := *;
      var i := 0;
      while i < uses
        invariant Books() && turn == old(turn)
        invariant Grown(old(metas), metas)
        invariant Reaches(old(At(metas, watched)), ops, At(metas, watched)) && NoRemoval(ops)
      {
        ops := InterfereOnce(watched, old(At(metas, watched)), ops);
        i := i + 1;
      }
    }

    /** A goroutine ends, or some registry is used. */
    method InterfereOnce(ghost watched: Conn, ghost from: Reg, ghost ops: seq<Op>) returns (ghost ops': seq<Op>)
      requires Books() && Reaches(from, ops, At(metas, watched)) && NoRemoval(ops)
      modifies this`metas, this`processed, this`flying, this`states, this`fates, this`events, this`turn
      ensures Books() && Grown(old(metas), metas) && turn == old(turn)
      ensures Reaches(from, ops', At(metas, watched)) && NoRemoval(ops')
    {
      ops' := ops;
      var c: Conn, op: Op, g: nat, fate: Fate := *, *, *, *;
      if g in flying {
        ops' := EndGoroutine(g, fate, watched, from, ops);
      } else if Allowed(At(metas, c), op) && !op.OpRemove? {
        ops' := Use(c, op, false, watched, from, ops);
      }
    }

    /** One use of the registry of c that is not a removal. */
    method Use(c: Conn, op: Op, mine: bool, ghost watched: Conn, ghost from: Reg, ghost ops: seq<Op>)
      returns (ghost ops': seq<Op>)
      requires Books() && Allowed(At(metas, c), op) && !op.OpRemove?
      requires Reaches(from, ops, At(metas, watched)) && NoRemoval(ops)
      modifies this`metas, this`events, this`turn
      ensures Books() && metas == old(metas)[c := Step(old(At(metas, c)), op)] && Grown(old(metas), metas)
      ensures events == old(events) + [Registry(c, op, mine)]
      ensures turn == if mine then old(turn) + [Registry(c, op, true)] else old(turn)
      ensures ops' == if c == watched then ops + [op] else ops
      ensures Reaches(from, ops', At(metas, watched)) && NoRemoval(ops')
    {
      OpGrows(metas, c, op);
      ops' := ops;
      if c == watched {
        ReachesOneMore(from, ops, At(metas, watched), op);
        ops' := ops + [op];
      }
      Operate(c, op, mine);
    }

    /** A running goroutine is done, having counted itself whatever became of its command: the deferred calls
        run in any case. A command that is refused or cannot be written is no longer pending, and one that fails
        in any way leaves its subscription failed; one that is written may still not be confirmed. */
    method EndGoroutine(g: nat, fate: Fate, ghost watched: Conn, ghost from: Reg, ghost ops: seq<Op>)
      returns (ghost ops': seq<Op>)
      requires Books() && g in flying && Reaches(from, ops, At(metas, watched)) && NoRemoval(ops)
      modifies this`metas, this`processed, this`flying, this`states, this`fates, this`events, this`turn
      ensures Books() && Grown(old(metas), metas) && turn == old(turn)
      ensures flying == old(flying) - {g} && fates == old(fates)[g := fate]
      ensures events == old(events) + Cleanup(fate, log[g])
      ensures !fate.Written? ==> log[g].sub in states && states[log[g].sub] == Failed
      ensures Reaches(from, ops', At(metas, watched)) && NoRemoval(ops')
    {
      ops' := CleanUp(log[g], fate, watched, from, ops);
      Finish(g, fate);
    }

    /** removePendingSubscription, where a command fails before it is written. */
    method CleanUp(e: Entry, fate: Fate, ghost watched: Conn, ghost from: Reg, ghost ops: seq<Op>)
      returns (ghost ops': seq<Op>)
      requires Books() && e.Spawned? && Reaches(from, ops, At(metas, watched)) && NoRemoval(ops)
      modifies this`metas, this`events, this`turn
      ensures Books() && Grown(old(metas), metas) && turn == old(turn)
      ensures events == old(events) + Cleanup(fate, e)
      ensures Reaches(from, ops', At(metas, watched)) && NoRemoval(ops')
    {
      ops' := ops;
      if fate.Refused? || fate.Unwritten? {
        ops' := Use(e.conn, OpDropPending(e.sub.channel), false, watched, from, ops);
      } else {
        assert old(events) + Cleanup(fate, e) == old(events);
      }
    }

    /** The rest of it. */
    method Finish(g: nat, fate: Fate)
      requires Books() && g in flying
      modifies this`processed, this`flying, this`states, this`fates
      ensures Books() && flying == old(flying) - {g} && fates == old(fates)[g := fate]
      ensures !fate.Written? ==> log[g].sub in states && states[log[g].sub] == Failed
    {
      var confirmed: bool := *;
      if !fate.Written? || !confirmed {
        states := states[log[g].sub := Failed];
      }
      flying := flying - {g};
      fates := fates[g := fate];
      processed := processed + 1;
    }

    /** Takes one subscription off the connection it was on, if that still has its metadata, and closes it if
        the connection is still active. */
    method Unlist(sub: Sub, env: SubEnv)
      requires Books()
      modifies this`metas, this`states, this`events, this`turn
      ensures Books() && KeepsOthers(old(metas), metas, sub)
      ensures turn == old(turn) + Leaving(sub, env)
    {
      if env.was.Some? {
        RemoveKeepsOthers(metas, env.was.value, sub);
        Operate(env.was.value, OpRemove(sub), true);
        if env.stillActive {
          SetState(sub, Closed);
        }
      }
    }

    /** Moves one subscription to the new connection; e is what becomes of it. */
    method ResubscribeOne(sub: Sub, conn: Conn, env: SubEnv) returns (ghost e: Entry, ghost m: Move)
      requires Books() && turn == []
      modifies this
      ensures Books() && log == old(log) + [e] && e.sub == sub
      ensures KeepsOthers(old(metas), metas, sub)
      ensures if env.metaFound then Placed(e) && e.conn == conn else e.Unlisted?
      ensures turn == [] && done == old(done) + [Doing(sub, conn, env, e)]
      ensures Placed(e) ==>
                && MoveOf(m, sub, conn, e) && m.end == At(metas, conn)
                && m.expired == (old(expired) || env.expires) && ListedOn(metas, conn, sub)
      ensures e.Joined? ==> sub in states && states[sub] == Active
      ensures e.Late? ==> expired
      ensures (old(expired) ==> expired) && (expired ==> old(expired) || env.expires)
      ensures e.Spawned? ==>
                && OpSetPending(sub) in m.later
                && sub.channel in At(metas, conn).pending && At(metas, conn).pending[sub.channel] == sub
                && forall x: Sub | x != sub && x.channel == sub.channel :: !old(ListedOn(metas, conn, x))
    {
      ghost var metas0 := metas;
      LeaveOld(sub, env);
      ghost var metas1 := metas;
      SetConn(sub, conn);
      assert turn == Leaving(sub, env) + [SetsConn(sub, conn)];
      if !env.metaFound {
        e := Unlisted(sub);
        assert turn == Doing(sub, conn, env, e);
        m := Move(At(metas, conn), [], At(metas, conn), expired, [], At(metas, conn));
        Count(Unlisted(sub));
        return;
      }
      e, m := Place(sub, conn, env.expires);
      KeepsThenGrows(metas0, metas1, metas, sub);
      NoneBefore(metas0, metas1, sub, conn);
    }

    /** The part up to setPubSub, whatever happens before and after it. */
    method LeaveOld(sub: Sub, env: SubEnv)
      requires Books()
      modifies this`metas, this`home, this`states, this`processed, this`flying, this`fates, this`events, this`turn
      ensures Books() && KeepsOthers(old(metas), metas, sub)
      ensures turn == old(turn) + Leaving(sub, env)
    {
      ghost var metas0 := metas;
      var _ := Interfere(0);
      ghost var metas1 := metas;
      Unlist(sub, env);
      ghost var metas2 := metas;
      KeepsThenGrows(metas0, metas0, metas1, sub);
      var _ := Interfere(0);
      assert KeepsOthers(metas0, metas2, sub);
      KeepsThenGrows(metas0, metas2, metas, sub);
    }

    /** The part that begins with addSubscription. */
    method Place(sub: Sub, conn: Conn, expires: bool) returns (ghost e: Entry, ghost m: Move)
      requires Books()
      modifies this
      ensures Books() && log == old(log) + [e] && e.sub == sub && Placed(e)
      ensures Grown(old(metas), metas) && ListedOn(metas, conn, sub)
      ensures turn == [] && done == old(done) + [old(turn) + Placing(sub, conn, e)]
      ensures MoveOf(m, sub, conn, e) && m.end == At(metas, conn)
      ensures m.expired == (old(expired) || expires)
      ensures e.Joined? ==> sub in states && states[sub] == Active
      ensures e.Late? ==> expired
      ensures (old(expired) ==> expired) && (expired ==> old(expired) || expires)
      ensures e.Spawned? ==>
                && OpSetPending(sub) in m.later
                && sub.channel in At(metas, conn).pending && At(metas, conn).pending[sub.channel] == sub
                && forall x: Sub | x != sub && x.channel == sub.channel :: !old(ListedOn(metas, conn, x))
    {
      ghost var before, ops;
      var isFirst: bool;
      before, ops, isFirst := AddAndLook(sub, conn);
      ghost var look := At(metas, conn);
      ghost var later;
      e, later := Decide(sub, conn, isFirst, expires);
      m := Move(before, ops, look, old(expired) || expires, later, At(metas, conn));
      assert old(turn) + [Registry(conn, OpAdd(sub), true)] + Settling(sub, conn, e)
          == old(turn) + Placing(sub, conn, e);
    }

    /** addSubscription, and the second look. */
    method AddAndLook(sub: Sub, conn: Conn) returns (ghost before: Reg, ghost ops: seq<Op>, isFirst: bool)
      requires Books()
      modifies this`metas, this`home, this`states, this`processed, this`flying, this`fates, this`events, this`turn
      ensures Books() && Grown(old(metas), metas) && ListedOn(metas, conn, sub)
      ensures Reaches(Add(before, sub), ops, At(metas, conn)) && NoRemoval(ops)
      ensures isFirst == (|Listed(At(metas, conn), sub.channel)| == 1)
      ensures turn == old(turn) + [Registry(conn, OpAdd(sub), true)]
      ensures isFirst ==> forall x: Sub | x != sub && x.channel == sub.channel :: !old(ListedOn(metas, conn, x))
    {
      before := At(metas, conn);
      AddGrows(metas, conn, sub);
      Operate(conn, OpAdd(sub), true);
      ops := Interfere(conn);
      assert ListedOn(metas, conn, sub);
      var existing := Listed(At(metas, conn), sub.channel);
      isFirst := |existing| == 1;
      AloneAtLook(old(metas), metas, sub, conn);
    }

    /** What follows the second look. */
    method Decide(sub: Sub, conn: Conn, isFirstOnNewPubSub: bool, expires: bool)
      returns (ghost e: Entry, ghost later: seq<Op>)
      requires Books() && ListedOn(metas, conn, sub)
      modifies this
      ensures Books() && Grown(old(metas), metas) && log == old(log) + [e]
      ensures e == if !isFirstOnNewPubSub then Joined(sub, conn)
                   else if old(expired) || expires then Late(sub, conn) else Spawned(sub, conn)
      ensures Reaches(old(At(metas, conn)), later, At(metas, conn)) && NoRemoval(later)
      ensures turn == [] && done == old(done) + [old(turn) + Settling(sub, conn, e)]
      ensures e.Joined? ==> sub in states && states[sub] == Active
      ensures expired == (old(expired) || (isFirstOnNewPubSub && expires))
      ensures e.Spawned? ==>
                && OpSetPending(sub) in later
                && sub.channel in At(metas, conn).pending && At(metas, conn).pending[sub.channel] == sub
    {
      later := [];
      if !isFirstOnNewPubSub {
        e := Joined(sub, conn);
        SetState(sub, Active);
        Count(Joined(sub, conn));
        return;
      }
      var gone := Look(expires);
      if gone {
        e := Late(sub, conn);
        assert turn == old(turn) + Settling(sub, conn, e);
        Count(Late(sub, conn));
      } else {
        e := Spawned(sub, conn);
        later := Spawn(sub, conn);
      }
    }

    /** The first on the new connection: it is made pending, and its goroutine is started. */
    method Spawn(sub: Sub, conn: Conn) returns (ghost later: seq<Op>)
      requires Books() && ListedOn(metas, conn, sub)
      modifies this
      ensures Books() && log == old(log) + [Spawned(sub, conn)] && expired == old(expired)
      ensures turn == [] && done == old(done) + [old(turn) + Settling(sub, conn, Spawned(sub, conn))]
      ensures Grown(old(metas), metas)
      ensures Reaches(old(At(metas, conn)), later, At(metas, conn)) && NoRemoval(later) && OpSetPending(sub) in later
      ensures sub.channel in At(metas, conn).pending && At(metas, conn).pending[sub.channel] == sub
    {
      later := MakePending(sub, conn);
      Launch(sub, conn);
    }

    method MakePending(sub: Sub, conn: Conn) returns (ghost later: seq<Op>)
      requires Books() && ListedOn(metas, conn, sub)
      modifies this`metas, this`home, this`states, this`processed, this`flying, this`fates, this`events, this`turn
      ensures Books() && turn == old(turn) + Settling(sub, conn, Spawned(sub, conn))
      ensures Grown(old(metas), metas)
      ensures Reaches(old(At(metas, conn)), later, At(metas, conn)) && NoRemoval(later) && OpSetPending(sub) in later
      ensures sub.channel in At(metas, conn).pending && At(metas, conn).pending[sub.channel] == sub
    {
      Reset(sub);
      SetState(sub, Pending);
      later := Interfere(conn);
      assert ListedOn(metas, conn, sub);
      later := Use(conn, OpSetPending(sub), true, conn, old(At(metas, conn)), later);
      assert turn == old(turn) + Settling(sub, conn, Spawned(sub, conn));
    }

    /** wg.Add(1) and go */
    method Launch(sub: Sub, conn: Conn)
      requires Books()
      modifies this`flying, this`log, this`done, this`turn
      ensures Books() && log == old(log) + [Spawned(sub, conn)] && done == old(done) + [old(turn)] && turn == []
    {
      flying := flying + {|log|};
      log := log + [Spawned(sub, conn)];
      done, turn := done + [turn], [];
    }

    /** Counts a group that cannot be moved. */
    method SkipGroup(group: seq<Sub>)
      requires Books()
      modifies this`processed, this`log, this`done
      ensures Books() && log == old(log) + Skips(group) && done == old(done) + Nothing(|group|)
    {
      processed := processed + |group|;
      log := log + Skips(group);
      done := done + Nothing(|group|);
    }

    /** Moves the subscriptions of one group, in order, to the connection found for it. */
    method MoveGroup(group: seq<Sub>, g: Group, conn: Conn, envs: nat -> SubEnv)
      returns (ghost mine: seq<Entry>, ghost ours: seq<seq<Event>>)
      requires Books() && turn == [] && forall s | s in group :: GroupOf(s) == g
      modifies this
      ensures Books() && turn == [] && log == old(log) + mine && done == old(done) + ours && |mine| == |group|
      ensures GroupRun(old(metas), metas, mine, group, conn) && MovedTo(mine, ours, conn, envs, expired)
      ensures (old(expired) ==> expired) && (expired ==> old(expired) || exists i: nat :: envs(i).expires)
    {
      mine, ours := [], [];
      for i := 0 to |group|
        invariant Books() && turn == [] && log == old(log) + mine && |mine| == i && done == old(done) + ours
        invariant GroupRun(old(metas), metas, mine, group, conn)
        invariant MovedTo(mine, ours, conn, envs, expired)
        invariant (old(expired) ==> expired) && (expired ==> old(expired) || exists i: nat :: envs(i).expires)
      {
        mine, ours := MoveNext(old(metas), old(log), old(done), mine, ours, group, g, conn, envs, i);
      }
    }

    /** One turn of that loop. */
    method MoveNext(ghost metas0: map<Conn, Reg>, ghost log0: seq<Entry>, ghost done0: seq<seq<Event>>,
                    ghost mine: seq<Entry>, ghost ours: seq<seq<Event>>, group: seq<Sub>, g: Group, conn: Conn,
                    envs: nat -> SubEnv, i: nat)
      returns (ghost mine': seq<Entry>, ghost ours': seq<seq<Event>>)
      requires Books() && turn == [] && log == log0 + mine && done == done0 + ours && i == |mine| < |group|
      requires forall s | s in group :: GroupOf(s) == g
      requires GroupRun(metas0, metas, mine, group, conn) && MovedTo(mine, ours, conn, envs, expired)
      modifies this
      ensures Books() && turn == [] && log == log0 + mine' && done == done0 + ours' && |mine'| == i + 1
      ensures GroupRun(metas0, metas, mine', group, conn) && MovedTo(mine', ours', conn, envs, expired)
      ensures (old(expired) ==> expired) && (expired ==> old(expired) || envs(i).expires)
    {
      ghost var before, gone := metas, expired;
      ghost var e, _ := ResubscribeOne(group[i], conn, envs(i));
      ghost var d := Doing(group[i], conn, envs(i), e);
      mine', ours' := mine + [e], ours + [d];
      GroupNext(metas0, before, metas, mine, e, group, g, conn);
      MovedNext(mine, ours, e, d, conn, envs, gone, expired);
    }

    /** Handles one group; early says that the context expired during the connection attempt. The group is skipped
        exactly when the context has expired at the first check or no connection is got, and moved otherwise. */
    method ResubscribeGroup(group: seq<Sub>, g: Group, env: GroupEnv) returns (early: bool)
      requires Books() && turn == [] && forall s | s in group :: GroupOf(s) == g
      modifies this
      ensures Books() && turn == []
      ensures Handled(old(metas), metas, old(log), log, old(done), done, group, env, old(expired) || env.expires,
                      expired)
      ensures early == (!(old(expired) || env.expires) && GivesUp(env))
      ensures (old(expired) || env.expires ==> expired) && (early ==> expired)
      ensures Unhurried(env) && !early ==> expired == old(expired)
    {
      var _ := Interfere(0);
      ghost var metas1 := metas;
      var gone := Look(env.expires);
      if gone {
        HandledBySkip(old(metas), metas, log, done, group, env, true, expired);
        SkipGroup(group);
        return false;
      }
      early := ConnectAndMove(group, g, env);
      HandledAfter(old(metas), metas1, metas, old(log), log, old(done), done, group, env, false, expired);
    }

    /** The part that begins with getPubSubForHashslot. */
    method ConnectAndMove(group: seq<Sub>, g: Group, env: GroupEnv) returns (early: bool)
      requires Books() && turn == [] && !expired && forall s | s in group :: GroupOf(s) == g
      modifies this
      ensures Books() && turn == []
      ensures Handled(old(metas), metas, old(log), log, old(done), done, group, env, false, expired)
      ensures early == GivesUp(env) && (early ==> expired)
      ensures Unhurried(env) && !early ==> !expired
    {
      var _ := Interfere(0);
      ghost var metas1 := metas;
      if env.conn.None? {
        early := Look(env.expiresConnecting);
        HandledBySkip(old(metas), metas, log, done, group, env, false, expired);
        SkipGroup(group);
        return;
      }
      ghost var mine, ours := MoveGroup(group, g, env.conn.value, env.subs);
      HandledByMove(old(metas), metas1, metas, old(log), mine, old(done), ours, group, env, expired);
      early := false;
    }

    /** resubscribeOnNewNode: each subscription is accounted for at most once, and exactly once unless
        the loop returned early; a group of distinct subscriptions gets at most one subscribe command; what becomes
        of each is what its group's connection and the context allow, and the loop does for it that and nothing
        else. The loop returns early at a group for which the context expires while no connection is got; when
        it expires in no other way, exactly if there is such a group. */
    method ResubscribeOnNewNode(subs: seq<Sub>, env: Group -> GroupEnv) returns (early: bool)
      requires Books() && log == [] && turn == []
      modifies this
      ensures Books()
      ensures multiset(Subs(log)) <= multiset(subs)
      ensures !early ==> multiset(Subs(log)) == multiset(subs)
      ensures early ==> expired && EndsGivingUp(log, env)
      ensures Distinct(subs) ==> OnePerGroup(log) && Placements(metas, log)
      ensures turn == [] && Explained(log, done, env, expired)
      ensures !old(expired) && (forall g: Group :: Unhurried(env(g))) ==>
                early == expired == exists s :: s in subs && GivesUp(env(GroupOf(s)))
    {
      var groups := GroupSubs(subs);
      var todo := groups.Keys;
      ghost var handled: set<Group> := {};
      ProgressStart(metas, subs);
      while todo != {}
        invariant handled !! todo && forall g | g in groups :: g in handled || g in todo
        invariant todo <= groups.Keys
        invariant Books()
        invariant Progress(metas, log, subs, handled)
        invariant turn == [] && Explained(log, done, env, expired)
        invariant !old(expired) && (forall g: Group :: Unhurried(env(g))) ==>
                    !expired && forall g | g in handled :: !GivesUp(env(g))
      {
        var g :| g in todo;
        early := Turn(groups[g], g, subs, handled, env);
        todo, handled := todo - {g}, handled + {g};
        ProgressBounds(metas, log, subs, handled);
        if early {
          return;
        }
      }
      ProgressBounds(metas, log, subs, handled);
      return false;
    }

    /** One turn of that loop. */
    method Turn(group: seq<Sub>, g: Group, ghost subs: seq<Sub>, ghost handled: set<Group>, env: Group -> GroupEnv)
      returns (early: bool)
      requires Books() && Progress(metas, log, subs, handled) && g !in handled && group == Keep(subs, {g}) != []
      requires turn == [] && Explained(log, done, env, expired)
      modifies this
      ensures Books() && Progress(metas, log, subs, handled + {g})
      ensures turn == [] && Explained(log, done, env, expired)
      ensures early == (!(old(expired) || env(g).expires) && GivesUp(env(g)))
      ensures early ==> expired && EndsGivingUp(log, env) && exists s :: s in subs && GivesUp(env(GroupOf(s)))
      ensures Unhurried(env(g)) && !early ==> expired == old(expired)
    {
      ghost var log0, done0, metas0, gone := log, done, metas, expired;
      KeepPart(subs, {g});
      early := ResubscribeGroup(group, g, env(g));
      TurnNext(metas0, metas, log0, log, done0, done, subs, handled, g, env, gone, gone || env(g).expires, expired);
      if early {
        TurnGivesUp(metas0, metas, log0, log, done0, done, subs, g, env, gone || env(g).expires, expired);
      }
    }

    /** wg.Wait: the goroutines still running end, each counting itself. */
    method Wait()
      requires Books()
      modifies this
      ensures Books() && flying == {} && log == old(log) && expired == old(expired) && done == old(done)
    {
      while flying != {}
        invariant Books() && log == old(log) && expired == old(expired) && done == old(done)
        decreases |flying|
      {
        var g :| g in flying;
        var fate: Fate := *;
        var _ := EndGoroutine(g, fate, 0, At(metas, 0), []);
      }
    }

    /** The whole migration: unless the context expired while connecting, the counter ends at the number
        of subscriptions; otherwise it does not exceed it. Every goroutine started has met exactly one fate,
        so for distinct subscriptions at most one command is written for each group. When every group gets a
        connection, every connection keeps its metadata, and the context does not expire, every subscription is
        moved: it has joined or has its command sent. */
    method Migrate(subs: seq<Sub>, env: Group -> GroupEnv) returns (early: bool)
      requires Books() && log == [] && turn == []
      modifies this
      ensures flying == {} && processed <= |subs| && (!early ==> processed == |subs|)
      ensures early ==> expired
      ensures forall i: nat | i < |log| :: log[i].Spawned? <==> i in fates
      ensures Distinct(subs) ==> OnePerGroup(log)
      ensures Explained(log, done, env, expired)
      ensures !old(expired) && (forall g: Group :: Unhurried(env(g)) && Welcoming(env(g))) ==>
                && !early && multiset(Subs(log)) == multiset(subs)
                && forall e | e in log :: (e.Joined? || e.Spawned?) && Some(e.conn) == env(GroupOf(e.sub)).conn
    {
      early := ResubscribeOnNewNode(subs, env);
      assert multiset(subs) == multiset(Subs(log)) + (multiset(subs) - multiset(Subs(log)));
      assert |Subs(log)| <= |subs|;
      if !old(expired) && forall g: Group :: Unhurried(env(g)) && Welcoming(env(g)) {
        AllMoved(log, done, env);
      }
      Wait();
    }
  }
}
