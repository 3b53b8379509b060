/** The subscription registry of one connection (pubSubMetadata in pool.go): which subscriptions listen
    to a channel, and which one's SUBSCRIBE is awaiting confirmation. */
module Registry {
  import opened Common
  import opened Seqs

  datatype SubType = Subscribe | PSubscribe | SSubscribe

  /** A *subscription: its identity, its type and its channel. The registry is keyed by channel alone. */
  datatype Sub = Sub(id: nat, subType: SubType, channel: string)

  // ----- Values -----

  datatype Reg = Reg(subs: map<string, seq<Sub>>, pending: map<string, Sub>)

  function Listed(r: Reg, channel: string): seq<Sub> {
    if channel in r.subs then r.subs[channel] else []
  }

  /** The registry of a connection; a connection without one has nothing listed. */
  function At(metas: map<Conn, Reg>, c: Conn): Reg {
    if c in metas then metas[c] else Reg(map[], map[])
  }

  /** addSubscription: a subscription already listed is not listed twice. */
  function Add(r: Reg, sub: Sub): Reg {
    if sub in Listed(r, sub.channel) then r
    else r.(subs := r.subs[sub.channel := Listed(r, sub.channel) + [sub]])
  }

  /** addSubscriptionAndCheckFirst, with its two answers. */
  function AddFirst(r: Reg, sub: Sub, ch: string): (Reg, bool, Option<Sub>) {
    var added := r.(subs := r.subs[ch := Listed(r, ch) + [sub]]);
    if ch in r.pending then (added, false, Some(r.pending[ch]))
    else if |Listed(r, ch)| + 1 == 1 then (added.(pending := r.pending[ch := sub]), true, None)
    else (added, false, None)
  }

  function Remove(r: Reg, sub: Sub): Reg {
    var ch := sub.channel;
    var rest := Without(Listed(r, ch), sub);
    Reg(if sub !in Listed(r, ch) then r.subs else if rest == [] then r.subs - {ch} else r.subs[ch := rest],
        if ch in r.pending && r.pending[ch] == sub then r.pending - {ch} else r.pending)
  }

  // ----- Every interleaving of operations -----

  datatype Op =
    | OpAdd(sub: Sub) | OpAddFirst(sub: Sub) | OpRemove(sub: Sub)
    | OpSetPending(sub: Sub) | OpDropPending(channel: string)

  /** What callers respect: a subscription is added while it is not listed, and made pending only while
      it is. addSubscription itself guards against repetition. */
  predicate Allowed(r: Reg, op: Op) {
    match op
    case OpAddFirst(sub) => sub !in Listed(r, sub.channel)
    case OpSetPending(sub) => sub in Listed(r, sub.channel)
    case _ => true
  }

  function Step(r: Reg, op: Op): Reg {
    match op
    case OpAdd(sub) => Add(r, sub)
    case OpAddFirst(sub) => AddFirst(r, sub, sub.channel).0
    case OpRemove(sub) => Remove(r, sub)
    case OpSetPending(sub) => r.(pending := r.pending[sub.channel := sub])
    case OpDropPending(channel) => r.(pending := r.pending - {channel})
  }

  ghost predicate RegInv(r: Reg) {
    && (forall ch | ch in r.subs ::
          r.subs[ch] != [] && Distinct(r.subs[ch]) && forall s | s in r.subs[ch] :: s.channel == ch)
    && (forall ch | ch in r.pending :: ch in r.subs && r.pending[ch] in r.subs[ch])
  }

  lemma RegStep(r: Reg, op: Op)
    requires RegInv(r) && Allowed(r, op)
    ensures RegInv(Step(r, op))
  {
    if op.OpRemove? {
      WithoutDistinct(Listed(r, op.sub.channel), op.sub);
    }
  }

  function After(r: Reg, ops: seq<Op>): Reg {
    if ops == [] then r else Step(After(r, ops[..|ops| - 1]), ops[|ops| - 1])
  }

  ghost predicate Reaches(r: Reg, ops: seq<Op>, r': Reg)
    decreases |ops|
  {
    if ops == [] then r == r'
    else Allowed(r, ops[0]) && Reaches(Step(r, ops[0]), ops[1..], r')
  }

  lemma {:induction false} RegRun(r: Reg, ops: seq<Op>, r': Reg)
    requires RegInv(r) && Reaches(r, ops, r')
    ensures RegInv(r')
    decreases |ops|
  {
    if ops == [] {
    } else {
      RegStep(r, ops[0]);
      RegRun(Step(r, ops[0]), ops[1..], r');
    }
  }

  lemma {:induction false} ReachesOneMore(r: Reg, ops: seq<Op>, r': Reg, op: Op)
    requires Reaches(r, ops, r') && Allowed(r', op)
    ensures Reaches(r, ops + [op], Step(r', op))
    decreases |ops|
  {
    if ops == [] {
      assert Reaches(Step(r', op), [op][1..], Step(r', op));
    } else {
      ReachesOneMore(Step(r, ops[0]), ops[1..], r', op);
      assert (ops + [op])[1..] == ops[1..] + [op];
    }
  }

  /** After any operations: a pending entry is a listed subscription of its channel; SUBSCRIBE is asked for
      exactly when the channel goes from no subscription to one, and the asker is then the pending one; and a
      caller is told to wait exactly when some subscription is pending, for that one. */
  lemma FirstSubscriberSubscribes(ops: seq<Op>, r: Reg, sub: Sub)
    requires Reaches(Reg(map[], map[]), ops, r) && Allowed(r, OpAddFirst(sub))
    ensures forall ch | ch in r.pending :: r.pending[ch] in Listed(r, ch) && r.pending[ch].channel == ch
    ensures var (r', needs, existing) := AddFirst(r, sub, sub.channel);
            && needs == (Listed(r, sub.channel) == [])
            && (needs ==> sub.channel in r'.pending && r'.pending[sub.channel] == sub)
            && existing == (if sub.channel in r.pending then Some(r.pending[sub.channel]) else None)
            && (existing.Some? ==> existing.value in Listed(r, sub.channel) && existing.value.channel == sub.channel)
            && Listed(r', sub.channel) == Listed(r, sub.channel) + [sub]
            && (!needs ==> r'.pending == r.pending)
  {
    RegRun(Reg(map[], map[]), ops, r);
  }

  /** What each operation does to a list: an addition appends, once; a removal takes one subscription out and
      leaves the others in order; nothing else changes a list. */
  lemma ListAfter(r: Reg, op: Op, ch: string)
    requires RegInv(r) && Allowed(r, op)
    ensures op.OpAdd? && op.sub.channel == ch ==>
              Listed(Step(r, op), ch) == if op.sub in Listed(r, ch) then Listed(r, ch) else Listed(r, ch) + [op.sub]
    ensures op.OpAddFirst? && op.sub.channel == ch ==> Listed(Step(r, op), ch) == Listed(r, ch) + [op.sub]
    ensures op.OpRemove? && op.sub.channel == ch ==>
              && op.sub !in Listed(Step(r, op), ch)
              && forall i | 0 <= i < |Listed(r, ch)| && Listed(r, ch)[i] == op.sub ::
                   Listed(Step(r, op), ch) == Listed(r, ch)[..i] + Listed(r, ch)[i + 1..]
    ensures op.OpRemove? && op.sub !in Listed(r, ch) ==> Listed(Step(r, op), ch) == Listed(r, ch)
    ensures op.OpSetPending? || op.OpDropPending? || op.sub.channel != ch ==> Listed(Step(r, op), ch) == Listed(r, ch)
  {
    if op.OpRemove? && op.sub.channel == ch {
      WithoutDistinct(Listed(r, ch), op.sub);
      forall i | 0 <= i < |Listed(r, ch)| && Listed(r, ch)[i] == op.sub
        ensures Listed(Step(r, op), ch) == Listed(r, ch)[..i] + Listed(r, ch)[i + 1..]
      {
        WithoutAt(Listed(r, ch), op.sub, i);
      }
    }
  }

  /** What each operation does to the pending entries: the first subscriber and a migration set theirs, a removal
      clears the entry of the subscription removed and no other. */
  lemma PendingAfter(r: Reg, op: Op, ch: string)
    requires RegInv(r) && Allowed(r, op)
    ensures var r' := Step(r, op);
            if (op.OpSetPending? || (op.OpAddFirst? && Listed(r, ch) == [])) && op.sub.channel == ch
            then ch in r'.pending && r'.pending[ch] == op.sub
            else if (op.OpDropPending? && op.channel == ch)
                    || (op.OpRemove? && ch in r.pending && r.pending[ch] == op.sub)
            then ch !in r'.pending
            else (ch in r'.pending <==> ch in r.pending) && (ch in r.pending ==> r'.pending[ch] == r.pending[ch])
  {
  }

  // ----- The code, with copy-on-write lists -----

  class PubSubMetadata {
    var subscriptions: map<string, array<Sub>>
    var pendingSubscriptions: map<string, Sub>

    ghost function Slices(): set<array<Sub>>
      reads this
    {
      set ch | ch in subscriptions :: subscriptions[ch]
    }

    ghost function Value(): Reg
      reads this, Slices()
    {
      Reg(map ch | ch in subscriptions :: subscriptions[ch][..], pendingSubscriptions)
    }

    constructor ()
      ensures Value() == Reg(map[], map[])
    {
      subscriptions, pendingSubscriptions := map[], map[];
    }

    /** The shared list of a channel. No method of the class has an array in its frame, so a list once
        returned never changes. */
    method GetSubscriptions(channel: string) returns (subs: array?<Sub>)
      ensures subs == null <==> channel !in subscriptions
      ensures subs != null ==> subs in Slices() && subs[..] == Listed(Value(), channel)
    {
      if channel in subscriptions {
        subs := subscriptions[channel];
      } else {
        subs := null;
      }
    }

    /** A new list with sub at the end replaces the old one. */
    method Append(channel: string, sub: Sub) returns (newLen: nat)
      modifies this`subscriptions
      ensures Value() == old(Value()).(subs := old(Value()).subs[channel := old(Listed(Value(), channel)) + [sub]])
      ensures newLen == old(|Listed(Value(), channel)|) + 1
    {
      ghost var before := Value();
      var newSubs := CopyWith(if channel in subscriptions then subscriptions[channel] else null, sub);
      subscriptions := subscriptions[channel := newSubs];
      newLen := newSubs.Length;
      assert Value().subs == before.subs[channel := newSubs[..]];
    }

    static method CopyWith(a: array?<Sub>, sub: Sub) returns (b: array<Sub>)
      ensures fresh(b) && b[..] == (if a == null then [] else a[..]) + [sub]
    {
      var n := if a == null then 0 else a.Length;
      b := new Sub[n + 1](_ => sub);
      if a != null {
        forall i | 0 <= i < n {
          b[i] := a[i];
        }
      }
    }

    method AddSubscription(sub: Sub)
      modifies this`subscriptions
      ensures Value() == Add(old(Value()), sub)
    {
      if sub.channel in subscriptions {
        var old_ := subscriptions[sub.channel];
        var i := 0;
        while i < old_.Length
          invariant 0 <= i <= old_.Length && sub !in old_[..i]
        {
          if old_[i] == sub {
            assert sub in old_[..];
            return;
          }
          i := i + 1;
        }
        assert old_[..i] == old_[..];
      }
      var _ := Append(sub.channel, sub);
    }

    method AddSubscriptionAndCheckFirst(sub: Sub, channel: string)
      returns (needsSubscribe: bool, existingPending: Option<Sub>)
      modifies this
      ensures (Value(), needsSubscribe, existingPending) == AddFirst(old(Value()), sub, channel)
    {
      var n := Append(channel, sub);
      if channel in pendingSubscriptions {
        return false, Some(pendingSubscriptions[channel]);
      }
      if n == 1 {
        ghost var added := Value();
        pendingSubscriptions := pendingSubscriptions[channel := sub];
        assert Value().subs == added.subs;
        return true, None;
      }
      return false, None;
    }

    method RemoveSubscription(sub: Sub)
      modifies this
      ensures Value() == Remove(old(Value()), sub)
    {
      Unlist(sub);
      ghost var unlisted := Value();
      if sub.channel in pendingSubscriptions && pendingSubscriptions[sub.channel] == sub {
        pendingSubscriptions := pendingSubscriptions - {sub.channel};
      }
      assert Value().subs == unlisted.subs;
    }

    /** The list part of removeSubscription. */
    method Unlist(sub: Sub)
      modifies this`subscriptions
      ensures Value() == old(Value()).(subs := Remove(old(Value()), sub).subs)
    {
      ghost var before := Value();
      ghost var was := Listed(before, sub.channel);
      if sub.channel in subscriptions {
        var old_ := subscriptions[sub.channel];
        var idx := 0;
        while idx < old_.Length && old_[idx] != sub
          invariant 0 <= idx <= old_.Length && sub !in old_[..idx]
        {
          idx := idx + 1;
        }
        assert was == old_[..];
        if idx < old_.Length {
          var newSubs := CopyWithout(old_, idx);
          WithoutAt(was, sub, idx);
          assert newSubs[..] == Without(was, sub);
          if newSubs.Length == 0 {
            subscriptions := subscriptions - {sub.channel};
          } else {
            subscriptions := subscriptions[sub.channel := newSubs];
            assert Value().subs == before.subs[sub.channel := newSubs[..]];
          }
        } else {
          assert old_[..idx] == old_[..];
        }
      }
    }

    static method CopyWithout(a: array<Sub>, idx: nat) returns (b: array<Sub>)
      requires idx < a.Length
      ensures fresh(b) && b[..] == a[..idx] + a[idx + 1..]
    {
      var first := a[0];
      b := new Sub[a.Length - 1](_ => first);
      forall i | 0 <= i < idx {
        b[i] := a[i];
      }
      forall i | idx <= i < a.Length - 1 {
        b[i] := a[i + 1];
      }
    }

    method AddPendingSubscription(sub: Sub)
      modifies this`pendingSubscriptions
      ensures Value() == Step(old(Value()), OpSetPending(sub))
    {
      pendingSubscriptions := pendingSubscriptions[sub.channel := sub];
    }

    method RemovePendingSubscription(channel: string)
      modifies this`pendingSubscriptions
      ensures Value() == Step(old(Value()), OpDropPending(channel))
    {
      pendingSubscriptions := pendingSubscriptions - {channel};
    }

    method Perform(op: Op)
      modifies this
      ensures Value() == Step(old(Value()), op)
    {
      match op
      case OpAdd(sub) => AddSubscription(sub);
      case OpAddFirst(sub) => var _, _ := AddSubscriptionAndCheckFirst(sub, sub.channel);
      case OpRemove(sub) => RemoveSubscription(sub);
      case OpSetPending(sub) => AddPendingSubscription(sub);
      case OpDropPending(channel) => RemovePendingSubscription(channel);
    }

    /** Whatever is done to the registry, a list once returned stays what it was. */
    method ShareThenPerform(channel: string, ops: seq<Op>) returns (subs: array?<Sub>)
      modifies this
      ensures Value() == After(old(Value()), ops)
      ensures subs == null <==> old(channel !in subscriptions)
      ensures subs != null ==> subs[..] == old(Listed(Value(), channel))
    {
      subs := GetSubscriptions(channel);
      for i := 0 to |ops|
        invariant Value() == After(old(Value()), ops[..i])
      {
        assert ops[..i + 1][..i] == ops[..i];
        Perform(ops[i]);
      }
      assert ops[..|ops|] == ops;
    }
  }
}
