/** unsubscribeSubscription (submux.go): the subscriptions of one Sub leave the global map and the
    registries of their connections, and the last listener of a channel has UNSUBSCRIBE sent. */
module Unsubscribe {
  import opened Common
  import opened Seqs
  import opened Registry

  type Error = Option<nat>

  // ----- Lists -----

  /** The entries of s that are not in out, in order. */
  function Others(s: seq<Sub>, out: set<Sub>): seq<Sub> {
    if s == [] then []
    else
      var n := |s| - 1;
      Others(s[..n], out) + if s[n] in out then [] else [s[n]]
  }

  lemma {:induction false} OthersHas(s: seq<Sub>, out: set<Sub>)
    ensures forall x :: x in Others(s, out) <==> x in s && x !in out
    ensures |Others(s, out)| <= |s|
  {
    if s == [] {
    } else {
      var n := |s| - 1;
      OthersHas(s[..n], out);
      assert s == s[..n] + [s[n]];
    }
  }

  lemma {:induction false} WithoutSnoc(s: seq<Sub>, last: Sub, x: Sub)
    requires x !in s
    ensures Without(s + [last], x) == s + if last == x then [] else [last]
  {
    if s == [] {
      assert Without([last][1..], x) == [];
    } else {
      assert (s + [last])[1..] == s[1..] + [last];
      WithoutSnoc(s[1..], last, x);
    }
  }

  lemma {:induction false} WithoutInFront(s: seq<Sub>, last: Sub, x: Sub)
    requires x in s
    ensures Without(s + [last], x) == Without(s, x) + [last]
  {
    assert (s + [last])[1..] == s[1..] + [last];
    if s[0] != x {
      WithoutInFront(s[1..], last, x);
    }
  }

  /** Without repetition, taking entries out one by one leaves the others. */
  lemma {:induction false} OthersOneMore(s: seq<Sub>, out: set<Sub>, x: Sub)
    requires Distinct(s)
    ensures Without(Others(s, out), x) == Others(s, out + {x})
  {
    if s == [] {
    } else {
      var n := |s| - 1;
      var init, last := s[..n], s[n];
      OthersOneMore(init, out, x);
      OthersHas(init, out);
      if last in out {
        assert Others(s, out) == Others(init, out) && Others(s, out + {x}) == Others(init, out + {x});
      } else {
        if x in Others(init, out) {
          WithoutInFront(Others(init, out), last, x);
          assert last != x;
        } else {
          WithoutSnoc(Others(init, out), last, x);
          WithoutAbsent(Others(init, out), x);
        }
      }
    }
  }

  lemma {:induction false} OthersNone(s: seq<Sub>)
    ensures Others(s, {}) == s
  {
    if s == [] {
    } else {
      OthersNone(s[..|s| - 1]);
      assert s == s[..|s| - 1] + [s[|s| - 1]];
    }
  }

  function OfChannel(subs: seq<Sub>, ch: string): seq<Sub> {
    if subs == [] then []
    else
      var n := |subs| - 1;
      OfChannel(subs[..n], ch) + if subs[n].channel == ch then [subs[n]] else []
  }

  lemma {:induction false} OfChannelHas(subs: seq<Sub>, ch: string)
    ensures forall x :: x in OfChannel(subs, ch) <==> x in subs && x.channel == ch
  {
    if subs == [] {
    } else {
      var n := |subs| - 1;
      OfChannelHas(subs[..n], ch);
      assert subs == subs[..n] + [subs[n]];
    }
  }

  function SetOf(s: seq<Sub>): set<Sub> {
    set x | x in s
  }

  // ----- Cleaning a registry -----

  function RemoveAll(r: Reg, out: seq<Sub>): Reg {
    if out == [] then r else Remove(RemoveAll(r, out[..|out| - 1]), out[|out| - 1])
  }

  function PendingOf(r: Reg, ch: string): Option<Sub> {
    if ch in r.pending then Some(r.pending[ch]) else None
  }

  /** It clears a pending entry that is one of them, and no other. */
  lemma {:induction false} RemoveAllPending(r: Reg, out: seq<Sub>, ch: string)
    requires forall x | x in out :: x.channel == ch
    ensures PendingOf(RemoveAll(r, out), ch) == Unless(PendingOf(r, ch), out)
    ensures forall d | d != ch :: PendingOf(RemoveAll(r, out), d) == PendingOf(r, d)
  {
    if out == [] {
    } else {
      var n := |out| - 1;
      assert out == out[..n] + [out[n]];
      RemoveAllPending(r, out[..n], ch);
    }
  }

  function Unless(w: Option<Sub>, out: seq<Sub>): Option<Sub> {
    if w.Some? && w.value in out then None else w
  }

  lemma {:induction false} RemoveAllCorrect(r: Reg, out: seq<Sub>, ch: string)
    requires RegInv(r) && forall x | x in out :: x.channel == ch
    ensures RegInv(RemoveAll(r, out))
    ensures Listed(RemoveAll(r, out), ch) == Others(Listed(r, ch), SetOf(out))
    ensures forall d | d != ch :: Listed(RemoveAll(r, out), d) == Listed(r, d)
  {
    if out == [] {
      assert SetOf(out) == {};
      OthersNone(Listed(r, ch));
    } else {
      var n := |out| - 1;
      var init, x := out[..n], out[n];
      assert out == init + [x];
      RemoveAllCorrect(r, init, ch);
      RegStep(RemoveAll(r, init), OpRemove(x));
      OthersOneMore(Listed(r, ch), SetOf(init), x);
      assert SetOf(out) == SetOf(init) + {x};
      WithoutOrAbsent(RemoveAll(r, init), x);
    }
  }

  lemma WithoutOrAbsent(r: Reg, x: Sub)
    ensures Listed(Remove(r, x), x.channel) == Without(Listed(r, x.channel), x)
    ensures forall d | d != x.channel :: Listed(Remove(r, x), d) == Listed(r, d)
  {
    if x !in Listed(r, x.channel) {
      WithoutAbsent(Listed(r, x.channel), x);
    }
  }

  // ----- What is to happen -----

  /** The connection of s, while the pool has its metadata. */
  function MetaOf(metas: map<Conn, Reg>, home: map<Sub, Conn>, s: Sub): Option<Conn> {
    if s in home && home[s] in metas then Some(home[s]) else None
  }

  /** Nobody but subs listens to the channel of s on the connection of s. */
  predicate IsLast(metas: map<Conn, Reg>, home: map<Sub, Conn>, subs: seq<Sub>, s: Sub) {
    var c := MetaOf(metas, home, s);
    c.Some? && forall x | x in Listed(metas[c.value], s.channel) :: x in subs
  }

  predicate AnyLast(metas: map<Conn, Reg>, home: map<Sub, Conn>, subs: seq<Sub>, ch: string) {
    AnyLastOf(metas, home, subs, subs, ch)
  }

  predicate AnyLastOf(metas: map<Conn, Reg>, home: map<Sub, Conn>, subs: seq<Sub>, part: seq<Sub>, ch: string) {
    exists s | s in part :: s.channel == ch && IsLast(metas, home, subs, s)
  }

  ghost predicate Due(channels: set<string>, metas: map<Conn, Reg>, home: map<Sub, Conn>, subs: seq<Sub>) {
    forall ch: string :: ch in channels <==> AnyLast(metas, home, subs, ch)
  }

  ghost predicate DueOf(channels: set<string>, metas: map<Conn, Reg>, home: map<Sub, Conn>, subs: seq<Sub>,
                        part: seq<Sub>) {
    forall ch: string :: ch in channels <==> AnyLastOf(metas, home, subs, part, ch)
  }

  /** The connection that is told about ch: that of the first of the subscriptions to it. */
  function Told(metas: map<Conn, Reg>, home: map<Sub, Conn>, subs: seq<Sub>, ch: string): Option<Conn> {
    var own := OfChannel(subs, ch);
    if own == [] then None else MetaOf(metas, home, own[0])
  }

  /** An UNSUBSCRIBE command, and the error of sendCommand if it failed. */
  datatype Send = Send(conn: Conn, channel: string, subType: SubType, err: Error)

  /** For the channels in handled, UNSUBSCRIBE has been tried once where it is due, and nowhere else. */
  ghost predicate SentFor(sends: seq<Send>, metas: map<Conn, Reg>, home: map<Sub, Conn>, subs: seq<Sub>,
                          handled: set<string>) {
    && (forall i, j | 0 <= i < j < |sends| :: sends[i].channel != sends[j].channel)
    && (forall x | x in sends ::
          && x.channel in handled && Told(metas, home, subs, x.channel) == Some(x.conn)
          && AnyLast(metas, home, subs, x.channel) && x.subType == OfChannel(subs, x.channel)[0].subType)
    && (forall ch | ch in handled && Told(metas, home, subs, ch).Some? && AnyLast(metas, home, subs, ch) ::
          Tried(sends, ch))
  }

  ghost predicate Tried(sends: seq<Send>, ch: string) {
    exists x | x in sends :: x.channel == ch
  }

  /** The list of ch on c once the channels in cleaned have been dealt with. */
  function ListAfter(metas: map<Conn, Reg>, home: map<Sub, Conn>, subs: seq<Sub>, cleaned: set<string>, c: Conn,
                     ch: string): seq<Sub> {
    if ch in cleaned && Told(metas, home, subs, ch) == Some(c) then
      Others(Listed(At(metas, c), ch), SetOf(OfChannel(subs, ch)))
    else Listed(At(metas, c), ch)
  }

  /** And the pending entry. */
  function PendingAfter(metas: map<Conn, Reg>, home: map<Sub, Conn>, subs: seq<Sub>, cleaned: set<string>, c: Conn,
                        ch: string): Option<Sub> {
    if ch in cleaned && Told(metas, home, subs, ch) == Some(c) then
      Unless(PendingOf(At(metas, c), ch), OfChannel(subs, ch))
    else PendingOf(At(metas, c), ch)
  }

  ghost predicate Sound(metas: map<Conn, Reg>) {
    forall c | c in metas :: RegInv(metas[c])
  }

  ghost predicate Cleaned(metas: map<Conn, Reg>, metas': map<Conn, Reg>, home: map<Sub, Conn>, subs: seq<Sub>,
                          cleaned: set<string>) {
    && metas'.Keys == metas.Keys && Sound(metas')
    && (forall c: Conn, ch: string :: Listed(At(metas', c), ch) == ListAfter(metas, home, subs, cleaned, c, ch))
    && PendingCleaned(metas, metas', home, subs, cleaned)
  }

  ghost predicate PendingCleaned(metas: map<Conn, Reg>, metas': map<Conn, Reg>, home: map<Sub, Conn>, subs: seq<Sub>,
                                 cleaned: set<string>) {
    forall c: Conn, ch: string :: PendingOf(At(metas', c), ch) == PendingAfter(metas, home, subs, cleaned, c, ch)
  }

  lemma PendingNext(metas: map<Conn, Reg>, metas': map<Conn, Reg>, home: map<Sub, Conn>, subs: seq<Sub>,
                    cleaned: set<string>, ch: string, c: Conn)
    requires PendingCleaned(metas, metas', home, subs, cleaned) && ch !in cleaned && c in metas'
    requires Told(metas, home, subs, ch) == Some(c)
    ensures PendingCleaned(metas, metas'[c := RemoveAll(metas'[c], OfChannel(subs, ch))], home, subs, cleaned + {ch})
  {
    OfChannelHas(subs, ch);
    RemoveAllPending(metas'[c], OfChannel(subs, ch), ch);
    var metas2 := metas'[c := RemoveAll(metas'[c], OfChannel(subs, ch))];
    forall d: Conn, k: string
      ensures PendingOf(At(metas2, d), k) == PendingAfter(metas, home, subs, cleaned + {ch}, d, k)
    {
      assert PendingOf(At(metas', d), k) == PendingAfter(metas, home, subs, cleaned, d, k);
    }
  }

  lemma CleanNext(metas: map<Conn, Reg>, metas': map<Conn, Reg>, home: map<Sub, Conn>, subs: seq<Sub>,
                  cleaned: set<string>, ch: string, c: Conn)
    requires Cleaned(metas, metas', home, subs, cleaned) && ch !in cleaned && Told(metas, home, subs, ch) == Some(c)
    ensures c in metas'
    ensures Cleaned(metas, metas'[c := RemoveAll(metas'[c], OfChannel(subs, ch))], home, subs, cleaned + {ch})
  {
    OfChannelHas(subs, ch);
    RemoveAllCorrect(metas'[c], OfChannel(subs, ch), ch);
    PendingNext(metas, metas', home, subs, cleaned, ch, c);
    var r := RemoveAll(metas'[c], OfChannel(subs, ch));
    forall d: Conn, k: string
      ensures Listed(At(metas'[c := r], d), k) == ListAfter(metas, home, subs, cleaned + {ch}, d, k)
    {
      CleanNextAt(metas, metas', home, subs, cleaned, ch, c, r, d, k);
    }
  }

  lemma CleanNextAt(metas: map<Conn, Reg>, metas': map<Conn, Reg>, home: map<Sub, Conn>, subs: seq<Sub>,
                    cleaned: set<string>, ch: string, c: Conn, r: Reg, d: Conn, k: string)
    requires ch !in cleaned && Told(metas, home, subs, ch) == Some(c) && c in metas'
    requires Listed(At(metas', d), k) == ListAfter(metas, home, subs, cleaned, d, k)
    requires Listed(r, ch) == Others(Listed(metas'[c], ch), SetOf(OfChannel(subs, ch)))
    requires k != ch ==> Listed(r, k) == Listed(metas'[c], k)
    ensures Listed(At(metas'[c := r], d), k) == ListAfter(metas, home, subs, cleaned + {ch}, d, k)
  {
  }

  lemma CleanNone(metas: map<Conn, Reg>, metas': map<Conn, Reg>, home: map<Sub, Conn>, subs: seq<Sub>,
                  cleaned: set<string>, ch: string)
    requires Cleaned(metas, metas', home, subs, cleaned) && Told(metas, home, subs, ch).None?
    ensures Cleaned(metas, metas', home, subs, cleaned + {ch})
  {
    forall c: Conn, k: string
      ensures Listed(At(metas', c), k) == ListAfter(metas, home, subs, cleaned + {ch}, c, k)
    {
      assert Listed(At(metas', c), k) == ListAfter(metas, home, subs, cleaned, c, k);
    }
    forall c: Conn, k: string
      ensures PendingOf(At(metas', c), k) == PendingAfter(metas, home, subs, cleaned + {ch}, c, k)
    {
      assert PendingOf(At(metas', c), k) == PendingAfter(metas, home, subs, cleaned, c, k);
    }
  }

  ghost predicate ByChannel(groups: map<string, seq<Sub>>, subs: seq<Sub>) {
    && (forall ch: string :: OfChannel(subs, ch) == if ch in groups then groups[ch] else [])
    && (forall ch | ch in groups :: groups[ch] != [])
  }

  function Grouped(groups: map<string, seq<Sub>>, s: Sub): map<string, seq<Sub>> {
    groups[s.channel := (if s.channel in groups then groups[s.channel] else []) + [s]]
  }

  lemma ByChannelSnoc(groups: map<string, seq<Sub>>, subs: seq<Sub>, s: Sub)
    requires ByChannel(groups, subs)
    ensures ByChannel(Grouped(groups, s), subs + [s])
  {
    assert (subs + [s])[..|subs|] == subs;
  }

  /** A command that was sent and whose response is awaited. */
  datatype PendingUnsub = PendingUnsub(conn: Conn, channel: string, subs: seq<Sub>)

  /** The channels of handled are cleaned or wait for a response, and not both. */
  ghost predicate Awaited(pending: seq<PendingUnsub>, metas: map<Conn, Reg>, home: map<Sub, Conn>, subs: seq<Sub>,
                          cleaned: set<string>, handled: set<string>) {
    && cleaned <= handled
    && (forall i, j | 0 <= i < j < |pending| :: pending[i].channel != pending[j].channel)
    && (forall p | p in pending ::
          && p.channel in handled && p.channel !in cleaned
          && Told(metas, home, subs, p.channel) == Some(p.conn) && p.subs == OfChannel(subs, p.channel))
    && (forall ch | ch in handled && ch !in cleaned :: Waits(pending, ch))
  }

  ghost predicate Waits(pending: seq<PendingUnsub>, ch: string) {
    exists p | p in pending :: p.channel == ch
  }

  /** How one channel is dealt with before any response is awaited. */
  datatype Step =
    | NoMeta
    | Quiet                                  // no command due, cleaned
    | Refused(send: Send)                    // sendCommand failed, cleaned
    | Queued(send: Send, wait: PendingUnsub)

  function Sends(step: Step): seq<Send> {
    if step.Refused? || step.Queued? then [step.send] else []
  }

  /** The step that is right for ch. */
  ghost predicate Fits(step: Step, metas: map<Conn, Reg>, home: map<Sub, Conn>, subs: seq<Sub>, ch: string) {
    var c := Told(metas, home, subs, ch);
    match step
    case NoMeta => c.None?
    case Quiet => c.Some? && !AnyLast(metas, home, subs, ch)
    case Refused(x) =>
      c.Some? && AnyLast(metas, home, subs, ch) && x.err.Some?
        && x == Send(c.value, ch, OfChannel(subs, ch)[0].subType, x.err)
    case Queued(x, p) =>
      c.Some? && AnyLast(metas, home, subs, ch) && x == Send(c.value, ch, OfChannel(subs, ch)[0].subType, None)
      && p == PendingUnsub(c.value, ch, OfChannel(subs, ch))
  }

  lemma SentNext(sends: seq<Send>, metas: map<Conn, Reg>, home: map<Sub, Conn>, subs: seq<Sub>, handled: set<string>,
                 step: Step, ch: string)
    requires SentFor(sends, metas, home, subs, handled) && ch !in handled && Fits(step, metas, home, subs, ch)
    ensures SentFor(sends + Sends(step), metas, home, subs, handled + {ch})
  {
    var sends' := sends + Sends(step);
    forall k | k in handled + {ch} && Told(metas, home, subs, k).Some? && AnyLast(metas, home, subs, k)
      ensures Tried(sends', k)
    {
      if k == ch {
        assert step.send in sends';
      } else {
        var x :| x in sends && x.channel == k;
        assert x in sends';
      }
    }
  }

  lemma AwaitNext(pending: seq<PendingUnsub>, metas: map<Conn, Reg>, home: map<Sub, Conn>, subs: seq<Sub>,
                  cleaned: set<string>, handled: set<string>, step: Step, ch: string)
    requires Awaited(pending, metas, home, subs, cleaned, handled) && ch !in handled
             && Fits(step, metas, home, subs, ch)
    ensures step.Queued? ==> Awaited(pending + [step.wait], metas, home, subs, cleaned, handled + {ch})
    ensures !step.Queued? ==> Awaited(pending, metas, home, subs, cleaned + {ch}, handled + {ch})
  {
    if step.Queued? {
      var pending' := pending + [step.wait];
      forall k | k in handled + {ch} && k !in cleaned
        ensures Waits(pending', k)
      {
        if k == ch {
          assert step.wait in pending';
        } else {
          var p :| p in pending && p.channel == k;
          assert p in pending';
        }
      }
    }
  }

  /** The first error that is not nil. */
  function FirstErr(errs: seq<Error>): Error {
    if errs == [] then None
    else
      var first := FirstErr(errs[..|errs| - 1]);
      if first.Some? then first else errs[|errs| - 1]
  }

  lemma FirstErrSnoc(errs: seq<Error>, err: Error)
    ensures FirstErr(errs + [err]) == if FirstErr(errs).Some? then FirstErr(errs) else err
  {
    assert (errs + [err])[..|errs|] == errs;
  }

  function SendErrs(sends: seq<Send>): seq<Error> {
    seq(|sends|, i requires 0 <= i < |sends| => sends[i].err)
  }

  // ----- What the connections answer -----

  const ERR_CLOSED: Error := Some(0)
  const ERR_LOOP_STOPPED: Error := Some(1)
  const ERR_CONTEXT: Error := Some(2)

  /** How a wait for a response ends: with the response, or with the event loop or the caller's context gone, when
      the response may still have arrived. */
  datatype Wait = Answered(err: Error) | LoopGone(late: Option<Error>) | ContextDone(late: Option<Error>)

  function WaitErr(w: Wait): Error {
    match w
    case Answered(err) => err
    case LoopGone(late) => if late.Some? then late.value else ERR_LOOP_STOPPED
    case ContextDone(late) => if late.Some? then late.value else ERR_CONTEXT
  }

  /** The response that arrived, if one did. */
  function Response(w: Wait): Option<Error> {
    if w.Answered? then Some(w.err) else w.late
  }

  /** What becomes of the command for one channel: the error of sendCommand and, if it has none, the wait. */
  datatype ChannelEnv = ChannelEnv(refused: Error, wait: Wait)

  predicate AsFound(sends: seq<Send>, env: string -> ChannelEnv) {
    forall x | x in sends :: x.err == env(x.channel).refused
  }

  /** The channels whose command was taken. */
  function Accepted(sends: seq<Send>): seq<string> {
    if sends == [] then []
    else
      var last := sends[|sends| - 1];
      Accepted(sends[..|sends| - 1]) + if last.err.None? then [last.channel] else []
  }

  function Replies(channels: seq<string>, env: string -> ChannelEnv): (r: seq<Error>)
    ensures |r| == |channels| && forall i | 0 <= i < |r| :: r[i] == WaitErr(env(channels[i]).wait)
  {
    seq(|channels|, i requires 0 <= i < |channels| => WaitErr(env(channels[i]).wait))
  }

  function Names(pending: seq<PendingUnsub>): (r: seq<string>)
    ensures |r| == |pending| && forall i | 0 <= i < |r| :: r[i] == pending[i].channel
  {
    seq(|pending|, i requires 0 <= i < |pending| => pending[i].channel)
  }

  lemma {:induction false} AcceptedHas(sends: seq<Send>)
    ensures forall ch :: ch in Accepted(sends) <==> exists x | x in sends :: x.channel == ch && x.err.None?
  {
    if sends == [] {
    } else {
      var n := |sends| - 1;
      AcceptedHas(sends[..n]);
      assert sends == sends[..n] + [sends[n]];
    }
  }

  lemma AcceptedSnoc(sends: seq<Send>, x: Send)
    ensures Accepted(sends + [x]) == Accepted(sends) + if x.err.None? then [x.channel] else []
  {
    assert (sends + [x])[..|sends|] == sends;
  }

  lemma NamesSnoc(pending: seq<PendingUnsub>, p: PendingUnsub)
    ensures Names(pending + [p]) == Names(pending) + [p.channel]
  {
  }

  lemma AcceptedNext(sends: seq<Send>, pending: seq<PendingUnsub>, step: Step)
    requires Names(pending) == Accepted(sends)
    requires step.Refused? ==> step.send.err.Some?
    requires step.Queued? ==> step.send.err.None? && step.wait.channel == step.send.channel
    ensures Names(pending + Waiting(step)) == Accepted(sends + Sends(step))
  {
    match step
    case Queued(x, p) =>
      AcceptedSnoc(sends, x);
      NamesSnoc(pending, p);
    case Refused(x) =>
      AcceptedSnoc(sends, x);
      assert Accepted(sends) + [] == Accepted(sends) && pending + [] == pending;
    case _ =>
      assert sends + [] == sends && pending + [] == pending;
  }

  lemma {:induction false} FirstErrNone(errs: seq<Error>)
    ensures FirstErr(errs).None? <==> forall e | e in errs :: e.None?
  {
    if errs == [] {
    } else {
      var n := |errs| - 1;
      FirstErrNone(errs[..n]);
      assert errs == errs[..n] + [errs[n]];
    }
  }

  lemma NoRefusal(sends: seq<Send>, env: string -> ChannelEnv)
    requires AsFound(sends, env)
    ensures FirstErr(SendErrs(sends)).None? <==> forall x | x in sends :: env(x.channel).refused.None?
  {
    FirstErrNone(SendErrs(sends));
    forall x | x in sends
      ensures env(x.channel).refused in SendErrs(sends)
    {
      var i :| 0 <= i < |sends| && sends[i] == x;
      assert SendErrs(sends)[i] == x.err;
    }
  }

  lemma NoErrorReply(channels: seq<string>, env: string -> ChannelEnv)
    ensures FirstErr(Replies(channels, env)).None? <==>
              forall ch | ch in channels :: Response(env(ch).wait) == Some(None)
  {
    FirstErrNone(Replies(channels, env));
    forall ch | ch in channels
      ensures WaitErr(env(ch).wait) in Replies(channels, env)
    {
      var i :| 0 <= i < |channels| && channels[i] == ch;
      assert Replies(channels, env)[i] == WaitErr(env(ch).wait);
    }
  }

  /** The command for ch is taken, and answered without an error. */
  predicate Succeeds(env: ChannelEnv) {
    env.refused.None? && Response(env.wait) == Some(None)
  }

  /** The call reports no error exactly when every command that is due is taken and answered without one. */
  lemma NoErrorIff(metas: map<Conn, Reg>, home: map<Sub, Conn>, subs: seq<Sub>, sends: seq<Send>, handled: set<string>,
                   env: string -> ChannelEnv)
    requires SentFor(sends, metas, home, subs, handled) && AsFound(sends, env)
    ensures FirstErr(SendErrs(sends) + Replies(Accepted(sends), env)).None? <==>
              forall ch | ch in handled && Told(metas, home, subs, ch).Some? && AnyLast(metas, home, subs, ch) ::
                Succeeds(env(ch))
  {
    FirstErrOf(sends, env);
    forall ch | ch in handled && Told(metas, home, subs, ch).Some? && AnyLast(metas, home, subs, ch)
      ensures exists x | x in sends :: x.channel == ch
    {
      assert Tried(sends, ch);
    }
  }

  lemma FirstErrOf(sends: seq<Send>, env: string -> ChannelEnv)
    requires AsFound(sends, env)
    ensures FirstErr(SendErrs(sends) + Replies(Accepted(sends), env)).None? <==>
              forall x | x in sends :: Succeeds(env(x.channel))
  {
    FirstErrConcat(SendErrs(sends), Replies(Accepted(sends), env));
    NoRefusal(sends, env);
    NoErrorReply(Accepted(sends), env);
    AcceptedHas(sends);
  }

  lemma FirstErrNext(sends: seq<Send>, step: Step)
    requires step.Queued? ==> step.send.err.None?
    ensures FirstErr(SendErrs(sends + Sends(step))) ==
              if FirstErr(SendErrs(sends)).None? && step.Refused? then step.send.err else FirstErr(SendErrs(sends))
  {
    var sends' := sends + Sends(step);
    if Sends(step) == [] {
      assert sends' == sends;
    } else {
      assert SendErrs(sends') == SendErrs(sends) + [step.send.err];
      FirstErrSnoc(SendErrs(sends), step.send.err);
    }
  }

  /** The subscriptions marked closed: those whose channel has a connection to tell. */
  ghost function ClosedBy(metas: map<Conn, Reg>, home: map<Sub, Conn>, subs: seq<Sub>, handled: set<string>): set<Sub> {
    set s | s in subs && s.channel in handled && Told(metas, home, subs, s.channel).Some?
  }

  lemma ClosedNext(metas: map<Conn, Reg>, home: map<Sub, Conn>, subs: seq<Sub>, handled: set<string>, ch: string)
    ensures ClosedBy(metas, home, subs, handled + {ch}) ==
              ClosedBy(metas, home, subs, handled)
              + if Told(metas, home, subs, ch).Some? then SetOf(OfChannel(subs, ch)) else {}
  {
    OfChannelHas(subs, ch);
  }

  /** Phase 1 so far: the channels in handled have been dealt with. */
  ghost predicate Queueing(metas: map<Conn, Reg>, home: map<Sub, Conn>, subs: seq<Sub>, handled: set<string>,
                           metas': map<Conn, Reg>, cleaned: set<string>, sends: seq<Send>, pending: seq<PendingUnsub>) {
    && Cleaned(metas, metas', home, subs, cleaned)
    && SentFor(sends, metas, home, subs, handled)
    && Awaited(pending, metas, home, subs, cleaned, handled)
    && Names(pending) == Accepted(sends)
  }

  function Waiting(step: Step): seq<PendingUnsub> {
    if step.Queued? then [step.wait] else []
  }

  /** What phase 1 does with one channel, whose first subscription is on c. */
  ghost predicate StepFrom(step: Step, c: Option<Conn>, ch: string, own: seq<Sub>, due: bool,
                           metas: map<Conn, Reg>, metas': map<Conn, Reg>)
    requires own != []
  {
    match step
    case NoMeta => c.None? && metas' == metas
    case Quiet => c.Some? && !due && CleanedOne(metas, metas', c.value, own)
    case Refused(x) =>
      c.Some? && due && x.err.Some? && x == Send(c.value, ch, own[0].subType, x.err)
        && CleanedOne(metas, metas', c.value, own)
    case Queued(x, p) =>
      c.Some? && due && x == Send(c.value, ch, own[0].subType, None) && p == PendingUnsub(c.value, ch, own)
        && metas' == metas
  }

  ghost predicate CleanedOne(metas: map<Conn, Reg>, metas': map<Conn, Reg>, c: Conn, own: seq<Sub>) {
    c in metas && metas' == metas[c := RemoveAll(metas[c], own)]
  }

  lemma QueueNext(metas: map<Conn, Reg>, home: map<Sub, Conn>, subs: seq<Sub>, handled: set<string>,
                  metas': map<Conn, Reg>, cleaned: set<string>, sends: seq<Send>, pending: seq<PendingUnsub>,
                  ch: string, step: Step, metas2: map<Conn, Reg>)
    requires Queueing(metas, home, subs, handled, metas', cleaned, sends, pending)
    requires ch !in handled && OfChannel(subs, ch) != []
    requires StepFrom(step, MetaOf(metas', home, OfChannel(subs, ch)[0]), ch, OfChannel(subs, ch),
                      AnyLast(metas, home, subs, ch), metas', metas2)
    ensures step.NoMeta? <==> Told(metas, home, subs, ch).None?
    ensures step.Queued? ==> step.send.err.None?
    ensures Queueing(metas, home, subs, handled + {ch}, metas2, if step.Queued? then cleaned else cleaned + {ch},
                     sends + Sends(step), pending + Waiting(step))
  {
    assert MetaOf(metas', home, OfChannel(subs, ch)[0]) == Told(metas, home, subs, ch);
    assert Fits(step, metas, home, subs, ch);
    SentNext(sends, metas, home, subs, handled, step, ch);
    AwaitNext(pending, metas, home, subs, cleaned, handled, step, ch);
    AcceptedNext(sends, pending, step);
    if step.NoMeta? {
      CleanNone(metas, metas', home, subs, cleaned, ch);
    } else if !step.Queued? {
      CleanNext(metas, metas', home, subs, cleaned, ch, Told(metas, home, subs, ch).value);
    }
    if !step.Queued? {
      assert pending + [] == pending;
    }
  }

  /** What the call found. */
  datatype Before = Before(metas: map<Conn, Reg>, closedSubs: set<Sub>)

  /** Phase 1 when the channels in handled have been dealt with. */
  ghost predicate PhaseOne(start: Before, subs: seq<Sub>, handled: set<string>,
                           metas: map<Conn, Reg>, home: map<Sub, Conn>, closedSubs: set<Sub>,
                           cleaned: set<string>, sends: seq<Send>, pending: seq<PendingUnsub>, firstErr: Error) {
    && Queueing(start.metas, home, subs, handled, metas, cleaned, sends, pending)
    && firstErr == FirstErr(SendErrs(sends))
    && closedSubs == start.closedSubs + ClosedBy(start.metas, home, subs, handled)
  }

  function CleanedBy(cleaned: set<string>, step: Step, ch: string): set<string> {
    if step.Queued? then cleaned else cleaned + {ch}
  }

  lemma PhaseOneNext(start: Before, subs: seq<Sub>, handled: set<string>,
                     metas: map<Conn, Reg>, home: map<Sub, Conn>, closedSubs: set<Sub>,
                     cleaned: set<string>, sends: seq<Send>, pending: seq<PendingUnsub>,
                     ch: string, step: Step, metas': map<Conn, Reg>)
    requires Queueing(start.metas, home, subs, handled, metas, cleaned, sends, pending)
    requires closedSubs == start.closedSubs + ClosedBy(start.metas, home, subs, handled)
    requires ch !in handled && OfChannel(subs, ch) != []
    requires StepFrom(step, MetaOf(metas, home, OfChannel(subs, ch)[0]), ch, OfChannel(subs, ch),
                      AnyLast(start.metas, home, subs, ch), metas, metas')
    ensures Queueing(start.metas, home, subs, handled + {ch}, metas', CleanedBy(cleaned, step, ch),
                     sends + Sends(step), pending + Waiting(step))
    ensures closedSubs + (if step.NoMeta? then {} else SetOf(OfChannel(subs, ch)))
         == start.closedSubs + ClosedBy(start.metas, home, subs, handled + {ch})
    ensures step.Queued? ==> step.send.err.None?
  {
    QueueNext(start.metas, home, subs, handled, metas, cleaned, sends, pending, ch, step, metas');
    ClosedNext(start.metas, home, subs, handled, ch);
  }

  lemma PhaseOneStart(start: Before, subs: seq<Sub>, home: map<Sub, Conn>)
    requires Sound(start.metas)
    ensures PhaseOne(start, subs, {}, start.metas, home, start.closedSubs, {}, [], [], None)
  {
  }

  function Channels(subs: seq<Sub>): set<string> {
    set s | s in subs :: s.channel
  }

  /** Every channel of subs has had its command, if one is due, and the registries told are cleaned. */
  ghost predicate AllTold(metas: map<Conn, Reg>, metas': map<Conn, Reg>, home: map<Sub, Conn>, subs: seq<Sub>,
                          sends: seq<Send>) {
    && SentFor(sends, metas, home, subs, Channels(subs))
    && Cleaned(metas, metas', home, subs, Channels(subs))
  }

  lemma AllChannels(groups: map<string, seq<Sub>>, subs: seq<Sub>)
    requires ByChannel(groups, subs)
    ensures groups.Keys == Channels(subs)
  {
    forall ch: string
      ensures ch in groups <==> ch in Channels(subs)
    {
      OfChannelHas(subs, ch);
      var own := OfChannel(subs, ch);
      if own != [] {
        assert own[0] in own;
      }
      if ch in Channels(subs) {
        var s :| s in subs && s.channel == ch;
        assert s in own;
      }
    }
  }

  /** The first error of the commands and of the waits, in the order of the commands; it is nil exactly when every
      command due is taken and answered without an error. */
  ghost predicate Reports(err: Error, sends: seq<Send>, metas: map<Conn, Reg>, home: map<Sub, Conn>, subs: seq<Sub>,
                          env: string -> ChannelEnv) {
    && AsFound(sends, env) && err == FirstErr(SendErrs(sends) + Replies(Accepted(sends), env))
    && (err.None? <==> forall ch | ch in Channels(subs) && Told(metas, home, subs, ch).Some?
                                   && AnyLast(metas, home, subs, ch) :: Succeeds(env(ch)))
  }

  // ----- When the command is right -----

  /** The list of the connection that is told ends up empty exactly when nobody else listened there. */
  lemma SilentIffLast(metas: map<Conn, Reg>, home: map<Sub, Conn>, subs: seq<Sub>, ch: string, c: Conn)
    requires Sound(metas) && Told(metas, home, subs, ch) == Some(c)
    ensures ListAfter(metas, home, subs, {ch}, c, ch) == [] <==> IsLast(metas, home, subs, OfChannel(subs, ch)[0])
  {
    var own, list := OfChannel(subs, ch), Listed(metas[c], ch);
    OfChannelHas(subs, ch);
    assert own[0] in own;
    OthersHas(list, SetOf(own));
    var rest := Others(list, SetOf(own));
    if rest != [] {
      assert rest[0] in rest;
    }
    forall x | x in list
      ensures x in rest <==> x !in subs
    {
      assert x.channel == ch;
    }
  }

  /** UNSUBSCRIBE goes out exactly when the connection it goes to has no listener left, if and only if it
      is not the case that somebody else listens there while one of these subscriptions is the last
      on another connection. */
  lemma CommandIsRight(metas: map<Conn, Reg>, home: map<Sub, Conn>, subs: seq<Sub>, ch: string, c: Conn)
    requires Sound(metas) && Told(metas, home, subs, ch) == Some(c)
    ensures (AnyLast(metas, home, subs, ch) <==> ListAfter(metas, home, subs, {ch}, c, ch) == [])
            <==> !((exists x | x in Listed(metas[c], ch) :: x !in subs)
                   && (exists s | s in subs ::
                         s.channel == ch && MetaOf(metas, home, s) != Some(c) && IsLast(metas, home, subs, s)))
  {
    var first := OfChannel(subs, ch)[0];
    OfChannelHas(subs, ch);
    assert first in OfChannel(subs, ch);
    SilentIffLast(metas, home, subs, ch, c);
    assert IsLast(metas, home, subs, first) <==> forall x | x in Listed(metas[c], ch) :: x in subs;
    forall s | s in subs && s.channel == ch && MetaOf(metas, home, s) == Some(c)
      ensures IsLast(metas, home, subs, s) <==> IsLast(metas, home, subs, first)
    {
    }
  }

  lemma Listing(ch: string, list: seq<Sub>)
    requires list != [] && Distinct(list) && forall s | s in list :: s.channel == ch
    ensures RegInv(Reg(map[ch := list], map[])) && Listed(Reg(map[ch := list], map[]), ch) == list
  {
  }

  lemma OfChannelTwo(ch: string, a: Sub, b: Sub)
    requires a.channel == ch && b.channel == ch
    ensures OfChannel([a, b], ch) == [a, b]
  {
    assert [a, b][..1] == [a];
    assert OfChannel([a], ch) == [] + [a];
  }

  /** One Sub with two subscriptions to a channel, over two connections, and somebody else on the first. */
  lemma TwoConnections(ch: string, metas: map<Conn, Reg>, home: map<Sub, Conn>, mine: Sub, again: Sub, other: Sub)
    requires mine.channel == ch && again.channel == ch && mine != again && other != mine && other != again
    requires 0 in metas && 1 in metas && Sound(metas)
    requires mine in home && home[mine] == 0 && again in home && home[again] == 1
    requires Listed(metas[0], ch) == [mine, other] && Listed(metas[1], ch) == [again]
    ensures var subs := [mine, again];
            && Told(metas, home, subs, ch) == Some(0)
            && AnyLast(metas, home, subs, ch) && ListAfter(metas, home, subs, {ch}, 0, ch) != []
            && again in ListAfter(metas, home, subs, {ch}, 1, ch)
  {
    var subs := [mine, again];
    OfChannelTwo(ch, mine, again);
    assert IsLast(metas, home, subs, again) && again in subs;
    assert other in Listed(metas[0], ch) && other !in subs;
    SilentIffLast(metas, home, subs, ch, 0);
    LeftListed(metas, home, subs, {ch}, again, 1);
  }

  /** It does go wrong in such a case: the other listener's connection is unsubscribed, and the second
      subscription stays listed. */
  lemma CommandCanBeWrong(ch: string) returns (metas: map<Conn, Reg>, home: map<Sub, Conn>, subs: seq<Sub>)
    ensures Sound(metas) && Told(metas, home, subs, ch) == Some(0)
    ensures AnyLast(metas, home, subs, ch) && ListAfter(metas, home, subs, {ch}, 0, ch) != []
    ensures exists s | s in subs :: s in ListAfter(metas, home, subs, {ch}, 1, ch)
  {
    var mine, again, other := Sub(0, Subscribe, ch), Sub(1, Subscribe, ch), Sub(2, Subscribe, ch);
    Listing(ch, [mine, other]);
    Listing(ch, [again]);
    metas := map[0 := Reg(map[ch := [mine, other]], map[]), 1 := Reg(map[ch := [again]], map[])];
    home := map[mine := 0, again := 1];
    subs := [mine, again];
    TwoConnections(ch, metas, home, mine, again, other);
    assert again in subs;
  }

  /** What stays listed: a subscription leaves the connection that is told about its channel, and no
      other. */
  lemma LeftListed(metas: map<Conn, Reg>, home: map<Sub, Conn>, subs: seq<Sub>, cleaned: set<string>, s: Sub, c: Conn)
    requires s in subs && s.channel in cleaned
    ensures s in ListAfter(metas, home, subs, cleaned, c, s.channel)
            <==> s in Listed(At(metas, c), s.channel) && Told(metas, home, subs, s.channel) != Some(c)
  {
    OfChannelHas(subs, s.channel);
    OthersHas(Listed(At(metas, c), s.channel), SetOf(OfChannel(subs, s.channel)));
  }

  lemma {:induction false} FirstErrConcat(a: seq<Error>, b: seq<Error>)
    ensures FirstErr(a + b) == if FirstErr(a).Some? then FirstErr(a) else FirstErr(b)
    decreases |b|
  {
    if b == [] {
      assert a + b == a;
    } else {
      var n := |b| - 1;
      FirstErrConcat(a, b[..n]);
      assert a + b == (a + b[..n]) + [b[n]];
      FirstErrSnoc(a + b[..n], b[n]);
    }
  }

  // ----- The global map -----

  function InMap(m: map<string, seq<Sub>>, ch: string): seq<Sub> {
    if ch in m then m[ch] else []
  }

  function DropOwn(m: map<string, seq<Sub>>, ch: string, own: seq<Sub>): map<string, seq<Sub>> {
    var rest := Others(InMap(m, ch), SetOf(own));
    if ch !in m then m else if rest == [] then m - {ch} else m[ch := rest]
  }

  /** For the channels in handled, the others are left in their order, and no empty list. */
  ghost predicate Filtered(m: map<string, seq<Sub>>, m': map<string, seq<Sub>>, own: map<string, seq<Sub>>,
                           handled: set<string>) {
    && (forall ch: string ::
          InMap(m', ch) == if ch in handled && ch in own then Others(InMap(m, ch), SetOf(own[ch])) else InMap(m, ch))
    && (forall ch | ch in handled && ch in m' :: m'[ch] != [])
  }

  lemma FilterNext(m: map<string, seq<Sub>>, m': map<string, seq<Sub>>, own: map<string, seq<Sub>>,
                   handled: set<string>, ch: string)
    requires Filtered(m, m', own, handled) && ch !in handled && ch in own
    ensures Filtered(m, DropOwn(m', ch, own[ch]), own, handled + {ch})
  {
  }

  /** Every channel keeps the subscriptions that are not ours, in their order. */
  ghost predicate OthersLeft(m: map<string, seq<Sub>>, m': map<string, seq<Sub>>, subs: seq<Sub>) {
    forall ch: string :: InMap(m', ch) == Others(InMap(m, ch), SetOf(OfChannel(subs, ch)))
  }

  lemma FilteredOwn(m: map<string, seq<Sub>>, m': map<string, seq<Sub>>, own: map<string, seq<Sub>>, subs: seq<Sub>)
    requires Filtered(m, m', own, own.Keys) && ByChannel(own, subs)
    ensures OthersLeft(m, m', subs)
  {
    forall ch: string
      ensures InMap(m', ch) == Others(InMap(m, ch), SetOf(OfChannel(subs, ch)))
    {
      if ch !in own {
        assert SetOf(OfChannel(subs, ch)) == {};
        OthersNone(InMap(m, ch));
      }
    }
  }

  // ----- The code -----

  /** A Go slice of the global map: the first len entries of an array. */
  datatype Slice = Slice(arr: array<Sub>, len: nat)

  /** The filter in place: the entries not in toRemove move to the front, the rest becomes nil. */
  method Compact(arr: array<Sub>, len: nat, toRemove: set<Sub>, nil: Sub) returns (n: nat)
    requires len <= arr.Length
    modifies arr
    ensures n <= len && arr[..n] == Others(old(arr[..len]), toRemove)
    ensures forall i :: n <= i < len ==> arr[i] == nil
    ensures forall i :: len <= i < arr.Length ==> arr[i] == old(arr[i])
  {
    ghost var was := arr[..];
    n := 0;
    for i := 0 to len
      invariant n <= i && arr[..n] == Others(was[..i], toRemove)
      invariant forall k :: i <= k < arr.Length ==> arr[k] == was[k]
    {
      assert was[..i + 1][..i] == was[..i];
      if arr[i] !in toRemove {
        arr[n] := arr[i];
        n := n + 1;
      }
    }
    assert was[..len] == old(arr[..len]);
    ghost var kept := arr[..n];
    for i := n to len
      invariant arr[..n] == kept
      invariant forall k :: n <= k < i ==> arr[k] == nil
      invariant forall k :: len <= k < arr.Length ==> arr[k] == was[k]
    {
      arr[i] := nil;
    }
  }

  /** sm.subscriptions: the subscriptions by channel, of all connections. */
  class GlobalMap {
    var slices: map<string, Slice>
    const nil: Sub
    ghost var lists: map<string, seq<Sub>>   // what the slices hold
    ghost const arrays: set<array<Sub>>      // the arrays they may use

    /** A map over the given slices. */
    constructor (slices: map<string, Slice>, nil: Sub)
      requires forall ch | ch in slices :: slices[ch].len <= slices[ch].arr.Length
      requires forall c, d | c in slices && d in slices && c != d :: slices[c].arr != slices[d].arr
      ensures Valid() && lists.Keys == slices.Keys
      ensures forall ch | ch in slices :: lists[ch] == slices[ch].arr[..slices[ch].len]
    {
      this.slices, this.nil := slices, nil;
      lists := map ch | ch in slices :: slices[ch].arr[..slices[ch].len];
      arrays := set ch | ch in slices :: slices[ch].arr;
    }

    /** The slices are in the arrays, no two channels share one, and lists says what they hold. */
    ghost predicate Valid()
      reads this, arrays
    {
      && slices.Keys == lists.Keys
      && (forall ch | ch in slices ::
            slices[ch].arr in arrays && slices[ch].len <= slices[ch].arr.Length && Holds(slices[ch], lists[ch]))
      && (forall c, d | c in slices && d in slices && c != d :: slices[c].arr != slices[d].arr)
    }

    ghost predicate Holds(slice: Slice, list: seq<Sub>)
      requires slice.len <= slice.arr.Length
      reads slice.arr
    {
      slice.arr[..slice.len] == list
    }

    /** The body of the loop that removes from the global map, for one channel. */
    method RemoveChannel(ch: string, internalSubs: seq<Sub>)
      requires Valid()
      modifies this, arrays
      ensures Valid() && lists == DropOwn(old(lists), ch, internalSubs)
    {
      if ch !in slices {
        return;
      }
      var allSubs := slices[ch];
      var n := Compact(allSubs.arr, allSubs.len, SetOf(internalSubs), nil);
      Shorten(ch, n);
    }

    /** Valid, except for what the slice of ch holds. */
    ghost predicate ValidBut(ch: string)
      reads this, arrays
    {
      && slices.Keys == lists.Keys
      && (forall d | d in slices :: slices[d].arr in arrays && slices[d].len <= slices[d].arr.Length)
      && (forall d | d in slices && d != ch :: Holds(slices[d], lists[d]))
      && (forall c, d | c in slices && d in slices && c != d :: slices[c].arr != slices[d].arr)
    }

    /** Its end: the list of ch is the first n entries of its array, or gone. */
    method Shorten(ch: string, n: nat)
      requires ValidBut(ch) && ch in slices && n <= slices[ch].len
      modifies this
      ensures Valid()
      ensures lists == if n == 0 then old(lists) - {ch} else old(lists)[ch := old(slices[ch].arr[..n])]
    {
      if n == 0 {
        slices := slices - {ch};
        lists := lists - {ch};
      } else {
        lists := lists[ch := slices[ch].arr[..n]];
        slices := slices[ch := Slice(slices[ch].arr, n)];
      }
    }

    /** That loop, over the channels in any order. */
    method RemoveSubs(subsByChannel: map<string, seq<Sub>>)
      requires Valid()
      modifies this, arrays
      ensures Valid() && Filtered(old(lists), lists, subsByChannel, subsByChannel.Keys)
    {
      var todo := subsByChannel.Keys;
      ghost var handled: set<string> := {};
      while todo != {}
        invariant Valid()
        invariant handled + todo == subsByChannel.Keys && handled !! todo
        invariant Filtered(old(lists), lists, subsByChannel, handled)
      {
        var ch :| ch in todo;
        FilterNext(old(lists), lists, subsByChannel, handled, ch);
        RemoveChannel(ch, subsByChannel[ch]);
        todo, handled := todo - {ch}, handled + {ch};
      }
    }
  }

  class SubMux {
    var closed: bool
    const subscriptions: GlobalMap
    var metas: map<Conn, Reg>      // the registries of the connections the pool knows
    var home: map<Sub, Conn>       // the connection of each subscription
    var closedSubs: set<Sub>       // subscriptions in state closed

    constructor (subscriptions: GlobalMap, metas: map<Conn, Reg>, home: map<Sub, Conn>)
      ensures !closed && this.subscriptions == subscriptions && this.metas == metas && this.home == home
      ensures closedSubs == {}
    {
      this.subscriptions, this.metas, this.home := subscriptions, metas, home;
      closed, closedSubs := false, {};
    }

    /** How many of the listed subscriptions are not ours. */
    static method Remaining(allSubs: seq<Sub>, subs: seq<Sub>) returns (remainingCount: nat)
      ensures remainingCount == 0 <==> forall x | x in allSubs :: x in subs
    {
      remainingCount := 0;
      for i := 0 to |allSubs|
        invariant remainingCount == 0 <==> forall x | x in allSubs[..i] :: x in subs
      {
        assert allSubs[..i + 1] == allSubs[..i] + [allSubs[i]];
        if allSubs[i] !in subs {
          remainingCount := remainingCount + 1;
          assert allSubs[i] in allSubs[..i + 1];
        }
      }
      assert allSubs[..|allSubs|] == allSubs;
    }

    /** The first loop: who is to be told, and about which channels UNSUBSCRIBE is due. */
    method GroupAndCount(subs: seq<Sub>) returns (subsByChannel: map<string, seq<Sub>>, channelsToUnsub: set<string>)
      ensures ByChannel(subsByChannel, subs) && Due(channelsToUnsub, metas, home, subs)
    {
      subsByChannel, channelsToUnsub := map[], {};
      for i := 0 to |subs|
        invariant ByChannel(subsByChannel, subs[..i]) && DueOf(channelsToUnsub, metas, home, subs, subs[..i])
      {
        assert subs[..i + 1] == subs[..i] + [subs[i]];
        subsByChannel, channelsToUnsub := CountOne(subs[i], subs, subs[..i], subsByChannel, channelsToUnsub);
      }
      assert subs[..|subs|] == subs;
    }

    /** Its body. */
    method CountOne(s: Sub, subs: seq<Sub>, ghost part: seq<Sub>, groups: map<string, seq<Sub>>, channels: set<string>)
      returns (groups': map<string, seq<Sub>>, channels': set<string>)
      requires ByChannel(groups, part) && DueOf(channels, metas, home, subs, part)
      ensures ByChannel(groups', part + [s]) && DueOf(channels', metas, home, subs, part + [s])
    {
      ByChannelSnoc(groups, part, s);
      DueNext(channels, metas, home, subs, part, s);
      groups' := Grouped(groups, s);
      var last := LastListener(s, subs);
      channels' := if last then channels + {s.channel} else channels;
    }

    /** Whether the connection of s has metadata, and none but ours listed for the channel. */
    method LastListener(s: Sub, subs: seq<Sub>) returns (last: bool)
      ensures last == IsLast(metas, home, subs, s)
    {
      var meta := MetaOf(metas, home, s);
      if meta.None? {
        return false;
      }
      var remainingCount := Remaining(Listed(metas[meta.value], s.channel), subs);
      last := remainingCount == 0;
    }

    static lemma DueNext(channels: set<string>, metas: map<Conn, Reg>, home: map<Sub, Conn>, subs: seq<Sub>,
                         part: seq<Sub>, s: Sub)
      requires DueOf(channels, metas, home, subs, part)
      ensures DueOf(if IsLast(metas, home, subs, s) then channels + {s.channel} else channels,
                    metas, home, subs, part + [s])
    {
      AnyLastSnoc(metas, home, subs, part, s);
    }

    static lemma AnyLastSnoc(metas: map<Conn, Reg>, home: map<Sub, Conn>, subs: seq<Sub>, part: seq<Sub>, s: Sub)
      ensures forall ch :: AnyLastOf(metas, home, subs, part + [s], ch) <==>
                AnyLastOf(metas, home, subs, part, ch) || (s.channel == ch && IsLast(metas, home, subs, s))
    {
      forall ch
        ensures AnyLastOf(metas, home, subs, part + [s], ch) <==>
                  AnyLastOf(metas, home, subs, part, ch) || (s.channel == ch && IsLast(metas, home, subs, s))
      {
        if AnyLastOf(metas, home, subs, part, ch) {
          var x :| x in part && x.channel == ch && IsLast(metas, home, subs, x);
          assert x in part + [s];
        }
        assert s in part + [s];
      }
    }

    /** Cleans the registry of one connection. */
    method CleanMeta(c: Conn, internalSubs: seq<Sub>)
      requires c in metas
      modifies this`metas
      ensures metas == old(metas)[c := RemoveAll(old(metas)[c], internalSubs)]
    {
      for i := 0 to |internalSubs|
        invariant metas == old(metas)[c := RemoveAll(old(metas)[c], internalSubs[..i])]
      {
        assert internalSubs[..i + 1][..i] == internalSubs[..i];
        metas := metas[c := Remove(metas[c], internalSubs[i])];
      }
      assert internalSubs[..|internalSubs|] == internalSubs;
    }

    /** Phase 1 for one channel; due says that its last listener is among ours. */
    method QueueOne(ch: string, internalSubs: seq<Sub>, due: bool, env: ChannelEnv) returns (step: Step)
      requires internalSubs != []
      modifies this`metas, this`closedSubs
      ensures StepFrom(step, old(MetaOf(metas, home, internalSubs[0])), ch, internalSubs, due, old(metas), metas)
      ensures step.Refused? || step.Queued? ==> step.send.err == env.refused
      ensures closedSubs == old(closedSubs) + if step.NoMeta? then {} else SetOf(internalSubs)
    {
      var firstSub := internalSubs[0];
      var meta := MetaOf(metas, home, firstSub);
      if meta.None? {
        return NoMeta;
      }
      closedSubs := closedSubs + SetOf(internalSubs);
      step := Quiet;
      if due {
        var err := env.refused;
        if err.None? {
          return Queued(Send(meta.value, ch, firstSub.subType, None), PendingUnsub(meta.value, ch, internalSubs));
        }
        step := Refused(Send(meta.value, ch, firstSub.subType, err));
      }
      CleanMeta(meta.value, internalSubs);
    }

    /** The same, with what phase 1 carries along: the commands tried, those that wait for a response and the
        first error. */
    method QueueChannel(ghost start: Before, ghost subs: seq<Sub>, ghost handled: set<string>,
                        ghost cleaned: set<string>,
                        sends: seq<Send>, pending: seq<PendingUnsub>, firstErr: Error,
                        ch: string, internalSubs: seq<Sub>, due: bool, env: string -> ChannelEnv)
      returns (sends': seq<Send>, pending': seq<PendingUnsub>, firstErr': Error, ghost cleaned': set<string>)
      requires PhaseOne(start, subs, handled, metas, home, closedSubs, cleaned, sends, pending, firstErr)
      requires ch !in handled && internalSubs == OfChannel(subs, ch) && internalSubs != []
      requires due == AnyLast(start.metas, home, subs, ch) && AsFound(sends, env)
      modifies this`metas, this`closedSubs
      ensures AsFound(sends', env)
      ensures PhaseOne(start, subs, handled + {ch}, metas, home, closedSubs, cleaned', sends', pending', firstErr')
    {
      ghost var metas1, closed1 := metas, closedSubs;
      var step := QueueOne(ch, internalSubs, due, env(ch));
      PhaseOneNext(start, subs, handled, metas1, home, closed1, cleaned, sends, pending, ch, step, metas);
      FirstErrNext(sends, step);
      sends', pending', firstErr' := sends + Sends(step), pending + Waiting(step), firstErr;
      if step.Refused? && firstErr.None? {
        firstErr' := step.send.err;
      }
      cleaned' := CleanedBy(cleaned, step, ch);
    }

    /** Phase 1: commands are queued and subscriptions marked closed, channel by channel in any order. */
    method QueueCommands(ghost subs: seq<Sub>, subsByChannel: map<string, seq<Sub>>, channelsToUnsub: set<string>,
                         env: string -> ChannelEnv)
      returns (pending: seq<PendingUnsub>, sends: seq<Send>, firstErr: Error, ghost cleaned: set<string>)
      requires Sound(metas) && ByChannel(subsByChannel, subs)
      requires Due(channelsToUnsub, metas, home, subs)
      modifies this`metas, this`closedSubs
      ensures PhaseOne(Before(old(metas), old(closedSubs)), subs, subsByChannel.Keys,
                       metas, home, closedSubs, cleaned, sends, pending, firstErr)
      ensures AsFound(sends, env)
    {
      ghost var start := Before(metas, closedSubs);
      pending, sends, firstErr, cleaned := [], [], None, {};
      var todo := subsByChannel.Keys;
      ghost var handled: set<string> := {};
      PhaseOneStart(start, subs, home);
      while todo != {}
        invariant handled + todo == subsByChannel.Keys && handled !! todo
        invariant PhaseOne(start, subs, handled, metas, home, closedSubs, cleaned, sends, pending, firstErr)
        invariant AsFound(sends, env)
      {
        var ch :| ch in todo;
        assert subsByChannel[ch] == OfChannel(subs, ch);
        sends, pending, firstErr, cleaned :=
          QueueChannel(start, subs, handled, cleaned, sends, pending, firstErr,
                       ch, subsByChannel[ch], ch in channelsToUnsub, env);
        todo, handled := todo - {ch}, handled + {ch};
      }
    }

    /** The responses before the i-th have been awaited, and their channels cleaned. */
    static ghost predicate Awaiting(metas0: map<Conn, Reg>, metas: map<Conn, Reg>, home: map<Sub, Conn>, subs: seq<Sub>,
                                    cleaned: set<string>, all: set<string>, pending: seq<PendingUnsub>, i: nat) {
      && i <= |pending| && Cleaned(metas0, metas, home, subs, cleaned)
      && cleaned <= all && (forall ch | ch in all && ch !in cleaned :: Waits(pending[i..], ch))
      && (forall k | i <= k < |pending| :: pending[k].channel !in cleaned)
    }

    static lemma AwaitingNext(metas0: map<Conn, Reg>, metas: map<Conn, Reg>, home: map<Sub, Conn>, subs: seq<Sub>,
                              cleaned: set<string>, all: set<string>, pending: seq<PendingUnsub>, i: nat,
                              done: set<string>)
      requires Awaiting(metas0, metas, home, subs, cleaned, all, pending, i) && i < |pending|
      requires Awaited(pending, metas0, home, subs, done, all)
      ensures pending[i].conn in metas
      ensures var p := pending[i];
              Awaiting(metas0, metas[p.conn := RemoveAll(metas[p.conn], p.subs)], home, subs, cleaned + {p.channel},
                       all, pending, i + 1)
    {
      var p := pending[i];
      assert p in pending;
      CleanNext(metas0, metas, home, subs, cleaned, p.channel, p.conn);
      forall ch | ch in all && ch !in cleaned + {p.channel}
        ensures Waits(pending[i + 1..], ch)
      {
        var q :| q in pending[i..] && q.channel == ch;
        assert q in pending[i + 1..];
      }
    }

    /** Phases 2 and 3: each response is awaited, and then the registry cleaned, whatever it was. */
    method AwaitResponses(ghost metas0: map<Conn, Reg>, ghost subs: seq<Sub>, ghost done: set<string>,
                          ghost all: set<string>,
                          pending: seq<PendingUnsub>, err: Error, env: string -> ChannelEnv)
      returns (firstErr: Error)
      requires Cleaned(metas0, metas, home, subs, done) && Awaited(pending, metas0, home, subs, done, all)
      modifies this`metas
      ensures Cleaned(metas0, metas, home, subs, all)
      ensures firstErr == if err.Some? then err else FirstErr(Replies(Names(pending), env))
    {
      firstErr := err;
      ghost var cleaned := done;
      ghost var replies := Replies(Names(pending), env);
      for i := 0 to |pending|
        invariant firstErr == if err.Some? then err else FirstErr(replies[..i])
        invariant Awaiting(metas0, metas, home, subs, cleaned, all, pending, i)
      {
        var p := pending[i];
        var reply := WaitErr(env(p.channel).wait);
        FirstErrSnoc(replies[..i], reply);
        assert replies[..i + 1] == replies[..i] + [reply];
        if reply.Some? && firstErr.None? {
          firstErr := reply;
        }
        AwaitingNext(metas0, metas, home, subs, cleaned, all, pending, i, done);
        CleanMeta(p.conn, p.subs);
        cleaned := cleaned + {p.channel};
      }
      assert cleaned == all && replies[..|pending|] == replies;
    }

    /** All three phases. */
    method Tell(subs: seq<Sub>, subsByChannel: map<string, seq<Sub>>, channelsToUnsub: set<string>,
                env: string -> ChannelEnv)
      returns (err: Error, sends: seq<Send>)
      requires Sound(metas) && ByChannel(subsByChannel, subs)
      requires Due(channelsToUnsub, metas, home, subs)
      modifies this`metas, this`closedSubs
      ensures AllTold(old(metas), metas, home, subs, sends)
      ensures closedSubs == old(closedSubs) + ClosedBy(old(metas), home, subs, Channels(subs))
      ensures Reports(err, sends, old(metas), home, subs, env)
    {
      ghost var metas0 := metas;
      AllChannels(subsByChannel, subs);
      var pending, firstErr;
      ghost var cleaned;
      pending, sends, firstErr, cleaned := QueueCommands(subs, subsByChannel, channelsToUnsub, env);
      err := AwaitResponses(metas0, subs, cleaned, subsByChannel.Keys, pending, firstErr, env);
      FirstErrConcat(SendErrs(sends), Replies(Accepted(sends), env));
      NoErrorIff(metas0, home, subs, sends, Channels(subs), env);
    }

    /** unsubscribeSubscription, undisturbed; env is what the connections do with the commands. */
    method UnsubscribeSubscription(subs: seq<Sub>, env: string -> ChannelEnv) returns (err: Error, sends: seq<Send>)
      requires subscriptions.Valid() && Sound(metas)
      modifies this`metas, this`closedSubs, subscriptions, subscriptions.arrays
      ensures subscriptions.Valid()
      ensures subs == [] || closed ==>
                && err == (if subs == [] then None else ERR_CLOSED) && sends == []
                && metas == old(metas) && subscriptions.lists == old(subscriptions.lists)
                && closedSubs == old(closedSubs)
      ensures subs != [] && !closed ==>
                && OthersLeft(old(subscriptions.lists), subscriptions.lists, subs)
                && AllTold(old(metas), metas, home, subs, sends)
                && closedSubs == old(closedSubs) + ClosedBy(old(metas), home, subs, Channels(subs))
                && Reports(err, sends, old(metas), home, subs, env)
    {
      sends := [];
      if |subs| == 0 {
        return None, [];
      }
      if closed {
        return ERR_CLOSED, [];
      }
      var subsByChannel, channelsToUnsub := GroupAndCount(subs);
      subscriptions.RemoveSubs(subsByChannel);
      FilteredOwn(old(subscriptions.lists), subscriptions.lists, subsByChannel, subs);
      err, sends := Tell(subs, subsByChannel, channelsToUnsub, env);
    }
  }
}
