/** The per-subscription callback sequencer (sequencer.go): its two critical sections as functions
    on values, the history they leave behind, and the class that performs them on a real ring. */
module Sequencer {
  import opened Common
  import opened Ring

  datatype Message = Message(channel: string, payload: string)

  /** What the mutex of a sequencer protects, with the ring seen as a sequence. */
  datatype Sequencer = Sequencer(limit: int, queue: seq<Message>, active: bool, overflowing: bool, dropCount: nat)

  /** What the caller of enqueue still has to do after releasing the mutex. */
  datatype Outcome =
    | Dropped(signal: Option<nat>)   // DroppedCount of the overflow signal, if one is sent
    | Queued                         // a drain is already on its way
    | StartDrain                     // this caller now carries the drain token

  function NewSequencer(limit: int): Sequencer {
    Sequencer(limit, [], false, false, 0)
  }

  predicate Full(q: Sequencer) {
    q.limit > 0 && |q.queue| >= q.limit
  }

  function EnqueueLocked(q: Sequencer, m: Message): (Sequencer, Outcome) {
    if Full(q) then
      (q.(overflowing := true, dropCount := q.dropCount + 1),
       Dropped(if q.overflowing then None else Some(q.dropCount + 1)))
    else
      (q.(queue := q.queue + [m], active := true, overflowing := false,
          dropCount := if q.overflowing then 0 else q.dropCount),
       if q.active then Queued else StartDrain)
  }

  function DrainLocked(q: Sequencer): (Sequencer, Option<Message>) {
    if q.queue == [] then (q.(active := false), None)
    else (q.(queue := q.queue[1..]), Some(q.queue[0]))
  }

  // ----- Histories -----

  /** One enqueue call: the message, the queue depth recorded on entry, and whether it was kept. */
  datatype Offer = Offer(msg: Message, depth: nat, kept: bool)

  datatype History = History(offers: seq<Offer>, accepted: seq<Message>, delivered: seq<Message>, signals: seq<nat>)

  const NO_HISTORY := History([], [], [], [])

  function RecordEnqueue(h: History, q: Sequencer, m: Message): History {
    var o := Offer(m, |q.queue|, !Full(q));
    match EnqueueLocked(q, m).1
    case Dropped(Some(n)) => h.(offers := h.offers + [o], signals := h.signals + [n])
    case Dropped(None) => h.(offers := h.offers + [o])
    case _ => h.(offers := h.offers + [o], accepted := h.accepted + [m])
  }

  /** The messages of the kept offers, in order. */
  function Kept(offers: seq<Offer>): seq<Message> {
    if offers == [] then []
    else
      var last := offers[|offers| - 1];
      Kept(offers[..|offers| - 1]) + if last.kept then [last.msg] else []
  }

  function Drops(offers: seq<Offer>): nat {
    if offers == [] then 0
    else Drops(offers[..|offers| - 1]) + if offers[|offers| - 1].kept then 0 else 1
  }

  /** Position i begins a maximal run of drops. */
  predicate RunStart(offers: seq<Offer>, i: nat)
    requires i < |offers|
  {
    !offers[i].kept && (i == 0 || offers[i - 1].kept)
  }

  function RunStarts(offers: seq<Offer>): set<nat> {
    set i | 0 <= i < |offers| && RunStart(offers, i)
  }

  /** The last n offers are drops, and they are all the drops the offers end with. */
  predicate EndsWithDrops(offers: seq<Offer>, n: nat) {
    && n <= |offers|
    && (forall i :: |offers| - n <= i < |offers| ==> !offers[i].kept)
    && (n < |offers| ==> offers[|offers| - n - 1].kept)
  }

  /** Everything the source promises about one queue and its past. */
  ghost predicate HistoryInv(q: Sequencer, h: History) {
    && (q.limit > 0 ==> |q.queue| <= q.limit)
    && q.overflowing == (q.dropCount > 0)
    && EndsWithDrops(h.offers, q.dropCount)
    && |h.signals| == |RunStarts(h.offers)|
    && (forall i :: 0 <= i < |h.signals| ==> h.signals[i] == 1)
    && (forall i :: 0 <= i < |h.offers| ==>
          h.offers[i].kept == !(q.limit > 0 && h.offers[i].depth == q.limit))
    && h.accepted == Kept(h.offers)
    && |h.offers| == |h.accepted| + Drops(h.offers)
  }

  /** Appending one offer opens a new run of drops exactly when it is a drop after a kept offer. */
  lemma RunStartsOfLonger(offers: seq<Offer>, o: Offer)
    ensures |RunStarts(offers + [o])| == |RunStarts(offers)| + if RunStart(offers + [o], |offers|) then 1 else 0
  {
    var longer := offers + [o];
    assert forall i: nat :: i < |offers| ==> RunStart(longer, i) == RunStart(offers, i);
    assert RunStarts(longer) == RunStarts(offers) + if RunStart(longer, |offers|) then {|offers|} else {};
  }

  lemma EndOfLonger(offers: seq<Offer>, o: Offer, n: nat)
    requires EndsWithDrops(offers, n)
    ensures EndsWithDrops(offers + [o], if o.kept then 0 else n + 1)
    ensures RunStart(offers + [o], |offers|) == (!o.kept && n == 0)
  {
  }

  lemma KeptOfLonger(offers: seq<Offer>, o: Offer)
    ensures Kept(offers + [o]) == Kept(offers) + if o.kept then [o.msg] else []
    ensures Drops(offers + [o]) == Drops(offers) + if o.kept then 0 else 1
  {
    assert (offers + [o])[..|offers|] == offers;
  }

  lemma DropKeepsHistory(q: Sequencer, h: History, m: Message)
    requires HistoryInv(q, h) && Full(q)
    ensures HistoryInv(EnqueueLocked(q, m).0, RecordEnqueue(h, q, m))
  {
    var o := Offer(m, |q.queue|, false);
    KeptOfLonger(h.offers, o);
    RunStartsOfLonger(h.offers, o);
    EndOfLonger(h.offers, o, q.dropCount);
  }

  lemma KeepKeepsHistory(q: Sequencer, h: History, m: Message)
    requires HistoryInv(q, h) && !Full(q)
    ensures HistoryInv(EnqueueLocked(q, m).0, RecordEnqueue(h, q, m))
  {
    var o := Offer(m, |q.queue|, true);
    KeptOfLonger(h.offers, o);
    RunStartsOfLonger(h.offers, o);
    EndOfLonger(h.offers, o, q.dropCount);
  }

  lemma EnqueueKeepsHistory(q: Sequencer, h: History, m: Message)
    requires HistoryInv(q, h)
    ensures HistoryInv(EnqueueLocked(q, m).0, RecordEnqueue(h, q, m))
  {
    if Full(q) {
      DropKeepsHistory(q, h, m);
    } else {
      KeepKeepsHistory(q, h, m);
    }
  }

  lemma DrainKeepsHistory(q: Sequencer, h: History)
    requires HistoryInv(q, h)
    ensures HistoryInv(DrainLocked(q).0, h)
  {
  }

  // ----- The code -----

  class CallbackSequencer {
    const queue: PendingCallbackRing<Option<Message>>
    const maxQueueSize: int
    var active: bool
    var overflowing: bool
    var dropCount: nat

    ghost predicate Valid()
      reads this, queue, queue.buf
    {
      && queue.Valid() && queue.zero == None
      && (queue.buf != null ==>
            && queue.fixed == (maxQueueSize > 0)
            && (queue.fixed ==> queue.buf.Length == maxQueueSize))
      && (forall i :: 0 <= i < |queue.Contents()| ==> queue.Contents()[i].Some?)
    }

    /** The value of the protected state. */
    ghost function State(): Sequencer
      requires Valid()
      reads this, queue, queue.buf
    {
      Sequencer(maxQueueSize, Values(queue.Contents()), active, overflowing, dropCount)
    }

    static ghost function Values(s: seq<Option<Message>>): (r: seq<Message>)
      requires forall i :: 0 <= i < |s| ==> s[i].Some?
      ensures |r| == |s| && forall i :: 0 <= i < |s| ==> r[i] == s[i].value
    {
      seq(|s|, i requires 0 <= i < |s| => s[i].value)
    }

    constructor (maxQueueSize: int)
      ensures Valid() && fresh(queue) && State() == NewSequencer(maxQueueSize)
    {
      queue := new PendingCallbackRing(None);
      this.maxQueueSize := maxQueueSize;
      active, overflowing, dropCount := false, false, 0;
    }

    /** The critical section of enqueue. The result of Push is ignored, as in the source: the
        message is in the queue afterwards whenever it was not dropped. */
    method Enqueue(m: Message) returns (r: Outcome)
      requires Valid()
      modifies this, queue, queue.buf
      ensures Valid() && (queue.buf == old(queue.buf) || fresh(queue.buf))
      ensures (State(), r) == old(EnqueueLocked(State(), m))
    {
      ghost var was := State();
      if queue.buf == null {
        queue.InitRing(maxQueueSize);
      }
      assert State() == was;
      var n := queue.Len();
      if maxQueueSize > 0 && n >= maxQueueSize {
        dropCount := dropCount + 1;
        var sendSignal := false;
        if !overflowing {
          overflowing := true;
          sendSignal := true;
        }
        return Dropped(if sendSignal then Some(dropCount) else None);
      }
      if overflowing {
        overflowing := false;
        dropCount := 0;
      }
      Append(m);
      if active {
        return Queued;
      }
      active := true;
      return StartDrain;
    }

    /** The unchecked push: below the limit it cannot fail. */
    method Append(m: Message)
      requires Valid() && queue.buf != null && !Full(State())
      modifies queue, queue.buf
      ensures Valid() && (queue.buf == old(queue.buf) || fresh(queue.buf))
      ensures State() == old(State()).(queue := old(State()).queue + [m])
    {
      var ok := queue.Push(Some(m));
      assert ok;
    }

    /** One critical section of the drain loop: the next message, or the end of the drain. */
    method DrainNext() returns (item: Option<Message>)
      requires Valid()
      modifies this, queue, queue.buf
      ensures Valid() && queue.buf == old(queue.buf)
      ensures (State(), item) == old(DrainLocked(State()))
    {
      ghost var was := State();
      var n := queue.Len();
      if n == 0 {
        active := false;
        return None;
      }
      ghost var before := queue.Contents();
      var x, ok := queue.Pop();
      assert before[0] == x && before[1..] == queue.Contents();
      assert State().queue == was.queue[1..];
      item := x;
    }
  }
}
