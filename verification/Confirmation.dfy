/** Subscription confirmation (subscription.go): one sender waits on confirmCh, any number of other
    goroutines wait on doneCh. */
module Confirmation {
  import opened Common

  /** A Go error: None is nil. */
  type Error = Option<nat>

  datatype SubState = Pending | Active | Failed | Closed

  /** The fields under the subscription's mutex. confirmCh holds at most one value; doneCh is named by
      a number; both may be nil. */
  datatype Conf = Conf(state: SubState, confirmCh: Option<seq<Error>>, doneCh: Option<nat>, doneChClosed: bool,
                       confirmErr: Error)

  predicate Sends(c: Conf) {
    c.confirmCh.Some? && c.state.Pending? && c.confirmCh.value == []
  }

  predicate Closes(c: Conf, newState: SubState) {
    c.state.Pending? && !newState.Pending? && c.doneCh.Some? && !c.doneChClosed
  }

  function AfterSetState(c: Conf, newState: SubState, err: Error): Conf {
    var sent := if Sends(c) then c.(confirmCh := Some([err])) else c;
    if Closes(c, newState) then sent.(state := newState, confirmErr := err, doneChClosed := true)
    else sent.(state := newState)
  }

  function AfterReset(c: Conf, done: nat): Conf {
    c.(confirmCh := if c.confirmCh.Some? && c.confirmCh.value != [] then Some(c.confirmCh.value[1..]) else c.confirmCh,
       doneCh := Some(done), doneChClosed := false, confirmErr := None)
  }

  // ----- The code -----

  class DoneChannel {
    const id: nat
    var closed: bool

    constructor (id: nat)
      ensures this.id == id && !closed
    {
      this.id := id;
      closed := false;
    }

    /** Closing a closed channel panics. */
    method Close()
      requires !closed
      modifies this
      ensures closed
    {
      closed := true;
    }
  }

  class Subscription {
    var state: SubState
    var confirmCh: Option<seq<Error>>
    var doneCh: DoneChannel?
    var doneChClosed: bool
    var confirmErr: Error

    ghost predicate Valid()
      reads this, doneCh
    {
      && (confirmCh.Some? ==> |confirmCh.value| <= 1)
      && (doneCh != null ==> doneCh.closed == doneChClosed)
    }

    ghost function Value(): Conf
      reads this, doneCh
    {
      Conf(state, confirmCh, if doneCh == null then None else Some(doneCh.id), doneChClosed, confirmErr)
    }

    method SetState(newState: SubState, err: Error)
      requires Valid()
      modifies this, doneCh
      ensures Valid() && doneCh == old(doneCh)
      ensures Value() == AfterSetState(old(Value()), newState, err)
    {
      var oldState := state;
      state := newState;
      if confirmCh.Some? && oldState == Pending {
        if |confirmCh.value| < 1 {
          assert confirmCh.value + [err] == [err];
          confirmCh := Some(confirmCh.value + [err]);
        }
      }
      if oldState == Pending && newState != Pending && doneCh != null && !doneChClosed {
        confirmErr := err;
        doneChClosed := true;
        doneCh.Close();
      }
    }

    method ResetConfirmation(id: nat)
      requires Valid()
      modifies this
      ensures Valid() && doneCh != null && fresh(doneCh)
      ensures Value() == AfterReset(old(Value()), id)
    {
      if confirmCh.Some? {
        if |confirmCh.value| > 0 {
          confirmCh := Some(confirmCh.value[1..]);
        }
      }
      doneCh := new DoneChannel(id);
      doneChClosed := false;
      confirmErr := None;
    }
  }

  // ----- The protocol -----

  datatype Waiter =
    | Blocked(done: nat)            // in the select of waitForActive
    | Woken(done: nat)              // doneCh was closed, about to read confirmErr
    | Returned(err: Error, cycle: Option<nat>) // cycle: the finished cycle whose doneCh was in place
    | Cancelled

  /** leftWith: for each doneCh, the error of the transition that left Pending while it was in place;
      sends: the values put in confirmCh while it was in place; closes: how often it was closed. */
  datatype World = World(c: Conf, next: nat, closed: set<nat>, panicked: bool, waiters: map<nat, Waiter>,
                         leftWith: map<nat, Error>, sends: map<nat, seq<Error>>)

  datatype Action =
    | Set(newState: SubState, err: Error)
    | ResetConfirmation
    | Consume                       // waitForConfirmation takes the value
    | BeginWait(t: nat) | Wake(t: nat) | Read(t: nat) | Cancel(t: nat)

  predicate Init(w: World) {
    w == World(Conf(Pending, Some([]), Some(0), false, None), 1, {}, false, map[], map[], map[0 := []])
  }

  /** setState and resetConfirmation guard against nothing. */
  predicate Enabled(w: World, a: Action) {
    match a
    case Set(_, _) => true
    case ResetConfirmation => true
    case Consume => w.c.confirmCh.Some? && w.c.confirmCh.value != []
    case BeginWait(t) => t !in w.waiters
    case Wake(t) => t in w.waiters && w.waiters[t].Blocked? && w.waiters[t].done in w.closed
    case Read(t) => t in w.waiters && w.waiters[t].Woken?
    case Cancel(t) => t in w.waiters && w.waiters[t].Blocked?
  }

  function Apply(w: World, a: Action): World
    requires Enabled(w, a)
  {
    match a
    case Set(newState, err) => ApplySet(w, newState, err)
    case ResetConfirmation =>
      w.(c := AfterReset(w.c, w.next), next := w.next + 1, sends := w.sends[w.next := []])
    case Consume => w.(c := w.c.(confirmCh := Some(w.c.confirmCh.value[1..])))
    case BeginWait(t) =>
      var now := if !w.c.state.Pending? then Returned(w.c.confirmErr, LastCycle(w))
                 else if w.c.doneCh.None? then Returned(None, None)
                 else Blocked(w.c.doneCh.value);
      w.(waiters := w.waiters[t := now])
    case Wake(t) => w.(waiters := w.waiters[t := Woken(w.waiters[t].done)])
    case Read(t) => w.(waiters := w.waiters[t := Returned(w.c.confirmErr, LastCycle(w))])
    case Cancel(t) => w.(waiters := w.waiters[t := Cancelled])
  }

  /** The cycle that is over and has not been reset yet, if any. */
  function LastCycle(w: World): Option<nat> {
    if w.c.doneCh.Some? && w.c.doneCh.value in w.leftWith then w.c.doneCh else None
  }

  function ApplySet(w: World, newState: SubState, err: Error): World {
    var d := w.c.doneCh;
    World(
      AfterSetState(w.c, newState, err), w.next,
      if Closes(w.c, newState) then w.closed + {d.value} else w.closed,
      w.panicked || (Closes(w.c, newState) && d.value in w.closed),
      w.waiters,
      if w.c.state.Pending? && d.Some? then w.leftWith[d.value := err] else w.leftWith,
      if Sends(w.c) && d.Some? && d.value in w.sends then w.sends[d.value := w.sends[d.value] + [err]] else w.sends)
  }

  ghost predicate Run(w: World, acts: seq<Action>, w': World)
    decreases |acts|
  {
    if acts == [] then w == w'
    else Enabled(w, acts[0]) && Run(Apply(w, acts[0]), acts[1..], w')
  }

  /** Pending is entered only from another state and after a reset, and resets happen outside Pending. */
  predicate Orderly(w: World, a: Action) {
    match a
    case Set(newState, _) =>
      newState.Pending? ==> !w.c.state.Pending? && w.c.doneCh.Some? && w.c.doneCh.value !in w.leftWith
    case ResetConfirmation => !w.c.state.Pending?
    case _ => true
  }

  ghost predicate OrderlyRun(w: World, acts: seq<Action>, w': World)
    decreases |acts|
  {
    if acts == [] then w == w'
    else Enabled(w, acts[0]) && Orderly(w, acts[0]) && OrderlyRun(Apply(w, acts[0]), acts[1..], w')
  }

  // ----- Orderly runs -----

  /** What is true while the d-th doneCh is in place. */
  ghost predicate CycleInv(w: World, d: nat) {
    && w.c.doneCh == Some(d) && w.c.confirmCh.Some? && d in w.sends
    && (if d in w.leftWith then
          // the cycle is over
          && !w.c.state.Pending? && w.c.doneChClosed && d in w.closed
          && w.c.confirmErr == w.leftWith[d] && w.sends[d] == [w.leftWith[d]]
          && (w.c.confirmCh.value == [] || w.c.confirmCh.value == [w.leftWith[d]])
        else
          // the cycle is running or has yet to begin
          && !w.c.doneChClosed && d !in w.closed && w.c.confirmCh.value == [] && w.sends[d] == [])
  }

  ghost predicate Inv(w: World) {
    && !w.panicked && w.next > 0 && CycleInv(w, w.next - 1)
    && w.closed == w.leftWith.Keys
    && (forall d | d in w.leftWith :: d < w.next && d in w.sends && w.sends[d] == [w.leftWith[d]])
    && (forall d | d in w.sends :: d < w.next && (d !in w.leftWith ==> w.sends[d] == []))
    && (forall t | t in w.waiters :: WaiterInv(w, w.waiters[t]))
  }

  ghost predicate WaiterInv(w: World, x: Waiter) {
    match x
    case Blocked(d) => d < w.next && (d in w.closed || (d == w.next - 1 && w.c.state.Pending?))
    case Woken(d) => d in w.closed
    case Returned(err, cycle) => cycle.Some? ==> cycle.value in w.leftWith && err == w.leftWith[cycle.value]
    case Cancelled => true
  }

  lemma InvSet(w: World, newState: SubState, err: Error)
    requires Inv(w) && Orderly(w, Set(newState, err))
    ensures Inv(ApplySet(w, newState, err))
  {
    if w.c.state.Pending? {
      assert Closes(w.c, newState) && Sends(w.c);
    } else {
      assert ApplySet(w, newState, err) == w.(c := w.c.(state := newState));
    }
  }

  lemma InvStep(w: World, a: Action)
    requires Inv(w) && Enabled(w, a) && Orderly(w, a)
    ensures Inv(Apply(w, a))
  {
    match a
    case Set(newState, err) => InvSet(w, newState, err);
    case ResetConfirmation =>
    case Consume =>
    case BeginWait(_) =>
    case Wake(_) =>
    case Read(_) =>
    case Cancel(_) =>
  }

  lemma {:induction false} InvRun(w: World, acts: seq<Action>, w': World)
    requires Inv(w) && OrderlyRun(w, acts, w')
    ensures Inv(w')
    decreases |acts|
  {
    if acts == [] {
    } else {
      InvStep(w, acts[0]);
      InvRun(Apply(w, acts[0]), acts[1..], w');
    }
  }

  /** Each cycle's doneCh is closed at most once and exactly when the cycle has ended; confirmCh then got
      one value, the error of the transition that left Pending, and that is what is taken from it; every wait
      that returned before the next reset got that same error; and no wait on a finished cycle can stay
      blocked. */
  lemma ConfirmationOutcome(w0: World, acts: seq<Action>, w: World)
    requires Init(w0) && OrderlyRun(w0, acts, w)
    ensures !w.panicked && w.closed == w.leftWith.Keys
    ensures forall d | d in w.leftWith :: d in w.sends && w.sends[d] == [w.leftWith[d]]
    ensures forall d | d in w.sends && d !in w.leftWith :: w.sends[d] == []
    ensures Enabled(w, Consume) ==>
              LastCycle(w).Some? && w.c.confirmCh == Some([w.leftWith[LastCycle(w).value]])
    ensures forall t | t in w.waiters && w.waiters[t].Returned? && w.waiters[t].cycle.Some? ::
              var d := w.waiters[t].cycle.value; d in w.leftWith && w.waiters[t].err == w.leftWith[d]
    ensures forall t | t in w.waiters && w.waiters[t].Blocked? && !w.c.state.Pending? :: Enabled(w, Wake(t))
  {
    InvRun(w0, acts, w);
  }

  // ----- What a wait returns -----

  predicate Leaves(a: Action) {
    a.Set? && !a.newState.Pending?
  }

  /** Nothing resets the subscription and t is not cancelled. */
  predicate Undisturbed(acts: seq<Action>, t: nat) {
    forall a | a in acts :: !a.ResetConfirmation? && a != Cancel(t)
  }

  /** t waits on cycle d, or has returned the error with which it ended. */
  ghost predicate Attends(w: World, t: nat, d: nat) {
    && w.c.doneCh == Some(d) && t in w.waiters
    && match w.waiters[t]
       case Blocked(e) => e == d
       case Woken(e) => e == d
       case Returned(err, _) => d in w.leftWith && err == w.leftWith[d]
       case Cancelled => false
  }

  lemma {:induction false} AttendsRun(w: World, acts: seq<Action>, w': World, t: nat, d: nat)
    requires Inv(w) && OrderlyRun(w, acts, w') && Undisturbed(acts, t) && Attends(w, t, d)
    ensures Attends(w', t, d)
    decreases |acts|
  {
    if acts == [] {
    } else {
      assert acts[0] in acts && forall a | a in acts[1..] :: a in acts;
      AttendsStep(w, acts[0], t, d);
      InvStep(w, acts[0]);
      AttendsRun(Apply(w, acts[0]), acts[1..], w', t, d);
    }
  }

  lemma AttendsStep(w: World, a: Action, t: nat, d: nat)
    requires Inv(w) && Enabled(w, a) && Orderly(w, a) && !a.ResetConfirmation? && a != Cancel(t) && Attends(w, t, d)
    ensures Attends(Apply(w, a), t, d)
  {
    assert WaiterInv(w, w.waiters[t]);
  }

  /** The error of the first transition of acts that leaves Pending. */
  function LeftBy(acts: seq<Action>): Option<Error> {
    if acts == [] then None else if Leaves(acts[0]) then Some(acts[0].err) else LeftBy(acts[1..])
  }

  /** A cycle in Pending ends with the error of the first transition that leaves it, whatever comes later. */
  lemma {:induction false} LeftWithFirst(w: World, acts: seq<Action>, w': World, d: nat, t: nat)
    requires Inv(w) && OrderlyRun(w, acts, w') && Undisturbed(acts, t)
    requires w.c.state.Pending? && w.c.doneCh == Some(d)
    ensures d in w'.leftWith <==> LeftBy(acts).Some?
    ensures d in w'.leftWith ==> w'.leftWith[d] == LeftBy(acts).value
    decreases |acts|
  {
    if acts == [] {
    } else {
      assert acts[0] in acts && forall a | a in acts[1..] :: a in acts;
      var w1 := Apply(w, acts[0]);
      InvStep(w, acts[0]);
      if Leaves(acts[0]) {
        LeftStays(w1, acts[1..], w', d, t);
      } else {
        LeftWithFirst(w1, acts[1..], w', d, t);
      }
    }
  }

  lemma {:induction false} LeftStays(w: World, acts: seq<Action>, w': World, d: nat, t: nat)
    requires Inv(w) && OrderlyRun(w, acts, w') && Undisturbed(acts, t) && d in w.leftWith && w.c.doneCh == Some(d)
    ensures d in w'.leftWith && w'.leftWith[d] == w.leftWith[d]
    decreases |acts|
  {
    if acts == [] {
    } else {
      assert acts[0] in acts && forall a | a in acts[1..] :: a in acts;
      InvStep(w, acts[0]);
      LeftStays(Apply(w, acts[0]), acts[1..], w', d, t);
    }
  }

  /** A goroutine that blocks in waitForActive and is not cancelled returns, before the next reset, exactly the
      error of the transition that left Pending. */
  lemma WaitReturnsError(w: World, acts: seq<Action>, w': World, t: nat, d: nat)
    requires Inv(w) && OrderlyRun(w, acts, w') && Undisturbed(acts, t)
    requires w.c.state.Pending? && w.c.doneCh == Some(d) && t in w.waiters && w.waiters[t] == Blocked(d)
    ensures t in w'.waiters && w'.waiters[t].Returned? ==>
              LeftBy(acts).Some? && w'.waiters[t].err == LeftBy(acts).value
    ensures LeftBy(acts).Some? && t in w'.waiters && w'.waiters[t].Blocked? ==> Enabled(w', Wake(t))
  {
    AttendsRun(w, acts, w', t, d);
    LeftWithFirst(w, acts, w', d, t);
    InvAfter(w, acts, w');
  }

  lemma InvAfter(w: World, acts: seq<Action>, w': World)
    requires Inv(w) && OrderlyRun(w, acts, w')
    ensures Inv(w')
  {
    InvRun(w, acts, w');
  }

  /** A call that comes after the transition and before the next reset returns the same error at once; one
      that comes in Pending blocks. */
  lemma LateWaitReturnsError(w: World, acts: seq<Action>, w': World, t: nat, d: nat)
    requires Inv(w) && OrderlyRun(w, acts, w') && Undisturbed(acts, t) && t !in w'.waiters
    requires w.c.state.Pending? && w.c.doneCh == Some(d)
    ensures var x := Apply(w', BeginWait(t)).waiters[t];
            if w'.c.state.Pending? then x == Blocked(d)
            else LeftBy(acts).Some? && x.Returned? && x.err == LeftBy(acts).value
  {
    LeftWithFirst(w, acts, w', d, t);
    DoneStays(w, acts, w', t);
    InvAfter(w, acts, w');
    StillPending(w, acts, w', t);
  }

  lemma {:induction false} DoneStays(w: World, acts: seq<Action>, w': World, t: nat)
    requires OrderlyRun(w, acts, w') && Undisturbed(acts, t)
    ensures w'.c.doneCh == w.c.doneCh
    decreases |acts|
  {
    if acts == [] {
    } else {
      assert acts[0] in acts && forall a | a in acts[1..] :: a in acts;
      DoneStays(Apply(w, acts[0]), acts[1..], w', t);
    }
  }

  /** Pending is left by such a transition only. */
  lemma {:induction false} StillPending(w: World, acts: seq<Action>, w': World, t: nat)
    requires Inv(w) && OrderlyRun(w, acts, w') && Undisturbed(acts, t) && w.c.state.Pending?
    ensures !w'.c.state.Pending? <==> LeftBy(acts).Some?
    decreases |acts|
  {
    if acts == [] {
    } else {
      assert acts[0] in acts && forall a | a in acts[1..] :: a in acts;
      var w1 := Apply(w, acts[0]);
      InvStep(w, acts[0]);
      if Leaves(acts[0]) {
        StaysOut(w1, acts[1..], w', w.next - 1, t);
      } else {
        StillPending(w1, acts[1..], w', t);
      }
    }
  }

  lemma {:induction false} StaysOut(w: World, acts: seq<Action>, w': World, d: nat, t: nat)
    requires Inv(w) && OrderlyRun(w, acts, w') && Undisturbed(acts, t) && w.c.doneCh == Some(d) && d in w.leftWith
    ensures !w'.c.state.Pending?
    decreases |acts|
  {
    if acts == [] {
    } else {
      assert acts[0] in acts && forall a | a in acts[1..] :: a in acts;
      InvStep(w, acts[0]);
      StaysOut(Apply(w, acts[0]), acts[1..], w', d, t);
    }
  }

  /** The one that sent the command takes that error as well: it is what confirmCh holds once Pending is left,
      and confirmCh is empty before. */
  lemma SenderGetsError(w: World, acts: seq<Action>, w': World, d: nat, t: nat)
    requires Inv(w) && OrderlyRun(w, acts, w') && Undisturbed(acts, t)
    requires w.c.state.Pending? && w.c.doneCh == Some(d)
    ensures LeftBy(acts).None? ==> !Enabled(w', Consume)
    ensures Enabled(w', Consume) ==> w'.c.confirmCh == Some([LeftBy(acts).value])
    ensures LeftBy(acts).Some? && Consume !in acts ==> Enabled(w', Consume)
  {
    LeftWithFirst(w, acts, w', d, t);
    DoneStays(w, acts, w', t);
    InvAfter(w, acts, w');
    if Consume !in acts && LeftBy(acts).Some? {
      ValueStays(w, acts, w', t);
    }
  }

  /** The cycle is over and its value has been taken. */
  predicate Spent(w: World) {
    !w.c.state.Pending? && w.c.doneCh.Some? && w.c.doneCh.value in w.leftWith && w.c.confirmCh == Some([])
  }

  /** It can take it once. */
  lemma TakenOnce(w: World, acts: seq<Action>, w': World)
    requires Inv(w) && Enabled(w, Consume) && OrderlyRun(Apply(w, Consume), acts, w')
    requires ResetConfirmation !in acts
    ensures Consume !in acts && !Enabled(w', Consume)
  {
    assert w.c.confirmCh.value[1..] == [];
    SpentRun(Apply(w, Consume), acts, w');
  }

  lemma {:induction false} SpentRun(w: World, acts: seq<Action>, w': World)
    requires Spent(w) && OrderlyRun(w, acts, w') && ResetConfirmation !in acts
    ensures Spent(w') && Consume !in acts
    decreases |acts|
  {
    if acts == [] {
    } else {
      assert acts[0] in acts && acts == [acts[0]] + acts[1..];
      SpentRun(Apply(w, acts[0]), acts[1..], w');
    }
  }

  lemma {:induction false} ValueStays(w: World, acts: seq<Action>, w': World, t: nat)
    requires Inv(w) && OrderlyRun(w, acts, w') && Undisturbed(acts, t) && Consume !in acts
    requires (LeftBy(acts).Some? && w.c.state.Pending?) || w.c.confirmCh != Some([])
    ensures w'.c.confirmCh != Some([])
    decreases |acts|
  {
    if acts == [] {
    } else {
      assert acts[0] in acts && forall a | a in acts[1..] :: a in acts;
      InvStep(w, acts[0]);
      ValueStays(Apply(w, acts[0]), acts[1..], w', t);
    }
  }

  // ----- All runs: resets in Pending -----

  /** What every run keeps, with resets and transitions in any state. */
  ghost predicate AnyInv(w: World) {
    && !w.panicked && w.c.doneCh == Some(w.next - 1) && w.c.confirmCh.Some?
    && (forall d | d in w.closed :: d < w.next)
    && w.c.doneChClosed == (w.next - 1 in w.closed)
    && (forall t | t in w.waiters :: AnyWaiter(w, w.waiters[t]))
  }

  predicate AnyWaiter(w: World, x: Waiter) {
    match x
    case Blocked(d) => d < w.next && (d == w.next - 1 && d !in w.closed ==> w.c.state.Pending?)
    case Woken(d) => d in w.closed
    case Returned(_, _) => true
    case Cancelled => true
  }

  lemma AnyStep(w: World, a: Action)
    requires AnyInv(w) && Enabled(w, a)
    ensures AnyInv(Apply(w, a))
  {
  }

  /** In any run, whatever the order of resets and transitions: no doneCh is closed twice, a doneCh in place is
      marked closed exactly when it is, and nobody is blocked on the one in place outside Pending. */
  lemma {:induction false} AnyRun(w: World, acts: seq<Action>, w': World)
    requires AnyInv(w) && Run(w, acts, w')
    ensures AnyInv(w')
    decreases |acts|
  {
    if acts == [] {
    } else {
      AnyStep(w, acts[0]);
      AnyRun(Apply(w, acts[0]), acts[1..], w');
    }
  }

  /** In any run, a wait is reported as cancelled exactly when the waiter's own context ended it. */
  lemma {:induction false} CancelledIff(w: World, acts: seq<Action>, w': World, t: nat)
    requires Run(w, acts, w') && t in w.waiters
    ensures t in w'.waiters && (w'.waiters[t].Cancelled? <==> w.waiters[t].Cancelled? || Cancel(t) in acts)
    decreases |acts|
  {
    if acts == [] {
    } else {
      CancelledStep(w, acts[0], t);
      CancelledIff(Apply(w, acts[0]), acts[1..], w', t);
      assert acts == [acts[0]] + acts[1..];
    }
  }

  lemma CancelledStep(w: World, a: Action, t: nat)
    requires Enabled(w, a) && t in w.waiters
    ensures t in Apply(w, a).waiters
    ensures Apply(w, a).waiters[t].Cancelled? <==> w.waiters[t].Cancelled? || a == Cancel(t)
  {
  }

  /** Blocked on the doneCh in place. */
  predicate Waits(w: World, t: nat) {
    t in w.waiters && w.waiters[t].Blocked? && w.c.doneCh == Some(w.waiters[t].done) && w.waiters[t].done !in w.closed
  }

  /** Blocked on a doneCh that was replaced without being closed. */
  predicate Stranded(w: World, t: nat) {
    t in w.waiters && w.waiters[t].Blocked? && w.c.doneCh != Some(w.waiters[t].done) && w.waiters[t].done !in w.closed
  }

  /** A goroutine is stranded by a reset while it waits, which is a reset in Pending, and by nothing else. */
  lemma StrandedStep(w: World, a: Action, t: nat)
    requires AnyInv(w) && Enabled(w, a)
    ensures Stranded(Apply(w, a), t) <==> (Stranded(w, t) && a != Cancel(t)) || (a.ResetConfirmation? && Waits(w, t))
    ensures Waits(w, t) ==> w.c.state.Pending?
  {
  }

  /** Once stranded, it is so for good unless its own context ends the wait: it can never wake. */
  lemma {:induction false} StrandedStays(w: World, acts: seq<Action>, w': World, t: nat)
    requires AnyInv(w) && Run(w, acts, w') && Stranded(w, t) && Cancel(t) !in acts
    ensures Stranded(w', t) && !Enabled(w', Wake(t))
    decreases |acts|
  {
    if acts == [] {
    } else {
      assert acts[0] in acts && forall a | a in acts[1..] :: a in acts;
      AnyStep(w, acts[0]);
      StrandedStep(w, acts[0], t);
      StrandedStays(Apply(w, acts[0]), acts[1..], w', t);
    }
  }

  /** Blocked on a closed doneCh, or past it: it has been woken or can be. */
  predicate Released(w: World, t: nat) {
    t in w.waiters && !w.waiters[t].Cancelled? && (w.waiters[t].Blocked? ==> w.waiters[t].done in w.closed)
  }

  lemma {:induction false} ReleasedStays(w: World, acts: seq<Action>, w': World, t: nat)
    requires Run(w, acts, w') && Released(w, t) && Cancel(t) !in acts
    ensures Released(w', t)
    decreases |acts|
  {
    if acts == [] {
    } else {
      assert acts[0] in acts && forall a | a in acts[1..] :: a in acts;
      ReleasedStays(Apply(w, acts[0]), acts[1..], w', t);
    }
  }

  /** In acts a reset comes before any transition to a state other than Pending. */
  predicate ResetFirst(acts: seq<Action>) {
    acts != []
    && (acts[0].ResetConfirmation? || (!Leaves(acts[0]) && ResetFirst(acts[1..])))
  }

  /** A goroutine that waits and is not cancelled is stranded if and only if a reset comes before the
      transition that would have released it; when that transition comes first, it is released. */
  lemma {:induction false} ResetStrands(w: World, acts: seq<Action>, w': World, t: nat)
    requires AnyInv(w) && Run(w, acts, w') && Waits(w, t) && Cancel(t) !in acts
    ensures Stranded(w', t) <==> ResetFirst(acts)
    ensures (exists a :: a in acts && Leaves(a)) && !ResetFirst(acts) ==> Released(w', t)
    decreases |acts|
  {
    if acts == [] {
    } else {
      assert acts[0] in acts && forall a | a in acts[1..] :: a in acts;
      var w1 := Apply(w, acts[0]);
      AnyStep(w, acts[0]);
      StrandedStep(w, acts[0], t);
      if acts[0].ResetConfirmation? {
        StrandedStays(w1, acts[1..], w', t);
      } else if Leaves(acts[0]) {
        ReleasedStays(w1, acts[1..], w', t);
      } else {
        ResetStrands(w1, acts[1..], w', t);
        assert acts == [acts[0]] + acts[1..];
      }
    }
  }

  /** A reset in Pending followed by setState(Pending, nil), as a migration does with a subscription whose old
      connection has just failed: the sender finds a nil in confirmCh although the subscription is still
      pending, and if it takes nothing before the real transition, that one's error is not delivered. */
  lemma ResetInPending(w: World, t: nat, newState: SubState, err: Error)
    requires AnyInv(w) && w.c.state.Pending? && w.c.confirmCh == Some([]) && Waits(w, t)
    ensures var w1 := Apply(Apply(w, ResetConfirmation), Set(Pending, None));
            && w1.c.state.Pending? && w1.c.confirmCh == Some([None]) && Enabled(w1, Consume)
            && Stranded(w1, t)
            && Apply(w1, Set(newState, err)).c.confirmCh == Some([None])
  {
    StrandedStep(w, ResetConfirmation, t);
    StrandedStep(Apply(w, ResetConfirmation), Set(Pending, None), t);
  }
}
