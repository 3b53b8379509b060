/** Cancel-and-replace of migration goroutines (topology.go, handleMigration and
    recoverFailedSubscriptions): refreshes are serialized by refreshMu, while migration goroutines finish
    at any moment. */
module Migration {
  import opened Common

  /** The refresh that holds refreshMu, between the operations of one launch. */
  datatype Refresher =
    | Idle
    | Loaded(slot: nat, prev: Option<nat>) // activeMigrations.Load has answered
    | Replacing(slot: nat)                 // the previous handle, if any, has been cancelled
    | Stored(slot: nat, handle: nat)       // the new handle is stored, its goroutine not started

  /** A migration goroutine that has not yet run its deferred CompareAndDelete. */
  datatype Goroutine = Goroutine(slot: nat, handle: nat)

  datatype State = State(
    refresher: Refresher,
    active: map<nat, nat>,          // activeMigrations: slot to handle
    cancelled: set<nat>,            // handles whose context is cancelled
    running: map<nat, Goroutine>,
    next: nat)                      // handles are numbered as they are created

  predicate Init(st: State) {
    st == State(Idle, map[], {}, map[], 0)
  }

  datatype Action =
    | Load(slot: nat) | CancelPrevious | Store | Launch(g: nat)
    | Finish(g: nat)

  predicate Enabled(st: State, a: Action) {
    match a
    case Load(_) => st.refresher.Idle?
    case CancelPrevious => st.refresher.Loaded?
    case Store => st.refresher.Replacing?
    case Launch(g) => st.refresher.Stored? && g !in st.running
    case Finish(g) => g in st.running
  }

  function Apply(st: State, a: Action): State
    requires Enabled(st, a)
  {
    match a
    case Load(slot) => st.(refresher := Loaded(slot, if slot in st.active then Some(st.active[slot]) else None))
    case CancelPrevious =>
      var r := st.refresher;
      st.(refresher := Replacing(r.slot),
          cancelled := if r.prev.Some? then st.cancelled + {r.prev.value} else st.cancelled)
    case Store =>
      st.(refresher := Stored(st.refresher.slot, st.next), next := st.next + 1,
          active := st.active[st.refresher.slot := st.next])
    case Launch(g) =>
      st.(refresher := Idle, running := st.running[g := Goroutine(st.refresher.slot, st.refresher.handle)])
    case Finish(g) =>
      // CompareAndDelete(slot, handle)
      var x := st.running[g];
      st.(running := st.running - {g},
          active := if x.slot in st.active && st.active[x.slot] == x.handle then st.active - {x.slot} else st.active)
  }

  ghost predicate Run(st: State, acts: seq<Action>, st': State)
    decreases |acts|
  {
    if acts == [] then st == st'
    else Enabled(st, acts[0]) && Run(Apply(st, acts[0]), acts[1..], st')
  }

  predicate Live(st: State, g: nat) {
    g in st.running && st.running[g].handle !in st.cancelled
  }

  ghost predicate HandleInv(st: State) {
    && (forall g | g in st.running :: st.running[g].handle < st.next)
    && (forall h | h in st.cancelled :: h < st.next)
    && (forall g, k | g in st.running && k in st.running && st.running[g].handle == st.running[k].handle :: g == k)
    // a live goroutine's handle is the stored one
    && (forall g | Live(st, g) ::
          st.running[g].slot in st.active && st.active[st.running[g].slot] == st.running[g].handle)
    // a stored handle belongs to a goroutine that will delete it, or is about to
    && (forall s | s in st.active :: st.active[s] < st.next && Owned(st, s))
    && (match st.refresher
        case Idle => true
        case Loaded(s, prev) =>
          && (prev.Some? ==> prev.value < st.next)
          && (forall g | Live(st, g) && st.running[g].slot == s :: prev == Some(st.running[g].handle))
        case Replacing(s) => forall g | Live(st, g) :: st.running[g].slot != s
        case Stored(s, h) =>
          && s in st.active && st.active[s] == h && h < st.next && h !in st.cancelled
          && (forall g | Live(st, g) :: st.running[g].slot != s)
          && (forall g | g in st.running :: st.running[g].handle != h))
  }

  ghost predicate Owned(st: State, s: nat)
    requires s in st.active
  {
    || st.refresher == Stored(s, st.active[s])
    || exists g :: g in st.running && st.running[g] == Goroutine(s, st.active[s])
  }

  lemma OwnedFrame(st: State, st': State, s: nat)
    requires s in st.active && s in st'.active && st.active[s] == st'.active[s] && Owned(st, s)
    requires st.refresher.Stored? ==> st'.refresher == st.refresher
    requires forall g | g in st.running && st.running[g] == Goroutine(s, st.active[s]) ::
               g in st'.running && st'.running[g] == st.running[g]
    ensures Owned(st', s)
  {
    if st.refresher != Stored(s, st.active[s]) {
      var g :| g in st.running && st.running[g] == Goroutine(s, st.active[s]);
      assert g in st'.running && st'.running[g] == Goroutine(s, st'.active[s]);
    }
  }

  lemma HandleLaunch(st: State, g: nat)
    requires HandleInv(st) && Enabled(st, Launch(g))
    ensures HandleInv(Apply(st, Launch(g)))
  {
    var st' := Apply(st, Launch(g));
    forall s | s in st'.active
      ensures Owned(st', s)
    {
      if st.refresher == Stored(s, st.active[s]) {
        assert st'.running[g] == Goroutine(s, st'.active[s]);
      } else {
        var k :| k in st.running && st.running[k] == Goroutine(s, st.active[s]);
        assert k in st'.running && st'.running[k] == Goroutine(s, st'.active[s]);
      }
    }
    assert forall k | Live(st', k) && k != g :: Live(st, k);
  }

  lemma FinishKeepsOwners(st: State, g: nat, s: nat)
    requires HandleInv(st) && g in st.running && s in Apply(st, Finish(g)).active
    ensures Owned(Apply(st, Finish(g)), s)
  {
    assert Owned(st, s);
    OwnedFrame(st, Apply(st, Finish(g)), s);
  }

  lemma FinishKeepsStored(st: State, g: nat, s: nat)
    requires HandleInv(st) && g in st.running && s in st.active && st.active[s] != st.running[g].handle
    ensures s in Apply(st, Finish(g)).active && Apply(st, Finish(g)).active[s] == st.active[s]
  {
  }

  lemma HandleFinish(st: State, g: nat)
    requires HandleInv(st) && Enabled(st, Finish(g))
    ensures HandleInv(Apply(st, Finish(g)))
  {
    var st' := Apply(st, Finish(g));
    assert forall k | Live(st', k) :: Live(st, k);
    forall s | s in st'.active
      ensures Owned(st', s)
    {
      FinishKeepsOwners(st, g, s);
    }
    forall k | Live(st', k)
      ensures st'.running[k].slot in st'.active && st'.active[st'.running[k].slot] == st'.running[k].handle
    {
      FinishKeepsStored(st, g, st.running[k].slot);
    }
  }

  lemma HandleStore(st: State)
    requires HandleInv(st) && Enabled(st, Store)
    ensures HandleInv(Apply(st, Store))
  {
    var st' := Apply(st, Store);
    forall s | s in st'.active
      ensures Owned(st', s)
    {
      if s != st.refresher.slot { OwnedFrame(st, st', s); }
    }
    assert forall k | Live(st', k) :: Live(st, k);
  }

  lemma HandleStep(st: State, a: Action)
    requires HandleInv(st) && Enabled(st, a)
    ensures HandleInv(Apply(st, a))
  {
    var st' := Apply(st, a);
    match a
    case Load(slot) =>
      forall s | s in st'.active ensures Owned(st', s) { OwnedFrame(st, st', s); }
      assert forall k | Live(st', k) :: Live(st, k);
    case CancelPrevious =>
      forall s | s in st'.active ensures Owned(st', s) { OwnedFrame(st, st', s); }
      assert forall k | Live(st', k) :: Live(st, k);
    case Store => HandleStore(st);
    case Launch(g) => HandleLaunch(st, g);
    case Finish(g) => HandleFinish(st, g);
  }

  lemma {:induction false} HandleRun(st: State, acts: seq<Action>, st': State)
    requires HandleInv(st) && Run(st, acts, st')
    ensures HandleInv(st')
    decreases |acts|
  {
    if acts == [] {
    } else {
      HandleStep(st, acts[0]);
      HandleRun(Apply(st, acts[0]), acts[1..], st');
    }
  }

  /** In every interleaving: a slot has at most one goroutine with an uncancelled handle, and that handle
      is the stored one; a finishing goroutine never deletes the handle of another, be it running or stored
      and about to be launched; and once every goroutine has finished and no refresh is launching one,
      nothing is left in the map. */
  lemma CancelAndReplace(st0: State, acts: seq<Action>, st: State)
    requires Init(st0) && Run(st0, acts, st)
    ensures forall g | Live(st, g) ::
              st.running[g].slot in st.active && st.active[st.running[g].slot] == st.running[g].handle
    ensures forall g, k | Live(st, g) && Live(st, k) && st.running[g].slot == st.running[k].slot :: g == k
    ensures forall g, k | g in st.running && Live(st, k) && g != k ::
              var s := st.running[k].slot;
              s in Apply(st, Finish(g)).active && Apply(st, Finish(g)).active[s] == st.active[s]
    ensures forall g, s | g in st.running && s in st.active && st.active[s] != st.running[g].handle ::
              s in Apply(st, Finish(g)).active && Apply(st, Finish(g)).active[s] == st.active[s]
    ensures st.refresher.Stored? ==>
              && st.refresher.slot in st.active && st.active[st.refresher.slot] == st.refresher.handle
              && forall g | g in st.running ::
                   && st.refresher.slot in Apply(st, Finish(g)).active
                   && Apply(st, Finish(g)).active[st.refresher.slot] == st.refresher.handle
    ensures st.running == map[] && st.refresher.Idle? ==> st.active == map[]
  {
    HandleRun(st0, acts, st);
    forall g, k | g in st.running && Live(st, k) && g != k
      ensures var s := st.running[k].slot;
              s in Apply(st, Finish(g)).active && Apply(st, Finish(g)).active[s] == st.active[s]
    {
      FinishKeepsStored(st, g, st.running[k].slot);
    }
    forall g, s | g in st.running && s in st.active && st.active[s] != st.running[g].handle
      ensures s in Apply(st, Finish(g)).active && Apply(st, Finish(g)).active[s] == st.active[s]
    {
      FinishKeepsStored(st, g, s);
    }
    assert forall s | s in st.active :: Owned(st, s);
    if st.running == map[] && st.refresher.Idle? {
      assert forall s :: s !in st.active;
    }
  }

  /** A handle is cancelled by the launch that replaces it, and by nothing else: the step cancels what was stored
      for its slot when the launch loaded it. */
  lemma CancelledByReplacement(st0: State, acts: seq<Action>, st: State, a: Action, h: nat)
    requires Init(st0) && Run(st0, acts, st) && Enabled(st, a)
    requires h !in st.cancelled && h in Apply(st, a).cancelled
    ensures a.CancelPrevious? && st.refresher.prev == Some(h)
    ensures forall g | g in st.running && st.running[g].handle == h :: st.running[g].slot == st.refresher.slot
  {
    HandleRun(st0, acts, st);
    PrevRun(st0, acts, st);
  }

  /** The handle that a launch has loaded belongs to its slot, and so does each stored one. */
  ghost predicate PrevInv(st: State) {
    && (forall s, g | s in st.active && g in st.running && st.running[g].handle == st.active[s] ::
          st.running[g].slot == s)
    && (forall s, t | s in st.active && t in st.active && st.active[s] == st.active[t] :: s == t)
    && (st.refresher.Loaded? && st.refresher.prev.Some? ==>
          && st.refresher.prev.value < st.next
          && (forall g | g in st.running && st.running[g].handle == st.refresher.prev.value ::
                st.running[g].slot == st.refresher.slot))
  }

  lemma PrevStep(st: State, a: Action)
    requires HandleInv(st) && PrevInv(st) && Enabled(st, a)
    ensures PrevInv(Apply(st, a))
  {
  }

  lemma {:induction false} PrevRun(st: State, acts: seq<Action>, st': State)
    requires HandleInv(st) && PrevInv(st) && Run(st, acts, st')
    ensures PrevInv(st')
    decreases |acts|
  {
    if acts == [] {
    } else {
      HandleStep(st, acts[0]);
      PrevStep(st, acts[0]);
      PrevRun(Apply(st, acts[0]), acts[1..], st');
    }
  }

  /** A launch, undisturbed or interleaved with finishing goroutines, ends with a goroutine for its slot that has a
      fresh handle, which is stored and not cancelled. */
  lemma LaunchStarts(st0: State, acts: seq<Action>, st: State, g: nat)
    requires Init(st0) && Run(st0, acts, st) && Enabled(st, Launch(g))
    ensures var st' := Apply(st, Launch(g));
            && Live(st', g) && st'.running[g].slot == st.refresher.slot && st'.refresher.Idle?
            && st.refresher.slot in st'.active && st'.active[st.refresher.slot] == st'.running[g].handle
            && (forall k | k in st.running :: st.running[k].handle != st'.running[g].handle)
            && (forall k | k in st.running :: k in st'.running && st'.running[k] == st.running[k])
  {
    HandleRun(st0, acts, st);
  }

  /** The slot that the refresh in progress launches for. */
  function LaunchSlot(r: Refresher): Option<nat> {
    match r
    case Idle => None
    case Loaded(slot, _) => Some(slot)
    case Replacing(slot) => Some(slot)
    case Stored(slot, _) => Some(slot)
  }

  /** A launch begun for a slot, whatever finishes in between, is a launch for that slot, and when it has cancelled
      the previous handle no goroutine for the slot is live until the new one. */
  lemma {:induction false} LaunchForSlot(st: State, acts: seq<Action>, st': State, slot: nat)
    requires HandleInv(st) && LaunchSlot(st.refresher) == Some(slot) && Run(st, acts, st')
    requires forall a | a in acts :: !a.Launch?
    ensures LaunchSlot(st'.refresher) == Some(slot)
    ensures !st'.refresher.Loaded? ==> forall g | Live(st', g) :: st'.running[g].slot != slot
    decreases |acts|
  {
    if acts == [] {
    } else {
      assert acts[0] in acts && forall a | a in acts[1..] :: a in acts;
      HandleStep(st, acts[0]);
      LaunchForSlot(Apply(st, acts[0]), acts[1..], st', slot);
    }
  }

  lemma LaunchBegins(st: State, slot: nat)
    requires HandleInv(st) && Enabled(st, Load(slot))
    ensures LaunchSlot(Apply(st, Load(slot)).refresher) == Some(slot)
  {
  }
}
