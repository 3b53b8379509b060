/** The circular buffer behind every subscription's callback queue (ringbuf.go). */
module Ring {

  const INITIAL_CAP: nat := 16

  /** The position reached by stepping past the end of an n-slot buffer at most once. */
  function Wrap(x: nat, n: nat): (r: nat)
    requires x < 2 * n
    ensures r < n
  {
    if x < n then x else x - n
  }

  lemma WrapIsMod(x: nat, n: nat)
    requires x < 2 * n
    ensures Wrap(x, n) == x % n
  {
    if n <= x {
      assert x == n * 1 + (x - n);
    }
  }

  /** How far slot i lies behind the front of the ring. */
  function Offset(i: nat, head: nat, n: nat): (k: nat)
    requires i < n && head < n
    ensures k < n && Wrap(head + k, n) == i
  {
    if head <= i then i - head else i + n - head
  }

  /** The live elements, front first. */
  function Window<T>(buf: seq<T>, head: nat, count: nat): (w: seq<T>)
    requires head < |buf| && count <= |buf|
    ensures |w| == count
    ensures forall k :: 0 <= k < count ==> w[k] == buf[Wrap(head + k, |buf|)]
  {
    seq(count, k requires 0 <= k < count => buf[Wrap(head + k, |buf|)])
  }

  /** Every slot outside the live window holds the zero value. */
  ghost predicate Vacated<T>(buf: seq<T>, head: nat, count: nat, zero: T)
    requires head < |buf| && count <= |buf|
  {
    forall i :: 0 <= i < |buf| && count <= Offset(i, head, |buf|) ==> buf[i] == zero
  }

  lemma PushWindow<T>(buf: seq<T>, head: nat, count: nat, zero: T, x: T)
    requires head < |buf| && count < |buf| && Vacated(buf, head, count, zero)
    ensures var buf' := buf[Wrap(head + count, |buf|) := x];
            && Window(buf', head, count + 1) == Window(buf, head, count) + [x]
            && Vacated(buf', head, count + 1, zero)
  {
  }

  lemma PopWindow<T>(buf: seq<T>, head: nat, count: nat, zero: T)
    requires head < |buf| && 0 < count <= |buf| && Vacated(buf, head, count, zero)
    ensures var buf', head' := buf[head := zero], Wrap(head + 1, |buf|);
            && Window(buf, head, count) == [buf[head]] + Window(buf', head', count - 1)
            && Vacated(buf', head', count - 1, zero)
  {
  }

  class PendingCallbackRing<T> {
    var buf: array?<T>
    var head: nat
    var tail: nat
    var count: nat
    var fixed: bool
    const zero: T

    // Accounting: total pushes, longest length reached, elements copied by Grow.
    ghost var pushes: nat
    ghost var peak: nat
    ghost var copies: nat

    /** The indices describe a window of the buffer, and everything outside it is zero. */
    ghost predicate Shape()
      reads this, buf
    {
      if buf == null then
        head == 0 && tail == 0 && count == 0
      else
        && 0 < buf.Length && head < buf.Length && count <= buf.Length
        && tail == Wrap(head + count, buf.Length)
        && Vacated(buf[..], head, count, zero)
    }

    ghost predicate Valid()
      reads this, buf
    {
      && Shape()
      && count <= peak <= pushes
      && (if buf == null || fixed then copies == 0
          else
            && copies + INITIAL_CAP == buf.Length
            && (buf.Length == INITIAL_CAP || buf.Length < 2 * peak))
    }

    ghost function Contents(): (s: seq<T>)
      requires Shape()
      reads this, buf
      ensures |s| == count
    {
      if buf == null then [] else Window(buf[..], head, count)
    }

    constructor (zero: T)
      ensures Valid() && Contents() == [] && buf == null && this.zero == zero
    {
      this.zero := zero;
      buf, head, tail, count, fixed := null, 0, 0, 0, false;
      pushes, peak, copies := 0, 0, 0;
    }

    method InitRing(capacity: int)
      requires Valid() && buf == null
      modifies this
      ensures Valid() && Contents() == [] && buf != null && fresh(buf)
      ensures fixed == (capacity > 0)
      ensures buf.Length == if capacity > 0 then capacity else INITIAL_CAP
    {
      if capacity > 0 {
        buf := new T[capacity](_ => zero);
        fixed := true;
      } else {
        buf := new T[INITIAL_CAP](_ => zero);
        fixed := false;
      }
      head, tail, count := 0, 0, 0;
    }

    /** Appends; refuses only when the ring is bounded and full. */
    method Push(item: T) returns (ok: bool)
      requires Valid() && buf != null
      modifies this, buf
      ensures Valid() && buf != null && fixed == old(fixed)
      ensures fresh(buf) || buf == old(buf)
      ensures ok == !(fixed && old(count) == old(buf.Length))
      ensures Contents() == if ok then old(Contents()) + [item] else old(Contents())
      ensures old(count) < old(buf.Length) || !ok ==> buf == old(buf)
      ensures old(count) == old(buf.Length) && ok ==> buf.Length == 2 * old(buf.Length)
      ensures pushes == if ok then old(pushes) + 1 else old(pushes)
      ensures peak == if ok && old(peak) < count then count else old(peak)
    {
      if count == buf.Length {
        if fixed {
          return false;
        }
        Grow();
      }
      WriteTail(item);
      ok := true;
    }

    /** The part of push after the capacity check. */
    method WriteTail(item: T)
      requires Shape() && buf != null && count < buf.Length
      modifies this`tail, this`count, this`pushes, this`peak, buf
      ensures Shape() && Contents() == old(Contents()) + [item]
      ensures pushes == old(pushes) + 1
      ensures peak == if old(peak) < count then count else old(peak)
    {
      PushWindow(buf[..], head, count, zero, item);
      ghost var next := buf[..][tail := item];
      buf[tail] := item;
      assert buf[..] == next;
      WrapIsMod(tail + 1, buf.Length);
      tail := (tail + 1) % buf.Length;
      count := count + 1;
      pushes := pushes + 1;
      peak := if peak < count then count else peak;
    }

    /** Removes the front element and zeroes the slot it leaves. */
    method Pop() returns (item: T, ok: bool)
      requires Valid()
      modifies this, buf
      ensures Valid() && buf == old(buf) && fixed == old(fixed)
      ensures ok == (old(Contents()) != [])
      ensures if ok then [item] + Contents() == old(Contents()) else item == zero && Contents() == []
      ensures pushes == old(pushes) && peak == old(peak)
    {
      if count == 0 {
        return zero, false;
      }
      PopWindow(buf[..], head, count, zero);
      ghost var next := buf[..][head := zero];
      item := buf[head];
      buf[head] := zero;
      assert buf[..] == next;
      WrapIsMod(head + 1, buf.Length);
      head := (head + 1) % buf.Length;
      count := count - 1;
      ok := true;
    }

    method Len() returns (n: nat)
      requires Valid()
      ensures n == |Contents()|
    {
      n := count;
    }

    /** A buffer of twice the length with the elements at the front, in order. */
    method Unrolled() returns (newBuf: array<T>)
      requires Shape() && buf != null
      ensures fresh(newBuf) && newBuf.Length == 2 * buf.Length
      ensures forall k :: 0 <= k < count && k < newBuf.Length ==> newBuf[k] == Contents()[k]
      ensures forall k :: count <= k < newBuf.Length ==> newBuf[k] == zero
    {
      var n := buf.Length;
      newBuf := new T[n * 2](_ => zero);
      if head < tail {
        forall i | 0 <= i < tail - head {
          newBuf[i] := buf[head + i];
        }
      } else {
        forall i | 0 <= i < n - head {
          newBuf[i] := buf[head + i];
        }
        forall i | 0 <= i < tail {
          newBuf[n - head + i] := buf[i];
        }
      }
    }

    /** Doubles the buffer, moving the elements to the front in order. */
    method Grow()
      requires Shape() && buf != null
      modifies this
      ensures Shape() && buf != null && fresh(buf) && buf.Length == 2 * old(buf.Length)
      ensures Contents() == old(Contents()) && head == 0
      ensures fixed == old(fixed) && pushes == old(pushes) && peak == old(peak)
      ensures old(0 < count) ==> copies == old(copies) + count
    {
      ghost var was := Contents();
      var newBuf := Unrolled();
      copies := copies + if head < tail then tail - head else buf.Length - head + tail;
      buf := newBuf;
      head := 0;
      tail := count;
      assert Contents() == was;
    }

    /** A grown buffer never reaches twice the longest queue seen, and all the copying done by
        growing is paid for by pushes. */
    lemma GrowthBounds()
      requires Valid() && buf != null && !fixed
      ensures buf.Length == INITIAL_CAP || buf.Length < 2 * peak
      ensures copies == 0 || copies < 2 * pushes
    {
    }
  }
}
