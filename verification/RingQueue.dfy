/** The ring-buffer queue: a power-of-two array with bitwise modulus that doubles and halves. */
module RingQueue {

  const MIN_QUEUE_LEN := 16

  // ---- Bitwise modulus ----

  /** `a & b` on non-negative integers, bit by bit. */
  function BitAnd(a: nat, b: nat): nat
    decreases b
  {
    if b == 0 then 0 else 2 * BitAnd(a / 2, b / 2) + (a % 2) * (b % 2)
  }

  predicate PowerOfTwo(n: nat) {
    n == 1 || (n > 0 && n % 2 == 0 && PowerOfTwo(n / 2))
  }

  lemma RemainderIsUnique(x: int, n: int, q: int, r: int)
    requires n > 0 && 0 <= r < n && x == n * q + r
    ensures x % n == r
  {
    var p, s := x / n, x % n;
    assert n * (q - p) == s - r;
    SmallMultiple(n, q - p);
  }

  lemma SmallMultiple(n: int, k: int)
    requires n > 0 && -n < n * k < n
    ensures k == 0
  {
    assert k >= 1 ==> n * k >= n;
    assert k <= -1 ==> n * k <= -n;
  }

  /** The lowest bit splits off a remainder by an even number. */
  lemma HalfRemainder(x: nat, k: nat)
    requires k > 0
    ensures x % (2 * k) == 2 * ((x / 2) % k) + x % 2
  {
    var y := x / 2;
    assert y == k * (y / k) + y % k;
    assert 2 * (k * (y / k)) == (2 * k) * (y / k);
    RemainderIsUnique(x, 2 * k, y / k, 2 * (y % k) + x % 2);
  }

  /** Masking with n - 1 is the remainder by n, for a power of two. */
  lemma {:induction false} MaskIsRemainder(x: nat, n: nat)
    requires PowerOfTwo(n)
    ensures BitAnd(x, n - 1) == x % n
  {
    if n > 1 {
      var k := n / 2;
      MaskIsRemainder(x / 2, k);
      HalfRemainder(x, k);
      assert (n - 1) / 2 == k - 1 && (n - 1) % 2 == 1;
    }
  }

  /** The array index k places after the head of a ring of n slots. */
  function Slot(head: nat, k: nat, n: nat): (r: nat)
    requires head < n && k <= n
    ensures r < n && (r == head + k || r + n == head + k)
  {
    if head + k < n then head + k else head + k - n
  }

  lemma MaskWraps(head: nat, n: nat)
    requires PowerOfTwo(n) && head < n
    ensures BitAnd(head + 1, n - 1) == Slot(head, 1, n) == (head + 1) % n
  {
    MaskIsRemainder(head + 1, n);
    RemainderIsUnique(head + 1, n, if head + 1 < n then 0 else 1, Slot(head, 1, n));
  }

  lemma PowerAbove16(n: nat)
    requires PowerOfTwo(n) && n > 16
    ensures n >= 32 && n % 4 == 0
  {
    assert PowerOfTwo(n / 2);
    assert PowerOfTwo(n / 4);
    assert PowerOfTwo(n / 8);
    assert PowerOfTwo(n / 16);
  }

  // ---- The ring as a value ----

  /** Ring b holds s from the head on, and every other slot is vacated. */
  ghost predicate Holds<T>(b: seq<T>, head: nat, s: seq<T>, zero: T) {
    && head < |b| && |s| <= |b|
    && (forall k :: 0 <= k < |s| ==> b[Slot(head, k, |b|)] == s[k])
    && forall k :: |s| <= k < |b| ==> b[Slot(head, k, |b|)] == zero
  }

  lemma PushHolds<T>(b: seq<T>, head: nat, s: seq<T>, zero: T, elem: T)
    requires Holds(b, head, s, zero) && |s| < |b|
    ensures Holds(b[Slot(head, |s|, |b|) := elem], head, s + [elem], zero)
    ensures Slot(Slot(head, |s|, |b|), 1, |b|) == Slot(head, |s| + 1, |b|)
  {
  }

  lemma PopHolds<T>(b: seq<T>, head: nat, s: seq<T>, zero: T)
    requires Holds(b, head, s, zero) && |s| > 0
    ensures b[head] == s[0]
    ensures Holds(b[head := zero], Slot(head, 1, |b|), s[1..], zero)
    ensures Slot(Slot(head, 1, |b|), |s| - 1, |b|) == Slot(head, |s|, |b|)
  {
    var h, c, n := Slot(head, 1, |b|), b[head := zero], |b|;
    assert Slot(head, 0, n) == head;
    forall k | 0 <= k < n - 1
      ensures Slot(h, k, n) == Slot(head, k + 1, n) && Slot(h, k, n) != head
    {
    }
    assert Slot(h, n - 1, n) == head;
  }

  /** The two copies of `resize` unroll the ring. */
  lemma ResizeHolds<T>(b: seq<T>, head: nat, tail: nat, s: seq<T>, zero: T, c: seq<T>)
    requires Holds(b, head, s, zero) && 0 < |s| && tail == Slot(head, |s|, |b|)
    requires |c| == |s| && forall k :: 0 <= k < |c| ==> c[k] == zero
    ensures
      var unrolled := if tail > head then b[head..tail] else b[head..] + b[..tail];
      |unrolled| == |s| && Holds(unrolled + c, 0, s, zero)
  {
    var unrolled := if tail > head then b[head..tail] else b[head..] + b[..tail];
    forall k | 0 <= k < |s| ensures unrolled[k] == s[k] {
      assert unrolled[k] == b[Slot(head, k, |b|)];
    }
  }

  // ---- Amortised cost ----

  /** Copies the past operations have already paid for: they cover the next growth or shrink. */
  function Potential(capacity: nat, count: nat): int {
    if 2 * count >= capacity then 2 * count - capacity
    else if capacity > MIN_QUEUE_LEN then capacity / 2 - count
    else 0
  }

  /** Go's `copy(dst[at:], src[lo:hi])`. */
  method Copy<T>(dst: array<T>, at: nat, src: array<T>, lo: nat, hi: nat)
    requires dst != src && lo <= hi <= src.Length && at + hi - lo <= dst.Length
    modifies dst
    ensures dst[..] == old(dst[..at]) + src[lo..hi] + old(dst[at + hi - lo..])
  {
    forall i | 0 <= i < hi - lo { dst[at + i] := src[lo + i]; }
  }

  /** The new buffer of `resize`: the occupied run or the two runs around the end, then zero values. */
  method Unroll<T>(buf: array<T>, head: nat, tail: nat, count: nat, zero: T) returns (newBuf: array<T>)
    requires head < buf.Length && tail < buf.Length
    requires count == if tail > head then tail - head else buf.Length - head + tail
    ensures fresh(newBuf)
    ensures newBuf[..] == (if tail > head then buf[..][head..tail] else buf[..][head..] + buf[..][..tail]) + seq(count, _ => zero)
  {
    newBuf := new T[2 * count](_ => zero);
    ghost var blank := seq(count, _ => zero);
    if tail > head {
      Copy(newBuf, 0, buf, head, tail);
      assert newBuf[..] == buf[..][head..tail] + blank;
    } else {
      Copy(newBuf, 0, buf, head, buf.Length);
      assert newBuf[..] == buf[..][head..] + seq(count + tail, _ => zero);
      Copy(newBuf, buf.Length - head, buf, 0, tail);
      assert newBuf[..] == buf[..][head..] + buf[..][..tail] + blank;
    }
  }

  class Queue<T> {
    const zero: T
    var buf: array<T>
    var head: nat
    var tail: nat
    var count: nat
    ghost var operations: nat  // pushes and successful pops so far
    ghost var copied: nat      // elements moved by resize so far

    ghost var contents: seq<T>

    /** The shape of the ring: the contents follow the head, every other slot is vacated. */
    ghost predicate Ring()
      reads this, buf
    {
      && buf.Length >= MIN_QUEUE_LEN && PowerOfTwo(buf.Length)
      && head < buf.Length && count == |contents| <= buf.Length && tail == Slot(head, count, buf.Length)
      && Holds(buf[..], head, contents, zero)
    }

    ghost predicate Valid()
      reads this, buf
    {
      && Ring()
      && (buf.Length > MIN_QUEUE_LEN ==> buf.Length < 4 * count)
      && copied + Potential(buf.Length, count) <= 2 * operations
    }

    constructor (zero: T)
      ensures Valid() && fresh(buf) && contents == [] && this.zero == zero && buf.Length == 16
      ensures operations == 0 && copied == 0
    {
      this.zero := zero;
      buf := new T[MIN_QUEUE_LEN](_ => zero);
      head, tail, count := 0, 0, 0;
      contents, operations, copied := [], 0, 0;
      new;
      assert PowerOfTwo(4);
      assert PowerOfTwo(8);
    }

    method Len() returns (n: nat)
      requires Valid()
      ensures n == |contents|
    {
      n := count;
    }

    /** The part of `Push` after it has made room. */
    method AppendTail(elem: T)
      requires Ring() && count < buf.Length
      modifies this, buf
      ensures Ring() && buf == old(buf) && contents == old(contents) + [elem]
      ensures operations == old(operations) && copied == old(copied)
    {
      ghost var ring := buf[..];
      PushHolds(ring, head, contents, zero, elem);
      buf[tail] := elem;
      assert buf[..] == ring[tail := elem];
      MaskWraps(tail, buf.Length);
      tail := BitAnd(tail + 1, buf.Length - 1);
      count := count + 1;
      contents := contents + [elem];
    }

    method Push(elem: T)
      requires Valid()
      modifies this, buf
      ensures Valid() && (buf == old(buf) || fresh(buf))
      ensures contents == old(contents) + [elem]
      ensures operations == old(operations) + 1 && copied <= 2 * operations
    {
      if count == buf.Length {
        Resize();
      }
      AppendTail(elem);
      operations := operations + 1;
    }

    /** The part of `Pop` before it looks at the size. */
    method TakeHead() returns (t: T)
      requires Ring() && count > 0
      modifies this, buf
      ensures Ring() && buf == old(buf) && t == old(contents)[0] && contents == old(contents)[1..]
      ensures operations == old(operations) && copied == old(copied)
    {
      ghost var ring := buf[..];
      PopHolds(ring, head, contents, zero);
      t := buf[head];
      buf[head] := zero;
      assert buf[..] == ring[head := zero];
      MaskWraps(head, buf.Length);
      head := BitAnd(head + 1, buf.Length - 1);
      count := count - 1;
      contents := contents[1..];
    }

    /** The source answers an empty queue with the zero value and an error. */
    method Pop() returns (t: T, ok: bool)
      requires Valid()
      modifies this, buf
      ensures Valid() && (buf == old(buf) || fresh(buf))
      ensures ok <==> old(contents) != []
      ensures ok ==> t == old(contents)[0] && contents == old(contents)[1..]
      ensures !ok ==> t == zero && contents == old(contents)
      ensures operations == old(operations) + (if ok then 1 else 0) && copied <= 2 * operations
    {
      if count <= 0 {
        return zero, false;
      }
      t := TakeHead();
      ok := true;
      operations := operations + 1;
      if buf.Length > MIN_QUEUE_LEN { PowerAbove16(buf.Length); }
      if buf.Length > MIN_QUEUE_LEN && 4 * count == buf.Length {
        Resize();
      }
    }

    method Peek() returns (t: T, ok: bool)
      requires Valid()
      ensures ok <==> contents != []
      ensures t == if ok then contents[0] else zero
    {
      if count <= 0 {
        return zero, false;
      }
      return buf[head], true;
    }

    /** `resize`: a buffer of exactly twice the contents, unrolled to start at 0. */
    method Resize()
      requires Ring() && 8 <= count && (count == buf.Length || 4 * count == buf.Length)
      modifies this`buf, this`head, this`tail, this`copied
      ensures Ring() && fresh(buf) && buf.Length == 2 * count && head == 0
      ensures contents == old(contents) && copied == old(copied) + count
    {
      var newBuf := Unroll(buf, head, tail, count, zero);
      ResizeHolds(buf[..], head, tail, contents, zero, seq(count, _ => zero));
      assert PowerOfTwo(2 * buf.Length);
      assert PowerOfTwo(buf.Length / 2);
      head := 0;
      tail := count;
      buf := newBuf;
      copied := copied + count;
    }
  }
}
