/**
 The microphone ring of the Anland backend (src/backend/anland/anland_audio.c): a drop-oldest circular byte
 buffer, shown to behave as a bounded queue, and what becomes of every byte over a run.
 */
module MicRing {
  import opened Arithmetic

  type Byte = b: int | 0 <= b < 256

  // ----- the queue the ring stands for

  function Min(a: nat, b: nat): nat { if a < b then a else b }

  /** The last `n` elements, all of them when there are fewer. */
  function LastOf<T>(s: seq<T>, n: nat): seq<T> { s[|s| - Min(|s|, n)..] }

  function FirstOf<T>(s: seq<T>, n: nat): seq<T> { s[..Min(|s|, n)] }

  datatype Op = Write(p: seq<Byte>) | Read(n: nat) | Reset

  /** What the queue holds, what its readers were given so far, and what was never given to them. */
  datatype Queue = Queue(stored: seq<Byte>, read: seq<Byte>, dropped: seq<Byte>)

  function Step(q: Queue, size: nat, op: Op): Queue {
    match op
    case Write(p) =>
      var all := q.stored + p;
      Queue(LastOf(all, size), q.read, q.dropped + all[..|all| - Min(|all|, size)])
    case Read(n) => Queue(q.stored[Min(|q.stored|, n)..], q.read + FirstOf(q.stored, n), q.dropped)
    case Reset => Queue([], q.read, q.dropped + q.stored)
  }

  function Run(q: Queue, size: nat, ops: seq<Op>): Queue
    decreases |ops|
  {
    if ops == [] then q else Run(Step(q, size, ops[0]), size, ops[1..])
  }

  /** All bytes ever written, in order: a byte is known by its position here. */
  function Stream(ops: seq<Op>): seq<Byte>
    decreases |ops|
  {
    if ops == [] then []
    else (if ops[0].Write? then ops[0].p else []) + Stream(ops[1..])
  }

  // ----- the fate of each position

  /** Positions `from` up to `upto` are stored, those before were read or dropped. */
  datatype Fates = Fates(read: seq<nat>, dropped: seq<nat>, from: nat, upto: nat)

  function Range(a: nat, b: nat): (r: seq<nat>)
    requires a <= b
    ensures |r| == b - a && forall i :: 0 <= i < |r| ==> r[i] == a + i
  {
    seq(b - a, i requires 0 <= i => a + i)
  }

  function Follow(f: Fates, size: nat, op: Op): (f': Fates)
    requires f.from <= f.upto
    ensures f.from <= f'.from <= f'.upto
  {
    match op
    case Write(p) =>
      var upto := f.upto + |p|;
      var from := if upto - f.from > size then upto - size else f.from;
      Fates(f.read, f.dropped + Range(f.from, from), from, upto)
    case Read(n) =>
      var from := f.from + Min(f.upto - f.from, n);
      Fates(f.read + Range(f.from, from), f.dropped, from, f.upto)
    case Reset => Fates(f.read, f.dropped + Range(f.from, f.upto), f.upto, f.upto)
  }

  function FollowAll(f: Fates, size: nat, ops: seq<Op>): Fates
    requires f.from <= f.upto
    decreases |ops|
  {
    if ops == [] then f else FollowAll(Follow(f, size, ops[0]), size, ops[1..])
  }

  predicate Increasing(s: seq<nat>) { forall i, j :: 0 <= i < j < |s| ==> s[i] < s[j] }

  predicate Below(s: seq<nat>, n: nat) { forall i :: 0 <= i < |s| ==> s[i] < n }

  /** Two increasing lists that share out the positions before `n` between them. */
  ghost predicate SharedOut(a: seq<nat>, b: seq<nat>, n: nat) {
    && Increasing(a) && Increasing(b)
    && Below(a, n) && Below(b, n)
    && forall k: nat :: k < n ==> multiset(a)[k] + multiset(b)[k] == 1
  }

  /** Every position that is no longer stored was read or dropped, once, and in order. */
  ghost predicate Accounted(f: Fates) { f.from <= f.upto && SharedOut(f.read, f.dropped, f.from) }

  lemma CountRange(a: nat, b: nat)
    requires a <= b
    ensures forall k: nat :: multiset(Range(a, b))[k] == if a <= k < b then 1 else 0
    decreases b
  {
    if a == b {
    } else {
      CountRange(a, b - 1);
      assert Range(a, b) == Range(a, b - 1) + [b - 1];
    }
  }

  lemma Grow(a: seq<nat>, b: seq<nat>, n: nat, n': nat)
    requires SharedOut(a, b, n) && n <= n'
    ensures SharedOut(a + Range(n, n'), b, n')
  {
    CountRange(n, n');
    var r: seq<nat> := a + Range(n, n');
    forall k: nat | k < n' ensures multiset(r)[k] + multiset(b)[k] == 1 {
      assert multiset(r)[k] == multiset(a)[k] + multiset(Range(n, n'))[k];
      if n <= k {
        assert k !in a && k !in b;
      }
    }
  }

  lemma FollowAccounts(f: Fates, size: nat, op: Op)
    requires Accounted(f)
    ensures Accounted(Follow(f, size, op))
  {
    var f' := Follow(f, size, op);
    hide SharedOut;
    if op.Read? {
      Grow(f.read, f.dropped, f.from, f'.from);
    } else {
      Swap(f.read, f.dropped, f.from);
      Grow(f.dropped, f.read, f.from, f'.from);
      Swap(f'.dropped, f'.read, f'.from);
    }
  }

  lemma Swap(a: seq<nat>, b: seq<nat>, n: nat)
    requires SharedOut(a, b, n)
    ensures SharedOut(b, a, n)
  {
  }

  /** Conservation over any interleaving: read + dropped + stored is what was written, each position once. */
  lemma {:induction false} EveryByteAccounted(f: Fates, size: nat, ops: seq<Op>)
    requires Accounted(f)
    ensures var f' := FollowAll(f, size, ops);
            && Accounted(f')
            && f'.upto == f.upto + |Stream(ops)|
            && |f'.read| + |f'.dropped| + (f'.upto - f'.from)
               == |f.read| + |f.dropped| + (f.upto - f.from) + |Stream(ops)|
    decreases |ops|
  {
    if ops == [] {
    } else {
      FollowAccounts(f, size, ops[0]);
      EveryByteAccounted(Follow(f, size, ops[0]), size, ops[1..]);
    }
  }

  /** The bytes of a stream at some of its positions. */
  function Pick(s: seq<Byte>, at: seq<nat>): (r: seq<Byte>)
    requires Below(at, |s|)
    ensures |r| == |at| && forall i :: 0 <= i < |r| ==> r[i] == s[at[i]]
  {
    seq(|at|, i requires 0 <= i < |at| => s[at[i]])
  }

  /** The queue holds, gave out and lost exactly the bytes at the positions the fates name. */
  predicate Matches(q: Queue, f: Fates, s: seq<Byte>) {
    && f.from <= f.upto == |s|
    && Below(f.read, |s|) && Below(f.dropped, |s|)
    && q.stored == s[f.from..]
    && q.read == Pick(s, f.read)
    && q.dropped == Pick(s, f.dropped)
  }

  lemma PickGrows(s: seq<Byte>, t: seq<Byte>, at: seq<nat>, a: nat, b: nat)
    requires Below(at, |s|) && a <= b <= |s + t|
    ensures Below(at + Range(a, b), |s + t|)
    ensures Pick(s + t, at + Range(a, b)) == Pick(s, at) + (s + t)[a..b]
  {
    var all := at + Range(a, b);
    var bytes := (s + t)[a..b];
    forall k | k in all ensures k < |s + t| { assert k in at || k in Range(a, b); }
    forall i | 0 <= i < |all| ensures (s + t)[all[i]] == (Pick(s, at) + bytes)[i] {
      if i < |at| {
        assert at[i] in at;
      }
    }
  }

  lemma StepMatches(q: Queue, f: Fates, s: seq<Byte>, size: nat, op: Op)
    requires Matches(q, f, s)
    ensures Matches(Step(q, size, op), Follow(f, size, op), s + if op.Write? then op.p else [])
  {
    var t := if op.Write? then op.p else [];
    var f' := Follow(f, size, op);
    assert (s + t)[f.from..] == q.stored + t;
    if op.Read? {
      PickGrows(s, t, f.read, f.from, f'.from);
      PickGrows(s, t, f.dropped, 0, 0);
      assert f.dropped + Range(0, 0) == f.dropped;
      assert FirstOf(q.stored, op.n) == (s + t)[f.from..f'.from];
    } else {
      PickGrows(s, t, f.dropped, f.from, f'.from);
      PickGrows(s, t, f.read, 0, 0);
      assert f.read + Range(0, 0) == f.read;
      assert (s + t)[f.from..f'.from] == (q.stored + t)[..f'.from - f.from];
    }
  }

  lemma {:induction false} RunMatches(q: Queue, f: Fates, s: seq<Byte>, size: nat, ops: seq<Op>)
    requires f.from <= f.upto && Matches(q, f, s)
    ensures Matches(Run(q, size, ops), FollowAll(f, size, ops), s + Stream(ops))
    decreases |ops|
  {
    hide Matches, Follow, Step;
    if ops == [] {
      assert s + Stream(ops) == s;
    } else {
      var q', f' := Step(q, size, ops[0]), Follow(f, size, ops[0]);
      var t := if ops[0].Write? then ops[0].p else [];
      StepMatches(q, f, s, size, ops[0]);
      RunMatches(q', f', s + t, size, ops[1..]);
      assert Run(q, size, ops) == Run(q', size, ops[1..]);
      assert FollowAll(f, size, ops) == FollowAll(f', size, ops[1..]);
      assert (s + t) + Stream(ops[1..]) == s + (t + Stream(ops[1..]));
    }
  }

  const EMPTY := Queue([], [], [])
  const NONE := Fates([], [], 0, 0)

  /** From an empty ring: the readers see an in-order subsequence of the stream, the ring holds its end. */
  lemma ReadersSeeASubsequence(size: nat, ops: seq<Op>)
    ensures var q, f, s := Run(EMPTY, size, ops), FollowAll(NONE, size, ops), Stream(ops);
            && Accounted(f) && f.upto == |s|
            && Below(f.read, |s|) && q.read == Pick(s, f.read)
            && Below(f.dropped, |s|) && q.dropped == Pick(s, f.dropped)
            && q.stored == s[f.from..]
  {
    EveryByteAccounted(NONE, size, ops);
    RunMatches(EMPTY, NONE, [], size, ops);
    assert [] + Stream(ops) == Stream(ops);
  }

  // ----- the code

  /** memcpy: `p` written over `a` at an offset. */
  function Overlay(a: seq<Byte>, at: nat, p: seq<Byte>): (r: seq<Byte>)
    requires at + |p| <= |a|
    ensures |r| == |a|
  {
    a[..at] + p + a[at + |p|..]
  }

  method Copy(dst: array<Byte>, at: nat, p: seq<Byte>)
    requires at + |p| <= dst.Length
    modifies dst
    ensures dst[..] == Overlay(old(dst[..]), at, p)
  {
    forall i | 0 <= i < |p| {
      dst[at + i] := p[i];
    }
  }

  function Wrap(x: nat, n: nat): (r: nat)
    requires x < 2 * n
    ensures r < n
  {
    if x < n then x else x - n
  }

  /** What a circular buffer holds: `fill` bytes from `tail` on, around the end. */
  function Unrolled(a: seq<Byte>, tail: nat, fill: nat): (r: seq<Byte>)
    requires tail < |a| && fill <= |a|
    ensures |r| == fill
  {
    (a + a)[tail..tail + fill]
  }

  lemma UnrolledAt(a: seq<Byte>, tail: nat, fill: nat)
    requires tail < |a| && fill <= |a|
    ensures forall i :: 0 <= i < fill ==> Unrolled(a, tail, fill)[i] == a[Wrap(tail + i, |a|)]
  {
  }

  lemma AdvanceTail(a: seq<Byte>, tail: nat, fill: nat, d: nat)
    requires tail < |a| && d <= fill <= |a|
    ensures Unrolled(a, Wrap(tail + d, |a|), fill - d) == Unrolled(a, tail, fill)[d..]
  {
    var t := Wrap(tail + d, |a|);
    forall i | 0 <= i < fill - d ensures Unrolled(a, t, fill - d)[i] == Unrolled(a, tail, fill)[d..][i] {
      assert (a + a)[t + i] == (a + a)[tail + d + i];
    }
  }

  lemma AdvanceHead(tail: nat, fill: nat, n: nat, size: nat)
    requires tail < size && fill + n <= size
    ensures (Wrap(tail + fill, size) + n) % size == Wrap(tail + (fill + n), size)
  {
    Modulo(Wrap(tail + fill, size) + n, size);
  }

  /** The two copies of a read. */
  lemma TwoPartRead(a: seq<Byte>, tail: nat, got: nat)
    requires tail < |a| && got <= |a|
    ensures var first := Min(|a| - tail, got);
            Unrolled(a, tail, got) == a[tail..tail + first] + a[..got - first]
  {
  }

  lemma ReadFirst(a: seq<Byte>, tail: nat, fill: nat, got: nat)
    requires tail < |a| && got <= fill <= |a|
    ensures Unrolled(a, tail, got) == Unrolled(a, tail, fill)[..got]
  {
  }

  lemma OverlayTwice(a: seq<Byte>, p: seq<Byte>, q: seq<Byte>)
    requires |p| + |q| <= |a|
    ensures Overlay(Overlay(a, 0, p), |p|, q) == p + q + a[|p| + |q|..]
  {
  }

  /** The two copies of a write, into the free part of the ring. */
  function Written(a: seq<Byte>, head: nat, p: seq<Byte>): (b: seq<Byte>)
    requires head < |a| && |p| <= |a|
    ensures |b| == |a|
  {
    var first := Min(|a| - head, |p|);
    Overlay(Overlay(a, head, p[..first]), 0, p[first..])
  }

  lemma WrittenAt(a: seq<Byte>, head: nat, p: seq<Byte>, i: nat)
    requires head < |a| && |p| <= |a| && i < |a|
    ensures var k := Wrap(head + i, |a|);
            Written(a, head, p)[k] == if i < |p| then p[i] else a[k]
  {
  }

  lemma TwoPartWriteAt(a: seq<Byte>, tail: nat, fill: nat, p: seq<Byte>, i: nat)
    requires tail < |a| && fill + |p| <= |a| && i < fill + |p|
    ensures var b := Written(a, Wrap(tail + fill, |a|), p);
            b[Wrap(tail + i, |a|)] == if i < fill then a[Wrap(tail + i, |a|)] else p[i - fill]
  {
    var head := Wrap(tail + fill, |a|);
    var j := if i < fill then |a| - fill + i else i - fill;
    assert Wrap(tail + i, |a|) == Wrap(head + j, |a|);
    WrittenAt(a, head, p, j);
    hide Written;
  }

  lemma TwoPartWrite(a: seq<Byte>, tail: nat, fill: nat, p: seq<Byte>)
    requires tail < |a| && fill + |p| <= |a|
    ensures Unrolled(Written(a, Wrap(tail + fill, |a|), p), tail, fill + |p|) == Unrolled(a, tail, fill) + p
  {
    var head := Wrap(tail + fill, |a|);
    var b := Written(a, head, p);
    UnrolledAt(a, tail, fill);
    UnrolledAt(b, tail, fill + |p|);
    hide Written, Unrolled, Wrap;
    var u := Unrolled(b, tail, fill + |p|);
    forall i | 0 <= i < fill + |p| ensures u[i] == (Unrolled(a, tail, fill) + p)[i] {
      TwoPartWriteAt(a, tail, fill, p, i);
    }
  }

  lemma LastOfBoth(c: seq<Byte>, input: seq<Byte>, size: nat)
    ensures var p := LastOf(input, size);
            && p == (if |input| > size then input[|input| - size..] else input)
            && LastOf(c, size - |p|) + p == LastOf(c + input, size)
  {
  }

  class Ring {
    const ring: array<Byte>
    var head: nat
    var tail: nat
    var fill: nat

    ghost predicate Valid()
      reads this
    {
      && tail < ring.Length
      && fill <= ring.Length
      && head == Wrap(tail + fill, ring.Length)
    }

    ghost function Contents(): (s: seq<Byte>)
      requires Valid()
      reads this, ring
      ensures |s| == fill
    {
      Unrolled(ring[..], tail, fill)
    }

    constructor (size: nat)
      requires 0 < size
      ensures Valid() && fresh(ring) && ring.Length == size && Contents() == []
    {
      ring := new Byte[size];
      head, tail, fill := 0, 0, 0;
    }

    method Clear()
      requires Valid()
      modifies this
      ensures Valid() && Contents() == []
    {
      head, tail, fill := 0, 0, 0;
    }

    /** Makes room by forgetting the oldest bytes. */
    method Drop(n: nat)
      requires Valid() && n <= ring.Length
      modifies this`tail, this`fill
      ensures Valid() && fill + n <= ring.Length
      ensures Contents() == LastOf(old(Contents()), ring.Length - n)
    {
      if fill + n > ring.Length {
        var drop := fill + n - ring.Length;
        Modulo(tail + drop, ring.Length);
        AdvanceTail(ring[..], tail, fill, drop);
        tail := (tail + drop) % ring.Length;
        fill := fill - drop;
      }
    }

    method CopyIn(p: seq<Byte>)
      requires head < ring.Length && |p| <= ring.Length
      modifies ring
      ensures ring[..] == Written(old(ring[..]), head, p)
    {
      var first := ring.Length - head;
      if first > |p| {
        first := |p|;
      }
      Copy(ring, head, p[..first]);
      Copy(ring, 0, p[first..]);
    }

    method CopyOut(p: array<Byte>, got: nat)
      requires tail < ring.Length && got <= ring.Length && got <= p.Length && p != ring
      modifies p
      ensures p[..] == Unrolled(ring[..], tail, got) + old(p[got..])
    {
      var first := ring.Length - tail;
      if first > got {
        first := got;
      }
      TwoPartRead(ring[..], tail, got);
      var upper, lower := ring[tail..tail + first], ring[..got - first];
      OverlayTwice(p[..], upper, lower);
      assert Unrolled(ring[..], tail, got) == upper + lower;
      hide Unrolled, Overlay, Min;
      Copy(p, 0, upper);
      Copy(p, first, lower);
    }

    method RingWrite(input: seq<Byte>)
      requires Valid()
      modifies this, ring
      ensures Valid()
      ensures Contents() == LastOf(old(Contents()) + input, ring.Length)
                         == Step(Queue(old(Contents()), [], []), ring.Length, Write(input)).stored
    {
      hide Written, Unrolled, LastOf, Wrap, Min;
      var p := input;
      if |p| > ring.Length {
        p := p[|p| - ring.Length..];
      }
      var n := |p|;
      LastOfBoth(Contents(), input, ring.Length);
      Drop(n);
      TwoPartWrite(ring[..], tail, fill, p);
      CopyIn(p);
      AdvanceHead(tail, fill, n, ring.Length);
      head := (head + n) % ring.Length;
      fill := fill + n;
    }

    /** Returns the number of bytes put at the start of `p`; the rest of `p` is left alone. */
    method RingRead(p: array<Byte>, n: nat) returns (got: nat)
      requires Valid() && n <= p.Length && p != ring
      modifies this`tail, this`fill, p
      ensures Valid()
      ensures got == Min(|old(Contents())|, n)
      ensures p[..] == FirstOf(old(Contents()), n) + old(p[got..])
      ensures Contents() == old(Contents())[got..]
      ensures var q := Step(Queue(old(Contents()), [], []), ring.Length, Read(n));
              Contents() == q.stored && p[..got] == q.read
    {
      hide Unrolled;
      got := if n < fill then n else fill;
      ReadFirst(ring[..], tail, fill, got);
      AdvanceTail(ring[..], tail, fill, got);
      CopyOut(p, got);
      Modulo(tail + got, ring.Length);
      tail := (tail + got) % ring.Length;
      fill := fill - got;
    }

    /** on_source_process: as many whole frames as fit or were asked for, silence after the end of the ring. */
    method OnSourceProcess(data: array<Byte>, channels: nat, requested: nat) returns (bytes: nat)
      requires Valid() && data != ring && Stride(channels) != 0
      modifies this`tail, this`fill, data
      ensures Valid()
      ensures bytes == FramesOf(data.Length, Stride(channels), requested) * Stride(channels) <= data.Length
      ensures data[..] == Padded(FirstOf(old(Contents()), bytes), bytes) + old(data[bytes..])
      ensures Contents() == old(Contents())[Min(|old(Contents())|, bytes)..]
    {
      hide Unrolled, Overlay;
      var stride := Stride(channels);
      var frames := data.Length / stride;
      if requested != 0 && requested < frames {
        frames := requested;
      }
      FramesFit(data.Length, stride, requested);
      bytes := frames * stride;
      PadAfter(FirstOf(Contents(), bytes), bytes, data[..]);
      var got := RingRead(data, bytes);
      if got < bytes {
        Copy(data, got, Silence(bytes - got));
      }
    }
  }

  lemma PadAfter(s: seq<Byte>, n: nat, data: seq<Byte>)
    requires |s| <= n <= |data|
    ensures Overlay(s + data[|s|..], |s|, Silence(n - |s|)) == Padded(s, n) + data[n..]
    ensures |s| == n ==> s + data[|s|..] == Padded(s, n) + data[n..]
  {
  }

  /** Bytes of one frame of 16-bit samples, in 32-bit arithmetic. */
  function Stride(channels: nat): nat { (2 * channels) % 0x1_0000_0000 }

  function FramesOf(maxsize: nat, stride: nat, requested: nat): nat
    requires stride != 0
  {
    if requested == 0 then maxsize / stride else Min(maxsize / stride, requested)
  }

  function Silence(n: nat): (s: seq<Byte>)
    ensures |s| == n && forall i :: 0 <= i < n ==> s[i] == 0
  {
    seq(n, _ => 0)
  }

  function Padded(s: seq<Byte>, n: nat): (r: seq<Byte>)
    requires |s| <= n
    ensures |r| == n && forall i :: 0 <= i < n ==> r[i] == if i < |s| then s[i] else 0
  {
    s + Silence(n - |s|)
  }

  /** Never more than fits, never more than was asked for, and one more frame would be one of these. */
  lemma FramesFit(maxsize: nat, stride: nat, requested: nat)
    requires stride != 0
    ensures var n := FramesOf(maxsize, stride, requested);
            && n * stride <= maxsize && (requested != 0 ==> n <= requested)
            && ((n + 1) * stride > maxsize || n == requested != 0)
  {
    var q := maxsize / stride;
    assert q * stride <= maxsize < (q + 1) * stride;
    var n := FramesOf(maxsize, stride, requested);
    Scale(n, q, stride);
  }

  /** A process call hands out whole frames of 16-bit samples, as many as fit or as were asked for. */
  lemma WholeFrames(maxsize: nat, channels: nat, requested: nat)
    requires 0 < channels < 0x8000_0000
    ensures Stride(channels) == 2 * channels
    ensures var frames := FramesOf(maxsize, Stride(channels), requested);
            && frames * (2 * channels) <= maxsize && (requested != 0 ==> frames <= requested)
            && ((frames + 1) * (2 * channels) > maxsize || frames == requested != 0)
  {
    FramesFit(maxsize, 2 * channels, requested);
  }

  lemma Scale(a: nat, b: nat, c: nat)
    requires a <= b
    ensures a * c <= b * c
  {
  }
}
