/**
 The swapchain (src/allocator/Swapchain.cpp): rotation, rollback, and reconfiguration when the allocator may
 refuse any buffer. The answer of the allocator to the k-th request of a reconfiguration is a parameter.
 */
module Swapchain {
  import opened Arithmetic
  import opened Options

  const INVALID_FORMAT := 0

  datatype Size = Size(x: int, y: int)
  datatype Settings = Settings(length: nat, size: Size, format: nat, scanout: bool, cursor: bool, multigpu: bool)
  datatype Reply = Reply(id: nat, format: nat)
  datatype Params = Params(size: Size, format: nat, scanout: bool, cursor: bool, multigpu: bool)
  datatype Buffer = Buffer(reply: Reply, params: Params)
  type Allocator = nat -> Option<Reply>

  datatype Chain = Chain(buffers: seq<Buffer>, options: Settings, last: int)

  const NOTHING := Settings(0, Size(0, 0), INVALID_FORMAT, false, false, false)

  /** What fullReconfigure asks the allocator for. */
  function Whole(o: Settings): Params { Params(o.size, o.format, o.scanout, o.cursor, o.multigpu) }

  /** What resize asks for: the chain's options, but never for more than one GPU. */
  function Spare(o: Settings): Params { Whole(o).(multigpu := false) }

  /** Up to `n` buffers, from the k-th request on, until the first refusal. */
  function Acquire(a: Allocator, k: nat, n: nat, p: Params): (r: seq<Buffer>)
    ensures |r| <= n && forall b <- r :: b.params == p
    decreases n
  {
    if n == 0 then []
    else
      match a(k)
      case None => []
      case Some(reply) => [Buffer(reply, p)] + Acquire(a, k + 1, n - 1, p)
  }

  function Resized(c: Chain, length: nat, a: Allocator): Chain {
    if length <= |c.buffers| then c.(buffers := c.buffers[..length])
    else c.(buffers := c.buffers + Acquire(a, 0, length - |c.buffers|, Spare(c.options)))
  }

  predicate SameShape(c: Chain, o: Settings) {
    (o.format == c.options.format || o.format == INVALID_FORMAT) && o.size == c.options.size
  }

  predicate Clears(o: Settings) { o.size == Size(0, 0) || o.length == 0 }

  function Reconfigured(c: Chain, o: Settings, a: Allocator): (Chain, bool) {
    if Clears(o) then (Chain([], o, c.last), true)
    else if SameShape(c, o) && o.length == c.options.length == |c.buffers| then (c, true)
    else if SameShape(c, o) then
      var r := Resized(c, o.length, a);
      if |r.buffers| == o.length then (r.(options := o), true) else (r, false)
    else
      var bfs := Acquire(a, 0, o.length, Whole(o));
      if |bfs| < o.length then (c, false)
      else (Chain(bfs, if o.format == INVALID_FORMAT then o.(format := bfs[0].reply.format) else o, c.last), true)
  }

  /** The slot `next` hands out, none on an empty chain. */
  function NextSlot(c: Chain): Option<int> {
    if c.options.length == 0 then None else Some((c.last + 1) % c.options.length)
  }

  function Advanced(c: Chain): Chain {
    match NextSlot(c)
    case None => c
    case Some(i) => c.(last := i)
  }

  function RolledBack(c: Chain): Chain {
    c.(last := if c.last - 1 < 0 then c.options.length - 1 else c.last - 1)
  }

  // ----- reconfiguration

  /** `next` stays inside the vector. */
  predicate Serves(c: Chain) { c.options.length <= |c.buffers| && -1 <= c.last }

  /** The contradictory request: no size, but a length. */
  predicate Hollow(o: Settings) { o.size == Size(0, 0) && o.length > 0 }

  /** One reconfiguration keeps `next` in range unless it asks for a length without a size. */
  lemma ReconfigureServes(c: Chain, o: Settings, a: Allocator)
    requires Serves(c)
    ensures Serves(Reconfigured(c, o, a).0) <==> !Hollow(o)
  {
  }

  /** All or nothing: what a caller was using survives a failure, a success has exactly the buffers it promises. */
  lemma Transactional(c: Chain, o: Settings, a: Allocator)
    requires Serves(c)
    ensures var (c', ok) := Reconfigured(c, o, a);
            && (!ok ==> c'.options == c.options && c'.last == c.last && c.buffers <= c'.buffers)
            && (ok && !Hollow(o) ==> |c'.buffers| == c'.options.length == o.length)
            && (ok && o.size == c.options.size != Size(0, 0) && o.length > 0 && o.format in {0, c.options.format} ==>
                  var kept := if o.length < |c.buffers| then o.length else |c.buffers|;
                  c'.buffers[..kept] == c.buffers[..kept])
  {
  }

  /** It fails exactly when the allocator refuses a buffer that is needed. */
  lemma FailsOnRefusal(c: Chain, o: Settings, a: Allocator)
    ensures var needed := if o.size == Size(0, 0) || o.length == 0 then 0
                          else if o.size != c.options.size || o.format !in {0, c.options.format} then o.length
                          else if o.length < |c.buffers| then 0 else o.length - |c.buffers|;
            Reconfigured(c, o, a).1 <==> forall k: nat :: k < needed ==> a(k).Some?
  {
    var needed := if Clears(o) then 0 else if !SameShape(c, o) then o.length
                  else if o.length < |c.buffers| then 0 else o.length - |c.buffers|;
    AllAnswered(a, 0, needed, if SameShape(c, o) then Spare(c.options) else Whole(o));
  }

  lemma {:induction false} AllAnswered(a: Allocator, k: nat, n: nat, p: Params)
    ensures |Acquire(a, k, n, p)| == n <==> forall i: nat :: k <= i < k + n ==> a(i).Some?
    decreases n
  {
    if n == 0 {
    } else {
      AllAnswered(a, k + 1, n - 1, p);
    }
  }

  /**
   The options after a success: those asked for, but for a format left open when all buffers are new, which is taken
   from the first of them; and nothing changes when size, format and length are those the chain has.
   */
  lemma OptionsTaken(c: Chain, o: Settings, a: Allocator)
    requires Reconfigured(c, o, a).1
    ensures var c' := Reconfigured(c, o, a).0;
            var same := o.size == c.options.size && o.format in {0, c.options.format};
            if o.size == Size(0, 0) || o.length == 0 then c' == Chain([], o, c.last)
            else if same && o.length == c.options.length == |c.buffers| then c' == c
            else if !same && o.format == 0 then
              c'.buffers != [] && c'.options == o.(format := c'.buffers[0].reply.format)
            else c'.options == o
  {
  }

  /** The very first request that does not clear is served anew, for exactly what it asks. */
  lemma FirstIsWhole(o: Settings, a: Allocator)
    requires o.size != Size(0, 0) && o.length > 0 && forall k: nat :: k < o.length ==> a(k).Some?
    ensures var c := Reconfigured(START, o, a).0;
            && |c.buffers| == o.length
            && forall b <- c.buffers :: b.params == Params(o.size, o.format, o.scanout, o.cursor, o.multigpu)
  {
    FailsOnRefusal(START, o, a);
  }

  // ----- runs

  const START := Chain([], NOTHING, 0)

  datatype Op = Reconfigure(o: Settings, a: Allocator) | Next | Rollback

  function Step(c: Chain, op: Op): Chain {
    match op
    case Reconfigure(o, a) => Reconfigured(c, o, a).0
    case Next => Advanced(c)
    case Rollback => RolledBack(c)
  }

  function Run(c: Chain, ops: seq<Op>): Chain
    decreases |ops|
  {
    if |ops| == 0 then c else Run(Step(c, ops[0]), ops[1..])
  }

  /** Every buffer was acquired for the size the chain has now. */
  predicate Uniform(c: Chain) { forall b <- c.buffers :: b.params.size == c.options.size }

  predicate Sane(ops: seq<Op>) { forall i :: 0 <= i < |ops| ==> ops[i].Reconfigure? ==> !Hollow(ops[i].o) }

  lemma StepServes(c: Chain, op: Op)
    requires Serves(c) && Uniform(c) && (op.Reconfigure? ==> !Hollow(op.o))
    ensures Serves(Step(c, op)) && Uniform(Step(c, op))
  {
    if op.Next? && c.options.length > 0 {
      assert 0 <= (c.last + 1) % c.options.length;
    }
  }

  /** Every reachable chain: `next` finds a buffer, of the size asked for, whatever the allocator refused. */
  lemma {:induction false} RunServes(c: Chain, ops: seq<Op>)
    requires Serves(c) && Uniform(c) && Sane(ops)
    ensures var c' := Run(c, ops);
            && Serves(c') && Uniform(c')
            && match NextSlot(c')
               case None => c'.options.length == 0
               case Some(i) => 0 <= i < |c'.buffers| && c'.buffers[i].params.size == c'.options.size
    decreases |ops|
  {
    if |ops| == 0 {
      if c.options.length > 0 {
        InRange(c.last + 1, c.options.length);
      }
    } else {
      StepServes(c, ops[0]);
      RunServes(Step(c, ops[0]), ops[1..]);
    }
  }

  lemma InRange(x: int, n: nat)
    requires 0 < n
    ensures 0 <= x % n < n
  {
  }

  /** The first request of a chain may be hollow: then `next` has a slot and no buffer for it. */
  lemma HollowChain(a: Allocator)
    ensures var o := Settings(2, Size(0, 0), INVALID_FORMAT, false, false, false);
            var c := Run(START, [Reconfigure(o, a)]);
            !Serves(c) && NextSlot(c) == Some(1) && c.buffers == []
  {
    var op := Reconfigure(Settings(2, Size(0, 0), INVALID_FORMAT, false, false, false), a);
    assert Run(START, [op]) == Run(Step(START, op), [op][1..]) == Step(START, op);
  }

  // ----- what the buffers were acquired for

  predicate SameFlags(o: Settings, q: Settings) {
    o.scanout == q.scanout && o.cursor == q.cursor && o.multigpu == q.multigpu
  }

  /** The buffer was acquired for these options; either side may have left the format to the allocator. */
  predicate MadeFor(b: Buffer, o: Settings) {
    && b.params.size == o.size && b.params.scanout == o.scanout && b.params.cursor == o.cursor
    && b.params.multigpu == o.multigpu
    && (b.params.format == o.format || b.params.format == INVALID_FORMAT || o.format == INVALID_FORMAT)
  }

  predicate AllMadeFor(buffers: seq<Buffer>, o: Settings) { forall b <- buffers :: MadeFor(b, o) }

  /** Every buffer was acquired for the options the chain has now. */
  predicate Consistent(c: Chain) { AllMadeFor(c.buffers, c.options) }

  /** The third branch of reconfigure. */
  predicate Resizes(c: Chain, o: Settings) {
    !Clears(o) && SameShape(c, o) && !(o.length == c.options.length == |c.buffers|)
  }

  /** The flags resize leaves in place are those the chain takes on. */
  predicate FlagsFit(c: Chain, o: Settings) {
    && (c.buffers == [] || SameFlags(o, c.options))
    && (o.length > |c.buffers| ==> SameFlags(o, c.options.(multigpu := false)))
  }

  /** Resize acquires nothing it should not: on success for the new options, on failure for the old ones. */
  predicate ResizeFits(c: Chain, o: Settings, a: Allocator) {
    if forall k: nat :: k < o.length - |c.buffers| ==> a(k).Some? then FlagsFit(c, o)
    else a(0).Some? ==> !c.options.multigpu
  }

  /** A buffer of a consistent chain, and one that resize adds, under options of the same shape. */
  lemma FlagsDecide(c: Chain, o: Settings)
    requires SameShape(c, o)
    ensures forall b :: MadeFor(b, c.options) ==> (MadeFor(b, o) <==> SameFlags(o, c.options))
    ensures forall b: Buffer :: b.params == Spare(c.options) ==>
              (MadeFor(b, o) <==> SameFlags(o, c.options.(multigpu := false)))
  {
  }

  lemma GrownMadeFor(c: Chain, o: Settings, n: nat, a: Allocator)
    requires Consistent(c) && SameShape(c, o) && 0 < n
    ensures AllMadeFor(c.buffers + Acquire(a, 0, n, Spare(c.options)), o) <==>
            && (c.buffers == [] || SameFlags(o, c.options))
            && (a(0).None? || SameFlags(o, c.options.(multigpu := false)))
  {
    FlagsDecide(c, o);
    hide MadeFor, SameFlags, SameShape, Spare;
    var more := Acquire(a, 0, n, Spare(c.options));
    if c.buffers != [] {
      assert c.buffers[0] in c.buffers + more;
    }
    if a(0).Some? {
      assert more[0] in c.buffers + more;
    }
  }

  lemma ShrunkMadeFor(c: Chain, o: Settings)
    requires Consistent(c) && SameShape(c, o) && 0 < o.length <= |c.buffers|
    ensures AllMadeFor(c.buffers[..o.length], o) <==> SameFlags(o, c.options)
  {
    FlagsDecide(c, o);
    hide MadeFor, SameFlags, SameShape;
    assert c.buffers[..o.length][0] in c.buffers[..o.length];
  }

  lemma ResizeConsistent(c: Chain, o: Settings, a: Allocator)
    requires Consistent(c) && SameShape(c, o) && 0 < o.length
    ensures var r := Resized(c, o.length, a);
            AllMadeFor(r.buffers, if |r.buffers| == o.length then o else c.options) <==> ResizeFits(c, o, a)
  {
    if o.length <= |c.buffers| {
      ShrunkMadeFor(c, o);
      hide MadeFor, SameFlags;
    } else {
      var n := o.length - |c.buffers|;
      AllAnswered(a, 0, n, Spare(c.options));
      GrownMadeFor(c, o, n, a);
      GrownMadeFor(c, c.options, n, a);
      hide Acquire, MadeFor, SameShape, AllMadeFor;
    }
  }

  /** A chain stays consistent unless a resize leaves or acquires a buffer of other flags than it takes on. */
  lemma ReconfigureConsistent(c: Chain, o: Settings, a: Allocator)
    requires Consistent(c)
    ensures Consistent(Reconfigured(c, o, a).0) <==> (Resizes(c, o) ==> ResizeFits(c, o, a))
  {
    if Resizes(c, o) {
      ResizeConsistent(c, o, a);
      hide ResizeFits, Resized;
    }
  }

  /** What success means: every buffer was made for this very request, if and only if its flags fit. */
  lemma SuccessHonours(c: Chain, o: Settings, a: Allocator)
    requires Consistent(c) && !Clears(o) && Reconfigured(c, o, a).1
    ensures AllMadeFor(Reconfigured(c, o, a).0.buffers, o) <==> (SameShape(c, o) ==> FlagsFit(c, o))
  {
    if SameShape(c, o) {
      if o.length <= |c.buffers| {
        ShrunkMadeFor(c, o);
        assert c.buffers[..|c.buffers|] == c.buffers;
      } else {
        GrownMadeFor(c, o, o.length - |c.buffers|, a);
      }
    }
  }

  predicate AlwaysConsistent(c: Chain, ops: seq<Op>)
    decreases |ops|
  {
    Consistent(c) && (ops == [] || AlwaysConsistent(Step(c, ops[0]), ops[1..]))
  }

  predicate FittingRun(c: Chain, ops: seq<Op>)
    decreases |ops|
  {
    ops == []
    || ((ops[0].Reconfigure? && Resizes(c, ops[0].o) ==> ResizeFits(c, ops[0].o, ops[0].a))
        && FittingRun(Step(c, ops[0]), ops[1..]))
  }

  /** Over every run, every buffer was acquired for the current options all along if and only if resizes fit. */
  lemma {:induction false} RunConsistent(c: Chain, ops: seq<Op>)
    requires Consistent(c)
    ensures AlwaysConsistent(c, ops) <==> FittingRun(c, ops)
    decreases |ops|
  {
    hide Resizes, ResizeFits, Reconfigured;
    if ops == [] {
    } else {
      if ops[0].Reconfigure? {
        ReconfigureConsistent(c, ops[0].o, ops[0].a);
      }
      if Consistent(Step(c, ops[0])) {
        RunConsistent(Step(c, ops[0]), ops[1..]);
      }
    }
  }

  /** A chain for several GPUs that grows by one buffer: the new one is for a single GPU. */
  lemma GrownForOneGpu(a: Allocator)
    requires forall k: nat :: a(k).Some?
    ensures var o := Settings(2, Size(10, 10), 1, true, false, true);
            var c := Run(START, [Reconfigure(o, a), Reconfigure(o.(length := 3), a)]);
            && c.options.multigpu && |c.buffers| == 3 && !c.buffers[2].params.multigpu && !Consistent(c)
  {
    var o := Settings(2, Size(10, 10), 1, true, false, true);
    var ops := [Reconfigure(o, a), Reconfigure(o.(length := 3), a)];
    var c1 := Step(START, ops[0]);
    var c2 := Step(c1, ops[1]);
    assert ops[1..] == [ops[1]] && ops[1..][1..] == [];
    assert Run(START, ops) == Run(c1, ops[1..]) == Run(c2, []) == c2;
    FailsOnRefusal(START, o, a);
    FailsOnRefusal(c1, o.(length := 3), a);
    ReconfigureConsistent(START, o, a);
    ReconfigureConsistent(c1, o.(length := 3), a);
  }

  // ----- rotation

  predicate Turns(ops: seq<Op>) { forall i :: 0 <= i < |ops| ==> !ops[i].Reconfigure? }

  /** What the caller of `next` sees along a run. */
  function Handed(c: Chain, ops: seq<Op>): seq<Option<Buffer>>
    requires Serves(c) && Turns(ops)
    decreases |ops|
  {
    if |ops| == 0 then []
    else if ops[0].Next? then
      var slot := NextSlot(c);
      [if slot.Some? then InRange(c.last + 1, c.options.length); Some(c.buffers[slot.value]) else None]
      + Handed(Advanced(c), ops[1..])
    else Handed(RolledBack(c), ops[1..])
  }

  /** Nobody who only calls next and rollback can tell that a reconfiguration was tried and failed. */
  lemma FailureUnobservable(c: Chain, o: Settings, a: Allocator, ops: seq<Op>)
    requires Serves(c) && Turns(ops) && !Reconfigured(c, o, a).1
    ensures Serves(Reconfigured(c, o, a).0) && Handed(Reconfigured(c, o, a).0, ops) == Handed(c, ops)
  {
    Transactional(c, o, a);
    SpareBuffersUnseen(c, Reconfigured(c, o, a).0, ops);
  }

  lemma {:induction false} SpareBuffersUnseen(c: Chain, d: Chain, ops: seq<Op>)
    requires Serves(c) && Turns(ops) && d.options == c.options && d.last == c.last && c.buffers <= d.buffers
    ensures Handed(d, ops) == Handed(c, ops)
    decreases |ops|
  {
    if |ops| == 0 {
    } else {
      if c.options.length > 0 {
        InRange(c.last + 1, c.options.length);
      }
      SpareBuffersUnseen(Step(c, ops[0]), Step(d, ops[0]), ops[1..]);
    }
  }

  /** The chain after `k` calls of next. */
  function Turned(c: Chain, k: nat): Chain {
    if k == 0 then c else Advanced(Turned(c, k - 1))
  }

  lemma {:induction false} TurnedSlot(c: Chain, k: nat)
    requires 0 < c.options.length && 0 < k
    ensures Turned(c, k) == c.(last := (c.last + k) % c.options.length)
    decreases k
  {
    if k == 1 {
    } else {
      TurnedSlot(c, k - 1);
      ModAdd(c.last + k - 1, 1, c.options.length);
    }
  }

  /** The age `next` reports is right: the slot was handed out exactly `length` calls ago and not since. */
  lemma AgeIsLength(c: Chain, k: nat)
    requires 0 < c.options.length < k
    ensures var n := c.options.length;
            && Turned(c, k).last == Turned(c, k - n).last
            && forall i: nat :: k - n < i < k ==> Turned(c, i).last != Turned(c, k).last
  {
    var n := c.options.length;
    TurnedSlot(c, k);
    TurnedSlot(c, k - n);
    ModShift(c.last + k - n, 1, n);
    forall i: nat | k - n < i < k ensures Turned(c, i).last != Turned(c, k).last {
      TurnedSlot(c, i);
      Apart(c.last + i, k - i, n);
    }
  }

  lemma Apart(x: int, j: nat, n: nat)
    requires 0 < j < n
    ensures (x + j) % n != x % n
  {
    var r := x % n;
    var q := x / n;
    assert x == n * q + r;
    if r + j < n {
      Unique(x + j, q, r + j, n);
    } else {
      assert x + j == n * (q + 1) + (r + j - n);
      Unique(x + j, q + 1, r + j - n, n);
    }
  }

  /** A full turn hands out every slot. */
  lemma TurnVisitsAll(c: Chain, slot: nat)
    requires slot < c.options.length
    ensures exists k: nat :: 0 < k <= c.options.length && Turned(c, k).last == slot
  {
    var n := c.options.length;
    var k := (slot - c.last - 1) % n + 1;
    TurnedSlot(c, k);
    ModAdd(slot - c.last - 1, c.last + 1, n);
    Unique(slot, 0, slot, n);
  }

  /** rollback undoes next, up to whole turns, even for a position out of range. */
  lemma RollbackUndoesNext(c: Chain)
    requires 0 < c.options.length
    ensures RolledBack(Advanced(c)) == c.(last := c.last % c.options.length)
  {
    var n := c.options.length;
    ModAdd(c.last + 1, -1, n);
    var m := (c.last + 1) % n;
    if m == 0 {
      ModShift(-1, 1, n);
      Unique(n - 1, 0, n - 1, n);
    } else {
      Unique(m - 1, 0, m - 1, n);
    }
  }

  /** rollback is one step back, except from the position a rollback of an empty chain leaves. */
  lemma RollbackSteps(c: Chain)
    requires 0 < c.options.length && -1 <= c.last
    ensures RolledBack(c).last % c.options.length == (c.last - 1) % c.options.length
            <==> 0 <= c.last || c.options.length == 1
  {
    var n := c.options.length;
    if c.last == 0 {
      ModShift(-1, 1, n);
    } else if c.last == -1 {
      Unique(n - 1, 0, n - 1, n);
      if n >= 2 {
        Unique(-2, -1, n - 2, n);
      }
    }
  }

  /** A rollback of the empty chain, then two buffers: the next rollback stands still. */
  lemma RollbackStandsStill()
    ensures var a: Allocator := _ => Some(Reply(7, 1));
            var o := Settings(2, Size(10, 10), 1, false, false, false);
            var c := Run(START, [Rollback, Reconfigure(o, a)]);
            Serves(c) && c.last == -1 && RolledBack(c).last % 2 == c.last % 2
  {
    var a: Allocator := _ => Some(Reply(7, 1));
    var o := Settings(2, Size(10, 10), 1, false, false, false);
    var ops := [Rollback, Reconfigure(o, a)];
    var c1 := Step(START, Rollback);
    var c2 := Step(c1, ops[1]);
    assert ops[1..] == [ops[1]] && ops[1..][1..] == [];
    assert Run(START, ops) == Run(c1, ops[1..]) == Run(c2, []) == c2;
    FailsOnRefusal(c1, o, a);
    ReconfigureServes(c1, o, a);
    assert c1.last == -1 && c2.last == -1 && c2.options.length == 2;
  }

  function Net(ops: seq<Op>): int
    decreases |ops|
  {
    if |ops| == 0 then 0
    else (match ops[0] case Next => 1 case Rollback => -1 case Reconfigure(_, _) => 0) + Net(ops[1..])
  }

  /** Any mix of next and rollback: the position is where the calls add up to. */
  lemma {:induction false} RunCounts(c: Chain, ops: seq<Op>)
    requires 0 < c.options.length && 0 <= c.last && Turns(ops)
    ensures Run(c, ops).options == c.options && 0 <= Run(c, ops).last
    ensures Run(c, ops).last % c.options.length == (c.last + Net(ops)) % c.options.length
    decreases |ops|
  {
    if |ops| == 0 {
    } else {
      var n := c.options.length;
      var c' := Step(c, ops[0]);
      var d := if ops[0].Next? then 1 else -1;
      InRange(c.last + 1, n);
      RollbackSteps(c);
      ModAdd(c.last + 1, 0, n);
      RunCounts(c', ops[1..]);
      assert c'.last % n == (c.last + d) % n;
      ModAdd(c'.last, Net(ops[1..]), n);
      ModAdd(c.last + d, Net(ops[1..]), n);
    }
  }

  // ----- the code

  lemma AcquireNext(have: seq<Buffer>, a: Allocator, k: nat, n: nat, p: Params)
    requires 0 < n && a(k).Some?
    ensures have + Acquire(a, k, n, p) == (have + [Buffer(a(k).value, p)]) + Acquire(a, k + 1, n - 1, p)
  {
  }

  class CSwapchain {
    const allocator: bool
    var buffers: seq<Buffer>
    var options: Settings
    var lastAcquired: int

    ghost function Value(): Chain
      reads this
    {
      Chain(buffers, options, lastAcquired)
    }

    constructor (hasAllocator: bool)
      ensures Value() == START && allocator == hasAllocator
    {
      allocator := hasAllocator;
      buffers, options, lastAcquired := [], NOTHING, 0;
    }

    method Reconfigure(o: Settings, a: Allocator) returns (ok: bool)
      modifies this
      ensures if allocator then (Value(), ok) == Reconfigured(old(Value()), o, a) else Value() == old(Value()) && !ok
    {
      if !allocator {
        return false;
      }
      if o.size == Size(0, 0) || o.length == 0 {
        buffers, options := [], o;
        return true;
      }
      if (o.format == options.format || o.format == INVALID_FORMAT) && o.size == options.size
          && o.length == options.length && |buffers| == options.length {
        return true;
      }
      if (o.format == options.format || o.format == INVALID_FORMAT) && o.size == options.size {
        ok := Resize(o.length, a);
        if ok {
          options := o;
        }
        return;
      }
      ok := FullReconfigure(o, a);
      if ok {
        options := o;
        if options.format == INVALID_FORMAT {
          options := options.(format := buffers[0].reply.format);
        }
      }
    }

    method FullReconfigure(o: Settings, a: Allocator) returns (ok: bool)
      modifies this`buffers
      ensures var bfs := Acquire(a, 0, o.length, Whole(o));
              ok == (|bfs| == o.length) && buffers == if ok then bfs else old(buffers)
    {
      var bfs: seq<Buffer> := [];
      for i := 0 to o.length
        invariant |bfs| == i && buffers == old(buffers)
        invariant Acquire(a, 0, o.length, Whole(o)) == bfs + Acquire(a, i, o.length - i, Whole(o))
      {
        var reply := a(i);
        if reply.None? {
          assert bfs + Acquire(a, i, o.length - i, Whole(o)) == bfs;
          return false;
        }
        AcquireNext(bfs, a, i, o.length - i, Whole(o));
        bfs := bfs + [Buffer(reply.value, Whole(o))];
      }
      buffers := bfs;
      return true;
    }

    method Resize(newSize: nat, a: Allocator) returns (ok: bool)
      modifies this`buffers
      ensures Value() == Resized(old(Value()), newSize, a)
      ensures ok == (|buffers| == newSize)
    {
      if newSize == |buffers| {
        return true;
      }
      if newSize < |buffers| {
        while |buffers| > newSize
          invariant newSize <= |buffers| && buffers == old(buffers)[..|buffers|]
        {
          buffers := buffers[..|buffers| - 1];
        }
      } else {
        var k := 0;
        while |buffers| < newSize
          invariant |old(buffers)| + k == |buffers| <= newSize
          invariant old(buffers) + Acquire(a, 0, newSize - |old(buffers)|, Spare(options))
                    == buffers + Acquire(a, k, newSize - |buffers|, Spare(options))
        {
          var reply := a(k);
          if reply.None? {
            assert buffers + Acquire(a, k, newSize - |buffers|, Spare(options)) == buffers;
            return false;
          }
          AcquireNext(buffers, a, k, newSize - |buffers|, Spare(options));
          buffers := buffers + [Buffer(reply.value, Spare(options))];
          k := k + 1;
        }
      }
      return true;
    }

    /** The buffer handed out and its age. */
    method Next() returns (buffer: Option<Buffer>, age: nat)
      requires Serves(Value())
      modifies this`lastAcquired
      ensures Value() == if allocator then Advanced(old(Value())) else old(Value())
      ensures age == if buffer.Some? then options.length else 0
      ensures buffer == (if allocator && options.length > 0 then Some(buffers[lastAcquired]) else None)
    {
      if !allocator || options.length == 0 {
        return None, 0;
      }
      InRange(lastAcquired + 1, options.length);
      lastAcquired := (lastAcquired + 1) % options.length;
      return Some(buffers[lastAcquired]), options.length;
    }

    method Rollback()
      modifies this`lastAcquired
      ensures Value() == RolledBack(old(Value()))
    {
      lastAcquired := lastAcquired - 1;
      if lastAcquired < 0 {
        lastAcquired := options.length - 1;
      }
    }
  }
}
