/**
 Importing a buffer as a DRM framebuffer (CDRMFB in src/backend/drm/DRM.cpp): the memo on the buffer, and the
 one-shot release of its GEM handles and of its KMS id. The answers of the kernel are parameters.
 */
module Framebuffer {
  import opened Options
  import opened Sequences

  /**
   At most four planes; each is a handle, or the failure of drmPrimeFDToHandle. A zero id is a failed submitBuffer.
   */
  type Planes = s: seq<Option<nat>> | |s| <= 4

  datatype Answers = Answers(hasDmabuf: bool, planes: Planes, id: nat)

  /** What the kernel was asked for: handles obtained, handles closed, ids removed, submissions. */
  datatype Log = Log(obtained: seq<nat>, closed: seq<nat>, removed: seq<nat>, submits: nat)

  datatype Fb = Fb(id: nat, handles: seq<nat>, dropped: bool, handlesClosed: bool, dead: bool)

  const NO_HANDLES: seq<nat> := [0, 0, 0, 0]
  const UNBORN := Fb(0, NO_HANDLES, false, false, false)

  /** A buffer with its two attachments. `gone` after its destruction took the framebuffer along. */
  datatype Buffer = Buffer(fb: Option<Fb>, unimportable: bool, gone: bool, log: Log)

  const FRESH := Buffer(None, false, false, Log([], [], [], 0))

  /** The first `n` handles without zeros and without repetitions. */
  function Distinct(h: seq<nat>, n: nat): seq<nat>
    requires n <= |h|
    decreases n
  {
    if n == 0 then []
    else if h[n - 1] == 0 || h[n - 1] in h[..n - 1] then Distinct(h, n - 1)
    else Distinct(h, n - 1) + [h[n - 1]]
  }

  function HandlesClosed(fb: Fb): Fb { fb.(handlesClosed := true, handles := NO_HANDLES) }

  function ClosedBy(fb: Fb): seq<nat> { if fb.handlesClosed then [] else Distinct(fb.handles, |fb.handles|) }

  function CloseHandles(fb: Fb, log: Log): (Fb, Log) {
    if fb.handlesClosed then (fb, log) else (HandlesClosed(fb), log.(closed := log.closed + ClosedBy(fb)))
  }

  function Drop(fb: Fb, log: Log): (Fb, Log) {
    if fb.dropped then (fb, log)
    else if fb.id == 0 then (fb.(dropped := true), log)
    else
      var (fb', log') := CloseHandles(fb.(dropped := true), log);
      (fb', log'.(removed := log'.removed + [fb.id]))
  }

  /** The handles before the first failure. */
  function Obtained(planes: seq<Option<nat>>, n: nat): (r: seq<nat>)
    requires n <= |planes|
    ensures |r| <= n
    ensures |r| == n <==> forall i :: 0 <= i < n ==> planes[i].Some?
    decreases n
  {
    if n == 0 then []
    else
      var r := Obtained(planes, n - 1);
      if |r| == n - 1 && planes[n - 1].Some? then r + [planes[n - 1].value] else r
  }

  function Padded(h: seq<nat>): (r: seq<nat>)
    requires |h| <= 4
    ensures |r| == 4
  {
    h + NO_HANDLES[|h|..]
  }

  /** The framebuffer import makes, whether submitBuffer failed, and the log. */
  function Import(unimportable: bool, a: Answers, log: Log): (Fb, bool, Log) {
    if !a.hasDmabuf || unimportable then (UNBORN, false, log)
    else
      var h := Obtained(a.planes, |a.planes|);
      var fb := UNBORN.(handles := Padded(h));
      var log' := log.(obtained := log.obtained + h);
      if |h| < |a.planes| then
        var (fb', log'') := Drop(fb, log');
        (fb', false, log'')
      else if a.id == 0 then
        var (fb', log'') := Drop(fb, log'.(submits := log'.submits + 1));
        (fb', true, log'')
      else
        var (fb', log'') := CloseHandles(fb.(id := a.id), log'.(submits := log'.submits + 1));
        (fb', false, log'')
  }

  datatype Op =
    | Create(a: Answers)
    | DropFb          // somebody drops the framebuffer from KMS
    | DestroyBuffer   // the destroy event of the buffer
    | Destructor      // the buffer and its attachments go, and the framebuffer with them

  function Created(b: Buffer, a: Answers): Buffer {
    if b.gone || b.fb.Some? then b
    else
      var (fb, failed, log) := Import(b.unimportable, a, b.log);
      Buffer(if fb.id == 0 then None else Some(fb), b.unimportable || failed, false, log)
  }

  function Step(b: Buffer, op: Op): Buffer {
    match op
    case Create(a) => Created(b, a)
    case DropFb => if b.fb.None? then b else var (fb, log) := Drop(b.fb.value, b.log); b.(fb := Some(fb), log := log)
    case DestroyBuffer =>
      if b.fb.None? then b
      else
        var (fb, log) := Drop(b.fb.value, b.log);
        b.(fb := Some(fb.(dead := true, id := 0, handles := NO_HANDLES)), log := log)
    case Destructor =>
      if b.fb.None? then b.(gone := true)
      else var (_, log) := Drop(b.fb.value, b.log); b.(fb := None, gone := true, log := log)
  }

  function Run(b: Buffer, ops: seq<Op>): Buffer
    decreases |ops|
  {
    if ops == [] then b else Run(Step(b, ops[0]), ops[1..])
  }

  // ----- once and only once

  function Nonzero(h: seq<nat>): set<nat> { Members(h) - {0} }

  lemma DistinctLast(h: seq<nat>, n: nat)
    requires n < |h|
    ensures Distinct(h, n + 1) == if h[n] == 0 || h[n] in Members(h[..n]) then Distinct(h, n)
            else Distinct(h, n) + [h[n]]
    ensures h[..n + 1] == h[..n] + [h[n]] && Distinct(h, 0) == h[..0] == []
  {
  }

  lemma MembersMore(s: seq<nat>, x: nat)
    ensures Members(s + [x]) == Members(s) + {x} && Members([]) == {}
    ensures NoRepeats(s) && x !in Members(s) ==> NoRepeats(s + [x])
  {
  }

  /** closeHandles closes every distinct non-zero handle, each once. */
  lemma {:induction false} DistinctIsExact(h: seq<nat>, n: nat)
    requires n <= |h|
    ensures NoRepeats(Distinct(h, n)) && Members(Distinct(h, n)) == Nonzero(h[..n])
    decreases n
  {
    hide Distinct, Members;
    if n == 0 {
      NoHandles(h);
    } else {
      DistinctIsExact(h, n - 1);
      DistinctLast(h, n - 1);
      MembersMore(Distinct(h, n - 1), h[n - 1]);
      MembersMore(h[..n - 1], h[n - 1]);
    }
  }

  lemma NoHandles(h: seq<nat>)
    ensures Distinct(h, 0) == h[..0] == [] && Nonzero([]) == {} && Members([]) == {}
  {
  }

  /** The answers a framebuffer was made from. */
  predicate Makes(a: Answers) { a.hasDmabuf && a.id != 0 && |Obtained(a.planes, |a.planes|)| == |a.planes| }

  function Handles(a: Answers): seq<nat> { Obtained(a.planes, |a.planes|) }

  /** No framebuffer was ever made: nothing closed, nothing removed. */
  predicate Idle(b: Buffer) {
    b.fb.None? && b.log.closed == [] && b.log.removed == [] && b.log.submits == if b.unimportable then 1 else 0
  }

  /** One was made from `a`: its handles were closed at import, its id is removed once, when it is dropped. */
  predicate Made(b: Buffer, a: Answers) {
    && Makes(a) && b.log.submits == 1
    && (b.fb.Some? ==> var fb := b.fb.value;
          && fb.handlesClosed && fb.handles == [0, 0, 0, 0] && (fb.dropped || (fb.id == a.id && !fb.dead)))
    && !b.unimportable
    && NoRepeats(b.log.closed) && Members(b.log.closed) == Nonzero(Handles(a))
    && b.log.removed == (if b.fb.Some? && !b.fb.value.dropped then [] else [a.id])
    && (b.fb.None? ==> b.gone)
  }

  lemma PaddingIsZero(h: seq<nat>)
    requires |h| <= 4
    ensures Nonzero(Padded(h)) == Nonzero(h)
  {
    forall x ensures x in Nonzero(Padded(h)) <==> x in Nonzero(h) {
      if x in Padded(h) && x != 0 {
        var i :| 0 <= i < 4 && Padded(h)[i] == x;
        assert i < |h|;
      }
    }
  }

  /** Handles are obtained plane by plane, up to the first that fails, and none after it. */
  lemma {:induction false} ObtainedUpTo(planes: seq<Option<nat>>, n: nat, k: nat)
    requires k <= n <= |planes| && (forall i | 0 <= i < k :: planes[i].Some?) && (k < n ==> planes[k].None?)
    ensures var r := Obtained(planes, n); |r| == k && forall i | 0 <= i < k :: r[i] == planes[i].value
    decreases n
  {
    if n == 0 {
    } else {
      ObtainedUpTo(planes, n - 1, if k == n then n - 1 else k);
    }
  }

  /**
   A drop, whatever came before: it appends to what was closed and removed, closes nothing without an id or when the
   handles are closed, and a second one does nothing.
   */
  lemma DropExactly(fb: Fb, log: Log)
    ensures var (fb', log') := Drop(fb, log);
            && fb'.dropped && Drop(fb', log') == (fb', log') && fb'.id == fb.id && fb'.dead == fb.dead
            && (fb.dropped || fb.id == 0 ==> log' == log && fb'.handles == fb.handles)
            && (!fb.dropped && fb.id != 0 ==>
                  && log'.removed == log.removed + [fb.id] && fb'.handlesClosed
                  && log'.closed == log.closed + if fb.handlesClosed then [] else Distinct(fb.handles, |fb.handles|))
            && log'.obtained == log.obtained && log'.submits == log.submits
  {
    assert log.closed + [] == log.closed;
  }

  /** Handles that are closed are left alone, and none is left to close afterwards. */
  lemma ClosedStays(fb: Fb, log: Log)
    ensures var (fb', log') := CloseHandles(fb, log);
            && fb'.handlesClosed && (fb.handlesClosed ==> fb' == fb && log' == log)
            && (!fb.handlesClosed ==> fb'.handles == [0, 0, 0, 0] && log'.removed == log.removed)
  {
  }

  /** The first import that reaches submitBuffer decides for good. */
  lemma CreateOnIdle(b: Buffer, a: Answers)
    requires Idle(b)
    ensures var b' := Created(b, a);
            if !b.gone && !b.unimportable && Makes(a) then Made(b', a) else Idle(b')
  {
    var h := Padded(Handles(a));
    DistinctIsExact(h, 4);
    PaddingIsZero(Handles(a));
    assert h[..4] == h;
  }

  lemma StepOnMade(b: Buffer, a: Answers, op: Op)
    requires Made(b, a)
    ensures Made(Step(b, op), a)
  {
  }

  lemma {:induction false} RunOnMade(b: Buffer, a: Answers, ops: seq<Op>)
    requires Made(b, a)
    ensures Made(Run(b, ops), a)
    decreases |ops|
  {
    if ops == [] {
    } else {
      StepOnMade(b, a, ops[0]);
      RunOnMade(Step(b, ops[0]), a, ops[1..]);
    }
  }

  /** The answers the framebuffer of a run was made from, if one was. */
  function MadeFrom(b: Buffer, ops: seq<Op>): Option<Answers>
    decreases |ops|
  {
    if ops == [] then None
    else if ops[0].Create? && !b.gone && !b.unimportable && Makes(ops[0].a) then Some(ops[0].a)
    else MadeFrom(Step(b, ops[0]), ops[1..])
  }

  /** Any sequence of creations, drops, destroy events and the destructor: one submission, each handle and id once. */
  lemma {:induction false} RunOnIdle(b: Buffer, ops: seq<Op>)
    requires Idle(b)
    ensures match MadeFrom(b, ops) case None => Idle(Run(b, ops)) case Some(a) => Made(Run(b, ops), a)
    decreases |ops|
  {
    hide Made;
    if ops == [] {
    } else {
      var b' := Step(b, ops[0]);
      if ops[0].Create? {
        CreateOnIdle(b, ops[0].a);
        if !b.gone && !b.unimportable && Makes(ops[0].a) {
          RunOnMade(b', ops[0].a, ops[1..]);
          return;
        }
      }
      RunOnIdle(b', ops[1..]);
    }
  }

  lemma SubmittedOnce(ops: seq<Op>)
    ensures Run(FRESH, ops).log.submits <= 1 && |Run(FRESH, ops).log.removed| <= 1
            && NoRepeats(Run(FRESH, ops).log.closed)
  {
    RunOnIdle(FRESH, ops);
  }

  /** Whatever came before, the end of the buffer leaves no framebuffer in KMS. */
  lemma GoneIsRemoved(ops: seq<Op>, last: Op)
    requires last.DestroyBuffer? || last.Destructor?
    ensures MadeFrom(FRESH, ops).Some? ==> Step(Run(FRESH, ops), last).log.removed == [MadeFrom(FRESH, ops).value.id]
  {
    RunOnIdle(FRESH, ops);
  }

  /** An import keeps a handle open exactly when it obtained one and then failed: drop returns early without an id. */
  lemma HandlesLeftOpen(b: Buffer, a: Answers)
    requires Idle(b) && !b.gone && a.hasDmabuf && !b.unimportable
    ensures var log := Created(b, a).log;
            Nonzero(log.obtained[|b.log.obtained|..]) == Members(log.closed[|b.log.closed|..])
            <==> Makes(a) || Nonzero(Handles(a)) == {}
  {
    CreateOnIdle(b, a);
    var log := Created(b, a).log;
    assert log.obtained[|b.log.obtained|..] == Handles(a);
    assert log.closed[|b.log.closed|..] == log.closed;
  }

  /** The first import of a buffer, refused by submitBuffer: its one handle stays open. */
  lemma HandleForgotten()
    ensures var b := Run(FRESH, [Create(Answers(true, [Some(7)], 0))]);
            b.unimportable && b.log.obtained == [7] && b.log.closed == [] && b.fb.None?
  {
    var a := Answers(true, [Some(7)], 0);
    assert Obtained(a.planes, 0) == [] && Obtained(a.planes, 1) == [7];
    assert [Create(a)][1..] == [];
    assert [] + [7] == [7];
    var b := Step(FRESH, Create(a));
    assert Run(FRESH, [Create(a)]) == Run(b, []) == b;
  }

  // ----- the code

  class Gpu {
    ghost var log: Log

    constructor ()
      ensures log == FRESH.log
    {
      log := FRESH.log;
    }
  }

  class DrmFb {
    const gpu: Gpu
    var id: nat
    const boHandles: array<nat>
    var dropped: bool
    var handlesClosed: bool
    var dead: bool

    ghost predicate Valid()
    {
      boHandles.Length == 4
    }

    ghost function Value(): Fb
      reads this, boHandles
    {
      Fb(id, boHandles[..], dropped, handlesClosed, dead)
    }

    constructor (g: Gpu)
      ensures Valid() && fresh(boHandles) && gpu == g && Value() == UNBORN
    {
      gpu := g;
      id, dropped, handlesClosed, dead := 0, false, false, false;
      boHandles := new nat[4](_ => 0);
      new;
      assert boHandles[..] == NO_HANDLES;
    }

    method ClearHandles()
      requires Valid()
      modifies boHandles
      ensures boHandles[..] == NO_HANDLES
    {
      boHandles[0], boHandles[1], boHandles[2], boHandles[3] := 0, 0, 0, 0;
    }

    method CloseFbHandles()
      requires Valid()
      modifies this, boHandles, gpu
      ensures (Value(), gpu.log) == CloseHandles(old(Value()), old(gpu.log))
    {
      if handlesClosed {
        return;
      }
      handlesClosed := true;
      ghost var h := boHandles[..];
      for i := 0 to 4
        modifies gpu
        invariant gpu.log == old(gpu.log).(closed := old(gpu.log).closed + Distinct(h, i))
      {
        if boHandles[i] == 0 {
          continue;
        }
        var seen := false;
        for j := 0 to i
          invariant !seen && boHandles[i] !in h[..j]
        {
          if boHandles[i] == boHandles[j] {
            seen := true;
            break;
          }
        }
        if seen {
          continue;
        }
        gpu.log := gpu.log.(closed := gpu.log.closed + [boHandles[i]]);
      }
      ClearHandles();
    }

    method DropFromKms()
      requires Valid()
      modifies this, boHandles, gpu
      ensures (Value(), gpu.log) == Drop(old(Value()), old(gpu.log))
    {
      if dropped {
        return;
      }
      dropped := true;
      if id == 0 {
        return;
      }
      CloseFbHandles();
      gpu.log := gpu.log.(removed := gpu.log.removed + [id]);
    }

    /** Whether a handle could be got for every plane. */
    method ImportPlanes(planes: Planes) returns (ok: bool)
      requires Valid() && boHandles[..] == NO_HANDLES
      modifies boHandles, gpu
      ensures boHandles[..] == Padded(Obtained(planes, |planes|))
      ensures gpu.log == old(gpu.log).(obtained := old(gpu.log).obtained + Obtained(planes, |planes|))
      ensures ok == (|Obtained(planes, |planes|)| == |planes|)
    {
      hide Padded;
      assert Padded([]) == NO_HANDLES by { PaddedNone(); }
      for i := 0 to |planes|
        invariant |Obtained(planes, i)| == i && boHandles[..] == Padded(Obtained(planes, i))
        invariant gpu.log == old(gpu.log).(obtained := old(gpu.log).obtained + Obtained(planes, i))
      {
        if planes[i].None? {
          StopsAt(planes, i);
          return false;
        }
        PadNext(Obtained(planes, i), planes[i].value);
        ghost var before := boHandles[..];
        boHandles[i] := planes[i].value;
        assert boHandles[..] == before[i := planes[i].value];
        gpu.log := gpu.log.(obtained := gpu.log.obtained + [planes[i].value]);
      }
      return true;
    }
  }

  lemma PaddedNone()
    ensures Padded([]) == NO_HANDLES
  {
  }

  lemma PadNext(h: seq<nat>, v: nat)
    requires |h| < 4
    ensures Padded(h)[|h| := v] == Padded(h + [v])
  {
  }

  lemma StopsAt(planes: seq<Option<nat>>, i: nat)
    requires i < |planes| && planes[i].None?
    ensures Obtained(planes, |planes|) == Obtained(planes, i)
  {
    StopsBefore(planes, i, |planes|);
  }

  lemma {:induction false} StopsBefore(planes: seq<Option<nat>>, i: nat, n: nat)
    requires i < n <= |planes| && planes[i].None?
    ensures Obtained(planes, n) == Obtained(planes, i)
    decreases n
  {
    if n == i + 1 {
    } else {
      StopsBefore(planes, i, n - 1);
    }
  }

  class DrmBuffer {
    const gpu: Gpu
    var attachment: DrmFb?
    var unimportable: bool

    constructor (g: Gpu)
      ensures gpu == g && attachment == null && !unimportable
    {
      gpu := g;
      attachment, unimportable := null, false;
    }

    /** The constructor of CDRMFB: a new framebuffer, imported. */
    method ImportNew(a: Answers) returns (fb: DrmFb)
      modifies this`unimportable, gpu
      ensures fresh(fb) && fresh(fb.boHandles) && fb.Valid() && fb.gpu == gpu
      ensures var (v, failed, log) := Import(old(unimportable), a, old(gpu.log));
              fb.Value() == v && unimportable == (old(unimportable) || failed) && gpu.log == log
    {
      fb := new DrmFb(gpu);
      if !a.hasDmabuf {
        return;
      }
      if unimportable {
        return;
      }
      var ok := fb.ImportPlanes(a.planes);
      if !ok {
        fb.DropFromKms();
        return;
      }
      fb.id := a.id;
      gpu.log := gpu.log.(submits := gpu.log.submits + 1);
      if fb.id == 0 {
        unimportable := true;
        fb.DropFromKms();
        return;
      }
      fb.CloseFbHandles();
    }

    /** CDRMFB::create. The framebuffer of a failed import is destroyed at once, and dropping it changes nothing. */
    method Create(a: Answers) returns (fb: DrmFb?, isNew: bool)
      modifies this, gpu
      ensures old(attachment) != null ==>
                fb == attachment == old(attachment) && !isNew && gpu.log == old(gpu.log)
                    && unimportable == old(unimportable)
      ensures old(attachment) == null ==>
                var (v, failed, log) := Import(old(unimportable), a, old(gpu.log));
                && isNew && gpu.log == log && unimportable == (old(unimportable) || failed) && fb == attachment
                && (fb == null <==> v.id == 0) && (fb != null ==> fresh(fb) && fb.Value() == v)
    {
      if attachment != null {
        return attachment, false;
      }
      var made := ImportNew(a);
      if made.id == 0 {
        return null, true;
      }
      attachment := made;
      return made, true;
    }

    /** The listener on the destroy event of the buffer. */
    method OnDestroy()
      requires attachment != null && attachment.Valid() && attachment.gpu == gpu
      modifies attachment, attachment.boHandles, gpu
      ensures var (v, log) := Drop(old(attachment.Value()), old(gpu.log));
              attachment.Value() == v.(dead := true, id := 0, handles := NO_HANDLES) && gpu.log == log
    {
      attachment.DropFromKms();
      attachment.dead := true;
      attachment.id := 0;
      attachment.ClearHandles();
    }
  }
}
