/**
 The timers of the headless backend (src/backend/Headless.cpp). Deadlines and clock readings are nanoseconds.
 A timer is known by the number of its callback; callbacks are numbered as they are handed in.
 */
module HeadlessTimers {
  import Partition

  const FOUR_MINUTES := 240_000_000_000

  datatype Timer = Timer(what: nat, when: int)
  datatype Firing = Firing(timer: Timer, reading: int)

  /** addTimer, and the clock reading of its updateTimerFD. */
  datatype Request = Request(when: int, now: int)

  /** What each fired callback does in turn: it may add timers. */
  type Reactions = nat -> seq<Request>
  type Clock = nat -> int

  /**
   `asked` is the deadline of every timer ever added, `fired` every callback run, with the reading that expired it.
   */
  datatype State = State(timers: seq<Timer>, armed: int, asked: seq<int>, fired: seq<Firing>)

  function Soonest(ts: seq<Timer>, n: nat, limit: int): (r: int)
    requires n <= |ts|
    ensures r <= limit && forall i :: 0 <= i < n ==> r <= ts[i].when
    ensures r == limit || exists i :: 0 <= i < n && r == ts[i].when
    decreases n
  {
    if n == 0 then limit
    else
      var r := Soonest(ts, n - 1, limit);
      if ts[n - 1].when < r then ts[n - 1].when else r
  }

  function Rearmed(s: State, now: int): State {
    s.(armed := Soonest(s.timers, |s.timers|, now + FOUR_MINUTES))
  }

  function Added(s: State, q: Request): State {
    Rearmed(s.(timers := s.timers + [Timer(|s.asked|, q.when)], asked := s.asked + [q.when]), q.now)
  }

  function AddedAll(s: State, qs: seq<Request>, n: nat): State
    requires n <= |qs|
    decreases n
  {
    if n == 0 then s else Added(AddedAll(s, qs, n - 1), qs[n - 1])
  }

  /** Timer `i` is asked at the reading clock(i), and is expired strictly after its deadline. */
  function Expired(ts: seq<Timer>, clock: Clock): nat -> bool {
    (i: nat) => i < |ts| && clock(i) > ts[i].when
  }

  function Readings(ts: seq<Timer>, clock: Clock): (r: seq<Firing>)
    ensures |r| == |ts| && forall i :: 0 <= i < |ts| ==> r[i] == Firing(ts[i], clock(i))
  {
    seq(|ts|, i requires 0 <= i < |ts| => Firing(ts[i], clock(i)))
  }

  function Batch(ts: seq<Timer>, clock: Clock): seq<Firing> {
    Partition.Moved(Readings(ts, clock), Expired(ts, clock), |ts|)
  }

  /** The first `n` callbacks of a batch run, each followed by what it does. */
  function Fired(s: State, batch: seq<Firing>, reactions: Reactions, n: nat): State
    requires n <= |batch|
    decreases n
  {
    if n == 0 then s
    else
      var s' := Fired(s, batch, reactions, n - 1);
      AddedAll(s'.(fired := s'.fired + [batch[n - 1]]), reactions(n - 1), |reactions(n - 1)|)
  }

  function Taken(s: State, clock: Clock): State {
    s.(timers := Partition.Kept(s.timers, Expired(s.timers, clock), |s.timers|))
  }

  function Dispatched(s: State, readError: bool, clock: Clock, reactions: Reactions, now: int): State {
    if readError then s
    else
      var batch := Batch(s.timers, clock);
      var kept := Taken(s, clock);
      Rearmed(Fired(kept, batch, reactions, |batch|), now)
  }

  // ----- what holds of every state

  function Callbacks(ts: seq<Timer>): seq<nat> { seq(|ts|, i requires 0 <= i < |ts| => ts[i].what) }

  function CallbacksRun(fs: seq<Firing>): seq<nat> { seq(|fs|, i requires 0 <= i < |fs| => fs[i].timer.what) }

  predicate InOrder(ts: seq<Timer>) { forall i, j :: 0 <= i < j < |ts| ==> ts[i].what < ts[j].what }

  predicate Asked(t: Timer, asked: seq<int>) { t.what < |asked| && t.when == asked[t.what] }

  predicate Due(f: Firing, asked: seq<int>) { Asked(f.timer, asked) && f.reading > f.timer.when }

  /** Every callback handed in is pending, in the batch or has run, once. */
  ghost predicate Tally(s: State, batch: seq<Firing>) {
    forall k: nat ::
      multiset(Callbacks(s.timers))[k] + multiset(CallbacksRun(batch))[k] + multiset(CallbacksRun(s.fired))[k]
      == if k < |s.asked| then 1 else 0
  }

  /**
   With `batch` taken out and not yet run: every added timer is pending, in the batch or has run, once; nothing
   runs before its deadline; pending timers are in the order they were added; the timer is armed in time.
   */
  ghost predicate Exact(s: State, batch: seq<Firing>) {
    && (forall t <- s.timers :: Asked(t, s.asked) && s.armed <= t.when)
    && (forall f <- batch :: Due(f, s.asked))
    && (forall f <- s.fired :: Due(f, s.asked))
    && InOrder(s.timers)
    && Tally(s, batch)
  }

  lemma RunAppend(fs: seq<Firing>, f: Firing)
    ensures CallbacksRun(fs + [f]) == CallbacksRun(fs) + [f.timer.what]
  {
  }

  lemma AddedTimers(s: State, q: Request)
    requires forall t <- s.timers :: Asked(t, s.asked)
    ensures var s' := Added(s, q);
            && (forall t <- s'.timers :: Asked(t, s'.asked) && s'.armed <= t.when)
            && (forall t: Timer :: Asked(t, s.asked) ==> Asked(t, s'.asked))
            && Callbacks(s'.timers) == Callbacks(s.timers) + [|s.asked|]
            && s'.timers == s.timers + [Timer(|s.asked|, q.when)] && s'.asked == s.asked + [q.when]
               && s'.fired == s.fired
  {
    var s' := Added(s, q);
    forall t | t in s'.timers ensures Asked(t, s'.asked) && s'.armed <= t.when {
      assert t in s.timers || t == Timer(|s.asked|, q.when);
      var i :| 0 <= i < |s'.timers| && s'.timers[i] == t;
    }
  }

  lemma StillDue(fs: seq<Firing>, asked: seq<int>, asked': seq<int>)
    requires (forall f <- fs :: Due(f, asked)) && forall t: Timer :: Asked(t, asked) ==> Asked(t, asked')
    ensures forall f <- fs :: Due(f, asked')
  {
    hide Asked;
  }

  lemma StillInOrder(ts: seq<Timer>, t: Timer)
    requires InOrder(ts) && forall u <- ts :: u.what < t.what
    ensures InOrder(ts + [t])
  {
    forall i | 0 <= i < |ts| ensures ts[i].what < t.what {
      assert ts[i] in ts;
    }
  }

  lemma AddKeepsExact(s: State, batch: seq<Firing>, q: Request)
    requires Exact(s, batch)
    ensures Exact(Added(s, q), batch)
  {
    var s' := Added(s, q);
    AddedTimers(s, q);
    StillDue(batch, s.asked, s'.asked);
    StillDue(s.fired, s.asked, s'.asked);
    StillInOrder(s.timers, Timer(|s.asked|, q.when));
    AddedTally(s, batch, q);
    hide Tally, Added, InOrder, Callbacks, CallbacksRun;
  }

  lemma AddedTally(s: State, batch: seq<Firing>, q: Request)
    requires Tally(s, batch)
    ensures Tally(Added(s, q), batch)
  {
    var s' := Added(s, q);
    assert Callbacks(s'.timers) == Callbacks(s.timers) + [|s.asked|];
    assert s'.fired == s.fired && |s'.asked| == |s.asked| + 1;
    forall k: nat {
      Partition.CountAppend(Callbacks(s.timers), |s.asked|, k);
    }
    hide Added, Callbacks, CallbacksRun;
  }

  lemma AddedNone(s: State, qs: seq<Request>)
    ensures AddedAll(s, qs, 0) == s
  {
  }

  lemma AddedLast(s: State, qs: seq<Request>, n: nat)
    requires n < |qs|
    ensures AddedAll(s, qs, n + 1) == Added(AddedAll(s, qs, n), qs[n])
  {
    hide Added;
  }

  lemma {:induction false} AddAllKeepsExact(s: State, batch: seq<Firing>, qs: seq<Request>, n: nat)
    requires n <= |qs| && Exact(s, batch)
    ensures Exact(AddedAll(s, qs, n), batch)
    decreases n
  {
    hide *;
    AddedNone(s, qs);
    if n == 0 {
    } else {
      AddAllKeepsExact(s, batch, qs, n - 1);
      AddedLast(s, qs, n - 1);
      AddKeepsExact(AddedAll(s, qs, n - 1), batch, qs[n - 1]);
    }
  }

  lemma FireKeepsExact(s: State, batch: seq<Firing>)
    requires batch != [] && Exact(s, batch)
    ensures Exact(s.(fired := s.fired + [batch[0]]), batch[1..])
  {
    RunAppend(s.fired, batch[0]);
    assert CallbacksRun(batch) == [batch[0].timer.what] + CallbacksRun(batch[1..]);
    forall f | f in batch[1..] || f in s.fired + [batch[0]] ensures Due(f, s.asked) {
      assert f in batch || f in s.fired;
    }
  }

  lemma {:induction false} BatchKeepsExact(s: State, batch: seq<Firing>, reactions: Reactions, n: nat)
    requires n <= |batch| && Exact(s, batch)
    ensures Exact(Fired(s, batch, reactions, n), batch[n..])
    decreases n
  {
    hide Exact;
    if n == 0 {
      assert batch[n..] == batch;
    } else {
      BatchKeepsExact(s, batch, reactions, n - 1);
      var s' := Fired(s, batch, reactions, n - 1);
      FireKeepsExact(s', batch[n - 1..]);
      assert batch[n - 1..][1..] == batch[n..];
      AddAllKeepsExact(s'.(fired := s'.fired + [batch[n - 1]]), batch[n..], reactions(n - 1), |reactions(n - 1)|);
    }
  }

  lemma {:induction false} PartitionCounts(ts: seq<Timer>, all: seq<Firing>, chosen: nat -> bool, n: nat, k: nat)
    requires n <= |ts| == |all| && forall i :: 0 <= i < |ts| ==> all[i].timer == ts[i]
    ensures multiset(Callbacks(Partition.Kept(ts, chosen, n)))[k]
            + multiset(CallbacksRun(Partition.Moved(all, chosen, n)))[k]
            == multiset(Callbacks(ts[..n]))[k]
    decreases n
  {
    hide *;
    if n == 0 {
      Partition.First(ts, chosen);
      Partition.First(all, chosen);
      NoCallbacks(k);
    } else {
      var m := n - 1;
      PartitionCounts(ts, all, chosen, m, k);
      Partition.Last(ts, chosen, m);
      Partition.Last(all, chosen, m);
      OneTimerMore(Partition.Kept(ts, chosen, m), Partition.Moved(all, chosen, m), ts[..m], all[m], k);
    }
  }

  lemma OneTimerMore(kept: seq<Timer>, moved: seq<Firing>, ts: seq<Timer>, f: Firing, k: nat)
    requires multiset(Callbacks(kept))[k] + multiset(CallbacksRun(moved))[k] == multiset(Callbacks(ts))[k]
    ensures multiset(Callbacks(kept + [f.timer]))[k] + multiset(CallbacksRun(moved))[k]
            == multiset(Callbacks(ts + [f.timer]))[k]
    ensures multiset(Callbacks(kept))[k] + multiset(CallbacksRun(moved + [f]))[k]
            == multiset(Callbacks(ts + [f.timer]))[k]
  {
    CountTimer(kept, f.timer, k);
    CountFiring(moved, f, k);
    CountTimer(ts, f.timer, k);
  }

  lemma NoCallbacks(k: nat)
    ensures multiset(Callbacks([]))[k] == multiset(CallbacksRun([]))[k] == 0
  {
  }

  lemma CountTimer(ts: seq<Timer>, t: Timer, k: nat)
    ensures multiset(Callbacks(ts + [t]))[k] == multiset(Callbacks(ts))[k] + if t.what == k then 1 else 0
  {
    assert Callbacks(ts + [t]) == Callbacks(ts) + [t.what];
  }

  lemma CountFiring(fs: seq<Firing>, f: Firing, k: nat)
    ensures multiset(CallbacksRun(fs + [f]))[k] == multiset(CallbacksRun(fs))[k] + if f.timer.what == k then 1 else 0
  {
    RunAppend(fs, f);
  }

  lemma {:induction false} PartitionOrder(ts: seq<Timer>, chosen: nat -> bool, n: nat)
    requires n <= |ts| && InOrder(ts)
    ensures InOrder(Partition.Kept(ts, chosen, n))
    ensures n < |ts| ==> forall t <- Partition.Kept(ts, chosen, n) :: t.what < ts[n].what
    decreases n
  {
    if n == 0 {
    } else {
      PartitionOrder(ts, chosen, n - 1);
    }
  }

  /** A callback is taken out exactly when its own reading was strictly past its deadline. */
  lemma TakenWhenPast(ts: seq<Timer>, all: seq<Firing>, clock: Clock, n: nat)
    requires n <= |ts| == |all| && forall i :: 0 <= i < |ts| ==> all[i] == Firing(ts[i], clock(i))
    ensures var chosen := Expired(ts, clock);
            && (forall f <- Partition.Moved(all, chosen, n) :: f.reading > f.timer.when && f.timer in ts)
            && (forall t <- Partition.Kept(ts, chosen, n) :: t in ts)
            && (forall i :: 0 <= i < n && clock(i) > ts[i].when ==> all[i] in Partition.Moved(all, chosen, n))
            && (forall i :: 0 <= i < n && clock(i) <= ts[i].when ==> ts[i] in Partition.Kept(ts, chosen, n))
  {
    hide Partition.Moved, Partition.Kept;
    Partition.WhereFrom(all, Expired(ts, clock), n);
    Partition.WhereFrom(ts, Expired(ts, clock), n);
  }

  lemma TakeKeepsExact(s: State, clock: Clock)
    requires Exact(s, [])
    ensures Exact(Taken(s, clock), Batch(s.timers, clock))
  {
    var ts := s.timers;
    var kept, batch := Taken(s, clock).timers, Batch(ts, clock);
    PartitionOrder(ts, Expired(ts, clock), |ts|);
    TakenWhenPast(ts, Readings(ts, clock), clock, |ts|);
    forall k: nat ensures multiset(Callbacks(kept))[k] + multiset(CallbacksRun(batch))[k]
        == multiset(Callbacks(ts))[k] {
      PartitionCounts(ts, Readings(ts, clock), Expired(ts, clock), |ts|, k);
      assert ts[..|ts|] == ts;
    }
    Splitting(s, kept, batch);
  }

  lemma Splitting(s: State, kept: seq<Timer>, batch: seq<Firing>)
    requires Exact(s, []) && InOrder(kept)
    requires (forall t <- kept :: t in s.timers) && forall f <- batch :: f.timer in s.timers && f.reading > f.timer.when
    requires forall k: nat ::
               multiset(Callbacks(kept))[k] + multiset(CallbacksRun(batch))[k] == multiset(Callbacks(s.timers))[k]
    ensures Exact(s.(timers := kept), batch)
  {
    assert CallbacksRun([]) == [];
  }

  lemma DispatchKeepsExact(s: State, readError: bool, clock: Clock, reactions: Reactions, now: int)
    requires Exact(s, [])
    ensures Exact(Dispatched(s, readError, clock, reactions, now), [])
  {
    if !readError {
      var batch := Batch(s.timers, clock);
      var kept := Taken(s, clock);
      TakeKeepsExact(s, clock);
      BatchKeepsExact(kept, batch, reactions, |batch|);
      assert batch[|batch|..] == [];
      Rearming(Fired(kept, batch, reactions, |batch|), now);
    }
  }

  lemma Rearming(s: State, now: int)
    requires Exact(s, [])
    ensures Exact(Rearmed(s, now), [])
  {
    forall t | t in s.timers ensures Rearmed(s, now).armed <= t.when {
      var i :| 0 <= i < |s.timers| && s.timers[i] == t;
    }
  }

  // ----- runs

  datatype Op = AddTimer(q: Request) | DispatchTimers(readError: bool, clock: Clock, reactions: Reactions, now: int)

  function Run(s: State, ops: seq<Op>): State
    decreases |ops|
  {
    if |ops| == 0 then s
    else
      Run(match ops[0]
          case AddTimer(q) => Added(s, q)
          case DispatchTimers(e, clock, reactions, now) => Dispatched(s, e, clock, reactions, now),
          ops[1..])
  }

  /** Every run, with callbacks that add timers: each added timer is pending or ran once, on time, in order. */
  lemma {:induction false} RunKeepsExact(s: State, ops: seq<Op>)
    requires Exact(s, [])
    ensures Exact(Run(s, ops), [])
    decreases |ops|
  {
    if |ops| == 0 {
    } else {
      hide Exact, Added, Dispatched;
      match ops[0] {
        case AddTimer(q) =>
          AddKeepsExact(s, [], q);
          RunKeepsExact(Added(s, q), ops[1..]);
        case DispatchTimers(e, clock, reactions, now) =>
          DispatchKeepsExact(s, e, clock, reactions, now);
          RunKeepsExact(Dispatched(s, e, clock, reactions, now), ops[1..]);
      }
    }
  }

  /** In one dispatch a timer that was pending runs if and only if its own reading was strictly past its deadline. */
  lemma RunsWhenPast(s: State, clock: Clock, reactions: Reactions, now: int, i: nat)
    requires Exact(s, []) && i < |s.timers|
    ensures var s' := Dispatched(s, false, clock, reactions, now);
            s.timers[i].what in CallbacksRun(s'.fired) <==> clock(i) > s.timers[i].when
  {
    var ts := s.timers;
    var all := Readings(ts, clock);
    TakenWhenPast(ts, all, clock, |ts|);
    TakeKeepsExact(s, clock);
    var batch := Batch(ts, clock);
    var kept := Taken(s, clock);
    FiredLog(kept, batch, reactions, |batch|);
    assert batch[..|batch|] == batch;
    Logged(s.fired, batch, ts[i].what);
    if clock(i) > ts[i].when {
      Member(batch, all[i]);
    } else {
      StillPending(kept, batch, ts[i]);
    }
  }

  lemma FiredLast(s: State, batch: seq<Firing>, reactions: Reactions, n: nat)
    requires n < |batch|
    ensures var s' := Fired(s, batch, reactions, n);
            Fired(s, batch, reactions, n + 1)
            == AddedAll(s'.(fired := s'.fired + [batch[n]]), reactions(n), |reactions(n)|)
  {
    hide AddedAll;
  }

  lemma FiredNone(s: State, batch: seq<Firing>, reactions: Reactions)
    ensures Fired(s, batch, reactions, 0) == s
  {
  }

  lemma {:induction false} FiredLog(s: State, batch: seq<Firing>, reactions: Reactions, n: nat)
    requires n <= |batch|
    ensures Fired(s, batch, reactions, n).fired == s.fired + batch[..n]
    decreases n
  {
    hide *;
    if n == 0 {
      FiredNone(s, batch, reactions);
      assert batch[..0] == [];
    } else {
      var m := n - 1;
      FiredLog(s, batch, reactions, m);
      FiredLast(s, batch, reactions, m);
      var s' := Fired(s, batch, reactions, m);
      AddLog(s'.(fired := s'.fired + [batch[m]]), reactions(m), |reactions(m)|);
      assert batch[..n] == batch[..m] + [batch[m]];
    }
  }

  lemma {:induction false} AddLog(s: State, qs: seq<Request>, n: nat)
    requires n <= |qs|
    ensures AddedAll(s, qs, n).fired == s.fired
    decreases n
  {
    if n == 0 {
      AddedNone(s, qs);
    } else {
      AddedLast(s, qs, n - 1);
      AddLog(s, qs, n - 1);
    }
  }

  lemma Logged(a: seq<Firing>, b: seq<Firing>, k: nat)
    ensures k in CallbacksRun(a + b) <==> k in CallbacksRun(a) || k in CallbacksRun(b)
  {
    assert CallbacksRun(a + b) == CallbacksRun(a) + CallbacksRun(b);
  }

  lemma Member(fs: seq<Firing>, f: Firing)
    requires f in fs
    ensures f.timer.what in CallbacksRun(fs)
  {
    var i :| 0 <= i < |fs| && fs[i] == f;
    assert CallbacksRun(fs)[i] == f.timer.what;
  }

  lemma StillPending(s: State, batch: seq<Firing>, t: Timer)
    requires Exact(s, batch) && t in s.timers
    ensures t.what !in CallbacksRun(s.fired) && t.what !in CallbacksRun(batch)
  {
    var i :| 0 <= i < |s.timers| && s.timers[i] == t;
    assert Callbacks(s.timers)[i] == t.what;
    assert multiset(Callbacks(s.timers))[t.what] == 1;
  }

  // ----- when the timer is armed

  /** The armed instant: the earliest pending deadline, or four minutes from `now` if none is earlier. */
  predicate ArmedExactly(s: State, now: int) {
    && s.armed <= now + 240_000_000_000 && (forall t <- s.timers :: s.armed <= t.when)
    && (s.armed == now + 240_000_000_000 || exists t <- s.timers :: t.when == s.armed)
  }

  lemma RearmedExactly(s: State, now: int)
    ensures ArmedExactly(Rearmed(s, now), now) && Rearmed(s, now).(armed := s.armed) == s
  {
    var r := Soonest(s.timers, |s.timers|, now + FOUR_MINUTES);
    if i :| 0 <= i < |s.timers| && r == s.timers[i].when {
      assert s.timers[i] in s.timers;
    }
  }

  /** Adding a timer, and a dispatch whose read does not fail, arm exactly that, by the clock they read last. */
  lemma ArmedAfter(s: State, q: Request, clock: Clock, reactions: Reactions, now: int)
    ensures ArmedExactly(Added(s, q), q.now)
    ensures ArmedExactly(Dispatched(s, false, clock, reactions, now), now)
    ensures Dispatched(s, true, clock, reactions, now) == s
  {
    RearmedExactly(s.(timers := s.timers + [Timer(|s.asked|, q.when)], asked := s.asked + [q.when]), q.now);
    var batch := Batch(s.timers, clock);
    RearmedExactly(Fired(Taken(s, clock), batch, reactions, |batch|), now);
    hide Rearmed, Fired, Taken, Batch;
  }

  // ----- the code

  function TimersOf(fs: seq<Firing>): seq<Timer> { seq(|fs|, i requires 0 <= i < |fs| => fs[i].timer) }

  lemma NoTimers()
    ensures TimersOf([]) == []
  {
  }

  lemma TimersOfMore(fs: seq<Firing>, f: Firing)
    ensures TimersOf(fs + [f]) == TimersOf(fs) + [f.timer]
  {
  }

  /** Timers partitioned together with their readings are partitioned. */
  lemma {:induction false} KeptTimers(ts: seq<Timer>, clock: Clock, n: nat)
    requires n <= |ts|
    ensures TimersOf(Partition.Kept(Readings(ts, clock), Expired(ts, clock), n))
            == Partition.Kept(ts, Expired(ts, clock), n)
    decreases n
  {
    hide *;
    var fs, chosen := Readings(ts, clock), Expired(ts, clock);
    if n == 0 {
      Partition.First(ts, chosen);
      Partition.First(fs, chosen);
      NoTimers();
    } else {
      KeptTimers(ts, clock, n - 1);
      Partition.Last(ts, chosen, n - 1);
      Partition.Last(fs, chosen, n - 1);
      TimersOfMore(Partition.Kept(fs, chosen, n - 1), fs[n - 1]);
    }
  }

  class HeadlessBackend {
    var timers: seq<Timer>
    var armed: int
    ghost var asked: seq<int>
    ghost var fired: seq<Firing>

    ghost function Value(): State
      reads this
    {
      State(timers, armed, asked, fired)
    }

    constructor ()
      ensures Exact(Value(), [])
    {
      timers, armed, asked, fired := [], 0, [], [];
    }

    method UpdateTimerFd(now: int)
      modifies this`armed
      ensures Value() == Rearmed(old(Value()), now)
    {
      var soonest := now + FOUR_MINUTES;
      for i := 0 to |timers|
        invariant soonest == Soonest(timers, i, now + FOUR_MINUTES)
        invariant armed == old(armed)
      {
        if timers[i].when < soonest {
          soonest := timers[i].when;
        }
      }
      armed := soonest;
    }

    method AddTimer(q: Request, what: nat)
      requires what == |asked|
      modifies this
      ensures Value() == Added(old(Value()), q) && |asked| == what + 1
    {
      timers := timers + [Timer(what, q.when)];
      asked := asked + [q.when];
      UpdateTimerFd(q.now);
    }

    /** What one callback adds. */
    method AddAll(qs: seq<Request>, next: nat)
      requires next == |asked|
      modifies this
      ensures Value() == AddedAll(old(Value()), qs, |qs|) && |asked| == next + |qs|
    {
      hide Added;
      for k := 0 to |qs|
        invariant |asked| == next + k
        invariant Value() == AddedAll(old(Value()), qs, k)
      {
        AddTimer(qs[k], next + k);
      }
    }

    /** The loop over the callbacks; `next` numbers the callbacks they hand in. */
    method FireAll(toFire: seq<Firing>, reactions: Reactions, next: nat)
      requires next == |asked|
      modifies this
      ensures Value() == Fired(old(Value()), toFire, reactions, |toFire|)
    {
      hide AddedAll;
      var what := next;
      for i := 0 to |toFire|
        invariant what == |asked|
        invariant Value() == Fired(old(Value()), toFire, reactions, i)
      {
        fired := fired + [toFire[i]];
        AddAll(reactions(i), what);
        what := what + |reactions(i)|;
      }
    }

    method DispatchTimers(readError: bool, clock: Clock, reactions: Reactions, now: int, next: nat)
      requires next == |asked|
      modifies this
      ensures Value() == Dispatched(old(Value()), readError, clock, reactions, now)
    {
      if readError {
        return;
      }
      var staying, toFire := Partition.StablePartition(Readings(timers, clock), Expired(timers, clock));
      KeptTimers(timers, clock, |timers|);
      assert toFire == Batch(timers, clock);
      hide Batch, Expired, Readings, TimersOf, Partition.Kept;
      timers := TimersOf(staying);
      FireAll(toFire, reactions, next);
      UpdateTimerFd(now);
    }
  }
}
