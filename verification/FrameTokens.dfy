/**
 Frame scheduling of headless and DRM outputs through the idle queue and the timer list (src/backend/Headless.cpp,
 src/backend/drm/DRM.cpp, src/backend/Backend.cpp). Callbacks are re-entrant: what a frame handler does in turn
 is a script, which may schedule, destroy, and dispatch again.
 */
module FrameTokens {
  import Partition

  datatype Output = Headless(n: nat) | Drm(n: nat)

  /** A queued callback: a frame callback, the lambda of a headless timer around one, or somebody else's. */
  datatype Callback = Frame(o: Output) | Timed(o: Output) | Other

  datatype Act =
    | HeadlessSchedule(n: nat, due: bool)    // due: the next frame time has passed
    | DrmSchedule(n: nat, flipPending: bool, frameRunning: bool, enabled: bool)
    | AddIdle
    | DestroyHeadless(n: nat)
    | DestroyDrm(n: nat)
    | DispatchIdle(calls: Calls)
    | DispatchTimers(readError: bool, expired: nat -> bool, calls: Calls)

  datatype Script = Done | Then(act: Act, rest: Script)

  /** What each callback of a batch does, in order; the rest do nothing. */
  datatype Calls = Quiet | Call(body: Script, more: Calls)

  /**
   `scheduled` are the outputs whose flag is up, `taken` the callbacks of the batches under way that have not run.
   `gone` are the destroyed headless outputs, `lost` the DRM outputs destroyed while a batch held their callback.
   */
  datatype World = World(scheduled: set<Output>, idle: seq<Callback>, timers: seq<Callback>, gone: set<Output>,
                         lost: set<Output>, taken: multiset<Callback>, accepted: multiset<Output>,
                         run: multiset<Output>, cancelled: multiset<Output>)

  const START := World({}, [], [], {}, {}, multiset{}, multiset{}, multiset{}, multiset{})

  function Accept(w: World, o: Output): World {
    w.(scheduled := w.scheduled + {o}, accepted := w.accepted + multiset{o})
  }

  function Erased(s: seq<Callback>, c: Callback, n: nat): seq<Callback>
    requires n <= |s|
    decreases n
  {
    if n == 0 then [] else if s[n - 1] == c then Erased(s, c, n - 1) else Erased(s, c, n - 1) + [s[n - 1]]
  }

  function Destroyed(w: World, o: Output): World {
    w.(idle := Erased(w.idle, Frame(o), |w.idle|),
       scheduled := w.scheduled - {o},
       cancelled := CancelledBy(w, o),
       lost := LostBy(w, o))
  }

  function CancelledBy(w: World, o: Output): multiset<Output> {
    w.cancelled[o := w.cancelled[o] + multiset(w.idle)[Frame(o)]]
  }

  function LostBy(w: World, o: Output): set<Output> { w.lost + if Frame(o) in w.taken then {o} else {} }

  function TakeIdle(w: World): World {
    w.(idle := [], taken := w.taken + multiset(w.idle))
  }

  function Due(w: World, expired: nat -> bool): seq<Callback> { Partition.Moved(w.timers, expired, |w.timers|) }

  function TakeTimers(w: World, expired: nat -> bool): World {
    w.(timers := Partition.Kept(w.timers, expired, |w.timers|), taken := w.taken + multiset(Due(w, expired)))
  }

  /**
   framecb and frameIdle clear the flag before they announce the frame; a timer of a destroyed output does nothing.
   */
  function Fired(w: World, c: Callback): World {
    var w' := w.(taken := w.taken - multiset{c});
    if c.Other? || (c.Timed? && c.o in w.gone) then w'
    else w'.(scheduled := w.scheduled - {c.o}, run := w.run + multiset{c.o})
  }

  function Do(w: World, a: Act): World
    decreases a
  {
    match a
    case HeadlessSchedule(n, due) =>
      if Headless(n) in w.scheduled then w
      else if due then Accept(w, Headless(n)).(idle := w.idle + [Frame(Headless(n))])
      else Accept(w, Headless(n)).(timers := w.timers + [Timed(Headless(n))])
    case DrmSchedule(n, flipPending, frameRunning, enabled) =>
      if flipPending || frameRunning || Drm(n) in w.scheduled || !enabled then w
      else Accept(w, Drm(n)).(idle := w.idle + [Frame(Drm(n))])
    case AddIdle => w.(idle := w.idle + [Other])
    case DestroyHeadless(n) => w.(gone := w.gone + {Headless(n)})
    case DestroyDrm(n) => Destroyed(w, Drm(n))
    case DispatchIdle(calls) => Drain(TakeIdle(w), w.idle, calls)
    case DispatchTimers(readError, expired, calls) =>
      if readError then w else Drain(TakeTimers(w, expired), Due(w, expired), calls)
  }

  /** The loop over a batch. */
  function Drain(w: World, batch: seq<Callback>, calls: Calls): World
    decreases calls, |batch|
  {
    if batch == [] then w
    else
      match calls
      case Quiet => Drain(Fired(w, batch[0]), batch[1..], Quiet)
      case Call(body, more) => Drain(Play(Fired(w, batch[0]), body), batch[1..], more)
  }

  function Play(w: World, s: Script): World
    decreases s
  {
    match s
    case Done => w
    case Then(act, rest) => Play(Do(w, act), rest)
  }

  // ----- exactly one token

  function Everywhere(w: World): multiset<Callback> { multiset(w.idle) + multiset(w.timers) + w.taken }

  /** The outstanding callbacks of an output, over the idle queue, the timer list and the batches under way. */
  function Tokens(all: multiset<Callback>, o: Output): nat { all[Frame(o)] + all[Timed(o)] }

  predicate Live(w: World, o: Output) { o !in w.gone && o !in w.lost }

  predicate ExactAt(w: World, all: multiset<Callback>, o: Output) {
    && Tokens(all, o) == (if o in w.scheduled then 1 else 0)
    && w.accepted[o] == w.run[o] + w.cancelled[o] + Tokens(all, o)
  }

  predicate Placed(c: Callback) { c.Timed? ==> c.o.Headless? }

  ghost predicate Exact(w: World) {
    && (forall c <- w.idle :: !c.Timed?)
    && (forall c <- w.timers :: c.Timed? && c.o.Headless?)
    && (forall c :: c in w.taken ==> Placed(c))
    && forall o :: Live(w, o) ==> ExactAt(w, Everywhere(w), o)
  }

  lemma QueueIdle(w: World, w': World, c: Callback)
    requires Exact(w) && !c.Timed? && w'.idle == w.idle + [c]
    requires w'.timers == w.timers && w'.taken == w.taken && w'.lost == w.lost && w'.gone == w.gone
             && w'.cancelled == w.cancelled && w'.run == w.run
    requires if c.Frame? then c.o !in w.scheduled && w'.scheduled == w.scheduled + {c.o}
             && w'.accepted == w.accepted + multiset{c.o}
             else w'.scheduled == w.scheduled && w'.accepted == w.accepted
    ensures Exact(w')
  {
    assert Everywhere(w') == Everywhere(w) + multiset{c};
    forall o | Live(w, o) ensures ExactAt(w', Everywhere(w'), o) { assert ExactAt(w, Everywhere(w), o); }
  }

  lemma QueueTimer(w: World, n: nat)
    requires Exact(w) && Headless(n) !in w.scheduled
    ensures Exact(Accept(w, Headless(n)).(timers := w.timers + [Timed(Headless(n))]))
  {
    var w' := Accept(w, Headless(n)).(timers := w.timers + [Timed(Headless(n))]);
    assert Everywhere(w') == Everywhere(w) + multiset{Timed(Headless(n))};
    forall o | Live(w, o) ensures ExactAt(w', Everywhere(w'), o) { assert ExactAt(w, Everywhere(w), o); }
  }

  lemma ErasedNone(s: seq<Callback>, c: Callback)
    ensures Erased(s, c, 0) == s[..0] == []
  {
  }

  lemma ErasedLast(s: seq<Callback>, c: Callback, n: nat)
    requires n < |s|
    ensures Erased(s, c, n + 1) == if s[n] == c then Erased(s, c, n) else Erased(s, c, n) + [s[n]]
    ensures s[..n + 1] == s[..n] + [s[n]]
  {
  }

  lemma {:induction false} ErasedCounts(s: seq<Callback>, c: Callback, d: Callback, n: nat)
    requires n <= |s|
    ensures multiset(Erased(s, c, n))[d] == if d == c then 0 else multiset(s[..n])[d]
    decreases n
  {
    hide *;
    ErasedNone(s, c);
    if n == 0 {
    } else {
      ErasedCounts(s, c, d, n - 1);
      ErasedLast(s, c, n - 1);
      Partition.CountAppend(Erased(s, c, n - 1), s[n - 1], d);
      Partition.CountAppend(s[..n - 1], s[n - 1], d);
    }
  }

  lemma {:induction false} ErasedMembers(s: seq<Callback>, c: Callback, n: nat)
    requires n <= |s|
    ensures forall x <- Erased(s, c, n) :: x in s
    decreases n
  {
    if n == 0 {
    } else {
      ErasedMembers(s, c, n - 1);
    }
  }

  lemma DestroyCounts(w: World, n: nat)
    requires Exact(w)
    ensures var o, all, all' := Drm(n), Everywhere(w), Everywhere(Destroyed(w, Drm(n)));
            && Tokens(all', o) == w.taken[Frame(o)]
            && Tokens(all, o) == multiset(w.idle)[Frame(o)] + w.taken[Frame(o)]
            && forall p :: p != o ==> Tokens(all', p) == Tokens(all, p)
  {
    var o, w' := Drm(n), Destroyed(w, Drm(n));
    assert w.idle[..|w.idle|] == w.idle;
    forall d ensures Everywhere(w')[d] == Everywhere(w)[d] - (if d == Frame(o) then multiset(w.idle)[d] else 0) {
      ErasedCounts(w.idle, Frame(o), d, |w.idle|);
    }
    assert Timed(o) !in w.idle && Timed(o) !in w.timers && Frame(o) !in w.timers && Timed(o) !in w.taken by {
      assert !Placed(Timed(o));
    }
    hide Erased, ExactAt, CancelledBy, LostBy;
  }

  lemma DestroyParts(w: World, n: nat)
    requires Exact(w)
    ensures var w' := Destroyed(w, Drm(n));
            && (forall c <- w'.idle :: !c.Timed?) && w'.timers == w.timers && w'.taken == w.taken && w'.gone == w.gone
            && w'.lost == w.lost + (if Frame(Drm(n)) in w.taken then {Drm(n)} else {})
  {
    ErasedMembers(w.idle, Frame(Drm(n)), |w.idle|);
    hide Erased, CancelledBy;
  }

  /** A destroyed DRM output has no token left, unless a batch under way holds it: then the flag is wrong. */
  lemma DestroyDrmExact(w: World, n: nat)
    requires Exact(w)
    ensures var w', o := Destroyed(w, Drm(n)), Drm(n);
            && Exact(w') && w'.taken == w.taken
            && (Live(w, o) ==> (ExactAt(w', Everywhere(w'), o) <==> Frame(o) !in w.taken))
  {
    var o, w' := Drm(n), Destroyed(w, Drm(n));
    DestroyParts(w, n);
    DestroyCounts(w, n);
    var all, all' := Everywhere(w), Everywhere(w');
    if Live(w, o) {
      assert ExactAt(w, all, o);
      DestroyedAt(w, o, all, all', o);
    }
    forall p | Live(w', p) ensures ExactAt(w', all', p) {
      assert ExactAt(w, all, p);
      DestroyedAt(w, o, all, all', p);
    }
    hide ExactAt, Tokens, Destroyed, Everywhere;
  }

  lemma DestroyedAt(w: World, o: Output, all: multiset<Callback>, all': multiset<Callback>, p: Output)
    requires ExactAt(w, all, p)
    requires if p == o then Tokens(all, o) == multiset(w.idle)[Frame(o)] + Tokens(all', o)
             else Tokens(all', p) == Tokens(all, p)
    ensures ExactAt(Destroyed(w, o), all', p) <==> p != o || Tokens(all', o) == 0
  {
    hide Erased, LostBy, Tokens;
  }

  lemma TakeIdleExact(w: World)
    requires Exact(w)
    ensures Exact(TakeIdle(w)) && TakeIdle(w).taken == w.taken + multiset(w.idle)
  {
    assert Everywhere(TakeIdle(w)) == Everywhere(w);
    forall o | Live(w, o) ensures ExactAt(TakeIdle(w), Everywhere(w), o) { assert ExactAt(w, Everywhere(w), o); }
  }

  lemma TakenFromTimers(w: World, expired: nat -> bool)
    ensures var w' := TakeTimers(w, expired);
            && (forall c <- w'.timers :: c in w.timers) && (forall c <- Due(w, expired) :: c in w.timers)
            && (forall c :: c in w'.taken ==> c in w.taken || c in w.timers)
  {
    Partition.WhereFrom(w.timers, expired, |w.timers|);
    assert forall c <- Due(w, expired) :: c in w.timers;
    hide Partition.Kept, Partition.Moved;
  }

  lemma TakenTimersCount(w: World, expired: nat -> bool)
    ensures Everywhere(TakeTimers(w, expired)) == Everywhere(w)
  {
    hide Partition.Kept, Partition.Moved;
    assert w.timers[..|w.timers|] == w.timers;
    forall c ensures Everywhere(TakeTimers(w, expired))[c] == Everywhere(w)[c] {
      Partition.NothingLost(w.timers, expired, |w.timers|, c);
    }
  }

  lemma TakeTimersExact(w: World, expired: nat -> bool)
    requires Exact(w)
    ensures Exact(TakeTimers(w, expired)) && TakeTimers(w, expired).taken == w.taken + multiset(Due(w, expired))
  {
    var w' := TakeTimers(w, expired);
    TakenFromTimers(w, expired);
    TakenTimersCount(w, expired);
    hide Partition.Kept, Due, Everywhere;
    forall o | Live(w, o) ensures ExactAt(w', Everywhere(w), o) {
      assert ExactAt(w, Everywhere(w), o);
    }
  }

  lemma FireAt(w: World, c: Callback, all: multiset<Callback>, o: Output)
    requires c in all && ExactAt(w, all, o) && Live(w, o)
    ensures ExactAt(Fired(w, c), all - multiset{c}, o)
  {
  }

  lemma FireParts(w: World, c: Callback)
    requires c in w.taken
    ensures var w' := Fired(w, c);
            && w'.idle == w.idle && w'.timers == w.timers && w'.gone == w.gone && w'.lost == w.lost
            && w'.taken == w.taken - multiset{c} && Everywhere(w') == Everywhere(w) - multiset{c} && c in Everywhere(w)
            && forall d :: d in w'.taken ==> d in w.taken
  {
  }

  lemma FireExact(w: World, c: Callback)
    requires Exact(w) && c in w.taken
    ensures Exact(Fired(w, c)) && Fired(w, c).taken == w.taken - multiset{c}
  {
    hide Fired, ExactAt, Placed, Everywhere;
    FireParts(w, c);
    var w' := Fired(w, c);
    forall o | Live(w, o) ensures ExactAt(w', Everywhere(w'), o) {
      FireAt(w, c, Everywhere(w), o);
    }
  }

  // ----- every run

  lemma {:induction false} DoExact(w: World, a: Act)
    requires Exact(w)
    ensures Exact(Do(w, a)) && Do(w, a).taken == w.taken
    decreases a
  {
    hide Exact, Destroyed, TakeIdle, TakeTimers, Due, Drain;
    match a {
      case HeadlessSchedule(n, due) =>
        if Headless(n) !in w.scheduled {
          if due { QueueIdle(w, Do(w, a), Frame(Headless(n))); } else { QueueTimer(w, n); }
        }
      case DrmSchedule(n, flipPending, frameRunning, enabled) =>
        if Do(w, a) != w {
          QueueIdle(w, Do(w, a), Frame(Drm(n)));
        }
      case AddIdle => QueueIdle(w, Do(w, a), Other);
      case DestroyHeadless(n) => DestroyHeadlessExact(w, n);
      case DestroyDrm(n) => DestroyDrmExact(w, n);
      case DispatchIdle(calls) =>
        TakeIdleExact(w);
        DrainExact(TakeIdle(w), w.idle, calls);
      case DispatchTimers(readError, expired, calls) =>
        if !readError {
          TakeTimersExact(w, expired);
          DrainExact(TakeTimers(w, expired), Due(w, expired), calls);
        }
    }
  }

  lemma DestroyHeadlessExact(w: World, n: nat)
    requires Exact(w)
    ensures Exact(w.(gone := w.gone + {Headless(n)}))
  {
    var w' := w.(gone := w.gone + {Headless(n)});
    forall o | Live(w', o) ensures ExactAt(w', Everywhere(w'), o) { assert ExactAt(w, Everywhere(w), o); }
  }

  lemma FirstOfBatch(batch: seq<Callback>, taken: multiset<Callback>)
    requires batch != [] && multiset(batch) <= taken
    ensures batch[0] in taken && multiset(batch[1..]) <= taken - multiset{batch[0]}
    ensures taken - multiset{batch[0]} - multiset(batch[1..]) == taken - multiset(batch)
  {
    assert batch == [batch[0]] + batch[1..];
    assert multiset(batch) == multiset{batch[0]} + multiset(batch[1..]);
  }

  lemma {:induction false} DrainExact(w: World, batch: seq<Callback>, calls: Calls)
    requires Exact(w) && multiset(batch) <= w.taken
    ensures Exact(Drain(w, batch, calls)) && Drain(w, batch, calls).taken == w.taken - multiset(batch)
    decreases calls, |batch|
  {
    hide Exact, Fired, Play;
    if batch == [] {
    } else {
      var w' := Fired(w, batch[0]);
      FirstOfBatch(batch, w.taken);
      FireExact(w, batch[0]);
      match calls {
        case Quiet => DrainExact(w', batch[1..], Quiet);
        case Call(body, more) =>
          PlayExact(w', body);
          DrainExact(Play(w', body), batch[1..], more);
      }
    }
  }

  /** Under any re-entrant script, a flag is up exactly when one callback is outstanding, and none runs twice. */
  lemma {:induction false} PlayExact(w: World, s: Script)
    requires Exact(w)
    ensures Exact(Play(w, s)) && Play(w, s).taken == w.taken
    decreases s
  {
    hide Exact;
    match s {
      case Done =>
      case Then(act, rest) =>
        DoExact(w, act);
        PlayExact(Do(w, act), rest);
    }
  }

  // ----- which frames run, and when

  /** A batch whose callbacks do nothing more: each frame callback runs, but for timers of destroyed outputs. */
  lemma {:induction false} QuietDrain(w: World, batch: seq<Callback>, o: Output)
    ensures Drain(w, batch, Quiet).run[o] ==
            w.run[o] + multiset(batch)[Frame(o)] + if o in w.gone then 0 else multiset(batch)[Timed(o)]
    decreases |batch|
  {
    if batch == [] {
    } else {
      assert batch == [batch[0]] + batch[1..];
      assert multiset(batch) == multiset{batch[0]} + multiset(batch[1..]);
      QuietDrain(Fired(w, batch[0]), batch[1..], o);
      hide Drain;
    }
  }

  const ALL: nat -> bool := _ => true

  lemma {:induction false} AllMoved(s: seq<Callback>, n: nat)
    requires n <= |s|
    ensures Partition.Moved(s, ALL, n) == s[..n]
    decreases n
  {
    if n == 0 {
    } else {
      AllMoved(s, n - 1);
    }
  }

  /** What the idle dispatch and a dispatch of all timers run of an output, when nothing else happens. */
  lemma DispatchRuns(w: World, o: Output)
    ensures Do(w, DispatchIdle(Quiet)).run[o] ==
            w.run[o] + multiset(w.idle)[Frame(o)] + if o in w.gone then 0 else multiset(w.idle)[Timed(o)]
    ensures Do(w, DispatchTimers(false, ALL, Quiet)).run[o] ==
            w.run[o] + multiset(w.timers)[Frame(o)] + if o in w.gone then 0 else multiset(w.timers)[Timed(o)]
  {
    hide *;
    IdleDrains(w, Quiet);
    TimersDrain(w, ALL, Quiet);
    DueAll(w);
    TakesKeep(w, ALL);
    QuietDrain(TakeIdle(w), w.idle, o);
    QuietDrain(TakeTimers(w, ALL), w.timers, o);
  }

  lemma DueAll(w: World)
    ensures Due(w, ALL) == w.timers
  {
    AllMoved(w.timers, |w.timers|);
    assert w.timers[..|w.timers|] == w.timers;
    hide ALL;
  }

  lemma IdleDrains(w: World, calls: Calls)
    ensures Do(w, DispatchIdle(calls)) == Drain(TakeIdle(w), w.idle, calls)
  {
    hide Drain, TakeIdle;
  }

  lemma TimersDrain(w: World, expired: nat -> bool, calls: Calls)
    ensures Do(w, DispatchTimers(false, expired, calls)) == Drain(TakeTimers(w, expired), Due(w, expired), calls)
  {
    hide Drain, TakeTimers, Due;
  }

  lemma TakesKeep(w: World, expired: nat -> bool)
    ensures TakeIdle(w).run == w.run && TakeIdle(w).gone == w.gone
    ensures TakeTimers(w, expired).run == w.run && TakeTimers(w, expired).gone == w.gone
  {
  }

  lemma NoToken(w: World, o: Output)
    requires Exact(w) && Live(w, o) && o !in w.scheduled
    ensures multiset(w.idle)[Frame(o)] == multiset(w.idle)[Timed(o)] == 0
    ensures multiset(w.timers)[Frame(o)] == multiset(w.timers)[Timed(o)] == 0
  {
    assert ExactAt(w, Everywhere(w), o);
  }

  /**
   A headless frame that is due runs in the next idle dispatch, any other when its timer has expired, and then not if
   the output was destroyed meanwhile.
   */
  lemma HeadlessFrame(w: World, n: nat, due: bool)
    requires Exact(w) && Live(w, Headless(n)) && Headless(n) !in w.scheduled
    ensures var o, w' := Headless(n), Do(w, HeadlessSchedule(n, due));
            && Do(w', DispatchIdle(Quiet)).run[o] == w.run[o] + (if due then 1 else 0)
            && Do(w', DispatchTimers(false, ALL, Quiet)).run[o] == w.run[o] + (if due then 0 else 1)
            && Do(Do(w', DestroyHeadless(n)), DispatchTimers(false, ALL, Quiet)).run[o] == w.run[o]
  {
    var o, w' := Headless(n), Do(w, HeadlessSchedule(n, due));
    NoToken(w, o);
    DispatchRuns(w', o);
    DispatchRuns(Do(w', DestroyHeadless(n)), o);
    Partition.CountAppend(w.idle, Frame(o), Frame(o));
    Partition.CountAppend(w.idle, Frame(o), Timed(o));
    Partition.CountAppend(w.timers, Timed(o), Frame(o));
    Partition.CountAppend(w.timers, Timed(o), Timed(o));
    hide Exact, Live, Drain, TakeIdle, TakeTimers, Due;
  }

  /** A DRM frame runs in the next idle dispatch, unless the output is disabled or has a flip or frame under way. */
  lemma DrmFrame(w: World, n: nat, flipPending: bool, frameRunning: bool, enabled: bool)
    requires Exact(w) && Live(w, Drm(n)) && Drm(n) !in w.scheduled
    ensures var w' := Do(Do(w, DrmSchedule(n, flipPending, frameRunning, enabled)), DispatchIdle(Quiet));
            w'.run[Drm(n)] == w.run[Drm(n)] + if enabled && !flipPending && !frameRunning then 1 else 0
  {
    var o, w' := Drm(n), Do(w, DrmSchedule(n, flipPending, frameRunning, enabled));
    NoToken(w, o);
    DispatchRuns(w', o);
    Partition.CountAppend(w.idle, Frame(o), Frame(o));
    Partition.CountAppend(w.idle, Frame(o), Timed(o));
    hide Exact, Live, Drain, TakeIdle;
  }

  /** From the start: outside the dispatchers, the flag of an output is up if and only if one callback is queued. */
  lemma OneTokenPerFlag(s: Script, o: Output)
    requires Live(Play(START, s), o)
    ensures var w := Play(START, s);
            && w.taken == multiset{}
            && Tokens(multiset(w.idle) + multiset(w.timers), o) == (if o in w.scheduled then 1 else 0)
            && w.accepted[o] == w.run[o] + w.cancelled[o] + (if o in w.scheduled then 1 else 0)
  {
    PlayExact(START, s);
    var w := Play(START, s);
    assert Everywhere(w) == multiset(w.idle) + multiset(w.timers);
    assert ExactAt(w, Everywhere(w), o);
  }

  /** Somebody's callback and the frame callback of DRM output 0, queued. */
  const QUEUED := START.(scheduled := {Drm(0)}, idle := [Other, Frame(Drm(0))], accepted := multiset{Drm(0)})

  lemma QueuedFirst()
    ensures Do(START, AddIdle) == START.(idle := [Other]) && Exact(Do(START, AddIdle))
  {
    assert Everywhere(START) == multiset{};
    DoExact(START, AddIdle);
    assert [] + [Other] == [Other];
    hide Exact;
  }

  lemma QueuedNext()
    ensures Do(START.(idle := [Other]), DrmSchedule(0, false, false, true)) == QUEUED
  {
    assert [Other] + [Frame(Drm(0))] == [Other, Frame(Drm(0))];
    assert multiset{} + multiset{Drm(0)} == multiset{Drm(0)} && {} + {Drm(0)} == {Drm(0)};
  }

  lemma QueueingLeadsThere(rest: Script)
    ensures Play(START, Then(AddIdle, Then(DrmSchedule(0, false, false, true), rest))) == Play(QUEUED, rest)
            && Exact(QUEUED)
  {
    hide Do, Exact;
    QueuedFirst();
    QueuedNext();
    DoExact(START.(idle := [Other]), DrmSchedule(0, false, false, true));
  }

  /** Inside the first of the two callbacks, the second has been taken out and has not run. */
  lemma InsideTheFirst() returns (w: World)
    ensures w == Fired(TakeIdle(QUEUED), Other)
    ensures Exact(w) && Live(w, Drm(0)) && w.taken == multiset{Frame(Drm(0))} && w.idle == [] && w.timers == []
  {
    QueueingLeadsThere(Done);
    w := Fired(TakeIdle(QUEUED), Other);
    TakeIdleExact(QUEUED);
    FireExact(TakeIdle(QUEUED), Other);
    assert multiset(QUEUED.idle) == multiset{Other, Frame(Drm(0))};
    hide Exact;
  }

  /** When the first callback destroys the output, its flag goes down and the frame callback stays. */
  lemma DestroyedInItsBatch() returns (w: World)
    ensures w == Destroyed(Fired(TakeIdle(QUEUED), Other), Drm(0))
    ensures Drm(0) !in w.scheduled && Tokens(Everywhere(w), Drm(0)) == 1 && w.lost == {Drm(0)}
  {
    var v := InsideTheFirst();
    w := Destroyed(v, Drm(0));
    assert Everywhere(w) == multiset{Frame(Drm(0))};
    hide TakeIdle, Fired;
  }

  // ----- the code

  class Backend {
    var scheduled: set<Output>
    var idle: seq<Callback>
    var timers: seq<Callback>
    var gone: set<Output>
    ghost var lost: set<Output>
    ghost var taken: multiset<Callback>
    ghost var accepted: multiset<Output>
    ghost var run: multiset<Output>
    ghost var cancelled: multiset<Output>

    ghost function Value(): World
      reads this
    {
      World(scheduled, idle, timers, gone, lost, taken, accepted, run, cancelled)
    }

    constructor ()
      ensures Value() == START
    {
      scheduled, idle, timers, gone := {}, [], [], {};
      lost, taken, accepted, run, cancelled := {}, multiset{}, multiset{}, multiset{}, multiset{};
    }

    method ScheduleHeadless(n: nat, due: bool)
      modifies this
      ensures Value() == Do(old(Value()), HeadlessSchedule(n, due))
    {
      if Headless(n) in scheduled {
        return;
      }
      scheduled := scheduled + {Headless(n)};
      accepted := accepted + multiset{Headless(n)};
      if due {
        idle := idle + [Frame(Headless(n))];
        return;
      }
      timers := timers + [Timed(Headless(n))];
    }

    method ScheduleDrm(n: nat, flipPending: bool, frameRunning: bool, enabled: bool)
      modifies this
      ensures Value() == Do(old(Value()), DrmSchedule(n, flipPending, frameRunning, enabled))
    {
      if flipPending || frameRunning || Drm(n) in scheduled || !enabled {
        return;
      }
      scheduled := scheduled + {Drm(n)};
      accepted := accepted + multiset{Drm(n)};
      idle := idle + [Frame(Drm(n))];
    }

    method RemoveIdleEvent(c: Callback)
      modifies this`idle
      ensures idle == Erased(old(idle), c, |old(idle)|)
    {
      var rest: seq<Callback> := [];
      for i := 0 to |idle|
        invariant rest == Erased(idle, c, i) && idle == old(idle)
      {
        if idle[i] != c {
          rest := rest + [idle[i]];
        }
      }
      idle := rest;
    }

    method DestroyDrmOutput(n: nat)
      modifies this
      ensures Value() == Destroyed(old(Value()), Drm(n))
    {
      hide Erased, CancelledBy, LostBy;
      var o := Drm(n);
      ghost var w := Value();
      cancelled, lost := CancelledBy(w, o), LostBy(w, o);
      RemoveIdleEvent(Frame(o));
      scheduled := scheduled - {o};
    }

    method RunCallback(c: Callback)
      modifies this
      ensures Value() == Fired(old(Value()), c)
    {
      ghost var w := Fired(Value(), c);
      taken, run := w.taken, w.run;
      if c.Frame? || (c.Timed? && c.o !in gone) {
        scheduled := scheduled - {c.o};
      }
    }

    method RunBatch(batch: seq<Callback>, calls: Calls)
      modifies this
      ensures Value() == Drain(old(Value()), batch, calls)
      decreases calls, 1
    {
      var rest := calls;
      ghost var goal := Drain(Value(), batch, calls);
      for i := 0 to |batch|
        invariant rest == calls || rest < calls
        invariant Drain(Value(), batch[i..], rest) == goal
      {
        ghost var before := Value();
        assert batch[i..][0] == batch[i] && batch[i..][1..] == batch[i + 1..];
        RunCallback(batch[i]);
        if rest.Call? {
          Perform(rest.body);
          rest := rest.more;
        }
      }
      assert batch[|batch|..] == [];
    }

    method RunIdle(calls: Calls)
      modifies this
      ensures Value() == Drain(TakeIdle(old(Value())), old(idle), calls)
      decreases calls, 2
    {
      hide Drain;
      var cpy := idle;
      idle := [];
      taken := taken + multiset(cpy);
      RunBatch(cpy, calls);
    }

    method RunTimers(readError: bool, expired: nat -> bool, calls: Calls)
      modifies this
      ensures Value() == if readError then old(Value())
              else Drain(TakeTimers(old(Value()), expired), Due(old(Value()), expired), calls)
      decreases calls, 2
    {
      hide Drain, Partition.Kept, Partition.Moved;
      if readError {
        return;
      }
      var staying, toFire := Partition.StablePartition(timers, expired);
      timers := staying;
      taken := taken + multiset(toFire);
      RunBatch(toFire, calls);
    }

    method PerformAct(a: Act)
      modifies this
      ensures Value() == Do(old(Value()), a)
      decreases a
    {
      hide Destroyed, Drain, TakeIdle, TakeTimers, Due;
      match a {
        case HeadlessSchedule(n, due) => ScheduleHeadless(n, due);
        case DrmSchedule(n, flipPending, frameRunning, enabled) => ScheduleDrm(n, flipPending, frameRunning, enabled);
        case AddIdle => idle := idle + [Other];
        case DestroyHeadless(n) => gone := gone + {Headless(n)};
        case DestroyDrm(n) => DestroyDrmOutput(n);
        case DispatchIdle(calls) => RunIdle(calls);
        case DispatchTimers(readError, expired, calls) => RunTimers(readError, expired, calls);
      }
    }

    /** What somebody else's code does with the backend. */
    method Perform(s: Script)
      modifies this
      ensures Value() == Play(old(Value()), s)
      decreases s
    {
      hide Do;
      var rest := s;
      while rest.Then?
        invariant rest == s || rest < s
        invariant Play(Value(), rest) == Play(old(Value()), s)
        decreases rest
      {
        PerformAct(rest.act);
        rest := rest.rest;
      }
    }
  }
}
