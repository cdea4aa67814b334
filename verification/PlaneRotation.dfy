/**
 Framebuffers on the primary plane of a CRTC (src/backend/drm/DRM.cpp).

 A framebuffer is identified with the buffer it was imported from. `locked` is the set of buffers whose
 lockedByBackend flag is up, `released` counts the backendRelease events of each buffer.
 */
module PlaneRotation {
  import opened Options

  datatype Screen = Screen(front: Option<nat>, back: Option<nat>, last: Option<nat>, locked: set<nat>,
      released: multiset<nat>)

  const BLANK := Screen(None, None, None, {}, multiset{})

  /** applyCommit: the new framebuffer waits behind the one on screen. */
  function Submit(s: Screen, fb: Option<nat>): Screen {
    s.(back := fb, locked := s.locked + Elements(fb))
  }

  /** onPresent: the waiting framebuffer is on screen now, the one it replaced goes back to its owner. */
  function Present(s: Screen): Screen {
    s.(last := s.front, front := s.back, locked := s.locked - Elements(s.front),
        released := s.released + multiset(Elements(s.front)))
  }

  function Named(s: Screen): set<nat> { Elements(s.front) + Elements(s.back) + Elements(s.last) }

  /** releaseFBReferences: every locked buffer the plane names is given back, once. */
  function ReleaseAll(s: Screen): Screen {
    Screen(None, None, None, s.locked - Named(s), s.released + multiset(s.locked * Named(s)))
  }

  function Held(s: Screen): set<nat> { Elements(s.front) + Elements(s.back) }

  // ----- runs

  datatype Event =
    | Submitted(fb: Option<nat>, event: bool)  // an accepted commit, output enabled; did it ask for a flip event
    | Torn(fb: Option<nat>)                    // the same with an event asked for, and presented at once
    | Flip                                     // a flip event
    | Disable                                  // an accepted commit with the output disabled
    | Disconnect

  /** An accepted vsync commit of a buffer. */
  function Commit(b: nat): Event { Submitted(Some(b), true) }

  /** `accepted` counts each buffer when it enters front or back. */
  datatype Phase = Phase(screen: Screen, pending: bool, accepted: multiset<nat>)

  const START := Phase(BLANK, false, multiset{})

  function Accept(p: Phase, fb: Option<nat>, event: bool): Phase {
    Phase(Submit(p.screen, fb), p.pending || (event && fb.Some?), p.accepted + multiset(Elements(fb) - Held(p.screen)))
  }

  function Step(p: Phase, e: Event): Phase {
    match e
    case Submitted(fb, event) => Accept(p, fb, event)
    case Torn(fb) => var q := Accept(p, fb, true); q.(screen := Present(q.screen))
    case Flip => p.(screen := Present(p.screen), pending := false)
    case Disable => p.(screen := ReleaseAll(Submit(p.screen, None)))
    case Disconnect => p.(screen := ReleaseAll(p.screen), pending := false)
  }

  function Run(p: Phase, events: seq<Event>): Phase
    decreases |events|
  {
    if events == [] then p else Run(Step(p, events[0]), events[1..])
  }

  /** Locked is what is on screen or waiting, and every buffer that entered was released or is one of these. */
  predicate Balanced(p: Phase) {
    && p.screen.locked == Held(p.screen)
    && p.screen.released + multiset(Held(p.screen)) == p.accepted
  }

  /** The balance holds, and the pending flip will not release what it shows. */
  predicate Sound(p: Phase) {
    Balanced(p) && (p.pending ==> Elements(p.screen.front) !! Elements(p.screen.back))
  }

  /**
   No waiting buffer is overwritten, unless by itself or while it is on screen too; a flip, also one that is still
   to come, brings up another buffer than the one it replaces; a disable still names the waiting buffer. The event
   of a torn commit finds the buffer it brought on screen already.
   */
  predicate Safe(p: Phase, e: Event) {
    var s := p.screen;
    match e
    case Submitted(fb, event) =>
      && Elements(s.back) <= Elements(s.front) + Elements(fb)
      && (p.pending || event ==> Elements(s.front) !! Elements(fb))
    case Torn(fb) => fb.None? && Elements(s.back) <= Elements(s.front)
    case Flip => Elements(s.front) !! Elements(s.back)
    case Disable => Elements(s.back) <= Elements(s.front) + Elements(s.last)
    case Disconnect => true
  }

  /** Buffers `x` come in behind `f`; `b` waited there. */
  lemma EnteringBehind(f: set<nat>, b: set<nat>, x: set<nat>)
    ensures (f + b) + x == f + x <==> b <= f + x
    ensures b <= f + x ==> multiset(f + b) + multiset(x - (f + b)) == multiset(f + x)
  {
    if b <= f + x {
      assert f + x == (f + b) + (x - (f + b));
    } else {
      var i :| i in b && i !in f + x;
      assert i in (f + b) + x;
    }
  }

  lemma SubmitExact(p: Phase, fb: Option<nat>, event: bool)
    requires Sound(p)
    ensures Sound(Step(p, Submitted(fb, event))) <==> Safe(p, Submitted(fb, event))
  {
    var s := p.screen;
    var f, b, x := Elements(s.front), Elements(s.back), Elements(fb);
    assert fb.None? ==> x == {};
    EnteringBehind(f, b, x);
    hide Elements;
    assert p.accepted + multiset(x - (f + b)) == s.released + (multiset(f + b) + multiset(x - (f + b)));
  }

  /** Buffers `f` go, `b` stay. */
  lemma Leaving(f: set<nat>, b: set<nat>)
    ensures (f + b) - f == b <==> f !! b
    ensures multiset(f) + multiset(b) == multiset(f + b) <==> f !! b
  {
    if i :| i in f && i in b {
      assert i in b && i !in (f + b) - f;
      assert (multiset(f) + multiset(b))[i] == 2 && multiset(f + b)[i] == 1;
    }
  }

  lemma FlipExact(p: Phase)
    requires Balanced(p)
    ensures Sound(Step(p, Flip)) <==> Safe(p, Flip)
  {
    var s := p.screen;
    var f, b := Elements(s.front), Elements(s.back);
    Leaving(f, b);
    assert Held(Present(s)) == b;
    hide Elements;
    assert p.accepted == s.released + multiset(f + b);
    if f !! b {
      assert (s.released + multiset(f)) + multiset(b) == s.released + (multiset(f) + multiset(b));
    }
  }

  lemma TornExact(p: Phase, fb: Option<nat>)
    requires Sound(p)
    ensures Sound(Step(p, Torn(fb))) <==> Safe(p, Torn(fb))
  {
    var s := p.screen;
    var f, b, x := Elements(s.front), Elements(s.back), Elements(fb);
    EnteringBehind(f, b, x);
    if fb.None? && b <= f {
      assert f + b == f;
      assert multiset(f + b) == multiset(f);
    } else if fb.None? {
      var i :| i in b && i !in f;
      assert i in Step(p, Torn(fb)).screen.locked;
    }
  }

  /** Of the buffers in `f` and `b`, those in `f` and `l` are given back. */
  lemma Clearing(f: set<nat>, b: set<nat>, l: set<nat>)
    ensures (f + b) - (f + l) == {} <==> b <= f + l
    ensures b <= f + l ==> (f + b) * (f + l) == f + b
  {
    if !(b <= f + l) {
      var i :| i in b && i !in f + l;
      assert i in (f + b) - (f + l);
    }
  }

  lemma ClearedScreen(s: Screen)
    ensures Named(Submit(s, None)) == Elements(s.front) + Elements(s.last)
    ensures var s' := ReleaseAll(Submit(s, None));
            && Held(s') == {} && Elements(s'.front) == {}
            && s'.locked == s.locked - (Elements(s.front) + Elements(s.last))
            && s'.released == s.released + multiset(s.locked * (Elements(s.front) + Elements(s.last)))
  {
  }

  lemma DisableExact(p: Phase)
    requires Sound(p)
    ensures Sound(Step(p, Disable)) <==> Safe(p, Disable)
  {
    var s := p.screen;
    ClearedScreen(s);
    Clearing(Elements(s.front), Elements(s.back), Elements(s.last));
    hide Elements, ReleaseAll, Named, Submit;
  }

  /** The exact condition of every step: from a sound plane, it stays sound if and only if the step is safe. */
  lemma StepExact(p: Phase, e: Event)
    requires Sound(p)
    ensures Sound(Step(p, e)) <==> Safe(p, e)
  {
    match e {
      case Submitted(fb, event) => SubmitExact(p, fb, event);
      case Torn(fb) => TornExact(p, fb);
      case Flip => FlipExact(p);
      case Disable => DisableExact(p);
      case Disconnect => assert p.screen.locked * Named(p.screen) == Held(p.screen);
    }
  }

  predicate SafeRun(p: Phase, events: seq<Event>)
    decreases |events|
  {
    events == [] || (Safe(p, events[0]) && SafeRun(Step(p, events[0]), events[1..]))
  }

  predicate AlwaysSound(p: Phase, events: seq<Event>)
    decreases |events|
  {
    Sound(p) && (events == [] || AlwaysSound(Step(p, events[0]), events[1..]))
  }

  /** Over every run, the plane is sound all along if and only if every step is safe. */
  lemma {:induction false} RunExact(p: Phase, events: seq<Event>)
    requires Sound(p)
    ensures AlwaysSound(p, events) <==> SafeRun(p, events)
    decreases |events|
  {
    hide Sound, Safe, Step;
    if events == [] {
    } else {
      StepExact(p, events[0]);
      if Safe(p, events[0]) {
        RunExact(Step(p, events[0]), events[1..]);
      } else {
        assert !AlwaysSound(Step(p, events[0]), events[1..]);
      }
    }
  }

  // ----- runs of vsync commits

  /** commitState refuses a buffer while a flip is pending; the rest is asked of the client. */
  predicate Allowed(p: Phase, e: Event) {
    match e
    case Submitted(fb, event) => event && fb.Some? && !p.pending && p.screen.front != fb
    case Torn(fb) => false
    case Flip => p.pending
    case Disable => !p.pending
    case Disconnect => true
  }

  predicate AllowedRun(p: Phase, events: seq<Event>)
    decreases |events|
  {
    events == [] || (Allowed(p, events[0]) && AllowedRun(Step(p, events[0]), events[1..]))
  }

  /** A pending flip has a second buffer waiting; without one, nothing waits. */
  predicate Good(p: Phase) {
    && Balanced(p)
    && (if p.pending then p.screen.back.Some? && p.screen.back != p.screen.front else p.screen.back == p.screen.front)
  }

  lemma GoodIsSound(p: Phase)
    requires Good(p)
    ensures Sound(p)
  {
  }

  lemma StepKeepsGood(p: Phase, e: Event)
    requires Good(p) && Allowed(p, e)
    ensures Good(Step(p, e)) && Safe(p, e)
  {
    GoodIsSound(p);
    StepExact(p, e);
  }

  /** Every run: the locked buffers are those of front and back, and no release is lost or doubled. */
  lemma {:induction false} RunKeepsGood(p: Phase, events: seq<Event>)
    requires Good(p) && AllowedRun(p, events)
    ensures Good(Run(p, events))
    decreases |events|
  {
    if events == [] {
    } else {
      StepKeepsGood(p, events[0]);
      RunKeepsGood(Step(p, events[0]), events[1..]);
    }
  }

  /** The buffer a step brings in. */
  function Entering(e: Event): set<nat> { if e.Submitted? || e.Torn? then Elements(e.fb) else {} }

  /** The buffers a step gives back. */
  function ReleasedBy(p: Phase, e: Event): set<nat> {
    match e
    case Submitted(fb, event) => {}
    case Torn(fb) => Elements(p.screen.front)
    case Flip => Elements(p.screen.front)
    case Disable => p.screen.locked * Named(Submit(p.screen, None))
    case Disconnect => p.screen.locked * Named(p.screen)
  }

  lemma ReleasedBySubmit(s: Screen, fb: Option<nat>)
    requires Elements(s.back) <= Elements(s.front) + Elements(fb)
    ensures (Held(s) + Elements(fb)) - Held(Submit(s, fb)) == {}
  {
  }

  lemma ReleasedByFlip(s: Screen)
    requires Elements(s.front) !! Elements(s.back)
    ensures (Held(s) + {}) - Held(Present(s)) == Elements(s.front)
  {
  }

  lemma ReleasedByLeaving(p: Phase, e: Event)
    requires Sound(p) && Safe(p, e)
    ensures ReleasedBy(p, e) == (Held(p.screen) + Entering(e)) - Held(Step(p, e).screen)
  {
    var s := p.screen;
    match e {
      case Submitted(fb, event) => ReleasedBySubmit(s, fb);
      case Torn(fb) =>
      case Flip => ReleasedByFlip(s);
      case Disable => ReleasedByClearing(s, Elements(s.front) + Elements(s.last));
      case Disconnect => ReleasedByClearing(s, Named(s));
    }
    hide Held;
  }

  lemma ReleasedByClearing(s: Screen, named: set<nat>)
    requires s.locked == Held(s) && Held(s) <= named
    ensures (Held(s) + {}) - Held(ReleaseAll(s)) == s.locked * named == Held(s)
    ensures Held(ReleaseAll(Submit(s, None))) == {} && Named(Submit(s, None)) == Elements(s.front) + Elements(s.last)
  {
  }

  /** The buffers released by a safe step are exactly those that leave both front and back. */
  lemma ReleasedWhenItLeaves(p: Phase, e: Event)
    requires Sound(p) && Safe(p, e)
    ensures var s, s' := p.screen, Step(p, e).screen;
            && s.released <= s'.released
            && s'.released == s.released + multiset((Held(s) + Entering(e)) - Held(s'))
  {
    ReleasedByLeaving(p, e);
    assert Step(p, e).screen.released == p.screen.released + multiset(ReleasedBy(p, e)) by {
      hide Sound, Safe, Held, Elements;
    }
    hide Step, ReleasedBy, Held, Sound, Safe;
  }

  /** Committing the buffer on screen again breaks the rotation at its flip, and no other buffer does. */
  lemma RecommitBreaks(p: Phase, b: nat)
    requires Good(p) && !p.pending
    ensures Good(Step(Step(p, Commit(b)), Flip)) <==> p.screen.front != Some(b)
  {
    if p.screen.front != Some(b) {
      StepKeepsGood(p, Commit(b));
      StepKeepsGood(Step(p, Commit(b)), Flip);
    } else {
      assert b in Held(Step(Step(p, Commit(b)), Flip).screen);
    }
  }

  /** Two commits of one buffer are enough. */
  lemma RecommittedBuffer()
    ensures var p := Run(START, [Commit(1), Flip, Commit(1), Flip]);
            Good(Run(START, [Commit(1), Flip])) && !Balanced(p) && p.screen.front == Some(1) && 1 !in p.screen.locked
  {
    var p1 := Step(START, Commit(1));
    var p2 := Step(p1, Flip);
    var e := [Commit(1), Flip, Commit(1), Flip];
    assert e[1..][1..][1..] == [Flip] && [Commit(1), Flip][1..] == [Flip];
    StepKeepsGood(START, Commit(1));
    StepKeepsGood(p1, Flip);
    var p4 := Step(Step(p2, Commit(1)), Flip);
    assert Run(START, [Commit(1), Flip]) == p2 && Run(START, e) == p4;
    assert p4.screen.front == Some(1) && p4.screen.locked == {};
    assert 1 in Held(p4.screen);
  }

  /** Disabling with a flip pending strands the waiting buffer, locked for ever, unless it is also `last`. */
  lemma DisableWhilePending(p: Phase)
    requires Good(p) && p.pending
    ensures Balanced(Step(p, Disable)) <==> p.screen.back == p.screen.last
    ensures !Balanced(Step(p, Disable)) ==> p.screen.back.value in Step(p, Disable).screen.locked
  {
    GoodIsSound(p);
    DisableExact(p);
    var s := p.screen;
    assert Step(p, Disable).screen.locked == Held(s) - (Elements(s.front) + Elements(s.last));
  }

  /** Three buffers are enough to strand one. */
  lemma StrandedBuffer()
    ensures var p := Run(START, [Commit(1), Flip, Commit(2), Flip, Commit(3)]);
            Good(p) && !Balanced(Step(p, Disable)) && 3 in Step(p, Disable).screen.locked
  {
    var p1 := Step(START, Commit(1));
    var p2 := Step(p1, Flip);
    var p3 := Step(p2, Commit(2));
    var p4 := Step(p3, Flip);
    var p5 := Step(p4, Commit(3));
    var e := [Commit(1), Flip, Commit(2), Flip, Commit(3)];
    assert e[1..][1..][1..][1..] == [Commit(3)];
    assert Run(START, e) == p5;
    StepKeepsGood(START, Commit(1));
    StepKeepsGood(p1, Flip);
    StepKeepsGood(p2, Commit(2));
    StepKeepsGood(p3, Flip);
    StepKeepsGood(p4, Commit(3));
    DisableWhilePending(p5);
  }

  /**
   A buffer resubmitted without a flip event waits for nothing. Committing a next buffer keeps the balance if and
   only if the resubmitted one was on screen, or is the next one itself, and the next one was not on screen;
   disabling keeps it if and only if the resubmitted one was on screen or is `last`.
   */
  lemma ResubmitExact(p: Phase, b: nat, c: nat)
    requires Good(p) && !p.pending
    ensures var q := Step(p, Submitted(Some(b), false));
            && Sound(q)
            && (Sound(Step(Step(q, Commit(c)), Flip)) <==>
                (p.screen.front == Some(b) || b == c) && p.screen.front != Some(c))
            && (Sound(Step(q, Disable)) <==> p.screen.front == Some(b) || p.screen.last == Some(b))
  {
    var s := p.screen;
    var q := Step(p, Submitted(Some(b), false));
    GoodIsSound(p);
    SubmitExact(p, Some(b), false);
    SubmitExact(q, Some(c), true);
    DisableExact(q);
    var r := Step(q, Commit(c));
    assert Safe(q, Commit(c)) <==> (s.front == Some(b) || b == c) && s.front != Some(c);
    if Safe(q, Commit(c)) {
      FlipExact(r);
    } else if s.front == Some(c) {
      assert c in Held(Step(r, Flip).screen) && c !in Step(r, Flip).screen.locked;
    } else {
      assert b in Step(r, Flip).screen.locked && b !in Held(Step(r, Flip).screen);
    }
  }

  lemma InThreePasses(l: set<nat>, a: set<nat>, b: set<nat>, c: set<nat>)
    ensures {} + l * a + l * b + l * c == l * (a + b + c)
    ensures l - (l * (a + b + c)) == l - (a + b + c)
  {
  }

  // ----- the history of the plane

  predicate Presents(e: Event) { e.Flip? || e.Torn? }

  predicate Clears(e: Event) { e.Disable? || e.Disconnect? }

  /** From event `i` on, nothing was presented and the plane was not cleared. */
  predicate Quiet(events: seq<Event>, i: nat) {
    forall k | i <= k < |events| :: !Presents(events[k]) && !Clears(events[k])
  }

  /** Event `i` is the most recent present, on a plane that was not cleared since. */
  predicate LastPresent(events: seq<Event>, i: nat) { i < |events| && Presents(events[i]) && Quiet(events, i + 1) }

  /** The buffer on screen before event `i`, and the one that waits then. */
  function OnScreen(events: seq<Event>, i: nat): Option<nat>
    requires i <= |events|
  {
    Run(START, events[..i]).screen.front
  }

  function Waiting(events: seq<Event>, i: nat): Option<nat>
    requires i <= |events|
  {
    Run(START, events[..i]).screen.back
  }

  lemma {:induction false} RunLast(p: Phase, events: seq<Event>, e: Event)
    ensures Run(p, events + [e]) == Step(Run(p, events), e)
    decreases |events|
  {
    hide Step;
    if events == [] {
      assert (events + [e])[1..] == [];
    } else {
      RunLast(Step(p, events[0]), events[1..], e);
      assert (events + [e])[1..] == events[1..] + [e];
    }
  }

  lemma RunUpTo(events: seq<Event>, i: nat)
    requires i < |events|
    ensures Run(START, events[..i + 1]) == Step(Run(START, events[..i]), events[i])
  {
    RunLast(START, events[..i], events[i]);
    assert events[..i] + [events[i]] == events[..i + 1];
  }

  /** While nothing is presented or cleared, what is on screen and what was before stay. */
  lemma {:induction false} QuietKeeps(events: seq<Event>, i: nat, n: nat)
    requires i <= n <= |events| && Quiet(events, i)
    ensures var s, s' := Run(START, events[..i]).screen, Run(START, events[..n]).screen;
            s'.front == s.front && s'.last == s.last
    decreases n
  {
    if i == n {
    } else {
      QuietKeeps(events, i, n - 1);
      RunUpTo(events, n - 1);
      hide Run;
    }
  }

  /**
   After the most recent present, `front` is the buffer that waited then, or the torn one, and `last` the buffer
   that was on screen before.
   */
  lemma LastIsPrevious(events: seq<Event>, i: nat)
    requires LastPresent(events, i)
    ensures var s := Run(START, events).screen;
            && s.last == OnScreen(events, i)
            && s.front == if events[i].Torn? then events[i].fb else Waiting(events, i)
  {
    RunUpTo(events, i);
    QuietKeeps(events, i + 1, |events|);
    assert events[..|events|] == events;
    hide Run;
  }

  /** If nothing was presented since the plane was cleared, or at all, both are empty. */
  lemma NothingPresented(events: seq<Event>, i: nat)
    requires i <= |events| && Quiet(events, i) && (i == 0 || Clears(events[i - 1]))
    ensures var s := Run(START, events).screen; s.last == None && s.front == None
  {
    QuietKeeps(events, i, |events|);
    assert events[..|events|] == events;
    if i == 0 {
      assert events[..0] == [];
    } else {
      RunUpTo(events, i - 1);
      hide Run;
    }
  }

  /** One of the two is always the case. */
  lemma {:induction false} PresentOrNot(events: seq<Event>, n: nat) returns (i: nat)
    requires n <= |events| && Quiet(events, n)
    ensures i <= n && Quiet(events, i) && (i == 0 || Clears(events[i - 1]) || Presents(events[i - 1]))
    decreases n
  {
    if n == 0 || Clears(events[n - 1]) || Presents(events[n - 1]) {
      i := n;
    } else {
      i := PresentOrNot(events, n - 1);
    }
  }

  /** The buffer `b` was on screen just before the current one. */
  ghost predicate WasShown(events: seq<Event>, b: Option<nat>) {
    exists i: nat :: LastPresent(events, i) && OnScreen(events, i) == b
  }

  lemma LastWasShown(events: seq<Event>, b: Option<nat>)
    requires b.Some?
    ensures Run(START, events).screen.last == b <==> WasShown(events, b)
  {
    hide Quiet, OnScreen, Run;
    QuietAtEnd(events);
    var i := PresentOrNot(events, |events|);
    if 0 < i && Presents(events[i - 1]) {
      LastIsPrevious(events, i - 1);
    } else {
      NothingPresented(events, i);
    }
    if WasShown(events, b) {
      var k: nat :| LastPresent(events, k) && OnScreen(events, k) == b;
      LastIsPrevious(events, k);
    }
  }

  lemma QuietAtEnd(events: seq<Event>)
    ensures Quiet(events, |events|)
  {
  }

  /**
   On the history of an allowed run: a disable that comes with a flip pending loses no buffer if and only if the
   waiting buffer was on screen just before the current one.
   */
  lemma DisableOnHistory(events: seq<Event>)
    requires AllowedRun(START, events) && Run(START, events).pending
    ensures var p := Run(START, events);
            Balanced(Step(p, Disable)) <==> WasShown(events, p.screen.back)
  {
    assert Good(START);
    hide WasShown, Step, AllowedRun;
    RunKeepsGood(START, events);
    DisableWhilePending(Run(START, events));
    LastWasShown(events, Run(START, events).screen.back);
  }

  // ----- two buffers in turn

  /** Every commit is of one of two buffers. */
  predicate OfTwo(events: seq<Event>, a: nat, b: nat) {
    forall e <- events :: e.Submitted? || e.Torn? ==> e.fb == Some(a) || e.fb == Some(b)
  }

  predicate TwoAtMost(p: Phase, a: nat, b: nat) {
    && Elements(p.screen.front) + Elements(p.screen.back) + Elements(p.screen.last) <= {a, b}
    && (p.screen.last.Some? ==> p.screen.front.Some? && p.screen.front != p.screen.last)
  }

  lemma {:induction false} RunOfTwo(p: Phase, events: seq<Event>, a: nat, b: nat)
    requires Good(p) && AllowedRun(p, events) && TwoAtMost(p, a, b) && OfTwo(events, a, b)
    ensures TwoAtMost(Run(p, events), a, b)
    decreases |events|
  {
    if events == [] {
    } else {
      StepKeepsGood(p, events[0]);
      assert events[0] in events;
      assert TwoAtMost(Step(p, events[0]), a, b);
      RunOfTwo(Step(p, events[0]), events[1..], a, b);
    }
  }

  /**
   A client with two buffers: going dark with a flip pending loses nothing, once both were on screen since the plane
   was cleared. Before that it strands the waiting one.
   */
  lemma DoubleBuffered(events: seq<Event>, a: nat, b: nat)
    requires AllowedRun(START, events) && Run(START, events).pending && OfTwo(events, a, b)
    ensures var p := Run(START, events);
            && (Balanced(Step(p, Disable)) <==> exists i: nat :: LastPresent(events, i) && OnScreen(events, i).Some?)
            && (Balanced(Step(p, Disable)) ==> Step(p, Disable).screen.locked == {})
  {
    var p := Run(START, events);
    assert Good(START);
    RunOfTwo(START, events, a, b);
    RunKeepsGood(START, events);
    DisableWhilePending(p);
    OtherOfTwo(p, a, b);
    if p.screen.last.Some? {
      LastWasShown(events, p.screen.last);
    }
    if i: nat :| LastPresent(events, i) && OnScreen(events, i).Some? {
      LastIsPrevious(events, i);
    }
    DarkIsEmpty(p);
  }

  lemma OtherOfTwo(p: Phase, a: nat, b: nat)
    requires Good(p) && p.pending && TwoAtMost(p, a, b)
    ensures p.screen.back == p.screen.last <==> p.screen.last.Some?
  {
  }

  lemma DarkIsEmpty(p: Phase)
    ensures Balanced(Step(p, Disable)) ==> Step(p, Disable).screen.locked == {}
  {
  }

  lemma TurnOf(s: Screen, b: nat, accepted: multiset<nat>)
    requires s.back == s.front && s.front != Some(b) && b !in s.locked
    ensures Step(Phase(s, false, accepted), Commit(b))
            == Phase(Screen(s.front, Some(b), s.last, s.locked + {b}, s.released), true, accepted + multiset{b})
  {
  }

  lemma TurnShown(f: nat, b: nat, last: Option<nat>, released: multiset<nat>, accepted: multiset<nat>)
    requires f != b
    ensures Step(Phase(Screen(Some(f), Some(b), last, {f} + {b}, released), true, accepted), Flip)
            == Phase(Screen(Some(b), Some(b), Some(f), {b}, released + multiset{f}), false, accepted)
  {
    assert ({f} + {b}) - {f} == {b};
  }

  lemma FirstShown(b: nat, accepted: multiset<nat>)
    ensures Step(Phase(Screen(None, Some(b), None, {b}, multiset{}), true, accepted), Flip)
            == Phase(Screen(Some(b), Some(b), None, {b}, multiset{}), false, accepted)
  {
  }

  ghost predicate Reaches(events: seq<Event>, p: Phase) { AllowedRun(START, events) && Run(START, events) == p }

  lemma {:induction false} AllowedLast(p: Phase, events: seq<Event>, e: Event)
    requires AllowedRun(p, events) && Allowed(Run(p, events), e)
    ensures AllowedRun(p, events + [e])
    decreases |events|
  {
    hide Step, Allowed;
    if events == [] {
      assert (events + [e])[1..] == [];
    } else {
      AllowedLast(Step(p, events[0]), events[1..], e);
      assert (events + [e])[1..] == events[1..] + [e];
    }
  }

  lemma ReachNext(events: seq<Event>, p: Phase, e: Event)
    requires Reaches(events, p) && Allowed(p, e)
    ensures Reaches(events + [e], Step(p, e))
  {
    RunLast(START, events, e);
    AllowedLast(START, events, e);
  }

  /** The phase of a client that has shown `a` and then `b`, and committed `a` again. */
  lemma ReachTurn(a: nat, b: nat) returns (p: Phase)
    requires a != b
    ensures Reaches([Commit(a), Flip, Commit(b), Flip, Commit(a)], p) && p.pending
    ensures p.screen == Screen(Some(b), Some(a), Some(a), {b} + {a}, multiset{} + multiset{a})
  {
    hide Reaches, Step;
    assert Reaches([], START) by {
      StartReached();
    }
    TurnOf(BLANK, a, multiset{});
    assert {} + {a} == {a} && multiset{} + multiset{a} == multiset{a};
    ReachNext([], START, Commit(a));
    p := Step(START, Commit(a));
    FirstShown(a, multiset{a});
    ReachNext([] + [Commit(a)], p, Flip);
    p := Step(p, Flip);
    TurnOf(p.screen, b, p.accepted);
    ReachNext([] + [Commit(a)] + [Flip], p, Commit(b));
    p := Step(p, Commit(b));
    TurnShown(a, b, None, multiset{}, p.accepted);
    ReachNext([] + [Commit(a)] + [Flip] + [Commit(b)], p, Flip);
    p := Step(p, Flip);
    TurnOf(p.screen, a, p.accepted);
    ReachNext([] + [Commit(a)] + [Flip] + [Commit(b)] + [Flip], p, Commit(a));
    p := Step(p, Commit(a));
    assert [] + [Commit(a)] + [Flip] + [Commit(b)] + [Flip] + [Commit(a)]
        == [Commit(a), Flip, Commit(b), Flip, Commit(a)];
  }

  lemma StartReached()
    ensures Reaches([], START)
  {
  }

  /** Buffers `a` and `b` in turn, and dark with the flip back to `a` pending: nothing stays locked. */
  lemma TurnsLoseNothing(a: nat, b: nat)
    requires a != b
    ensures var events := [Commit(a), Flip, Commit(b), Flip, Commit(a)];
            var s := Run(START, events + [Disable]).screen;
            && AllowedRun(START, events) && Run(START, events).pending
            && s.locked == {} && s.released == multiset{a, b, a}
  {
    var p := ReachTurn(a, b);
    DarkAfterTurn(p, a, b);
    RunLast(START, [Commit(a), Flip, Commit(b), Flip, Commit(a)], Disable);
    hide Step, Run, AllowedRun;
  }

  lemma DarkAfterTurn(p: Phase, a: nat, b: nat)
    requires a != b && p.screen == Screen(Some(b), Some(a), Some(a), {b} + {a}, multiset{} + multiset{a})
    ensures var s := Step(p, Disable).screen; s.locked == {} && s.released == multiset{a, b, a}
  {
    var s := Submit(p.screen, None);
    assert s.locked == {a, b} && Named(s) == {a, b};
  }

  // ----- the code

  /** The primary plane of a CRTC, with the lock flags of the buffers. */
  class PrimaryPlane {
    var front: Option<nat>
    var back: Option<nat>
    var last: Option<nat>
    var locked: set<nat>
    ghost var released: multiset<nat>

    ghost function Value(): Screen
      reads this
    {
      Screen(front, back, last, locked, released)
    }

    constructor ()
      ensures Value() == BLANK
    {
      front, back, last, locked, released := None, None, None, {}, multiset{};
    }

    method SubmitFb(fb: Option<nat>)
      modifies this
      ensures Value() == Submit(old(Value()), fb)
    {
      back := fb;
      if fb.Some? {
        locked := locked + {fb.value};
      }
    }

    method OnPresent()
      modifies this
      ensures Value() == Present(old(Value()))
    {
      last := front;
      front := back;
      if last.Some? {
        locked := locked - {last.value};
        released := released + multiset{last.value};
      }
    }

    /** One reference: `done` is the set of buffers this pass has released since the state `s`. */
    method ReleaseFb(fb: Option<nat>, done: set<nat>, ghost s: Screen) returns (done': set<nat>)
      requires done <= s.locked && locked == s.locked - done && released == s.released + multiset(done)
      modifies this`locked, this`released
      ensures done' == done + s.locked * Elements(fb)
      ensures locked == s.locked - done' && released == s.released + multiset(done')
    {
      done' := done;
      if fb.Some? && fb.value in locked && fb.value !in done {
        done' := done' + {fb.value};
        locked := locked - {fb.value};
        released := released + multiset{fb.value};
      }
    }

    method ReleaseFbReferences()
      modifies this
      ensures Value() == ReleaseAll(old(Value()))
    {
      ghost var s := Value();
      var done := ReleaseFb(front, {}, s);
      front := None;
      done := ReleaseFb(back, done, s);
      back := None;
      done := ReleaseFb(last, done, s);
      last := None;
      InThreePasses(s.locked, Elements(s.front), Elements(s.back), Elements(s.last));
    }
  }
}
