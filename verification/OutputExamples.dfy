/**
 Runs of an output, from the start, on which the natural claims fail: each shows that the failing side of an exact
 condition of OutputCommit is reached. The blob ids of the kernel are chosen on the way.
 */
module OutputExamples {
  import opened Options
  import opened OutputCommit
  import A = AtomicCommit
  import R = PlaneRotation

  const CAPS := Caps({1}, false, true, true, true, true, true, true)

  /** A buffer of the state's format; the kernel makes the blob `n` and accepts. */
  function Accepts(n: nat, modeDiffers: bool): Env {
    Env(true, true, Imported(Some(1)), Yes(n).(modeDiffers := modeDiffers), NOTHING)
  }

  /** A careful step, and no tearing commit. */
  predicate Vsync(c: Conn, e: Event) { Careful(c, CAPS, e) && (e.Commit? ==> !AsksAsync(c.wishes, e.onlyTest, e.env)) }

  predicate VsyncRun(c: Conn, events: seq<Event>)
    requires PossibleRun(c, CAPS, events)
    decreases |events|
  {
    events == [] || (Vsync(c, events[0]) && VsyncRun(Step(c, CAPS, events[0]), events[1..]))
  }

  /** A possible run that ends in `c`; with `vsync`, each step of it is careful and tears nothing. */
  ghost predicate Reaches(events: seq<Event>, c: Conn, vsync: bool) {
    PossibleRun(START, CAPS, events) && (vsync ==> VsyncRun(START, events)) && Run(START, CAPS, events) == c
  }

  lemma {:induction false} RunMore(c: Conn, events: seq<Event>, e: Event)
    requires PossibleRun(c, CAPS, events) && Possible(Run(c, CAPS, events), CAPS, e)
    ensures PossibleRun(c, CAPS, events + [e]) && Run(c, CAPS, events + [e]) == Step(Run(c, CAPS, events), CAPS, e)
    ensures VsyncRun(c, events) && Vsync(Run(c, CAPS, events), e) ==> VsyncRun(c, events + [e])
    decreases |events|
  {
    hide Step, Vsync;
    if events == [] {
      assert (events + [e])[1..] == [];
    } else {
      RunMore(Step(c, CAPS, events[0]), events[1..], e);
      assert (events + [e])[1..] == events[1..] + [e];
    }
  }

  lemma ReachMore(events: seq<Event>, c: Conn, e: Event, vsync: bool)
    requires Reaches(events, c, vsync) && Possible(c, CAPS, e) && (vsync ==> Vsync(c, e))
    ensures Reaches(events + [e], Step(c, CAPS, e), vsync)
  {
    RunMore(START, events, e);
  }

  /** The state of a client that has set everything a first commit of a buffer needs. */
  function Ready(b: nat): Wishes {
    Wishes({Mode, Format, Enabled, Buffer}, true, false, false, true, 1, Some(b), true, true, true, false, true)
  }

  function Setting(b: nat): seq<Event> {
    [Client(SetMode(true)), Client(SetFormat(1)), Client(SetEnabled(true)), Client(SetBuffer(Some(b)))]
  }

  function Prepared(): seq<Event> { [Connect] + Setting(1) }

  lemma ReachEdit(events: seq<Event>, c: Conn, edit: Edit, vsync: bool) returns (c': Conn)
    requires Reaches(events, c, vsync) && c.connected
    ensures c' == c.(wishes := Edited(c.wishes, edit)) && Reaches(events + [Client(edit)], c', vsync)
    ensures PhaseOf(c') == PhaseOf(c)
  {
    ReachMore(events, c, Client(edit), vsync);
    c' := Step(c, CAPS, Client(edit));
  }

  lemma ReadyEdits(b: nat)
    ensures Edited(Edited(Edited(Edited(DEFAULT_WISHES, SetMode(true)), SetFormat(1)), SetEnabled(true)),
            SetBuffer(Some(b))) == Ready(b)
  {
  }

  /** A new output, set up for buffer `b`. */
  lemma ReachReady(events: seq<Event>, c: Conn, b: nat, vsync: bool) returns (c': Conn)
    requires Reaches(events, c, vsync) && c.connected && c.wishes == DEFAULT_WISHES
    ensures Reaches(events + Setting(b), c', vsync)
    ensures c' == c.(wishes := Ready(b)) && PhaseOf(c') == PhaseOf(c)
  {
    ReadyEdits(b);
    hide Reaches, Edited, PhaseOf;
    var mode, format, on := Client(SetMode(true)), Client(SetFormat(1)), Client(SetEnabled(true));
    c' := ReachEdit(events, c, SetMode(true), vsync);
    c' := ReachEdit(events + [mode], c', SetFormat(1), vsync);
    c' := ReachEdit(events + [mode] + [format], c', SetEnabled(true), vsync);
    c' := ReachEdit(events + [mode] + [format] + [on], c', SetBuffer(Some(b)), vsync);
    assert events + [mode] + [format] + [on] + [Client(SetBuffer(Some(b)))] == events + Setting(b);
  }

  lemma ReachPrepared(vsync: bool) returns (c: Conn)
    ensures Reaches(Prepared(), c, vsync)
    ensures c == Connected(START).(wishes := Ready(1)) && PhaseOf(c) == R.START
  {
    assert Reaches([], START, vsync);
    ReachMore([], START, Connect, vsync);
    assert [] + [Connect] == [Connect];
    c := ReachReady([Connect], Connected(START), 1, vsync);
  }

  /** What a commit that is accepted at once does to the plane. */
  function Outright(w: Wishes): R.Event {
    Submission(TargetOf(w), AsksEvent(w, false), w.immediate && w.CarriesBuffer())
  }

  /** `c'` is `c` after a commit that is accepted at once, without the ledger of its blobs. */
  ghost predicate Follows(c: Conn, c': Conn) {
    && c' == Conn(true, Committed(c.wishes), MainFb(c.wishes).None?, false, c.wishes.enabled, c'.pipe)
    && PhaseOf(c') == R.Step(PhaseOf(c), Outright(c.wishes))
    && c'.pipe.outstanding == c.pipe.outstanding + if AsksEvent(c.wishes, false) then 1 else 0
  }

  lemma Accepted(c: Conn, n: nat, modeDiffers: bool)
    requires var env := Accepts(n, modeDiffers);
             !Refuses(c, CAPS, false, env) && !A.Stops(JobOf(c, CAPS, env, Modeset(c, env)), env.first) && 0 < n
             && (c.wishes.enabled ==> c.wishes.format == 1) && (forall id <- c.pipe.live :: id < n)
    ensures var e := Commit(false, Accepts(n, modeDiffers));
            Possible(c, CAPS, e) && CommitState(c, CAPS, false, e.env).ok && Follows(c, Step(c, CAPS, e))
  {
    var env := Accepts(n, modeDiffers);
    YesIsFresh(c.pipe.live, n);
    FirstOk(c, CAPS, env);
    CommitRotates(c, CAPS, false, env);
    assert !FirstRefused(c, CAPS, env);
    hide A.Commit, A.LiveAfter, R.Step, PhaseOf, A.Fresh, A.Stops;
  }

  /** Nothing is in the way of this commit, and it is not risky. */
  ghost predicate Acceptable(c: Conn, modeDiffers: bool) {
    && c.connected && (c.wishes.enabled ==> c.wishes.format == 1)
    && forall n: nat :: var env := Accepts(n, modeDiffers);
         && !Refuses(c, CAPS, false, env) && !A.Stops(JobOf(c, CAPS, env, Modeset(c, env)), env.first)
         && !Risky(c, CAPS, false, env)
  }

  /** One accepted commit from a reached state, with a fresh id. */
  lemma ReachCommit(events: seq<Event>, c: Conn, modeDiffers: bool, vsync: bool) returns (n: nat, c': Conn)
    requires Reaches(events, c, vsync) && Acceptable(c, modeDiffers) && (vsync ==> !c.wishes.immediate)
    ensures 0 < n && c' == Step(c, CAPS, Commit(false, Accepts(n, modeDiffers))) && Follows(c, c')
    ensures Reaches(events + [Commit(false, Accepts(n, modeDiffers))], c', vsync)
  {
    n := AcceptedWith(c, modeDiffers);
    var e := Commit(false, Accepts(n, modeDiffers));
    hide *;
    ReachMore(events, c, e, vsync);
    c' := Step(c, CAPS, e);
  }

  lemma AcceptedWith(c: Conn, modeDiffers: bool) returns (n: nat)
    requires Acceptable(c, modeDiffers)
    ensures 0 < n
    ensures var e := Commit(false, Accepts(n, modeDiffers));
            && Possible(c, CAPS, e) && Follows(c, Step(c, CAPS, e)) && (!c.wishes.immediate ==> Vsync(c, e))
  {
    n := Above(c.pipe.live);
    AcceptableWith(c, modeDiffers, n);
    hide Refuses, Acceptable, Modeset, A.Stops, Step, CommitState, Follows, JobOf, Risky, Vsync;
    Accepted(c, n, modeDiffers);
  }

  lemma AcceptableWith(c: Conn, modeDiffers: bool, n: nat)
    requires Acceptable(c, modeDiffers)
    ensures var env := Accepts(n, modeDiffers);
            !Refuses(c, CAPS, false, env) && !A.Stops(JobOf(c, CAPS, env, Modeset(c, env)), env.first)
    ensures !c.wishes.immediate ==> Vsync(c, Commit(false, Accepts(n, modeDiffers)))
    ensures c.connected && (c.wishes.enabled ==> c.wishes.format == 1)
  {
    hide Refuses, Modeset, A.Stops, JobOf, Risky;
    var env := Accepts(n, modeDiffers);
    assert !Refuses(c, CAPS, false, env) && !A.Stops(JobOf(c, CAPS, env, Modeset(c, env)), env.first);
  }

  lemma LitIsAcceptable(c: Conn, b: nat, modeDiffers: bool)
    requires c.connected && !c.pipe.pending
    requires c.wishes == Ready(b) || c.wishes == LIT
    ensures Acceptable(c, modeDiffers)
  {
    assert Enabled in c.wishes.committed * RECONFIG;
  }

  lemma DarkIsAcceptable(c: Conn)
    requires c.connected && c.wishes == DARK
    ensures Acceptable(c, true)
  {
    assert Enabled in c.wishes.committed * RECONFIG;
  }

  lemma NextIsAcceptable(c: Conn)
    requires c.connected && !c.pipe.pending && (c.wishes == NEXT || c.wishes == TEARING)
    ensures Acceptable(c, true)
  {
  }

  lemma ReachFlip(events: seq<Event>, c: Conn, vsync: bool) returns (c': Conn)
    requires Reaches(events, c, vsync) && c.connected && c.pipe.outstanding > 0
    ensures c' == c.(pipe := c'.pipe) && Reaches(events + [Flip], c', vsync)
    ensures c'.pipe.outstanding == c.pipe.outstanding - 1
    ensures PhaseOf(c') == R.Step(PhaseOf(c), R.Flip)
  {
    ReachMore(events, c, Flip, vsync);
    c' := Step(c, CAPS, Flip);
  }

  /** Buffer 1 committed, its flip pending. */
  lemma ReachFirstCommit(vsync: bool) returns (n: nat, c: Conn)
    ensures 0 < n && Reaches(Prepared() + [Commit(false, Accepts(n, true))], c, vsync)
    ensures c == Conn(true, Committed(Ready(1)), false, false, true, c.pipe) && c.pipe.outstanding == 1
    ensures PhaseOf(c) == R.Step(R.START, R.Commit(1))
  {
    var c0 := ReachPrepared(vsync);
    LitIsAcceptable(c0, 1, true);
    hide Reaches, Acceptable, R.Step;
    n, c := ReachCommit(Prepared(), c0, true, vsync);
  }

  // ----- two events for one commit

  /** A commit that only repeats the buffer while its flip is pending, refused and then accepted as a modeset. */
  lemma TwoFlipsOwed() returns (events: seq<Event>, env: Env)
    ensures PossibleRun(START, CAPS, events) && OneFlip(Run(START, CAPS, events))
    ensures Risky(Run(START, CAPS, events), CAPS, false, env)
    ensures Possible(Run(START, CAPS, events), CAPS, Commit(false, env))
    ensures !OneFlip(Step(Run(START, CAPS, events), CAPS, Commit(false, env)))
  {
    var n, c := ReachFirstCommit(true);
    events := Prepared() + [Commit(false, Accepts(n, true))];
    assert c.pipe.pending by {
      assert PhaseOf(c).pending;
    }
    env := RiskyBreaks(c, CAPS, false, Accepts(1, true));
  }

  /** Unplugged and plugged in again while the first flip is pending. */
  lemma OutOfStepAfterReplug() returns (events: seq<Event>)
    ensures PossibleRun(START, CAPS, events) && OneFlip(Run(START, CAPS, events))
    ensures !OneFlip(Connected(Disconnected(Run(START, CAPS, events))))
  {
    var n, c := ReachFirstCommit(true);
    events := Prepared() + [Commit(false, Accepts(n, true))];
    assert c.pipe.pending by {
      assert PhaseOf(c).pending;
    }
    ReplugWithFlipPending(c);
  }

  // ----- a blob that is lost

  /** The very first commit loses its mode blob when the kernel has that mode already. */
  lemma ModeBlobLost() returns (events: seq<Event>)
    ensures PossibleRun(START, CAPS, events) && !LosslessRun(START, CAPS, events)
    ensures var p := Run(START, CAPS, events).pipe; p.live != A.Held(p.slots)
  {
    var c0 := ReachPrepared(true);
    LitIsAcceptable(c0, 1, false);
    var n, c := ReachCommit(Prepared(), c0, false, true);
    var e := Commit(false, Accepts(n, false));
    events := Prepared() + [e];
    assert !Lossless(c0, CAPS, e);
    LastLoses(START, Prepared(), e);
    LiveAreHeld(CAPS, events);
  }

  lemma {:induction false} LastLoses(c: Conn, events: seq<Event>, e: Event)
    requires PossibleRun(c, CAPS, events + [e]) && PossibleRun(c, CAPS, events)
             && !Lossless(Run(c, CAPS, events), CAPS, e)
    ensures !LosslessRun(c, CAPS, events + [e])
    decreases |events|
  {
    hide Lossless, Step;
    if events == [] {
    } else {
      assert (events + [e])[1..] == events[1..] + [e];
      LastLoses(Step(c, CAPS, events[0]), events[1..], e);
    }
  }

  // ----- a buffer that is never released

  /** Show buffer 1 and turn the output off. */
  function Darkening(n1: nat, n2: nat): seq<Event> {
    Prepared() + [Commit(false, Accepts(n1, true))]
    + [Flip, Client(SetEnabled(false)), Commit(false, Accepts(n2, true))]
  }

  /** Turn it on again without a buffer, and show buffer 2. */
  function Stranding(n1: nat, n2: nat, n3: nat, n4: nat): seq<Event> {
    Darkening(n1, n2) + [Client(SetEnabled(true)), Commit(false, Accepts(n3, true))]
    + [Client(SetBuffer(Some(2))), Commit(false, Accepts(n4, true)), Flip]
  }

  /** The phases of the plane on the way. */
  lemma StrandedPhase()
    ensures var e := [R.Commit(1), R.Flip, R.Disable, R.Submitted(Some(1), false), R.Commit(2), R.Flip];
            var p1 := R.Step(R.START, e[0]);
            var p2 := R.Step(p1, e[1]);
            var p3 := R.Step(p2, e[2]);
            var p4 := R.Step(p3, e[3]);
            var s := R.Step(R.Step(p4, e[4]), e[5]).screen;
            && !p2.pending && !p3.pending && !p4.pending
            && s.front == Some(2) && s.back == Some(2) && s.last == None && 1 in s.locked
  {
  }

  const DARK := Ready(1).(enabled := false, committed := {Enabled})
  const LIT := Ready(1).(committed := {Enabled})
  const NEXT := Ready(1).(committed := {Buffer}, buffer := Some(2))
  const TEARING := NEXT.(committed := {PresentationMode, Buffer}, immediate := true)

  lemma Append2(a: seq<Event>, x: Event, y: Event)
    ensures a + [x] + [y] == a + [x, y]
  {
  }

  lemma Append3(a: seq<Event>, x: Event, y: Event, z: Event)
    ensures a + [x] + [y] + [z] == a + [x, y, z]
  {
  }

  /** Up to the commit that turns the output off. */
  lemma ReachDark() returns (n1: nat, n2: nat, c: Conn)
    ensures Reaches(Darkening(n1, n2), c, true)
    ensures c == Conn(true, Committed(DARK), true, false, false, c.pipe) && c.pipe.outstanding == 0
    ensures PhaseOf(c) == R.Step(R.Step(R.Step(R.START, R.Commit(1)), R.Flip), R.Disable)
  {
    n1, c := ReachFirstCommit(true);
    hide Reaches, Acceptable, R.Step, PhaseOf;
    var events := Prepared() + [Commit(false, Accepts(n1, true))];
    c := ReachFlip(events, c, true);
    c := ReachEdit(events + [Flip], c, SetEnabled(false), true);
    assert c.wishes == DARK;
    DarkIsAcceptable(c);
    n2, c := ReachCommit(events + [Flip] + [Client(SetEnabled(false))], c, true, true);
    Append3(events, Flip, Client(SetEnabled(false)), Commit(false, Accepts(n2, true)));
  }

  /** Up to the commit that turns the output on again. */
  lemma ReachRelit() returns (n1: nat, n2: nat, n3: nat, c: Conn)
    ensures Reaches(Darkening(n1, n2) + [Client(SetEnabled(true)), Commit(false, Accepts(n3, true))], c, true)
    ensures c == Conn(true, Committed(LIT), false, false, true, c.pipe) && c.pipe.outstanding == 0
    ensures PhaseOf(c) == R.Step(R.Step(R.Step(R.Step(R.START, R.Commit(1)), R.Flip), R.Disable),
            R.Submitted(Some(1), false))
  {
    n1, n2, c := ReachDark();
    StrandedPhase();
    PendingOf(c);
    hide Reaches, Acceptable, R.Step, PhaseOf;
    var events := Darkening(n1, n2);
    c := ReachEdit(events, c, SetEnabled(true), true);
    assert c.wishes == LIT;
    LitIsAcceptable(c, 1, true);
    n3, c := ReachCommit(events + [Client(SetEnabled(true))], c, true, true);
    Append2(events, Client(SetEnabled(true)), Commit(false, Accepts(n3, true)));
  }

  lemma PendingOf(c: Conn)
    ensures PhaseOf(c).pending == c.pipe.pending && PhaseOf(c).screen == c.pipe.screen
  {
  }

  /**
   All commits are accepted, none tears, no flip is pending when the output goes dark and no buffer on screen is
   committed again: buffer 1 stays locked, and nothing on the plane names it.
   */
  lemma RepeatedBufferStrands() returns (n1: nat, n2: nat, n3: nat, n4: nat)
    ensures var run := Stranding(n1, n2, n3, n4);
            && PossibleRun(START, CAPS, run) && VsyncRun(START, run)
            && var s := Run(START, CAPS, run).pipe.screen; 1 in s.locked && 1 !in R.Named(s)
  {
    var c;
    n1, n2, n3, c := ReachRelit();
    StrandedPhase();
    PendingOf(c);
    var events := Darkening(n1, n2) + [Client(SetEnabled(true)), Commit(false, Accepts(n3, true))];
    n4, c := ReachNext(events, c);
    assert Stranding(n1, n2, n3, n4) == events + [Client(SetBuffer(Some(2))), Commit(false, Accepts(n4, true)), Flip];
    PendingOf(c);
  }

  lemma ReachNext(events: seq<Event>, c: Conn) returns (n: nat, c': Conn)
    requires Reaches(events, c, true) && c == Conn(true, Committed(LIT), false, false, true, c.pipe)
    requires c.pipe.outstanding == 0 && !c.pipe.pending
    ensures Reaches(events + [Client(SetBuffer(Some(2))), Commit(false, Accepts(n, true)), Flip], c', true)
    ensures PhaseOf(c') == R.Step(R.Step(PhaseOf(c), R.Commit(2)), R.Flip)
  {
    hide Reaches, Acceptable, R.Step, PhaseOf;
    var c1 := ReachEdit(events, c, SetBuffer(Some(2)), true);
    assert c1.wishes == NEXT;
    NextIsAcceptable(c1);
    var c2;
    n, c2 := ReachCommit(events + [Client(SetBuffer(Some(2)))], c1, true, true);
    c' := ReachFlip(events + [Client(SetBuffer(Some(2)))] + [Commit(false, Accepts(n, true))], c2, true);
    Append3(events, Client(SetBuffer(Some(2))), Commit(false, Accepts(n, true)), Flip);
  }

  /** The buffer on screen, repeated by a commit that is refused and then accepted as a modeset. */
  lemma RepeatedBufferReleased() returns (events: seq<Event>, env: Env)
    ensures PossibleRun(START, CAPS, events)
    ensures var c := Run(START, CAPS, events);
            && Rotating(c) && Remembers(c)
            && Possible(c, CAPS, Commit(false, env))
            && !Rotating(Step(c, CAPS, Commit(false, env)))
  {
    var n, c := ReachFirstCommit(true);
    events := Prepared() + [Commit(false, Accepts(n, true))];
    c := ReachFlip(events, c, true);
    events := events + [Flip];
    ShownPhase(c);
    env := RetriedWith(c);
    StepRotatesExactly(c, CAPS, Commit(false, env));
    hide Rotating, Step, Possible;
  }

  lemma ShownPhase(c: Conn)
    requires PhaseOf(c) == R.Step(R.Step(R.START, R.Commit(1)), R.Flip)
    requires c == Conn(true, Committed(Ready(1)), false, false, true, c.pipe) && c.pipe.outstanding == 0
    ensures Rotating(c) && Remembers(c) && c.pipe.screen.front == Some(1) && !c.pipe.pending
  {
    R.StepExact(R.START, R.Commit(1));
    R.StepExact(R.Step(R.START, R.Commit(1)), R.Flip);
    assert PhaseOf(c).pending == c.pipe.pending;
  }

  /** The same wishes as shown, with nothing committed. */
  predicate Showing(c: Conn) {
    && c == Conn(true, Committed(Ready(1)), false, false, true, c.pipe)
    && c.pipe.screen.front == Some(1) && !c.pipe.pending
  }

  lemma NotInTheWay(c: Conn, env: Env)
    requires Showing(c) && env == Accepts(1, true).(first := env.first, second := env.second)
    ensures !Refuses(c, CAPS, false, env) && !Modeset(c, env)
  {
  }

  lemma RetryAccepted(c: Conn) returns (env: Env)
    requires Showing(c)
    ensures env == Accepts(1, true).(first := NOTHING, second := env.second)
    ensures Possible(c, CAPS, Commit(false, env)) && CommitState(c, CAPS, false, env).ok && FirstRefused(c, CAPS, env)
  {
    var n := Above(c.pipe.live);
    env := Accepts(1, true).(first := NOTHING, second := Yes(n));
    NotInTheWay(c, env);
    assert A.Id(0) == {};
    assert !First(c, CAPS, env).ok && First(c, CAPS, env).created == {};
    YesIsFresh(c.pipe.live, n);
    YesIsFresh(A.LiveAfter(c.pipe.live, First(c, CAPS, env)), n);
    assert Second(c, CAPS, env).ok;
    hide Refuses, Modeset;
  }

  lemma RetriedWith(c: Conn) returns (env: Env)
    requires Rotating(c) && Remembers(c) && Showing(c)
    ensures Possible(c, CAPS, Commit(false, env))
    ensures !Rotates(c, CAPS, Commit(false, env))
  {
    hide CommitState, R.Safe, FirstRefused, Possible, Rotating, Remembers, PlaneEvent;
    env := RetryAccepted(c);
    NotInTheWay(c, env);
    RepeatedBuffer(c, CAPS, env);
  }

  // ----- the buffer on screen is released

  /** The plane shows a buffer that is no longer locked: its owner may draw into it. */
  predicate ReleasedOnScreen(c: Conn, b: nat) {
    c.connected && c.pipe.screen.front == Some(b) && b !in c.pipe.screen.locked && !Rotating(c)
  }

  lemma UnlockedOnScreen(c: Conn, b: nat)
    requires c.connected && PhaseOf(c).screen.front == Some(b) && b !in PhaseOf(c).screen.locked
    ensures ReleasedOnScreen(c, b)
  {
    assert b in R.Held(c.pipe.screen);
  }

  lemma ReplugPhase()
    ensures var p1 := R.Step(R.START, R.Commit(1));
            var p2 := R.Step(p1, R.Disconnect);
            var p3 := R.Step(p2, R.Commit(2));
            var p4 := R.Step(p3, R.Flip);
            var s := R.Step(p4, R.Flip).screen;
            && p1.pending && !p2.pending && p2.screen.front == p2.screen.back == None
            && R.Sound(p4) && s.front == Some(2) && 2 !in s.locked
  {
    var p1 := R.Step(R.START, R.Commit(1));
    var p2 := R.Step(p1, R.Disconnect);
    R.StepExact(R.START, R.Commit(1));
    R.StepExact(p1, R.Disconnect);
    R.StepExact(p2, R.Commit(2));
    R.StepExact(R.Step(p2, R.Commit(2)), R.Flip);
  }

  lemma ReachReplug(events: seq<Event>, c: Conn) returns (c': Conn)
    requires Reaches(events, c, false) && c.connected
    ensures Reaches(events + [Disconnect] + [Connect], c', false) && c' == Connected(Disconnected(c))
    ensures PhaseOf(c') == R.Step(PhaseOf(c), R.Disconnect)
  {
    ReachMore(events, c, Disconnect, false);
    ReachMore(events + [Disconnect], Disconnected(c), Connect, false);
    c' := Connected(Disconnected(c));
  }

  /** Unplug with the flip of buffer 1 owed, plug in again, show buffer 2, and receive one event. */
  function Replugging(n1: nat, n2: nat): seq<Event> {
    Prepared() + [Commit(false, Accepts(n1, true)), Disconnect, Connect]
    + Setting(2) + [Commit(false, Accepts(n2, true)), Flip]
  }

  /** The plane is sound, and the event that is still owed releases the buffer on screen. */
  lemma ReplugReleases() returns (n1: nat, n2: nat)
    ensures PossibleRun(START, CAPS, Replugging(n1, n2))
    ensures var c := Run(START, CAPS, Replugging(n1, n2));
            Rotating(c) && c.pipe.outstanding > 0 && ReleasedOnScreen(Flipped(c), 2)
  {
    var c;
    n1, c := ReachFirstCommit(false);
    var e1, events := Commit(false, Accepts(n1, true)), Prepared();
    c := ReachReplug(events + [e1], c);
    Append3(events, e1, Disconnect, Connect);
    events := events + [e1, Disconnect, Connect];
    ReplugPhase();
    PendingOf(c);
    hide Acceptable, R.Step, Reaches;
    c := ReachReady(events, c, 2, false);
    LitIsAcceptable(c, 2, true);
    n2, c := ReachCommit(events + Setting(2), c, true, false);
    var e2 := Commit(false, Accepts(n2, true));
    c := ReachFlip(events + Setting(2) + [e2], c, false);
    Append2(events + Setting(2), e2, Flip);
    var c' := ReachFlip(events + Setting(2) + [e2] + [Flip], c, false);
    UnlockedOnScreen(c', 2);
  }

  lemma TornPhase()
    ensures var p := R.Step(R.Step(R.Step(R.START, R.Commit(1)), R.Flip), R.Torn(Some(2)));
            var s := R.Step(p, R.Flip).screen;
            s.front == Some(2) && 2 !in s.locked
  {
  }

  /** Tear to buffer 2, and receive its event. */
  function TearingTo2(n: nat): seq<Event> {
    [Client(SetPresentationMode(true)), Client(SetBuffer(Some(2))), Commit(false, Accepts(n, true)), Flip]
  }

  lemma TearingEdits()
    ensures Edited(Edited(Committed(Ready(1)), SetPresentationMode(true)), SetBuffer(Some(2))) == TEARING
  {
  }

  lemma ReachTearing(events: seq<Event>, c: Conn) returns (c': Conn)
    requires Reaches(events, c, false) && c.connected && c.wishes == Committed(Ready(1))
    ensures Reaches(events + [Client(SetPresentationMode(true)), Client(SetBuffer(Some(2)))], c', false)
    ensures c' == c.(wishes := TEARING) && PhaseOf(c') == PhaseOf(c)
  {
    TearingEdits();
    hide Reaches, Edited, PhaseOf;
    c' := ReachEdit(events, c, SetPresentationMode(true), false);
    c' := ReachEdit(events + [Client(SetPresentationMode(true))], c', SetBuffer(Some(2)), false);
    Append2(events, Client(SetPresentationMode(true)), Client(SetBuffer(Some(2))));
  }

  lemma ReachTorn(events: seq<Event>, c: Conn) returns (n: nat, c': Conn)
    requires Reaches(events, c, false) && c.connected && c.wishes == TEARING
    requires c.pipe.outstanding == 0 && !c.pipe.pending
    ensures Reaches(events + [Commit(false, Accepts(n, true)), Flip], c', false) && c'.connected
    ensures PhaseOf(c') == R.Step(R.Step(PhaseOf(c), R.Torn(Some(2))), R.Flip)
  {
    NextIsAcceptable(c);
    hide Acceptable, R.Step, Reaches, PhaseOf;
    n, c' := ReachCommit(events, c, true, false);
    c' := ReachFlip(events + [Commit(false, Accepts(n, true))], c', false);
    Append2(events, Commit(false, Accepts(n, true)), Flip);
  }

  lemma TearingParts(events: seq<Event>, n: nat)
    ensures events + [Client(SetPresentationMode(true)), Client(SetBuffer(Some(2)))]
            + [Commit(false, Accepts(n, true)), Flip] == events + TearingTo2(n)
  {
  }

  lemma ReachesEnd(events: seq<Event>, c: Conn, vsync: bool)
    requires Reaches(events, c, vsync)
    ensures PossibleRun(START, CAPS, events) && Run(START, CAPS, events) == c
  {
  }

  /** A tearing commit asks for an event too, which releases the buffer it brought on screen. */
  lemma TearingReleases() returns (n1: nat, n2: nat)
    ensures var run := Prepared() + [Commit(false, Accepts(n1, true)), Flip] + TearingTo2(n2);
            PossibleRun(START, CAPS, run) && ReleasedOnScreen(Run(START, CAPS, run), 2)
  {
    var c;
    n1, c := ReachFirstCommit(false);
    var e1 := Commit(false, Accepts(n1, true));
    c := ReachFlip(Prepared() + [e1], c, false);
    Append2(Prepared(), e1, Flip);
    ShownPhase(c);
    TornPhase();
    hide R.Step, Rotating, Remembers;
    hide Reaches, Showing;
    c := ReachTearing(Prepared() + [e1, Flip], c);
    n2, c := ReachTorn(Prepared() + [e1, Flip] + [Client(SetPresentationMode(true)), Client(SetBuffer(Some(2)))], c);
    TearingParts(Prepared() + [e1, Flip], n2);
    ReachesEnd(Prepared() + [e1, Flip] + TearingTo2(n2), c, false);
    UnlockedOnScreen(c, 2);
  }
}
