/**
 A DRM output from commit to page flip (src/backend/drm/DRM.cpp and src/backend/drm/impl/Atomic.cpp).

 One connector is one `Conn`: the state the client edits, the flags commitState keeps, the CRTC's blob slots,
 the primary plane, and the kernel's view of both (live blobs, flip events requested and not yet delivered).
 The kernel may answer every call either way.
 */
module OutputCommit {
  import opened Options
  import opened Sequences
  import A = AtomicCommit
  import R = PlaneRotation

  // ----- the client's side: COutputState

  datatype Property =
    | Damage | Enabled | AdaptiveSync | PresentationMode | GammaLut | Mode | Format
    | Buffer | Ctm | Hdr | DegammaLut | Wcg

  const RECONFIG: set<Property> := {Enabled, Format, Mode, Hdr, Wcg}
  const INVALID_FORMAT := 0

  /** COutputState::SInternalState */
  datatype Wishes = Wishes(
    committed: set<Property>, enabled: bool, adaptiveSync: bool, immediate: bool, hasMode: bool, format: nat,
    buffer: Option<nat>, gammaEmpty: bool, degammaEmpty: bool, ctmIdentity: bool, hdrEotf: bool, damageEmpty: bool)
  {
    predicate Reconfigures() { committed * RECONFIG != {} }
    predicate CarriesBuffer() { Buffer in committed }
  }

  const DEFAULT_WISHES := Wishes({}, false, false, false, false, INVALID_FORMAT, None, true, true, true, false, true)

  datatype Edit =
    | SetEnabled(on: bool) | SetAdaptiveSync(on: bool) | SetPresentationMode(immediate: bool)
    | SetGammaLut(empty: bool) | SetDegammaLut(empty: bool) | SetMode(present: bool) | SetFormat(format: nat)
    | SetBuffer(buffer: Option<nat>) | SetCtm(identity: bool) | SetWideColorGamut | SetHdr(eotf: bool)
    | AddDamage(empty: bool) | ClearDamage

  function Edited(w: Wishes, e: Edit): Wishes {
    match e
    case SetEnabled(on) => w.(enabled := on, committed := w.committed + {Enabled})
    case SetAdaptiveSync(on) => w.(adaptiveSync := on, committed := w.committed + {AdaptiveSync})
    case SetPresentationMode(immediate) => w.(immediate := immediate, committed := w.committed + {PresentationMode})
    case SetGammaLut(empty) => w.(gammaEmpty := empty, committed := w.committed + {GammaLut})
    case SetDegammaLut(empty) => w.(degammaEmpty := empty, committed := w.committed + {DegammaLut})
    case SetMode(present) => w.(hasMode := present, committed := w.committed + {Mode})
    case SetFormat(format) => w.(format := format, committed := w.committed + {Format})
    case SetBuffer(buffer) => w.(buffer := buffer, committed := w.committed + {Buffer})
    case SetCtm(identity) => w.(ctmIdentity := identity, committed := w.committed + {Ctm})
    case SetWideColorGamut => w.(committed := w.committed + {Wcg})
    case SetHdr(eotf) => w.(hdrEotf := eotf, committed := w.committed + {Hdr})
    case AddDamage(empty) => w.(damageEmpty := w.damageEmpty && empty, committed := w.committed + {Damage})
    case ClearDamage => w.(damageEmpty := true, committed := w.committed + {Damage})
  }

  /** COutputState::onCommit */
  function Committed(w: Wishes): Wishes { w.(committed := {}, damageEmpty := true) }

  // ----- the kernel's side

  /** What the hardware offers; it does not change. */
  datatype Caps = Caps(formats: set<nat>, vrr: bool, async: bool, gamma: bool, degamma: bool, ctm: bool, hdr: bool,
      damage: bool)

  /** CDRMFB::create for the state's buffer. */
  datatype Import = Unimportable | Failed | Dead | Imported(dmabufFormat: Option<nat>)

  datatype Env = Env(sessionActive: bool, hasCrtc: bool, fb: Import, first: A.Answers, second: A.Answers)

  // ----- the connector

  /** The connector's side of the kernel: flip flag, CRTC slots and plane, with the kernel's own view of them. */
  datatype Pipe = Pipe(
    pending: bool, slots: A.Slots, screen: R.Screen,
    live: set<nat>, outstanding: nat, accepted: multiset<nat>)

  datatype Conn = Conn(connected: bool, wishes: Wishes, lastNoBuffer: bool, tainted: bool, enabledState: bool,
      pipe: Pipe)

  const START := Conn(false, DEFAULT_WISHES, true, false, true, Pipe(false, A.NO_SLOTS, R.BLANK, {}, 0, multiset{}))

  /** The early returns of commitState. */
  predicate Refuses(c: Conn, caps: Caps, onlyTest: bool, env: Env) {
    var w := c.wishes;
    || !c.connected || !env.sessionActive || !env.hasCrtc
    || (Enabled in w.committed && w.enabled && !w.hasMode)
    || (Format in w.committed && w.format !in caps.formats)
    || (w.enabled && w.format == INVALID_FORMAT)
    || (w.adaptiveSync && !caps.vrr)
    || (w.immediate && !caps.async)
    || (w.CarriesBuffer() && w.buffer.None?)
    || (w.CarriesBuffer() && env.fb.Unimportable?)
    || !w.hasMode
    || (!onlyTest && w.enabled && (w.Reconfigures() || w.CarriesBuffer()) && c.pipe.pending)
    || (w.enabled && w.buffer.Some? && !env.fb.Imported?)
  }

  function MainFb(w: Wishes): Option<nat> { if w.enabled then w.buffer else None }

  /** The buffer's format differs from the state's. */
  predicate Mismatch(w: Wishes, env: Env) {
    MainFb(w).Some? && env.fb.Imported? && env.fb.dmabufFormat.Some? && env.fb.dmabufFormat.value != w.format
  }

  predicate Modeset(c: Conn, env: Env) { c.wishes.Reconfigures() || c.lastNoBuffer || Mismatch(c.wishes, env) }

  /** What prepareConnector reads; the matrix was put in the commit data when `firstModeset` was decided. */
  function JobFor(w: Wishes, caps: Caps, firstModeset: bool, modeset: bool): A.Job {
    A.Job(modeset, w.enabled, MainFb(w).Some?,
          A.Lut(GammaLut in w.committed, caps.gamma, w.gammaEmpty),
          A.Lut(DegammaLut in w.committed, caps.degamma, w.degammaEmpty),
          (firstModeset && !w.ctmIdentity) || Ctm in w.committed, Ctm in w.committed, caps.ctm,
          Hdr in w.committed, Hdr in w.committed, caps.hdr, w.hdrEotf,
          Damage in w.committed, caps.damage, w.hasMode, w.damageEmpty)
  }

  function JobOf(c: Conn, caps: Caps, env: Env, modeset: bool): A.Job {
    JobFor(c.wishes, caps, Modeset(c, env), modeset)
  }

  /** What a commit shows: its framebuffer, and whether the output is on. */
  datatype Target = Target(fb: Option<nat>, enabled: bool)

  function TargetOf(w: Wishes): Target { Target(MainFb(w), w.enabled) }

  /** The primary plane after an accepted commit. */
  function Shown(s: R.Screen, t: Target): R.Screen {
    if t.enabled then R.Submit(s, t.fb) else R.ReleaseAll(R.Submit(s, t.fb))
  }

  /** SDRMConnector::commitState around one CDRMAtomicImpl::commit whose outcome is `o`. */
  function Attempted(p: Pipe, t: Target, o: A.Outcome, onlyTest: bool, event: bool): Pipe {
    var p' := p.(slots := o.slots, live := A.LiveAfter(p.live, o));
    if !o.ok || onlyTest then p'
    else p'.(pending := p.pending || (t.fb.Some? && t.enabled && event),
             outstanding := p.outstanding + (if event then 1 else 0),
             screen := Shown(p.screen, t),
             accepted := p.accepted + multiset(Elements(t.fb) - R.Held(p.screen)))
  }

  function First(c: Conn, caps: Caps, env: Env): A.Outcome {
    A.Commit(c.pipe.slots, JobOf(c, caps, env, Modeset(c, env)), A.NO_BLOBS, env.first)
  }

  /** The retry as a modeset reuses the commit data of the refused attempt. */
  function Second(c: Conn, caps: Caps, env: Env): A.Outcome {
    var o := First(c, caps, env);
    A.Commit(o.slots, JobOf(c, caps, env, true), o.blobs, env.second)
  }

  /** A refused commit that was no modeset is tried once more as one, unless that failed before. */
  predicate Retries(c: Conn, env: Env, o: A.Outcome) { !o.ok && !Modeset(c, env) && !c.tainted }

  function Reformatted(w: Wishes, env: Env): Wishes {
    if Mismatch(w, env) then w.(format := env.fb.dmabufFormat.value, committed := w.committed + {Format}) else w
  }

  datatype Result = Result(conn: Conn, ok: bool)

  /** The flags of a first attempt. */
  predicate AsksEvent(w: Wishes, onlyTest: bool) { !onlyTest && w.enabled && w.CarriesBuffer() }
  predicate AsksAsync(w: Wishes, onlyTest: bool, env: Env) {
    !onlyTest && w.immediate && w.CarriesBuffer() && !Mismatch(w, env)
  }

  /** The end of commitState: `pipe` is what the attempts left, `async` says the tearing flag is still set. */
  function Concluded(c: Conn, env: Env, onlyTest: bool, pipe: Pipe, ok: bool, tainted: bool, async: bool): Conn {
    var w := Reformatted(c.wishes, env);
    if onlyTest || !ok then c.(wishes := w, tainted := tainted, pipe := pipe)
    else Conn(c.connected, Committed(w), MainFb(w).None?, false, w.enabled,
              if async then pipe.(screen := R.Present(pipe.screen)) else pipe)
  }

  /** The body of commitState, given the outcome of the first attempt and of the retry, should there be one. */
  function Settled(c: Conn, onlyTest: bool, env: Env, o: A.Outcome, o': A.Outcome): Result {
    var w := c.wishes;
    var first := Attempted(c.pipe, TargetOf(w), o, onlyTest, AsksEvent(w, onlyTest));
    if !Retries(c, env, o) then
      Result(Concluded(c, env, onlyTest, first, o.ok, c.tainted, AsksAsync(w, onlyTest, env)), o.ok)
    else
      var second := Attempted(first, TargetOf(w), o', onlyTest, !onlyTest);
      Result(Concluded(c, env, onlyTest, second, o'.ok, c.tainted || !o'.ok, false), o'.ok)
  }

  /** CDRMOutput::commitState */
  function CommitState(c: Conn, caps: Caps, onlyTest: bool, env: Env): Result {
    if Refuses(c, caps, onlyTest, env) then Result(c, false)
    else Settled(c, onlyTest, env, First(c, caps, env), Second(c, caps, env))
  }

  /** handlePF: events of a connector that is gone are dropped. */
  function Flipped(c: Conn): Conn
    requires c.pipe.outstanding > 0
  {
    var p := c.pipe.(outstanding := c.pipe.outstanding - 1, pending := false);
    c.(pipe := if c.connected then p.(screen := R.Present(p.screen)) else p)
  }

  /** SDRMConnector::disconnect, with ~CDRMOutput. The kernel keeps its event. */
  function Disconnected(c: Conn): Conn {
    if !c.connected then c
    else c.(connected := false, pipe := c.pipe.(pending := false, screen := R.ReleaseAll(c.pipe.screen)))
  }

  /** SDRMConnector::connect: a new CDRMOutput. */
  function Connected(c: Conn): Conn {
    if c.connected then c
    else c.(connected := true, wishes := DEFAULT_WISHES, lastNoBuffer := true, enabledState := true)
  }

  // ----- runs

  datatype Event = Client(edit: Edit) | Commit(onlyTest: bool, env: Env) | Flip | Disconnect | Connect

  function Step(c: Conn, caps: Caps, e: Event): Conn
    requires e.Flip? ==> c.pipe.outstanding > 0
  {
    match e
    case Client(edit) => if c.connected then c.(wishes := Edited(c.wishes, edit)) else c
    case Commit(onlyTest, env) => CommitState(c, caps, onlyTest, env).conn
    case Flip => Flipped(c)
    case Disconnect => Disconnected(c)
    case Connect => Connected(c)
  }

  /** The kernel delivers only flips it owes, and makes fresh blob ids. */
  predicate Possible(c: Conn, caps: Caps, e: Event) {
    match e
    case Flip => c.pipe.outstanding > 0
    case Commit(onlyTest, env) =>
      Refuses(c, caps, onlyTest, env)
      || (A.Fresh(env.first, c.pipe.live)
          && (Retries(c, env, First(c, caps, env))
             ==> A.Fresh(env.second, A.LiveAfter(c.pipe.live, First(c, caps, env)))))
    case _ => true
  }

  function Run(c: Conn, caps: Caps, events: seq<Event>): Conn
    requires PossibleRun(c, caps, events)
    decreases |events|
  {
    if events == [] then c else Run(Step(c, caps, events[0]), caps, events[1..])
  }

  predicate PossibleRun(c: Conn, caps: Caps, events: seq<Event>)
    decreases |events|
  {
    events == [] || (Possible(c, caps, events[0]) && PossibleRun(Step(c, caps, events[0]), caps, events[1..]))
  }

  // ----- a commit with the output disabled is always a modeset

  /**
   Unless the last commit carried no buffer, nobody turned the output off or took the buffer away without the
   commit bit.
   */
  predicate Tracked(c: Conn) {
    c.connected && !c.lastNoBuffer ==>
      && (c.wishes.enabled || Enabled in c.wishes.committed)
      && (c.wishes.buffer.Some? || c.wishes.CarriesBuffer())
  }

  lemma DisabledCommitIsModeset(c: Conn, env: Env)
    requires Tracked(c) && c.connected && !c.wishes.enabled
    ensures Modeset(c, env)
  {
    if Enabled in c.wishes.committed { assert Enabled in c.wishes.committed * RECONFIG; }
  }

  lemma ConcludedKeepsTracked(c: Conn, env: Env, onlyTest: bool, pipe: Pipe, ok: bool, tainted: bool, async: bool)
    requires Tracked(c)
    ensures Tracked(Concluded(c, env, onlyTest, pipe, ok, tainted, async))
  {
  }

  lemma SettledKeepsTracked(c: Conn, onlyTest: bool, env: Env, o: A.Outcome, o': A.Outcome)
    requires Tracked(c)
    ensures Tracked(Settled(c, onlyTest, env, o, o').conn)
  {
    var w := c.wishes;
    var first := Attempted(c.pipe, TargetOf(w), o, onlyTest, AsksEvent(w, onlyTest));
    ConcludedKeepsTracked(c, env, onlyTest, first, o.ok, c.tainted, AsksAsync(w, onlyTest, env));
    var second := Attempted(first, TargetOf(w), o', onlyTest, !onlyTest);
    ConcludedKeepsTracked(c, env, onlyTest, second, o'.ok, c.tainted || !o'.ok, false);
  }

  lemma EditKeepsTracked(c: Conn, edit: Edit)
    requires Tracked(c)
    ensures Tracked(c.(wishes := Edited(c.wishes, edit)))
  {
  }

  lemma StepKeepsTracked(c: Conn, caps: Caps, e: Event)
    requires Tracked(c) && (e.Flip? ==> c.pipe.outstanding > 0)
    ensures Tracked(Step(c, caps, e))
  {
    match e {
      case Client(edit) => EditKeepsTracked(c, edit);
      case Commit(onlyTest, env) => SettledKeepsTracked(c, onlyTest, env, First(c, caps, env), Second(c, caps, env));
      case Flip =>
      case Disconnect =>
      case Connect =>
    }
  }

  // ----- page flips

  /** isPageFlipPending is up exactly when one event is owed; a connector that is gone owes none of its own. */
  predicate OneFlip(c: Conn) {
    c.connected ==> c.pipe.outstanding == if c.pipe.pending then 1 else 0
  }

  /** The commits whose retry may ask for a second event. */
  predicate Risky(c: Conn, caps: Caps, onlyTest: bool, env: Env) {
    && !Refuses(c, caps, onlyTest, env)
    && !onlyTest && !Modeset(c, env) && !c.tainted
    && !c.wishes.CarriesBuffer() && c.pipe.pending
  }

  /**
   No risky commit, and a connector comes back only after the events of its former life were delivered. A run
   without disconnects meets the second.
  */
  predicate Careful(c: Conn, caps: Caps, e: Event) {
    match e
    case Commit(onlyTest, env) => !Risky(c, caps, onlyTest, env)
    case Connect => c.connected || (c.pipe.outstanding == 0 && !c.pipe.pending)
    case _ => true
  }

  /** A client whose enabled commits each carry a buffer or reconfigure is careful. */
  lemma CarefulClient(c: Conn, caps: Caps, onlyTest: bool, env: Env)
    requires Tracked(c) && (c.wishes.enabled ==> c.wishes.CarriesBuffer() || c.wishes.Reconfigures())
    ensures Careful(c, caps, Commit(onlyTest, env))
  {
    if c.connected && !c.wishes.enabled {
      DisabledCommitIsModeset(c, env);
    }
  }

  predicate CarefulRun(c: Conn, caps: Caps, events: seq<Event>)
    requires PossibleRun(c, caps, events)
    decreases |events|
  {
    events == [] || (Careful(c, caps, events[0]) && CarefulRun(Step(c, caps, events[0]), caps, events[1..]))
  }

  lemma SettledKeepsOneFlip(c: Conn, caps: Caps, onlyTest: bool, env: Env, o: A.Outcome, o': A.Outcome)
    requires OneFlip(c) && Tracked(c) && !Refuses(c, caps, onlyTest, env) && !Risky(c, caps, onlyTest, env)
    ensures OneFlip(Settled(c, onlyTest, env, o, o').conn)
  {
    if !c.wishes.enabled { DisabledCommitIsModeset(c, env); }
  }

  lemma CommitKeepsOneFlip(c: Conn, caps: Caps, onlyTest: bool, env: Env)
    requires OneFlip(c) && Tracked(c) && !Risky(c, caps, onlyTest, env)
    ensures OneFlip(CommitState(c, caps, onlyTest, env).conn)
  {
    if !Refuses(c, caps, onlyTest, env) {
      SettledKeepsOneFlip(c, caps, onlyTest, env, First(c, caps, env), Second(c, caps, env));
    }
  }

  lemma StepKeepsOneFlip(c: Conn, caps: Caps, e: Event)
    requires OneFlip(c) && Tracked(c) && Possible(c, caps, e) && Careful(c, caps, e)
    ensures OneFlip(Step(c, caps, e))
  {
    if e.Commit? {
      CommitKeepsOneFlip(c, caps, e.onlyTest, e.env);
    }
  }

  lemma {:induction false} RunKeepsOneFlip(c: Conn, caps: Caps, events: seq<Event>)
    requires OneFlip(c) && Tracked(c) && PossibleRun(c, caps, events) && CarefulRun(c, caps, events)
    ensures OneFlip(Run(c, caps, events)) && Tracked(Run(c, caps, events))
    decreases |events|
  {
    hide OneFlip, Tracked, Careful, Step;
    if events == [] {
    } else {
      StepKeepsOneFlip(c, caps, events[0]);
      StepKeepsTracked(c, caps, events[0]);
      RunKeepsOneFlip(Step(c, caps, events[0]), caps, events[1..]);
    }
  }

  /** From the start: a careful run always knows of the one event the kernel owes it. */
  lemma StartKeepsOneFlip(caps: Caps, events: seq<Event>)
    requires PossibleRun(START, caps, events) && CarefulRun(START, caps, events)
    ensures OneFlip(Run(START, caps, events))
  {
    RunKeepsOneFlip(START, caps, events);
  }

  lemma {:induction false} Above(live: set<nat>) returns (n: nat)
    ensures 0 < n && forall id <- live :: id < n
    decreases live
  {
    if live == {} {
      n := 1;
    } else {
      var id :| id in live;
      n := Above(live - {id});
      assert forall x <- live :: x == id || x in live - {id};
      n := if n <= id then id + 1 else n;
    }
  }

  const NOTHING := A.Answers(A.Refused, A.Refused, A.Refused, A.Refused, A.Refused, A.Refused, false, false)

  /** The answers of a kernel that accepts, with two blob ids. */
  function Yes(n: nat): A.Answers {
    A.Answers(A.Made(n), A.Refused, A.Refused, A.Refused, A.Refused, A.Made(n + 1), true, true)
  }

  lemma YesIsFresh(live: set<nat>, n: nat)
    requires 0 < n && forall id <- live :: id < n
    ensures A.Fresh(Yes(n), live)
  {
    assert A.Id(n) == {n} && A.Id(n + 1) == {n + 1};
  }

  /** When a first attempt that made no blob is refused and its retry accepted, a risky commit breaks it. */
  lemma RiskyBreaks(c: Conn, caps: Caps, onlyTest: bool, env: Env) returns (env': Env)
    requires OneFlip(c) && Tracked(c) && Risky(c, caps, onlyTest, env)
    ensures env' == env.(first := env'.first, second := env'.second)
    ensures Possible(c, caps, Commit(onlyTest, env'))
    ensures !OneFlip(CommitState(c, caps, onlyTest, env').conn)
  {
    var n := Above(c.pipe.live);
    env' := env.(first := NOTHING, second := Yes(n));
    if !c.wishes.enabled {
      DisabledCommitIsModeset(c, env);
    }
    assert A.Id(0) == {};
    assert !First(c, caps, env').ok && First(c, caps, env').created == {};
    YesIsFresh(c.pipe.live, n);
    YesIsFresh(A.LiveAfter(c.pipe.live, First(c, caps, env')), n);
    assert Second(c, caps, env').ok;
  }

  /** Some answers the kernel can give break the flip bookkeeping of a commit exactly when the commit is risky. */
  lemma FlipBreaksExactly(c: Conn, caps: Caps, onlyTest: bool, env: Env)
    requires OneFlip(c) && Tracked(c)
    ensures Risky(c, caps, onlyTest, env) <==>
            exists first, second :: var env' := env.(first := first, second := second);
              Possible(c, caps, Commit(onlyTest, env')) && !OneFlip(CommitState(c, caps, onlyTest, env').conn)
  {
    if Risky(c, caps, onlyTest, env) {
      var env' := RiskyBreaks(c, caps, onlyTest, env);
      assert env' == env.(first := env'.first, second := env'.second);
    } else {
      forall first, second
        ensures OneFlip(CommitState(c, caps, onlyTest, env.(first := first, second := second)).conn)
      {
        CommitKeepsOneFlip(c, caps, onlyTest, env.(first := first, second := second));
      }
    }
  }

  /** A connector that comes back while the kernel still owes a flip starts out wrong. */
  lemma ReplugWithFlipPending(c: Conn)
    requires c.connected && OneFlip(c)
    ensures OneFlip(Connected(Disconnected(c))) <==> !c.pipe.pending
  {
  }

  // ----- blobs

  predicate Sound(c: Conn) { A.Sound(c.pipe.slots, c.pipe.live) }

  function Orphans(c: Conn): set<nat> { A.Orphans(c.pipe.slots, c.pipe.live) }

  /** The blobs one step makes and loses track of. */
  function Lost(c: Conn, caps: Caps, e: Event): set<nat> {
    if !e.Commit? || Refuses(c, caps, e.onlyTest, e.env) then {}
    else
      A.Leaked(JobOf(c, caps, e.env, Modeset(c, e.env)), A.NO_BLOBS, e.env.first)
      + (if Retries(c, e.env, First(c, caps, e.env)) then
           A.Leaked(JobOf(c, caps, e.env, true), First(c, caps, e.env).blobs, e.env.second)
         else {})
  }

  lemma RefusedData(s: A.Slots, j: A.Job, a: A.Answers)
    requires !j.modeset
    ensures A.Commit(s, j, A.NO_BLOBS, a).blobs == A.Prepare(j, A.NO_BLOBS, a).blobs
    ensures !A.Prepare(j, A.NO_BLOBS, a).blobs.blobbed
  {
  }

  /** A refused first attempt leaves data the retry may reuse. */
  lemma RetryIsClean(c: Conn, caps: Caps, env: Env)
    requires Retries(c, env, First(c, caps, env))
    ensures A.Clean(JobOf(c, caps, env, true), First(c, caps, env).blobs) && !First(c, caps, env).blobs.blobbed
  {
    var j := JobOf(c, caps, env, false);
    assert JobOf(c, caps, env, true) == j.(modeset := true);
    A.PrepareKeepsClean(j, A.NO_BLOBS, env.first);
    RefusedData(c.pipe.slots, j, env.first);
  }

  /** The destroy calls of an attempt hit live blobs, each once. */
  predicate DestroysOnce(live: set<nat>, o: A.Outcome) {
    NoRepeats(o.destroyed) && Members(o.destroyed) <= live + o.created
  }

  lemma AttemptedBlobs(p: Pipe, t: Target, o: A.Outcome, onlyTest: bool, event: bool)
    ensures var p' := Attempted(p, t, o, onlyTest, event); p'.slots == o.slots && p'.live == A.LiveAfter(p.live, o)
  {
  }

  lemma ConcludedBlobs(c: Conn, env: Env, onlyTest: bool, pipe: Pipe, ok: bool, tainted: bool, async: bool)
    ensures var p' := Concluded(c, env, onlyTest, pipe, ok, tainted, async).pipe;
            p'.slots == pipe.slots && p'.live == pipe.live
  {
  }

  lemma FirstLedger(c: Conn, caps: Caps, env: Env)
    requires Sound(c) && A.Fresh(env.first, c.pipe.live)
    ensures var o := First(c, caps, env); var live := A.LiveAfter(c.pipe.live, o);
            && DestroysOnce(c.pipe.live, o) && A.Sound(o.slots, live)
            && A.Orphans(o.slots, live) == Orphans(c) + A.Leaked(JobOf(c, caps, env, Modeset(c, env)), A.NO_BLOBS,
               env.first)
  {
    A.CommitLedger(c.pipe.slots, c.pipe.live, JobOf(c, caps, env, Modeset(c, env)), A.NO_BLOBS, env.first);
  }

  lemma SecondLedger(c: Conn, caps: Caps, env: Env, live: set<nat>)
    requires Retries(c, env, First(c, caps, env)) && A.Sound(First(c, caps, env).slots, live)
             && A.Fresh(env.second, live)
    ensures var o, o' := First(c, caps, env), Second(c, caps, env); var live' := A.LiveAfter(live, o');
            && DestroysOnce(live, o') && A.Sound(o'.slots, live')
            && A.Orphans(o'.slots, live')
               == A.Orphans(o.slots, live) + A.Leaked(JobOf(c, caps, env, true), o.blobs, env.second)
  {
    RetryIsClean(c, caps, env);
    A.CommitLedger(First(c, caps, env).slots, live, JobOf(c, caps, env, true), First(c, caps, env).blobs, env.second);
  }

  lemma SettledBlobs(c: Conn, onlyTest: bool, env: Env, o: A.Outcome, o': A.Outcome)
    ensures var p := Settled(c, onlyTest, env, o, o').conn.pipe; var live := A.LiveAfter(c.pipe.live, o);
            && p.slots == (if Retries(c, env, o) then o'.slots else o.slots)
            && p.live == (if Retries(c, env, o) then A.LiveAfter(live, o') else live)
  {
    var w := c.wishes;
    var first := Attempted(c.pipe, TargetOf(w), o, onlyTest, AsksEvent(w, onlyTest));
    var second := Attempted(first, TargetOf(w), o', onlyTest, !onlyTest);
    AttemptedBlobs(c.pipe, TargetOf(w), o, onlyTest, AsksEvent(w, onlyTest));
    AttemptedBlobs(first, TargetOf(w), o', onlyTest, !onlyTest);
    ConcludedBlobs(c, env, onlyTest, first, o.ok, c.tainted, AsksAsync(w, onlyTest, env));
    ConcludedBlobs(c, env, onlyTest, second, o'.ok, c.tainted || !o'.ok, false);
  }

  /** Every destroy call of a commit hits a live blob. */
  lemma CommitDestroysOnce(c: Conn, caps: Caps, onlyTest: bool, env: Env)
    requires Sound(c) && Possible(c, caps, Commit(onlyTest, env)) && !Refuses(c, caps, onlyTest, env)
    ensures DestroysOnce(c.pipe.live, First(c, caps, env))
    ensures Retries(c, env, First(c, caps, env))
            ==> DestroysOnce(A.LiveAfter(c.pipe.live, First(c, caps, env)), Second(c, caps, env))
  {
    FirstLedger(c, caps, env);
    if Retries(c, env, First(c, caps, env)) {
      SecondLedger(c, caps, env, A.LiveAfter(c.pipe.live, First(c, caps, env)));
    }
  }

  /** `pipe'` holds `slots` and `live`, where the orphans of `pipe` and the ids in `lost` are the only orphans. */
  predicate Accounts(pipe: Pipe, pipe': Pipe, lost: set<nat>) {
    A.Sound(pipe'.slots, pipe'.live) && A.Orphans(pipe'.slots, pipe'.live) == A.Orphans(pipe.slots, pipe.live) + lost
  }

  /** The ledger of the body, given the ledgers of its attempts. */
  lemma SettledLedger(c: Conn, onlyTest: bool, env: Env, o: A.Outcome, o': A.Outcome, lost: set<nat>, lost': set<nat>)
    requires var live := A.LiveAfter(c.pipe.live, o);
             && A.Sound(o.slots, live) && A.Orphans(o.slots, live) == Orphans(c) + lost
             && (Retries(c, env, o) ==>
                   A.Sound(o'.slots, A.LiveAfter(live, o'))
                   && A.Orphans(o'.slots, A.LiveAfter(live, o')) == A.Orphans(o.slots, live) + lost')
    ensures Accounts(c.pipe, Settled(c, onlyTest, env, o, o').conn.pipe,
            lost + (if Retries(c, env, o) then lost' else {}))
  {
    SettledBlobs(c, onlyTest, env, o, o');
    assert Orphans(c) + lost + lost' == Orphans(c) + (lost + lost');
    assert lost + {} == lost;
  }

  lemma CommitLedger(c: Conn, caps: Caps, onlyTest: bool, env: Env)
    requires Sound(c) && Possible(c, caps, Commit(onlyTest, env)) && !Refuses(c, caps, onlyTest, env)
    ensures Accounts(c.pipe, CommitState(c, caps, onlyTest, env).conn.pipe, Lost(c, caps, Commit(onlyTest, env)))
  {
    var o, o' := First(c, caps, env), Second(c, caps, env);
    FirstLedger(c, caps, env);
    if Retries(c, env, o) {
      SecondLedger(c, caps, env, A.LiveAfter(c.pipe.live, o));
    }
    SettledLedger(c, onlyTest, env, o, o', A.Leaked(JobOf(c, caps, env, Modeset(c, env)), A.NO_BLOBS, env.first),
                  A.Leaked(JobOf(c, caps, env, true), o.blobs, env.second));
  }

  /** The blobs lost over a whole run. */
  function LostInRun(c: Conn, caps: Caps, events: seq<Event>): set<nat>
    requires PossibleRun(c, caps, events)
    decreases |events|
  {
    if events == [] then {} else Lost(c, caps, events[0]) + LostInRun(Step(c, caps, events[0]), caps, events[1..])
  }

  lemma StepLedger(c: Conn, caps: Caps, e: Event)
    requires Sound(c) && Possible(c, caps, e)
    ensures Sound(Step(c, caps, e)) && Orphans(Step(c, caps, e)) == Orphans(c) + Lost(c, caps, e)
  {
    match e {
      case Commit(onlyTest, env) => if !Refuses(c, caps, onlyTest, env) { CommitLedger(c, caps, onlyTest, env); }
      case _ =>
    }
  }

  /** Every run: slots stay sound, and the live blobs are the slots' ones and exactly the ones lost on the way. */
  lemma {:induction false} RunLedger(c: Conn, caps: Caps, events: seq<Event>)
    requires Sound(c) && PossibleRun(c, caps, events)
    ensures Sound(Run(c, caps, events))
    ensures Orphans(Run(c, caps, events)) == Orphans(c) + LostInRun(c, caps, events)
    decreases |events|
  {
    if events == [] {
    } else {
      StepLedger(c, caps, events[0]);
      RunLedger(Step(c, caps, events[0]), caps, events[1..]);
    }
  }

  /** A first attempt is refused: preparation stops, or the kernel says no. */
  predicate FirstRefused(c: Conn, caps: Caps, env: Env) {
    A.Stops(JobOf(c, caps, env, Modeset(c, env)), env.first) || !env.first.accepts
  }

  /** No attempt of this step makes a blob for nothing. */
  predicate Lossless(c: Conn, caps: Caps, e: Event) {
    e.Commit? && !Refuses(c, caps, e.onlyTest, e.env) ==>
      && A.Lossless(JobOf(c, caps, e.env, Modeset(c, e.env)), e.env.first)
      && (FirstRefused(c, caps, e.env) && !Modeset(c, e.env) && !c.tainted ==>
            A.Lossless(JobOf(c, caps, e.env, true), e.env.second))
  }

  lemma LosesNothing(c: Conn, caps: Caps, e: Event)
    requires Possible(c, caps, e)
    ensures Lost(c, caps, e) == {} <==> Lossless(c, caps, e)
  {
    if e.Commit? && !Refuses(c, caps, e.onlyTest, e.env) {
      var env := e.env;
      var o := First(c, caps, env);
      A.LeaksNothing(JobOf(c, caps, env, Modeset(c, env)), A.NO_BLOBS, env.first);
      assert o.ok <==> !FirstRefused(c, caps, env);
      if Retries(c, env, o) {
        A.LeaksNothing(JobOf(c, caps, env, true), o.blobs, env.second);
      }
      hide A.Lossless, A.Leaked, A.Commit, A.Stops, FirstRefused;
    }
  }

  predicate LosslessRun(c: Conn, caps: Caps, events: seq<Event>)
    requires PossibleRun(c, caps, events)
    decreases |events|
  {
    events == [] || (Lossless(c, caps, events[0]) && LosslessRun(Step(c, caps, events[0]), caps, events[1..]))
  }

  lemma {:induction false} RunLosesNothing(c: Conn, caps: Caps, events: seq<Event>)
    requires PossibleRun(c, caps, events)
    ensures LostInRun(c, caps, events) == {} <==> LosslessRun(c, caps, events)
    decreases |events|
  {
    hide Lost, Lossless, Step;
    if events == [] {
    } else {
      LosesNothing(c, caps, events[0]);
      RunLosesNothing(Step(c, caps, events[0]), caps, events[1..]);
    }
  }

  /** A run ends with the slots' blobs and no other exactly when every commit on the way was lossless. */
  lemma LiveAreHeld(caps: Caps, events: seq<Event>)
    requires PossibleRun(START, caps, events)
    ensures var p := Run(START, caps, events).pipe;
            && A.Sound(p.slots, p.live)
            && p.live == A.Held(p.slots) + LostInRun(START, caps, events)
            && (p.live == A.Held(p.slots) <==> LosslessRun(START, caps, events))
  {
    RunLedger(START, caps, events);
    RunLosesNothing(START, caps, events);
  }

  // ----- what is accepted, and what reaches the CRTC

  /** What a commit may ask for, request by request. */
  predicate Admissible(c: Conn, caps: Caps, onlyTest: bool, env: Env) {
    var w := c.wishes;
    && c.connected && env.sessionActive && env.hasCrtc && w.hasMode
    && (w.adaptiveSync ==> caps.vrr)
    && (w.immediate ==> caps.async)
    && (w.enabled ==> w.format != INVALID_FORMAT)
    && (Format in w.committed ==> w.format in caps.formats)
    && (Buffer in w.committed ==> w.buffer.Some? && !env.fb.Unimportable?)
    && (w.enabled && w.buffer.Some? ==> env.fb.Imported?)
    && (c.pipe.pending && !onlyTest && w.enabled ==> w.committed !! {Buffer, Enabled, Format, Mode, Hdr, Wcg})
  }

  /** The buffer shown has a format of its own, which is not the one the output is set to. */
  predicate OtherFormat(w: Wishes, env: Env) {
    w.enabled && w.buffer.Some? && env.fb.Imported? && env.fb.dmabufFormat !in {None, Some(w.format)}
  }

  /** The hardware is set up anew: after the edits that need it, after a commit that showed no buffer. */
  predicate SetsUp(c: Conn, env: Env) {
    c.lastNoBuffer || OtherFormat(c.wishes, env) || !(c.wishes.committed !! {Enabled, Format, Mode, Hdr, Wcg})
  }

  /** The kernel takes one attempt. */
  predicate Taken(w: Wishes, caps: Caps, modeset: bool, a: A.Answers) {
    && a.accepts && (modeset && w.enabled ==> a.mode.Made?)
    && (Damage in w.committed && caps.damage && !w.damageEmpty ==> a.damage.Made?)
  }

  lemma Apart(s: set<Property>)
    ensures s * RECONFIG == {} <==> s !! {Enabled, Format, Mode, Hdr, Wcg}
    ensures s !! {Buffer, Enabled, Format, Mode, Hdr, Wcg} <==> s !! {Enabled, Format, Mode, Hdr, Wcg} && Buffer !in s
  {
    if p :| p in s && p in RECONFIG {
      assert p in s * RECONFIG;
      assert p in s && p in {Enabled, Format, Mode, Hdr, Wcg};
    } else {
      assert forall p <- s :: p !in RECONFIG;
      if Buffer !in s {
        assert forall p <- s :: p !in {Buffer, Enabled, Format, Mode, Hdr, Wcg};
      }
    }
  }

  lemma SetsUpIsModeset(c: Conn, env: Env)
    ensures Modeset(c, env) <==> SetsUp(c, env)
    ensures OtherFormat(c.wishes, env) ==> Mismatch(c.wishes, env)
    ensures Mismatch(c.wishes, env) ==> OtherFormat(c.wishes, env)
  {
    Apart(c.wishes.committed);
  }

  lemma RefusesUnlessAdmissible(c: Conn, caps: Caps, onlyTest: bool, env: Env)
    ensures Refuses(c, caps, onlyTest, env) <==> !Admissible(c, caps, onlyTest, env)
  {
    Apart(c.wishes.committed);
  }

  lemma AttemptsTaken(c: Conn, caps: Caps, env: Env)
    requires c.wishes.hasMode
    ensures First(c, caps, env).ok <==> Taken(c.wishes, caps, SetsUp(c, env), env.first)
    ensures Second(c, caps, env).ok <==> Taken(c.wishes, caps, true, env.second)
  {
    SetsUpIsModeset(c, env);
    var j := JobOf(c, caps, env, Modeset(c, env));
    A.AcceptedExactly(c.pipe.slots, j, A.NO_BLOBS, env.first);
    var o := First(c, caps, env);
    A.AcceptedExactly(o.slots, JobOf(c, caps, env, true), o.blobs, env.second);
    hide A.Commit, SetsUp;
  }

  /**
   commitState, from outside: an inadmissible commit changes nothing; an admissible one succeeds if and only if the
   kernel takes the first attempt or, when that set nothing up and no retry failed before, the second.
   */
  lemma CommitExactly(c: Conn, caps: Caps, onlyTest: bool, env: Env)
    ensures var r := CommitState(c, caps, onlyTest, env);
            if !Admissible(c, caps, onlyTest, env) then r == Result(c, false)
            else r.ok <==> || Taken(c.wishes, caps, SetsUp(c, env), env.first)
                           || (!SetsUp(c, env) && !c.tainted && Taken(c.wishes, caps, true, env.second))
  {
    RefusesUnlessAdmissible(c, caps, onlyTest, env);
    if Admissible(c, caps, onlyTest, env) {
      SetsUpIsModeset(c, env);
      AttemptsTaken(c, caps, env);
      hide First, Second, Refuses, SetsUp, Taken, Modeset, Attempted;
    }
  }

  lemma ConcludedLeaves(c: Conn, env: Env, onlyTest: bool, pipe: Pipe, ok: bool, tainted: bool, async: bool)
    ensures var w, d := c.wishes, Concluded(c, env, onlyTest, pipe, ok, tainted, async);
            var other := OtherFormat(w, env);
            var format := if other then env.fb.dmabufFormat.value else w.format;
            if ok && !onlyTest then
              && d.wishes == w.(committed := {}, damageEmpty := true, format := format)
              && d.lastNoBuffer == (!w.enabled || w.buffer.None?)
              && !d.tainted && d.enabledState == w.enabled && d.connected == c.connected
            else
              && d.wishes == w.(committed := w.committed + (if other then {Format} else {}), format := format)
              && d == c.(wishes := d.wishes, tainted := tainted, pipe := d.pipe)
  {
    hide SetsUp, Modeset, Reformatted, Mismatch, OtherFormat;
    SetsUpIsModeset(c, env);
    TakesFormat(c.wishes, env);
  }

  lemma TakesFormat(w: Wishes, env: Env)
    ensures Reformatted(w, env) ==
            if Mismatch(w, env) then w.(committed := w.committed + {Format}, format := env.fb.dmabufFormat.value)
            else w.(committed := w.committed + {}, format := w.format)
  {
    assert w.committed + {} == w.committed;
  }

  lemma SettledLeaves(c: Conn, onlyTest: bool, env: Env, o: A.Outcome, o': A.Outcome)
    ensures var w, r := c.wishes, Settled(c, onlyTest, env, o, o');
            var other := OtherFormat(w, env);
            var format := if other then env.fb.dmabufFormat.value else w.format;
            if r.ok && !onlyTest then
              && r.conn.wishes == w.(committed := {}, damageEmpty := true, format := format)
              && r.conn.lastNoBuffer == (!w.enabled || w.buffer.None?)
              && !r.conn.tainted && r.conn.enabledState == w.enabled && r.conn.connected == c.connected
            else
              && r.conn.wishes == w.(committed := w.committed + (if other then {Format} else {}), format := format)
              && r.conn == c.(wishes := r.conn.wishes, tainted := r.conn.tainted, pipe := r.conn.pipe)
              && (r.conn.tainted <==> c.tainted || (!r.ok && !SetsUp(c, env)))
  {
    var w := c.wishes;
    var first := Attempted(c.pipe, TargetOf(w), o, onlyTest, AsksEvent(w, onlyTest));
    var second := Attempted(first, TargetOf(w), o', onlyTest, !onlyTest);
    SetsUpIsModeset(c, env);
    ConcludedLeaves(c, env, onlyTest, first, o.ok, c.tainted, AsksAsync(w, onlyTest, env));
    ConcludedLeaves(c, env, onlyTest, second, o'.ok, c.tainted || !o'.ok, false);
    hide Attempted, Concluded, SetsUp, Modeset, OtherFormat, AsksEvent, AsksAsync;
  }

  /**
   What is left of an admissible commit. Accepted and no test: nothing is committed any more, the damage is gone, the
   next commit is a set-up if this one showed nothing, and retries are allowed again. Refused or a test: the requests
   stay, and a refusal of anything but a set-up forbids further retries. Either way the format of the buffer is taken
   over when it is another.
   */
  lemma CommitLeaves(c: Conn, caps: Caps, onlyTest: bool, env: Env)
    requires Admissible(c, caps, onlyTest, env)
    ensures var w, r := c.wishes, CommitState(c, caps, onlyTest, env);
            var other := OtherFormat(w, env);
            var format := if other then env.fb.dmabufFormat.value else w.format;
            if r.ok && !onlyTest then
              && r.conn.wishes == w.(committed := {}, damageEmpty := true, format := format)
              && r.conn.lastNoBuffer == (!w.enabled || w.buffer.None?)
              && !r.conn.tainted && r.conn.enabledState == w.enabled && r.conn.connected == c.connected
            else
              && r.conn.wishes == w.(committed := w.committed + (if other then {Format} else {}), format := format)
              && r.conn == c.(wishes := r.conn.wishes, tainted := r.conn.tainted, pipe := r.conn.pipe)
              && (r.conn.tainted <==> c.tainted || (!r.ok && !SetsUp(c, env)))
  {
    RefusesUnlessAdmissible(c, caps, onlyTest, env);
    SettledLeaves(c, onlyTest, env, First(c, caps, env), Second(c, caps, env));
    hide First, Second, Refuses, SetsUp, Admissible, Settled, OtherFormat;
  }

  /** A supported request of a client that shows a buffer, on a kernel that makes the blobs and accepts, succeeds. */
  lemma SupportedSucceeds(c: Conn, caps: Caps, env: Env)
    requires c.connected && env.sessionActive && env.hasCrtc && !c.pipe.pending
    requires var w := c.wishes;
             && w.enabled && w.hasMode && w.format in caps.formats && w.format != INVALID_FORMAT
             && w.buffer.Some? && env.fb.Imported? && (w.adaptiveSync ==> caps.vrr) && (w.immediate ==> caps.async)
    requires env.first.accepts && env.first.mode.Made? && env.first.damage.Made?
    ensures CommitState(c, caps, false, env).ok
  {
    CommitExactly(c, caps, false, env);
    hide CommitState;
  }

  /**
   A new output is taken for lit; it cannot be committed before it has a mode, and is committed dark until it is
   enabled.
   */
  lemma NewOutputIsDark(c: Conn, caps: Caps, onlyTest: bool, env: Env)
    ensures var new_ := Connected(Disconnected(c));
            new_.enabledState && new_.lastNoBuffer && CommitState(new_, caps, onlyTest, env) == Result(new_, false)
    ensures var new_ := Connected(Disconnected(c));
            var r := CommitState(new_.(wishes := Edited(new_.wishes, SetMode(true))), caps, false, env);
            r.ok ==> !r.conn.enabledState && r.conn.lastNoBuffer
  {
    var new_ := Connected(Disconnected(c));
    CommitExactly(new_, caps, onlyTest, env);
    hide First, Second, Attempted;
  }

  /** Before a connector is first plugged in, every commit is refused; nothing is pending and no retry has failed. */
  lemma StartIsOff(caps: Caps, onlyTest: bool, env: Env)
    ensures CommitState(START, caps, onlyTest, env) == Result(START, false)
    ensures !START.connected && !START.tainted && !START.pipe.pending && START.pipe.outstanding == 0
    ensures START.lastNoBuffer && START.enabledState && START.wishes == Connected(START).wishes
  {
    CommitExactly(START, caps, onlyTest, env);
  }

  /** The answers of the attempt that counts. */
  function Final(c: Conn, caps: Caps, env: Env): A.Answers {
    if Taken(c.wishes, caps, SetsUp(c, env), env.first) then env.first else env.second
  }

  lemma FirstSlots(c: Conn, caps: Caps, env: Env)
    requires First(c, caps, env).ok
    ensures var w, s := c.wishes, First(c, caps, env).slots;
            && s.ctm == (if caps.ctm && (Ctm in w.committed || (SetsUp(c, env) && !w.ctmIdentity))
                         then env.first.ctm.Id() else 0)
            && s.gamma == (if GammaLut in w.committed && caps.gamma && !w.gammaEmpty then env.first.gamma.Id() else 0)
            && s.hdr == (if Hdr in w.committed && caps.hdr && w.hdrEotf then env.first.hdr.Id() else 0)
  {
    SetsUpIsModeset(c, env);
    A.ColourSlots(c.pipe.slots, JobOf(c, caps, env, Modeset(c, env)), A.NO_BLOBS, env.first);
    hide A.Commit, SetsUp, Modeset;
  }

  lemma SecondSlots(c: Conn, caps: Caps, env: Env)
    requires Second(c, caps, env).ok && Retries(c, env, First(c, caps, env))
    ensures var w, s := c.wishes, Second(c, caps, env).slots;
            && s.ctm == (if caps.ctm && Ctm in w.committed then env.second.ctm.Id() else 0)
            && s.gamma == (if GammaLut in w.committed && caps.gamma && !w.gammaEmpty then env.second.gamma.Id() else 0)
            && s.hdr == (if Hdr in w.committed && caps.hdr && w.hdrEotf then env.second.hdr.Id() else 0)
  {
    var o := First(c, caps, env);
    RetryIsClean(c, caps, env);
    A.ColourSlots(o.slots, JobOf(c, caps, env, true), o.blobs, env.second);
    hide A.Commit, Modeset;
  }

  /**
   What an accepted commit leaves on the CRTC: the matrix, the table and the metadata that were committed and that
   the hardware supports, as the blobs the kernel made for them; nothing where nothing was committed, but for the
   matrix, which a set-up puts in place again.
   */
  lemma CommittedColours(c: Conn, caps: Caps, onlyTest: bool, env: Env)
    requires CommitState(c, caps, onlyTest, env).ok
    ensures var w, a, s := c.wishes, Final(c, caps, env), CommitState(c, caps, onlyTest, env).conn.pipe.slots;
            && s.ctm == (if caps.ctm && (Ctm in w.committed || (SetsUp(c, env) && !w.ctmIdentity))
                         then a.ctm.Id() else 0)
            && s.gamma == (if GammaLut in w.committed && caps.gamma && !w.gammaEmpty then a.gamma.Id() else 0)
            && s.hdr == (if Hdr in w.committed && caps.hdr && w.hdrEotf then a.hdr.Id() else 0)
  {
    var o, o' := First(c, caps, env), Second(c, caps, env);
    CommitExactly(c, caps, onlyTest, env);
    RefusesUnlessAdmissible(c, caps, onlyTest, env);
    SetsUpIsModeset(c, env);
    AttemptsTaken(c, caps, env);
    SettledBlobs(c, onlyTest, env, o, o');
    if o.ok {
      FirstSlots(c, caps, env);
    } else {
      SecondSlots(c, caps, env);
    }
    hide First, Second, SetsUp, Modeset, Refuses, Settled, Taken, Admissible;
  }

  /** The wishes an attempt makes the blob `id` for; `matrix` says that the matrix is one of them. */
  predicate Wished(w: Wishes, caps: Caps, modeset: bool, matrix: bool, a: A.Answers, id: nat) {
    || (a.mode == A.Made(id) && modeset && w.enabled)
    || (a.gamma == A.Made(id) && GammaLut in w.committed && caps.gamma && !w.gammaEmpty)
    || (a.degamma == A.Made(id) && DegammaLut in w.committed && caps.degamma && !w.degammaEmpty)
    || (a.ctm == A.Made(id) && caps.ctm && matrix)
    || (a.hdr == A.Made(id) && Hdr in w.committed && caps.hdr && w.hdrEotf)
    || (a.damage == A.Made(id) && Damage in w.committed && caps.damage && !w.damageEmpty)
  }

  lemma JobWishes(c: Conn, caps: Caps, env: Env, modeset: bool)
    requires SetsUp(c, env) ==> modeset
    ensures var w, j := c.wishes, JobOf(c, caps, env, modeset);
            && j.modeset == modeset && j.enabled == w.enabled && j.hasMode == w.hasMode
            && j.gamma == A.Lut(GammaLut in w.committed, caps.gamma, w.gammaEmpty)
            && j.degamma == A.Lut(DegammaLut in w.committed, caps.degamma, w.degammaEmpty)
            && j.ctmProp == caps.ctm
            && (j.ctmValue && (modeset || j.ctmCommitted) <==> Ctm in w.committed || (SetsUp(c, env) && !w.ctmIdentity))
            && j.hdrValue == j.hdrCommitted == (Hdr in w.committed) && j.hdrProp == caps.hdr && j.hdrEotf == w.hdrEotf
            && j.damageCommitted == (Damage in w.committed) && j.damageProp == caps.damage
            && j.damageEmpty == w.damageEmpty
  {
    hide SetsUp, Modeset;
    SetsUpIsModeset(c, env);
  }

  /** The wishes, as the fields of a job. */
  lemma WishedByJob(w: Wishes, caps: Caps, modeset: bool, matrix: bool, a: A.Answers, id: nat, j: A.Job)
    requires j.modeset == modeset && j.enabled == w.enabled && j.hasMode
    requires j.gamma == A.Lut(GammaLut in w.committed, caps.gamma, w.gammaEmpty)
    requires j.degamma == A.Lut(DegammaLut in w.committed, caps.degamma, w.degammaEmpty)
    requires j.ctmProp == caps.ctm && (matrix <==> j.ctmValue && (modeset || j.ctmCommitted))
    requires j.hdrValue == j.hdrCommitted == (Hdr in w.committed) && j.hdrProp == caps.hdr && j.hdrEotf == w.hdrEotf
    requires j.damageCommitted == (Damage in w.committed) && j.damageProp == caps.damage
             && j.damageEmpty == w.damageEmpty
    ensures Wished(w, caps, modeset, matrix, a, id) <==> A.Wanted(j, a, id)
  {
  }

  lemma JobMakes(c: Conn, caps: Caps, env: Env, modeset: bool, s: A.Slots, b: A.Blobs, a: A.Answers, id: nat)
    requires id != 0 && c.wishes.hasMode && (SetsUp(c, env) ==> modeset)
    ensures var w := c.wishes;
            id in A.Commit(s, JobOf(c, caps, env, modeset), b, a).created <==>
            && !(modeset && w.enabled && a.mode.Refused?)
            && Wished(w, caps, modeset, Ctm in w.committed || (SetsUp(c, env) && !w.ctmIdentity), a, id)
  {
    hide *;
    var w, j := c.wishes, JobOf(c, caps, env, modeset);
    A.MadeExactly(s, j, b, a, id);
    JobWishes(c, caps, env, modeset);
    WishedByJob(w, caps, modeset, Ctm in w.committed || (SetsUp(c, env) && !w.ctmIdentity), a, id, j);
  }

  /**
   The blobs both attempts of a commit make: one for each wish that is committed and supported, and for the mode and
   the matrix of a set-up; none once the mode blob is refused.
   */
  lemma AttemptsMake(c: Conn, caps: Caps, env: Env, id: nat)
    requires id != 0 && c.wishes.hasMode
    ensures var w, setsUp := c.wishes, SetsUp(c, env);
            id in First(c, caps, env).created <==>
            && !(setsUp && w.enabled && env.first.mode.Refused?)
            && Wished(w, caps, setsUp, Ctm in w.committed || (setsUp && !w.ctmIdentity), env.first, id)
    ensures var w, setsUp := c.wishes, SetsUp(c, env);
            id in Second(c, caps, env).created <==>
            && !(w.enabled && env.second.mode.Refused?)
            && Wished(w, caps, true, Ctm in w.committed || (setsUp && !w.ctmIdentity), env.second, id)
  {
    hide A.Commit, SetsUp, Modeset, Wished;
    SetsUpIsModeset(c, env);
    var o := First(c, caps, env);
    JobMakes(c, caps, env, Modeset(c, env), c.pipe.slots, A.NO_BLOBS, env.first, id);
    JobMakes(c, caps, env, true, o.slots, o.blobs, env.second, id);
  }

  lemma AttemptModes(c: Conn, caps: Caps, env: Env)
    requires c.pipe.slots.ownModeId || c.pipe.slots.mode == 0
    ensures var w, s, o := c.wishes, c.pipe.slots, First(c, caps, env);
            && (o.ok ==> o.slots.mode == if SetsUp(c, env) && (!w.enabled || w.buffer.None? || env.first.modeDiffers)
                                         then (if w.enabled then env.first.mode.Id() else 0) else s.mode)
            && (!o.ok ==> o.slots.mode == s.mode && (o.slots.ownModeId || s.mode == 0))
            && (!o.ok && !SetsUp(c, env) ==> !o.blobs.blobbed)
  {
    SetsUpIsModeset(c, env);
    var j := JobOf(c, caps, env, Modeset(c, env));
    var o := First(c, caps, env);
    A.CommitSlots(c.pipe.slots, j, A.NO_BLOBS, env.first);
    if o.ok {
      A.AcceptedExactly(c.pipe.slots, j, A.NO_BLOBS, env.first);
      A.ModeSlot(c.pipe.slots, j, A.NO_BLOBS, env.first);
    } else if !SetsUp(c, env) {
      A.RefusedUnplaced(c.pipe.slots, j, A.NO_BLOBS, env.first);
    }
    hide A.Commit, SetsUp, Modeset, A.Prepare;
  }

  lemma RetryMode(c: Conn, caps: Caps, env: Env)
    requires var o := First(c, caps, env);
             Second(c, caps, env).ok && !o.blobs.blobbed && (o.slots.ownModeId || o.slots.mode == 0)
    ensures var w, o := c.wishes, First(c, caps, env);
            Second(c, caps, env).slots.mode == if !w.enabled || w.buffer.None? || env.second.modeDiffers
                                               then (if w.enabled then env.second.mode.Id() else 0) else o.slots.mode
  {
    var o := First(c, caps, env);
    A.AcceptedExactly(o.slots, JobOf(c, caps, env, true), o.blobs, env.second);
    A.ModeSlot(o.slots, JobOf(c, caps, env, true), o.blobs, env.second);
    hide A.Commit, Modeset;
  }

  /**
   The mode blob: a set-up, or a retry, leaves the one made for it, none for a dark output, and the old one when a lit
   output runs the very mode already.
   */
  lemma CommittedMode(c: Conn, caps: Caps, onlyTest: bool, env: Env)
    requires CommitState(c, caps, onlyTest, env).ok && (c.pipe.slots.ownModeId || c.pipe.slots.mode == 0)
    ensures var w, a, mode := c.wishes, Final(c, caps, env), CommitState(c, caps, onlyTest, env).conn.pipe.slots.mode;
            var retried := !Taken(w, caps, SetsUp(c, env), env.first);
            mode == if (SetsUp(c, env) || retried) && (!w.enabled || w.buffer.None? || a.modeDiffers)
                    then (if w.enabled then a.mode.Id() else 0) else c.pipe.slots.mode
  {
    var o, o' := First(c, caps, env), Second(c, caps, env);
    CommitExactly(c, caps, onlyTest, env);
    RefusesUnlessAdmissible(c, caps, onlyTest, env);
    SetsUpIsModeset(c, env);
    AttemptsTaken(c, caps, env);
    SettledBlobs(c, onlyTest, env, o, o');
    AttemptModes(c, caps, env);
    if !o.ok {
      RetryMode(c, caps, env);
    }
    hide First, Second, SetsUp, Modeset, Refuses, Settled, Taken, Admissible;
  }

  // ----- framebuffers

  function PhaseOf(c: Conn): R.Phase { PipePhase(c.pipe) }

  function PipePhase(p: Pipe): R.Phase { R.Phase(p.screen, p.pending, p.accepted) }

  /** What an accepted commit does to the plane. */
  function Submission(t: Target, event: bool, torn: bool): R.Event {
    if !t.enabled then R.Disable else if torn then R.Torn(t.fb) else R.Submitted(t.fb, event)
  }

  /** The attempt that was accepted asked for a flip event: the retry always does. */
  predicate EventAsked(c: Conn, caps: Caps, env: Env) {
    if FirstRefused(c, caps, env) then true else AsksEvent(c.wishes, false)
  }

  /** What this commit does to the plane when it is accepted. */
  function PlaneEvent(c: Conn, caps: Caps, env: Env): R.Event {
    Submission(TargetOf(c.wishes), EventAsked(c, caps, env), Tears(c, caps, env))
  }

  /** A tearing commit of a lit output; the retry never tears. */
  predicate Tears(c: Conn, caps: Caps, env: Env) {
    c.wishes.enabled && AsksAsync(c.wishes, false, env) && !FirstRefused(c, caps, env)
  }

  lemma AttemptRotates(p: Pipe, t: Target, o: A.Outcome, onlyTest: bool, event: bool)
    requires t.enabled || t.fb.None?
    ensures PipePhase(Attempted(p, t, o, onlyTest, event)) ==
            if !o.ok || onlyTest then PipePhase(p) else R.Step(PipePhase(p), Submission(t, event, false))
  {
    assert Elements<nat>(None) - R.Held(p.screen) == {};
  }

  lemma SettledTestKeepsPhase(c: Conn, env: Env, o: A.Outcome, o': A.Outcome)
    ensures PhaseOf(Settled(c, true, env, o, o').conn) == PhaseOf(c)
  {
  }

  lemma AttemptTears(p: Pipe, t: Target, o: A.Outcome)
    requires t.enabled && o.ok
    ensures var p' := Attempted(p, t, o, false, true);
            PipePhase(p'.(screen := R.Present(p'.screen))) == R.Step(PipePhase(p), Submission(t, true, true))
  {
  }

  /** On the plane, a commit is nothing, one submission, or one disable, through the retry as well. */
  lemma SettledRotates(c: Conn, env: Env, o: A.Outcome, o': A.Outcome, asked: bool, torn: bool)
    requires asked == if o.ok then AsksEvent(c.wishes, false) else true
    requires torn == (c.wishes.enabled && AsksAsync(c.wishes, false, env) && o.ok)
    ensures var r := Settled(c, false, env, o, o');
            PhaseOf(r.conn) ==
            if r.ok then R.Step(PhaseOf(c), Submission(TargetOf(c.wishes), asked, torn)) else PhaseOf(c)
  {
    hide R.Step;
    var t := TargetOf(c.wishes);
    var first := Attempted(c.pipe, t, o, false, AsksEvent(c.wishes, false));
    AttemptRotates(c.pipe, t, o, false, AsksEvent(c.wishes, false));
    AttemptRotates(first, t, o', false, true);
    if o.ok && !t.enabled {
      DarkPresent(c.pipe, t, o, AsksEvent(c.wishes, false));
    } else if torn {
      AttemptTears(c.pipe, t, o);
    }
    hide Attempted;
  }

  /** Presenting a cleared plane changes nothing. */
  lemma DarkPresent(p: Pipe, t: Target, o: A.Outcome, event: bool)
    requires o.ok && !t.enabled
    ensures var screen := Attempted(p, t, o, false, event).screen; R.Present(screen) == screen
  {
    hide A.LiveAfter;
  }

  lemma FirstOk(c: Conn, caps: Caps, env: Env)
    requires A.Nonzero(env.first)
    ensures First(c, caps, env).ok <==> !FirstRefused(c, caps, env)
  {
    A.LeaksNothing(JobOf(c, caps, env, Modeset(c, env)), A.NO_BLOBS, env.first);
  }

  /** The plane after any commit. */
  lemma CommitRotates(c: Conn, caps: Caps, onlyTest: bool, env: Env)
    requires Possible(c, caps, Commit(onlyTest, env))
    ensures var r := CommitState(c, caps, onlyTest, env);
            PhaseOf(r.conn) == if r.ok && !onlyTest then R.Step(PhaseOf(c), PlaneEvent(c, caps, env)) else PhaseOf(c)
  {
    if Refuses(c, caps, onlyTest, env) {
    } else if onlyTest {
      SettledTestKeepsPhase(c, env, First(c, caps, env), Second(c, caps, env));
    } else {
      FirstOk(c, caps, env);
      SettledRotates(c, env, First(c, caps, env), Second(c, caps, env), EventAsked(c, caps, env), Tears(c, caps, env));
      hide Settled, First, Second, FirstRefused, R.Step;
    }
  }

  /**
   From the wishes: an accepted commit submits the state's buffer, or clears a dark plane; it asks for an event when
   the buffer was committed, and always in a retry; it tears when the first attempt was taken, the buffer was
   committed for immediate presentation, and its format needs no set-up.
   */
  lemma CommitShows(c: Conn, caps: Caps, env: Env)
    requires Possible(c, caps, Commit(false, env)) && CommitState(c, caps, false, env).ok
    ensures var w, c' := c.wishes, CommitState(c, caps, false, env).conn;
            var first := Taken(w, caps, SetsUp(c, env), env.first);
            var e := if !w.enabled then R.Disable
                     else if first && w.immediate && Buffer in w.committed && !OtherFormat(w, env) then R.Torn(w.buffer)
                     else R.Submitted(w.buffer, Buffer in w.committed || !first);
            && PhaseOf(c') == R.Step(PhaseOf(c), e)
            && c'.pipe.outstanding
               == c.pipe.outstanding + if !first || (w.enabled && Buffer in w.committed) then 1 else 0
  {
    CommitExactly(c, caps, false, env);
    RefusesUnlessAdmissible(c, caps, false, env);
    AttemptsTaken(c, caps, env);
    SetsUpIsModeset(c, env);
    FirstOk(c, caps, env);
    CommitRotates(c, caps, false, env);
    SettledOwes(c, env, First(c, caps, env), Second(c, caps, env));
    hide First, Second, Refuses, Settled, Taken, Admissible, R.Step, FirstRefused, SetsUp, Modeset, PhaseOf, Mismatch,
        OtherFormat;
  }

  lemma SettledOwes(c: Conn, env: Env, o: A.Outcome, o': A.Outcome)
    ensures var r, w := Settled(c, false, env, o, o'), c.wishes;
            r.ok ==> r.conn.pipe.outstanding
                     == c.pipe.outstanding + if !o.ok || (w.enabled && Buffer in w.committed) then 1 else 0
  {
    hide Shown;
  }

  /** An accepted commit that is safe for the plane, a flip that brings up another buffer, and any other step. */
  predicate Rotates(c: Conn, caps: Caps, e: Event) {
    match e
    case Commit(onlyTest, env) =>
      CommitState(c, caps, onlyTest, env).ok && !onlyTest ==> R.Safe(PhaseOf(c), PlaneEvent(c, caps, env))
    case Flip => c.connected ==> Elements(c.pipe.screen.front) !! Elements(c.pipe.screen.back)
    case _ => true
  }

  predicate Rotating(c: Conn) { R.Sound(PhaseOf(c)) && (!c.connected ==> !c.pipe.pending) }

  lemma FlipRotates(c: Conn)
    requires Rotating(c) && c.pipe.outstanding > 0
    ensures R.Sound(PhaseOf(Flipped(c))) <==>
            (c.connected ==> Elements(c.pipe.screen.front) !! Elements(c.pipe.screen.back))
  {
    if c.connected {
      R.StepExact(PhaseOf(c), R.Flip);
    }
  }

  lemma DisconnectRotates(c: Conn)
    requires Rotating(c)
    ensures R.Sound(PhaseOf(Disconnected(c)))
  {
    if c.connected {
      R.StepExact(PhaseOf(c), R.Disconnect);
    }
  }

  lemma OffStaysQuiet(c: Conn, caps: Caps, e: Event)
    requires Rotating(c) && Possible(c, caps, e)
    ensures !Step(c, caps, e).connected ==> !Step(c, caps, e).pipe.pending
  {
    hide R.Sound, Settled;
    if e.Commit? && !Refuses(c, caps, e.onlyTest, e.env) {
      CommitKeepsConnected(c, e.onlyTest, e.env, First(c, caps, e.env), Second(c, caps, e.env));
    }
  }

  lemma CommitKeepsConnected(c: Conn, onlyTest: bool, env: Env, o: A.Outcome, o': A.Outcome)
    ensures Settled(c, onlyTest, env, o, o').conn.connected == c.connected
  {
    hide Attempted;
  }

  /** The exact condition of any step. */
  lemma StepRotatesExactly(c: Conn, caps: Caps, e: Event)
    requires Rotating(c) && Possible(c, caps, e)
    ensures Rotating(Step(c, caps, e)) <==> Rotates(c, caps, e)
  {
    OffStaysQuiet(c, caps, e);
    match e {
      case Client(edit) =>
      case Commit(onlyTest, env) =>
        CommitRotates(c, caps, onlyTest, env);
        R.StepExact(PhaseOf(c), PlaneEvent(c, caps, env));
        hide CommitState, R.Sound, R.Safe, R.Step, Possible, PlaneEvent;
      case Flip => FlipRotates(c);
      case Disconnect => DisconnectRotates(c);
      case Connect =>
    }
  }

  predicate RotatesRun(c: Conn, caps: Caps, events: seq<Event>)
    requires PossibleRun(c, caps, events)
    decreases |events|
  {
    events == [] || (Rotates(c, caps, events[0]) && RotatesRun(Step(c, caps, events[0]), caps, events[1..]))
  }

  predicate AlwaysRotating(c: Conn, caps: Caps, events: seq<Event>)
    requires PossibleRun(c, caps, events)
    decreases |events|
  {
    Rotating(c) && (events == [] || AlwaysRotating(Step(c, caps, events[0]), caps, events[1..]))
  }

  /** Over every run the plane is sound all along if and only if every commit and every flip is safe for it. */
  lemma {:induction false} RunRotatesExactly(c: Conn, caps: Caps, events: seq<Event>)
    requires Rotating(c) && PossibleRun(c, caps, events)
    ensures AlwaysRotating(c, caps, events) <==> RotatesRun(c, caps, events)
    decreases |events|
  {
    hide Rotating, Rotates, Step;
    if events == [] {
    } else {
      StepRotatesExactly(c, caps, events[0]);
      if Rotates(c, caps, events[0]) {
        RunRotatesExactly(Step(c, caps, events[0]), caps, events[1..]);
      } else {
        assert !AlwaysRotating(Step(c, caps, events[0]), caps, events[1..]);
      }
    }
  }

  lemma StartRotates(caps: Caps, events: seq<Event>)
    requires PossibleRun(START, caps, events)
    ensures AlwaysRotating(START, caps, events) <==> RotatesRun(START, caps, events)
  {
    RunRotatesExactly(START, caps, events);
  }

  predicate CommitsRotate(c: Conn, caps: Caps, events: seq<Event>)
    requires PossibleRun(c, caps, events)
    decreases |events|
  {
    events == []
    || ((events[0].Commit? ==> Rotates(c, caps, events[0]))
        && CommitsRotate(Step(c, caps, events[0]), caps, events[1..]))
  }

  /** While the flip flag knows of the one event owed, no flip is at fault: the commits alone decide. */
  lemma {:induction false} CarefulRunRotates(c: Conn, caps: Caps, events: seq<Event>)
    requires Rotating(c) && OneFlip(c) && Tracked(c) && PossibleRun(c, caps, events) && CarefulRun(c, caps, events)
    ensures AlwaysRotating(c, caps, events) <==> CommitsRotate(c, caps, events)
    decreases |events|
  {
    if events == [] {
    } else {
      var e := events[0];
      if !e.Commit? {
        OwedFlip(c, caps, e);
      }
      StepRotatesExactly(c, caps, e);
      StepKeepsOneFlip(c, caps, e);
      StepKeepsTracked(c, caps, e);
      hide Rotating, Rotates, Step, OneFlip, Tracked, Careful, Possible;
      if Rotates(c, caps, e) {
        CarefulRunRotates(Step(c, caps, e), caps, events[1..]);
      } else {
        assert !AlwaysRotating(Step(c, caps, e), caps, events[1..]);
      }
    }
  }

  lemma OwedFlip(c: Conn, caps: Caps, e: Event)
    requires Rotating(c) && OneFlip(c) && Possible(c, caps, e) && !e.Commit?
    ensures Rotates(c, caps, e)
  {
  }

  // ----- what a client sees of that condition

  /**
   A state without the buffer bit repeats the buffer of the last accepted commit, unless the plane was cleared
   since.
   */
  predicate Remembers(c: Conn) {
    if c.connected then
      c.wishes.CarriesBuffer() || c.wishes.buffer == c.pipe.screen.back
      || (c.pipe.screen.back.None? && c.pipe.screen.front.None?)
    else c.pipe.screen.back.None? && c.pipe.screen.front.None?
  }

  lemma AttemptRemembers(c: Conn, t: Target, o: A.Outcome, onlyTest: bool, event: bool)
    requires t == TargetOf(c.wishes) && c.connected && Remembers(c)
    ensures var p := Attempted(c.pipe, t, o, onlyTest, event);
            if o.ok && !onlyTest then
              if t.enabled then p.screen.back == c.wishes.buffer else p.screen.back.None? && p.screen.front.None?
            else p.screen == c.pipe.screen
  {
  }

  lemma ConcludedRemembers(c: Conn, env: Env, onlyTest: bool, pipe: Pipe, ok: bool, tainted: bool, async: bool)
    requires Remembers(c) && c.connected
    requires if ok && !onlyTest then
               if c.wishes.enabled then pipe.screen.back == c.wishes.buffer
               else pipe.screen.back.None? && pipe.screen.front.None?
             else pipe.screen == c.pipe.screen
    ensures Remembers(Concluded(c, env, onlyTest, pipe, ok, tainted, async))
  {
  }

  lemma SettledRemembers(c: Conn, onlyTest: bool, env: Env, o: A.Outcome, o': A.Outcome)
    requires Remembers(c) && c.connected
    ensures Remembers(Settled(c, onlyTest, env, o, o').conn)
  {
    var w, t := c.wishes, TargetOf(c.wishes);
    var first := Attempted(c.pipe, t, o, onlyTest, AsksEvent(w, onlyTest));
    AttemptRemembers(c, t, o, onlyTest, AsksEvent(w, onlyTest));
    if Retries(c, env, o) {
      var second := Attempted(first, t, o', onlyTest, !onlyTest);
      AttemptRemembers(c.(pipe := first), t, o', onlyTest, !onlyTest);
      ConcludedRemembers(c, env, onlyTest, second, o'.ok, c.tainted || !o'.ok, false);
    } else {
      ConcludedRemembers(c, env, onlyTest, first, o.ok, c.tainted, AsksAsync(w, onlyTest, env));
    }
    hide Attempted, Concluded, Remembers;
  }

  lemma CommitRemembers(c: Conn, caps: Caps, onlyTest: bool, env: Env)
    requires Remembers(c)
    ensures Remembers(CommitState(c, caps, onlyTest, env).conn)
  {
    hide Settled, First, Second, Remembers;
    if !Refuses(c, caps, onlyTest, env) {
      SettledRemembers(c, onlyTest, env, First(c, caps, env), Second(c, caps, env));
    }
  }

  lemma EditedBuffer(w: Wishes, edit: Edit)
    ensures Edited(w, edit).CarriesBuffer() || (!w.CarriesBuffer() && Edited(w, edit).buffer == w.buffer)
  {
  }

  lemma EditRemembers(c: Conn, edit: Edit)
    requires Remembers(c) && c.connected
    ensures Remembers(c.(wishes := Edited(c.wishes, edit)))
  {
    EditedBuffer(c.wishes, edit);
    hide Edited;
  }

  lemma HotplugRemembers(c: Conn)
    requires Remembers(c)
    ensures Remembers(Connected(c)) && Remembers(Disconnected(c))
  {
  }

  lemma FlipRemembers(c: Conn)
    requires Remembers(c) && c.pipe.outstanding > 0
    ensures Remembers(Flipped(c))
  {
  }

  lemma StepRemembers(c: Conn, caps: Caps, e: Event)
    requires Remembers(c) && (e.Flip? ==> c.pipe.outstanding > 0)
    ensures Remembers(Step(c, caps, e))
  {
    hide Remembers, CommitState, Flipped, Disconnected, Connected, Edited;
    match e {
      case Client(edit) =>
        if c.connected {
          EditRemembers(c, edit);
        }
      case Commit(onlyTest, env) => CommitRemembers(c, caps, onlyTest, env);
      case Flip => FlipRemembers(c);
      case Disconnect => HotplugRemembers(c);
      case Connect => HotplugRemembers(c);
    }
  }

  lemma {:induction false} RunRemembers(c: Conn, caps: Caps, events: seq<Event>)
    requires Remembers(c) && PossibleRun(c, caps, events)
    ensures Remembers(Run(c, caps, events))
    decreases |events|
  {
    hide Remembers, Step;
    if events == [] {
    } else {
      StepRemembers(c, caps, events[0]);
      RunRemembers(Step(c, caps, events[0]), caps, events[1..]);
    }
  }

  /**
   In every reachable state with a sound plane, an enabled commit without the buffer bit is safe for the plane if
   and only if it was not retried, or what it repeats is not on screen.
   */
  lemma RepeatedBuffer(c: Conn, caps: Caps, env: Env)
    requires Rotating(c) && Remembers(c) && c.connected && c.wishes.enabled && !c.wishes.CarriesBuffer()
    ensures R.Safe(PhaseOf(c), PlaneEvent(c, caps, env))
            <==> !FirstRefused(c, caps, env) || Elements(c.pipe.screen.front) !! Elements(c.wishes.buffer)
  {
  }

  /**
   A commit of a buffer with no flip pending is safe if and only if it does not tear, the buffer is not on screen,
   and what waits is nothing, on screen, or this very buffer.
   */
  lemma NewBuffer(c: Conn, caps: Caps, env: Env)
    requires Rotating(c) && c.connected && c.wishes.enabled && c.wishes.CarriesBuffer() && c.wishes.buffer.Some?
             && !c.pipe.pending
    ensures var s, b := c.pipe.screen, c.wishes.buffer;
            R.Safe(PhaseOf(c), PlaneEvent(c, caps, env))
            <==> !Tears(c, caps, env) && s.front != b && (s.back.None? || s.back == s.front || s.back == b)
  {
    hide FirstRefused;
  }

  // ----- runs of buffers only

  /** Vsync commits of a buffer that is not on screen, and disables with no flip pending. */
  predicate Plain(c: Conn, caps: Caps, e: Event) {
    match e
    case Commit(onlyTest, env) =>
      var w := c.wishes;
      onlyTest || Refuses(c, caps, onlyTest, env)
      || (if w.enabled then !w.immediate && w.CarriesBuffer() && w.buffer != c.pipe.screen.front else !c.pipe.pending)
    case _ => Careful(c, caps, e)
  }

  predicate PlainRun(c: Conn, caps: Caps, events: seq<Event>)
    requires PossibleRun(c, caps, events)
    decreases |events|
  {
    events == [] || (Plain(c, caps, events[0]) && PlainRun(Step(c, caps, events[0]), caps, events[1..]))
  }

  lemma PlainIsCareful(c: Conn, caps: Caps, e: Event)
    requires Tracked(c) && Plain(c, caps, e) && (e.Commit? ==> !e.onlyTest && !Refuses(c, caps, e.onlyTest, e.env))
    ensures Careful(c, caps, e)
  {
    if e.Commit? {
      CarefulClient(c, caps, e.onlyTest, e.env);
    }
  }

  lemma PlainCommit(c: Conn, caps: Caps, onlyTest: bool, env: Env)
    requires R.Good(PhaseOf(c)) && OneFlip(c) && Tracked(c)
    requires Possible(c, caps, Commit(onlyTest, env)) && Plain(c, caps, Commit(onlyTest, env))
    ensures R.Good(PhaseOf(CommitState(c, caps, onlyTest, env).conn))
  {
    if Refuses(c, caps, onlyTest, env) {
    } else if onlyTest {
      SettledTestKeepsPhase(c, env, First(c, caps, env), Second(c, caps, env));
    } else {
      CommitRotates(c, caps, onlyTest, env);
      PlainEvent(c, caps, env);
      if CommitState(c, caps, onlyTest, env).ok {
        R.StepKeepsGood(PhaseOf(c), PlaneEvent(c, caps, env));
      }
      hide CommitState, PlaneEvent, R.Step, R.Good, R.Allowed;
    }
  }

  lemma PlainEvent(c: Conn, caps: Caps, env: Env)
    requires Plain(c, caps, Commit(false, env)) && !Refuses(c, caps, false, env)
    ensures R.Allowed(PhaseOf(c), PlaneEvent(c, caps, env))
  {
    hide FirstRefused;
  }

  /** `RunKeepsGood` of the plane: nothing is locked but front and back, and without a flip pending nothing waits. */
  predicate RotatingPlainly(c: Conn) {
    R.Good(PhaseOf(c)) && OneFlip(c) && Tracked(c) && (!c.connected ==> !c.pipe.pending)
  }

  lemma StepKeepsRotating(c: Conn, caps: Caps, e: Event)
    requires RotatingPlainly(c) && Possible(c, caps, e) && Plain(c, caps, e)
    ensures RotatingPlainly(Step(c, caps, e))
  {
    R.GoodIsSound(PhaseOf(c));
    StepKeepsTracked(c, caps, e);
    PlainKeepsOneFlip(c, caps, e);
    OffStaysQuiet(c, caps, e);
    match e {
      case Client(edit) =>
      case Commit(onlyTest, env) =>
        PlainCommit(c, caps, onlyTest, env);
        hide CommitState, R.Good;
      case Flip =>
        if c.connected {
          R.StepKeepsGood(PhaseOf(c), R.Flip);
        }
      case Disconnect =>
        if c.connected {
          R.StepKeepsGood(PhaseOf(c), R.Disconnect);
        }
      case Connect =>
    }
  }

  lemma PlainKeepsOneFlip(c: Conn, caps: Caps, e: Event)
    requires OneFlip(c) && Tracked(c) && Possible(c, caps, e) && Plain(c, caps, e)
    ensures OneFlip(Step(c, caps, e))
  {
    if e.Commit? && !e.onlyTest && !Refuses(c, caps, e.onlyTest, e.env) {
      PlainIsCareful(c, caps, e);
    }
    StepKeepsOneFlip(c, caps, e);
  }

  /** Every such run keeps the rotation: see PlaneRotation.Good. */
  lemma {:induction false} RunKeepsRotating(c: Conn, caps: Caps, events: seq<Event>)
    requires RotatingPlainly(c) && PossibleRun(c, caps, events) && PlainRun(c, caps, events)
    ensures RotatingPlainly(Run(c, caps, events))
    decreases |events|
  {
    hide RotatingPlainly, Plain, Step;
    if events == [] {
    } else {
      StepKeepsRotating(c, caps, events[0]);
      RunKeepsRotating(Step(c, caps, events[0]), caps, events[1..]);
    }
  }

  lemma StartKeepsRotating(caps: Caps, events: seq<Event>)
    requires PossibleRun(START, caps, events) && PlainRun(START, caps, events)
    ensures RotatingPlainly(Run(START, caps, events))
  {
    RunKeepsRotating(START, caps, events);
  }

  // ----- the code

  /** Attempted, field by field. */
  lemma AttemptedFields(p: Pipe, t: Target, o: A.Outcome, onlyTest: bool, event: bool, p': Pipe)
    requires p'.slots == o.slots && p'.live == A.LiveAfter(p.live, o)
    requires !o.ok || onlyTest ==>
               p'.pending == p.pending && p'.screen == p.screen && p'.outstanding == p.outstanding
                   && p'.accepted == p.accepted
    requires o.ok && !onlyTest ==>
               && p'.pending == (p.pending || (t.fb.Some? && t.enabled && event))
               && p'.outstanding == p.outstanding + (if event then 1 else 0)
               && p'.accepted == p.accepted + multiset(Elements(t.fb) - R.Held(p.screen))
               && p'.screen == Shown(p.screen, t)
    ensures p' == Attempted(p, t, o, onlyTest, event)
  {
  }

  /** Settled, from the parts the code leaves. */
  lemma SettledParts(c: Conn, onlyTest: bool, env: Env, o: A.Outcome, o': A.Outcome,
                     retried: bool, ok: bool, pipe: Pipe, tainted: bool, async: bool)
    requires retried == Retries(c, env, o) && ok == (if retried then o'.ok else o.ok)
    requires var t := TargetOf(c.wishes); var first := Attempted(c.pipe, t, o, onlyTest, AsksEvent(c.wishes, onlyTest));
             pipe == if retried then Attempted(first, t, o', onlyTest, !onlyTest) else first
    requires tainted == (c.tainted || (retried && !ok)) && async == (AsksAsync(c.wishes, onlyTest, env) && !retried)
    ensures Settled(c, onlyTest, env, o, o') == Result(Concluded(c, env, onlyTest, pipe, ok, tainted, async), ok)
  {
    hide A.Commit, A.LiveAfter, Concluded;
  }

  /** SDRMConnector with its CDRMOutput and its CRTC. `outstanding` and `accepted` are the kernel's view. */
  class Connector {
    const caps: Caps
    const crtc: A.CrtcSlots
    const plane: R.PrimaryPlane
    const device: A.BlobDevice
    var connected: bool
    var wishes: Wishes
    var isPageFlipPending: bool
    var commitTainted: bool
    var lastCommitNoBuffer: bool
    var enabledState: bool
    ghost var outstanding: nat
    ghost var accepted: multiset<nat>

    ghost function PipeValue(): Pipe
      reads this, crtc, plane, device
    {
      Pipe(isPageFlipPending, crtc.Value(), plane.Value(), device.live, outstanding, accepted)
    }

    ghost function Value(): Conn
      reads this, crtc, plane, device
    {
      Conn(connected, wishes, lastCommitNoBuffer, commitTainted, enabledState, PipeValue())
    }

    constructor (caps: Caps)
      ensures Value() == START && this.caps == caps && fresh(crtc) && fresh(plane) && fresh(device)
    {
      this.caps := caps;
      crtc := new A.CrtcSlots();
      plane := new R.PrimaryPlane();
      device := new A.BlobDevice();
      connected, wishes := false, DEFAULT_WISHES;
      isPageFlipPending, commitTainted, lastCommitNoBuffer, enabledState := false, false, true, true;
      outstanding, accepted := 0, multiset{};
    }

    method ApplyCommit(fb: Option<nat>)
      modifies this`enabledState, plane
      ensures enabledState == wishes.enabled
      ensures plane.Value() == Shown(old(plane.Value()), Target(fb, wishes.enabled))
    {
      plane.SubmitFb(fb);
      enabledState := wishes.enabled;
      if !enabledState {
        plane.ReleaseFbReferences();
      }
    }

    /** The kernel owes an event when asked for one; the flag goes up when there is a buffer to flip to. */
    method ExpectFlip(fb: Option<nat>, event: bool)
      modifies this`isPageFlipPending, this`outstanding, this`accepted
      ensures isPageFlipPending == (old(isPageFlipPending) || (fb.Some? && wishes.enabled && event))
      ensures outstanding == old(outstanding) + (if event then 1 else 0)
      ensures accepted == old(accepted) + multiset(Elements(fb) - R.Held(plane.Value()))
    {
      if event {
        outstanding := outstanding + 1;
      }
      if fb.Some? && wishes.enabled && event {
        isPageFlipPending := true;
      }
      accepted := accepted + multiset(Elements(fb) - R.Held(plane.Value()));
    }

    /** SDRMConnector::commitState around CDRMAtomicImpl::commit. */
    method ConnectorCommit(j: A.Job, b: A.Blobs, a: A.Answers, onlyTest: bool, event: bool, ghost o: A.Outcome)
      returns (ok: bool, data: A.Blobs)
      requires A.Nonzero(a) && o == A.Commit(crtc.Value(), j, b, a)
      modifies this`enabledState, this`isPageFlipPending, this`outstanding, this`accepted, crtc, plane, device
      ensures ok == o.ok && data == o.blobs && crtc.Value() == o.slots
      ensures PipeValue() == Attempted(old(PipeValue()), TargetOf(wishes), o, onlyTest, event)
      ensures enabledState == if ok && !onlyTest then wishes.enabled else old(enabledState)
    {
      hide A.Commit, A.LiveAfter, Shown, MainFb, Elements;
      var fb := MainFb(wishes);
      ok, data := crtc.ImplCommit(device, j, b, a);
      if ok && !onlyTest {
        ExpectFlip(fb, event);
        ApplyCommit(fb);
      }
      AttemptedFields(old(PipeValue()), TargetOf(wishes), o, onlyTest, event, PipeValue());
    }

    /** The checks commitState makes before it builds the commit data. */
    method Check(onlyTest: bool, env: Env) returns (ok: bool)
      ensures ok <==> !Refuses(Value(), caps, onlyTest, env)
    {
      if !connected || !env.sessionActive { return false; }
      if !env.hasCrtc { return false; }
      if Enabled in wishes.committed && wishes.enabled && !wishes.hasMode { return false; }
      if Format in wishes.committed && wishes.format !in caps.formats { return false; }
      if wishes.enabled && wishes.format == INVALID_FORMAT { return false; }
      if wishes.adaptiveSync && !caps.vrr { return false; }
      if wishes.immediate && !caps.async { return false; }
      if Buffer in wishes.committed && wishes.buffer.None? { return false; }
      if Buffer in wishes.committed && env.fb.Unimportable? { return false; }
      if !wishes.hasMode { return false; }
      if !onlyTest && wishes.enabled && (wishes.committed * RECONFIG != {} || Buffer in wishes.committed)
          && isPageFlipPending {
        return false;
      }
      if wishes.buffer.Some? && wishes.enabled && !env.fb.Imported? { return false; }
      return true;
    }

    /** The first attempt and the retry; `retried` says the flags of the commit data are the retry's. */
    method Attempt(job: A.Job, onlyTest: bool, event: bool, env: Env, ghost c: Conn, ghost o: A.Outcome,
        ghost o': A.Outcome)
      returns (ok: bool, retried: bool)
      requires A.Nonzero(env.first) && A.Nonzero(env.second)
      requires c.pipe == PipeValue() && c.tainted == commitTainted && TargetOf(c.wishes) == TargetOf(wishes)
      requires job.modeset == Modeset(c, env)
      requires o == A.Commit(crtc.Value(), job, A.NO_BLOBS, env.first)
      requires o' == A.Commit(o.slots, job.(modeset := true), o.blobs, env.second)
      modifies this`enabledState, this`isPageFlipPending, this`commitTainted, this`outstanding, this`accepted, crtc,
               plane, device
      ensures retried == Retries(c, env, o) && ok == (if retried then o'.ok else o.ok)
      ensures var first := Attempted(c.pipe, TargetOf(c.wishes), o, onlyTest, event);
              PipeValue() == if retried then Attempted(first, TargetOf(c.wishes), o', onlyTest, !onlyTest) else first
      ensures commitTainted == (c.tainted || (retried && !ok))
      ensures enabledState == if ok && !onlyTest then wishes.enabled else old(enabledState)
    {
      hide A.Commit, Attempted;
      var data;
      ok, data := ConnectorCommit(job, A.NO_BLOBS, env.first, onlyTest, event, o);
      retried := !ok && !job.modeset && !commitTainted;
      if retried {
        ok, data := ConnectorCommit(job.(modeset := true), data, env.second, onlyTest, !onlyTest, o');
        if !ok {
          commitTainted := true;
        }
      }
    }

    /** The end of commitState. */
    method Finish(onlyTest: bool, ok: bool, async: bool, env: Env, ghost c: Conn, ghost tainted: bool)
      requires c.connected == connected && wishes == Reformatted(c.wishes, env) && lastCommitNoBuffer == c.lastNoBuffer
      requires commitTainted == tainted
      requires enabledState == if ok && !onlyTest then wishes.enabled else c.enabledState
      modifies this`wishes, this`lastCommitNoBuffer, this`commitTainted, plane
      ensures Value() == Concluded(c, env, onlyTest, old(PipeValue()), ok, tainted, async)
    {
      if onlyTest || !ok {
        return;
      }
      wishes := Committed(wishes);
      lastCommitNoBuffer := MainFb(wishes).None?;
      commitTainted := false;
      if async {
        plane.OnPresent();
      }
    }

    /** The commit data and flags; a format mismatch changes the state's format on the way. */
    method BuildCommit(onlyTest: bool, env: Env) returns (job: A.Job, event: bool, async: bool)
      modifies this`wishes
      ensures wishes == Reformatted(old(wishes), env)
      ensures job == JobOf(old(Value()), caps, env, Modeset(old(Value()), env))
      ensures event == AsksEvent(old(wishes), onlyTest) && async == AsksAsync(old(wishes), onlyTest, env)
    {
      var needsReconfig, carriesBuffer := wishes.committed * RECONFIG != {}, Buffer in wishes.committed;
      event := !onlyTest && wishes.enabled && carriesBuffer;
      async := !onlyTest && wishes.immediate && carriesBuffer;
      var mismatch := Mismatch(wishes, env);
      var modeset := needsReconfig || lastCommitNoBuffer || mismatch;
      job := JobFor(wishes, caps, modeset, modeset);
      if mismatch {
        wishes := wishes.(format := env.fb.dmabufFormat.value, committed := wishes.committed + {Format});
        async := false;
      }
    }

    /** Everything after the commit data is built. */
    method Perform(job: A.Job, onlyTest: bool, event: bool, async: bool, env: Env, ghost c: Conn, ghost o: A.Outcome,
        ghost o': A.Outcome)
      returns (ok: bool)
      requires A.Nonzero(env.first) && A.Nonzero(env.second)
      requires Value() == c.(wishes := Reformatted(c.wishes, env)) && TargetOf(c.wishes) == TargetOf(wishes)
      requires job.modeset == Modeset(c, env)
      requires event == AsksEvent(c.wishes, onlyTest) && async == AsksAsync(c.wishes, onlyTest, env)
      requires o == A.Commit(crtc.Value(), job, A.NO_BLOBS, env.first)
      requires o' == A.Commit(o.slots, job.(modeset := true), o.blobs, env.second)
      modifies this, crtc, plane, device
      ensures Result(Value(), ok) == Settled(c, onlyTest, env, o, o')
    {
      hide A.Commit, A.LiveAfter, Attempted, Concluded, Settled, Retries, Modeset, AsksEvent, AsksAsync, Reformatted,
          TargetOf;
      var retried;
      ok, retried := Attempt(job, onlyTest, event, env, c, o, o');
      SettledParts(c, onlyTest, env, o, o', retried, ok, PipeValue(), commitTainted, async && !retried);
      Finish(onlyTest, ok, async && !retried, env, c, commitTainted);
    }

    /** CDRMOutput::commitState */
    method CommitOutput(onlyTest: bool, env: Env) returns (ok: bool)
      requires A.Nonzero(env.first) && A.Nonzero(env.second)
      modifies this, crtc, plane, device
      ensures Result(Value(), ok) == CommitState(old(Value()), caps, onlyTest, env)
    {
      hide A.Commit, Refuses, Settled, Modeset, AsksEvent, AsksAsync;
      ghost var c := Value();
      ok := Check(onlyTest, env);
      if ok {
        var job, event, async := BuildCommit(onlyTest, env);
        ok := Perform(job, onlyTest, event, async, env, c, First(c, caps, env), Second(c, caps, env));
      }
    }

    method HandlePageFlip()
      requires outstanding > 0
      modifies this`isPageFlipPending, this`outstanding, plane
      ensures Value() == Flipped(old(Value()))
    {
      outstanding := outstanding - 1;
      isPageFlipPending := false;
      if connected {
        plane.OnPresent();
      }
    }

    method Disconnect()
      modifies this`connected, this`isPageFlipPending, plane
      ensures Value() == Disconnected(old(Value()))
    {
      if !connected {
        return;
      }
      connected := false;
      plane.ReleaseFbReferences();
      isPageFlipPending := false;
    }

    method Connect()
      modifies this
      ensures Value() == Connected(old(Value()))
    {
      if connected {
        return;
      }
      connected, wishes, lastCommitNoBuffer, enabledState := true, DEFAULT_WISHES, true, true;
    }
  }
}
