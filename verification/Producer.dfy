/**
 The producer side of the Anland display protocol (src/backend/anland/display_producer.c): connecting to a
 consumer, falling back when it goes away, and who owns each descriptor meanwhile.

 The outcomes of system calls are parameters of each call. A call during which the connection falls also carries
 what the fallback callback does, which may be any calls of the interface.
 */
module Producer {
  import opened Options

  const MAX_BUFS := 8

  /** Descriptors received and not closed, those nothing refers to any more, and live mappings. */
  datatype Ledger = Ledger(open: multiset<int>, leaked: multiset<int>, bad: bool, maps: int)

  /** What belongs to the consumer: five descriptors, the mapping and the buffers. */
  datatype Link = Link(data: int, ready: int, fence: int, shm: int, audio: int, mapped: bool, dmabufs: seq<int>)

  const NO_LINK := Link(-1, -1, -1, -1, -1, false, [])

  datatype Ctx = Ctx(link: Link, pending: int, fallback: bool, inCallback: bool, callback: Option<nat>, l: Ledger,
      falls: nat, ran: nat)

  const START := Ctx(NO_LINK, -1, true, false, None, Ledger(multiset{}, multiset{}, false, 0), 0, 0)

  /** recvmsg: the number of bytes, what they say, and the descriptors that came along. */
  datatype Message = Message(n: int, whole: bool, typeOk: bool, fds: seq<nat>)

  datatype Pickup = Pickup(sent: bool, answered: bool, m: Message, mapOk: bool)
  datatype Offer = Offer(answered: bool, hup: bool, m: Message, count: nat, infosOk: bool)

  datatype Action =
    | TryExitFallback(p: Pickup, d: Offer)
    | Poll(readable: bool, hup: bool, react: Script)
    | PollFds(readable: bool, hup: bool, m: Message, max: nat, react: Script)
    | Push(sent: bool, react: Script)
    | SetRenderFence(fd: int)
    | TriggerRefresh
    | SetCallback(cb: Option<nat>)

  datatype Script = Done | Then(call: Action, rest: Script)

  // ----- descriptors

  function One(fd: int): multiset<int> { if fd >= 0 then multiset{fd} else multiset{} }

  function Bag(fds: seq<int>, n: nat): multiset<int>
    requires n <= |fds|
    decreases n
  {
    if n == 0 then multiset{} else Bag(fds, n - 1) + One(fds[n - 1])
  }

  function All(fds: seq<int>): multiset<int> { Bag(fds, |fds|) }

  function Receive(l: Ledger, bag: multiset<int>): Ledger { l.(open := l.open + bag) }

  /** Closing what is not open is what must never happen. */
  function Close(l: Ledger, bag: multiset<int>): Ledger { l.(open := l.open - bag, bad := l.bad || !(bag <= l.open)) }

  function HeldBy(k: Link): multiset<int> {
    All(k.dmabufs) + One(k.data) + One(k.ready) + One(k.fence) + One(k.audio) + One(k.shm)
  }

  function Held(c: Ctx): multiset<int> { HeldBy(c.link) + One(c.pending) }

  function Unmap(l: Ledger, mapped: bool): Ledger { l.(maps := l.maps - if mapped then 1 else 0) }

  function NoFence(pending: int): int { if pending >= 0 then -1 else pending }

  function Release(c: Ctx): Ctx {
    c.(link := NO_LINK, pending := NoFence(c.pending), l := Unmap(Close(c.l, Held(c)), c.link.mapped))
  }

  /** recv_fds: at most `max` descriptors, none on failure. */
  function Received(m: Message, max: nat): (r: seq<int>)
    ensures |r| <= max && forall i :: 0 <= i < |r| ==> r[i] >= 0
  {
    if m.n <= 0 then [] else if |m.fds| <= max then m.fds else m.fds[..max]
  }

  /** The five descriptors in the order of the message, and the mapping when mmap succeeds. */
  function LinkedUp(c: Ctx, fds: seq<int>, mapOk: bool): Ctx
    requires |fds| == 5
  {
    var link := Link(fds[2], fds[0], fds[1], fds[3], fds[4], mapOk, c.link.dmabufs);
    c.(link := link, l := Receive(c.l, All(fds)).(maps := c.l.maps + if mapOk then 1 else 0))
  }

  function PickedUp(c: Ctx, p: Pickup): (Ctx, bool) {
    var fds := Received(p.m, 5);
    if !p.sent || !p.answered || p.m.n <= 0 then (c, false)
    else if !p.m.typeOk || |fds| < 5 then (c, false)
    else (LinkedUp(c, fds, p.mapOk), p.mapOk)
  }

  /** The request went out, and five descriptors of the right kind came back that can be mapped. */
  predicate PicksUp(p: Pickup) {
    p.sent && p.answered && p.m.n > 0 && p.m.typeOk && |p.m.fds| >= 5 && p.mapOk
  }

  /** A header cut short makes receive_dmabufs return without closing what came with it. */
  predicate ShortHeader(d: Offer) { d.answered && !d.hup && d.m.n > 0 && !d.m.whole && |Received(d.m, MAX_BUFS)| > 0 }

  function Leaking(c: Ctx, fds: seq<int>): Ctx { c.(l := Receive(c.l, All(fds)).(leaked := c.l.leaked + All(fds))) }

  function Holding(c: Ctx, fds: seq<int>): Ctx { c.(link := c.link.(dmabufs := fds), l := Receive(c.l, All(fds))) }

  function WithDmabufs(c: Ctx, d: Offer): (Ctx, bool) {
    var fds := Received(d.m, MAX_BUFS);
    if |c.link.dmabufs| > 0 then (c, true)
    else if !d.answered || d.hup || d.m.n <= 0 then (c, false)
    else if !d.m.whole || |fds| < 1 then
      (Leaking(c, fds), false)
    else if !d.m.typeOk || d.count != |fds| || d.count > MAX_BUFS || !d.infosOk then (c, false)
    else (Holding(c, fds), true)
  }

  function Exited(c: Ctx, p: Pickup, d: Offer): Ctx {
    if !c.fallback then c
    else
      var (c1, ok1) := PickedUp(c, p);
      if !ok1 then Release(c1)
      else
        var (c2, ok2) := WithDmabufs(c1, d);
        if !ok2 || |c2.link.dmabufs| == 0 then Release(c2) else c2.(fallback := false)
  }

  function DropFence(c: Ctx): Ctx {
    c.(pending := NoFence(c.pending), l := Close(c.l, One(c.pending)))
  }

  function WithFence(c: Ctx, fd: int): Ctx {
    c.(pending := fd, l := Receive(Close(c.l, One(c.pending)), One(fd)))
  }

  function Restored(c: Ctx, cb: nat): Ctx {
    c.(callback := if c.callback.None? then Some(cb) else c.callback, inCallback := false)
  }

  function Fallen(c: Ctx): Ctx { Release(c.(fallback := true, falls := c.falls + 1)) }

  function CallbackState(c: Ctx): Ctx { c.(inCallback := true, callback := None, ran := c.ran + 1) }

  function Enter(c: Ctx, react: Script): Ctx
    decreases react, 1
  {
    if c.fallback || c.inCallback then c
    else if c.callback.None? then Fallen(c)
    else Restored(Play(CallbackState(Fallen(c)), react), c.callback.value)
  }

  function Do(c: Ctx, a: Action): Ctx
    decreases a
  {
    match a
    case TryExitFallback(p, d) => Exited(c, p, d)
    case Poll(readable, hup, react) => if !c.fallback && readable && hup then Enter(c, react) else c
    case PollFds(readable, hup, m, max, react) => if !c.fallback && readable && hup then Enter(c, react) else c
    case Push(sent, react) => if !c.fallback && !sent then Enter(c, react) else c
    case SetRenderFence(fd) => WithFence(c, fd)
    case TriggerRefresh => DropFence(c)
    case SetCallback(cb) => c.(callback := cb)
  }

  function Play(c: Ctx, s: Script): Ctx
    decreases s, 0
  {
    match s
    case Done => c
    case Then(a, rest) => Play(Do(c, a), rest)
  }

  // ----- what holds at every boundary of the interface

  predicate Everything(k: Link) {
    && k.data >= 0 && k.ready >= 0 && k.fence >= 0 && k.shm >= 0 && k.audio >= 0 && k.mapped
    && Usable(k.dmabufs)
  }

  predicate Usable(dmabufs: seq<int>) {
    1 <= |dmabufs| <= MAX_BUFS && forall i :: 0 <= i < |dmabufs| ==> dmabufs[i] >= 0
  }

  /** Every open descriptor is held once or was leaked; nothing was closed that was not open. */
  predicate Balanced(c: Ctx) {
    && !c.l.bad && c.l.open == Held(c) + c.l.leaked
    && c.l.maps == if c.link.mapped then 1 else 0
  }

  predicate Good(c: Ctx) {
    && (if c.fallback then c.link == NO_LINK else Everything(c.link))
    && Balanced(c)
  }

  lemma NothingHeld()
    ensures HeldBy(NO_LINK) == multiset{}
  {
  }

  lemma ReleaseGood(c: Ctx)
    requires Balanced(c)
    ensures Release(c).link == NO_LINK && Balanced(Release(c)) && Held(Release(c)) == multiset{}
    ensures Release(c).l.leaked == c.l.leaked
  {
    assert Held(c) <= c.l.open;
    NothingHeld();
    hide HeldBy;
  }

  lemma BagOfFive(fds: seq<int>)
    requires |fds| == 5
    ensures All(fds) == One(fds[0]) + One(fds[1]) + One(fds[2]) + One(fds[3]) + One(fds[4])
  {
    assert Bag(fds, 3) == One(fds[0]) + One(fds[1]) + One(fds[2]);
  }

  lemma LinkOfFive(fds: seq<int>, mapped: bool)
    requires |fds| == 5
    ensures HeldBy(Link(fds[2], fds[0], fds[1], fds[3], fds[4], mapped, [])) == All(fds)
  {
    BagOfFive(fds);
    assert All([]) == multiset{};
    hide All, One;
  }

  lemma Gain(c: Ctx, link: Link, bag: multiset<int>, maps: int)
    requires Balanced(c) && HeldBy(link) == HeldBy(c.link) + bag && maps == if link.mapped then 1 else 0
    ensures Balanced(c.(link := link, l := Receive(c.l, bag).(maps := maps)))
  {
    hide HeldBy, One;
  }

  lemma LeakingBalanced(c: Ctx, fds: seq<int>)
    requires Balanced(c)
    ensures Balanced(Leaking(c, fds)) && Leaking(c, fds) == c.(l := Leaking(c, fds).l)
    ensures Leaking(c, fds).l.leaked == c.l.leaked + All(fds)
    ensures fds == [] ==> All(fds) == multiset{}
  {
    hide HeldBy, One;
  }

  lemma LinkedUpBalanced(c: Ctx, fds: seq<int>, mapOk: bool)
    requires c.link == NO_LINK && Balanced(c) && |fds| == 5 && forall i :: 0 <= i < 5 ==> fds[i] >= 0
    ensures var c' := LinkedUp(c, fds, mapOk);
            && Balanced(c') && c' == c.(link := c'.link, l := c'.l) && c'.l.leaked == c.l.leaked
            && c'.link.dmabufs == [] && Everything(c'.link.(dmabufs := [0], mapped := true)) && c'.link.mapped == mapOk
  {
    hide HeldBy, All, One, Held;
    NothingHeld();
    LinkOfFive(fds, mapOk);
    Gain(c, Link(fds[2], fds[0], fds[1], fds[3], fds[4], mapOk, []), All(fds), if mapOk then 1 else 0);
    assert c.l.maps == 0;
    hide Balanced;
  }

  lemma PickupBalanced(c: Ctx, p: Pickup)
    requires c.link == NO_LINK && Balanced(c)
    ensures PickedUp(c, p).1 <==> PicksUp(p)
    ensures var (c', ok) := PickedUp(c, p);
            && Balanced(c') && c' == c.(link := c'.link, l := c'.l) && c'.l.leaked == c.l.leaked
            && c'.link.dmabufs == []
            && (ok ==> Everything(c'.link.(dmabufs := [0])))
  {
    hide Balanced, LinkedUp;
    var fds := Received(p.m, 5);
    if |fds| == 5 {
      LinkedUpBalanced(c, fds, p.mapOk);
    }
  }

  lemma HeldWithBuffers(k: Link, fds: seq<int>)
    requires k.dmabufs == []
    ensures HeldBy(k.(dmabufs := fds)) == HeldBy(k) + All(fds)
  {
    assert All([]) == multiset{};
    hide All, One;
  }

  lemma HoldingBalanced(c: Ctx, fds: seq<int>)
    requires Balanced(c) && c.link.dmabufs == []
    ensures Balanced(Holding(c, fds)) && Holding(c, fds).l.leaked == c.l.leaked
    ensures Holding(c, fds) == c.(link := c.link.(dmabufs := fds), l := Holding(c, fds).l)
  {
    HeldWithBuffers(c.link, fds);
    Gain(c, c.link.(dmabufs := fds), All(fds), c.l.maps);
    hide HeldBy, All, One, Held;
  }

  lemma DmabufsBalanced(c: Ctx, d: Offer)
    requires Balanced(c) && c.link.dmabufs == []
    ensures var (c', ok) := WithDmabufs(c, d);
            && Balanced(c') && c' == c.(link := c.link.(dmabufs := c'.link.dmabufs), l := c'.l)
            && (ok ==> Usable(c'.link.dmabufs))
            && c'.l.leaked == c.l.leaked + if ShortHeader(d) then All(Received(d.m, MAX_BUFS)) else multiset{}
  {
    hide Balanced, Leaking, Holding, All;
    var fds := Received(d.m, MAX_BUFS);
    HoldingBalanced(c, fds);
    LeakingBalanced(c, fds);
  }

  /** Reconnecting succeeds whole or leaves nothing behind; the one way to leak is a header cut short. */
  lemma ExitGood(c: Ctx, p: Pickup, d: Offer)
    requires Good(c)
    ensures Good(Exited(c, p, d))
    ensures Exited(c, p, d).l.leaked
            == c.l.leaked + if c.fallback && PicksUp(p) && ShortHeader(d) then All(Received(d.m, MAX_BUFS))
                else multiset{}
  {
    hide Balanced, Release, PickedUp, PicksUp, WithDmabufs, ShortHeader;
    if c.fallback {
      PickupBalanced(c, p);
      var (c1, ok1) := PickedUp(c, p);
      if ok1 {
        DmabufsBalanced(c1, d);
        var (c2, ok2) := WithDmabufs(c1, d);
        if !ok2 {
          ReleaseGood(c2);
          ReleaseFlags(c2);
        } else {
          AlikeBalanced(c2);
        }
      } else {
        ReleaseGood(c1);
        ReleaseFlags(c1);
      }
    }
  }

  lemma ReleaseFlags(c: Ctx)
    ensures Release(c) == c.(link := NO_LINK, pending := NoFence(c.pending), l := Release(c).l)
  {
  }

  lemma AlikeBalanced(c: Ctx)
    requires Balanced(c)
    ensures Balanced(c.(fallback := false))
  {
  }

  lemma FallenGood(c: Ctx)
    requires Good(c)
    ensures Good(Fallen(c)) && Fallen(c).fallback && Fallen(c).l.leaked == c.l.leaked
  {
    ReleaseGood(c.(fallback := true, falls := c.falls + 1));
  }

  lemma FenceGood(c: Ctx, fd: int)
    requires Good(c)
    ensures Good(DropFence(c)) && Good(WithFence(c, fd))
  {
    hide HeldBy, Everything, Close, Receive, One;
    FenceBags(c.l, HeldBy(c.link), One(c.pending), One(fd));
    NoFenceHeld(c.pending);
    var d, w := DropFence(c), WithFence(c, fd);
    assert d.link == c.link && Held(d) == HeldBy(c.link) + multiset{};
    assert w.link == c.link && Held(w) == HeldBy(c.link) + One(fd);
  }

  lemma NoFenceHeld(pending: int)
    ensures One(NoFence(pending)) == multiset{}
  {
  }

  lemma FenceBags(l: Ledger, link: multiset<int>, was: multiset<int>, fence: multiset<int>)
    requires !l.bad && l.open == link + was + l.leaked
    ensures var d, w := Close(l, was), Receive(Close(l, was), fence);
            && !d.bad && d.open == link + multiset{} + d.leaked && d.maps == l.maps
            && !w.bad && w.open == link + fence + w.leaked && w.maps == l.maps
  {
  }

  /** Whatever the peer, the kernel and the callbacks do: connected means all of it is held, fallen back none. */
  lemma {:induction false} PlayGood(c: Ctx, s: Script)
    requires Good(c)
    ensures Good(Play(c, s))
    decreases s, 0
  {
    hide Good;
    match s {
      case Done =>
      case Then(a, rest) =>
        DoGood(c, a);
        PlayGood(Do(c, a), rest);
    }
  }

  lemma {:induction false} DoGood(c: Ctx, a: Action)
    requires Good(c)
    ensures Good(Do(c, a))
    decreases a
  {
    hide Good, Exited, Enter, WithFence, DropFence;
    match a {
      case TryExitFallback(p, d) => ExitGood(c, p, d);
      case Poll(_, _, react) => EnterGood(c, react);
      case PollFds(_, _, _, _, react) => EnterGood(c, react);
      case Push(_, react) => EnterGood(c, react);
      case SetRenderFence(fd) => FenceGood(c, fd);
      case TriggerRefresh => FenceGood(c, -1);
      case SetCallback(cb) => CallbackGood(c, cb, c.inCallback, c.ran);
    }
  }

  lemma FallenRan(c: Ctx)
    ensures Fallen(c).ran == c.ran && Fallen(c).callback == c.callback
  {
  }

  lemma CallbackGood(c: Ctx, cb: Option<nat>, inCallback: bool, ran: nat)
    requires Good(c)
    ensures Good(c.(callback := cb, inCallback := inCallback, ran := ran))
  {
    hide HeldBy, Everything;
  }

  lemma {:induction false} EnterGood(c: Ctx, react: Script)
    requires Good(c)
    ensures Good(Enter(c, react))
    decreases react, 1
  {
    hide Good, Fallen, Play;
    if !c.fallback && !c.inCallback {
      var f := Fallen(c);
      FallenGood(c);
      FallenRan(c);
      CallbackGood(f, None, true, c.ran + 1);
      var p := Play(CallbackState(f), react);
      PlayGood(CallbackState(f), react);
      if c.callback.Some? {
        CallbackGood(p, Restored(p, c.callback.value).callback, false, p.ran);
      }
    }
  }

  /** The whole life of a context, ended by disconnect: only what a cut header brought is still open. */
  lemma LifeGood(s: Script)
    ensures Good(Play(START, s))
    ensures var end := Release(Play(START, s)); !end.l.bad && end.l.open == end.l.leaked && end.l.maps == 0
  {
    NothingHeld();
    assert Good(START);
    hide Good, Balanced, Play;
    PlayGood(START, s);
    EndGood(Play(START, s));
  }

  lemma EndGood(c: Ctx)
    requires Good(c)
    ensures var end := Release(c); !end.l.bad && end.l.open == end.l.leaked && end.l.maps == 0
  {
    ReleaseGood(c);
    hide Release;
  }

  const FIVE := Pickup(true, true, Message(8, true, true, [10, 11, 12, 13, 14]), true)
  const CUT := Offer(true, false, Message(4, false, false, [15]), 0, false)

  lemma CutOffer()
    ensures PicksUp(FIVE) && ShortHeader(CUT) && All(Received(CUT.m, MAX_BUFS)) == multiset{15}
  {
    assert Received(CUT.m, MAX_BUFS) == [15];
    assert Bag([15], 0) == multiset{};
  }

  lemma CutFails()
    ensures var c := Exited(START, FIVE, CUT); c.fallback && c.link == NO_LINK && c.pending == -1
  {
    hide All, HeldBy, Receive, Close, Unmap;
  }

  /** A first connection attempt whose buffer message is cut short forgets the descriptor that came with it. */
  lemma CutHeaderLeaks()
    ensures var c := Play(START, Then(TryExitFallback(FIVE, CUT), Done));
            c.fallback && c.l.open == multiset{15} && c.l.leaked == multiset{15}
  {
    var c := Exited(START, FIVE, CUT);
    assert Play(START, Then(TryExitFallback(FIVE, CUT), Done)) == c by {
      hide Exited;
    }
    assert Good(START) by {
      NothingHeldBy(START);
      hide Held;
    }
    ExitGood(START, FIVE, CUT);
    CutOffer();
    CutFails();
    NothingHeldBy(c);
    hide Exited, ShortHeader, PicksUp, All, Held, Play;
  }

  lemma NothingHeldBy(c: Ctx)
    requires c.link == NO_LINK && c.pending == -1
    ensures Held(c) == multiset{}
  {
    NothingHeld();
  }

  // ----- the callback

  /** Inside the callback no other one starts, whatever it calls. */
  lemma {:induction false} PlayInCallback(c: Ctx, s: Script)
    requires c.inCallback
    ensures Play(c, s).inCallback && Play(c, s).ran == c.ran && Play(c, s).falls == c.falls
    decreases s
  {
    match s {
      case Done =>
      case Then(a, rest) =>
        DoInCallback(c, a);
        PlayInCallback(Do(c, a), rest);
    }
  }

  lemma ExitFlags(c: Ctx, p: Pickup, d: Offer)
    ensures var c' := Exited(c, p, d);
            c'.inCallback == c.inCallback && c'.callback == c.callback && c'.ran == c.ran && c'.falls == c.falls
  {
    hide HeldBy, Close, Unmap, All, Receive;
  }

  lemma DoInCallback(c: Ctx, a: Action)
    requires c.inCallback
    ensures Do(c, a).inCallback && Do(c, a).ran == c.ran && Do(c, a).falls == c.falls
  {
    hide Exited;
    if a.TryExitFallback? {
      ExitFlags(c, a.p, a.d);
    }
  }

  /** Once per fall: a call falls at most once and then runs the callback exactly once, if there is one. */
  lemma OncePerFall(c: Ctx, react: Script)
    ensures var c' := Enter(c, react);
            && c'.falls == c.falls + (if c.fallback || c.inCallback then 0 else 1)
            && c'.ran == c.ran + (if c.fallback || c.inCallback || c.callback.None? then 0 else 1)
            && c'.inCallback == c.inCallback
            && (c.callback.Some? && !c.inCallback ==> c'.callback.Some?)
  {
    if !c.fallback && !c.inCallback {
      PlayInCallback(CallbackState(Fallen(c)), react);
    }
  }

  /** A callback once set stays set: what the callback itself sets to nothing is put back. */
  lemma {:induction false} CallbackStays(c: Ctx, s: Script)
    requires c.callback.Some? && !c.inCallback && NeverUnset(s)
    ensures Play(c, s).callback.Some? && !Play(c, s).inCallback
    decreases s
  {
    hide Exited, Enter;
    match s {
      case Done =>
      case Then(a, rest) =>
        match a {
          case TryExitFallback(p, d) => ExitFlags(c, p, d);
          case Poll(_, _, react) => OncePerFall(c, react);
          case PollFds(_, _, _, _, react) => OncePerFall(c, react);
          case Push(_, react) => OncePerFall(c, react);
          case _ =>
        }
        CallbackStays(Do(c, a), rest);
    }
  }

  /** No call of the script itself clears the callback; what callbacks do is not restricted. */
  predicate NeverUnset(s: Script)
    decreases s
  {
    s.Then? ==> s.call != SetCallback(None) && NeverUnset(s.rest)
  }

  // ----- when a connection comes and goes

  /** The handshake of both sides: who answered, what came, and that it can be mapped. */
  predicate Handshake(p: Pickup, d: Offer) {
    && p.sent && p.answered && p.m.n > 0 && p.m.typeOk && |p.m.fds| >= 5 && p.mapOk
    && d.answered && !d.hup && d.m.n > 0 && d.m.whole && d.m.typeOk && d.infosOk
    && 1 <= d.count == if |d.m.fds| <= 8 then |d.m.fds| else 8
  }

  lemma OfferedExactly(c: Ctx, d: Offer)
    requires c.link.dmabufs == []
    ensures var (c', ok) := WithDmabufs(c, d);
            && (ok <==> d.answered && !d.hup && d.m.n > 0 && d.m.whole && d.m.typeOk && d.infosOk
                        && 1 <= d.count == if |d.m.fds| <= 8 then |d.m.fds| else 8)
            && (ok ==> c'.link == c.link.(dmabufs := d.m.fds[..d.count]) && |c'.link.dmabufs| > 0)
            && c' == c.(link := c'.link, l := c'.l)
  {
    hide All;
  }

  lemma PickedExactly(c: Ctx, p: Pickup)
    ensures var (c', ok) := PickedUp(c, p);
            && (ok ==> var fds := p.m.fds;
                  c'.link == Link(fds[2], fds[0], fds[1], fds[3], fds[4], true, c.link.dmabufs))
            && (ok <==> PicksUp(p)) && c' == c.(link := c'.link, l := c'.l)
            && c'.link.dmabufs == c.link.dmabufs
  {
    hide All;
  }

  /**
   Reconnecting connects if and only if the handshake is complete, and then each descriptor is in its place: ready,
   fence, data, shared memory and audio in the order of the message, and the buffers as they came. Otherwise nothing
   of the consumer is kept. A connected context is left as it is.
   */
  lemma ConnectsExactly(c: Ctx, p: Pickup, d: Offer)
    requires Good(c)
    ensures var c' := Exited(c, p, d);
            && (c'.fallback <==> c.fallback && !Handshake(p, d))
            && (!c.fallback ==> c' == c)
            && (c.fallback && Handshake(p, d) ==>
                  var k, fds := c'.link, p.m.fds;
                  && k.ready == fds[0] && k.fence == fds[1] && k.data == fds[2] && k.shm == fds[3] && k.audio == fds[4]
                  && k.mapped && k.dmabufs == d.m.fds[..d.count] && c'.pending == c.pending)
            && (c'.fallback ==>
                  && c'.link == Link(-1, -1, -1, -1, -1, false, [])
                  && c'.pending == if c.pending >= 0 then -1 else c.pending)
  {
    hide Balanced;
    if c.fallback {
      PickedExactly(c, p);
      var (c1, ok1) := PickedUp(c, p);
      hide PickedUp, WithDmabufs, Release;
      ReleaseFlags(c1);
      if ok1 {
        OfferedExactly(c1, d);
        ReleaseFlags(WithDmabufs(c1, d).0);
      }
    }
  }

  /** A poll that reports a hang-up, or a send that fails. */
  predicate Breaks(a: Action) {
    ((a.Poll? || a.PollFds?) && a.readable && a.hup) || (a.Push? && !a.sent)
  }

  /**
   A connected context outside its callback falls exactly when a call breaks; without a callback it then holds
   nothing. Any other call leaves it connected as it is, but for the fence and the callback that are set.
   */
  lemma FallsExactly(c: Ctx, a: Action)
    requires !c.fallback && !c.inCallback
    ensures Do(c, a).falls == c.falls + if Breaks(a) then 1 else 0
    ensures Breaks(a) && c.callback.None? ==>
              && Do(c, a).fallback && Do(c, a).link == Link(-1, -1, -1, -1, -1, false, [])
              && Do(c, a).pending == if c.pending >= 0 then -1 else c.pending
    ensures !Breaks(a) ==>
              match a
              case SetRenderFence(fd) => Do(c, a) == c.(pending := fd, l := Do(c, a).l)
              case TriggerRefresh =>
                Do(c, a) == c.(pending := if c.pending >= 0 then -1 else c.pending, l := Do(c, a).l)
              case SetCallback(cb) => Do(c, a) == c.(callback := cb)
              case _ => Do(c, a) == c
  {
    if Breaks(a) {
      OncePerFall(c, a.react);
    }
  }

  /** A context that has fallen back stays so, whatever is polled or sent; only a reconnection can end it. */
  lemma StaysFallen(c: Ctx, a: Action)
    requires c.fallback
    ensures Do(c, a).falls == c.falls
    ensures a.Poll? || a.PollFds? || a.Push? ==> Do(c, a) == c
    ensures !a.TryExitFallback? ==> Do(c, a).fallback && Do(c, a).link == c.link
  {
    if a.TryExitFallback? {
      ExitFlags(c, a.p, a.d);
    }
  }

  /** No call of the script itself breaks the connection. */
  predicate Calm(s: Script)
    decreases s
  {
    s.Then? ==> !Breaks(s.call) && Calm(s.rest)
  }

  lemma {:induction false} FallsGrow(c: Ctx, s: Script)
    requires !c.inCallback
    ensures c.falls <= Play(c, s).falls && !Play(c, s).inCallback
    decreases s
  {
    hide Exited, Enter;
    match s {
      case Done =>
      case Then(a, rest) =>
        match a {
          case TryExitFallback(p, d) => ExitFlags(c, p, d);
          case Poll(_, _, react) => OncePerFall(c, react);
          case PollFds(_, _, _, _, react) => OncePerFall(c, react);
          case Push(_, react) => OncePerFall(c, react);
          case _ =>
        }
        FallsGrow(Do(c, a), rest);
    }
  }

  /** A connection lasts, descriptors and all, if and only if no poll reports a hang-up and no send fails. */
  lemma {:induction false} ConnectionLasts(c: Ctx, s: Script)
    requires !c.fallback && !c.inCallback
    ensures Play(c, s).falls == c.falls <==> Calm(s)
    ensures Calm(s) ==> !Play(c, s).fallback && Play(c, s).link == c.link
    decreases s
  {
    hide Exited, Enter;
    match s {
      case Done =>
      case Then(a, rest) =>
        FallsExactly(c, a);
        if Breaks(a) {
          OncePerFall(c, a.react);
          FallsGrow(Do(c, a), rest);
        } else {
          CalmKeeps(c, a);
          ConnectionLasts(Do(c, a), rest);
        }
    }
  }

  lemma CalmKeeps(c: Ctx, a: Action)
    requires !c.fallback && !c.inCallback && !Breaks(a)
    ensures !Do(c, a).fallback && !Do(c, a).inCallback && Do(c, a).link == c.link && Do(c, a).falls == c.falls
  {
  }

  /** Buffers that are there already are kept, and nothing is received. */
  lemma BuffersStay(c: Ctx, d: Offer)
    requires c.link.dmabufs != []
    ensures WithDmabufs(c, d) == (c, true)
  {
  }

  /** The first life of a context: it connects without a fall, and falls at the first failed send. */
  lemma FirstLife(p: Pickup, d: Offer)
    requires Handshake(p, d)
    ensures var c := Play(START, Then(TryExitFallback(p, d), Done));
            var c' := Play(START, Then(TryExitFallback(p, d), Then(Push(false, Done), Done)));
            && !c.fallback && c.falls == c.ran == 0 && Everything(c.link)
            && c'.fallback && c'.falls == 1 && c'.ran == 0 && Held(c') == multiset{}
  {
    hide Exited, Held;
    assert Good(START) by {
      NothingHeldBy(START);
    }
    var c := Exited(START, p, d);
    ExitGood(START, p, d);
    ExitFlags(START, p, d);
    ConnectsExactly(START, p, d);
    FallsExactly(c, Push(false, Done));
    DoGood(c, Push(false, Done));
    var c' := Do(c, Push(false, Done));
    NothingHeldBy(c');
    OncePerFall(c, Done);
    hide Do, Enter;
    PlayTwo(START, TryExitFallback(p, d), Push(false, Done));
  }

  lemma PlayTwo(c: Ctx, a: Action, b: Action)
    ensures Play(c, Then(a, Done)) == Do(c, a) && Play(c, Then(a, Then(b, Done))) == Do(Do(c, a), b)
  {
    hide Do;
    assert Play(Do(c, a), Then(b, Done)) == Play(Do(Do(c, a), b), Done);
  }

  lemma BagOfMore(fds: seq<int>, n: nat)
    requires n < |fds| && fds[n] >= 0
    ensures Bag(fds, n + 1) == Bag(fds, n) + multiset{fds[n]} && Bag(fds, 0) == multiset{}
    ensures multiset(fds[..n + 1]) == multiset(fds[..n]) + multiset{fds[n]}
  {
    assert fds[..n + 1] == fds[..n] + [fds[n]];
  }

  /** Of the descriptors received none is forgotten, 0 included. */
  lemma {:induction false} AllAreCounted(fds: seq<int>, n: nat)
    requires n <= |fds| && forall i :: 0 <= i < |fds| ==> fds[i] >= 0
    ensures Bag(fds, n) == multiset(fds[..n])
    decreases n
  {
    if n == 0 {
    } else {
      hide Bag;
      AllAreCounted(fds, n - 1);
      BagOfMore(fds, n - 1);
    }
  }

  /** Closing one descriptor more often than it is open is noticed. */
  lemma CloseNotices(l: Ledger, bag: multiset<int>)
    ensures Close(l, bag).bad <==> l.bad || exists fd :: bag[fd] > l.open[fd]
    ensures forall fd :: Close(l, bag).open[fd] == if bag[fd] > l.open[fd] then 0 else l.open[fd] - bag[fd]
  {
    if forall fd :: bag[fd] <= l.open[fd] {
      assert bag <= l.open;
    }
  }

  // ----- the selected buffer

  function SelectedIndex(c: Ctx, shared: nat): nat {
    if !c.link.mapped then 0 else if shared < |c.link.dmabufs| then shared else 0
  }

  /** While connected, whatever the shared word holds, the selected buffer exists. */
  lemma SelectedExists(s: Script, shared: nat)
    ensures var c := Play(START, s);
            && (!c.fallback ==>
                  SelectedIndex(c, shared) < |c.link.dmabufs| && c.link.dmabufs[SelectedIndex(c, shared)] >= 0)
            && (c.fallback ==> SelectedIndex(c, shared) == 0 && c.link.dmabufs == [])
            && (!c.fallback && shared < |c.link.dmabufs| ==> SelectedIndex(c, shared) == shared)
            && (!c.fallback && shared >= |c.link.dmabufs| ==> SelectedIndex(c, shared) == 0)
  {
    PlayGood(START, s);
  }

  // ----- the code

  lemma CloseTwice(l: Ledger, a: multiset<int>, b: multiset<int>)
    ensures Close(Close(l, a), b) == Close(l, a + b)
  {
    assert l.open - a - b == l.open - (a + b);
    assert a <= l.open && b <= l.open - a ==> a + b <= l.open;
    assert a + b <= l.open ==> a <= l.open && b <= l.open - a;
  }

  lemma CloseReceived(l: Ledger, a: multiset<int>)
    ensures Close(Receive(l, a), a) == l
  {
    assert l.open + a - a == l.open;
  }

  lemma CloseNone(l: Ledger)
    ensures Close(l, multiset{}) == l
  {
    assert l.open - multiset{} == l.open;
  }

  lemma CloseUnmap(l: Ledger, a: multiset<int>, mapped: bool)
    ensures Close(Unmap(l, mapped), a) == Unmap(Close(l, a), mapped)
  {
  }

  function CloseFour(l: Ledger, data: int, ready: int, fence: int, audio: int): Ledger {
    Close(Close(Close(Close(l, One(data)), One(ready)), One(fence)), One(audio))
  }

  /** The order in which release_consumer_resources closes. */
  lemma ClosingOrder(c: Ctx)
    ensures var k := c.link;
            var l := CloseFour(Close(c.l, All(k.dmabufs)), k.data, k.ready, k.fence, k.audio);
            Close(Unmap(Close(l, One(c.pending)), k.mapped), One(k.shm)) == Release(c).l
  {
    hide All, One, Close;
    var k, bag := c.link, All(c.link.dmabufs);
    CloseTwice(c.l, bag, One(k.data));
    CloseTwice(c.l, bag + One(k.data), One(k.ready));
    CloseTwice(c.l, bag + One(k.data) + One(k.ready), One(k.fence));
    bag := bag + One(k.data) + One(k.ready) + One(k.fence);
    CloseTwice(c.l, bag, One(k.audio));
    CloseTwice(c.l, bag + One(k.audio), One(c.pending));
    CloseTwice(c.l, bag + One(k.audio) + One(c.pending), One(k.shm));
    CloseUnmap(Close(c.l, bag + One(k.audio) + One(c.pending)), One(k.shm), k.mapped);
    assert bag + One(k.audio) + One(c.pending) + One(k.shm) == Held(c);
  }

  /** Release, field by field. */
  lemma ReleasedFields(c: Ctx, v: Ctx)
    requires v.link.data == v.link.ready == v.link.fence == v.link.shm == v.link.audio == -1
    requires !v.link.mapped && v.link.dmabufs == [] && v.pending == NoFence(c.pending) && v.l == Release(c).l
    requires v.fallback == c.fallback && v.inCallback == c.inCallback && v.callback == c.callback
    requires v.falls == c.falls && v.ran == c.ran
    ensures v == Release(c)
  {
    hide Close, Unmap, Held;
  }

  class DisplayCtx {
    var dataFd: int
    var bufReadyEfd: int
    var fenceFd: int
    var shmFd: int
    var shmPtr: bool
    var audioFd: int
    var pendingRenderFence: int
    var fallback: bool
    var inFallbackCallback: bool
    const dmabufFds: array<int>
    var bufCount: nat
    var fallbackCb: Option<nat>
    ghost var l: Ledger
    ghost var falls: nat
    ghost var ran: nat

    ghost predicate Valid()
      reads this
    {
      && dmabufFds.Length == MAX_BUFS && bufCount <= MAX_BUFS
      && dataFd >= -1 && bufReadyEfd >= -1 && fenceFd >= -1 && shmFd >= -1 && audioFd >= -1
    }

    ghost function Value(): Ctx
      requires Valid()
      reads this, dmabufFds
    {
      Ctx(Link(dataFd, bufReadyEfd, fenceFd, shmFd, audioFd, shmPtr, dmabufFds[..bufCount]),
          pendingRenderFence, fallback, inFallbackCallback, fallbackCb, l, falls, ran)
    }

    /** The state connect_to_deamon leaves. */
    constructor ()
      ensures Valid() && fresh(dmabufFds) && Value() == START
    {
      dataFd, bufReadyEfd, fenceFd, shmFd, audioFd := -1, -1, -1, -1, -1;
      shmPtr, pendingRenderFence, fallback, inFallbackCallback := false, -1, true, false;
      dmabufFds := new int[MAX_BUFS](_ => -1);
      bufCount, fallbackCb := 0, None;
      l, falls, ran := Ledger(multiset{}, multiset{}, false, 0), 0, 0;
    }

    /** close(fd) when there is one; the result is what the field holds then. */
    method CloseFd(fd: int) returns (none: int)
      modifies this`l
      ensures l == Close(old(l), One(fd)) && none == NoFence(fd)
    {
      none := fd;
      if fd >= 0 {
        l := Close(l, multiset{fd});
        none := -1;
      } else {
        CloseNone(l);
      }
    }

    method CloseAll(fds: seq<int>)
      modifies this`l
      ensures l == Close(old(l), All(fds))
    {
      CloseNone(l);
      for i := 0 to |fds|
        invariant l == Close(old(l), Bag(fds, i))
      {
        CloseTwice(old(l), Bag(fds, i), One(fds[i]));
        var _ := CloseFd(fds[i]);
      }
    }

    method CloseDmabufs()
      requires Valid()
      modifies this`l, this`bufCount, dmabufFds
      ensures l == Close(old(l), All(old(dmabufFds[..bufCount]))) && bufCount == 0
    {
      hide One, Close, NoFence;
      ghost var fds := dmabufFds[..bufCount];
      CloseNone(l);
      for i := 0 to bufCount
        invariant bufCount == old(bufCount)
        invariant l == Close(old(l), Bag(fds, i))
        invariant forall k :: i <= k < bufCount ==> dmabufFds[k] == fds[k]
      {
        CloseTwice(old(l), Bag(fds, i), One(fds[i]));
        assert Bag(fds, i + 1) == Bag(fds, i) + One(fds[i]);
        dmabufFds[i] := CloseFd(dmabufFds[i]);
      }
      bufCount := 0;
    }

    method CloseEndpoints()
      requires Valid()
      modifies this`dataFd, this`bufReadyEfd, this`fenceFd, this`audioFd, this`l
      ensures dataFd == bufReadyEfd == fenceFd == audioFd == -1
      ensures l == CloseFour(old(l), old(dataFd), old(bufReadyEfd), old(fenceFd), old(audioFd))
    {
      hide One, Close;
      dataFd := CloseFd(dataFd);
      bufReadyEfd := CloseFd(bufReadyEfd);
      fenceFd := CloseFd(fenceFd);
      audioFd := CloseFd(audioFd);
    }

    method UnmapShared()
      modifies this`shmPtr, this`l
      ensures !shmPtr && l == Unmap(old(l), old(shmPtr))
    {
      if shmPtr {
        l := l.(maps := l.maps - 1);
        shmPtr := false;
      }
    }

    method CloseFenceAndShm()
      requires Valid()
      modifies this`pendingRenderFence, this`shmPtr, this`shmFd, this`l
      ensures pendingRenderFence == NoFence(old(pendingRenderFence)) && !shmPtr && shmFd == -1
      ensures l == Close(Unmap(Close(old(l), One(old(pendingRenderFence))), old(shmPtr)), One(old(shmFd)))
    {
      hide One, Close, Unmap;
      pendingRenderFence := CloseFd(pendingRenderFence);
      UnmapShared();
      shmFd := CloseFd(shmFd);
    }

    method ReleaseConsumerResources()
      requires Valid()
      modifies this, dmabufFds
      ensures Valid() && Value() == Release(old(Value())) && fallback == old(fallback)
    {
      hide All, One, Close, CloseFour, Held, HeldBy, Unmap;
      ghost var c := Value();
      CloseDmabufs();
      CloseEndpoints();
      CloseFenceAndShm();
      ClosingOrder(c);
      assert dmabufFds[..bufCount] == [];
      ReleasedFields(c, Value());
    }

    method PickupFds(p: Pickup) returns (ok: bool)
      requires Valid()
      modifies this
      ensures Valid() && (Value(), ok) == PickedUp(old(Value()), p) && fallback == old(fallback)
    {
      hide All, Close, NoFence, One, LinkedUp;
      if !p.sent || !p.answered {
        return false;
      }
      var fds := Received(p.m, 5);
      l := Receive(l, All(fds));
      if p.m.n <= 0 {
        NothingReceived(old(l));
        return false;
      }
      if !p.m.typeOk || |fds| < 5 {
        CloseReceived(old(l), All(fds));
        CloseAll(fds);
        return false;
      }
      ok := LinkUp(fds, p.mapOk, old(l));
    }

    /** The descriptors take their places and the shared word is mapped. */
    method LinkUp(fds: seq<int>, mapOk: bool, ghost before: Ledger) returns (ok: bool)
      requires Valid() && |fds| == 5 && (forall i :: 0 <= i < 5 ==> fds[i] >= 0) && l == Receive(before, All(fds))
      modifies this
      ensures Valid() && ok == mapOk && fallback == old(fallback)
      ensures Value() == LinkedUp(old(Value()).(l := before), fds, mapOk)
    {
      hide All, One;
      bufReadyEfd, fenceFd, dataFd, shmFd, audioFd := fds[0], fds[1], fds[2], fds[3], fds[4];
      shmPtr := mapOk;
      if !mapOk {
        return false;
      }
      l := l.(maps := l.maps + 1);
      return true;
    }

    method ReceiveDmabufs(d: Offer) returns (ok: bool)
      requires Valid()
      modifies this, dmabufFds
      ensures Valid() && (Value(), ok) == WithDmabufs(old(Value()), d) && fallback == old(fallback)
    {
      hide All, Close;
      if bufCount > 0 {
        return true;
      }
      if !d.answered || d.hup {
        return false;
      }
      var fds := Received(d.m, MAX_BUFS);
      l := Receive(l, All(fds));
      if d.m.n <= 0 || !d.m.whole || |fds| < 1 {
        if d.m.n <= 0 {
          NothingReceived(old(l));
        } else {
          l := l.(leaked := l.leaked + All(fds));
        }
        return false;
      }
      CloseReceived(old(l), All(fds));
      if !d.m.typeOk {
        CloseAll(fds);
        return false;
      }
      if d.count != |fds| || d.count > MAX_BUFS {
        CloseAll(fds);
        return false;
      }
      if !d.infosOk {
        CloseAll(fds);
        return false;
      }
      for i := 0 to d.count
        modifies dmabufFds
        invariant dmabufFds[..i] == fds[..i]
      {
        dmabufFds[i] := fds[i];
      }
      bufCount := d.count;
      assert fds[..d.count] == fds;
      return true;
    }

    method TryExitFallback(p: Pickup, d: Offer) returns (ok: bool)
      requires Valid()
      modifies this, dmabufFds
      ensures Valid() && Value() == Exited(old(Value()), p, d) && ok == !fallback
    {
      hide PickedUp, WithDmabufs, Release;
      if !fallback {
        return true;
      }
      ok := PickupFds(p);
      PickupKeeps(old(Value()), p);
      if !ok {
        ReleaseConsumerResources();
        return false;
      }
      ok := ReceiveDmabufs(d);
      if !ok || bufCount == 0 {
        ReleaseConsumerResources();
        return false;
      }
      fallback := false;
      return true;
    }

    method EnterFallback(react: Script)
      requires Valid()
      modifies this, dmabufFds
      ensures Valid() && Value() == Enter(old(Value()), react)
      decreases react, 1
    {
      hide Release, Play, Restored, CallbackState;
      if fallback || inFallbackCallback {
        return;
      }
      fallback := true;
      falls := falls + 1;
      ReleaseConsumerResources();
      ReleaseFlags(old(Value()).(fallback := true, falls := old(falls) + 1));
      if fallbackCb.Some? {
        RunFallbackCallback(react);
      }
    }

    /** The callback runs with the field cleared, and is put back unless it set another. */
    method RunFallbackCallback(react: Script)
      requires Valid() && fallbackCb.Some?
      modifies this, dmabufFds
      ensures Valid() && Value() == Restored(Play(CallbackState(old(Value())), react), old(fallbackCb).value)
      decreases react, 0, 1
    {
      hide Play;
      inFallbackCallback := true;
      var cb := fallbackCb;
      fallbackCb := None;
      ran := ran + 1;
      Perform(react);
      if fallbackCb == None {
        fallbackCb := cb;
      }
      inFallbackCallback := false;
    }

    method SetFence(fd: int)
      requires Valid()
      modifies this
      ensures Valid() && Value() == WithFence(old(Value()), fd)
    {
      hide Close, One, HeldBy;
      var _ := CloseFd(pendingRenderFence);
      pendingRenderFence := fd;
      l := Receive(l, One(fd));
    }

    /** Both branches of trigger_refresh close the fence; the message itself is not modelled. */
    method Refresh()
      requires Valid()
      modifies this
      ensures Valid() && Value() == DropFence(old(Value()))
    {
      pendingRenderFence := CloseFd(pendingRenderFence);
    }

    /**
     A message with descriptors for the caller: they are its own, or closed when the message is not what it should
     be.
     */
    method PollExtendFds(readable: bool, hup: bool, m: Message, max: nat, react: Script) returns (fds: seq<int>)
      requires Valid()
      modifies this, dmabufFds
      ensures Valid() && Value() == Do(old(Value()), PollFds(readable, hup, m, max, react))
      ensures fds == if !old(fallback) && readable && !hup && m.whole && m.typeOk then Received(m, max) else []
      decreases react, 2
    {
      fds := [];
      if fallback || !readable {
        return;
      }
      if hup {
        EnterFallback(react);
        return;
      }
      hide All, Close;
      var got := Received(m, max);
      CloseReceived(l, All(got));
      l := Receive(l, All(got));
      if !m.whole || !m.typeOk {
        CloseAll(got);
        return;
      }
      fds := got;
      l := Close(l, All(got));
    }

    /** A callback's calls, or a client's. */
    method Perform(s: Script)
      requires Valid()
      modifies this, dmabufFds
      ensures Valid() && Value() == Play(old(Value()), s)
      decreases s, 0, 0
    {
      hide Exited, Enter, WithFence, DropFence;
      var rest := s;
      while rest.Then?
        invariant rest == s || rest < s
        invariant Valid() && Play(Value(), rest) == Play(old(Value()), s)
        decreases rest
      {
        match rest.call {
          case TryExitFallback(p, d) => var _ := TryExitFallback(p, d);
          case Poll(readable, hup, react) => if !fallback && readable && hup { EnterFallback(react); }
          case PollFds(readable, hup, m, max, react) => var _ := PollExtendFds(readable, hup, m, max, react);
          case Push(sent, react) => if !fallback && !sent { EnterFallback(react); }
          case SetRenderFence(fd) => SetFence(fd);
          case TriggerRefresh => Refresh();
          case SetCallback(cb) => fallbackCb := cb;
        }
        rest := rest.rest;
      }
    }

    method GetSelectedIdx(shared: nat) returns (idx: nat)
      requires Valid()
      ensures idx == SelectedIndex(Value(), shared)
    {
      if !shmPtr {
        return 0;
      }
      return if shared < bufCount then shared else 0;
    }
  }

  lemma NothingReceived(l: Ledger)
    ensures Receive(l, All([])) == l
  {
    assert l.open + multiset{} == l.open;
  }

  lemma PickupKeeps(c: Ctx, p: Pickup)
    ensures PickedUp(c, p).0 == c.(link := PickedUp(c, p).0.link, l := PickedUp(c, p).0.l)
  {
  }
}
