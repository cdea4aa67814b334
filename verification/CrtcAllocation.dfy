/**
 Which connector drives which CRTC (src/backend/drm/DRM.cpp): tile pruning, the greedy CRTC assignment, and the
 hotplug pass around them.

 A CRTC is named by its position in the backend's list, a connector by the kernel's id. A connector's possibleCrtcs
 is the kernel's 32-bit mask.
 */
module CrtcAllocation {
  import opened Options

  const MAX_CRTCS := 32

  /** SDRMConnector::STileInfo */
  datatype Tile = Tile(groupId: nat, numH: int, numV: int, hSize: int, vSize: int)

  datatype Conn = Conn(
    id: nat, crtc: Option<nat>, connected: bool, redundant: bool, possibleCrtcs: bv32,
    output: bool, enabled: bool, tile: Tile, maxX: int, maxY: int)
  {
    predicate Allows(i: nat)
      requires i < MAX_CRTCS
    {
      possibleCrtcs & ((1 as bv32) << i) != 0
    }

    /** recheckCRTCs puts it on its list. */
    predicate Waits() { !redundant && !(crtc.Some? && connected) }

    predicate Counts() { connected && !redundant }

    /** It gets CRTC `i`; an output it has is turned off. */
    function Given(i: nat): Conn { this.(crtc := Some(i), enabled := enabled && !output) }

    /** It drives a CRTC that is not up for grabs. */
    predicate Drives(i: nat) { Counts() && crtc == Some(i) }

    /** It has no CRTC and should get one. */
    predicate Wants() { Counts() && crtc.None? }
  }

  predicate Taken(cs: seq<Conn>, i: nat) { exists k | 0 <= k < |cs| :: cs[k].Drives(i) }

  // ----- recheckCRTCs

  /** The connector slot `i` would go to: the first in the list that wants a CRTC and can use this one. */
  function FirstFit(cs: seq<Conn>, i: nat): (k: Option<nat>)
    requires i < MAX_CRTCS
    ensures k.None? ==> forall j | 0 <= j < |cs| :: !(cs[j].Wants() && cs[j].Allows(i))
    ensures k.Some? ==> k.value < |cs| && cs[k.value].Wants() && cs[k.value].Allows(i)
                        && forall j | 0 <= j < k.value :: !(cs[j].Wants() && cs[j].Allows(i))
  {
    if cs == [] then None
    else if cs[0].Wants() && cs[0].Allows(i) then Some(0)
    else
      match FirstFit(cs[1..], i)
      case None => assert forall j | 1 <= j < |cs| :: cs[j] == cs[1..][j - 1]; None
      case Some(k) => assert forall j | 1 <= j < k + 1 :: cs[j] == cs[1..][j - 1]; Some(k + 1)
  }

  function Give(cs: seq<Conn>, i: nat): seq<Conn>
    requires i < MAX_CRTCS
  {
    if Taken(cs, i) || FirstFit(cs, i).None? then cs
    else var k := FirstFit(cs, i).value; cs[k := cs[k].Given(i)]
  }

  /** Slots `i` to `n - 1`, in order. */
  function Assign(cs: seq<Conn>, i: nat, n: nat): (r: seq<Conn>)
    requires i <= n <= MAX_CRTCS
    ensures |r| == |cs|
    decreases n - i
  {
    if i == n then cs else Assign(Give(cs, i), i + 1, n)
  }

  /**
   `c'` is `c`, or `c` with one of the slots `i` to `n - 1` it allows, which it wanted; it had none, is connected and
   not redundant, and an output it has is off then.
   */
  predicate Served(c: Conn, c': Conn, i: nat, n: nat)
    requires n <= MAX_CRTCS
  {
    c' == c || (c.crtc.None? && c.connected && !c.redundant
                && c'.crtc.Some? && i <= c'.crtc.value < n && c.Allows(c'.crtc.value)
                && c' == c.(crtc := c'.crtc, enabled := c'.enabled)
                && (if c.output then !c'.enabled else c'.enabled == c.enabled))
  }

  lemma {:induction false} AssignServes(cs: seq<Conn>, i: nat, n: nat)
    requires i <= n <= MAX_CRTCS
    ensures forall k | 0 <= k < |cs| :: Served(cs[k], Assign(cs, i, n)[k], i, n)
    decreases n - i
  {
    if i == n {
    } else {
      AssignServes(Give(cs, i), i + 1, n);
    }
  }

  ghost predicate Exclusive(cs: seq<Conn>) {
    forall j, k, i: nat | 0 <= j < k < |cs| && cs[j].Drives(i) :: !cs[k].Drives(i)
  }

  lemma GiveExclusive(cs: seq<Conn>, i: nat)
    requires i < MAX_CRTCS
    ensures Exclusive(Give(cs, i)) <==> Exclusive(cs)
  {
    var cs' := Give(cs, i);
    if cs' != cs {
      var k := FirstFit(cs, i).value;
      if !Exclusive(cs) {
        var a, b, s: nat :| 0 <= a < b < |cs| && cs[a].Drives(s) && cs[b].Drives(s);
        assert cs'[a].Drives(s) && cs'[b].Drives(s);
      }
    }
  }

  /** Sharing is neither made nor mended: nobody shares a CRTC afterwards exactly when nobody did before. */
  lemma {:induction false} AssignExclusive(cs: seq<Conn>, i: nat, n: nat)
    requires i <= n <= MAX_CRTCS
    ensures Exclusive(Assign(cs, i, n)) <==> Exclusive(cs)
    decreases n - i
  {
    if i == n {
    } else {
      GiveExclusive(cs, i);
      AssignExclusive(Give(cs, i), i + 1, n);
    }
  }

  lemma {:induction false} TakenStays(cs: seq<Conn>, i: nat, n: nat, s: nat)
    requires i <= n <= MAX_CRTCS && Taken(cs, s)
    ensures Taken(Assign(cs, i, n), s)
  {
    AssignServes(cs, i, n);
    var k :| 0 <= k < |cs| && cs[k].Drives(s);
    assert Assign(cs, i, n)[k].Drives(s);
  }

  /** Once a slot has been offered, a connector that wants it is left wanting only if it is taken. */
  lemma OfferedIsTaken(cs: seq<Conn>, i: nat, k: nat)
    requires i < MAX_CRTCS && k < |cs| && cs[k].Wants() && cs[k].Allows(i)
    ensures Taken(Give(cs, i), i)
  {
    if Taken(cs, i) {
      assert Give(cs, i) == cs;
    } else {
      assert Give(cs, i)[FirstFit(cs, i).value].Drives(i);
    }
  }

  lemma StillWanting(cs: seq<Conn>, i: nat, n: nat, k: nat)
    requires i <= n <= MAX_CRTCS && k < |cs| && Assign(cs, i, n)[k].Wants()
    ensures cs[k].Wants()
  {
    AssignServes(cs, i, n);
    hide Assign;
  }

  /** No connector is left wanting while a CRTC it can use is free. */
  lemma {:induction false} AssignIsMaximal(cs: seq<Conn>, i: nat, n: nat, k: nat, s: nat)
    requires i <= s < n <= MAX_CRTCS && k < |cs|
    requires Assign(cs, i, n)[k].Wants() && cs[k].Allows(s)
    ensures Taken(Assign(cs, i, n), s)
    decreases n - i
  {
    hide Give, Taken;
    var cs' := Give(cs, i);
    assert Assign(cs, i, n) == Assign(cs', i + 1, n);
    GiveKeepsMasks(cs, i, k);
    if i < s {
      AssignIsMaximal(cs', i + 1, n, k, s);
    } else {
      StillWanting(cs, i, n, k);
      OfferedIsTaken(cs, i, k);
      TakenStays(cs', i + 1, n, i);
    }
  }

  lemma GiveKeepsMasks(cs: seq<Conn>, i: nat, k: nat)
    requires i < MAX_CRTCS && k < |cs|
    ensures |Give(cs, i)| == |cs| && Give(cs, i)[k].possibleCrtcs == cs[k].possibleCrtcs
  {
  }

  /** The connectors that got a CRTC. */
  function NewlyServed(cs: seq<Conn>, cs': seq<Conn>): set<nat>
    requires |cs| == |cs'|
  {
    set k | 0 <= k < |cs| && cs[k].Wants() && cs'[k].crtc.Some?
  }

  /** Any way to give connectors that want one a CRTC they allow, each a different one that was free. */
  predicate ValidAssignment(cs: seq<Conn>, n: nat, m: map<nat, nat>)
    requires n <= MAX_CRTCS
  {
    && (forall k | k in m :: k < |cs| && m[k] < n && cs[k].Wants() && cs[k].Allows(m[k]) && !Taken(cs, m[k]))
    && (forall j, k | j in m && k in m && j != k :: m[j] != m[k])
  }

  lemma {:induction false} Injects(cs: seq<Conn>, m: map<nat, nat>, keys: set<nat>, into: set<nat>)
    requires keys <= m.Keys && forall k | k in into :: k < |cs|
    requires forall j, k | j in m && k in m && j != k :: m[j] != m[k]
    requires forall k | k in keys :: exists t | t in into :: cs[t].crtc == Some(m[k])
    ensures |keys| <= |into|
    decreases keys
  {
    if keys == {} {
    } else {
      var k :| k in keys;
      var t :| t in into && cs[t].crtc == Some(m[k]);
      forall k' | k' in keys - {k} ensures exists t' | t' in into - {t} :: cs[t'].crtc == Some(m[k']) {
        var t' :| t' in into && cs[t'].crtc == Some(m[k']);
      }
      Injects(cs, m, keys - {k}, into - {t});
    }
  }

  /** A CRTC that an assignment would use, and the greedy one did not give to the same connector, went to another. */
  lemma ServedInstead(cs: seq<Conn>, n: nat, m: map<nat, nat>, k: nat) returns (t: nat)
    requires n <= MAX_CRTCS && ValidAssignment(cs, n, m)
    requires k in m && k !in NewlyServed(cs, Assign(cs, 0, n))
    ensures t in NewlyServed(cs, Assign(cs, 0, n)) && Assign(cs, 0, n)[t].crtc == Some(m[k])
  {
    AssignServes(cs, 0, n);
    AssignIsMaximal(cs, 0, n, k, m[k]);
    t :| 0 <= t < |cs| && Assign(cs, 0, n)[t].Drives(m[k]);
    assert !cs[t].Drives(m[k]);
  }

  /** The greedy assignment serves at least half as many connectors as any other could. */
  lemma AtLeastHalf(cs: seq<Conn>, n: nat, m: map<nat, nat>)
    requires n <= MAX_CRTCS && ValidAssignment(cs, n, m)
    ensures |m| <= 2 * |NewlyServed(cs, Assign(cs, 0, n))|
  {
    var cs' := Assign(cs, 0, n);
    var served := NewlyServed(cs, cs');
    forall k | k in m.Keys - served ensures exists t | t in served :: cs'[t].crtc == Some(m[k]) {
      var t := ServedInstead(cs, n, m, k);
    }
    hide Assign, ValidAssignment, NewlyServed;
    SplitSize(m.Keys, served);
    InjectsServed(cs, cs', m, served, n);
  }

  lemma InjectsServed(cs: seq<Conn>, cs': seq<Conn>, m: map<nat, nat>, served: set<nat>, n: nat)
    requires n <= MAX_CRTCS && ValidAssignment(cs, n, m) && |cs'| == |cs| && served == NewlyServed(cs, cs')
    requires forall k | k in m.Keys - served :: exists t | t in served :: cs'[t].crtc == Some(m[k])
    ensures |m.Keys - served| <= |served|
  {
    Injects(cs', m, m.Keys - served, served);
  }

  lemma SplitSize(a: set<nat>, b: set<nat>)
    ensures |a| <= |a - b| + |b|
  {
    assert a == (a - b) + (a * b);
    SubsetSize(a * b, b);
  }

  lemma {:induction false} SubsetSize(a: set<nat>, b: set<nat>)
    requires a <= b
    ensures |a| <= |b|
    decreases a
  {
    if a == {} {
    } else {
      var x :| x in a;
      SubsetSize(a - {x}, b - {x});
    }
  }

  /** Half is all one can say: the first of two connectors may take the only CRTC the second can use. */
  lemma HalfIsTight()
    ensures var t := Tile(0, 0, 0, 0, 0);
            var cs := [Conn(1, None, true, false, 3, true, false, t, 0, 0),
                Conn(2, None, true, false, 1, true, false, t, 0, 0)];
            ValidAssignment(cs, 2, map[0 := 1, 1 := 0]) && |NewlyServed(cs, Assign(cs, 0, 2))| == 1
  {
    var t := Tile(0, 0, 0, 0, 0);
    var cs := [Conn(1, None, true, false, 3, true, false, t, 0, 0),
        Conn(2, None, true, false, 1, true, false, t, 0, 0)];
    assert cs[0].Allows(0) && cs[0].Allows(1) && cs[1].Allows(0) && !cs[1].Allows(1);
    assert !Taken(cs, 0) && !Taken(cs, 1);
    var cs' := Give(cs, 0);
    assert FirstFit(cs, 0) == Some(0);
    assert FirstFit(cs', 1) == None;
    assert Give(cs', 1) == cs';
    assert Assign(cs, 0, 2) == Assign(cs', 1, 2) == Assign(cs', 2, 2) == cs';
    assert NewlyServed(cs, cs') == {0};
  }

  // ----- markRedundantTiles

  predicate Member(c: Conn, g: nat) { c.connected && c.tile.groupId == g }

  /** The connected members of a tile group among the first `n` connectors, in list order. */
  function MembersUpTo(cs: seq<Conn>, g: nat, n: nat): (r: seq<nat>)
    requires n <= |cs|
    ensures forall j | 0 <= j < |r| :: r[j] < n && Member(cs[r[j]], g)
    ensures forall k | 0 <= k < n && Member(cs[k], g) :: k in r
    ensures forall i, j | 0 <= i < j < |r| :: r[i] < r[j]
  {
    if n == 0 then []
    else if Member(cs[n - 1], g) then MembersUpTo(cs, g, n - 1) + [n - 1]
    else MembersUpTo(cs, g, n - 1)
  }

  function Members(cs: seq<Conn>, g: nat): (r: seq<nat>)
    ensures forall j | 0 <= j < |r| :: r[j] < |cs|
  {
    MembersUpTo(cs, g, |cs|)
  }

  /** The connector shows the whole picture of a group described by `t`. */
  predicate CoversFull(c: Conn, t: Tile) { c.maxX >= t.numH * t.hSize && c.maxY >= t.numV * t.vSize }

  /** The first member that can show the whole picture; the group is described by its first member. */
  function FullRes(cs: seq<Conn>, members: seq<nat>, t: Tile): (r: Option<nat>)
    requires forall j | 0 <= j < |members| :: members[j] < |cs|
    ensures r.Some? ==> r.value in members && r.value < |cs| && CoversFull(cs[r.value], t)
    ensures r.None? ==> forall j | 0 <= j < |members| :: !CoversFull(cs[members[j]], t)
  {
    if members == [] then None
    else if CoversFull(cs[members[0]], t) then Some(members[0])
    else FullRes(cs, members[1..], t)
  }

  function Survivor(cs: seq<Conn>, g: nat): Option<nat> {
    var ms := Members(cs, g);
    if g == 0 || |ms| <= 1 then None else FullRes(cs, ms, cs[ms[0]].tile)
  }

  predicate Redundant(cs: seq<Conn>, k: nat)
    requires k < |cs|
  {
    cs[k].connected && var s := Survivor(cs, cs[k].tile.groupId); s.Some? && s.value != k
  }

  function Marked(cs: seq<Conn>): (r: seq<Conn>)
    ensures |r| == |cs|
  {
    seq(|cs|, k requires 0 <= k < |cs| => cs[k].(redundant := Redundant(cs, k)))
  }

  /**
   A tile group is pruned exactly when it has two members and one that can show the whole picture, and then to
   one such member; otherwise nobody in it is redundant.
   */
  lemma TileGroupPruned(cs: seq<Conn>, g: nat)
    requires g != 0
    ensures var ms, cs', s := Members(cs, g), Marked(cs), Survivor(cs, g);
            if |ms| > 1 && exists j | 0 <= j < |ms| :: CoversFull(cs[ms[j]], cs[ms[0]].tile) then
              && s.Some? && s.value in ms && CoversFull(cs[s.value], cs[ms[0]].tile)
              && forall j | 0 <= j < |ms| :: cs'[ms[j]].redundant <==> ms[j] != s.value
            else
              forall j | 0 <= j < |ms| :: !cs'[ms[j]].redundant
  {
    var ms, cs' := Members(cs, g), Marked(cs);
    forall j | 0 <= j < |ms| ensures cs'[ms[j]].redundant <==> Survivor(cs, g).Some? && Survivor(cs, g).value != ms[j] {
    }
  }

  /** The first connected connector of the group. */
  predicate Leads(cs: seq<Conn>, g: nat, f: nat) {
    f < |cs| && cs[f].connected && cs[f].tile.groupId == g
    && forall j | 0 <= j < f :: !(cs[j].connected && cs[j].tile.groupId == g)
  }

  /** Connected, in the group, and its largest mode is at least the tiles of `t` put together. */
  predicate ShowsAll(c: Conn, g: nat, t: Tile) {
    c.connected && c.tile.groupId == g && c.maxX >= t.numH * t.hSize && c.maxY >= t.numV * t.vSize
  }

  lemma LeaderIsFirst(cs: seq<Conn>, g: nat, n: nat, f: nat)
    requires n <= |cs| && Leads(cs, g, f) && f < n
    ensures MembersUpTo(cs, g, n) != [] && MembersUpTo(cs, g, n)[0] == f
  {
    var ms := MembersUpTo(cs, g, n);
    assert f in ms;
    var i :| 0 <= i < |ms| && ms[i] == f;
    assert Member(cs[ms[0]], g);
  }

  lemma {:induction false} FirstThatShowsAll(cs: seq<Conn>, ms: seq<nat>, t: Tile, g: nat)
    requires forall j | 0 <= j < |ms| :: ms[j] < |cs| && Member(cs[ms[j]], g)
    requires forall i, j | 0 <= i < j < |ms| :: ms[i] < ms[j]
    ensures var r := FullRes(cs, ms, t);
            && (r.Some? <==> exists j | 0 <= j < |ms| :: ShowsAll(cs[ms[j]], g, t))
            && (r.Some? ==> r.value in ms && ShowsAll(cs[r.value], g, t)
                            && forall j | 0 <= j < |ms| && ms[j] < r.value :: !ShowsAll(cs[ms[j]], g, t))
    decreases |ms|
  {
    if ms == [] {
    } else {
      FirstThatShowsAll(cs, ms[1..], t, g);
      assert forall j | 1 <= j < |ms| :: ms[j] == ms[1..][j - 1];
      if ShowsAll(cs[ms[0]], g, t) {
        assert FullRes(cs, ms, t) == Some(ms[0]);
      } else {
        assert FullRes(cs, ms, t) == FullRes(cs, ms[1..], t);
      }
    }
  }

  lemma FirstOfAll(cs: seq<Conn>, g: nat, f: nat)
    requires Leads(cs, g, f)
    ensures var t := cs[f].tile; var r := FullRes(cs, Members(cs, g), t);
            && Members(cs, g) != [] && cs[Members(cs, g)[0]].tile == t
            && (r.Some? <==> exists j | 0 <= j < |cs| :: ShowsAll(cs[j], g, t))
            && (r.Some? ==> r.value < |cs| && ShowsAll(cs[r.value], g, t)
                            && forall j | 0 <= j < r.value :: !ShowsAll(cs[j], g, t))
  {
    var ms, t := Members(cs, g), cs[f].tile;
    LeaderIsFirst(cs, g, |cs|, f);
    FirstThatShowsAll(cs, ms, t, g);
    assert forall j | 0 <= j < |cs| && ShowsAll(cs[j], g, t) :: Member(cs[j], g) && j in ms;
  }

  /** Of a group with one member nobody is redundant. */
  lemma OnlyMember(cs: seq<Conn>, k: nat)
    requires k < |cs| && cs[k].connected && |Members(cs, cs[k].tile.groupId)| <= 1
    ensures forall j | 0 <= j < |cs| && Member(cs[j], cs[k].tile.groupId) :: j == k
  {
    var ms := Members(cs, cs[k].tile.groupId);
    assert k in ms;
    assert forall j | 0 <= j < |cs| && Member(cs[j], cs[k].tile.groupId) :: j in ms;
  }

  /**
   Redundant, with the arithmetic written out: connected, in a group, and not the first connector whose largest mode
   is at least the product of the tiles in both directions, by the tile of the group's first connected connector.
   Without such a connector nobody in the group is redundant.
   */
  lemma RedundantExactly(cs: seq<Conn>, k: nat, f: nat)
    requires k < |cs| && Leads(cs, cs[k].tile.groupId, f)
    ensures var g, t := cs[k].tile.groupId, cs[f].tile;
            Marked(cs)[k].redundant <==>
            && cs[k].connected && g != 0
            && (exists j | 0 <= j < |cs| :: ShowsAll(cs[j], g, t))
            && (ShowsAll(cs[k], g, t) ==> exists j | 0 <= j < k :: ShowsAll(cs[j], g, t))
  {
    var g, t := cs[k].tile.groupId, cs[f].tile;
    FirstOfAll(cs, g, f);
    if cs[k].connected && |Members(cs, g)| <= 1 {
      OnlyMember(cs, k);
    }
    hide FullRes, Members, CoversFull, Leads;
  }

  /** Nobody outside a group, and no connector that is not connected, is ever redundant. */
  lemma LonersStay(cs: seq<Conn>, k: nat)
    requires k < |cs| && (cs[k].tile.groupId == 0 || !cs[k].connected)
    ensures !Marked(cs)[k].redundant
  {
  }

  /** The usual monitor of two tiles, neither of which can show all of it: both halves stay. */
  lemma TwoHalvesStay()
    ensures var half := Conn(1, None, true, false, 1, false, false, Tile(1, 2, 1, 1920, 2160), 1920, 2160);
            var cs := Marked([half, half.(id := 2)]); !cs[0].redundant && !cs[1].redundant
  {
    var half := Conn(1, None, true, false, 1, false, false, Tile(1, 2, 1, 1920, 2160), 1920, 2160);
    RedundantExactly([half, half.(id := 2)], 0, 0);
    RedundantExactly([half, half.(id := 2)], 1, 0);
  }

  /** One that can show all of it makes the other half redundant. */
  lemma OneShowsAll()
    ensures var half := Conn(1, None, true, false, 1, false, false, Tile(1, 2, 1, 1920, 2160), 1920, 2160);
            var cs := Marked([half, half.(id := 2, maxX := 3840)]); cs[0].redundant && !cs[1].redundant
  {
    var half := Conn(1, None, true, false, 1, false, false, Tile(1, 2, 1, 1920, 2160), 1920, 2160);
    var cs := [half, half.(id := 2, maxX := 3840)];
    RedundantExactly(cs, 0, 0);
    RedundantExactly(cs, 1, 0);
    assert ShowsAll(cs[1], 1, cs[0].tile);
  }

  /** parseTileInfo of every connector, and no mark left. */
  function Parsed(cs: seq<Conn>, tiles: seq<Tile>): (r: seq<Conn>)
    requires |tiles| == |cs|
    ensures |r| == |cs|
  {
    seq(|cs|, k requires 0 <= k < |cs| => cs[k].(tile := tiles[k], redundant := false))
  }

  // ----- recheckOutputs, after the scan

  function Unplugged(c: Conn): Conn {
    if c.output && (!c.connected || c.redundant) then c.(connected := false, output := false) else c
  }

  /** `lookup` says whether the kernel still knows the connector. */
  function Plugged(c: Conn, lookup: bool): Conn {
    if c.connected && !c.output && !c.redundant && lookup then c.(output := true, enabled := false) else c
  }

  function AllUnplugged(cs: seq<Conn>): (r: seq<Conn>)
    ensures |r| == |cs|
  {
    seq(|cs|, k requires 0 <= k < |cs| => Unplugged(cs[k]))
  }

  function AllPlugged(cs: seq<Conn>, lookups: seq<bool>): (r: seq<Conn>)
    requires |lookups| == |cs|
    ensures |r| == |cs|
  {
    seq(|cs|, k requires 0 <= k < |cs| => Plugged(cs[k], lookups[k]))
  }

  function Rechecked(cs: seq<Conn>, n: nat, lookups: seq<bool>): (r: seq<Conn>)
    requires n <= MAX_CRTCS && |lookups| == |cs|
    ensures |r| == |cs|
  {
    AllPlugged(Assign(AllUnplugged(Marked(cs)), 0, n), lookups)
  }

  /** Whatever the scan left: a connector has an output exactly when it counts, but for a failed lookup of a new one. */
  lemma OutputsMatch(cs: seq<Conn>, n: nat, lookups: seq<bool>, k: nat)
    requires n <= MAX_CRTCS && |lookups| == |cs| && k < |cs|
    ensures var c' := Rechecked(cs, n, lookups)[k];
            c'.output <==> c'.Counts() && (cs[k].output || lookups[k])
  {
    AssignServes(AllUnplugged(Marked(cs)), 0, n);
  }

  /**
   What a pass does to one connector after the scan, from outside: its marks are those of its group; it counts as
   disconnected if it was found so or lost its output to the pruning; a new output is off until it is committed, and
   so is an old one that gets another CRTC; nothing else changes.
   */
  lemma RecheckedConnector(cs: seq<Conn>, n: nat, lookups: seq<bool>, k: nat)
    requires n <= MAX_CRTCS && |lookups| == |cs| && k < |cs|
    ensures var c, c' := cs[k], Rechecked(cs, n, lookups)[k];
            && c'.redundant == Marked(cs)[k].redundant
            && c'.connected == (c.connected && !(c.output && c'.redundant))
            && (c.crtc.Some? ==> c'.crtc == c.crtc)
            && (c'.output && (!c.output || c'.crtc != c.crtc) ==> !c'.enabled)
            && (c'.crtc == c.crtc && c'.output == c.output ==> c'.enabled == c.enabled)
            && c' == c.(redundant := c'.redundant, connected := c'.connected, crtc := c'.crtc, output := c'.output,
                        enabled := c'.enabled)
  {
    AssignServes(AllUnplugged(Marked(cs)), 0, n);
    hide Redundant, Assign;
  }

  /** Pruning holds of the result as well: of a pruned group, the one covering member still counts, and no other. */
  lemma PrunedGroupShows(cs: seq<Conn>, n: nat, lookups: seq<bool>, g: nat, k: nat)
    requires n <= MAX_CRTCS && |lookups| == |cs| && g != 0 && k < |cs| && Member(cs[k], g) && Survivor(cs, g).Some?
    ensures Rechecked(cs, n, lookups)[k].Counts() <==> k == Survivor(cs, g).value
  {
    AssignServes(AllUnplugged(Marked(cs)), 0, n);
  }

  /** Connectors that share a CRTC after a hotplug pass shared it when it began to assign. */
  lemma RecheckExclusive(cs: seq<Conn>, n: nat, lookups: seq<bool>)
    requires n <= MAX_CRTCS && |lookups| == |cs|
    ensures Exclusive(Rechecked(cs, n, lookups)) <==> Exclusive(AllUnplugged(Marked(cs)))
  {
    var mid := Assign(AllUnplugged(Marked(cs)), 0, n);
    AssignExclusive(AllUnplugged(Marked(cs)), 0, n);
    SameDrivers(mid, AllPlugged(mid, lookups));
  }

  lemma SameDrivers(cs: seq<Conn>, cs': seq<Conn>)
    requires |cs| == |cs'|
    requires forall k | 0 <= k < |cs| :: cs[k].Counts() == cs'[k].Counts() && cs[k].crtc == cs'[k].crtc
    ensures Exclusive(cs) <==> Exclusive(cs')
  {
    assert forall k, s: nat | 0 <= k < |cs| :: cs[k].Drives(s) <==> cs'[k].Drives(s);
  }

  // ----- scanConnectors

  /** What the kernel says of a connector; `usable` says whether init succeeds on a new one. */
  datatype Report = Report(connected: bool, maxX: int, maxY: int, usable: bool, possibleCrtcs: bv32, crtc: Option<nat>)

  /** An id in the kernel's list; asking for the connector may fail. */
  datatype Listing = Listing(id: nat, report: Option<Report>)

  const NO_TILE := Tile(0, 0, 0, 0, 0)

  function Seen(c: Conn, r: Report): Conn { c.(connected := r.connected, maxX := r.maxX, maxY := r.maxY) }

  /** A new connector starts on the CRTC the kernel has it on. */
  function Initial(id: nat, r: Report): Conn {
    Conn(id, r.crtc, false, false, r.possibleCrtcs, false, false, NO_TILE, 0, 0)
  }

  function Find(cs: seq<Conn>, id: nat): (k: Option<nat>)
    ensures k.Some? ==> k.value < |cs| && cs[k.value].id == id
    ensures k.None? ==> forall j | 0 <= j < |cs| :: cs[j].id != id
  {
    if cs == [] then None
    else if cs[0].id == id then Some(0)
    else
      match Find(cs[1..], id)
      case None => assert forall j | 1 <= j < |cs| :: cs[j] == cs[1..][j - 1]; None
      case Some(k) => Some(k + 1)
  }

  function Noted(cs: seq<Conn>, l: Listing): seq<Conn> {
    if l.report.None? then cs
    else
      var r := l.report.value;
      match Find(cs, l.id)
      case Some(k) => cs[k := Seen(cs[k], r)]
      case None => if r.usable then cs + [Seen(Initial(l.id, r), r)] else cs
  }

  function AllNoted(cs: seq<Conn>, listed: seq<Listing>): seq<Conn>
    decreases |listed|
  {
    if listed == [] then cs else AllNoted(Noted(cs, listed[0]), listed[1..])
  }

  predicate Lists(listed: seq<Listing>, id: nat) { exists i | 0 <= i < |listed| :: listed[i].id == id }

  /** std::erase_if */
  function Remaining(cs: seq<Conn>, listed: seq<Listing>): seq<Conn> {
    if cs == [] then []
    else (if Lists(listed, cs[0].id) then [cs[0]] else []) + Remaining(cs[1..], listed)
  }

  /** Without a list from the kernel nothing happens. */
  function Scanned(cs: seq<Conn>, listed: Option<seq<Listing>>): seq<Conn> {
    match listed
    case None => cs
    case Some(l) => Remaining(AllNoted(cs, l), l)
  }

  predicate UniqueIds(cs: seq<Conn>) { forall j, k | 0 <= j < k < |cs| :: cs[j].id != cs[k].id }

  /** What the scan leaves alone. */
  predicate SameConnector(c: Conn, c': Conn) {
    c' == c.(connected := c'.connected, maxX := c'.maxX, maxY := c'.maxY)
  }

  /** A new connector: as the kernel reports it. */
  predicate Reported(c: Conn, listed: seq<Listing>) {
    exists i | 0 <= i < |listed| :: IsReport(c, listed[i])
  }

  predicate IsReport(c: Conn, l: Listing) {
    l.report.Some? && l.report.value.usable && SameConnector(Initial(l.id, l.report.value), c)
  }

  /** `cs'` continues `cs`: the old connectors in their places, then new ones. */
  predicate Continues(cs: seq<Conn>, cs': seq<Conn>, listed: seq<Listing>) {
    && |cs| <= |cs'| && UniqueIds(cs')
    && (forall k | 0 <= k < |cs| :: SameConnector(cs[k], cs'[k]))
    && (forall k | |cs| <= k < |cs'| :: Reported(cs'[k], listed))
  }

  lemma NotedContinues(cs: seq<Conn>, l: Listing)
    requires UniqueIds(cs)
    ensures Continues(cs, Noted(cs, l), [l])
  {
    var cs' := Noted(cs, l);
    if |cs'| > |cs| {
      assert IsReport(cs'[|cs|], [l][0]);
    }
  }

  lemma ReportedByMore(c: Conn, listed: seq<Listing>)
    requires listed != []
    ensures Reported(c, [listed[0]]) || Reported(c, listed[1..]) ==> Reported(c, listed)
    ensures forall c' :: Reported(c, listed) && SameConnector(c, c') ==> Reported(c', listed)
  {
    if Reported(c, listed[1..]) {
      var i :| 0 <= i < |listed[1..]| && IsReport(c, listed[1..][i]);
      assert IsReport(c, listed[i + 1]);
    }
    if Reported(c, listed) {
      var i :| 0 <= i < |listed| && IsReport(c, listed[i]);
      assert forall c' :: SameConnector(c, c') ==> IsReport(c', listed[i]);
    }
  }

  lemma {:induction false} AllNotedContinues(cs: seq<Conn>, listed: seq<Listing>)
    requires UniqueIds(cs)
    ensures Continues(cs, AllNoted(cs, listed), listed)
    decreases |listed|
  {
    if listed == [] {
    } else {
      var cs1, cs' := Noted(cs, listed[0]), AllNoted(cs, listed);
      NotedContinues(cs, listed[0]);
      AllNotedContinues(cs1, listed[1..]);
      forall k | |cs| <= k < |cs'| ensures Reported(cs'[k], listed) {
        ReportedByMore(if k < |cs1| then cs1[k] else cs'[k], listed);
      }
    }
  }

  lemma {:induction false} RemainingExact(cs: seq<Conn>, listed: seq<Listing>)
    ensures forall c :: c in Remaining(cs, listed) <==> c in cs && Lists(listed, c.id)
    ensures UniqueIds(cs) ==> UniqueIds(Remaining(cs, listed))
    decreases |cs|
  {
    if cs == [] {
    } else {
      RemainingExact(cs[1..], listed);
      var rest := Remaining(cs[1..], listed);
      hide Lists, Remaining;
      assert forall c :: c in cs <==> c == cs[0] || c in cs[1..];
      if UniqueIds(cs) {
        assert forall j | 1 <= j < |cs| :: cs[1..][j - 1] == cs[j];
        assert forall j | 0 <= j < |rest| :: rest[j] in cs[1..];
      }
    }
  }

  /**
   Afterwards the connectors are those the kernel lists: the known ones, where they were, with their CRTC, and new
   ones on the CRTC the kernel has them on. No two have one id.
   */
  lemma ScanExact(cs: seq<Conn>, listed: seq<Listing>)
    requires UniqueIds(cs)
    ensures var cs' := Scanned(cs, Some(listed));
            && UniqueIds(cs')
            && (forall c <- cs | Lists(listed, c.id) :: exists c' <- cs' :: SameConnector(c, c'))
            && (forall c' <- cs' :: Lists(listed, c'.id)
                  && ((exists c <- cs :: SameConnector(c, c')) || Reported(c', listed)))
  {
    var noted := AllNoted(cs, listed);
    AllNotedContinues(cs, listed);
    RemainingExact(noted, listed);
    forall c | c in cs && Lists(listed, c.id) ensures exists c' <- Scanned(cs, Some(listed)) :: SameConnector(c, c') {
      var k :| 0 <= k < |cs| && cs[k] == c;
      assert noted[k] in noted && SameConnector(c, noted[k]);
    }
    forall c' | c' in noted ensures (exists c <- cs :: SameConnector(c, c')) || Reported(c', listed) {
      var k :| 0 <= k < |noted| && noted[k] == c';
      if k < |cs| {
        assert cs[k] in cs;
      }
    }
  }

  /** No listing of this id comes with a report. */
  predicate Silent(listed: seq<Listing>, id: nat) {
    forall i | 0 <= i < |listed| && listed[i].id == id :: listed[i].report.None?
  }

  lemma {:induction false} SilentStays(cs: seq<Conn>, listed: seq<Listing>, k: nat)
    requires k < |cs| && UniqueIds(cs) && Silent(listed, cs[k].id)
    ensures k < |AllNoted(cs, listed)| && AllNoted(cs, listed)[k] == cs[k]
    decreases |listed|
  {
    if listed == [] {
    } else {
      NotedContinues(cs, listed[0]);
      SilentStays(Noted(cs, listed[0]), listed[1..], k);
    }
  }

  /** The connector is as the kernel reports it. */
  predicate Says(c: Conn, id: nat, r: Report) {
    c.id == id && c.connected == r.connected && c.maxX == r.maxX && c.maxY == r.maxY
  }

  predicate Knows(cs: seq<Conn>, id: nat) { exists k | 0 <= k < |cs| :: cs[k].id == id }

  lemma NotedSays(cs: seq<Conn>, l: Listing) returns (k: nat)
    requires l.report.Some? && (l.report.value.usable || Knows(cs, l.id))
    ensures k < |Noted(cs, l)| && Says(Noted(cs, l)[k], l.id, l.report.value)
  {
    k := match Find(cs, l.id) case Some(k) => k case None => |cs|;
  }

  /** A listing that comes with a report, the only one of its id, settles what is known of its connector. */
  lemma {:induction false} AllNotedSays(cs: seq<Conn>, listed: seq<Listing>, i: nat) returns (k: nat)
    requires UniqueIds(cs) && i < |listed| && listed[i].report.Some?
    requires listed[i].report.value.usable || Knows(cs, listed[i].id)
    requires forall j | i < j < |listed| :: listed[j].id != listed[i].id
    ensures k < |AllNoted(cs, listed)| && Says(AllNoted(cs, listed)[k], listed[i].id, listed[i].report.value)
    decreases |listed|
  {
    var cs1 := Noted(cs, listed[0]);
    NotedContinues(cs, listed[0]);
    if i == 0 {
      k := NotedSays(cs, listed[0]);
      SilentStays(cs1, listed[1..], k);
    } else {
      if j :| 0 <= j < |cs| && cs[j].id == listed[i].id {
        assert cs1[j].id == listed[i].id;
      }
      k := AllNotedSays(cs1, listed[1..], i - 1);
    }
  }

  /**
   What the scan takes over: status and largest mode from the last report of a known or usable connector, and nothing
   of a listed connector the kernel says nothing about.
   */
  lemma ScanReports(cs: seq<Conn>, listed: seq<Listing>, i: nat)
    requires UniqueIds(cs) && i < |listed| && forall j | i < j < |listed| :: listed[j].id != listed[i].id
    ensures var id, report := listed[i].id, listed[i].report;
            && (report.Some? && (report.value.usable || Knows(cs, id))
                ==> exists c <- Scanned(cs, Some(listed)) :: Says(c, id, report.value))
            && (Silent(listed, id) ==> forall c <- cs | c.id == id :: c in Scanned(cs, Some(listed)))
  {
    var id, report, noted := listed[i].id, listed[i].report, AllNoted(cs, listed);
    RemainingExact(noted, listed);
    assert Lists(listed, id);
    if report.Some? && (report.value.usable || Knows(cs, id)) {
      var k := AllNotedSays(cs, listed, i);
      assert noted[k] in noted;
    }
    if Silent(listed, id) {
      forall c | c in cs && c.id == id ensures c in Scanned(cs, Some(listed)) {
        var k :| 0 <= k < |cs| && cs[k] == c;
        SilentStays(cs, listed, k);
        assert noted[k] in noted;
      }
    }
  }

  // ----- runs of hotplug passes

  /** The kernel during one pass: its list, the tile property of each connector, and who is still there at the end. */
  datatype Kernel = Kernel(listed: Option<seq<Listing>>, tiles: map<nat, Tile>, known: set<nat>)

  function Tiles(cs: seq<Conn>, kernel: Kernel): (r: seq<Tile>)
    ensures |r| == |cs|
  {
    seq(|cs|, k requires 0 <= k < |cs| => if cs[k].id in kernel.tiles then kernel.tiles[cs[k].id] else NO_TILE)
  }

  function Lookups(cs: seq<Conn>, kernel: Kernel): (r: seq<bool>)
    ensures |r| == |cs|
  {
    seq(|cs|, k requires 0 <= k < |cs| => cs[k].id in kernel.known)
  }

  /** The connectors when the CRTCs of a pass are assigned. */
  function Ready(cs: seq<Conn>, kernel: Kernel): seq<Conn> {
    var scanned := Scanned(cs, kernel.listed);
    AllUnplugged(Marked(Parsed(scanned, Tiles(scanned, kernel))))
  }

  /** A whole recheckOutputs. */
  function Pass(cs: seq<Conn>, n: nat, kernel: Kernel): seq<Conn>
    requires n <= MAX_CRTCS
  {
    var scanned := Scanned(cs, kernel.listed);
    Rechecked(Parsed(scanned, Tiles(scanned, kernel)), n, Lookups(scanned, kernel))
  }

  /** The connectors of a pass are those of its scan; each has the tile read in this pass, and its own lookup. */
  lemma PassConnector(cs: seq<Conn>, n: nat, kernel: Kernel, k: nat)
    requires n <= MAX_CRTCS && k < |Scanned(cs, kernel.listed)|
    ensures var c := Scanned(cs, kernel.listed)[k];
            && |Pass(cs, n, kernel)| == |Scanned(cs, kernel.listed)|
            && var c' := Pass(cs, n, kernel)[k];
               && c'.id == c.id && c'.possibleCrtcs == c.possibleCrtcs && c'.maxX == c.maxX && c'.maxY == c.maxY
               && (if c.id in kernel.tiles then c'.tile == kernel.tiles[c.id] else c'.tile.groupId == 0)
               && (c'.output <==> c'.Counts() && (c.output || c.id in kernel.known))
  {
    var scanned := Scanned(cs, kernel.listed);
    var parsed := Parsed(scanned, Tiles(scanned, kernel));
    RecheckedConnector(parsed, n, Lookups(scanned, kernel), k);
    OutputsMatch(parsed, n, Lookups(scanned, kernel), k);
    hide Rechecked, Scanned, Marked;
  }

  predicate Drove(cs: seq<Conn>, id: nat, i: nat) { exists m | 0 <= m < |cs| :: cs[m].id == id && cs[m].Drives(i) }

  /** A connector comes to drive a CRTC it did not drive before, and which another one drives too. */
  ghost predicate Comeback(cs: seq<Conn>, ready: seq<Conn>) {
    exists j, k, i: nat | 0 <= j < |ready| && 0 <= k < |ready| && j != k ::
      ready[j].Drives(i) && ready[k].Drives(i) && !Drove(cs, ready[j].id, i)
  }

  lemma DroveAlone(cs: seq<Conn>, id: nat, id': nat, i: nat)
    requires Exclusive(cs) && Drove(cs, id, i) && Drove(cs, id', i)
    ensures id == id'
  {
    var a :| 0 <= a < |cs| && cs[a].id == id && cs[a].Drives(i);
    var b :| 0 <= b < |cs| && cs[b].id == id' && cs[b].Drives(i);
    assert !(a < b) && !(b < a);
  }

  lemma ComebackShares(cs: seq<Conn>, ready: seq<Conn>)
    requires Exclusive(cs) && UniqueIds(ready)
    ensures Exclusive(ready) <==> !Comeback(cs, ready)
  {
    if !Exclusive(ready) {
      var j, k, i: nat :| 0 <= j < k < |ready| && ready[j].Drives(i) && ready[k].Drives(i);
      if Drove(cs, ready[j].id, i) && Drove(cs, ready[k].id, i) {
        DroveAlone(cs, ready[j].id, ready[k].id, i);
      }
    }
    if Comeback(cs, ready) {
      var j, k, i: nat :| 0 <= j < |ready| && 0 <= k < |ready| && j != k && ready[j].Drives(i) && ready[k].Drives(i)
          && !Drove(cs, ready[j].id, i);
      var a, b := if j < k then j else k, if j < k then k else j;
      assert ready[a].Drives(i) && ready[b].Drives(i);
    }
  }

  lemma ScannedIds(cs: seq<Conn>, listed: Option<seq<Listing>>)
    requires UniqueIds(cs)
    ensures UniqueIds(Scanned(cs, listed))
  {
    if listed.Some? {
      ScanExact(cs, listed.value);
    }
  }

  /** Connectors are what they were called, whatever is decided about them. */
  lemma PassIds(cs: seq<Conn>, n: nat, kernel: Kernel)
    requires n <= MAX_CRTCS && UniqueIds(cs)
    ensures UniqueIds(Ready(cs, kernel)) && UniqueIds(Pass(cs, n, kernel))
  {
    ScannedIds(cs, kernel.listed);
    AssignServes(Ready(cs, kernel), 0, n);
    hide Scanned, Assign, Redundant;
  }

  /** One pass keeps CRTCs exclusive if and only if no connector comes back on a CRTC another one drives. */
  lemma PassExclusive(cs: seq<Conn>, n: nat, kernel: Kernel)
    requires n <= MAX_CRTCS && UniqueIds(cs) && Exclusive(cs)
    ensures Exclusive(Pass(cs, n, kernel)) <==> !Comeback(cs, Ready(cs, kernel))
  {
    PassIds(cs, n, kernel);
    hide Exclusive, Comeback, Scanned, Parsed, Marked;
    var scanned := Scanned(cs, kernel.listed);
    RecheckExclusive(Parsed(scanned, Tiles(scanned, kernel)), n, Lookups(scanned, kernel));
    ComebackShares(cs, Ready(cs, kernel));
  }

  ghost predicate AlwaysExclusive(cs: seq<Conn>, n: nat, passes: seq<Kernel>)
    requires n <= MAX_CRTCS
    decreases |passes|
  {
    Exclusive(cs) && (passes == [] || AlwaysExclusive(Pass(cs, n, passes[0]), n, passes[1..]))
  }

  ghost predicate NoComeback(cs: seq<Conn>, n: nat, passes: seq<Kernel>)
    requires n <= MAX_CRTCS
    decreases |passes|
  {
    passes == []
    || (!Comeback(cs, Ready(cs, passes[0])) && NoComeback(Pass(cs, n, passes[0]), n, passes[1..]))
  }

  /** Over every run of hotplug passes nobody ever shares a CRTC if and only if there is no such comeback. */
  lemma {:induction false} RunExclusive(cs: seq<Conn>, n: nat, passes: seq<Kernel>)
    requires n <= MAX_CRTCS && UniqueIds(cs) && Exclusive(cs)
    ensures AlwaysExclusive(cs, n, passes) <==> NoComeback(cs, n, passes)
    decreases |passes|
  {
    hide Exclusive, Comeback, Ready, Pass, UniqueIds;
    if passes == [] {
    } else {
      PassExclusive(cs, n, passes[0]);
      PassIds(cs, n, passes[0]);
      var cs' := Pass(cs, n, passes[0]);
      if Exclusive(cs') {
        RunExclusive(cs', n, passes[1..]);
      } else {
        assert !AlwaysExclusive(cs', n, passes[1..]);
      }
    }
  }

  /** Connector 1, which the kernel has on CRTC 0, and connector 2; both can use nothing but CRTC 0. */
  function Pair(plugged: bool): Kernel {
    Kernel(Some([Listing(1, Some(Report(plugged, 0, 0, true, 1, Some(0)))),
           Listing(2, Some(Report(true, 0, 0, true, 1, None)))]), map[], {1, 2})
  }

  const FIRST := Conn(1, Some(0), true, false, 1, true, false, NO_TILE, 0, 0)
  const SECOND := Conn(2, None, true, false, 1, true, false, NO_TILE, 0, 0)

  lemma PairScanned(a: Conn, b: Conn, plugged: bool)
    requires a.id == 1 && b.id == 2
    ensures Scanned([a, b], Pair(plugged).listed)
            == [a.(connected := plugged, maxX := 0, maxY := 0), b.(connected := true, maxX := 0, maxY := 0)]
  {
    var l := Pair(plugged).listed.value;
    var cs := Noted([a, b], l[0]);
    var cs' := Noted(cs, l[1]);
    assert cs[1..] == [b] && Find([a, b], 1) == Some(0) && Find(cs[1..], 2) == Some(0);
    assert AllNoted([a, b], l) == AllNoted(cs, l[1..]) == AllNoted(cs', []) == cs';
    AllListed(cs', l);
  }

  lemma AllListed(cs: seq<Conn>, listed: seq<Listing>)
    requires |cs| == |listed| == 2 && cs[0].id == listed[0].id && cs[1].id == listed[1].id
    ensures Remaining(cs, listed) == cs
  {
    assert Lists(listed, cs[0].id) && Lists(listed, cs[1].id);
    assert Remaining(cs[1..], listed) == [cs[1]];
  }

  lemma PairFound()
    ensures Scanned([], Pair(true).listed)
            == [FIRST.(output := false), SECOND.(output := false)]
  {
    var l := Pair(true).listed.value;
    var a, b := FIRST.(output := false), SECOND.(output := false);
    assert Noted([], l[0]) == [a] && Find([a], 2) == None && Noted([a], l[1]) == [a, b];
    assert AllNoted([], l) == AllNoted([a], l[1..]) == AllNoted([a, b], []) == [a, b];
    AllListed([a, b], l);
  }

  /** The rest of a pass, in which nothing is tiled and every lookup succeeds. */
  lemma PairPass(cs: seq<Conn>, a: Conn, b: Conn, plugged: bool)
    requires Scanned(cs, Pair(plugged).listed) == [a, b] && a.id == 1 && b.id == 2
    requires a.crtc == Some(0) && a.connected == plugged && b.connected && b.possibleCrtcs == 1
    requires a.tile == b.tile == NO_TILE && !a.redundant && !b.redundant && (b.output ==> !b.enabled)
    ensures Ready(cs, Pair(plugged)) == [Unplugged(a), b]
    ensures Pass(cs, 1, Pair(plugged))
            == [Plugged(Unplugged(a), true), Plugged(if b.crtc.None? && !plugged then b.Given(0) else b, true)]
  {
    var kernel := Pair(plugged);
    PairReady(a, b, plugged);
    assert Lookups([a, b], kernel) == [true, true];
    PairAssigned(Unplugged(a), b);
    hide Scanned, Marked, Parsed, Tiles, Lookups, Assign, AllUnplugged, Plugged;
  }

  lemma PairReady(a: Conn, b: Conn, plugged: bool)
    requires a.tile == b.tile == NO_TILE && !a.redundant && !b.redundant && b.connected
    ensures AllUnplugged(Marked(Parsed([a, b], Tiles([a, b], Pair(plugged))))) == [Unplugged(a), b]
  {
    assert Parsed([a, b], Tiles([a, b], Pair(plugged))) == [a, b];
    assert Marked([a, b]) == [a, b];
  }

  lemma PairAssigned(a: Conn, b: Conn)
    requires a.crtc == Some(0) && b.connected && !a.redundant && !b.redundant && b.possibleCrtcs == 1
    ensures Assign([a, b], 0, 1) == [a, if b.crtc.None? && !a.connected then b.Given(0) else b]
  {
    var cs := [a, b];
    assert b.Allows(0) && cs[1..] == [b];
    if a.connected {
      assert cs[0].Drives(0);
    } else if b.crtc == Some(0) {
      assert cs[1].Drives(0);
    } else {
      assert FirstFit(cs[1..], 0) == if b.crtc.None? then Some(0) else None;
    }
    assert Assign(cs, 0, 1) == Assign(Give(cs, 0), 1, 1) == Give(cs, 0);
  }

  /**
   A connector keeps its CRTC while unplugged: plugged in again after the CRTC went to another, it shares it. The
   run starts with no connectors.
   */
  lemma ReplugShares()
    ensures var passes := [Pair(true), Pair(false), Pair(true)];
            && AlwaysExclusive([], 1, passes[..2]) && !AlwaysExclusive([], 1, passes)
  {
    var p, q := Pair(true), Pair(false);
    var a1, b1 := FIRST.(output := false), SECOND.(output := false);
    PairFound();
    PairPass([], a1, b1, true);
    var cs1 := [FIRST, SECOND];
    assert Pass([], 1, p) == cs1;
    var a2, b3 := FIRST.(connected := false), SECOND.(crtc := Some(0));
    PairScanned(FIRST, SECOND, false);
    PairPass(cs1, a2, SECOND, false);
    var cs2 := [a2.(output := false), b3];
    assert Pass(cs1, 1, q) == cs2;
    PairScanned(cs2[0], b3, true);
    PairPass(cs2, a1, b3, true);
    assert Pass(cs2, 1, p) == [FIRST, b3];
    PairRun(cs1, cs2, [FIRST, b3]);
  }

  lemma PairRun(cs1: seq<Conn>, cs2: seq<Conn>, cs3: seq<Conn>)
    requires var p, q := Pair(true), Pair(false);
             Pass([], 1, p) == cs1 && Pass(cs1, 1, q) == cs2 && Pass(cs2, 1, p) == cs3
    requires cs1 == [FIRST, SECOND] && |cs2| == |cs3| == 2 && !cs2[0].connected
    requires cs3[0].Drives(0) && cs3[1].Drives(0)
    ensures var passes := [Pair(true), Pair(false), Pair(true)];
            && AlwaysExclusive([], 1, passes[..2]) && !AlwaysExclusive([], 1, passes)
  {
    hide Pass, Pair;
    var p, q := Pair(true), Pair(false);
    assert Exclusive([]) && Exclusive(cs1) && Exclusive(cs2) && !Exclusive(cs3);
    assert [p, q, p][1..] == [q, p] && [q, p][1..] == [p] && [p][1..] == [];
    assert [p, q, p][..2] == [p, q] && [p, q][1..] == [q] && [q][1..] == [];
    assert AlwaysExclusive(cs2, 1, []) && AlwaysExclusive(cs1, 1, [q]) && AlwaysExclusive([], 1, [p, q]);
    assert !AlwaysExclusive(cs3, 1, []) && !AlwaysExclusive(cs2, 1, [p]) && !AlwaysExclusive(cs1, 1, [q, p]);
  }

  // ----- the code

  /** `recheck` lists, in order, the connectors that are neither redundant nor live. */
  ghost predicate WaitList(cs: seq<Conn>, recheck: seq<nat>) {
    && (forall j | 0 <= j < |recheck| :: recheck[j] < |cs| && cs[recheck[j]].Waits())
    && (forall i, j | 0 <= i < j < |recheck| :: recheck[i] < recheck[j])
    && (forall i | 0 <= i < |cs| && cs[i].Waits() :: i in recheck)
  }

  /** A search of the list up to `j` finds what a search of all connectors finds. */
  lemma WaitersInOrder(cs: seq<Conn>, i: nat, recheck: seq<nat>, j: nat)
    requires i < MAX_CRTCS && j <= |recheck| && WaitList(cs, recheck)
    requires forall l | 0 <= l < j :: !(cs[recheck[l]].Wants() && cs[recheck[l]].Allows(i))
    requires j < |recheck| ==> cs[recheck[j]].Wants() && cs[recheck[j]].Allows(i)
    ensures FirstFit(cs, i) == if j < |recheck| then Some(recheck[j]) else None
  {
    var f := FirstFit(cs, i);
    if f.Some? {
      assert cs[f.value].Waits();
      var l :| 0 <= l < |recheck| && recheck[l] == f.value;
      assert l >= j;
    }
  }

  lemma Removed(s: seq<nat>, j: nat)
    requires j < |s| && forall i, k | 0 <= i < k < |s| :: s[i] < s[k]
    ensures var r := s[..j] + s[j + 1..];
            && (forall i, k | 0 <= i < k < |r| :: r[i] < r[k])
            && (forall i | 0 <= i < |r| :: r[i] in s && r[i] != s[j])
            && (forall x | x in s && x != s[j] :: x in r)
  {
    var r := s[..j] + s[j + 1..];
    assert forall x | 0 <= x < |r| :: r[x] == s[if x < j then x else x + 1];
    forall x | x in s && x != s[j] ensures x in r {
      var l :| 0 <= l < |s| && s[l] == x;
      assert r[if l < j then l else l - 1] == x;
    }
  }

  lemma RemoveServed(cs: seq<Conn>, i: nat, recheck: seq<nat>, j: nat)
    requires WaitList(cs, recheck) && j < |recheck| && cs[recheck[j]].Wants()
    ensures WaitList(cs[recheck[j] := cs[recheck[j]].Given(i)], recheck[..j] + recheck[j + 1..])
  {
    Removed(recheck, j);
    var cs' := cs[recheck[j] := cs[recheck[j]].Given(i)];
    assert !cs'[recheck[j]].Waits();
  }

  /** `groups` maps the groups of the first `n` connectors to their connected members. */
  ghost predicate Grouped(cs: seq<Conn>, groups: map<nat, seq<nat>>, n: nat)
    requires n <= |cs|
  {
    && 0 !in groups
    && (forall g | g in groups :: groups[g] == MembersUpTo(cs, g, n))
    && (forall g: nat | g != 0 && g !in groups :: MembersUpTo(cs, g, n) == [])
    && (forall k | 0 <= k < n && cs[k].connected && cs[k].tile.groupId != 0 :: cs[k].tile.groupId in groups)
  }

  function GroupsWith(cs: seq<Conn>, groups: map<nat, seq<nat>>, n: nat): map<nat, seq<nat>>
    requires n < |cs|
  {
    var g := cs[n].tile.groupId;
    if cs[n].connected && g != 0 then groups[g := (if g in groups then groups[g] else []) + [n]] else groups
  }

  lemma GroupOne(cs: seq<Conn>, groups: map<nat, seq<nat>>, n: nat)
    requires n < |cs| && Grouped(cs, groups, n)
    ensures Grouped(cs, GroupsWith(cs, groups, n), n + 1)
  {
    hide MembersUpTo;
    var groups' := GroupsWith(cs, groups, n);
    forall g | g in groups' ensures groups'[g] == MembersUpTo(cs, g, n + 1) {
      MembersStep(cs, g, n);
      GroupStep(cs, groups, n, g);
    }
    forall g: nat | g != 0 && g !in groups' ensures MembersUpTo(cs, g, n + 1) == [] {
      MembersStep(cs, g, n);
    }
  }

  lemma GroupStep(cs: seq<Conn>, groups: map<nat, seq<nat>>, n: nat, g: nat)
    requires n < |cs| && g != 0 && g in GroupsWith(cs, groups, n)
    ensures GroupsWith(cs, groups, n)[g]
            == (if g in groups then groups[g] else []) + (if Member(cs[n], g) then [n] else [])
  {
  }

  lemma MembersStep(cs: seq<Conn>, g: nat, n: nat)
    requires n < |cs|
    ensures MembersUpTo(cs, g, n + 1) == MembersUpTo(cs, g, n) + (if Member(cs[n], g) then [n] else [])
  {
  }

  lemma GroupNone(cs: seq<Conn>)
    ensures Grouped(cs, map[], 0)
  {
  }

  /** While the groups in `todo` are still to be looked at. */
  ghost predicate MarkedSoFar(cs: seq<Conn>, cs': seq<Conn>, todo: set<nat>) {
    && |cs'| == |cs|
    && forall k | 0 <= k < |cs| :: cs'[k] == cs[k].(redundant := cs[k].tile.groupId !in todo && Redundant(cs, k))
  }

  lemma {:induction false} SameFullRes(cs: seq<Conn>, cs': seq<Conn>, members: seq<nat>, t: Tile)
    requires forall j | 0 <= j < |members| :: members[j] < |cs|
    requires |cs'| == |cs| && forall k | 0 <= k < |cs| :: cs'[k] == cs[k].(redundant := cs'[k].redundant)
    ensures FullRes(cs', members, t) == FullRes(cs, members, t)
  {
    if members == [] {
    } else {
      SameFullRes(cs, cs', members[1..], t);
    }
  }

  lemma GroupMarked(cs: seq<Conn>, before: seq<Conn>, after: seq<Conn>, todo: set<nat>, g: nat, members: seq<nat>)
    requires MarkedSoFar(cs, before, todo) && g in todo && members == Members(cs, g) && |after| == |cs|
    requires var s := Survivor(cs, g);
             forall k | 0 <= k < |cs| ::
               after[k] == if s.Some? && k in members && k != s.value then before[k].(redundant := true) else before[k]
    ensures MarkedSoFar(cs, after, todo - {g})
  {
    forall k | 0 <= k < |cs|
      ensures after[k] == cs[k].(redundant := cs[k].tile.groupId !in todo - {g} && Redundant(cs, k))
    {
      if cs[k].tile.groupId == g {
        assert cs[k].connected ==> k in members;
      } else {
        assert k !in members;
      }
    }
  }

  lemma {:induction false} FirstWithId(cs: seq<Conn>, id: nat, j: nat)
    requires j < |cs| && cs[j].id == id && forall l | 0 <= l < j :: cs[l].id != id
    ensures Find(cs, id) == Some(j)
    decreases j
  {
    if j == 0 {
    } else {
      FirstWithId(cs[1..], id, j - 1);
    }
  }

  lemma NoneWithId(cs: seq<Conn>, id: nat)
    requires forall l | 0 <= l < |cs| :: cs[l].id != id
    ensures Find(cs, id) == None
  {
  }

  class Connector {
    const id: nat
    var crtc: Option<nat>
    var connected: bool
    var tilingRedundant: bool
    const possibleCrtcs: bv32
    var output: bool
    var enabled: bool
    var tile: Tile
    var maxX: int
    var maxY: int

    constructor (id: nat, r: Report)
      ensures Value() == Initial(id, r)
    {
      this.id, possibleCrtcs, crtc, tile := id, r.possibleCrtcs, r.crtc, NO_TILE;
      connected, tilingRedundant, output, enabled, maxX, maxY := false, false, false, false, 0, 0;
    }

    method See(r: Report)
      modifies this
      ensures Value() == Seen(old(Value()), r)
    {
      connected, maxX, maxY := r.connected, r.maxX, r.maxY;
    }

    function Value(): Conn
      reads this
    {
      Conn(id, crtc, connected, tilingRedundant, possibleCrtcs, output, enabled, tile, maxX, maxY)
    }

    predicate Fits(i: nat)
      requires i < MAX_CRTCS
      reads this
    {
      possibleCrtcs & ((1 as bv32) << i) != 0
    }

    method Disconnect()
      modifies this
      ensures Value() == old(Value()).(connected := false, output := false)
    {
      connected, output := false, false;
    }

    /** The old output is turned off; its commit does nothing, since the connector has no CRTC. */
    method Take(i: nat)
      modifies this
      ensures Value() == old(Value()).Given(i)
    {
      if output && enabled {
        enabled := false;
      }
      crtc := Some(i);
    }
  }

  function ValuesOf(connectors: seq<Connector>): (r: seq<Conn>)
    reads connectors
    ensures |r| == |connectors|
  {
    seq(|connectors|, k requires 0 <= k < |connectors| reads connectors => connectors[k].Value())
  }

  /** The listed ones. */
  function Picked(all: seq<Connector>, listed: seq<Listing>): seq<Connector> {
    if all == [] then []
    else (if Lists(listed, all[0].id) then [all[0]] else []) + Picked(all[1..], listed)
  }

  lemma PickedNext(all: seq<Connector>, listed: seq<Listing>, j: nat)
    requires j < |all|
    ensures Picked(all[j..], listed)
            == (if Lists(listed, all[j].id) then [all[j]] else []) + Picked(all[j + 1..], listed)
  {
    assert all[j..][1..] == all[j + 1..];
  }

  predicate Distinct(all: seq<Connector>) { forall j, k | 0 <= j < k < |all| :: all[j] != all[k] }

  lemma {:induction false} PickedFrom(all: seq<Connector>, listed: seq<Listing>)
    ensures forall k | 0 <= k < |Picked(all, listed)| :: Picked(all, listed)[k] in all
    ensures Distinct(all) ==> Distinct(Picked(all, listed))
    ensures all == [] ==> Picked(all, listed) == []
    decreases |all|
  {
    if all == [] {
    } else {
      PickedFrom(all[1..], listed);
      if Distinct(all) {
        assert forall j | 1 <= j < |all| :: all[1..][j - 1] == all[j];
        assert all[0] !in all[1..];
      }
    }
  }

  lemma {:induction false} PickedValues(all: seq<Connector>, cs: seq<Conn>, listed: seq<Listing>)
    requires |all| == |cs| && forall k | 0 <= k < |all| :: all[k].id == cs[k].id
    requires forall k | 0 <= k < |all| && Lists(listed, all[k].id) :: all[k].Value() == cs[k]
    ensures ValuesOf(Picked(all, listed)) == Remaining(cs, listed)
    decreases |all|
  {
    if all == [] {
    } else {
      PickedValues(all[1..], cs[1..], listed);
      hide Lists;
      assert Picked(all, listed) == (if Lists(listed, all[0].id) then [all[0]] else []) + Picked(all[1..], listed);
    }
  }

  lemma RestIsRemaining(all: seq<Connector>, cs: seq<Conn>, listed: seq<Listing>, rest: seq<Connector>)
    requires |all| == |cs| && Distinct(all) && forall k | 0 <= k < |all| :: all[k].id == cs[k].id
    requires forall k | 0 <= k < |all| && Lists(listed, all[k].id) :: all[k].Value() == cs[k]
    requires Picked(all, listed) == rest + Picked(all[|all|..], listed)
    ensures ValuesOf(rest) == Remaining(cs, listed) && Distinct(rest)
    ensures forall k | 0 <= k < |rest| :: rest[k] in all
  {
    hide Lists, Picked, Remaining;
    PickedFrom([], listed);
    assert all[|all|..] == [] && rest + [] == rest;
    PickedFrom(all, listed);
    PickedValues(all, cs, listed);
  }

  method IsListed(id: nat, listed: seq<Listing>) returns (found: bool)
    ensures found <==> Lists(listed, id)
  {
    for i := 0 to |listed|
      invariant forall j | 0 <= j < i :: listed[j].id != id
    {
      if listed[i].id == id {
        return true;
      }
    }
    return false;
  }

  class Backend {
    var connectors: seq<Connector>
    const crtcCount: nat

    ghost predicate Valid()
      reads this
    {
      crtcCount <= MAX_CRTCS && Distinct(connectors)
    }

    function Values(): (r: seq<Conn>)
      reads this, connectors
      ensures |r| == |connectors|
    {
      ValuesOf(connectors)
    }

    constructor (connectors: seq<Connector>, crtcCount: nat)
      requires crtcCount <= MAX_CRTCS && Distinct(connectors)
      ensures Valid() && this.connectors == connectors && this.crtcCount == crtcCount
    {
      this.connectors, this.crtcCount := connectors, crtcCount;
    }

    method FindConnector(id: nat) returns (k: Option<nat>)
      ensures k == Find(Values(), id)
    {
      for j := 0 to |connectors|
        invariant forall l | 0 <= l < j :: connectors[l].id != id
      {
        if connectors[j].id == id {
          FirstWithId(Values(), id, j);
          return Some(j);
        }
      }
      NoneWithId(Values(), id);
      return None;
    }

    /** A new connector is appended, and dropped again if init fails. */
    method Add(id: nat, r: Report)
      requires Valid()
      modifies this`connectors
      ensures Valid() && Values() == old(Values()) + if r.usable then [Seen(Initial(id, r), r)] else []
      ensures forall k | 0 <= k < |connectors| :: connectors[k] in old(connectors) || fresh(connectors[k])
    {
      hide Initial, Seen;
      var conn := new Connector(id, r);
      connectors := connectors + [conn];
      if !r.usable {
        connectors := connectors[..|connectors| - 1];
        return;
      }
      conn.See(r);
    }

    /** One connector of the kernel's list. */
    method Note(l: Listing)
      requires Valid()
      modifies this`connectors, connectors
      ensures Valid() && Values() == Noted(old(Values()), l)
      ensures forall k | 0 <= k < |connectors| :: connectors[k] in old(connectors) || fresh(connectors[k])
    {
      hide Initial, Seen, Find;
      if l.report.None? {
        return;
      }
      ghost var cs := Values();
      var k := FindConnector(l.id);
      if k.None? {
        Add(l.id, l.report.value);
      } else {
        connectors[k.value].See(l.report.value);
        assert Values() == cs[k.value := Seen(cs[k.value], l.report.value)];
      }
    }

    /** Erases the connectors that are not listed; one that has an output is disconnected first. */
    method EraseUnlisted(listed: seq<Listing>)
      requires Valid()
      modifies this`connectors, connectors
      ensures Valid() && Values() == Remaining(old(Values()), listed)
      ensures forall k | 0 <= k < |connectors| :: connectors[k] in old(connectors)
    {
      hide Lists, Remaining, Picked;
      ghost var cs := Values();
      var all, rest: seq<Connector> := connectors, [];
      for j := 0 to |all|
        invariant connectors == all == old(connectors)
        invariant forall k | 0 <= k < |all| && (j <= k || Lists(listed, all[k].id)) :: all[k].Value() == cs[k]
        invariant Picked(all, listed) == rest + Picked(all[j..], listed)
      {
        PickedNext(all, listed, j);
        var listedHere := IsListed(all[j].id, listed);
        if listedHere {
          rest := rest + [all[j]];
        } else if all[j].output {
          all[j].Disconnect();
        }
      }
      RestIsRemaining(all, cs, listed, rest);
      connectors := rest;
    }

    method ScanConnectors(listed: Option<seq<Listing>>)
      requires Valid()
      modifies this`connectors, connectors
      ensures Valid() && Values() == Scanned(old(Values()), listed)
      ensures forall k | 0 <= k < |connectors| :: connectors[k] in old(connectors) || fresh(connectors[k])
    {
      if listed.None? {
        return;
      }
      for i := 0 to |listed.value|
        invariant Valid()
        invariant forall k | 0 <= k < |connectors| :: connectors[k] in old(connectors) || fresh(connectors[k])
        invariant AllNoted(Values(), listed.value[i..]) == AllNoted(old(Values()), listed.value)
      {
        Note(listed.value[i]);
      }
      EraseUnlisted(listed.value);
    }

    /** The connectors recheckCRTCs may serve, by position. */
    method CollectRecheck() returns (recheck: seq<nat>)
      requires Valid()
      ensures WaitList(Values(), recheck)
    {
      recheck := [];
      for k := 0 to |connectors|
        invariant forall j | 0 <= j < |recheck| :: recheck[j] < k && connectors[recheck[j]].Value().Waits()
        invariant forall i, j | 0 <= i < j < |recheck| :: recheck[i] < recheck[j]
        invariant forall i | 0 <= i < k && connectors[i].Value().Waits() :: i in recheck
      {
        var c := connectors[k];
        if c.tilingRedundant {
          continue;
        }
        if c.crtc.Some? && c.connected {
          continue;
        }
        recheck := recheck + [k];
      }
    }

    method IsTaken(i: nat) returns (taken: bool)
      ensures taken <==> Taken(Values(), i)
    {
      for k := 0 to |connectors|
        invariant forall j | 0 <= j < k :: !Values()[j].Drives(i)
      {
        var c := connectors[k];
        if c.crtc != Some(i) {
          continue;
        }
        if !c.connected || c.tilingRedundant {
          continue;
        }
        assert Values()[k].Drives(i);
        return true;
      }
      return false;
    }

    /** One slot: its CRTC goes to the first connector of the list that is connected and can use it. */
    method Serve(i: nat, recheck: seq<nat>) returns (recheck': seq<nat>)
      requires Valid() && i < crtcCount && WaitList(Values(), recheck) && !Taken(Values(), i)
      modifies connectors
      ensures Values() == Give(old(Values()), i) && WaitList(Values(), recheck')
    {
      ghost var cs := Values();
      var j := 0;
      while j < |recheck| && !(connectors[recheck[j]].Fits(i) && connectors[recheck[j]].connected)
        invariant 0 <= j <= |recheck|
        invariant forall l | 0 <= l < j :: !(cs[recheck[l]].Wants() && cs[recheck[l]].Allows(i))
      {
        j := j + 1;
      }
      WaitersInOrder(cs, i, recheck, j);
      if j == |recheck| {
        return recheck;
      }
      RemoveServed(cs, i, recheck, j);
      connectors[recheck[j]].Take(i);
      assert Values() == cs[recheck[j] := cs[recheck[j]].Given(i)];
      recheck' := recheck[..j] + recheck[j + 1..];
    }

    method RecheckCrtcs()
      requires Valid()
      modifies connectors
      ensures Values() == Assign(old(Values()), 0, crtcCount)
    {
      if connectors == [] || crtcCount == 0 {
        return;
      }
      var recheck := CollectRecheck();
      for i := 0 to crtcCount
        invariant WaitList(Values(), recheck)
        invariant Assign(Values(), i, crtcCount) == Assign(old(Values()), 0, crtcCount)
      {
        var taken := IsTaken(i);
        if taken {
          continue;
        }
        recheck := Serve(i, recheck);
      }
    }

    method FindFullRes(members: seq<nat>, t: Tile) returns (k: Option<nat>)
      requires forall j | 0 <= j < |members| :: members[j] < |connectors|
      ensures k == FullRes(Values(), members, t)
    {
      var fullWidth, fullHeight := t.numH * t.hSize, t.numV * t.vSize;
      for j := 0 to |members|
        invariant FullRes(Values(), members, t) == FullRes(Values(), members[j..], t)
      {
        var c := connectors[members[j]];
        if c.maxX >= fullWidth && c.maxY >= fullHeight {
          return Some(members[j]);
        }
      }
      return None;
    }

    /** The groups of connected members, as an unordered map. */
    method TileGroups() returns (groups: map<nat, seq<nat>>)
      requires Valid()
      ensures Grouped(Values(), groups, |connectors|)
    {
      hide Grouped, MembersUpTo;
      groups := map[];
      GroupNone(Values());
      for k := 0 to |connectors|
        invariant Grouped(Values(), groups, k)
      {
        GroupOne(Values(), groups, k);
        var c := connectors[k];
        if !c.connected || c.tile.groupId == 0 {
          continue;
        }
        var g := c.tile.groupId;
        groups := groups[g := (if g in groups then groups[g] else []) + [k]];
      }
    }

    /** One group: every member but the survivor is redundant. */
    method MarkGroup(members: seq<nat>, survivor: nat)
      requires Valid() && forall j | 0 <= j < |members| :: members[j] < |connectors|
      modifies connectors
      ensures forall k | 0 <= k < |connectors| ::
                Values()[k] == (if k in members && k != survivor then old(Values()[k]).(redundant := true)
                    else old(Values()[k]))
    {
      for j := 0 to |members|
        invariant forall k | 0 <= k < |connectors| ::
                    Values()[k] == (if k in members[..j] && k != survivor then old(Values()[k]).(redundant := true)
                        else old(Values()[k]))
      {
        if members[j] == survivor {
          continue;
        }
        connectors[members[j]].tilingRedundant := true;
      }
      assert members[..|members|] == members;
    }

    method ParseTiles(tiles: seq<Tile>)
      requires Valid() && |tiles| == |connectors|
      modifies connectors
      ensures Values() == Parsed(old(Values()), tiles)
    {
      for k := 0 to |connectors|
        invariant forall j | 0 <= j < |connectors| ::
                    Values()[j] == if j < k then old(Values()[j]).(tile := tiles[j], redundant := false)
                        else old(Values()[j])
      {
        connectors[k].tile := tiles[k];
        connectors[k].tilingRedundant := false;
      }
    }

    method MarkRedundantTiles(tiles: seq<Tile>)
      requires Valid() && |tiles| == |connectors|
      modifies connectors
      ensures Values() == Marked(Parsed(old(Values()), tiles))
    {
      ParseTiles(tiles);
      ghost var cs := Values();
      var groups := TileGroups();
      var todo := groups.Keys;
      while todo != {}
        invariant todo <= groups.Keys
        invariant MarkedSoFar(cs, Values(), todo)
      {
        var g :| g in todo;
        PruneGroup(groups[g], g, cs, todo);
        todo := todo - {g};
      }
    }

    method PruneGroup(members: seq<nat>, ghost g: nat, ghost cs: seq<Conn>, ghost todo: set<nat>)
      requires Valid() && MarkedSoFar(cs, Values(), todo) && g in todo && g != 0 && members == Members(cs, g)
      modifies connectors
      ensures MarkedSoFar(cs, Values(), todo - {g})
    {
      hide Redundant, Member, CoversFull, Members;
      ghost var before := Values();
      if |members| <= 1 {
        assert Survivor(cs, g) == None;
        GroupMarked(cs, before, before, todo, g, members);
        return;
      }
      var t := connectors[members[0]].tile;
      assert t == before[members[0]].tile == cs[members[0]].tile;
      var found := FindFullRes(members, t);
      SameFullRes(cs, before, members, t);
      assert Survivor(cs, g) == found;
      if found.Some? {
        MarkGroup(members, found.value);
      }
      GroupMarked(cs, before, Values(), todo, g, members);
    }

    method RecheckOutputs(kernel: Kernel)
      requires Valid()
      modifies this`connectors, connectors
      ensures Valid() && Values() == Pass(old(Values()), crtcCount, kernel)
    {
      ScanConnectors(kernel.listed);
      var tiles, lookups := Tiles(Values(), kernel), Lookups(Values(), kernel);
      MarkRedundantTiles(tiles);
      UnplugAll();
      RecheckCrtcs();
      PlugAll(lookups);
    }

    method UnplugAll()
      requires Valid()
      modifies connectors
      ensures Values() == AllUnplugged(old(Values()))
    {
      for k := 0 to |connectors|
        invariant forall j | 0 <= j < |connectors| ::
                 Values()[j] == if j < k then Unplugged(old(Values()[j])) else old(Values()[j])
      {
        var c := connectors[k];
        if !c.connected && c.output {
          c.Disconnect();
        }
        if c.tilingRedundant && c.output {
          c.Disconnect();
        }
      }
    }

    method PlugAll(lookups: seq<bool>)
      requires Valid() && |lookups| == |connectors|
      modifies connectors
      ensures Values() == AllPlugged(old(Values()), lookups)
    {
      for k := 0 to |connectors|
        invariant forall j | 0 <= j < |connectors| ::
                    Values()[j] == if j < k then Plugged(old(Values()[j]), lookups[j]) else old(Values()[j])
      {
        var c := connectors[k];
        if c.connected && !c.output && !c.tilingRedundant {
          if !lookups[k] {
            continue;
          }
          c.output, c.enabled := true, false;
        }
      }
    }
  }
}
