/**
 Property blobs of an atomic commit (src/backend/drm/impl/Atomic.cpp).

 The kernel hands out blob ids on request; the CRTC keeps one id per slot and the commit data one id per
 wish. Id 0 means "no blob". The kernel is a set of live ids: creating adds an id that is not live (ids of
 destroyed blobs may come back), destroying is allowed on live ids only.
 */
module AtomicCommit {
  import opened Sequences

  /** SDRMCRTC::atomic */
  datatype Slots = Slots(ownModeId: bool, mode: nat, gamma: nat, ctm: nat, hdr: nat)

  /** The ids in SDRMConnectorCommitData::atomic, and its blobbed flag. */
  datatype Blobs = Blobs(mode: nat, gamma: nat, degamma: nat, ctm: nat, hdr: nat, damage: nat, blobbed: bool)

  const NO_SLOTS := Slots(false, 0, 0, 0, 0)
  const NO_BLOBS := Blobs(0, 0, 0, 0, 0, 0, false)

  /** A gamma or degamma table: is its commit bit set, does the CRTC have the property, is the table empty. */
  datatype Lut = Lut(committed: bool, prop: bool, empty: bool)

  /** Everything prepareConnector and addConnector read. */
  datatype Job = Job(
    modeset: bool, enabled: bool, hasFb: bool,
    gamma: Lut, degamma: Lut,
    ctmValue: bool, ctmCommitted: bool, ctmProp: bool,
    hdrValue: bool, hdrCommitted: bool, hdrProp: bool, hdrEotf: bool,
    damageCommitted: bool, damageProp: bool, hasMode: bool, damageEmpty: bool)
  {
    predicate AsksMode() { modeset && enabled }
    predicate SetsLut(l: Lut) { l.committed && l.prop }
    predicate AsksLut(l: Lut) { SetsLut(l) && !l.empty }
    predicate AsksCtm() { ctmValue && (modeset || ctmCommitted) && ctmProp }
    predicate SetsHdr() { (modeset || hdrCommitted) && hdrValue && hdrProp }
    predicate AsksHdr() { SetsHdr() && hdrEotf }
    predicate SetsDamage() { damageCommitted && damageProp && hasMode }
    predicate AsksDamage() { SetsDamage() && !damageEmpty }
    /** addConnectorModeset puts the mode blob in the request. */
    predicate PlacesMode(modeDiffers: bool) { modeset && (!(enabled && hasFb) || modeDiffers) }
  }

  /** The kernel's answer to one drmModeCreatePropertyBlob. */
  datatype Reply = Refused | Made(id: nat) {
    function Id(): nat { if Made? then id else 0 }
  }

  /** All the kernel's answers during one CDRMAtomicImpl::commit. */
  datatype Answers = Answers(mode: Reply, gamma: Reply, degamma: Reply, ctm: Reply, hdr: Reply, damage: Reply,
                             modeDiffers: bool, accepts: bool)

  function Id(id: nat): set<nat> { {id} - {0} }

  predicate Nonzero(a: Answers) {
    && Made(0) != a.mode && Made(0) != a.gamma && Made(0) != a.degamma
    && Made(0) != a.ctm && Made(0) != a.hdr && Made(0) != a.damage
  }

  /** The kernel never answers with 0 or with an id that is live, nor twice with the same id in one commit. */
  predicate Fresh(a: Answers, live: set<nat>) {
    && Nonzero(a)
    && Id(a.mode.Id()) !! Id(a.gamma.Id()) !! Id(a.degamma.Id()) !! Id(a.ctm.Id()) !! Id(a.hdr.Id())
       !! Id(a.damage.Id()) !! live
  }

  /** The blobs the CRTC slots name. */
  function Held(s: Slots): set<nat> { Id(s.mode) + Id(s.gamma) + Id(s.ctm) + Id(s.hdr) }

  /** Live blobs that no slot names: nobody will destroy them any more. */
  function Orphans(s: Slots, live: set<nat>): set<nat> { live - Held(s) }

  predicate Distinct(s: Slots) { Id(s.mode) !! Id(s.gamma) !! Id(s.ctm) !! Id(s.hdr) }

  /** No slot holds a destroyed id, no two slots hold the same one, and an unowned mode slot is empty. */
  predicate Sound(s: Slots, live: set<nat>) {
    && 0 !in live
    && Held(s) <= live
    && Distinct(s)
    && (s.ownModeId || s.mode == 0)
  }

  // ----- prepareConnector

  /** What a prepare leaves: its verdict, the ids in the data, and the blobs it made. */
  datatype Prepared = Prepared(ok: bool, blobs: Blobs, created: set<nat>)

  function Asked(asks: bool, r: Reply): set<nat> { if asks then Id(r.Id()) else {} }

  /** The blobs made by a prepare that is not stopped by the mode blob, the damage blob excepted. */
  function MadeBeforeDamage(j: Job, a: Answers): set<nat> {
    Asked(j.AsksMode(), a.mode) + Asked(j.AsksLut(j.gamma), a.gamma) + Asked(j.AsksLut(j.degamma), a.degamma)
    + Asked(j.AsksCtm(), a.ctm) + Asked(j.AsksHdr(), a.hdr)
  }

  function Pick(sets: bool, asks: bool, r: Reply, old_: nat): nat {
    if !sets then old_ else if asks then r.Id() else 0
  }

  function Prepare(j: Job, b: Blobs, a: Answers): Prepared {
    if j.AsksMode() && a.mode.Refused? then Prepared(false, b, {})
    else
      var stopped := j.AsksDamage() && a.damage.Refused?;
      Prepared(!stopped,
               Blobs(Pick(j.modeset, j.enabled, a.mode, b.mode),
                     Pick(j.SetsLut(j.gamma), !j.gamma.empty, a.gamma, b.gamma),
                     Pick(j.SetsLut(j.degamma), !j.degamma.empty, a.degamma, b.degamma),
                     Pick(j.AsksCtm(), true, a.ctm, b.ctm),
                     Pick(j.SetsHdr(), j.hdrEotf, a.hdr, b.hdr),
                     if stopped then b.damage else Pick(j.SetsDamage(), !j.damageEmpty, a.damage, b.damage),
                     b.blobbed),
               MadeBeforeDamage(j, a) + Asked(j.AsksDamage(), a.damage))
  }

  /** An id that this commit will not overwrite is 0: true of fresh data, and again on the modeset retry. */
  predicate Clean(j: Job, b: Blobs) {
    && (!j.modeset ==> b.mode == 0)
    && (!j.SetsLut(j.gamma) ==> b.gamma == 0)
    && (!j.SetsLut(j.degamma) ==> b.degamma == 0)
    && (!j.AsksCtm() ==> b.ctm == 0)
    && (!j.SetsHdr() ==> b.hdr == 0)
    && (!j.SetsDamage() ==> b.damage == 0)
  }

  // ----- CDRMAtomicImpl::commit

  /** The effect of one commit: the ids it destroyed are listed in order. */
  datatype Outcome = Outcome(ok: bool, slots: Slots, blobs: Blobs, created: set<nat>, destroyed: seq<nat>)

  function Drop(id: nat): seq<nat> { if id == 0 then [] else [id] }

  /** What commitBlob and rollbackBlob destroy. */
  function Replaced(current: nat, next: nat): seq<nat> { if current == next then [] else Drop(current) }
  function Returned(current: nat, next: nat): seq<nat> { if current == next then [] else Drop(next) }

  function ApplyList(s: Slots, d: Blobs): seq<nat> {
    (if d.blobbed then Replaced(s.mode, d.mode) else [])
    + Replaced(s.gamma, d.gamma) + Replaced(s.ctm, d.ctm) + Replaced(s.hdr, d.hdr) + Drop(d.damage)
  }

  function RollbackList(s: Slots, d: Blobs): seq<nat> {
    (if d.blobbed then Returned(s.mode, d.mode) else [])
    + Returned(s.gamma, d.gamma) + Returned(s.ctm, d.ctm) + Returned(s.hdr, d.hdr) + Drop(d.damage)
  }

  function Commit(s: Slots, j: Job, b: Blobs, a: Answers): Outcome {
    var p := Prepare(j, b, a);
    if !p.ok then Outcome(false, s, p.blobs, p.created, [])
    else
      var d := p.blobs.(blobbed := p.blobs.blobbed || j.PlacesMode(a.modeDiffers));
      if a.accepts then
        var s0 := if s.ownModeId then s else s.(mode := 0);
        Outcome(true,
                Slots(true, if d.blobbed then d.mode else s0.mode, d.gamma, d.ctm, d.hdr),
                d, p.created, ApplyList(s0, d))
      else
        Outcome(false, s.(ownModeId := true), d, p.created, RollbackList(s, d))
  }

  /** The live ids after a commit. */
  function LiveAfter(live: set<nat>, o: Outcome): set<nat> { (live + o.created) - Members(o.destroyed) }

  /** The blobs a commit makes and then loses track of. */
  function Leaked(j: Job, b: Blobs, a: Answers): set<nat> {
    var p := Prepare(j, b, a);
    if !p.ok then p.created
    else Asked(j.AsksMode() && !j.PlacesMode(a.modeDiffers), a.mode) + Asked(j.AsksLut(j.degamma), a.degamma)
  }

  // ----- what one commit keeps

  /** Asked as a modeset, the same job sets all that it set before. */
  lemma ModesetSetsMore(j: Job)
    ensures var j' := j.(modeset := true);
            && j'.SetsLut(j'.gamma) == j.SetsLut(j.gamma) && j'.SetsLut(j'.degamma) == j.SetsLut(j.degamma)
            && (j.AsksCtm() ==> j'.AsksCtm()) && (j.SetsHdr() ==> j'.SetsHdr()) && j'.SetsDamage() == j.SetsDamage()
  {
  }

  /** A prepare leaves alone what it does not set. */
  lemma PrepareLeaves(j: Job, b: Blobs, a: Answers)
    ensures var d := Prepare(j, b, a).blobs;
            && (!j.SetsLut(j.gamma) ==> d.gamma == b.gamma) && (!j.SetsLut(j.degamma) ==> d.degamma == b.degamma)
            && (!j.AsksCtm() ==> d.ctm == b.ctm) && (!j.SetsHdr() ==> d.hdr == b.hdr)
            && (!j.SetsDamage() ==> d.damage == b.damage)
  {
    hide MadeBeforeDamage, Asked;
  }

  /** Preparing keeps the data clean for the same job retried as a modeset. */
  lemma PrepareKeepsClean(j: Job, b: Blobs, a: Answers)
    requires Clean(j, b)
    ensures Clean(j.(modeset := true), Prepare(j, b, a).blobs)
  {
    hide Prepare;
    ModesetSetsMore(j);
    PrepareLeaves(j, b, a);
  }

  lemma MembersConcat(x: seq<nat>, y: seq<nat>)
    ensures Members(x + y) == Members(x) + Members(y)
  {
    forall id | id in Members(x) + Members(y) ensures id in Members(x + y) {
      assert id in x + y;
    }
  }

  /** A refused commit keeps every slot; an accepted one installs the data's ids. */
  lemma CommitSlots(s: Slots, j: Job, b: Blobs, a: Answers)
    requires s.ownModeId || s.mode == 0
    ensures var o := Commit(s, j, b, a);
            && (o.ok <==> Prepare(j, b, a).ok && a.accepts)
            && (!o.ok ==> o.slots.(ownModeId := s.ownModeId) == s)
            && (o.ok ==> o.slots == Slots(true, if o.blobs.blobbed then o.blobs.mode else s.mode,
                                          o.blobs.gamma, o.blobs.ctm, o.blobs.hdr))
  {
  }

  lemma MembersOfFive(m: seq<nat>, g: seq<nat>, c: seq<nat>, h: seq<nat>, d: seq<nat>)
    ensures Members(m + g + c + h + d) == Members(m) + Members(g) + Members(c) + Members(h) + Members(d)
  {
    MembersConcat(m, g);
    MembersConcat(m + g, c);
    MembersConcat(m + g + c, h);
    MembersConcat(m + g + c + h, d);
  }

  /** The parts of a destroy list, each at most one id long. */
  lemma MembersOfParts(m: seq<nat>, g: seq<nat>, c: seq<nat>, h: seq<nat>, d: seq<nat>)
    requires |m| <= 1 && |g| <= 1 && |c| <= 1 && |h| <= 1 && |d| <= 1
    requires Members(m) !! Members(g) !! Members(c) !! Members(h) !! Members(d)
    ensures Members(m + g + c + h + d) == Members(m) + Members(g) + Members(c) + Members(h) + Members(d)
    ensures NoRepeats(m + g + c + h + d)
  {
    MembersOfFive(m, g, c, h, d);
    MembersConcat(m, g);
    MembersConcat(m + g, c);
    MembersConcat(m + g + c, h);
    NoRepeatsConcat(m, g);
    NoRepeatsConcat(m + g, c);
    NoRepeatsConcat(m + g + c, h);
    NoRepeatsConcat(m + g + c + h, d);
  }

  lemma NoRepeatsConcat(x: seq<nat>, y: seq<nat>)
    requires NoRepeats(x) && NoRepeats(y) && Members(x) !! Members(y)
    ensures NoRepeats(x + y)
  {
    var z := x + y;
    forall i, k | 0 <= i < k < |z| ensures z[i] != z[k] {
      assert z[i] == if i < |x| then x[i] else y[i - |x|];
      assert z[k] == if k < |x| then x[k] else y[k - |x|];
      if i < |x| <= k { assert x[i] in Members(x) && y[k - |x|] in Members(y); }
    }
  }

  /** An old id and a new one differ unless both are 0, so the old one goes, or on a refusal the new one. */
  lemma ReplacedIds(current: nat, next: nat)
    requires Id(current) !! Id(next)
    ensures Members(Replaced(current, next)) == Id(current) && |Replaced(current, next)| <= 1
    ensures Members(Returned(current, next)) == Id(next) && |Returned(current, next)| <= 1
    ensures Members(Drop(next)) == Id(next) && |Drop(next)| <= 1
  {
    assert current == next ==> current == 0 || current in Id(current) * Id(next);
  }

  lemma DisjointParts(m: set<nat>, g: set<nat>, e: set<nat>, c: set<nat>, h: set<nat>, d: set<nat>, live: set<nat>,
                      m': set<nat>, g': set<nat>, e': set<nat>, c': set<nat>, h': set<nat>, d': set<nat>)
    requires m !! g !! e !! c !! h !! d !! live
    requires m' <= m && g' <= g && e' <= e && c' <= c && h' <= h && d' <= d
    ensures m' !! g' !! e' !! c' !! h' !! d' !! live
  {
  }

  /** Blob ids named by clean data are exactly the ones the preparation made. */
  lemma PreparedIds(j: Job, b: Blobs, a: Answers)
    requires Clean(j, b) && Prepare(j, b, a).ok
    ensures var d := Prepare(j, b, a).blobs;
            && Id(d.mode) == Asked(j.AsksMode(), a.mode)
            && Id(d.gamma) == Asked(j.AsksLut(j.gamma), a.gamma)
            && Id(d.degamma) == Asked(j.AsksLut(j.degamma), a.degamma)
            && Id(d.ctm) == Asked(j.AsksCtm(), a.ctm)
            && Id(d.hdr) == Asked(j.AsksHdr(), a.hdr)
            && Id(d.damage) == Asked(j.AsksDamage(), a.damage)
    ensures Prepare(j, b, a).blobs.blobbed == b.blobbed
    ensures Prepare(j, b, a).created == MadeBeforeDamage(j, a) + Asked(j.AsksDamage(), a.damage)
  {
  }

  /** They are new to the kernel and differ from one another. */
  lemma PreparedApart(j: Job, a: Answers, live: set<nat>)
    requires Fresh(a, live)
    ensures Asked(j.AsksMode(), a.mode) !! Asked(j.AsksLut(j.gamma), a.gamma) !! Asked(j.AsksLut(j.degamma), a.degamma)
            !! Asked(j.AsksCtm(), a.ctm) !! Asked(j.AsksHdr(), a.hdr) !! Asked(j.AsksDamage(), a.damage) !! live
  {
    DisjointParts(Id(a.mode.Id()), Id(a.gamma.Id()), Id(a.degamma.Id()), Id(a.ctm.Id()), Id(a.hdr.Id()),
                  Id(a.damage.Id()), live,
                  Asked(j.AsksMode(), a.mode), Asked(j.AsksLut(j.gamma), a.gamma),
                  Asked(j.AsksLut(j.degamma), a.degamma),
                  Asked(j.AsksCtm(), a.ctm), Asked(j.AsksHdr(), a.hdr), Asked(j.AsksDamage(), a.damage));
  }

  /** Ids moving through the slots, as sets: `m, g, c, h` come in, `m0, g0, c0, h0` go, `d` comes and goes. */
  lemma ApplySets(live: set<nat>, m0: set<nat>, g0: set<nat>, c0: set<nat>, h0: set<nat>,
                  m: set<nat>, g: set<nat>, e: set<nat>, c: set<nat>, h: set<nat>, d: set<nat>)
    requires m0 + g0 + c0 + h0 <= live && m0 !! g0 !! c0 !! h0
    requires m !! g !! e !! c !! h !! d !! live
    ensures var live' := (live + (m + g + e + c + h + d)) - (m0 + g0 + c0 + h0 + d);
            m + g + c + h <= live' && live' - (m + g + c + h) == (live - (m0 + g0 + c0 + h0)) + e
    ensures var live' := (live + (m + g + e + c + h + d)) - (g0 + c0 + h0 + d);
            m0 + g + c + h <= live' && live' - (m0 + g + c + h) == (live - (m0 + g0 + c0 + h0)) + m + e
    ensures m0 !! g0 !! c0 !! h0 !! d && m0 !! g !! c !! h && m !! g !! c !! h
  {
  }

  /** An accepted commit, on ids alone: old slot ids out, data ids in. */
  lemma ApplyLedger(s: Slots, live: set<nat>, d: Blobs)
    requires Sound(s, live)
    requires Id(d.mode) !! Id(d.gamma) !! Id(d.degamma) !! Id(d.ctm) !! Id(d.hdr) !! Id(d.damage) !! live
    ensures var s' := Slots(true, if d.blobbed then d.mode else s.mode, d.gamma, d.ctm, d.hdr);
            var gone := ApplyList(s, d);
            var made := Id(d.mode) + Id(d.gamma) + Id(d.degamma) + Id(d.ctm) + Id(d.hdr) + Id(d.damage);
            var live' := (live + made) - Members(gone);
            && NoRepeats(gone) && Members(gone) <= live + made
            && Sound(s', live')
            && Orphans(s', live') == Orphans(s, live) + (if d.blobbed then {} else Id(d.mode)) + Id(d.degamma)
  {
    ApplySets(live, Id(s.mode), Id(s.gamma), Id(s.ctm), Id(s.hdr),
              Id(d.mode), Id(d.gamma), Id(d.degamma), Id(d.ctm), Id(d.hdr), Id(d.damage));
    ReplacedIds(s.mode, d.mode); ReplacedIds(s.gamma, d.gamma); ReplacedIds(s.ctm, d.ctm); ReplacedIds(s.hdr, d.hdr);
    ReplacedIds(0, d.damage);
    MembersOfParts(if d.blobbed then Replaced(s.mode, d.mode) else [],
                Replaced(s.gamma, d.gamma), Replaced(s.ctm, d.ctm), Replaced(s.hdr, d.hdr), Drop(d.damage));
  }

  /** A refused commit, on ids alone: every data id the roll-back knows of goes. */
  lemma RollbackLedger(s: Slots, live: set<nat>, d: Blobs)
    requires Sound(s, live)
    requires Id(d.mode) !! Id(d.gamma) !! Id(d.degamma) !! Id(d.ctm) !! Id(d.hdr) !! Id(d.damage) !! live
    ensures var gone := RollbackList(s, d);
            var made := Id(d.mode) + Id(d.gamma) + Id(d.degamma) + Id(d.ctm) + Id(d.hdr) + Id(d.damage);
            var live' := (live + made) - Members(gone);
            && NoRepeats(gone) && Members(gone) <= made
            && live' == live + (if d.blobbed then {} else Id(d.mode)) + Id(d.degamma)
  {
    ReplacedIds(s.mode, d.mode); ReplacedIds(s.gamma, d.gamma); ReplacedIds(s.ctm, d.ctm); ReplacedIds(s.hdr, d.hdr);
    ReplacedIds(0, d.damage);
    MembersOfParts(if d.blobbed then Returned(s.mode, d.mode) else [],
                Returned(s.gamma, d.gamma), Returned(s.ctm, d.ctm), Returned(s.hdr, d.hdr), Drop(d.damage));
  }

  /**
   The ledger of one commit. It destroys only live ids and none twice, leaves sound slots, and every live
   blob is afterwards in a slot, was lost before, or is one of the listed leaks.
   */
  lemma CommitLedger(s: Slots, live: set<nat>, j: Job, b: Blobs, a: Answers)
    requires Sound(s, live) && Clean(j, b) && !b.blobbed && Fresh(a, live)
    ensures var o := Commit(s, j, b, a);
            && o.created !! live
            && NoRepeats(o.destroyed) && Members(o.destroyed) <= live + o.created
            && Sound(o.slots, LiveAfter(live, o))
            && Orphans(o.slots, LiveAfter(live, o)) == Orphans(s, live) + Leaked(j, b, a)
  {
    PreparedApart(j, a, live);
    if Prepare(j, b, a).ok {
      PreparedIds(j, b, a);
      CommittedLedger(s, live, j, b, a);
    } else {
      assert Commit(s, j, b, a).created <= MadeBeforeDamage(j, a);
    }
  }

  /** The commit data of a successful preparation, as sets of ids that are new and apart. */
  ghost predicate NewIds(d: Blobs, live: set<nat>) {
    Id(d.mode) !! Id(d.gamma) !! Id(d.degamma) !! Id(d.ctm) !! Id(d.hdr) !! Id(d.damage) !! live
  }

  function AllIds(d: Blobs): set<nat> {
    Id(d.mode) + Id(d.gamma) + Id(d.degamma) + Id(d.ctm) + Id(d.hdr) + Id(d.damage)
  }

  /** Ids of the data that no slot takes over and nobody destroys. */
  function Dropped(d: Blobs): set<nat> { (if d.blobbed then {} else Id(d.mode)) + Id(d.degamma) }

  ghost predicate Ledger(s: Slots, live: set<nat>, o: Outcome, lost: set<nat>) {
    && NoRepeats(o.destroyed) && Members(o.destroyed) <= live + o.created
    && Sound(o.slots, LiveAfter(live, o))
    && Orphans(o.slots, LiveAfter(live, o)) == Orphans(s, live) + lost
  }

  lemma AcceptedLedger(s: Slots, live: set<nat>, d: Blobs, o: Outcome)
    requires Sound(s, live) && NewIds(d, live) && o.created == AllIds(d) && o.destroyed == ApplyList(s, d)
    requires o.slots == Slots(true, if d.blobbed then d.mode else s.mode, d.gamma, d.ctm, d.hdr)
    ensures Ledger(s, live, o, Dropped(d))
  {
    ApplyLedger(s, live, d);
    assert Orphans(s, live) + (if d.blobbed then {} else Id(d.mode)) + Id(d.degamma) == Orphans(s, live) + Dropped(d);
    hide Sound, Orphans, NoRepeats, Members, ApplyList, Id;
  }

  lemma RefusedLedger(s: Slots, live: set<nat>, d: Blobs, o: Outcome)
    requires Sound(s, live) && NewIds(d, live) && o.created == AllIds(d) && o.destroyed == RollbackList(s, d)
    requires o.slots == s.(ownModeId := true)
    ensures Ledger(s, live, o, Dropped(d))
  {
    RollbackLedger(s, live, d);
    assert LiveAfter(live, o) == live + Dropped(d) && Dropped(d) !! live;
    SlotsKeepLive(s, live, Dropped(d));
    hide Sound, Orphans, NoRepeats, Members, RollbackList, Id;
  }

  lemma SlotsKeepLive(s: Slots, live: set<nat>, more: set<nat>)
    requires Sound(s, live) && 0 !in more && more !! live
    ensures Sound(s.(ownModeId := true), live + more)
    ensures Orphans(s.(ownModeId := true), live + more) == Orphans(s, live) + more
  {
  }

  lemma CommittedLedger(s: Slots, live: set<nat>, j: Job, b: Blobs, a: Answers)
    requires Sound(s, live) && !b.blobbed
    requires var d := Prepare(j, b, a).blobs;
             && Prepare(j, b, a).ok && !d.blobbed && NewIds(d, live) && Prepare(j, b, a).created == AllIds(d)
             && Id(d.mode) == Asked(j.AsksMode(), a.mode) && Id(d.degamma) == Asked(j.AsksLut(j.degamma), a.degamma)
    ensures Ledger(s, live, Commit(s, j, b, a), Leaked(j, b, a))
  {
    var d := Prepare(j, b, a).blobs.(blobbed := j.PlacesMode(a.modeDiffers));
    var o := Commit(s, j, b, a);
    assert s.ownModeId || s.(mode := 0) == s;
    DroppedIsLeaked(j, b, a);
    if a.accepts {
      AcceptedLedger(s, live, d, o);
    } else {
      RefusedLedger(s, live, d, o);
    }
    hide Ledger, Dropped, Leaked, ApplyList, RollbackList, Prepare;
  }

  lemma DroppedIsLeaked(j: Job, b: Blobs, a: Answers)
    requires var d := Prepare(j, b, a).blobs;
             && Prepare(j, b, a).ok
             && Id(d.mode) == Asked(j.AsksMode(), a.mode) && Id(d.degamma) == Asked(j.AsksLut(j.degamma), a.degamma)
    ensures Leaked(j, b, a) == Dropped(Prepare(j, b, a).blobs.(blobbed := j.PlacesMode(a.modeDiffers)))
  {
    hide Prepare;
  }

  /** prepareConnector stops: at the mode blob before it made any, at the damage blob after all others. */
  predicate Stops(j: Job, a: Answers) { (j.AsksMode() && a.mode.Refused?) || (j.AsksDamage() && a.damage.Refused?) }

  predicate Unmade(asks: bool, r: Reply) { asks ==> r.Refused? }

  /**
   No blob is made for nothing: a preparation that stops at the damage blob made no other; one that does not stop
   made no degamma blob, and the request has a place for its mode blob.
   */
  predicate Lossless(j: Job, a: Answers) {
    if j.AsksMode() && a.mode.Refused? then true
    else if j.AsksDamage() && a.damage.Refused? then
      && !j.AsksMode()
      && Unmade(j.AsksLut(j.gamma), a.gamma) && Unmade(j.AsksLut(j.degamma), a.degamma)
      && Unmade(j.AsksCtm(), a.ctm) && Unmade(j.AsksHdr(), a.hdr)
    else
      Unmade(j.AsksLut(j.degamma), a.degamma) && (j.AsksMode() ==> j.PlacesMode(a.modeDiffers))
  }

  lemma AskedNone(asks: bool, r: Reply)
    requires r != Made(0)
    ensures Asked(asks, r) == {} <==> Unmade(asks, r)
  {
    if r.Made? {
      assert r.id in Id(r.Id());
    }
  }

  lemma UnionOfFive(a: set<nat>, b: set<nat>, c: set<nat>, d: set<nat>, e: set<nat>)
    ensures a + b + c + d + e == {} <==> a == {} && b == {} && c == {} && d == {} && e == {}
  {
  }

  /** A commit loses no blob if and only if its guards and the kernel's answers make it lossless. */
  lemma LeaksNothing(j: Job, b: Blobs, a: Answers)
    requires Nonzero(a)
    ensures Leaked(j, b, a) == {} <==> Lossless(j, a)
    ensures Prepare(j, b, a).ok <==> !Stops(j, a)
  {
    AskedNone(j.AsksMode(), a.mode);
    AskedNone(j.AsksMode() && !j.PlacesMode(a.modeDiffers), a.mode);
    AskedNone(j.AsksLut(j.gamma), a.gamma);
    AskedNone(j.AsksLut(j.degamma), a.degamma);
    AskedNone(j.AsksCtm(), a.ctm);
    AskedNone(j.AsksHdr(), a.hdr);
    AskedNone(j.AsksDamage(), a.damage);
    hide Asked;
    UnionOfFive(Asked(j.AsksMode(), a.mode), Asked(j.AsksLut(j.gamma), a.gamma), Asked(j.AsksLut(j.degamma), a.degamma),
                Asked(j.AsksCtm(), a.ctm), Asked(j.AsksHdr(), a.hdr));
  }

  // ----- what the wishes come to

  /** The kernel takes the request: it makes the blobs preparation cannot do without, and accepts. */
  lemma AcceptedExactly(s: Slots, j: Job, b: Blobs, a: Answers)
    ensures Commit(s, j, b, a).ok <==>
            && a.accepts
            && (j.modeset && j.enabled ==> a.mode.Made?)
            && (j.damageCommitted && j.damageProp && j.hasMode && !j.damageEmpty ==> a.damage.Made?)
  {
  }

  /**
   The colour slots after an accepted commit. A table or the metadata that is set empties its slot when it is empty,
   a blob the kernel refuses does so too, and what is not set takes the id the data came with.
   */
  lemma ColourSlots(s: Slots, j: Job, b: Blobs, a: Answers)
    requires Commit(s, j, b, a).ok
    ensures var s' := Commit(s, j, b, a).slots;
            && s'.ownModeId
            && s'.ctm == (if j.ctmValue && j.ctmProp && (j.modeset || j.ctmCommitted) then a.ctm.Id() else b.ctm)
            && s'.gamma == (if !j.gamma.committed || !j.gamma.prop then b.gamma
                            else if j.gamma.empty then 0 else a.gamma.Id())
            && s'.hdr == (if !j.hdrValue || !j.hdrProp || (!j.modeset && !j.hdrCommitted) then b.hdr
                          else if j.hdrEotf then a.hdr.Id() else 0)
  {
    hide MadeBeforeDamage, Asked, ApplyList, RollbackList;
  }

  /** The mode slot: a modeset sets it, unless a lit output has the very mode already. */
  lemma ModeSlot(s: Slots, j: Job, b: Blobs, a: Answers)
    requires Commit(s, j, b, a).ok && !b.blobbed
    ensures var s' := Commit(s, j, b, a).slots;
            s'.mode == if j.modeset && (!j.enabled || !j.hasFb || a.modeDiffers)
                       then (if j.enabled then a.mode.id else 0)
                       else (if s.ownModeId then s.mode else 0)
  {
    hide MadeBeforeDamage, Asked, ApplyList, RollbackList;
  }

  lemma RefusedUnplaced(s: Slots, j: Job, b: Blobs, a: Answers)
    requires !Commit(s, j, b, a).ok && !j.modeset && !b.blobbed
    ensures !Commit(s, j, b, a).blobs.blobbed
  {
  }

  /** A wish that is set and supported, and for which the kernel makes the blob `id`. */
  predicate Wanted(j: Job, a: Answers, id: nat) {
    || (a.mode == Made(id) && j.modeset && j.enabled)
    || (a.gamma == Made(id) && j.gamma.committed && j.gamma.prop && !j.gamma.empty)
    || (a.degamma == Made(id) && j.degamma.committed && j.degamma.prop && !j.degamma.empty)
    || (a.ctm == Made(id) && j.ctmValue && j.ctmProp && (j.modeset || j.ctmCommitted))
    || (a.hdr == Made(id) && j.hdrValue && j.hdrProp && (j.modeset || j.hdrCommitted) && j.hdrEotf)
    || (a.damage == Made(id) && j.damageCommitted && j.damageProp && j.hasMode && !j.damageEmpty)
  }

  /** The blobs made on the way: all that is wished for, but none once the mode blob is refused. */
  lemma MadeExactly(s: Slots, j: Job, b: Blobs, a: Answers, id: nat)
    requires id != 0
    ensures id in Commit(s, j, b, a).created <==>
            (j.modeset && j.enabled ==> a.mode.Made?) && Wanted(j, a, id)
  {
    hide Prepare, Asked, ApplyList, RollbackList;
    CreatedBy(s, j, b, a);
    AskedId(j.AsksMode(), a.mode, id);
    AskedId(j.AsksLut(j.gamma), a.gamma, id);
    AskedId(j.AsksLut(j.degamma), a.degamma, id);
    AskedId(j.AsksCtm(), a.ctm, id);
    AskedId(j.AsksHdr(), a.hdr, id);
    AskedId(j.AsksDamage(), a.damage, id);
  }

  lemma CreatedBy(s: Slots, j: Job, b: Blobs, a: Answers)
    ensures Commit(s, j, b, a).created == if j.AsksMode() && a.mode.Refused? then {}
            else MadeBeforeDamage(j, a) + Asked(j.AsksDamage(), a.damage)
  {
  }

  lemma AskedId(asks: bool, r: Reply, id: nat)
    requires id != 0
    ensures id in Asked(asks, r) <==> asks && r == Made(id)
  {
  }

  /** A commit with a framebuffer, with everything else absent. */
  const PLAIN := Job(false, true, true, Lut(false, true, true), Lut(false, true, true),
                     false, false, true, false, false, true, false, false, true, true, true)

  /** All blobs made, with different ids. */
  const MADE := Answers(Made(1), Made(2), Made(3), Made(4), Made(5), Made(6), true, true)

  lemma LostFrom(j: Job, a: Answers)
    requires Fresh(a, {}) && !Lossless(j, a)
    ensures var o := Commit(NO_SLOTS, j, NO_BLOBS, a); Orphans(o.slots, LiveAfter({}, o)) != {}
  {
    LeaksNothing(j, NO_BLOBS, a);
    CommitLedger(NO_SLOTS, {}, j, NO_BLOBS, a);
    hide Commit, LiveAfter, Orphans, Leaked, Fresh, Lossless;
  }

  lemma MadeIsFresh()
    ensures Fresh(MADE, {}) && Fresh(MADE.(damage := Refused), {}) && Fresh(MADE.(modeDiffers := false), {})
  {
    assert Id(0) == {} && Id(1) == {1} && Id(2) == {2} && Id(3) == {3} && Id(4) == {4} && Id(5) == {5} && Id(6) == {6};
  }

  /** Each way to lose a blob, on the first commit of a CRTC. */
  lemma LostBlobs()
    ensures var stopped, a := PLAIN.(modeset := true, damageCommitted := true, damageEmpty := false),
            MADE.(damage := Refused);
            var o := Commit(NO_SLOTS, stopped, NO_BLOBS, a); Orphans(o.slots, LiveAfter({}, o)) != {}
    ensures var a := MADE.(modeDiffers := false);
            var o := Commit(NO_SLOTS, PLAIN.(modeset := true), NO_BLOBS, a); Orphans(o.slots, LiveAfter({}, o)) != {}
    ensures var degamma := PLAIN.(degamma := Lut(true, true, false));
            var o := Commit(NO_SLOTS, degamma, NO_BLOBS, MADE); Orphans(o.slots, LiveAfter({}, o)) != {}
  {
    MadeIsFresh();
    LostFrom(PLAIN.(modeset := true, damageCommitted := true, damageEmpty := false), MADE.(damage := Refused));
    LostFrom(PLAIN.(modeset := true), MADE.(modeDiffers := false));
    LostFrom(PLAIN.(degamma := Lut(true, true, false)), MADE);
    hide Commit, LiveAfter, Orphans, Fresh;
  }

  // ----- the code

  /** The kernel's side of property blobs, with a log of every id passed to drmModeDestroyPropertyBlob. */
  class BlobDevice {
    var live: set<nat>
    ghost var destroyed: seq<nat>

    constructor ()
      ensures live == {} && destroyed == []
    {
      live, destroyed := {}, [];
    }

    /** drmModeCreatePropertyBlob: leaves the caller's id alone when it fails. */
    method CreateBlob(r: Reply, id: nat) returns (failed: bool, id': nat)
      requires r != Made(0)
      modifies this`live
      ensures failed == r.Refused?
      ensures id' == (if r.Made? then r.id else id)
      ensures live == old(live) + Id(r.Id())
    {
      match r {
        case Refused => failed, id' := true, id;
        case Made(new_) => failed, id', live := false, new_, live + {new_};
      }
    }

    /** A create whose caller clears its id on failure. */
    method CreateOrClear(r: Reply) returns (id: nat)
      requires r != Made(0)
      modifies this`live
      ensures id == r.Id() && live == old(live) + Id(r.Id())
    {
      var failed;
      failed, id := CreateBlob(r, 0);
      if failed {
        id := 0;
      }
    }

    method DestroyBlob(id: nat)
      modifies this
      ensures Logged(old(live), old(destroyed), live, destroyed, Drop(id))
    {
      if id == 0 {
        return;
      }
      live := live - {id};
      destroyed := destroyed + [id];
    }
  }

  /** The kernel log before and after the ids in `gone` were destroyed in order. */
  ghost predicate Logged(live: set<nat>, log: seq<nat>, live': set<nat>, log': seq<nat>, gone: seq<nat>) {
    log' == log + gone && live' == live - Members(gone)
  }

  lemma UnionOfSix(l: set<nat>, a: set<nat>, b: set<nat>, c: set<nat>, d: set<nat>, e: set<nat>, f: set<nat>)
    ensures l + a + b + c + d + e + f == l + (a + b + c + d + e + f)
  {
  }

  /** Five entries in the log, one after the other or as one list. */
  lemma LogOfFive(live: set<nat>, log: seq<nat>, a: seq<nat>, b: seq<nat>, c: seq<nat>, d: seq<nat>, e: seq<nat>)
    ensures Logged(live, log, live - Members(a) - Members(b) - Members(c) - Members(d) - Members(e),
            log + a + b + c + d + e,
                   a + b + c + d + e)
  {
    MembersOfFive(a, b, c, d, e);
    assert log + a + b + c + d + e == log + (a + b + c + d + e);
  }

  // prepareConnector, wish by wish. The commit data is a struct passed by reference: ids come in and go out.

  method PrepareMode(device: BlobDevice, j: Job, a: Answers, id: nat) returns (ok: bool, mode: nat)
    requires a.mode != Made(0)
    modifies device`live
    ensures ok <==> !(j.AsksMode() && a.mode.Refused?)
    ensures mode == if ok then Pick(j.modeset, j.enabled, a.mode, id) else id
    ensures device.live == old(device.live) + Asked(j.AsksMode(), a.mode)
  {
    ok, mode := true, id;
    if j.modeset {
      if !j.enabled {
        mode := 0;
      } else {
        var failed;
        failed, mode := device.CreateBlob(a.mode, id);
        ok := !failed;
      }
    }
  }

  method PrepareLut(device: BlobDevice, l: Lut, r: Reply, id: nat) returns (lut: nat)
    requires r != Made(0)
    modifies device`live
    ensures lut == Pick(l.committed && l.prop, !l.empty, r, id)
    ensures device.live == old(device.live) + Asked(l.committed && l.prop && !l.empty, r)
  {
    if !l.committed || !l.prop {
      return id;
    } else if l.empty {
      return 0;
    }
    lut := device.CreateOrClear(r);
  }

  method PrepareCtm(device: BlobDevice, j: Job, a: Answers, id: nat) returns (ctm: nat)
    requires a.ctm != Made(0)
    modifies device`live
    ensures ctm == Pick(j.AsksCtm(), true, a.ctm, id)
    ensures device.live == old(device.live) + Asked(j.AsksCtm(), a.ctm)
  {
    ctm := id;
    if j.ctmValue && (j.modeset || j.ctmCommitted) && j.ctmProp {
      ctm := device.CreateOrClear(a.ctm);
    }
  }

  method PrepareHdr(device: BlobDevice, j: Job, a: Answers, id: nat) returns (hdr: nat)
    requires a.hdr != Made(0)
    modifies device`live
    ensures hdr == Pick(j.SetsHdr(), j.hdrEotf, a.hdr, id)
    ensures device.live == old(device.live) + Asked(j.AsksHdr(), a.hdr)
  {
    hdr := id;
    if (j.modeset || j.hdrCommitted) && j.hdrValue && j.hdrProp {
      if !j.hdrEotf {
        hdr := 0;
      } else {
        hdr := device.CreateOrClear(a.hdr);
      }
    }
  }

  method PrepareDamage(device: BlobDevice, j: Job, a: Answers, id: nat) returns (ok: bool, damage: nat)
    requires a.damage != Made(0)
    modifies device`live
    ensures ok <==> !(j.AsksDamage() && a.damage.Refused?)
    ensures damage == if ok then Pick(j.SetsDamage(), !j.damageEmpty, a.damage, id) else id
    ensures device.live == old(device.live) + Asked(j.AsksDamage(), a.damage)
  {
    ok, damage := true, id;
    if j.damageCommitted && j.damageProp && j.hasMode {
      if j.damageEmpty {
        damage := 0;
      } else {
        var failed;
        failed, damage := device.CreateBlob(a.damage, id);
        ok := !failed;
      }
    }
  }

  method PrepareConnector(device: BlobDevice, j: Job, b: Blobs, a: Answers) returns (ok: bool, data: Blobs)
    requires Nonzero(a)
    modifies device`live
    ensures var p := Prepare(j, b, a);
            ok == p.ok && data == p.blobs && device.live == old(device.live) + p.created
  {
    var mode;
    ok, mode := PrepareMode(device, j, a, b.mode);
    if !ok {
      return false, b;
    }
    var gamma := PrepareLut(device, j.gamma, a.gamma, b.gamma);
    var degamma := PrepareLut(device, j.degamma, a.degamma, b.degamma);
    var ctm := PrepareCtm(device, j, a, b.ctm);
    var hdr := PrepareHdr(device, j, a, b.hdr);
    var damage;
    ok, damage := PrepareDamage(device, j, a, b.damage);
    UnionOfSix(old(device.live), Asked(j.AsksMode(), a.mode), Asked(j.AsksLut(j.gamma), a.gamma),
               Asked(j.AsksLut(j.degamma), a.degamma), Asked(j.AsksCtm(), a.ctm), Asked(j.AsksHdr(), a.hdr),
               Asked(j.AsksDamage(), a.damage));
    data := Blobs(mode, gamma, degamma, ctm, hdr, damage, b.blobbed);
  }

  /** addConnector: everything but the blobbed flag goes to the kernel. */
  method AddConnector(j: Job, b: Blobs, modeDiffers: bool) returns (data: Blobs)
    ensures data == b.(blobbed := b.blobbed || j.PlacesMode(modeDiffers))
  {
    data := b;
    if j.enabled && j.hasFb {
      if modeDiffers {
        data := AddConnectorModeset(j, data);
      }
    } else {
      data := AddConnectorModeset(j, data);
    }
  }

  method AddConnectorModeset(j: Job, b: Blobs) returns (data: Blobs)
    ensures data == b.(blobbed := b.blobbed || j.modeset)
  {
    data := b;
    if j.modeset {
      data := data.(blobbed := true);
    }
  }

  /** SDRMCRTC::atomic, with the request methods that write it. */
  class CrtcSlots {
    var ownModeId: bool
    var modeId: nat
    var gammaLut: nat
    var ctm: nat
    var hdr: nat

    function Value(): Slots
      reads this
    {
      Slots(ownModeId, modeId, gammaLut, ctm, hdr)
    }

    constructor ()
      ensures Value() == NO_SLOTS
    {
      ownModeId, modeId, gammaLut, ctm, hdr := false, 0, 0, 0, 0;
    }

    static method CommitBlob(device: BlobDevice, current: nat, next: nat) returns (slot: nat)
      modifies device
      ensures slot == next
      ensures Logged(old(device.live), old(device.destroyed), device.live, device.destroyed, Replaced(current, next))
    {
      if current == next {
        return current;
      }
      device.DestroyBlob(current);
      return next;
    }

    static method RollbackBlob(device: BlobDevice, current: nat, next: nat)
      modifies device
      ensures Logged(old(device.live), old(device.destroyed), device.live, device.destroyed, Returned(current, next))
    {
      if current != next {
        device.DestroyBlob(next);
      }
    }

    method Apply(device: BlobDevice, data: Blobs)
      modifies this, device
      ensures var s0 := if old(ownModeId) then old(Value()) else old(Value()).(mode := 0);
              && Value() == Slots(true, if data.blobbed then data.mode else s0.mode, data.gamma, data.ctm, data.hdr)
              && Logged(old(device.live), old(device.destroyed), device.live, device.destroyed, ApplyList(s0, data))
    {
      if !ownModeId {
        modeId := 0;
      }
      ownModeId := true;
      ghost var s0 := Value();
      ghost var m := if data.blobbed then Replaced(modeId, data.mode) else [];
      if data.blobbed {
        modeId := CommitBlob(device, modeId, data.mode);
      }
      assert Logged(old(device.live), old(device.destroyed), device.live, device.destroyed, m);
      gammaLut := CommitBlob(device, gammaLut, data.gamma);
      ctm := CommitBlob(device, ctm, data.ctm);
      hdr := CommitBlob(device, hdr, data.hdr);
      device.DestroyBlob(data.damage);
      LogOfFive(old(device.live), old(device.destroyed), m, Replaced(s0.gamma, data.gamma), Replaced(s0.ctm, data.ctm),
                Replaced(s0.hdr, data.hdr), Drop(data.damage));
    }

    method Rollback(device: BlobDevice, data: Blobs)
      modifies this`ownModeId, device
      ensures Value() == old(Value()).(ownModeId := true)
      ensures Logged(old(device.live), old(device.destroyed), device.live, device.destroyed,
              RollbackList(old(Value()), data))
    {
      ownModeId := true;
      ghost var s := Value();
      ghost var m := if data.blobbed then Returned(modeId, data.mode) else [];
      if data.blobbed {
        RollbackBlob(device, modeId, data.mode);
      }
      assert Logged(old(device.live), old(device.destroyed), device.live, device.destroyed, m);
      RollbackBlob(device, gammaLut, data.gamma);
      RollbackBlob(device, ctm, data.ctm);
      RollbackBlob(device, hdr, data.hdr);
      device.DestroyBlob(data.damage);
      LogOfFive(old(device.live), old(device.destroyed), m, Returned(s.gamma, data.gamma), Returned(s.ctm, data.ctm),
                Returned(s.hdr, data.hdr), Drop(data.damage));
    }

    /** CDRMAtomicImpl::commit; the page-flip flag it sets is in OutputCommit. */
    method ImplCommit(device: BlobDevice, j: Job, b: Blobs, a: Answers) returns (ok: bool, data: Blobs)
      requires Nonzero(a)
      modifies this, device
      ensures var o := Commit(old(Value()), j, b, a);
              && ok == o.ok && Value() == o.slots && data == o.blobs
              && device.live == LiveAfter(old(device.live), o)
              && device.destroyed == old(device.destroyed) + o.destroyed
    {
      hide Prepare, ApplyList, RollbackList, Members;
      ok, data := PrepareConnector(device, j, b, a);
      if !ok {
        assert Members([]) == {} by {
          NoMembers();
        }
        return;
      }
      data := AddConnector(j, data, a.modeDiffers);
      Settle(device, data, a.accepts);
      ok := a.accepts;
    }

    /** The kernel has answered: apply or roll back. */
    method Settle(device: BlobDevice, data: Blobs, accepts: bool)
      modifies this, device
      ensures var s := old(Value());
              var s0 := if s.ownModeId then s else s.(mode := 0);
              && Value() == (if accepts then
                               Slots(true, if data.blobbed then data.mode else s0.mode, data.gamma, data.ctm, data.hdr)
                             else s.(ownModeId := true))
              && Logged(old(device.live), old(device.destroyed), device.live, device.destroyed,
                        if accepts then ApplyList(s0, data) else RollbackList(s, data))
    {
      if accepts {
        Apply(device, data);
      } else {
        Rollback(device, data);
      }
    }
  }

  lemma NoMembers()
    ensures Members([]) == {}
  {
  }
}
