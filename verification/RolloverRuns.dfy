/** The rollover protocol over time: the signer, the authoritative servers, the parent and every resolver cache. */
module RolloverRuns {
  import opened Common
  import opened ZoneTypes
  import opened RolloverRules

  /** One signed zone: its DNSKEY RRset, the ZSKs that sign its data, and its cache lifetimes. */
  datatype Generation = Generation(signedAt: Time, ksks: set<Key>, zsks: set<Key>, signers: set<Key>, dnskeyTTL: nat,
      maxRRSIGTTL: nat)

  datatype CachedZone = CachedZone(gen: Generation, expiry: Time)
  datatype CachedDS = CachedDS(ds: set<Key>, expiry: Time)

  /**
   * current   the generation last signed
   * served    the generation every server is known to have served since its confirmation
   * deploying some server already serves `current`, not all are known to
   * heldSince since when the parent's DS set has held the live KSK without interruption
   * soleSince since when it has been the live KSK's DS alone, if it is
   * dsTTL     the largest TTL the parent gives the DS RRset
   */
  datatype World = World(
    now: Time,
    zone: Zone,
    current: Option<Generation>,
    served: Option<Generation>,
    deploying: bool,
    parent: set<Key>,
    heldSince: Time,
    soleSince: Time,
    dsTTL: nat,
    keyCaches: set<CachedZone>,
    dataCaches: set<CachedZone>,
    dsCaches: set<CachedDS>)

  datatype Step =
    | Tick(to: Time)
    | Sign(dnskeyTTL: nat, maxRRSIGTTL: nat, immediate: bool)
    | Deploy
    | Confirm
    | FetchKeys(gen: Generation, expiry: Time)
    | FetchData(gen: Generation, expiry: Time)
    | FetchDS(expiry: Time)
    | ChangeDS(ds: set<Key>)
    | StartKSKStep(k: Key)
    | CompleteStep(kind: RolloverKind, observedAt: Time, ttl: nat, saved: bool)
    | CheckKSKStep(readAt: Time, pushAt: Time, reply: Reply, ds: set<Key>, saves: Saves)
    | StartZSKStep(k: Key)
    | CheckZSKStep(readAt: Time, liveKeyOK: bool, saves: Saves)
    | StartAlgorithmStep(k: Key, zk: Key)
    | CheckAlgorithmStep(readAt: Time, pushAt: Time, reply: Reply, ds: set<Key>, probe: Probe, saves: Saves)

  // ---------------------------------------------------------------- the safety property

  /** A resolver that trusts `ds`, holds the DNSKEY RRset of `g` and data of `h` validates, algorithm by algorithm. */
  ghost predicate Chain(ds: set<Key>, g: Generation, h: Generation) {
    && ds != {}
    && forall a :: a in ds ==> Anchored(ds, g, a.alg) && DataSigned(g, h, a.alg)
  }

  /** Some DS of the algorithm has its KSK in the DNSKEY RRset. */
  ghost predicate Anchored(ds: set<Key>, g: Generation, alg: nat) { exists k :: k in ds && k in g.ksks && k.alg == alg }

  /** Some ZSK of the algorithm in the DNSKEY RRset signs the data. */
  ghost predicate DataSigned(g: Generation, h: Generation, alg: nat) {
    exists s :: s in h.signers && s in g.zsks && s.alg == alg }

  ghost predicate HeldKeys(w: World, g: Generation) {
    w.served == Some(g) || w.current == Some(g) || exists c :: c in w.keyCaches && c.gen == g && w.now < c.expiry
  }

  ghost predicate HeldData(w: World, h: Generation) {
    w.served == Some(h) || w.current == Some(h) || exists c :: c in w.dataCaches && c.gen == h && w.now < c.expiry
  }

  ghost predicate HeldDS(w: World, d: set<Key>) {
    w.parent == d || exists c :: c in w.dsCaches && c.ds == d && w.now < c.expiry
  }

  /** No combination of unexpired caches, servers and parent breaks the chain of trust. */
  ghost predicate Safe(w: World) {
    forall d: set<Key>, g, h :: HeldDS(w, d) && HeldKeys(w, g) && HeldData(w, h) ==> Chain(d, g, h)
  }

  // ---------------------------------------------------------------- the environment's rules

  /** A generation some server answers with now. */
  predicate Servable(w: World, g: Generation) { w.served == Some(g) || (w.deploying && w.current == Some(g)) }

  /** The DS sets the parent may hold: what the manager's gates and its advice to the operator allow. */
  predicate DSAllowed(z: Zone, parent: set<Key>, now: Time, ds: set<Key>)
    requires z.ksk.Some?
  {
    var k := z.ksk.value;
    match z.rollover
    case None => k in ds && ds <= parent + {k}
    case Some(r) =>
      match r.kind
      case ZSKRoll => k in ds && ds <= parent + {k}
      case KSKRoll =>
        && ds <= parent + {r.oldKey, r.newKey}
        && (r.phase.DSAddWait? ==> r.oldKey in ds)
        && (!r.phase.DSAddWait? ==> r.newKey in ds && (r.oldKey in ds || NewKeysPropagated(z, now)))
      case AlgorithmRoll =>
        && ds <= parent + {r.oldKey, r.newKey}
        && (ds == {r.newKey} || r.oldKey in ds)
        && (r.newKey in ds ==> NewKeysPropagated(z, now))
        && ((r.phase.DSAddWait? || r.phase.DSPropagation?) ==> r.oldKey in ds)
        && ((r.phase.Retiring? || r.oldDSRemovedAt != 0) ==> r.oldKey !in ds)
  }

  function SignedGeneration(z: Zone, now: Time, dnskeyTTL: nat, maxRRSIGTTL: nat): Generation
    requires z.ksk.Some? && z.zsk.Some?
  {
    Generation(now, PhaseKSKs(z), PhaseZSKs(z), PhaseSigners(z), dnskeyTTL, maxRRSIGTTL)
  }

  predicate HasKeys(w: World) { w.zone.ksk.Some? && w.zone.zsk.Some? }

  /** The new DS is at the parent, and the recorded wait outlives every DS set fetched before it appeared. */
  predicate WaitCovers(w: World, observedAt: Time, ttl: nat)
    requires HasKeys(w)
  {
    w.zone.ksk.value in w.parent && w.heldSince + Seconds(w.dsTTL) <= observedAt + EffectiveParentDSTTL(ttl)
  }

  /** The recorded wait outlives every DS set fetched before the parent's came down to the new DS alone. */
  predicate RemovalCovers(soleSince: Time, dsTTL: nat, removedAt: Time, ttl: nat) {
    soleSince + Seconds(dsTTL) <= removedAt + EffectiveParentDSTTL(ttl)
  }

  /** This check ends the KSK rollover although the new KSK has not reached every resolver. */
  predicate EndsUnpropagated(cfg: Config, z: Zone, readAt: Time, pushAt: Time, now: Time, reply: Reply, saves: Saves) {
    CheckKSK(cfg, z, readAt, pushAt, reply, saves).rollover.None? && !NewKeysPropagated(StampNewKeyPropagation(cfg, z),
        now)
  }

  predicate Enabled(cfg: Config, w: World, s: Step)
    requires HasKeys(w)
  {
    var z := w.zone;
    match s
    case Tick(to) => w.now <= to
    // A generation some server serves is confirmed before the next signing.
    case Sign(_, _, _) => !w.deploying
    case Deploy => z.pendingPublication && w.current.Some?
    case Confirm => z.pendingPublication && w.current.Some?
    case FetchKeys(g, expiry) => Servable(w, g) && expiry <= w.now + Seconds(g.dnskeyTTL)
    case FetchData(g, expiry) => Servable(w, g) && expiry <= w.now + Seconds(g.maxRRSIGTTL)
    case FetchDS(expiry) => expiry <= w.now + Seconds(w.dsTTL)
    case ChangeDS(ds) => DSAllowed(z, w.parent, w.now, ds)
    // Key generation keeps the algorithm and never reuses a key tag.
    case StartKSKStep(k) => CanStartKSK(z) && k.alg == z.ksk.value.alg && k != z.ksk.value
    case StartZSKStep(k) => CanStartZSK(z) && k.alg == z.zsk.value.alg && k != z.zsk.value
    case StartAlgorithmStep(k, zk) => CanStartAlgorithm(z, k.alg) && zk.alg == k.alg
    case CompleteStep(kind, observedAt, ttl, _) =>
      && CanComplete(z, kind)
      && !kind.ZSKRoll?
      && (kind.KSKRoll? ==> WaitCovers(w, observedAt, if ttl == 0 then cfg.parentDSTTLFallback else ttl))
    // A check reads the clock first; its effects come no earlier.
    case CheckKSKStep(readAt, pushAt, reply, ds, saves) =>
      && InKind(z, KSKRoll)
      && 0 < readAt <= w.now && 0 < pushAt <= w.now
      && (cfg.publisherInstalled || !EndsUnpropagated(cfg, z, readAt, pushAt, w.now, reply, saves))
      && (ds == w.parent || DSAllowed(StampNewKeyPropagation(cfg, z), w.parent, w.now, ds))
    // The process lock keeps signings out from the reading on.
    case CheckZSKStep(readAt, _, _) => InKind(z, ZSKRoll) && 0 < readAt <= w.now && z.lastSigned <= readAt
    // The wait counted from the reading outlives every DS set fetched until the old DS was gone.
    case CheckAlgorithmStep(readAt, pushAt, _, ds, probe, saves) =>
      && InKind(z, AlgorithmRoll)
      && 0 < readAt <= w.now && 0 < pushAt <= w.now
      && (ds == w.parent || DSAllowed(CheckAlgorithm(cfg, z, readAt, pushAt, Failed, NoProbe, saves), w.parent, w.now,
          ds))
      && (probe.Observed? && probe.absent ==>
            && z.rollover.value.oldKey !in ds
            && RemovalCovers(Sole(w, ds, z.ksk.value), w.dsTTL, readAt, OldDSGone(z.rollover.value, probe.ttl,
                readAt).parentDSTTL))
  }

  function Since(w: World, ds: set<Key>, k: Key): Time {
    if k in w.parent && k in ds then w.heldSince else w.now
  }

  function Sole(w: World, ds: set<Key>, k: Key): Time {
    if w.parent == {k} && ds == {k} then w.soleSince else w.now
  }

  /** The parent's DS set changes, now. */
  function MoveDS(w: World, ds: set<Key>): World
    requires HasKeys(w)
  {
    w.(parent := ds, heldSince := Since(w, ds, w.zone.ksk.value), soleSince := Sole(w, ds, w.zone.ksk.value))
  }

  function Apply(cfg: Config, w: World, s: Step): World
    requires HasKeys(w) && Enabled(cfg, w, s)
  {
    var z := w.zone;
    match s
    case Tick(to) => w.(now := to)
    case Sign(dnskeyTTL, maxRRSIGTTL, immediate) =>
      var g := SignedGeneration(z, w.now, dnskeyTTL, maxRRSIGTTL);
      w.(zone := RecordSigned(z, w.now, dnskeyTTL, maxRRSIGTTL, immediate),
         current := Some(g), served := if immediate then Some(g) else w.served)
    case Deploy => w.(deploying := true)
    case Confirm => w.(zone := ConfirmPublication(z, z.lastSigned, w.now), served := w.current, deploying := false)
    case FetchKeys(g, expiry) => w.(keyCaches := w.keyCaches + {CachedZone(g, expiry)})
    case FetchData(g, expiry) => w.(dataCaches := w.dataCaches + {CachedZone(g, expiry)})
    case FetchDS(expiry) => w.(dsCaches := w.dsCaches + {CachedDS(w.parent, expiry)})
    case ChangeDS(ds) => MoveDS(w, ds)
    case StartKSKStep(k) => w.(zone := StartKSK(z, k, w.now), heldSince := w.now, soleSince := w.now)
    case StartZSKStep(k) => w.(zone := StartZSK(z, k, w.now))
    case StartAlgorithmStep(k, zk) => w.(zone := StartAlgorithm(z, k, zk, w.now), heldSince := w.now, soleSince :=
        w.now)
    case CompleteStep(_, observedAt, ttl, saved) => w.(zone := CompleteRollover(cfg, z, observedAt, ttl, w.now, saved))
    case CheckKSKStep(readAt, pushAt, reply, ds, saves) =>
      MoveDS(w, ds).(zone := CheckKSK(cfg, z, readAt, pushAt, reply, saves))
    case CheckZSKStep(readAt, liveKeyOK, saves) => w.(zone := HandleZSK(cfg, z, readAt, liveKeyOK, saves))
    case CheckAlgorithmStep(readAt, pushAt, reply, ds, probe, saves) =>
      MoveDS(w, ds).(zone := CheckAlgorithm(cfg, z, readAt, pushAt, reply, probe, saves))
  }

  // ---------------------------------------------------------------- the invariant

  /** Time, generations and horizons agree: the horizons bound every cache of a superseded generation. */
  ghost predicate Accounts(w: World) {
    var z := w.zone;
    && w.now > 0
    && z.lastSigned <= w.now
    && z.publishedAt <= w.now
    && (w.current.Some? ==> w.current.value.signedAt == z.lastSigned > 0
                            && w.current.value.dnskeyTTL == z.publishedDNSKEYTTL
                            && w.current.value.maxRRSIGTTL == z.publishedMaxRRSIGTTL)
    && (w.served.Some? ==> w.current.Some?
                           && w.served.value.signedAt == z.publishedGenSignedAt <= z.lastSigned
                           && w.served.value.dnskeyTTL == z.servedDNSKEYTTL
                           && w.served.value.maxRRSIGTTL == z.servedMaxRRSIGTTL
                           && z.publishedAt > 0)
    && (w.served.None? ==> z.publishedGenSignedAt == 0)
    && (w.deploying ==> z.pendingPublication && w.current.Some?)
    && (forall c :: c in w.keyCaches ==> c.gen.signedAt <= z.lastSigned && c.expiry <= w.now + Seconds(c.gen.dnskeyTTL))
    && (forall c :: c in w.dataCaches ==>
        c.gen.signedAt <= z.lastSigned && c.expiry <= w.now + Seconds(c.gen.maxRRSIGTTL))
    && (forall c :: c in w.dsCaches ==> c.expiry <= w.now + Seconds(w.dsTTL))
    && HorizonsBound(w)
  }

  /** The cache-horizon bound: what is cached is still served, or gone by the recorded horizon. */
  ghost predicate HorizonsBound(w: World) {
    && (forall c :: c in w.keyCaches ==> Servable(w, c.gen) || c.expiry <= w.zone.dnskeyHorizon)
    && (forall c :: c in w.dataCaches ==> Servable(w, c.gen) || c.expiry <= w.zone.rrsigHorizon)
  }

  /**
   * DS sets cached without the live KSK, or with any other, expire one DS TTL after the parent's set began to be what
   * it is.
   */
  ghost predicate DSAccounts(w: World)
    requires HasKeys(w)
  {
    var k := w.zone.ksk.value;
    && w.heldSince <= w.now && w.soleSince <= w.now
    && (w.parent == {k} ==> w.heldSince <= w.soleSince)
    && (w.parent == {k} ==> forall c :: c in w.dsCaches && c.ds != {k} ==> c.expiry <= w.soleSince + Seconds(w.dsTTL))
    && (k in w.parent ==> forall c :: c in w.dsCaches && k !in c.ds ==> c.expiry <= w.heldSince + Seconds(w.dsTTL))
  }

  /** Every DS set in reach names the live KSK and its algorithm only. */
  ghost predicate SettledDS(w: World)
    requires HasKeys(w)
  {
    var k := w.zone.ksk.value;
    && w.zone.zsk.value.alg == k.alg
    && forall d: set<Key> :: HeldDS(w, d) ==> k in d && forall x: Key :: x in d ==> x.alg == k.alg
  }

  ghost predicate IdleInv(w: World)
    requires HasKeys(w)
  {
    var k, s := w.zone.ksk.value, w.zone.zsk.value;
    && SettledDS(w)
    && (forall g :: HeldKeys(w, g) ==> k in g.ksks && s in g.zsks)
    && (forall h :: HeldData(w, h) ==> s in h.signers)
  }

  /** Once stamped, every DNSKEY RRset without the new KSK is gone from caches by the horizon. */
  ghost predicate KSKHorizon(w: World, r: Rollover) {
    r.phaseHorizon != 0 ==>
      && PublishedSince(w.zone, r.started)
      && forall c :: c in w.keyCaches && r.newKey !in c.gen.ksks ==> c.expiry <= r.phaseHorizon
  }

  ghost predicate KSKInv(w: World, r: Rollover)
    requires HasKeys(w)
  {
    var s := w.zone.zsk.value;
    && w.zone.ksk.value == r.newKey
    && r.oldKey.alg == r.newKey.alg == s.alg && r.oldKey != r.newKey
    && (r.phase.DSAddWait? || r.phase.DSPropagation? || r.phase.Retiring?)
    && r.started <= w.now && r.phaseStarted <= w.now
    && (forall d: set<Key> :: HeldDS(w, d) ==>
          && (forall x: Key :: x in d ==> x.alg == r.newKey.alg)
          && (r.oldKey !in d ==> r.newKey in d && NewKeysPropagated(w.zone, w.now))
          && (r.phase.Retiring? ==> r.newKey in d))
    && (!r.phase.DSAddWait? ==>
          && r.newKey in w.parent
          && forall c :: c in w.dsCaches && r.newKey !in c.ds ==>
              c.expiry <= r.dsObservedAt + EffectiveParentDSTTL(r.parentDSTTL))
    && (forall g :: HeldKeys(w, g) ==>
          && s in g.zsks
          && (r.oldKey in g.ksks || (r.phase.Retiring? && r.newKey in g.ksks))
          && (g.signedAt > r.started ==> r.newKey in g.ksks))
    && (forall h :: HeldData(w, h) ==> s in h.signers)
    && (r.dsRemovalPushedAt != 0 ==> NewKeysPropagated(w.zone, w.now))
    && KSKHorizon(w, r)
  }

  ghost predicate PrePublishHorizon(w: World, r: Rollover) {
    r.phaseFirstSigned != 0 ==>
      && PublishedSince(w.zone, r.started)
      && forall c :: c in w.keyCaches && r.newKey !in c.gen.zsks ==> c.expiry <= r.phaseHorizon
  }

  ghost predicate SigningHorizon(w: World, r: Rollover) {
    r.phaseFirstSigned != 0 ==>
      && PublishedSince(w.zone, r.phaseStarted)
      && forall c :: c in w.dataCaches && r.newKey !in c.gen.signers ==> c.expiry <= r.phaseHorizon
  }

  ghost predicate ZSKInv(w: World, r: Rollover)
    requires HasKeys(w)
  {
    var k := w.zone.ksk.value;
    && SettledDS(w)
    && r.oldKey.alg == r.newKey.alg == k.alg
    && r.started <= w.now && r.phaseStarted <= w.now
    && (r.phase.PrePublish? || r.phase.Signing?)
    && w.zone.zsk.value == (if r.phase.PrePublish? then r.oldKey else r.newKey)
    && (forall g :: HeldKeys(w, g) ==>
          && k in g.ksks && r.oldKey in g.zsks
          && (g.signedAt > r.started || r.phase.Signing? ==> r.newKey in g.zsks))
    && (forall h :: HeldData(w, h) ==>
          if r.phase.PrePublish? then r.oldKey in h.signers
          else (r.oldKey in h.signers || r.newKey in h.signers) && (h.signedAt > r.phaseStarted ==>
              r.newKey in h.signers))
    && (if r.phase.PrePublish? then PrePublishHorizon(w, r) else r.phaseStarted > 0 && SigningHorizon(w, r))
  }

  /** Once stamped, everything cached without the new algorithm's keys or signatures is gone by the horizon. */
  ghost predicate AlgorithmHorizon(w: World, r: Rollover) {
    r.phaseHorizon != 0 ==>
      && PublishedSince(w.zone, r.started)
      && (forall c :: c in w.keyCaches && !(r.newKey in c.gen.ksks && r.newZSK in c.gen.zsks) ==>
          c.expiry <= r.phaseHorizon)
      && (forall c :: c in w.dataCaches && r.newZSK !in c.gen.signers ==> c.expiry <= r.phaseHorizon)
  }

  /** DS sets in reach name the new KSK alone or the old one too, and the new one only once it has propagated. */
  ghost predicate AlgorithmDS(w: World, r: Rollover) {
    && (forall d: set<Key> :: HeldDS(w, d) ==>
          && (d == {r.newKey} || r.oldKey in d)
          && (forall x: Key :: x in d ==> x == r.newKey || x.alg == r.oldKey.alg)
          && (r.newKey in d ==> NewKeysPropagated(w.zone, w.now))
          && (r.phase.Retiring? ==> d == {r.newKey}))
    && (r.oldDSRemovedAt != 0 ==>
          && w.parent == {r.newKey}
          && forall c :: c in w.dsCaches && c.ds != {r.newKey} ==>
              c.expiry <= r.oldDSRemovedAt + EffectiveParentDSTTL(r.parentDSTTL))
  }

  /** DNSKEY RRsets in reach keep the old keys until they retire, and carry the new ones since the start. */
  ghost predicate AlgorithmKeys(w: World, r: Rollover) {
    forall g :: HeldKeys(w, g) ==>
      && (r.phase.Retiring? || (r.oldKey in g.ksks && r.oldZSK in g.zsks))
      && (g.signedAt > r.started ==> r.newKey in g.ksks && r.newZSK in g.zsks && g.ksks <= {r.oldKey, r.newKey})
  }

  /** Data in reach is signed by the old ZSK until it retires, and by the new one since the start. */
  ghost predicate AlgorithmData(w: World, r: Rollover) {
    forall h :: HeldData(w, h) ==>
      && (r.phase.Retiring? || r.oldZSK in h.signers)
      && (h.signedAt > r.started ==> r.newZSK in h.signers)
  }

  ghost predicate AlgorithmInv(w: World, r: Rollover)
    requires HasKeys(w)
  {
    && w.zone.ksk.value == r.newKey && w.zone.zsk.value == r.newZSK
    && r.newKey.alg == r.newZSK.alg && r.oldKey.alg == r.oldZSK.alg && r.oldKey.alg != r.newKey.alg
    && (r.phase.DSAddWait? || r.phase.DSPropagation? || r.phase.OldDSRemoval? || r.phase.Retiring?)
    && r.started <= w.now && r.phaseStarted <= w.now
    && (r.oldDSRemovedAt != 0 ==> r.phase.OldDSRemoval? || r.phase.Retiring?)
    && (r.phase.Retiring? ==> r.oldDSRemovedAt != 0)
    && AlgorithmDS(w, r) && AlgorithmKeys(w, r) && AlgorithmData(w, r) && AlgorithmHorizon(w, r)
  }

  ghost predicate PhaseInv(w: World)
    requires HasKeys(w)
  {
    match w.zone.rollover
    case None => IdleInv(w)
    case Some(r) =>
      match r.kind
      case KSKRoll => KSKInv(w, r)
      case ZSKRoll => ZSKInv(w, r)
      case AlgorithmRoll => AlgorithmInv(w, r)
  }

  ghost predicate Inv(w: World) { HasKeys(w) && Accounts(w) && DSAccounts(w) && PhaseInv(w) }

  /** Past the horizon, whatever is still held carries the new keys. */
  lemma PropagatedMeansHeld(w: World)
    requires Inv(w) && NewKeysPropagated(w.zone, w.now)
    ensures var r := w.zone.rollover.value;
            && (r.kind.KSKRoll? ==> forall g :: HeldKeys(w, g) ==> r.newKey in g.ksks)
            && (r.kind.AlgorithmRoll? ==>
                  && (forall g :: HeldKeys(w, g) ==> r.newKey in g.ksks && r.newZSK in g.zsks)
                  && (forall h :: HeldData(w, h) ==> r.newZSK in h.signers))
  {
  }

  /** The invariant excludes every broken combination. */
  lemma InvIsSafe(w: World)
    requires Inv(w)
    ensures Safe(w)
  {
    forall d, g, h | HeldDS(w, d) && HeldKeys(w, g) && HeldData(w, h)
      ensures Chain(d, g, h)
    {
      if NewKeysPropagated(w.zone, w.now) { PropagatedMeansHeld(w); }
    }
  }

  // ---------------------------------------------------------------- runs

  /**
   * A zone taken under management: nothing signed yet, and a parent that trusts its KSK or a same-algorithm set with
   * it.
   */
  ghost predicate Init(w: World) {
    && HasKeys(w)
    && w.now > 0 && w.heldSince <= w.soleSince <= w.now
    && w.zone.rollover.None?
    && w.zone.lastSigned == w.zone.publishedAt == w.zone.publishedGenSignedAt == 0
    && w.zone.zsk.value.alg == w.zone.ksk.value.alg
    && w.current.None? && w.served.None? && !w.deploying
    && w.zone.ksk.value in w.parent
    && (forall x :: x in w.parent ==> x.alg == w.zone.ksk.value.alg)
    && w.keyCaches == {} && w.dataCaches == {} && w.dsCaches == {}
  }

  ghost predicate Next(cfg: Config, w: World, w': World) {
    HasKeys(w) && exists s :: Enabled(cfg, w, s) && w' == Apply(cfg, w, s)
  }

  /** The steps of one configuration from a given state. */
  ghost predicate Follows(cfg: Config, run: seq<World>) {
    run != [] && forall i :: 0 < i < |run| ==> Next(cfg, run[i - 1], run[i])
  }

  /** A whole run under one configuration. */
  ghost predicate RunUnder(cfg: Config, run: seq<World>) { Follows(cfg, run) && Init(run[0]) }

  ghost predicate Reconfigured(w: World, w': World) { exists cfg :: Next(cfg, w, w') }

  /** A run: a reload may change the configuration between any two steps. */
  ghost predicate IsRun(run: seq<World>) {
    && run != []
    && Init(run[0])
    && forall i :: 0 < i < |run| ==> Reconfigured(run[i - 1], run[i])
  }

  lemma RunUnderIsRun(cfg: Config, run: seq<World>)
    requires RunUnder(cfg, run)
    ensures IsRun(run)
  {
    hide Next;
    forall i | 0 < i < |run| ensures Reconfigured(run[i - 1], run[i]) { assert Next(cfg, run[i - 1], run[i]); }
  }
}
