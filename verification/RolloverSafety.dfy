/** Every step keeps the invariant, so every run is safe. */
module RolloverSafety {
  import opened Common
  import opened ZoneTypes
  import opened RolloverRules
  import opened RolloverRuns

  /** Time passes, caches fill, a generation is deployed or confirmed: nothing new comes into reach. */
  ghost predicate Quiet(w: World, w': World) {
    && HasKeys(w) && HasKeys(w')
    && w'.now >= w.now
    && w'.zone.ksk == w.zone.ksk && w'.zone.zsk == w.zone.zsk && w'.zone.rollover == w.zone.rollover
    && w'.zone.publishedGenSignedAt >= w.zone.publishedGenSignedAt
    && w'.parent == w.parent && w'.heldSince == w.heldSince && w'.soleSince == w.soleSince && w'.dsTTL == w.dsTTL
    && w'.current == w.current
    && (w'.served == w.served || w'.served == w.current)
    && (forall c :: c in w'.keyCaches ==> c in w.keyCaches || Servable(w, c.gen))
    && (forall c :: c in w'.dataCaches ==> c in w.dataCaches || Servable(w, c.gen))
    && (forall c :: c in w'.dsCaches ==> c in w.dsCaches || c.ds == w.parent)
  }

  ghost predicate NothingNewHeld(w: World, w': World) {
    && (forall g :: HeldKeys(w', g) ==> HeldKeys(w, g))
    && (forall h :: HeldData(w', h) ==> HeldData(w, h))
    && (forall d: set<Key> :: HeldDS(w', d) ==> HeldDS(w, d))
  }

  lemma QuietHoldsNothingNew(w: World, w': World)
    requires Quiet(w, w')
    ensures NothingNewHeld(w, w')
  {
  }

  lemma QuietIdle(w: World, w': World)
    requires Inv(w) && Quiet(w, w') && w.zone.rollover.None?
    ensures IdleInv(w')
  {
    QuietHoldsNothingNew(w, w');
  }

  lemma QuietKSK(w: World, w': World)
    requires Inv(w) && Quiet(w, w') && InKind(w.zone, KSKRoll)
    ensures KSKInv(w', w.zone.rollover.value)
  {
    hide HorizonsBound, DSAccounts;
    QuietHoldsNothingNew(w, w');
  }

  lemma QuietZSK(w: World, w': World)
    requires Inv(w) && Quiet(w, w') && InKind(w.zone, ZSKRoll)
    ensures ZSKInv(w', w.zone.rollover.value)
  {
    hide HorizonsBound, DSAccounts;
    QuietHoldsNothingNew(w, w');
  }

  lemma QuietAlgorithm(w: World, w': World)
    requires Inv(w) && Quiet(w, w') && InKind(w.zone, AlgorithmRoll)
    ensures AlgorithmInv(w', w.zone.rollover.value)
  {
    hide HorizonsBound, DSAccounts;
    QuietHoldsNothingNew(w, w');
  }

  lemma QuietKeepsPhase(w: World, w': World)
    requires Inv(w) && Quiet(w, w')
    ensures DSAccounts(w') && PhaseInv(w')
  {
    hide Accounts, IdleInv, KSKInv, ZSKInv, AlgorithmInv;
    match w.zone.rollover
    case None => QuietIdle(w, w');
    case Some(r) =>
      match r.kind
      case KSKRoll => QuietKSK(w, w');
      case ZSKRoll => QuietZSK(w, w');
      case AlgorithmRoll => QuietAlgorithm(w, w');
  }

  predicate IsFetch(s: Step) { s.FetchKeys? || s.FetchData? || s.FetchDS? }

  lemma FetchSteps(cfg: Config, w: World, s: Step)
    requires Inv(w) && Enabled(cfg, w, s) && IsFetch(s)
    ensures Inv(Apply(cfg, w, s))
  {
    hide PhaseInv, DSAccounts;
    assert Accounts(Apply(cfg, w, s));
    QuietKeepsPhase(w, Apply(cfg, w, s));
  }

  lemma QuietSteps(cfg: Config, w: World, s: Step)
    requires Inv(w) && Enabled(cfg, w, s)
    requires s.Tick? || s.Deploy? || s.Confirm?
    ensures Inv(Apply(cfg, w, s))
  {
    hide PhaseInv, DSAccounts;
    assert Accounts(Apply(cfg, w, s));
    QuietKeepsPhase(w, Apply(cfg, w, s));
  }

  // ---------------------------------------------------------------- signing

  /** Only the generation in front changes; the caches, the parent and the rollover record stay. */
  ghost predicate Resigned(w: World, w': World) {
    && HasKeys(w) && HasKeys(w')
    && w'.now == w.now
    && w'.zone.ksk == w.zone.ksk && w'.zone.zsk == w.zone.zsk && w'.zone.rollover == w.zone.rollover
    && w'.zone.publishedGenSignedAt >= w.zone.publishedGenSignedAt
    && w'.parent == w.parent && w'.heldSince == w.heldSince && w'.soleSince == w.soleSince && w'.dsTTL == w.dsTTL
    && w'.current.Some?
    && (w'.served == w.served || w'.served == w'.current)
    && w'.keyCaches == w.keyCaches && w'.dataCaches == w.dataCaches && w'.dsCaches == w.dsCaches
    && w'.current.value.ksks == PhaseKSKs(w.zone)
    && w'.current.value.zsks == PhaseZSKs(w.zone)
    && w'.current.value.signers == PhaseSigners(w.zone)
  }

  lemma ResignedHolds(w: World, w': World)
    requires Resigned(w, w')
    ensures forall x :: HeldKeys(w', x) ==> HeldKeys(w, x) || w'.current == Some(x)
    ensures forall x :: HeldData(w', x) ==> HeldData(w, x) || w'.current == Some(x)
    ensures forall d: set<Key> :: HeldDS(w', d) ==> HeldDS(w, d)
  {
  }

  lemma ResignedIdle(w: World, w': World)
    requires Inv(w) && w.zone.rollover.None? && Resigned(w, w')
    ensures PhaseInv(w')
  {
    ResignedHolds(w, w');
  }

  lemma ResignedKSK(w: World, w': World)
    requires Inv(w) && InKind(w.zone, KSKRoll) && Resigned(w, w')
    ensures PhaseInv(w')
  {
    ResignedHolds(w, w');
  }

  lemma ResignedZSK(w: World, w': World)
    requires Inv(w) && InKind(w.zone, ZSKRoll) && Resigned(w, w')
    ensures PhaseInv(w')
  {
    ResignedHolds(w, w');
  }

  lemma ResignedAlgorithm(w: World, w': World)
    requires Inv(w) && InKind(w.zone, AlgorithmRoll) && Resigned(w, w')
    ensures PhaseInv(w')
  {
    ResignedHolds(w, w');
  }

  lemma SignAccounts(cfg: Config, w: World, s: Step)
    requires HasKeys(w) && Accounts(w) && DSAccounts(w) && s.Sign? && Enabled(cfg, w, s)
    ensures Accounts(Apply(cfg, w, s)) && DSAccounts(Apply(cfg, w, s)) && Resigned(w, Apply(cfg, w, s))
  {
    hide PhaseKSKs, PhaseZSKs, PhaseSigners;
  }

  lemma SignKeepsInv(cfg: Config, w: World, s: Step)
    requires Inv(w) && s.Sign? && Enabled(cfg, w, s)
    ensures Inv(Apply(cfg, w, s))
  {
    hide PhaseInv, Accounts, DSAccounts, Resigned;
    var w' := Apply(cfg, w, s);
    SignAccounts(cfg, w, s);
    hide Apply;
    match w.zone.rollover
    case None => ResignedIdle(w, w');
    case Some(r) =>
      match r.kind
      case KSKRoll => ResignedKSK(w, w');
      case ZSKRoll => ResignedZSK(w, w');
      case AlgorithmRoll => ResignedAlgorithm(w, w');
  }

  // ---------------------------------------------------------------- the parent's DS set

  lemma DSMoveHolds(w: World, ds: set<Key>)
    requires HasKeys(w)
    ensures forall x :: HeldKeys(MoveDS(w, ds), x) ==> HeldKeys(w, x)
    ensures forall x :: HeldData(MoveDS(w, ds), x) ==> HeldData(w, x)
    ensures forall d: set<Key> :: HeldDS(MoveDS(w, ds), d) ==> HeldDS(w, d) || d == ds
    ensures HeldDS(w, w.parent)
  {
  }

  lemma DSMoveAlgorithm(w: World, ds: set<Key>)
    requires Inv(w) && DSAllowed(w.zone, w.parent, w.now, ds) && InKind(w.zone, AlgorithmRoll)
    ensures PhaseInv(MoveDS(w, ds))
  {
    DSMoveHolds(w, ds);
    var r := w.zone.rollover.value;
    assert ds == {r.newKey} || r.oldKey in ds;
  }

  lemma DSMoveKSK(w: World, ds: set<Key>)
    requires Inv(w) && DSAllowed(w.zone, w.parent, w.now, ds) && InKind(w.zone, KSKRoll)
    ensures PhaseInv(MoveDS(w, ds))
  {
    DSMoveHolds(w, ds);
  }

  lemma DSMoveIdleOrZSK(w: World, ds: set<Key>)
    requires Inv(w) && DSAllowed(w.zone, w.parent, w.now, ds) && (w.zone.rollover.None? || InKind(w.zone, ZSKRoll))
    ensures PhaseInv(MoveDS(w, ds))
  {
    DSMoveHolds(w, ds);
  }

  lemma DSMoveAccounts(w: World, ds: set<Key>)
    requires HasKeys(w) && Accounts(w) && DSAccounts(w)
    ensures Accounts(MoveDS(w, ds)) && DSAccounts(MoveDS(w, ds))
  {
  }

  lemma SameDSKeepsPhase(w: World)
    requires HasKeys(w) && PhaseInv(w)
    ensures PhaseInv(MoveDS(w, w.parent))
  {
    SameReachHolds(w, MoveDS(w, w.parent));
    hide HeldKeys, HeldData, HeldDS;
  }

  lemma DSMoveKeepsInv(w: World, ds: set<Key>)
    requires Inv(w) && (ds == w.parent || DSAllowed(w.zone, w.parent, w.now, ds))
    ensures Inv(MoveDS(w, ds))
  {
    hide Accounts, DSAccounts, PhaseInv, DSAllowed;
    DSMoveAccounts(w, ds);
    if ds == w.parent {
      SameDSKeepsPhase(w);
    } else if InKind(w.zone, AlgorithmRoll) {
      DSMoveAlgorithm(w, ds);
    } else if InKind(w.zone, KSKRoll) {
      DSMoveKSK(w, ds);
    } else {
      assert w.zone.rollover.None? || InKind(w.zone, ZSKRoll);
      DSMoveIdleOrZSK(w, ds);
    }
  }

  // ---------------------------------------------------------------- steps of the record alone

  /** Only the zone's record changes: generations, caches and the parent stay. */
  ghost predicate SameReach(w: World, w': World) {
    && w'.now == w.now && w'.current == w.current && w'.served == w.served && w'.deploying == w.deploying
    && w'.parent == w.parent && w'.dsTTL == w.dsTTL
    && w'.keyCaches == w.keyCaches && w'.dataCaches == w.dataCaches && w'.dsCaches == w.dsCaches
  }

  /** The publication fields are untouched, so the cache accounting stands. */
  ghost predicate SamePublication(z: Zone, z': Zone) {
    && z'.lastSigned == z.lastSigned && z'.pendingPublication == z.pendingPublication
    && z'.publishedAt == z.publishedAt && z'.publishedGenSignedAt == z.publishedGenSignedAt
    && z'.publishedDNSKEYTTL == z.publishedDNSKEYTTL && z'.publishedMaxRRSIGTTL == z.publishedMaxRRSIGTTL
    && z'.servedDNSKEYTTL == z.servedDNSKEYTTL && z'.servedMaxRRSIGTTL == z.servedMaxRRSIGTTL
    && z'.dnskeyHorizon == z.dnskeyHorizon && z'.rrsigHorizon == z.rrsigHorizon
  }

  lemma SameReachHolds(w: World, w': World)
    requires SameReach(w, w')
    ensures forall g :: HeldKeys(w', g) <==> HeldKeys(w, g)
    ensures forall h :: HeldData(w', h) <==> HeldData(w, h)
    ensures forall d: set<Key> :: HeldDS(w', d) <==> HeldDS(w, d)
    ensures HeldDS(w, w.parent)
    ensures w.served.Some? ==> HeldKeys(w, w.served.value) && HeldData(w, w.served.value)
    ensures w.current.Some? ==> HeldKeys(w, w.current.value) && HeldData(w, w.current.value)
    ensures SamePublication(w.zone, w'.zone) && Accounts(w) ==> Accounts(w')
  {
  }

  ghost function WithZone(w: World, z: Zone): World { w.(zone := z) }

  lemma StartKSKKeepsInv(w: World, k: Key)
    requires Inv(w) && CanStartKSK(w.zone) && k.alg == w.zone.ksk.value.alg && k != w.zone.ksk.value
    ensures Inv(w.(zone := StartKSK(w.zone, k, w.now), heldSince := w.now, soleSince := w.now))
  {
    SameReachHolds(w, w.(zone := StartKSK(w.zone, k, w.now), heldSince := w.now, soleSince := w.now));
  }

  lemma StartZSKKeepsInv(w: World, k: Key)
    requires Inv(w) && CanStartZSK(w.zone) && k.alg == w.zone.zsk.value.alg
    ensures Inv(WithZone(w, StartZSK(w.zone, k, w.now)))
  {
    SameReachHolds(w, WithZone(w, StartZSK(w.zone, k, w.now)));
  }

  lemma StartAlgorithmKeepsInv(w: World, k: Key, zk: Key)
    requires Inv(w) && CanStartAlgorithm(w.zone, k.alg) && zk.alg == k.alg
    ensures Inv(w.(zone := StartAlgorithm(w.zone, k, zk, w.now), heldSince := w.now, soleSince := w.now))
  {
    SameReachHolds(w, w.(zone := StartAlgorithm(w.zone, k, zk, w.now), heldSince := w.now, soleSince := w.now));
  }

  lemma StampKeepsInv(cfg: Config, w: World)
    requires Inv(w)
    ensures Inv(WithZone(w, StampNewKeyPropagation(cfg, w.zone)))
  {
    hide PhaseInv, HorizonsBound;
    var w' := WithZone(w, StampNewKeyPropagation(cfg, w.zone));
    SameReachHolds(w, w');
    if NeedsStamp(w.zone) {
      if InKind(w.zone, KSKRoll) { StampKSK(cfg, w); } else { StampAlgorithm(cfg, w); }
    }
  }

  lemma StampKSK(cfg: Config, w: World)
    requires Inv(w) && NeedsStamp(w.zone) && InKind(w.zone, KSKRoll)
    ensures PhaseInv(WithZone(w, StampNewKeyPropagation(cfg, w.zone)))
  {
    SameReachHolds(w, WithZone(w, StampNewKeyPropagation(cfg, w.zone)));
  }

  lemma StampAlgorithm(cfg: Config, w: World)
    requires Inv(w) && NeedsStamp(w.zone) && InKind(w.zone, AlgorithmRoll)
    ensures PhaseInv(WithZone(w, StampNewKeyPropagation(cfg, w.zone)))
  {
    SameReachHolds(w, WithZone(w, StampNewKeyPropagation(cfg, w.zone)));
  }

  /** The operator's completion, after the stamp. */
  lemma ObservedKeepsInv(w: World, r': Rollover, observedAt: Time, ttl: nat)
    requires Inv(w) && w.zone.rollover.Some? && !w.zone.rollover.value.kind.ZSKRoll? &&
        w.zone.rollover.value.phase.DSAddWait?
    requires w.zone.rollover.value.kind.KSKRoll? ==> WaitCovers(w, observedAt, ttl)
    requires r' == w.zone.rollover.value.(phase := DSPropagation, dsObservedAt := observedAt, parentDSTTL := ttl,
        phaseStarted := w.now)
    ensures Inv(WithZone(w, w.zone.(rollover := Some(r'))))
  {
    SameReachHolds(w, WithZone(w, w.zone.(rollover := Some(r'))));
  }

  lemma CompleteKeepsInv(cfg: Config, w: World, s: Step)
    requires Inv(w) && s.CompleteStep? && Enabled(cfg, w, s)
    ensures Inv(Apply(cfg, w, s))
  {
    StampKeepsInv(cfg, w);
    var w1 := WithZone(w, StampNewKeyPropagation(cfg, w.zone));
    if !(NeedsStamp(w.zone) && !s.saved) {
      var ttl := if s.ttl == 0 then cfg.parentDSTTLFallback else s.ttl;
      var r' := w1.zone.rollover.value.(phase := DSPropagation, dsObservedAt := s.observedAt, parentDSTTL := ttl,
          phaseStarted := w.now);
      ObservedKeepsInv(w1, r', s.observedAt, ttl);
      assert Apply(cfg, w, s) == WithZone(w1, w1.zone.(rollover := Some(r')));
    } else {
      assert Apply(cfg, w, s) == w1;
    }
  }

  // ---------------------------------------------------------------- periodic checks

  /** Recording that the registrar was updated, once the new keys have propagated. */
  lemma PushedKeepsInv(w: World, r: Rollover, at: Time)
    requires Inv(w) && w.zone.rollover == Some(r) && !r.kind.ZSKRoll? && NewKeysPropagated(w.zone, w.now)
    ensures Inv(WithZone(w, w.zone.(rollover := Some(r.(dsRemovalPushedAt := at)))))
  {
    hide HorizonsBound, SettledDS;
    SameReachHolds(w, WithZone(w, w.zone.(rollover := Some(r.(dsRemovalPushedAt := at)))));
  }

  lemma PushKeepsInv(cfg: Config, w: World, at: Time, reply: Reply)
    requires Inv(w) && at <= w.now && w.zone.rollover.Some? && !w.zone.rollover.value.kind.ZSKRoll?
    ensures Inv(WithZone(w, PushOldDSRemoval(cfg, w.zone, at, reply).1))
  {
    if PushOldDSRemoval(cfg, w.zone, at, reply).1 == w.zone {
      assert WithZone(w, w.zone) == w;
    } else {
      PushedKeepsInv(w, w.zone.rollover.value, at);
    }
  }

  lemma KSKRetireKeepsInv(w: World, r: Rollover, at: Time)
    requires Inv(w) && at <= w.now && w.zone.rollover == Some(r) && r.kind.KSKRoll? && r.phase.DSPropagation?
    requires at >= r.dsObservedAt + EffectiveParentDSTTL(r.parentDSTTL)
    ensures Inv(WithZone(w, w.zone.(rollover := Some(r.(phase := Retiring, phaseStarted := at)), forceResign := true)))
  {
    SameReachHolds(w, WithZone(w, w.zone.(rollover := Some(r.(phase := Retiring, phaseStarted := at)), forceResign :=
        true)));
  }

  lemma KSKEndKeepsInv(w: World, r: Rollover)
    requires Inv(w) && w.zone.rollover == Some(r) && r.kind.KSKRoll? && r.phase.Retiring?
    requires NewKeysPropagated(w.zone, w.now)
    ensures Inv(WithZone(w, w.zone.(rollover := None)))
  {
    SameReachHolds(w, WithZone(w, w.zone.(rollover := None)));
    PropagatedMeansHeld(w);
  }

  lemma PushedMeansPropagated(w: World)
    requires Inv(w) && InKind(w.zone, KSKRoll)
    ensures w.zone.rollover.value.dsRemovalPushedAt != 0 ==> NewKeysPropagated(w.zone, w.now)
  {
  }

  /** The part of a KSK check that follows the stamp and the registrar's answer. */
  lemma KSKTailKeepsInv(cfg: Config, w: World, readAt: Time, pushAt: Time, reply: Reply, saves: Saves)
    requires Inv(w) && InKind(w.zone, KSKRoll) && !NeedsStamp(w.zone)
    requires readAt <= w.now && pushAt <= w.now
    requires cfg.publisherInstalled || !EndsUnpropagated(cfg, w.zone, readAt, pushAt, w.now, reply, saves)
    ensures Inv(WithZone(w, CheckKSK(cfg, w.zone, readAt, pushAt, reply, saves)))
  {
    hide Accounts, DSAccounts, PhaseInv;
    var (settled, z2) := PushOldDSRemoval(cfg, w.zone, pushAt, reply);
    var w2 := WithZone(w, z2);
    PushKeepsInv(cfg, w, pushAt, reply);
    PushedMeansPropagated(w2);
    var z' := CheckKSK(cfg, w.zone, readAt, pushAt, reply, saves);
    var r := z2.rollover.value;
    if z' == w.zone {
      assert WithZone(w, z') == w;
    } else if z' == z2 {
    } else if r.phase.DSPropagation? {
      KSKRetireKeepsInv(w2, r, readAt);
      assert WithZone(w, z') == WithZone(w2, z');
    } else {
      KSKEndKeepsInv(w2, r);
      assert WithZone(w, z') == WithZone(w2, z');
    }
  }

  lemma CheckKSKKeepsInv(cfg: Config, w: World, s: Step)
    requires Inv(w) && s.CheckKSKStep? && Enabled(cfg, w, s)
    ensures Inv(Apply(cfg, w, s))
  {
    hide Accounts, DSAccounts, PhaseInv;
    var z1 := StampNewKeyPropagation(cfg, w.zone);
    var w2 := MoveDS(WithZone(w, z1), s.ds);
    assert Inv(w2) by {
      StampKeepsInv(cfg, w);
      DSMoveKeepsInv(WithZone(w, z1), s.ds);
    }
    if NeedsStamp(w.zone) && !s.saves.stamp {
      assert Apply(cfg, w, s) == w2;
    } else {
      KSKTailKeepsInv(cfg, w2, s.readAt, s.pushAt, s.reply, s.saves);
      assert Apply(cfg, w, s) == WithZone(w2, CheckKSK(cfg, z1, s.readAt, s.pushAt, s.reply, s.saves));
    }
  }

  lemma ZSKStampKeepsInv(w: World, floor: nat, horizon: Time)
    requires Inv(w) && InKind(w.zone, ZSKRoll)
    requires horizon >= w.zone.dnskeyHorizon
    requires w.zone.rollover.value.phase.Signing? ==>
        horizon >= w.zone.rrsigHorizon && PublishedSince(w.zone, w.zone.rollover.value.phaseStarted)
    requires w.zone.rollover.value.phase.PrePublish? ==> PublishedSince(w.zone, w.zone.rollover.value.started)
    ensures Inv(WithZone(w, StampZSKPhase(w.zone, floor, horizon)))
    ensures StampZSKPhase(w.zone, floor, horizon).rollover.value.phaseFirstSigned != 0
  {
    SameReachHolds(w, WithZone(w, StampZSKPhase(w.zone, floor, horizon)));
  }

  lemma ZSKSwitchKeepsInv(cfg: Config, w: World, r: Rollover, at: Time, z': Zone)
    requires Inv(w) && w.zone.rollover == Some(r) && r.kind.ZSKRoll? && r.phase.PrePublish?
    requires w.zone.lastSigned <= at <= w.now && at > 0
    requires r.phaseFirstSigned != 0 && at >= r.phaseHorizon
    requires z' == w.zone.(rollover := Some(r.(phase := Signing, phaseStarted := at, phaseFirstSigned := 0,
        phaseHorizon := 0)),
                           zsk := Some(r.newKey), zskExpires := r.started + cfg.zskLifetime, forceResign := true)
    ensures Inv(WithZone(w, z'))
  {
    SameReachHolds(w, WithZone(w, z'));
    assert forall h :: HeldData(w, h) ==> h.signedAt <= at;
  }

  lemma ZSKEndKeepsInv(w: World, r: Rollover)
    requires Inv(w) && w.zone.rollover == Some(r) && r.kind.ZSKRoll? && r.phase.Signing?
    requires r.phaseFirstSigned != 0 && w.now >= r.phaseHorizon
    ensures Inv(WithZone(w, w.zone.(rollover := None, forceResign := true)))
  {
    SameReachHolds(w, WithZone(w, w.zone.(rollover := None, forceResign := true)));
  }

  /** The switch or the end, once the phase's horizon is stamped. */
  lemma ZSKAdvanceKeepsInv(cfg: Config, w: World, at: Time, z': Zone)
    requires Inv(w) && InKind(w.zone, ZSKRoll) && w.zone.lastSigned <= at <= w.now && at > 0
    requires w.zone.rollover.value.phaseFirstSigned != 0 && at >= w.zone.rollover.value.phaseHorizon
    requires var r := w.zone.rollover.value;
      z' == if r.phase.PrePublish?
            then w.zone.(rollover := Some(r.(phase := Signing, phaseStarted := at, phaseFirstSigned := 0,
                phaseHorizon := 0)),
                         zsk := Some(r.newKey), zskExpires := r.started + cfg.zskLifetime, forceResign := true)
            else w.zone.(rollover := None, forceResign := true)
    ensures Inv(WithZone(w, z'))
  {
    var r := w.zone.rollover.value;
    if r.phase.PrePublish? { ZSKSwitchKeepsInv(cfg, w, r, at, z'); } else { ZSKEndKeepsInv(w, r); }
  }

  lemma CheckZSKKeepsInv(cfg: Config, w: World, s: Step)
    requires Inv(w) && s.CheckZSKStep? && Enabled(cfg, w, s)
    ensures Inv(Apply(cfg, w, s))
  {
    hide Accounts, DSAccounts, PhaseInv;
    var z := w.zone;
    var r := z.rollover.value;
    var z' := HandleZSK(cfg, z, s.readAt, s.liveKeyOK, s.saves);
    if z' == z {
      assert Apply(cfg, w, s) == w;
    } else {
      var floor := if r.phase.PrePublish? then DnskeyTTLFloor(cfg, z) else ZskRetireFloor(cfg, z);
      var horizon := if r.phase.PrePublish? then z.dnskeyHorizon else Later(z.dnskeyHorizon, z.rrsigHorizon);
      ZSKStampKeepsInv(w, floor, horizon);
      var w1 := WithZone(w, StampZSKPhase(z, floor, horizon));
      if z' != w1.zone { ZSKAdvanceKeepsInv(cfg, w1, s.readAt, z'); }
      assert Apply(cfg, w, s) == WithZone(w1, z');
    }
  }

  lemma DSAddedKeepsInv(cfg: Config, w: World, at: Time, reply: Reply)
    requires Inv(w) && at <= w.now && InKind(w.zone, AlgorithmRoll)
    ensures Inv(WithZone(w, AlgorithmDSAdd(cfg, w.zone, at, reply)))
  {
    SameReachHolds(w, WithZone(w, AlgorithmDSAdd(cfg, w.zone, at, reply)));
  }

  lemma AlgorithmWaitedKeepsInv(w: World, r: Rollover, at: Time)
    requires Inv(w) && at <= w.now && w.zone.rollover == Some(r) && r.kind.AlgorithmRoll? && r.phase.DSPropagation?
    ensures Inv(WithZone(w, w.zone.(rollover := Some(r.(phase := OldDSRemoval, phaseStarted := at)))))
  {
    SameReachHolds(w, WithZone(w, w.zone.(rollover := Some(r.(phase := OldDSRemoval, phaseStarted := at)))));
  }

  lemma OldDSGoneKeepsInv(w: World, r: Rollover, ttlSeen: nat, at: Time)
    requires Inv(w) && w.zone.rollover == Some(r) && r.kind.AlgorithmRoll? && r.phase.OldDSRemoval? &&
        r.oldDSRemovedAt == 0
    requires r.oldKey !in w.parent
    requires 0 < at && RemovalCovers(w.soleSince, w.dsTTL, at, OldDSGone(r, ttlSeen, at).parentDSTTL)
    ensures Inv(WithZone(w, w.zone.(rollover := Some(OldDSGone(r, ttlSeen, at)))))
  {
    SameReachHolds(w, WithZone(w, w.zone.(rollover := Some(OldDSGone(r, ttlSeen, at)))));
  }

  lemma AlgorithmRetireKeepsInv(w: World, r: Rollover, at: Time)
    requires Inv(w) && at <= w.now && w.zone.rollover == Some(r) && r.kind.AlgorithmRoll? && r.phase.OldDSRemoval? &&
        r.oldDSRemovedAt != 0
    requires at >= r.oldDSRemovedAt + EffectiveParentDSTTL(r.parentDSTTL)
    ensures Inv(WithZone(w, w.zone.(rollover := Some(r.(phase := Retiring, phaseStarted := at)), forceResign := true)))
  {
    SameReachHolds(w, WithZone(w, w.zone.(rollover := Some(r.(phase := Retiring, phaseStarted := at)), forceResign :=
        true)));
    assert HeldDS(w, w.parent);
  }

  lemma AlgorithmEndKeepsInv(w: World, r: Rollover)
    requires Inv(w) && w.zone.rollover == Some(r) && r.kind.AlgorithmRoll? && r.phase.Retiring?
    ensures Inv(WithZone(w, w.zone.(rollover := None)))
  {
    SameReachHolds(w, WithZone(w, w.zone.(rollover := None)));
    PropagatedMeansHeld(w);
  }

  /** The phase change of an algorithm check, before the registrar and the probe answer. */
  lemma AlgorithmPhaseKeepsInv(cfg: Config, w: World, readAt: Time, pushAt: Time, saves: Saves)
    requires Inv(w) && readAt <= w.now && pushAt <= w.now && InKind(w.zone, AlgorithmRoll) && !NeedsStamp(w.zone)
    ensures Inv(WithZone(w, CheckAlgorithm(cfg, w.zone, readAt, pushAt, Failed, NoProbe, saves)))
  {
    var z' := CheckAlgorithm(cfg, w.zone, readAt, pushAt, Failed, NoProbe, saves);
    var r := w.zone.rollover.value;
    if z' == w.zone {
      assert WithZone(w, z') == w;
    } else if r.phase.DSPropagation? {
      AlgorithmWaitedKeepsInv(w, r, readAt);
    } else if r.phase.OldDSRemoval? {
      AlgorithmRetireKeepsInv(w, r, readAt);
    } else {
      AlgorithmEndKeepsInv(w, r);
    }
  }

  /** What the registrar and the probe add to an algorithm check. */
  lemma AlgorithmReplyKeepsInv(cfg: Config, w: World, readAt: Time, pushAt: Time, reply: Reply, probe: Probe,
      pushSaved: bool)
    requires Inv(w) && InKind(w.zone, AlgorithmRoll) && w.zone.rollover.value.phase.OldDSRemoval?
    requires w.zone.rollover.value.oldDSRemovedAt == 0
    requires probe.Observed? && probe.absent ==>
            && w.zone.rollover.value.oldKey !in w.parent
            && 0 < readAt
            && RemovalCovers(w.soleSince, w.dsTTL, readAt, OldDSGone(w.zone.rollover.value, probe.ttl,
                readAt).parentDSTTL)
    requires readAt <= w.now && pushAt <= w.now
    ensures var z2 := PushOldDSRemoval(cfg, w.zone, pushAt, reply).1;
            Inv(WithZone(w, if (PushRecorded(cfg, w.zone, pushAt, reply) && !pushSaved) || !probe.Observed? ||
                !probe.absent then z2
                            else z2.(rollover := Some(OldDSGone(z2.rollover.value, probe.ttl, readAt)))))
  {
    hide Accounts, DSAccounts, PhaseInv;
    var z2 := PushOldDSRemoval(cfg, w.zone, pushAt, reply).1;
    PushKeepsInv(cfg, w, pushAt, reply);
    if probe.Observed? && probe.absent {
      OldDSGoneKeepsInv(WithZone(w, z2), z2.rollover.value, probe.ttl, readAt);
    }
  }

  lemma CheckAlgorithmTail(cfg: Config, w: World, w2: World, s: Step)
    requires s.CheckAlgorithmStep? && HasKeys(w) && Enabled(cfg, w, s) && !NeedsStamp(w.zone)
    requires Inv(w2) && w2 == MoveDS(WithZone(w, CheckAlgorithm(cfg, w.zone, s.readAt, s.pushAt, Failed, NoProbe,
        s.saves)), s.ds)
    ensures Inv(WithZone(w2, CheckAlgorithm(cfg, w.zone, s.readAt, s.pushAt, s.reply, s.probe, s.saves)))
  {
    hide Accounts, DSAccounts, PhaseInv;
    var r := w.zone.rollover.value;
    var z' := CheckAlgorithm(cfg, w.zone, s.readAt, s.pushAt, s.reply, s.probe, s.saves);
    if z' == w2.zone {
      assert WithZone(w2, z') == w2;
    } else if r.phase.DSAddWait? {
      DSAddedKeepsInv(cfg, w2, s.readAt, s.reply);
    } else if r.phase.DSPropagation? {
      PushKeepsInv(cfg, w2, s.pushAt, s.reply);
    } else {
      AlgorithmReplyKeepsInv(cfg, w2, s.readAt, s.pushAt, s.reply, s.probe, s.saves.push);
    }
  }

  /** A check on an already stamped record does the rest of the same check. */
  lemma CheckAfterStamp(cfg: Config, z: Zone, now: Time, pushAt: Time, reply: Reply, probe: Probe, saves: Saves)
    requires InKind(z, AlgorithmRoll) && !(NeedsStamp(z) && !saves.stamp)
    ensures !NeedsStamp(StampNewKeyPropagation(cfg, z)) ==>
      CheckAlgorithm(cfg, StampNewKeyPropagation(cfg, z), now, pushAt, reply, probe, saves) == CheckAlgorithm(cfg, z,
          now, pushAt, reply, probe, saves)
  {
  }

  lemma CheckKeepsKeys(cfg: Config, z: Zone, now: Time, pushAt: Time, reply: Reply, probe: Probe, saves: Saves)
    ensures CheckAlgorithm(cfg, z, now, pushAt, reply, probe, saves).ksk == z.ksk
    ensures CheckAlgorithm(cfg, z, now, pushAt, reply, probe, saves).zsk == z.zsk
  {
    hide NewKeysPropagated, EffectiveParentDSTTL, PublishedSince, StampNewKeyPropagation, NeedsStamp, PushOldDSRemoval,
        PushRecorded, AddAttempted;
    var z1 := StampNewKeyPropagation(cfg, z);
    StampKeepsKeys(cfg, z);
    if z1.rollover.Some? {
      PushKeepsKeys(cfg, z1, pushAt, reply);
      PushKeepsKeys(cfg, z1.(rollover := Some(z1.rollover.value.(phase := OldDSRemoval, phaseStarted := now))), pushAt,
          reply);
    }
  }

  lemma StampKeepsKeys(cfg: Config, z: Zone)
    ensures var z1 := StampNewKeyPropagation(cfg, z);
      z1.ksk == z.ksk && z1.zsk == z.zsk && (z1.rollover.Some? <==> z.rollover.Some?)
  {
  }

  lemma PushKeepsKeys(cfg: Config, z: Zone, now: Time, reply: Reply)
    requires z.rollover.Some?
    ensures var z1 := PushOldDSRemoval(cfg, z, now, reply).1; z1.ksk == z.ksk && z1.zsk == z.zsk && z1.rollover.Some?
  {
  }

  lemma StampedOnce(cfg: Config, w: World)
    requires Accounts(w)
    ensures !NeedsStamp(StampNewKeyPropagation(cfg, w.zone))
  {
  }

  lemma CheckAlgorithmKeepsInv(cfg: Config, w: World, s: Step)
    requires Inv(w) && s.CheckAlgorithmStep? && Enabled(cfg, w, s)
    ensures Inv(Apply(cfg, w, s))
  {
    hide Accounts, DSAccounts, PhaseInv, CheckAlgorithm, DSAllowed;
    var z1 := StampNewKeyPropagation(cfg, w.zone);
    var w1 := WithZone(w, z1);
    StampKeepsInv(cfg, w);
    StampedOnce(cfg, w);
    if NeedsStamp(w.zone) && !s.saves.stamp {
      assert CheckAlgorithm(cfg, w.zone, s.readAt, s.pushAt, Failed, NoProbe, s.saves) == z1 == Apply(cfg, w,
          s).zone by {
        CheckUnsaved(cfg, w.zone, s.readAt, s.pushAt, s.reply, s.probe, s.saves);
        CheckUnsaved(cfg, w.zone, s.readAt, s.pushAt, Failed, NoProbe, s.saves);
      }
      DSMoveKeepsInv(w1, s.ds);
      assert Apply(cfg, w, s) == MoveDS(w1, s.ds);
    } else {
      CheckKeepsKeys(cfg, z1, s.readAt, s.pushAt, Failed, NoProbe, s.saves);
      CheckAfterStamp(cfg, w.zone, s.readAt, s.pushAt, Failed, NoProbe, s.saves);
      CheckAfterStamp(cfg, w.zone, s.readAt, s.pushAt, s.reply, s.probe, s.saves);
      var w2 := MoveDS(WithZone(w1, CheckAlgorithm(cfg, z1, s.readAt, s.pushAt, Failed, NoProbe, s.saves)), s.ds);
      assert Inv(w2) by {
        AlgorithmPhaseKeepsInv(cfg, w1, s.readAt, s.pushAt, s.saves);
        DSMoveKeepsInv(WithZone(w1, CheckAlgorithm(cfg, z1, s.readAt, s.pushAt, Failed, NoProbe, s.saves)), s.ds);
      }
      CheckAlgorithmTail(cfg, w1, w2, s);
      assert Apply(cfg, w, s) == WithZone(w2, CheckAlgorithm(cfg, z1, s.readAt, s.pushAt, s.reply, s.probe, s.saves));
    }
  }

  lemma CheckUnsaved(cfg: Config, z: Zone, now: Time, pushAt: Time, reply: Reply, probe: Probe, saves: Saves)
    requires InKind(z, AlgorithmRoll) && NeedsStamp(z) && !saves.stamp
    ensures CheckAlgorithm(cfg, z, now, pushAt, reply, probe, saves) == StampNewKeyPropagation(cfg, z)
  {
  }

  // ---------------------------------------------------------------- runs

  lemma StepKeepsInv(cfg: Config, w: World, s: Step)
    requires Inv(w) && Enabled(cfg, w, s)
    ensures Inv(Apply(cfg, w, s))
  {
    hide Accounts, DSAccounts, PhaseInv;
    match s
    case Sign(_, _, _) => SignKeepsInv(cfg, w, s);
    case ChangeDS(ds) => DSMoveKeepsInv(w, ds);
    case StartKSKStep(k) => StartKSKKeepsInv(w, k);
    case StartZSKStep(k) => StartZSKKeepsInv(w, k);
    case StartAlgorithmStep(k, zk) => StartAlgorithmKeepsInv(w, k, zk);
    case CompleteStep(_, _, _, _) => CompleteKeepsInv(cfg, w, s);
    case CheckKSKStep(_, _, _, _, _) => CheckKSKKeepsInv(cfg, w, s);
    case CheckZSKStep(_, _, _) => CheckZSKKeepsInv(cfg, w, s);
    case CheckAlgorithmStep(_, _, _, _, _, _) => CheckAlgorithmKeepsInv(cfg, w, s);
    case _ => if IsFetch(s) { FetchSteps(cfg, w, s); } else { QuietSteps(cfg, w, s); }
  }

  lemma InitHasInv(w: World)
    requires Init(w)
    ensures Inv(w)
  {
  }

  lemma {:induction false} RunKeepsInv(run: seq<World>)
    requires IsRun(run)
    ensures forall i :: 0 <= i < |run| ==> Inv(run[i])
    decreases |run|
  {
    hide Inv, Init, Enabled;
    var n := |run| - 1;
    if n == 0 {
      InitHasInv(run[0]);
    } else {
      assert IsRun(run[..n]);
      RunKeepsInv(run[..n]);
      assert Inv(run[..n][n - 1]);
      assert Reconfigured(run[n - 1], run[n]);
      var cfg :| Next(cfg, run[n - 1], run[n]);
      var s :| Enabled(cfg, run[n - 1], s) && run[n] == Apply(cfg, run[n - 1], s);
      StepKeepsInv(cfg, run[n - 1], s);
      forall i | 0 <= i < |run| ensures Inv(run[i]) {
        if i < n { assert run[..n][i] == run[i]; }
      }
    }
  }

  /** Chain of trust over whole runs: KSK, ZSK and algorithm rollovers in any order and number. */
  lemma RunsAreSafe(run: seq<World>)
    requires IsRun(run)
    ensures forall i :: 0 <= i < |run| ==> Safe(run[i])
  {
    hide Inv, Safe;
    RunKeepsInv(run);
    forall i | 0 <= i < |run| ensures Safe(run[i]) { InvIsSafe(run[i]); }
  }
}
