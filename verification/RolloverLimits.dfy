/** Exact conditions for the moves the environment's rules speak of. */
module RolloverLimits {
  import opened Common
  import opened ZoneTypes
  import opened RolloverRules
  import opened RolloverRuns
  import opened RolloverSafety

  // ---------------------------------------------------------------- the registrar's phase set

  /** The phase set is what the gates allow, except in an algorithm rollover whose new keys have not propagated. */
  lemma PhaseSetIsAllowed(w: World)
    requires Inv(w)
    ensures DSAllowed(w.zone, w.parent, w.now, BuildDSSet(w.zone, w.now))
       <==> !(InKind(w.zone, AlgorithmRoll) && !NewKeysPropagated(w.zone, w.now))
  {
    assert HeldDS(w, w.parent);
  }

  /** So a push of the phase set in any other reachable situation keeps the zone safe. */
  lemma PhaseSetIsSafe(w: World)
    requires Inv(w)
    requires !(InKind(w.zone, AlgorithmRoll) && !NewKeysPropagated(w.zone, w.now))
    ensures Safe(MoveDS(w, BuildDSSet(w.zone, w.now)))
  {
    hide Accounts, DSAccounts, PhaseInv;
    PhaseSetIsAllowed(w);
    DSMoveKeepsInv(w, BuildDSSet(w.zone, w.now));
    InvIsSafe(MoveDS(w, BuildDSSet(w.zone, w.now)));
  }

  // ---------------------------------------------------------------- removing the old algorithm's DS

  /**
   * Once the new algorithm has propagated and before the old one retires, a DS set drawn from the parent's
   * and the rollover's keys is safe exactly when it is the new DS alone or still names the old KSK: another
   * DS of the old algorithm, left over from an earlier rollover, must go with the old one.
   */
  lemma AlgorithmDSCondition(w: World, ds: set<Key>)
    requires Inv(w) && InKind(w.zone, AlgorithmRoll) && !w.zone.rollover.value.phase.Retiring?
    requires NewKeysPropagated(w.zone, w.now)
    requires ds <= w.parent + {w.zone.rollover.value.oldKey, w.zone.rollover.value.newKey}
    ensures var r := w.zone.rollover.value; Safe(MoveDS(w, ds)) <==> ds == {r.newKey} || r.oldKey in ds
  {
    var r := w.zone.rollover.value;
    var w' := MoveDS(w, ds);
    DSMoveHolds(w, ds);
    if ds == {r.newKey} || r.oldKey in ds { AlgorithmDSSafe(w, ds); }
    if Safe(w') { AlgorithmDSNeeded(w, ds); }
  }

  lemma AlgorithmDSSafe(w: World, ds: set<Key>)
    requires Inv(w) && InKind(w.zone, AlgorithmRoll) && !w.zone.rollover.value.phase.Retiring?
    requires NewKeysPropagated(w.zone, w.now)
    requires ds <= w.parent + {w.zone.rollover.value.oldKey, w.zone.rollover.value.newKey}
    requires ds == {w.zone.rollover.value.newKey} || w.zone.rollover.value.oldKey in ds
    ensures Safe(MoveDS(w, ds))
  {
    hide Accounts, DSAccounts, Chain;
    DSMoveHolds(w, ds);
    InvIsSafe(w);
    PropagatedMeansHeld(w);
    forall g, h | HeldKeys(w, g) && HeldData(w, h) ensures Chain(ds, g, h) {
      BothAlgorithmsChain(w.zone.rollover.value, ds, g, h);
    }
  }

  /** Keys and data carrying both algorithms serve any DS set that names one of the two KSKs per algorithm. */
  lemma BothAlgorithmsChain(r: Rollover, ds: set<Key>, g: Generation, h: Generation)
    requires ds == {r.newKey} || r.oldKey in ds
    requires forall x: Key :: x in ds ==> x == r.newKey || x.alg == r.oldKey.alg
    requires r.oldKey in g.ksks && r.newKey in g.ksks && r.oldZSK in g.zsks && r.newZSK in g.zsks
    requires r.oldZSK in h.signers && r.newZSK in h.signers
    requires r.newKey.alg == r.newZSK.alg && r.oldKey.alg == r.oldZSK.alg
    ensures Chain(ds, g, h)
  {
  }

  lemma AlgorithmDSNeeded(w: World, ds: set<Key>)
    requires Inv(w) && InKind(w.zone, AlgorithmRoll)
    requires NewKeysPropagated(w.zone, w.now)
    requires ds <= w.parent + {w.zone.rollover.value.oldKey, w.zone.rollover.value.newKey}
    requires Safe(MoveDS(w, ds))
    ensures var r := w.zone.rollover.value; ds == {r.newKey} || r.oldKey in ds
  {
    ServedInAlgorithmRollover(w);
    hide Inv, NewKeysPropagated, Chain;
    var g := w.served.value;
    assert HeldDS(MoveDS(w, ds), ds) && HeldKeys(MoveDS(w, ds), g) && HeldData(MoveDS(w, ds), g);
    assert Chain(ds, g, g);
    ChainNeedsOld(w.zone.rollover.value, ds, g);
  }

  /** What is served once the new algorithm has propagated was signed in this rollover. */
  lemma ServedInAlgorithmRollover(w: World)
    requires Inv(w) && InKind(w.zone, AlgorithmRoll) && NewKeysPropagated(w.zone, w.now)
    ensures var r := w.zone.rollover.value;
      && w.served.Some? && w.served.value.ksks <= {r.oldKey, r.newKey}
      && (forall x: Key :: x in w.parent ==> x == r.newKey || x.alg == r.oldKey.alg)
      && r.oldKey.alg != r.newKey.alg
  {
    assert HeldKeys(w, w.served.value) && HeldDS(w, w.parent);
  }

  lemma ChainNeedsOld(r: Rollover, ds: set<Key>, g: Generation)
    requires Chain(ds, g, g) && g.ksks <= {r.oldKey, r.newKey} && r.oldKey.alg != r.newKey.alg
    requires forall x: Key :: x in ds ==> x == r.newKey || x.alg == r.oldKey.alg
    ensures ds == {r.newKey} || r.oldKey in ds
  {
    assert ds != {};
    hide Chain;
    if r.oldKey !in ds {
      forall x | x in ds ensures x == r.newKey { var k := Signer(ds, g, g, x); }
    }
  }

  lemma Signer(ds: set<Key>, g: Generation, h: Generation, a: Key) returns (k: Key)
    requires Chain(ds, g, h) && a in ds
    ensures k in ds && k in g.ksks && k.alg == a.alg
  {
    k :| k in ds && k in g.ksks && k.alg == a.alg;
  }

  // ---------------------------------------------------------------- retiring the old KSK

  /**
   * The record and the generation of a retirement: the phase changes and the zone is signed with the new keys alone.
   */
  ghost function Retired(w: World, dnskeyTTL: nat, maxRRSIGTTL: nat): World
    requires HasKeys(w) && w.zone.rollover.Some?
  {
    var z := w.zone.(rollover := Some(w.zone.rollover.value.(phase := Retiring, phaseStarted := w.now)), forceResign :=
        true);
    var g := SignedGeneration(z, w.now, dnskeyTTL, maxRRSIGTTL);
    w.(zone := RecordSigned(z, w.now, dnskeyTTL, maxRRSIGTTL, true), current := Some(g), served := Some(g), deploying :=
        false)
  }

  /** Retiring the old KSK is safe exactly when every DS set in reach names the new one. */
  lemma KSKRetirementCondition(w: World, dnskeyTTL: nat, maxRRSIGTTL: nat)
    requires Inv(w) && InKind(w.zone, KSKRoll) && !w.zone.rollover.value.phase.Retiring?
    ensures Safe(Retired(w, dnskeyTTL, maxRRSIGTTL))
       <==> forall d: set<Key> :: HeldDS(w, d) ==> w.zone.rollover.value.newKey in d
  {
    var r := w.zone.rollover.value;
    var w' := Retired(w, dnskeyTTL, maxRRSIGTTL);
    var g := w'.served.value;
    RetiredHolds(w, dnskeyTTL, maxRRSIGTTL);
    assert g.ksks == {r.newKey};
    if Safe(w') {
      forall d: set<Key> | HeldDS(w, d) ensures r.newKey in d {
        assert HeldDS(w', d) && HeldKeys(w', g) && HeldData(w', g);
        assert Chain(d, g, g);
        var a :| a in d;
        var k := Signer(d, g, g, a);
      }
    }
    if forall d: set<Key> :: HeldDS(w, d) ==> r.newKey in d { KSKRetirementSafe(w, dnskeyTTL, maxRRSIGTTL); }
  }

  lemma RetiredHolds(w: World, dnskeyTTL: nat, maxRRSIGTTL: nat)
    requires HasKeys(w) && w.zone.rollover.Some?
    ensures var w' := Retired(w, dnskeyTTL, maxRRSIGTTL);
      && (forall x :: HeldKeys(w', x) ==> HeldKeys(w, x) || w'.current == Some(x))
      && (forall x :: HeldData(w', x) ==> HeldData(w, x) || w'.current == Some(x))
      && (forall d: set<Key> :: HeldDS(w', d) <==> HeldDS(w, d))
  {
  }

  lemma KSKRetirementSafe(w: World, dnskeyTTL: nat, maxRRSIGTTL: nat)
    requires Inv(w) && InKind(w.zone, KSKRoll) && !w.zone.rollover.value.phase.Retiring?
    requires forall d: set<Key> :: HeldDS(w, d) ==> w.zone.rollover.value.newKey in d
    ensures Safe(Retired(w, dnskeyTTL, maxRRSIGTTL))
  {
    hide Accounts, DSAccounts, HorizonsBound;
    var r := w.zone.rollover.value;
    var w' := Retired(w, dnskeyTTL, maxRRSIGTTL);
    RetiredHolds(w, dnskeyTTL, maxRRSIGTTL);
    if NewKeysPropagated(w.zone, w.now) { PropagatedMeansHeld(w); }
    forall d: set<Key>, g, h | HeldDS(w', d) && HeldKeys(w', g) && HeldData(w', h) ensures Chain(d, g, h) {
      assert r.newKey in d && (forall x: Key :: x in d ==> x.alg == r.newKey.alg);
      assert w.zone.zsk.value in g.zsks && w.zone.zsk.value in h.signers;
      if w'.current != Some(g) { assert HeldKeys(w, g) && r.oldKey in g.ksks; }
    }
  }

  /**
   * A recorded wait that covers the DS sets fetched before the new DS appeared is long enough, whatever else happened.
   */
  lemma WaitIsLongEnough(w: World, observedAt: Time, ttl: nat, d: set<Key>)
    requires Inv(w) && WaitCovers(w, observedAt, ttl) && w.now >= observedAt + EffectiveParentDSTTL(ttl) && HeldDS(w, d)
    ensures w.zone.ksk.value in d
  {
  }

  /** Retiring the old algorithm is safe exactly when every DS set in reach is the new DS alone. */
  lemma AlgorithmRetirementCondition(w: World, dnskeyTTL: nat, maxRRSIGTTL: nat)
    requires Inv(w) && InKind(w.zone, AlgorithmRoll) && w.zone.rollover.value.phase.OldDSRemoval?
    requires NewKeysPropagated(w.zone, w.now)
    ensures Safe(Retired(w, dnskeyTTL, maxRRSIGTTL))
       <==> forall d: set<Key> :: HeldDS(w, d) ==> d == {w.zone.rollover.value.newKey}
  {
    var r := w.zone.rollover.value;
    var w' := Retired(w, dnskeyTTL, maxRRSIGTTL);
    var g := w'.served.value;
    RetiredHolds(w, dnskeyTTL, maxRRSIGTTL);
    PropagatedMeansHeld(w);
    assert g.ksks == {r.newKey};
    if Safe(w') {
      forall d: set<Key> | HeldDS(w, d) ensures d == {r.newKey} {
        assert HeldDS(w', d) && HeldKeys(w', g) && HeldData(w', g);
        assert Chain(d, g, g);
        assert d != {};
        forall a | a in d ensures a == r.newKey { var k := Signer(d, g, g, a); }
      }
    }
  }

  // ---------------------------------------------------------------- ending a KSK rollover

  /**
   * Whatever ends a KSK rollover, every DS set the operator may then choose is safe exactly when every DNSKEY
   * RRset in reach carries the new KSK; a propagated rollover has that.
   */
  lemma KSKEndCondition(w: World)
    requires Inv(w) && InKind(w.zone, KSKRoll) && w.zone.rollover.value.phase.Retiring?
    requires PublishedSince(w.zone, w.zone.rollover.value.started)
    ensures var r := w.zone.rollover.value; var ended := WithZone(w, w.zone.(rollover := None));
      && ((forall ds: set<Key> :: DSAllowed(ended.zone, ended.parent, ended.now, ds) ==> Safe(MoveDS(ended, ds)))
          <==> forall g :: HeldKeys(w, g) ==> r.newKey in g.ksks)
      && (NewKeysPropagated(w.zone, w.now) ==> forall g :: HeldKeys(w, g) ==> r.newKey in g.ksks)
  {
    var r := w.zone.rollover.value;
    var ended := WithZone(w, w.zone.(rollover := None));
    if NewKeysPropagated(w.zone, w.now) { PropagatedMeansHeld(w); }
    if forall g :: HeldKeys(w, g) ==> r.newKey in g.ksks {
      forall ds: set<Key> | DSAllowed(ended.zone, ended.parent, ended.now, ds) ensures Safe(MoveDS(ended, ds)) {
        KSKEndSafe(w, ds); }
    }
    assert ended.zone.ksk.value == r.newKey && w.served.Some?;
    hide Inv, NewKeysPropagated, Safe;
    if forall ds: set<Key> :: DSAllowed(ended.zone, ended.parent, ended.now, ds) ==> Safe(MoveDS(ended, ds)) {
      assert DSAllowed(ended.zone, ended.parent, ended.now, {r.newKey});
      NewOnlyNeedsNew(ended, r.newKey);
      SameReachHolds(w, ended);
    }
  }

  lemma NewOnlyNeedsNew(w: World, k: Key)
    requires HasKeys(w) && w.served.Some? && Safe(MoveDS(w, {k}))
    ensures forall g :: HeldKeys(w, g) ==> k in g.ksks
  {
    var moved := MoveDS(w, {k});
    var h := w.served.value;
    forall g | HeldKeys(w, g) ensures k in g.ksks {
      assert HeldDS(moved, {k}) && HeldKeys(moved, g) && HeldData(moved, h);
      assert Chain({k}, g, h);
      assert k in {k};
    }
  }

  lemma KSKEndSafe(w: World, ds: set<Key>)
    requires Inv(w) && InKind(w.zone, KSKRoll) && w.zone.rollover.value.phase.Retiring?
    requires w.zone.ksk.value in ds && ds <= w.parent + {w.zone.ksk.value}
    requires forall g :: HeldKeys(w, g) ==> w.zone.rollover.value.newKey in g.ksks
    ensures Safe(MoveDS(WithZone(w, w.zone.(rollover := None)), ds))
  {
    hide Accounts, DSAccounts, HorizonsBound, KSKHorizon;
    var ended := WithZone(w, w.zone.(rollover := None));
    SameReachHolds(w, ended);
    DSMoveHolds(ended, ds);
    var r, s := w.zone.rollover.value, w.zone.zsk.value;
    var moved := MoveDS(ended, ds);
    forall d: set<Key>, g, h | HeldDS(moved, d) && HeldKeys(moved, g) && HeldData(moved, h) ensures Chain(d, g, h) {
      assert r.newKey in d && (forall x: Key :: x in d ==> x.alg == r.newKey.alg);
      assert r.newKey in g.ksks && s in g.zsks && s in h.signers;
    }
  }

  // ---------------------------------------------------------------- superseding a generation before its confirmation

  /** A generation some server already serves is signed over, and the new one is confirmed. */
  ghost function Superseded(w: World, dnskeyTTL: nat, maxRRSIGTTL: nat): World
    requires HasKeys(w)
  {
    var g := SignedGeneration(w.zone, w.now, dnskeyTTL, maxRRSIGTTL);
    var z := ConfirmPublication(RecordSigned(w.zone, w.now, dnskeyTTL, maxRRSIGTTL, false), w.now, w.now);
    w.(zone := z, current := Some(g), served := Some(g), deploying := false)
  }

  ghost predicate KeysBound(w: World) {
    forall c :: c in w.keyCaches ==> Servable(w, c.gen) || c.expiry <= w.zone.dnskeyHorizon }

  ghost predicate DataBound(w: World) {
    forall c :: c in w.dataCaches ==> Servable(w, c.gen) || c.expiry <= w.zone.rrsigHorizon }

  /**
   * Whatever resolvers fetched of the superseded DNSKEY RRset, the horizon bounds it exactly when its TTL reaches
   * no further than the recorded horizon and the TTL confirmed before it.
   */
  lemma SupersededKeysCondition(w: World, dnskeyTTL: nat, maxRRSIGTTL: nat)
    requires Inv(w) && w.deploying && w.current.value != SignedGeneration(w.zone, w.now, dnskeyTTL, maxRRSIGTTL)
    ensures var g := w.current.value;
      (forall e: Time :: e <= w.now + Seconds(g.dnskeyTTL) ==>
         KeysBound(Superseded(w.(keyCaches := w.keyCaches + {CachedZone(g, e)}), dnskeyTTL, maxRRSIGTTL)))
      <==> w.now + Seconds(g.dnskeyTTL) <= Superseded(w, dnskeyTTL, maxRRSIGTTL).zone.dnskeyHorizon
  {
    hide DSAccounts, PhaseInv;
    var g := w.current.value;
    var e := w.now + Seconds(g.dnskeyTTL);
    assert CachedZone(g, e) in w.keyCaches + {CachedZone(g, e)};
    if KeysBound(Superseded(w.(keyCaches := w.keyCaches + {CachedZone(g, e)}), dnskeyTTL, maxRRSIGTTL)) {
      assert e <= Superseded(w, dnskeyTTL, maxRRSIGTTL).zone.dnskeyHorizon;
    }
  }

  /** The same for the signatures of the superseded generation. */
  lemma SupersededDataCondition(w: World, dnskeyTTL: nat, maxRRSIGTTL: nat)
    requires Inv(w) && w.deploying && w.current.value != SignedGeneration(w.zone, w.now, dnskeyTTL, maxRRSIGTTL)
    ensures var g := w.current.value;
      (forall e: Time :: e <= w.now + Seconds(g.maxRRSIGTTL) ==>
         DataBound(Superseded(w.(dataCaches := w.dataCaches + {CachedZone(g, e)}), dnskeyTTL, maxRRSIGTTL)))
      <==> w.now + Seconds(g.maxRRSIGTTL) <= Superseded(w, dnskeyTTL, maxRRSIGTTL).zone.rrsigHorizon
  {
    hide DSAccounts, PhaseInv;
    var g := w.current.value;
    var e := w.now + Seconds(g.maxRRSIGTTL);
    assert CachedZone(g, e) in w.dataCaches + {CachedZone(g, e)};
    if DataBound(Superseded(w.(dataCaches := w.dataCaches + {CachedZone(g, e)}), dnskeyTTL, maxRRSIGTTL)) {
      assert e <= Superseded(w, dnskeyTTL, maxRRSIGTTL).zone.rrsigHorizon;
    }
  }

  // ---------------------------------------------------------------- the instant of a confirmation

  /** The confirmation of the deployed generation, recorded at an instant read before all servers had switched. */
  ghost function ConfirmedAt(w: World, readAt: Time): World
    requires HasKeys(w)
  {
    w.(zone := ConfirmPublication(w.zone, w.zone.lastSigned, readAt), served := w.current, deploying := false)
  }

  /**
   * Whatever resolvers fetched of the DNSKEY RRset served until now, the horizon bounds it exactly when the recorded
   * instant plus the TTL confirmed before, or an earlier horizon, reaches as far as the last fetch.
   */
  lemma ConfirmationKeysCondition(w: World, readAt: Time)
    requires Inv(w) && w.current.Some? && w.served.Some? && w.served != w.current
    ensures var g := w.served.value;
      (forall e: Time :: e <= w.now + Seconds(g.dnskeyTTL) ==>
         KeysBound(ConfirmedAt(w.(keyCaches := w.keyCaches + {CachedZone(g, e)}), readAt)))
      <==> w.now + Seconds(g.dnskeyTTL) <= ConfirmedAt(w, readAt).zone.dnskeyHorizon
  {
    hide DSAccounts, PhaseInv;
    var g := w.served.value;
    var e := w.now + Seconds(g.dnskeyTTL);
    assert CachedZone(g, e) in w.keyCaches + {CachedZone(g, e)};
    if KeysBound(ConfirmedAt(w.(keyCaches := w.keyCaches + {CachedZone(g, e)}), readAt)) {
      assert e <= ConfirmedAt(w, readAt).zone.dnskeyHorizon;
    }
  }

  /** The same for the signatures. */
  lemma ConfirmationDataCondition(w: World, readAt: Time)
    requires Inv(w) && w.current.Some? && w.served.Some? && w.served != w.current
    ensures var g := w.served.value;
      (forall e: Time :: e <= w.now + Seconds(g.maxRRSIGTTL) ==>
         DataBound(ConfirmedAt(w.(dataCaches := w.dataCaches + {CachedZone(g, e)}), readAt)))
      <==> w.now + Seconds(g.maxRRSIGTTL) <= ConfirmedAt(w, readAt).zone.rrsigHorizon
  {
    hide DSAccounts, PhaseInv;
    var g := w.served.value;
    var e := w.now + Seconds(g.maxRRSIGTTL);
    assert CachedZone(g, e) in w.dataCaches + {CachedZone(g, e)};
    if DataBound(ConfirmedAt(w.(dataCaches := w.dataCaches + {CachedZone(g, e)}), readAt)) {
      assert e <= ConfirmedAt(w, readAt).zone.rrsigHorizon;
    }
  }

  // ---------------------------------------------------------------- naming both algorithms at the parent

  /** All DNSKEY RRsets and data in reach carry the new algorithm together. */
  ghost predicate CarryNew(w: World)
    requires w.zone.rollover.Some?
  {
    var r := w.zone.rollover.value;
    forall g, h :: HeldKeys(w, g) && HeldData(w, h) ==> r.newKey in g.ksks && DataSigned(g, h, r.newKey.alg)
  }

  /**
   * Before the old algorithm retires, both DS together are safe exactly when everything in reach carries the new
   * algorithm.
   */
  lemma BothDSCondition(w: World)
    requires Inv(w) && InKind(w.zone, AlgorithmRoll) && !w.zone.rollover.value.phase.Retiring?
    ensures var r := w.zone.rollover.value; Safe(MoveDS(w, {r.oldKey, r.newKey})) <==> CarryNew(w)
  {
    var r := w.zone.rollover.value;
    assert r.oldKey.alg != r.newKey.alg;
    hide Inv, Safe, CarryNew;
    if Safe(MoveDS(w, {r.oldKey, r.newKey})) { BothDSNeedNew(w); }
    if CarryNew(w) { BothDSSafe(w); }
  }

  lemma BothDSSafe(w: World)
    requires Inv(w) && InKind(w.zone, AlgorithmRoll) && !w.zone.rollover.value.phase.Retiring? && CarryNew(w)
    ensures var r := w.zone.rollover.value; Safe(MoveDS(w, {r.oldKey, r.newKey}))
  {
    var both := {w.zone.rollover.value.oldKey, w.zone.rollover.value.newKey};
    DSMoveHolds(w, both);
    InvIsSafe(w);
    forall g, h | HeldKeys(w, g) && HeldData(w, h) ensures Chain(both, g, h) { OldAlgorithmHolds(w, g, h); }
    hide Inv, Chain, DataSigned, HeldKeys, HeldData, HeldDS;
  }

  lemma BothDSNeedNew(w: World)
    requires HasKeys(w) && w.zone.rollover.Some?
    requires w.zone.rollover.value.oldKey.alg != w.zone.rollover.value.newKey.alg
    requires Safe(MoveDS(w, {w.zone.rollover.value.oldKey, w.zone.rollover.value.newKey}))
    ensures CarryNew(w)
  {
    var r := w.zone.rollover.value;
    var both := {r.oldKey, r.newKey};
    var moved := MoveDS(w, both);
    forall g, h | HeldKeys(w, g) && HeldData(w, h) ensures r.newKey in g.ksks && DataSigned(g, h, r.newKey.alg) {
      assert HeldDS(moved, both) && HeldKeys(moved, g) && HeldData(moved, h);
      assert Chain(both, g, h) && r.newKey in both;
      assert Anchored(both, g, r.newKey.alg);
    }
  }

  lemma OldAlgorithmHolds(w: World, g: Generation, h: Generation)
    requires Inv(w) && InKind(w.zone, AlgorithmRoll) && !w.zone.rollover.value.phase.Retiring?
    requires HeldKeys(w, g) && HeldData(w, h)
    requires w.zone.rollover.value.newKey in g.ksks && DataSigned(g, h, w.zone.rollover.value.newKey.alg)
    ensures var r := w.zone.rollover.value; Chain({r.oldKey, r.newKey}, g, h)
  {
    hide Accounts, DSAccounts;
    var r := w.zone.rollover.value;
    var both := {r.oldKey, r.newKey};
    assert r.oldKey in both && r.oldKey in g.ksks && r.newKey in both;
    assert Anchored(both, g, r.oldKey.alg) && Anchored(both, g, r.newKey.alg);
    assert DataSigned(g, h, r.oldKey.alg);
  }
}
