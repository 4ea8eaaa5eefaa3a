/** The same moves judged by the record and the parent alone: safe whatever resolvers hold, if and only if. */
module RolloverRecords {
  import opened Common
  import opened ZoneTypes
  import opened RolloverRules
  import opened RolloverRuns
  import opened RolloverSafety
  import opened RolloverLimits

  // ---------------------------------------------------------------- what the record and the parent tell

  /** A state that differs in nothing but what resolvers hold. */
  ghost predicate Admits(w: World, w': World) {
    Inv(w') && w' == w.(keyCaches := w'.keyCaches, dataCaches := w'.dataCaches, dsCaches := w'.dsCaches)
  }

  // ---------------------------------------------------------------- one more cache

  ghost function PlusKeys(w: World, c: CachedZone): World { w.(keyCaches := w.keyCaches + {c}) }

  ghost function PlusData(w: World, c: CachedZone): World { w.(dataCaches := w.dataCaches + {c}) }

  ghost function PlusDS(w: World, c: CachedDS): World { w.(dsCaches := w.dsCaches + {c}) }

  lemma PlusKeysHolds(w: World, c: CachedZone)
    ensures var w' := PlusKeys(w, c);
      && (forall g :: HeldKeys(w', g) ==> HeldKeys(w, g) || g == c.gen)
      && (forall h :: HeldData(w', h) ==> HeldData(w, h))
      && (forall d: set<Key> :: HeldDS(w', d) ==> HeldDS(w, d))
      && (w.now < c.expiry ==> HeldKeys(w', c.gen))
  {
    assert c in PlusKeys(w, c).keyCaches;
  }

  lemma PlusDataHolds(w: World, c: CachedZone)
    ensures var w' := PlusData(w, c);
      && (forall g :: HeldKeys(w', g) ==> HeldKeys(w, g))
      && (forall h :: HeldData(w', h) ==> HeldData(w, h) || h == c.gen)
      && (forall d: set<Key> :: HeldDS(w', d) ==> HeldDS(w, d))
      && (w.now < c.expiry ==> HeldData(w', c.gen))
  {
    assert c in PlusData(w, c).dataCaches;
  }

  lemma PlusDSHolds(w: World, c: CachedDS)
    ensures var w' := PlusDS(w, c);
      && (forall g :: HeldKeys(w', g) ==> HeldKeys(w, g))
      && (forall h :: HeldData(w', h) ==> HeldData(w, h))
      && (forall d: set<Key> :: HeldDS(w', d) ==> HeldDS(w, d) || d == c.ds)
      && (w.now < c.expiry ==> HeldDS(w', c.ds))
  {
    assert c in PlusDS(w, c).dsCaches;
  }

  lemma PlusKeysAccounts(w: World, c: CachedZone)
    requires HasKeys(w) && Accounts(w) && DSAccounts(w)
    requires c.gen.signedAt == 0 && c.gen.dnskeyTTL >= c.expiry && c.expiry <= w.zone.dnskeyHorizon
    ensures Accounts(PlusKeys(w, c)) && DSAccounts(PlusKeys(w, c))
  {
  }

  lemma PlusDataAccounts(w: World, c: CachedZone)
    requires HasKeys(w) && Accounts(w) && DSAccounts(w)
    requires c.gen.signedAt == 0 && c.gen.maxRRSIGTTL >= c.expiry && c.expiry <= w.zone.rrsigHorizon
    ensures Accounts(PlusData(w, c)) && DSAccounts(PlusData(w, c))
  {
  }

  lemma PlusDSAccounts(w: World, c: CachedDS)
    requires HasKeys(w) && Accounts(w) && DSAccounts(w) && c.expiry <= w.now + Seconds(w.dsTTL)
    requires w.zone.ksk.value in w.parent && w.zone.ksk.value !in c.ds ==> c.expiry <= w.heldSince + Seconds(w.dsTTL)
    requires w.parent == {w.zone.ksk.value} && c.ds != {w.zone.ksk.value} ==> c.expiry <= w.soleSince + Seconds(w.dsTTL)
    ensures Accounts(PlusDS(w, c)) && DSAccounts(PlusDS(w, c))
  {
  }

  // ---------------------------------------------------------------- retiring the old KSK, by the record

  /** The DS sets fetched before the new DS appeared, or those the recorded wait counts, have expired. */
  predicate OldDSExpired(w: World) {
    && w.zone.rollover.Some?
    && var r := w.zone.rollover.value;
       || w.heldSince + Seconds(w.dsTTL) <= w.now
       || (r.phase.DSPropagation? && r.dsObservedAt + EffectiveParentDSTTL(r.parentDSTTL) <= w.now)
  }

  /**
   * Retiring the old KSK now is safe whatever resolvers hold, exactly from one DS TTL after the new DS appeared
   * at the parent, or from the end of a recorded wait that is known to cover that.
   */
  lemma KSKWaitIsExact(w: World, dnskeyTTL: nat, maxRRSIGTTL: nat)
    requires Inv(w) && InKind(w.zone, KSKRoll) && !w.zone.rollover.value.phase.Retiring?
    requires w.zone.rollover.value.newKey in w.parent
    ensures (forall w' :: Admits(w, w') ==> Safe(Retired(w', dnskeyTTL, maxRRSIGTTL))) <==> OldDSExpired(w)
  {
    if OldDSExpired(w) {
      forall w' | Admits(w, w') ensures Safe(Retired(w', dnskeyTTL, maxRRSIGTTL)) {
        ExpiredMeansNewDS(w');
        KSKRetirementSafe(w', dnskeyTTL, maxRRSIGTTL);
      }
    } else {
      var w' := WithOldDS(w);
      hide Inv, Safe, Retired, HeldDS;
      KSKRetirementCondition(w', dnskeyTTL, maxRRSIGTTL);
      assert !Safe(Retired(w', dnskeyTTL, maxRRSIGTTL));
    }
  }

  lemma ExpiredMeansNewDS(w: World)
    requires Inv(w) && InKind(w.zone, KSKRoll) && !w.zone.rollover.value.phase.Retiring? && OldDSExpired(w)
    requires w.zone.rollover.value.newKey in w.parent
    ensures forall d: set<Key> :: HeldDS(w, d) ==> w.zone.rollover.value.newKey in d
  {
  }

  /** Before that, some resolver may hold the old DS set. */
  lemma PlusDSKSK(w: World, r: Rollover, c: CachedDS)
    requires HasKeys(w) && KSKInv(w, r) && !r.phase.Retiring? && c.ds == {r.oldKey}
    requires r.phase.DSPropagation? ==> c.expiry <= r.dsObservedAt + EffectiveParentDSTTL(r.parentDSTTL)
    ensures KSKInv(PlusDS(w, c), r)
  {
    PlusDSHolds(w, c);
    hide HeldKeys, HeldData, HeldDS;
  }

  lemma WithOldDS(w: World) returns (w': World)
    requires Inv(w) && InKind(w.zone, KSKRoll) && !w.zone.rollover.value.phase.Retiring? && !OldDSExpired(w)
    requires w.zone.rollover.value.newKey in w.parent
    ensures Admits(w, w') && exists d: set<Key> :: HeldDS(w', d) && w.zone.rollover.value.newKey !in d
    ensures w'.zone == w.zone
  {
    var r := w.zone.rollover.value;
    var first := w.heldSince + Seconds(w.dsTTL);
    var second := r.dsObservedAt + EffectiveParentDSTTL(r.parentDSTTL);
    var e := if r.phase.DSPropagation? && second < first then second else first;
    var c := CachedDS({r.oldKey}, e);
    w' := PlusDS(w, c);
    PlusDSHolds(w, c);
    PlusDSAccounts(w, c);
    PlusDSKSK(w, r, c);
    hide Accounts, DSAccounts, KSKInv;
  }

  // ---------------------------------------------------------------- retiring the old algorithm, by the record

  /**
   * The DS sets fetched before the parent's came down to the new DS, or those the recorded wait counts, have expired.
   */
  predicate OldAlgorithmDSExpired(w: World) {
    && w.zone.rollover.Some?
    && var r := w.zone.rollover.value;
       || w.soleSince + Seconds(w.dsTTL) <= w.now
       || (r.oldDSRemovedAt != 0 && r.oldDSRemovedAt + EffectiveParentDSTTL(r.parentDSTTL) <= w.now)
  }

  /**
   * Retiring the old algorithm now is safe whatever resolvers hold, exactly from one DS TTL after the parent's DS
   * set came down to the new DS alone, or from the end of a recorded wait that is known to cover that.
   */
  lemma AlgorithmWaitIsExact(w: World, dnskeyTTL: nat, maxRRSIGTTL: nat)
    requires Inv(w) && InKind(w.zone, AlgorithmRoll) && w.zone.rollover.value.phase.OldDSRemoval?
    requires NewKeysPropagated(w.zone, w.now) && w.parent == {w.zone.rollover.value.newKey}
    ensures (forall w' :: Admits(w, w') ==> Safe(Retired(w', dnskeyTTL, maxRRSIGTTL))) <==> OldAlgorithmDSExpired(w)
  {
    if OldAlgorithmDSExpired(w) {
      forall w' | Admits(w, w') ensures Safe(Retired(w', dnskeyTTL, maxRRSIGTTL)) {
        ExpiredMeansNewDSAlone(w');
        AlgorithmRetirementCondition(w', dnskeyTTL, maxRRSIGTTL);
      }
    } else {
      var w' := WithBothDS(w);
      hide Inv, Safe, Retired, HeldDS;
      AlgorithmRetirementCondition(w', dnskeyTTL, maxRRSIGTTL);
      assert !Safe(Retired(w', dnskeyTTL, maxRRSIGTTL));
    }
  }

  lemma ExpiredMeansNewDSAlone(w: World)
    requires Inv(w) && InKind(w.zone, AlgorithmRoll) && w.zone.rollover.value.phase.OldDSRemoval?
    requires w.parent == {w.zone.rollover.value.newKey} && OldAlgorithmDSExpired(w)
    ensures forall d: set<Key> :: HeldDS(w, d) ==> d == {w.zone.rollover.value.newKey}
  {
  }

  /** Before that, some resolver may hold a DS set that still names the old algorithm. */
  lemma PlusDSAlgorithm(w: World, r: Rollover, c: CachedDS)
    requires HasKeys(w) && AlgorithmInv(w, r) && !r.phase.Retiring? && c.ds == {r.oldKey, r.newKey}
    requires NewKeysPropagated(w.zone, w.now)
    requires r.oldDSRemovedAt != 0 ==> c.expiry <= r.oldDSRemovedAt + EffectiveParentDSTTL(r.parentDSTTL)
    ensures AlgorithmInv(PlusDS(w, c), r)
  {
    PlusDSHolds(w, c);
    hide HeldKeys, HeldData, HeldDS;
  }

  lemma WithBothDS(w: World) returns (w': World)
    requires Inv(w) && InKind(w.zone, AlgorithmRoll) && w.zone.rollover.value.phase.OldDSRemoval?
    requires NewKeysPropagated(w.zone, w.now) && w.parent == {w.zone.rollover.value.newKey} && !OldAlgorithmDSExpired(w)
    ensures Admits(w, w') && exists d: set<Key> :: HeldDS(w', d) && d != {w.zone.rollover.value.newKey}
    ensures w'.zone == w.zone && w'.now == w.now
  {
    var r := w.zone.rollover.value;
    var first := w.soleSince + Seconds(w.dsTTL);
    var second := r.oldDSRemovedAt + EffectiveParentDSTTL(r.parentDSTTL);
    var e := if r.oldDSRemovedAt != 0 && second < first then second else first;
    var both := {r.oldKey, r.newKey};
    assert r.oldKey in both && both != {r.newKey};
    var c := CachedDS(both, e);
    w' := PlusDS(w, c);
    PlusDSHolds(w, c);
    PlusDSAccounts(w, c);
    PlusDSAlgorithm(w, r, c);
    hide Accounts, DSAccounts, AlgorithmInv;
  }

  /** What the recorded horizons say of the DNSKEY RRsets, and of the signatures, without the new keys. */
  predicate KeysPast(z: Zone, now: Time) {
    z.rollover.Some? && (z.dnskeyHorizon <= now || (z.rollover.value.phaseHorizon != 0 &&
        z.rollover.value.phaseHorizon <= now))
  }

  predicate DataPast(z: Zone, now: Time) {
    z.rollover.Some? && (z.rrsigHorizon <= now || (z.rollover.value.phaseHorizon != 0 &&
        z.rollover.value.phaseHorizon <= now))
  }

  /** A generation without any key of the rollover that started after it. */
  ghost function Stale(w: World, expiry: Time): Generation
    requires HasKeys(w) && w.zone.rollover.Some?
  {
    var r := w.zone.rollover.value;
    var s := if r.kind.AlgorithmRoll? then r.oldZSK else w.zone.zsk.value;
    Generation(0, {r.oldKey}, {s}, {s}, expiry, expiry)
  }

  ghost function WithStaleKeys(w: World): World
    requires HasKeys(w) && w.zone.rollover.Some?
  {
    var r := w.zone.rollover.value;
    var e := if r.phaseHorizon != 0 && r.phaseHorizon < w.zone.dnskeyHorizon then r.phaseHorizon
        else w.zone.dnskeyHorizon;
    PlusKeys(w, CachedZone(Stale(w, e), e))
  }

  ghost function WithStaleData(w: World): World
    requires HasKeys(w) && w.zone.rollover.Some?
  {
    var r := w.zone.rollover.value;
    var e := if r.phaseHorizon != 0 && r.phaseHorizon < w.zone.rrsigHorizon then r.phaseHorizon
        else w.zone.rrsigHorizon;
    PlusData(w, CachedZone(Stale(w, e), e))
  }

  // ---------------------------------------------------------------- the end of a KSK rollover, by the record

  /** Whatever DS set the gates then allow. */
  ghost predicate EndSafe(w: World)
    requires HasKeys(w)
  {
    var ended := WithZone(w, w.zone.(rollover := None));
    forall ds: set<Key> :: DSAllowed(ended.zone, ended.parent, ended.now, ds) ==> Safe(MoveDS(ended, ds))
  }

  /** Ending the rollover now is safe whatever resolvers hold, exactly when a recorded DNSKEY horizon is past. */
  lemma KSKEndIsExact(w: World)
    requires Inv(w) && InKind(w.zone, KSKRoll) && w.zone.rollover.value.phase.Retiring?
    requires PublishedSince(w.zone, w.zone.rollover.value.started)
    ensures (forall w' :: Admits(w, w') ==> EndSafe(w')) <==> KeysPast(w.zone, w.now)
  {
    if KeysPast(w.zone, w.now) {
      forall w' | Admits(w, w') ensures EndSafe(w') {
        PastMeansNewKSK(w');
        KSKEndCondition(w');
      }
    } else {
      var w' := WithStaleKeys(w);
      StaleKSKAdmitted(w);
      hide Inv, EndSafe, HeldKeys, WithStaleKeys;
      KSKEndCondition(w');
      assert !EndSafe(w') by {
        assert EndSafe(w') <==> forall g :: HeldKeys(w', g) ==> w.zone.rollover.value.newKey in g.ksks by {
        EndMeansHeld(w'); } }
    }
  }

  lemma EndMeansHeld(w: World)
    requires Inv(w) && InKind(w.zone, KSKRoll) && w.zone.rollover.value.phase.Retiring?
    requires PublishedSince(w.zone, w.zone.rollover.value.started)
    ensures EndSafe(w) <==> forall g :: HeldKeys(w, g) ==> w.zone.rollover.value.newKey in g.ksks
  {
    hide Inv, Safe, HeldKeys;
    KSKEndCondition(w);
  }

  lemma PastMeansNewKSK(w: World)
    requires Inv(w) && InKind(w.zone, KSKRoll) && KeysPast(w.zone, w.now)
    requires PublishedSince(w.zone, w.zone.rollover.value.started)
    ensures forall g :: HeldKeys(w, g) ==> w.zone.rollover.value.newKey in g.ksks
  {
  }

  lemma PlusKeysKSK(w: World, r: Rollover, c: CachedZone)
    requires HasKeys(w) && KSKInv(w, r)
    requires c.gen.signedAt == 0 && r.oldKey in c.gen.ksks && w.zone.zsk.value in c.gen.zsks
    requires r.phaseHorizon != 0 ==> c.expiry <= r.phaseHorizon
    ensures KSKInv(PlusKeys(w, c), r)
  {
    PlusKeysHolds(w, c);
    hide HeldKeys, HeldData, HeldDS;
  }

  lemma StaleKSKAdmitted(w: World)
    requires Inv(w) && InKind(w.zone, KSKRoll) && w.zone.rollover.value.phase.Retiring? && !KeysPast(w.zone, w.now)
    ensures var w' := WithStaleKeys(w);
      Admits(w, w') && exists g :: HeldKeys(w', g) && w.zone.rollover.value.newKey !in g.ksks
  {
    var r := w.zone.rollover.value;
    var e := if r.phaseHorizon != 0 && r.phaseHorizon < w.zone.dnskeyHorizon then r.phaseHorizon
        else w.zone.dnskeyHorizon;
    var c := CachedZone(Stale(w, e), e);
    assert r.oldKey != r.newKey && w.zone.rollover.value.newKey !in c.gen.ksks;
    hide Accounts, DSAccounts, KSKInv;
    PlusKeysHolds(w, c);
    PlusKeysAccounts(w, c);
    PlusKeysKSK(w, r, c);
  }

  // ---------------------------------------------------------------- pushing the phase set, by the record

  /**
   * In an algorithm rollover whose keys are served, pushing the phase set is safe whatever resolvers hold, exactly
   * when the recorded horizons of both the DNSKEY RRsets and the signatures are past.
   */
  lemma PhaseSetIsExact(w: World)
    requires Inv(w) && InKind(w.zone, AlgorithmRoll) && !w.zone.rollover.value.phase.Retiring?
    requires PublishedSince(w.zone, w.zone.rollover.value.started)
    ensures (forall w' :: Admits(w, w') ==> Safe(MoveDS(w', BuildDSSet(w'.zone, w'.now))))
       <==> KeysPast(w.zone, w.now) && DataPast(w.zone, w.now)
  {
    if KeysPast(w.zone, w.now) && DataPast(w.zone, w.now) {
      forall w' | Admits(w, w') ensures Safe(MoveDS(w', BuildDSSet(w'.zone, w'.now))) { PastMeansSafeSet(w'); }
    } else if !KeysPast(w.zone, w.now) {
      StaleKeysBreakSet(w);
      assert Admits(w, WithStaleKeys(w));
    } else {
      StaleDataBreaksSet(w);
      assert Admits(w, WithStaleData(w));
    }
  }

  lemma PastMeansCarried(w: World)
    requires Inv(w) && InKind(w.zone, AlgorithmRoll) && PublishedSince(w.zone, w.zone.rollover.value.started)
    requires KeysPast(w.zone, w.now) && DataPast(w.zone, w.now)
    ensures var r := w.zone.rollover.value;
      && (forall g :: HeldKeys(w, g) ==> r.newKey in g.ksks && r.newZSK in g.zsks)
      && (forall h :: HeldData(w, h) ==> r.newZSK in h.signers)
  {
  }

  lemma PastMeansSafeSet(w: World)
    requires Inv(w) && InKind(w.zone, AlgorithmRoll) && !w.zone.rollover.value.phase.Retiring?
    requires PublishedSince(w.zone, w.zone.rollover.value.started)
    requires KeysPast(w.zone, w.now) && DataPast(w.zone, w.now)
    ensures Safe(MoveDS(w, BuildDSSet(w.zone, w.now)))
  {
    hide Accounts, DSAccounts, Chain, KeysPast, DataPast;
    var ds := BuildDSSet(w.zone, w.now);
    DSMoveHolds(w, ds);
    InvIsSafe(w);
    PastMeansCarried(w);
    forall g, h | HeldKeys(w, g) && HeldData(w, h) ensures Chain(ds, g, h) {
      BothAlgorithmsChain(w.zone.rollover.value, ds, g, h);
    }
  }

  /** Keys of the old algorithm alone, signed before the start and gone by a stamped horizon. */
  predicate OldAlgorithmOnly(r: Rollover, c: CachedZone) {
    && c.gen.signedAt == 0 && r.oldKey in c.gen.ksks && r.oldZSK in c.gen.zsks && r.oldZSK in c.gen.signers
    && (r.phaseHorizon != 0 ==> c.expiry <= r.phaseHorizon)
  }

  lemma PlusKeysAlgorithm(w: World, r: Rollover, c: CachedZone)
    requires HasKeys(w) && AlgorithmInv(w, r) && OldAlgorithmOnly(r, c)
    ensures AlgorithmInv(PlusKeys(w, c), r)
  {
    PlusKeysHolds(w, c);
    hide HeldKeys, HeldData, HeldDS;
  }

  lemma PlusDataAlgorithm(w: World, r: Rollover, c: CachedZone)
    requires HasKeys(w) && AlgorithmInv(w, r) && OldAlgorithmOnly(r, c)
    ensures AlgorithmInv(PlusData(w, c), r)
  {
    PlusDataHolds(w, c);
    hide HeldKeys, HeldData, HeldDS;
  }

  lemma StaleKeysAdmitted(w: World)
    requires Inv(w) && InKind(w.zone, AlgorithmRoll) && !w.zone.rollover.value.phase.Retiring? &&
        !KeysPast(w.zone, w.now)
    ensures Admits(w, WithStaleKeys(w))
  {
    var r := w.zone.rollover.value;
    var e := if r.phaseHorizon != 0 && r.phaseHorizon < w.zone.dnskeyHorizon then r.phaseHorizon
        else w.zone.dnskeyHorizon;
    var c := CachedZone(Stale(w, e), e);
    hide Accounts, DSAccounts, AlgorithmInv;
    PlusKeysAccounts(w, c);
    PlusKeysAlgorithm(w, r, c);
  }

  lemma StaleDataAdmitted(w: World)
    requires Inv(w) && InKind(w.zone, AlgorithmRoll) && !w.zone.rollover.value.phase.Retiring? &&
        !DataPast(w.zone, w.now)
    ensures Admits(w, WithStaleData(w))
  {
    var r := w.zone.rollover.value;
    var e := if r.phaseHorizon != 0 && r.phaseHorizon < w.zone.rrsigHorizon then r.phaseHorizon
        else w.zone.rrsigHorizon;
    var c := CachedZone(Stale(w, e), e);
    hide Accounts, DSAccounts, AlgorithmInv;
    PlusDataAccounts(w, c);
    PlusDataAlgorithm(w, r, c);
  }

  lemma StaleKeysBreakSet(w: World)
    requires Inv(w) && InKind(w.zone, AlgorithmRoll) && !w.zone.rollover.value.phase.Retiring?
    requires PublishedSince(w.zone, w.zone.rollover.value.started) && !KeysPast(w.zone, w.now)
    ensures var w' := WithStaleKeys(w); Admits(w, w') && !Safe(MoveDS(w', BuildDSSet(w'.zone, w'.now)))
  {
    var r := w.zone.rollover.value;
    var w' := WithStaleKeys(w);
    var e := if r.phaseHorizon != 0 && r.phaseHorizon < w.zone.dnskeyHorizon then r.phaseHorizon
        else w.zone.dnskeyHorizon;
    var g := Stale(w, e);
    StaleKeysAdmitted(w);
    assert CachedZone(g, e) in w'.keyCaches;
    var ds := BuildDSSet(w.zone, w.now);
    var moved := MoveDS(w', ds);
    assert HeldKeys(moved, g) && HeldData(moved, w.served.value) && HeldDS(moved, ds);
    assert r.newKey in ds && !Anchored(ds, g, r.newKey.alg);
    assert !Chain(ds, g, w.served.value);
  }

  lemma StaleDataBreaksSet(w: World)
    requires Inv(w) && InKind(w.zone, AlgorithmRoll) && !w.zone.rollover.value.phase.Retiring?
    requires PublishedSince(w.zone, w.zone.rollover.value.started) && !DataPast(w.zone, w.now)
    ensures var w' := WithStaleData(w); Admits(w, w') && !Safe(MoveDS(w', BuildDSSet(w'.zone, w'.now)))
  {
    var r := w.zone.rollover.value;
    var w' := WithStaleData(w);
    var e := if r.phaseHorizon != 0 && r.phaseHorizon < w.zone.rrsigHorizon then r.phaseHorizon
        else w.zone.rrsigHorizon;
    var h := Stale(w, e);
    StaleDataAdmitted(w);
    assert CachedZone(h, e) in w'.dataCaches;
    var ds := BuildDSSet(w.zone, w.now);
    var moved := MoveDS(w', ds);
    assert HeldKeys(moved, w.served.value) && HeldData(moved, h) && HeldDS(moved, ds);
    assert r.newKey in ds && !DataSigned(w.served.value, h, r.newKey.alg);
    assert !Chain(ds, w.served.value, h);
  }
}
