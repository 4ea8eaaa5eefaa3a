/** Runs that leave the rules, and the resolvers they strand. */
module RolloverWitnesses {
  import opened Common
  import opened ZoneTypes
  import opened RolloverRules
  import opened RolloverRuns
  import opened RolloverSafety
  import opened RolloverLimits

  const AMPLE: Config := Config(0, 0, 0, 1, 1, true)
  const OLD: Key := Key(1, 8)
  const OLDZ: Key := Key(2, 8)
  const NEW: Key := Key(3, 13)
  const NEWZ: Key := Key(4, 13)

  ghost function Fresh(): World {
    World(1, Zone(Some(OLD), Some(OLDZ), 1, None, false, 0, 0, 0, false, 0, 0, 0, 0, 0, 0),
          None, None, false, {OLD}, 0, 0, 1, {}, {}, {})
  }

  /** Signed and served for an hour, with one resolver holding the DNSKEY RRset. */
  ghost function Cached(): World {
    var g := Generation(1, {OLD}, {OLDZ}, {OLDZ}, 3600, 3600);
    Fresh().(zone := RecordSigned(Fresh().zone, 1, 3600, 3600, true), current := Some(g), served := Some(g),
             keyCaches := {CachedZone(g, 1 + Seconds(3600))})
  }

  lemma CachedIsReachable(cfg: Config)
    ensures RunUnder(cfg, [Fresh(), Cached().(keyCaches := {}), Cached()])
  {
    var w0, w2 := Fresh(), Cached();
    var w1 := w2.(keyCaches := {});
    assert PhaseKSKs(w0.zone) == {OLD} && PhaseZSKs(w0.zone) == {OLDZ} && PhaseSigners(w0.zone) == {OLDZ};
    assert w1 == Apply(cfg, w0, Sign(3600, 3600, true));
    assert w2 == Apply(cfg, w1, FetchKeys(w2.current.value, 1 + Seconds(3600)));
  }

  /**
   * The phase set of algo_ds_add_wait already names the new algorithm. Pushed before the new keys have
   * propagated it strands a resolver that still holds the old DNSKEY RRset.
   */
  lemma EarlyPushBreaksChain() returns (run: seq<World>, w: World)
    ensures RunUnder(AMPLE, run) && w == run[|run| - 1]
    ensures InKind(w.zone, AlgorithmRoll) && w.zone.rollover.value.phase.DSAddWait? && HasKeys(w)
    ensures !Safe(MoveDS(w, BuildDSSet(w.zone, w.now)))
  {
    CachedIsReachable(AMPLE);
    var w2 := Cached();
    var w3 := w2.(zone := StartAlgorithm(w2.zone, NEW, NEWZ, 1), heldSince := 1, soleSince := 1);
    assert w3 == Apply(AMPLE, w2, StartAlgorithmStep(NEW, NEWZ));
    run, w := [Fresh(), w2.(keyCaches := {}), w2, w3], w3;
    assert run[..3] == [Fresh(), w2.(keyCaches := {}), w2];
    assert RunUnder(AMPLE, run) by {
      forall i | 0 < i < |run| ensures Next(AMPLE, run[i - 1], run[i]) {
        if i < 3 { assert Next(AMPLE, run[..3][i - 1], run[..3][i]); }
      }
    }
    var bad := MoveDS(w3, {OLD, NEW});
    var g := w2.current.value;
    assert HeldKeys(bad, g) && HeldData(bad, g) && HeldDS(bad, {OLD, NEW});
    assert NEW in {OLD, NEW} && !exists k :: k in {OLD, NEW} && k in g.ksks && k.alg == NEW.alg;
    assert !Chain({OLD, NEW}, g, g);
    assert BuildDSSet(w3.zone, w3.now) == {OLD, NEW};
  }

  /**
   * A generation some server served but that a newer signing superseded before it was confirmed leaves no
   * trace in the horizons: its DNSKEY RRset outlives them.
   */
  lemma UnconfirmedServiceEscapesHorizons() returns (run: seq<World>, w: World)
    ensures RunUnder(AMPLE, run) && w == run[|run| - 1]
    ensures w.deploying && HasKeys(w)
    ensures var g := SignedGeneration(w.zone, w.now, 1, 1);
            var z := ConfirmPublication(RecordSigned(w.zone, w.now, 1, 1, false), w.now, w.now);
            !HorizonsBound(w.(zone := z, current := Some(g), served := Some(g), deploying := false))
  {
    var w0 := Fresh();
    var g1 := Generation(1, {OLD}, {OLDZ}, {OLDZ}, 1, 1);
    var w1 := w0.(zone := RecordSigned(w0.zone, 1, 1, 1, true), current := Some(g1), served := Some(g1));
    var g2 := g1.(dnskeyTTL := 3600, maxRRSIGTTL := 3600);
    var w2 := w1.(zone := RecordSigned(w1.zone, 1, 3600, 3600, false), current := Some(g2));
    var w3 := w2.(deploying := true);
    var c := CachedZone(g2, 1 + Seconds(3600));
    var w4 := w3.(keyCaches := {c});
    assert PhaseKSKs(w0.zone) == {OLD} && PhaseZSKs(w0.zone) == {OLDZ} && PhaseSigners(w0.zone) == {OLDZ};
    assert w1 == Apply(AMPLE, w0, Sign(1, 1, true));
    assert PhaseKSKs(w1.zone) == {OLD} && PhaseZSKs(w1.zone) == {OLDZ} && PhaseSigners(w1.zone) == {OLDZ};
    assert w2 == Apply(AMPLE, w1, Sign(3600, 3600, false));
    assert w3 == Apply(AMPLE, w2, Deploy);
    assert w4 == Apply(AMPLE, w3, FetchKeys(g2, 1 + Seconds(3600)));
    run, w := [w0, w1, w2, w3, w4], w4;
    var g := SignedGeneration(w4.zone, 1, 1, 1);
    var z := ConfirmPublication(RecordSigned(w4.zone, 1, 1, 1, false), 1, 1);
    var bad := w4.(zone := z, current := Some(g), served := Some(g), deploying := false);
    assert c in bad.keyCaches && !Servable(bad, c.gen);
  }

  // ---------------------------------------------------------------- building runs

  /** A run grows by any enabled step. */
  lemma Grow(cfg: Config, run: seq<World>, s: Step)
    requires RunUnder(cfg, run) && HasKeys(run[|run| - 1]) && Enabled(cfg, run[|run| - 1], s)
    ensures RunUnder(cfg, run + [Apply(cfg, run[|run| - 1], s)])
  {
    hide Enabled, Apply, Init;
    var last := run[|run| - 1];
    var longer := run + [Apply(cfg, last, s)];
    forall i | 0 < i < |longer| ensures Next(cfg, longer[i - 1], longer[i]) {
      if i < |run| { assert Next(cfg, run[i - 1], run[i]); } else { assert longer[i - 1] == last; }
    }
  }

  const NEXT: Key := Key(5, 8)
  const STRAY: Key := Key(6, 8)
  const ALL_SAVED: Saves := Saves(true, true, true)

  ghost function Signed(w: World, ttl: nat): World
    requires HasKeys(w)
  {
    var g := SignedGeneration(w.zone, w.now, ttl, ttl);
    w.(zone := RecordSigned(w.zone, w.now, ttl, ttl, true), current := Some(g), served := Some(g))
  }

  // ---------------------------------------------------------------- the clock read before the servers switch

  /**
   * A resolver fetches the old DNSKEY RRset from the last server that still answers with it, after the clock was read.
   */
  lemma EarlyConfirmationEscapesHorizons() returns (run: seq<World>, w: World, readAt: Time)
    ensures RunUnder(AMPLE, run) && w == run[|run| - 1] && HasKeys(w)
    ensures w.zone.pendingPublication && w.zone.lastSigned <= readAt < w.now
    ensures !HorizonsBound(ConfirmedAt(w, readAt))
  {
    var w0 := Fresh();
    var w1 := Signed(w0, 3600);
    var w2 := w1.(now := 2);
    var g := SignedGeneration(w2.zone, 2, 1, 1);
    var w3 := w2.(zone := RecordSigned(w2.zone, 2, 1, 1, false), current := Some(g));
    var w4 := w3.(now := 3);
    var stale := w1.served.value;
    var c := CachedZone(stale, 3 + Seconds(3600));
    w := w4.(keyCaches := {c});
    assert RunUnder(AMPLE, [w0]);
    Grow(AMPLE, [w0], Sign(3600, 3600, true));
    Grow(AMPLE, [w0, w1], Tick(2));
    Grow(AMPLE, [w0, w1, w2], Sign(1, 1, false));
    Grow(AMPLE, [w0, w1, w2, w3], Tick(3));
    Grow(AMPLE, [w0, w1, w2, w3, w4], FetchKeys(stale, 3 + Seconds(3600)));
    run, readAt := [w0, w1, w2, w3, w4, w], 2;
    var confirmed := ConfirmedAt(w, 2);
    assert c in confirmed.keyCaches && stale.signedAt == 1 && !Servable(confirmed, stale);
    assert confirmed.zone.dnskeyHorizon == 2 + Seconds(3600);
  }

  /** A DS without its KSK in the DNSKEY RRset, and none else of its algorithm, breaks the chain. */
  lemma Strands(w: World, ds: set<Key>, g: Generation, h: Generation, a: Key)
    requires HeldDS(w, ds) && HeldKeys(w, g) && HeldData(w, h) && a in ds
    requires forall k: Key :: k in ds && k.alg == a.alg ==> k !in g.ksks
    ensures !Safe(w)
  {
    assert !Anchored(ds, g, a.alg);
    assert !Chain(ds, g, h);
  }

  // ---------------------------------------------------------------- an algorithm rollover up to the removal of the old
  // DS

  /** NEW pre-published beside OLD at instant 2, over a parent that may still name other keys. */
  ghost function Introduced(others: set<Key>): World {
    var w := Signed(Fresh().(parent := others + {OLD}), 1);
    Signed(w.(zone := StartAlgorithm(w.zone, NEW, NEWZ, 1), heldSince := 1, soleSince := 1, now := 2), 1)
  }

  ghost predicate OldOnes(others: set<Key>) { forall x :: x in others ==> x.alg == OLD.alg }

  lemma IntroducedIsReachable(others: set<Key>) returns (run: seq<World>)
    requires OldOnes(others)
    ensures RunUnder(AMPLE, run) && run[|run| - 1] == Introduced(others)
  {
    var w0 := Fresh().(parent := others + {OLD});
    var w1 := Signed(w0, 1);
    var w2 := w1.(zone := StartAlgorithm(w1.zone, NEW, NEWZ, 1), heldSince := 1, soleSince := 1);
    var w3 := w2.(now := 2);
    assert RunUnder(AMPLE, [w0]);
    Grow(AMPLE, [w0], Sign(1, 1, true));
    Grow(AMPLE, [w0, w1], StartAlgorithmStep(NEW, NEWZ));
    Grow(AMPLE, [w0, w1, w2], Tick(2));
    Grow(AMPLE, [w0, w1, w2, w3], Sign(1, 1, true));
    run := [w0, w1, w2, w3, Introduced(others)];
  }

  /** The same zone a second later: stamped, past its horizon, and with the new DS added at the parent. */
  ghost function Advertised(others: set<Key>): World {
    var w := Introduced(others);
    var at := 2 + SECOND;
    var r := w.zone.rollover.value.(phaseFirstSigned := 2, phaseHorizon := at);
    w.(now := at, zone := w.zone.(rollover := Some(r)), parent := others + {OLD, NEW}, heldSince := at, soleSince := at)
  }

  lemma AdvertisedIsReachable(others: set<Key>) returns (run: seq<World>)
    requires OldOnes(others) && NEW !in others
    ensures RunUnder(AMPLE, run) && run[|run| - 1] == Advertised(others)
  {
    var before := IntroducedIsReachable(others);
    var w0 := Introduced(others);
    var at := 2 + SECOND;
    var w1 := w0.(now := at);
    Grow(AMPLE, before, Tick(at));
    var w2 := MoveDS(w1, w1.parent).(zone := Advertised(others).zone);
    assert StampNewKeyPropagation(AMPLE, w1.zone) == w2.zone;
    assert w2.zone == CheckAlgorithm(AMPLE, w1.zone, at, at, Failed, NoProbe, ALL_SAVED);
    Grow(AMPLE, before + [w1], CheckAlgorithmStep(at, at, Failed, w1.parent, NoProbe, ALL_SAVED));
    Grow(AMPLE, before + [w1] + [w2], ChangeDS(others + {OLD, NEW}));
    run := before + [w1] + [w2] + [Advertised(others)];
  }

  /** The record when the wait for the new DS is over. */
  ghost function Removable(others: set<Key>): World {
    var w := Advertised(others);
    var at := 2 + 2 * SECOND;
    var r := w.zone.rollover.value.(phase := OldDSRemoval, dsObservedAt := 2 + SECOND, parentDSTTL := 1, phaseStarted :=
        at);
    w.(now := at, zone := w.zone.(rollover := Some(r)), soleSince := at)
  }

  lemma RemovableIsReachable(others: set<Key>) returns (run: seq<World>)
    requires OldOnes(others) && NEW !in others
    ensures RunUnder(AMPLE, run) && run[|run| - 1] == Removable(others)
  {
    var before := AdvertisedIsReachable(others);
    var w0 := Advertised(others);
    var at := 2 + 2 * SECOND;
    var w1 := w0.(zone := CompleteRollover(AMPLE, w0.zone, w0.now, 1, w0.now, true));
    Grow(AMPLE, before, CompleteStep(AlgorithmRoll, w0.now, 1, true));
    var w2 := w1.(now := at);
    Grow(AMPLE, before + [w1], Tick(at));
    assert Removable(others).zone == CheckAlgorithm(AMPLE, w2.zone, at, at, NoAutomation, NoProbe, ALL_SAVED);
    Grow(AMPLE, before + [w1] + [w2], CheckAlgorithmStep(at, at, NoAutomation, w2.parent, NoProbe, ALL_SAVED));
    run := before + [w1] + [w2] + [Removable(others)];
  }

  // ---------------------------------------------------------------- a DS left over from an earlier rollover

  /**
   * The operator is told to remove the old KSK's DS and removes it, and the DS left over from an earlier
   * rollover stays: it names the old algorithm without a KSK in the zone.
   */
  lemma LeftoverDSBreaksChain() returns (run: seq<World>, w: World)
    ensures RunUnder(AMPLE, run) && w == run[|run| - 1] && HasKeys(w)
    ensures InKind(w.zone, AlgorithmRoll) && w.zone.rollover.value.phase.OldDSRemoval? &&
        NewKeysPropagated(w.zone, w.now)
    ensures w.zone.rollover.value.oldKey in w.parent
    ensures !Safe(MoveDS(w, w.parent - {w.zone.rollover.value.oldKey}))
  {
    run := RemovableIsReachable({STRAY});
    w := Removable({STRAY});
    var g := w.served.value;
    assert g.ksks == {OLD, NEW};
    var left := w.parent - {OLD};
    assert left == {STRAY, NEW};
    Strands(MoveDS(w, left), left, g, g, STRAY);
  }

  // ---------------------------------------------------------------- the clock read before the registrar update

  /** A nanosecond into a check: it has read the clock, and a resolver has just fetched both DS. */
  ghost function Updating(): World {
    var w := Removable({});
    w.(now := w.now + 1, dsCaches := {CachedDS({OLD, NEW}, w.now + 1 + SECOND)})
  }

  lemma UpdatingIsReachable() returns (run: seq<World>)
    ensures RunUnder(AMPLE, run) && run[|run| - 1] == Updating()
  {
    var before := RemovableIsReachable({});
    var w0 := Removable({});
    var w1 := w0.(now := w0.now + 1);
    assert w1.parent == {OLD, NEW};
    Grow(AMPLE, before, Tick(w0.now + 1));
    Grow(AMPLE, before + [w1], FetchDS(w1.now + SECOND));
    run := before + [w1] + [Updating()];
  }

  /**
   * What the rest of that check leaves: the registrar updated, the old DS probed and gone, its removal dated by the
   * reading.
   */
  ghost function UpdatedAt(readAt: Time): World {
    var w := MoveDS(Updating(), {NEW});
    w.(zone := CheckAlgorithm(AMPLE, w.zone, readAt, readAt, Published, Observed(true, 1), ALL_SAVED))
  }

  /** A second after the reading the old keys retire. */
  ghost function RetiredAfterUpdate(): World {
    var w := UpdatedAt(2 + 2 * SECOND);
    var at := 2 + 3 * SECOND;
    w.(now := at, zone := w.zone.(rollover := Some(w.zone.rollover.value.(phase := Retiring, phaseStarted := at)),
        forceResign := true))
  }

  lemma UpdateRetires() returns (after: seq<World>)
    ensures Follows(AMPLE, after) && after[0] == UpdatedAt(2 + 2 * SECOND) && after[|after| - 1] == RetiredAfterUpdate()
  {
    var readAt, at := 2 + 2 * SECOND, 2 + 3 * SECOND;
    var a0 := UpdatedAt(readAt);
    var r := a0.zone.rollover.value;
    assert r.oldDSRemovedAt == readAt && r.parentDSTTL == 1 && r.phase.OldDSRemoval?;
    var a1 := a0.(now := at);
    var a2 := RetiredAfterUpdate();
    assert a2.zone == CheckAlgorithm(AMPLE, a1.zone, at, at, Failed, NoProbe, ALL_SAVED);
    assert MoveDS(a1, a1.parent) == a1;
    assert a1 == Apply(AMPLE, a0, Tick(at));
    assert a2 == Apply(AMPLE, a1, CheckAlgorithmStep(at, at, Failed, a1.parent, NoProbe, ALL_SAVED));
    after := [a0, a1, a2];
  }

  /**
   * One check reads the clock, has the registrar remove the old DS, probes it gone and dates the removal by the
   * reading. The wait ends while a resolver that fetched both DS in between still holds them, and the retirement
   * strands it.
   */
  lemma OwnUpdateStrandsResolver() returns (run: seq<World>, readAt: Time, after: seq<World>)
    ensures RunUnder(AMPLE, run) && Follows(AMPLE, after)
    ensures var w := run[|run| - 1];
      && HasKeys(w) && InKind(w.zone, AlgorithmRoll) && w.zone.rollover.value.phase.OldDSRemoval?
      && w.zone.lastSigned <= readAt < w.now && w.parent == {w.zone.rollover.value.oldKey, w.zone.ksk.value}
      && DSAllowed(w.zone, w.parent, w.now, {w.zone.ksk.value})
      && after[0] == MoveDS(w, {w.zone.ksk.value}).(
           zone := CheckAlgorithm(AMPLE, w.zone, readAt, readAt, Published, Observed(true, w.dsTTL), ALL_SAVED))
    ensures !Safe(after[|after| - 1])
  {
    run := UpdatingIsReachable();
    readAt := 2 + 2 * SECOND;
    var before := UpdateRetires();
    var signed := UpdatedTooEarly();
    after := before + [signed];
    Extended(AMPLE, before, signed);
    hide RunUnder, Follows, Safe;
  }

  lemma UpdatedTooEarly() returns (signed: World)
    ensures Next(AMPLE, RetiredAfterUpdate(), signed) && !Safe(signed)
  {
    var w := RetiredAfterUpdate();
    signed := Signed(w, 1);
    assert signed == Apply(AMPLE, w, Sign(1, 1, true));
    var g := signed.served.value;
    assert g.ksks == {NEW};
    assert CachedDS({OLD, NEW}, 3 + 2 * SECOND + SECOND) in signed.dsCaches;
    Strands(signed, {OLD, NEW}, g, g, OLD);
  }

  lemma Extended(cfg: Config, before: seq<World>, w: World)
    requires Follows(cfg, before) && Next(cfg, before[|before| - 1], w)
    ensures Follows(cfg, before + [w])
  {
    hide Next;
    var after := before + [w];
    forall i | 0 < i < |after| ensures Next(cfg, after[i - 1], after[i]) {
      if i < |before| { assert Next(cfg, before[i - 1], before[i]); }
    }
  }

  // ---------------------------------------------------------------- the clock read before the probe

  /** NEXT published beside OLD at instant 2; at 4 a resolver fetches the old DS set and then the new DS is added. */
  ghost function Observable(): World {
    var w := Signed(Fresh(), 1);
    var w' := Signed(w.(zone := StartKSK(w.zone, NEXT, 1), now := 2), 1);
    w'.(now := 4, dsCaches := {CachedDS({OLD}, 4 + SECOND)}, parent := {OLD, NEXT}, heldSince := 4, soleSince := 4)
  }

  lemma ObservableIsReachable() returns (run: seq<World>)
    ensures RunUnder(AMPLE, run) && run[|run| - 1] == Observable()
  {
    var w0 := Fresh();
    var w1 := Signed(w0, 1);
    var w2 := w1.(zone := StartKSK(w1.zone, NEXT, 1), heldSince := 1, soleSince := 1);
    var w3 := w2.(now := 2);
    var w4 := Signed(w3, 1);
    var w5 := w4.(now := 4);
    var w6 := w5.(dsCaches := {CachedDS({OLD}, 4 + SECOND)});
    assert RunUnder(AMPLE, [w0]);
    Grow(AMPLE, [w0], Sign(1, 1, true));
    Grow(AMPLE, [w0, w1], StartKSKStep(NEXT));
    Grow(AMPLE, [w0, w1, w2], Tick(2));
    Grow(AMPLE, [w0, w1, w2, w3], Sign(1, 1, true));
    Grow(AMPLE, [w0, w1, w2, w3, w4], Tick(4));
    Grow(AMPLE, [w0, w1, w2, w3, w4, w5], FetchDS(4 + SECOND));
    Grow(AMPLE, [w0, w1, w2, w3, w4, w5, w6], ChangeDS({OLD, NEXT}));
    run := [w0, w1, w2, w3, w4, w5, w6, Observable()];
  }

  /** The record a completion dated 3 and the check a second later leave. */
  ghost function RetiredOn(w: World): World
    requires w.zone.rollover.Some?
  {
    var at := 3 + SECOND;
    var r := w.zone.rollover.value.(phase := Retiring, phaseFirstSigned := 2, phaseHorizon := 2 + SECOND,
                                    dsObservedAt := 3, parentDSTTL := 1, phaseStarted := at);
    w.(now := at, zone := w.zone.(rollover := Some(r), forceResign := true), soleSince := at)
  }

  lemma EarlyRetirement() returns (after: seq<World>)
    ensures Follows(AMPLE, after) && after[0] == Observable().(zone := CompleteRollover(AMPLE, Observable().zone, 3, 1,
        4, true))
    ensures after[|after| - 1] == RetiredOn(Observable())
  {
    var w := Observable();
    var at := 3 + SECOND;
    var a0 := w.(zone := CompleteRollover(AMPLE, w.zone, 3, 1, 4, true));
    var a1 := a0.(now := at);
    assert a1.zone.rollover.value.phaseHorizon == 2 + SECOND;
    var a2 := RetiredOn(w);
    assert a2.zone == CheckKSK(AMPLE, a1.zone, at, at, Failed, ALL_SAVED);
    assert a1 == Apply(AMPLE, a0, Tick(at));
    assert a2 == Apply(AMPLE, a1, CheckKSKStep(at, at, Failed, a1.parent, ALL_SAVED));
    after := [a0, a1, a2];
  }

  /**
   * The completion records an instant read before the probe saw the new DS. The wait counted from it ends
   * before the last resolver's old DS set does: after the retirement that resolver finds no KSK it trusts.
   */
  lemma EarlyObservationStrandsResolver() returns (run: seq<World>, observedAt: Time, after: seq<World>)
    ensures RunUnder(AMPLE, run) && Follows(AMPLE, after)
    ensures var w := run[|run| - 1];
      && HasKeys(w) && CanComplete(w.zone, KSKRoll) && w.zone.ksk.value in w.parent
      && w.zone.lastSigned <= observedAt < w.heldSince && Seconds(w.dsTTL) <= EffectiveParentDSTTL(1)
      && after[0] == w.(zone := CompleteRollover(AMPLE, w.zone, observedAt, 1, w.now, true))
    ensures !Safe(after[|after| - 1])
  {
    run := ObservableIsReachable();
    observedAt := 3;
    var before := EarlyRetirement();
    var w := RetiredOn(Observable());
    var signed := Signed(w, 1);
    assert signed == Apply(AMPLE, w, Sign(1, 1, true));
    after := before + [signed];
    Extended(AMPLE, before, signed);
    var g := signed.served.value;
    assert g.ksks == {NEXT};
    assert CachedDS({OLD}, 4 + SECOND) in signed.dsCaches;
    Strands(signed, {OLD}, g, g, OLD);
  }

  // ---------------------------------------------------------------- no publisher

  const UNATTENDED: Config := AMPLE.(publisherInstalled := false)

  /** NEXT published beside OLD with short lifetimes, while a resolver still holds the old DNSKEY RRset for an hour. */
  ghost function LongCached(): World {
    var w := Cached();
    Signed(w.(zone := StartKSK(w.zone, NEXT, 1), now := 2), 1).(parent := {OLD, NEXT}, heldSince := 2, soleSince := 2)
  }

  lemma LongCachedIsReachable() returns (run: seq<World>)
    ensures RunUnder(UNATTENDED, run) && run[|run| - 1] == LongCached()
  {
    CachedIsReachable(UNATTENDED);
    var w0 := Cached();
    var before := [Fresh(), w0.(keyCaches := {}), w0];
    var w1 := w0.(zone := StartKSK(w0.zone, NEXT, 1), heldSince := 1, soleSince := 1);
    var w2 := w1.(now := 2);
    var w3 := Signed(w2, 1);
    Grow(UNATTENDED, before, StartKSKStep(NEXT));
    Grow(UNATTENDED, before + [w1], Tick(2));
    Grow(UNATTENDED, before + [w1] + [w2], Sign(1, 1, true));
    Grow(UNATTENDED, before + [w1] + [w2] + [w3], ChangeDS({OLD, NEXT}));
    run := before + [w1] + [w2] + [w3] + [LongCached()];
  }

  /** The old KSK retired after the DS wait, with the DNSKEY horizon still an hour away. */
  ghost function RetiredEarly(): World {
    var w := LongCached();
    var at := 2 + SECOND;
    var r := w.zone.rollover.value.(phase := Retiring, phaseFirstSigned := 2, phaseHorizon := 2 + Seconds(3600),
                                    dsObservedAt := 2, parentDSTTL := 1, phaseStarted := at);
    w.(now := at, zone := w.zone.(rollover := Some(r), forceResign := true), soleSince := at)
  }

  lemma RetiredEarlyIsReachable() returns (run: seq<World>)
    ensures RunUnder(UNATTENDED, run) && run[|run| - 1] == RetiredEarly()
  {
    var before := LongCachedIsReachable();
    var w0 := LongCached();
    var at := 2 + SECOND;
    var w1 := w0.(zone := CompleteRollover(UNATTENDED, w0.zone, 2, 1, 2, true));
    Grow(UNATTENDED, before, CompleteStep(KSKRoll, 2, 1, true));
    var w2 := w1.(now := at);
    Grow(UNATTENDED, before + [w1], Tick(at));
    assert w2.zone.rollover.value.phaseHorizon == 2 + Seconds(3600);
    assert RetiredEarly().zone == CheckKSK(UNATTENDED, w2.zone, at, at, NoAutomation, ALL_SAVED);
    Grow(UNATTENDED, before + [w1] + [w2], CheckKSKStep(at, at, NoAutomation, w2.parent, ALL_SAVED));
    run := before + [w1] + [w2] + [RetiredEarly()];
  }

  /**
   * Without a publisher the check takes the removal of the old DS for settled and ends the rollover before its
   * horizon; the operator, told nothing more, may then leave the new DS alone at the parent.
   */
  lemma MissingPublisherBreaksChain() returns (run: seq<World>, w: World)
    ensures RunUnder(UNATTENDED, run) && w == run[|run| - 1] && HasKeys(w)
    ensures InKind(w.zone, KSKRoll) && w.now < w.zone.rollover.value.phaseHorizon
    ensures var z := CheckKSK(UNATTENDED, w.zone, w.now, w.now, NoAutomation, ALL_SAVED);
      var only := {w.zone.ksk.value};
      && z == w.zone.(rollover := None)
      && DSAllowed(z, w.parent, w.now, only)
      && !Safe(MoveDS(WithZone(w, z), only))
  {
    var before := RetiredEarlyIsReachable();
    var w0 := RetiredEarly();
    var w1 := w0.(now := 3 + SECOND);
    Grow(UNATTENDED, before, Tick(3 + SECOND));
    w := Signed(w1, 1);
    Grow(UNATTENDED, before + [w1], Sign(1, 1, true));
    run := before + [w1] + [w];
    var stale := Cached().current.value;
    var ended := MoveDS(WithZone(w, w.zone.(rollover := None)), {NEXT});
    assert CachedZone(stale, 1 + Seconds(3600)) in ended.keyCaches;
    Strands(ended, {NEXT}, stale, ended.served.value, NEXT);
  }
}
