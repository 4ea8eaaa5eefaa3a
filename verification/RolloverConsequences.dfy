/** What every run gives besides safety: horizons that bound the caches, and phases that cannot be put off. */
module RolloverConsequences {
  import opened Common
  import opened ZoneTypes
  import opened RolloverRules
  import opened RolloverRuns
  import opened RolloverSafety

  // ---------------------------------------------------------------- horizons

  lemma StampAndPushLeavePublication(cfg: Config, z: Zone, now: Time, reply: Reply)
    ensures SamePublication(z, StampNewKeyPropagation(cfg, z))
    ensures SamePublication(z, PushOldDSRemoval(cfg, z, now, reply).1)
    ensures z.rollover.Some? ==> PushOldDSRemoval(cfg, z, now, reply).1.rollover.Some?
    ensures z.rollover.Some? ==> StampNewKeyPropagation(cfg, z).rollover.Some?
  {
  }

  lemma CheckKSKLeavesPublication(cfg: Config, z: Zone, now: Time, pushAt: Time, reply: Reply, saves: Saves)
    ensures SamePublication(z, CheckKSK(cfg, z, now, pushAt, reply, saves))
  {
    hide StampNewKeyPropagation, PushOldDSRemoval, NeedsStamp, EffectiveParentDSTTL;
    var z1 := StampNewKeyPropagation(cfg, z);
    StampAndPushLeavePublication(cfg, z, pushAt, reply);
    StampAndPushLeavePublication(cfg, z1, pushAt, reply);
  }

  lemma CheckZSKLeavesPublication(cfg: Config, z: Zone, now: Time, ok: bool, saves: Saves)
    requires InKind(z, ZSKRoll)
    ensures SamePublication(z, HandleZSK(cfg, z, now, ok, saves))
  {
  }

  lemma CheckAlgorithmLeavesPublication(cfg: Config, z: Zone, now: Time, pushAt: Time, reply: Reply, probe: Probe,
      saves: Saves)
    ensures SamePublication(z, CheckAlgorithm(cfg, z, now, pushAt, reply, probe, saves))
  {
    hide StampNewKeyPropagation, PushOldDSRemoval, NeedsStamp, AddAttempted, EffectiveParentDSTTL;
    var z1 := StampNewKeyPropagation(cfg, z);
    StampAndPushLeavePublication(cfg, z, pushAt, reply);
    StampAndPushLeavePublication(cfg, z1, pushAt, reply);
    if z1.rollover.Some? {
      StampAndPushLeavePublication(cfg,
          z1.(rollover := Some(z1.rollover.value.(phase := OldDSRemoval, phaseStarted := now))), pushAt, reply);
    }
  }

  lemma StepNeverLowersHorizons(cfg: Config, w: World, s: Step)
    requires HasKeys(w) && Enabled(cfg, w, s)
    ensures Apply(cfg, w, s).zone.dnskeyHorizon >= w.zone.dnskeyHorizon
    ensures Apply(cfg, w, s).zone.rrsigHorizon >= w.zone.rrsigHorizon
  {
    hide DSAllowed, PhaseKSKs, PhaseZSKs, PhaseSigners, Since, CheckKSK, CheckAlgorithm, HandleZSK;
    match s
    case CheckKSKStep(at, pushAt, reply, _, saves) => CheckKSKLeavesPublication(cfg, w.zone, at, pushAt, reply, saves);
    case CheckZSKStep(at, ok, saves) => CheckZSKLeavesPublication(cfg, w.zone, at, ok, saves);
    case CheckAlgorithmStep(at, pushAt, reply, _, probe, saves) =>
      CheckAlgorithmLeavesPublication(cfg, w.zone, at, pushAt, reply, probe, saves);
    case _ =>
  }

  /** Over any run the horizons never fall, and they bound what every superseded generation left in caches. */
  lemma {:induction false} HorizonsOverRuns(run: seq<World>, i: nat, j: nat)
    requires IsRun(run) && i <= j < |run|
    ensures run[i].zone.dnskeyHorizon <= run[j].zone.dnskeyHorizon
    ensures run[i].zone.rrsigHorizon <= run[j].zone.rrsigHorizon
    ensures HorizonsBound(run[j])
    decreases j
  {
    hide Enabled, Init, Apply, DSAccounts, PhaseInv, HorizonsBound;
    assert HorizonsBound(run[j]) by {
      RunKeepsInv(run);
      assert Inv(run[j]);
    }
    if i < j {
      HorizonsOverRuns(run, i, j - 1);
      assert Reconfigured(run[j - 1], run[j]);
      var cfg :| Next(cfg, run[j - 1], run[j]);
      var s :| Enabled(cfg, run[j - 1], s) && run[j] == Apply(cfg, run[j - 1], s);
      StepNeverLowersHorizons(cfg, run[j - 1], s);
    }
  }

  // ---------------------------------------------------------------- progress

  predicate SamePhase(z: Zone, z': Zone) {
    z.rollover.Some? && z'.rollover.Some? && z.rollover.value.kind == z'.rollover.value.kind &&
        z.rollover.value.phase == z'.rollover.value.phase
  }

  predicate Stamped(z: Zone) {
    z.rollover.Some? && z.rollover.value.phaseFirstSigned != 0 && z.rollover.value.phaseHorizon != 0 }

  lemma StepKeepsStamp(cfg: Config, w: World, s: Step)
    requires HasKeys(w) && Enabled(cfg, w, s)
    requires Stamped(w.zone) && SamePhase(w.zone, Apply(cfg, w, s).zone)
    ensures Stamped(Apply(cfg, w, s).zone)
    ensures Apply(cfg, w, s).zone.rollover.value.phaseHorizon == w.zone.rollover.value.phaseHorizon
    ensures Apply(cfg, w, s).zone.rollover.value.started == w.zone.rollover.value.started
    ensures Apply(cfg, w, s).zone.rollover.value.phaseStarted == w.zone.rollover.value.phaseStarted
  {
    hide DSAllowed, NewKeysPropagated, EffectiveParentDSTTL, CheckKSK, CheckAlgorithm, HandleZSK;
    match s
    case CheckKSKStep(at, pushAt, reply, _, saves) => KSKCheckKeepsStamp(cfg, w.zone, at, pushAt, reply, saves);
    case CheckAlgorithmStep(at, pushAt, reply, _, probe, saves) =>
      AlgorithmCheckKeepsStamp(cfg, w.zone, at, pushAt, reply, probe, saves);
    case CheckZSKStep(at, liveKeyOK, saves) => ZSKCheckKeepsStamp(cfg, w.zone, at, liveKeyOK, saves);
    case _ =>
  }

  predicate StampKept(z: Zone, z': Zone) {
    SamePhase(z, z') ==>
      && z'.rollover.value.phaseFirstSigned == z.rollover.value.phaseFirstSigned
      && z'.rollover.value.phaseHorizon == z.rollover.value.phaseHorizon
      && z'.rollover.value.started == z.rollover.value.started
      && z'.rollover.value.phaseStarted == z.rollover.value.phaseStarted
  }

  lemma KSKCheckKeepsStamp(cfg: Config, z: Zone, now: Time, pushAt: Time, reply: Reply, saves: Saves)
    requires Stamped(z)
    ensures StampKept(z, CheckKSK(cfg, z, now, pushAt, reply, saves))
  {
  }

  lemma AlgorithmCheckKeepsStamp(cfg: Config, z: Zone, now: Time, pushAt: Time, reply: Reply, probe: Probe,
      saves: Saves)
    requires Stamped(z)
    ensures StampKept(z, CheckAlgorithm(cfg, z, now, pushAt, reply, probe, saves))
  {
  }

  lemma ZSKCheckKeepsStamp(cfg: Config, z: Zone, now: Time, liveKeyOK: bool, saves: Saves)
    requires Stamped(z) && InKind(z, ZSKRoll)
    ensures StampKept(z, HandleZSK(cfg, z, now, liveKeyOK, saves))
  {
  }

  /** The phase's horizon and dwell time are over at this reading of the clock. */
  predicate ZSKDue(cfg: Config, z: Zone, at: Time) {
    && InKind(z, ZSKRoll)
    && at >= z.rollover.value.phaseHorizon
    && (if z.rollover.value.phase.PrePublish?
        then at >= z.rollover.value.started + cfg.rolloverSwitch
        else at >= SigningPhaseStart(z.rollover.value) + SigningDwell(cfg))
  }

  /** A check of a stamped phase that is due leaves the phase, whatever is saved. */
  lemma DueCheckLeavesPhase(cfg: Config, w: World, at: Time, saves: Saves)
    requires Inv(w) && Stamped(w.zone) && ZSKDue(cfg, w.zone, at)
    ensures !SamePhase(w.zone, HandleZSK(cfg, w.zone, at, true, saves))
  {
    hide Accounts, DSAccounts, SettledDS, DnskeyTTLFloor, ZskRetireFloor;
  }

  /**
   * A ZSK phase stamped at i has a fixed horizon: whatever is signed, confirmed, fetched or reconfigured in
   * between, a check at any later j in the same phase that reads the clock past that horizon and the dwell time
   * of the configuration then in force leaves the phase.
   */
  lemma {:induction false} ResigningCannotPostpone(run: seq<World>, i: nat, j: nat, cfg: Config, at: Time, saves: Saves)
    requires IsRun(run) && i <= j < |run|
    requires Stamped(run[i].zone) && InKind(run[i].zone, ZSKRoll)
    requires forall m :: i <= m < j ==> SamePhase(run[m].zone, run[m + 1].zone)
    ensures Stamped(run[j].zone) && run[j].zone.rollover.value.phaseHorizon == run[i].zone.rollover.value.phaseHorizon
    ensures SamePhase(run[i].zone, run[j].zone)
    ensures ZSKDue(cfg, run[j].zone, at) ==> !SamePhase(run[j].zone, HandleZSK(cfg, run[j].zone, at, true, saves))
    decreases j
  {
    hide Enabled, Init, Apply, HandleZSK, ZSKDue, Inv;
    if i < j {
      ResigningCannotPostpone(run, i, j - 1, cfg, at, saves);
      assert Reconfigured(run[j - 1], run[j]);
      var was :| Next(was, run[j - 1], run[j]);
      var s :| Enabled(was, run[j - 1], s) && run[j] == Apply(was, run[j - 1], s);
      assert SamePhase(run[j - 1].zone, run[j - 1 + 1].zone);
      StepKeepsStamp(was, run[j - 1], s);
    }
    RunKeepsInv(run);
    if ZSKDue(cfg, run[j].zone, at) { DueCheckLeavesPhase(cfg, run[j], at, saves); }
  }
}
