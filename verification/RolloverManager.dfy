/** The rollover manager: it steps the zone's record in place, saving as it goes. */
module RolloverManagement {
  import opened Common
  import opened ZoneTypes
  import opened RolloverRules

  /** A save either reached the disk, reached it without a durability guarantee, or did not happen. */
  datatype SaveResult = Saved | Uncertain | NotSaved

  /** An algorithm rollover may start, and everything it prepares succeeded. */
  predicate ReadyForAlgorithm(zone: Option<Zone>, target: nat, backupOK: bool, ksk: Option<Key>, zsk: Option<Key>) {
    zone.Some? && CanStartAlgorithm(zone.value, target) && backupOK && ksk.Some? && zsk.Some?
  }

  /** A ZSK is due, no rollover runs, and everything a new one prepares succeeded. */
  predicate ReadyForZSK(cfg: Config, zone: Option<Zone>, now: Time, backupOK: bool, staged: Option<Key>) {
    && zone.Some? && CanStartZSK(zone.value) && zone.value.zskExpires <= now + cfg.rolloverPrepublish
    && backupOK && staged.Some?
  }

  class RolloverManager {
    const cfg: Config
    var zone: Option<Zone>

    constructor (cfg: Config, zone: Option<Zone>)
      ensures this.cfg == cfg && this.zone == zone
    {
      this.cfg, this.zone := cfg, zone;
    }

    /** Starts a KSK rollover; a save that did not happen leaves the old keys live and recorded. */
    method StartKSKRollover(now: Time, backupOK: bool, staged: Option<Key>, save: SaveResult, activated: bool)
      returns (ok: bool)
      modifies this
      ensures old(zone).Some? && CanStartKSK(old(zone).value) && backupOK && staged.Some? && !save.NotSaved?
              ==> zone == Some(StartKSK(old(zone).value, staged.value, now)) && ok == activated
      ensures !(old(zone).Some? && CanStartKSK(old(zone).value) && backupOK && staged.Some?) ==>
          zone == old(zone) && !ok
      ensures old(zone).Some? && CanStartKSK(old(zone).value) && backupOK && staged.Some? && save.NotSaved?
              ==> zone == Some(old(zone).value.(forceResign := false)) && !ok
    {
      if zone.None? { return false; }
      var z := zone.value;
      if z.rollover.Some? { return false; }
      var oldKSK := z.ksk;
      if oldKSK.None? { return false; }
      if !backupOK { return false; }
      if staged.None? { return false; }
      z := z.(rollover := Some(NewRollover(KSKRoll, DSAddWait, oldKSK.value, staged.value, staged.value, staged.value,
          now)));
      z := z.(ksk := staged, forceResign := true);
      zone := Some(z);
      if save.NotSaved? {
        zone := Some(z.(ksk := oldKSK, rollover := None, forceResign := false));
        return false;
      }
      ok := activated;
    }

    /** Starts an algorithm rollover with both new keys in one record. */
    method StartAlgorithmRollover(now: Time, target: nat, backupOK: bool, stagedKSK: Option<Key>,
        stagedZSK: Option<Key>, save: SaveResult, activated: bool)
      returns (ok: bool)
      modifies this
      ensures var goes := ReadyForAlgorithm(old(zone), target, backupOK, stagedKSK, stagedZSK);
        && (goes && !save.NotSaved? ==>
              zone == Some(StartAlgorithm(old(zone).value, stagedKSK.value, stagedZSK.value, now)) && ok == activated)
        && (goes && save.NotSaved? ==> zone == Some(old(zone).value.(forceResign := false)) && !ok)
        && (!goes ==> zone == old(zone) && !ok)
    {
      if zone.None? { return false; }
      var z := zone.value;
      if z.rollover.Some? || z.ksk.None? || z.zsk.None? { return false; }
      if z.ksk.value.alg == target { return false; }
      var oldKSK, oldZSK := z.ksk, z.zsk;
      if !backupOK || stagedKSK.None? || stagedZSK.None? { return false; }
      z := z.(rollover := Some(NewRollover(AlgorithmRoll, DSAddWait, oldKSK.value, stagedKSK.value, oldZSK.value,
          stagedZSK.value, now)));
      z := z.(ksk := stagedKSK, zsk := stagedZSK, forceResign := true);
      zone := Some(z);
      if save.NotSaved? {
        zone := Some(z.(ksk := oldKSK, zsk := oldZSK, rollover := None, forceResign := false));
        return false;
      }
      ok := activated;
    }

    /** Records, at most once per rollover, when the parent's DS set may change. */
    method StampPropagation(saved: bool) returns (ok: bool)
      requires zone.Some?
      modifies this
      ensures zone == Some(StampNewKeyPropagation(cfg, old(zone).value))
      ensures ok == (NeedsStamp(old(zone).value) ==> saved)
    {
      var z := zone.value;
      if z.rollover.None? { return true; }
      var r := z.rollover.value;
      if r.kind.ZSKRoll? || r.phaseHorizon != 0 || !PublishedSince(z, r.started) { return true; }
      var floor := if r.kind.AlgorithmRoll? then ZskRetireFloor(cfg, z) else DnskeyTTLFloor(cfg, z);
      var horizon := z.publishedAt + floor;
      if z.dnskeyHorizon > horizon { horizon := z.dnskeyHorizon; }
      if r.kind.AlgorithmRoll? && z.rrsigHorizon > horizon { horizon := z.rrsigHorizon; }
      r := r.(phaseFirstSigned := z.publishedAt, phaseHorizon := horizon);
      zone := Some(z.(rollover := Some(r)));
      ok := saved;
    }

    /** Asks the registrar for the new-only DS set once the new keys have propagated. */
    method PushRemoval(now: Time, reply: Reply, saved: bool) returns (settled: bool, ok: bool)
      requires zone.Some?
      modifies this
      ensures zone.Some? && (settled, zone.value) == PushOldDSRemoval(cfg, old(zone).value, now, reply)
      ensures ok == (PushRecorded(cfg, old(zone).value, now, reply) ==> saved)
    {
      var z := zone.value;
      if !cfg.publisherInstalled || z.rollover.None? { return true, true; }
      var r := z.rollover.value;
      if r.dsRemovalPushedAt != 0 { return true, true; }
      if !NewKeysPropagated(z, now) { return false, true; }
      match reply {
        case Failed => return false, true;
        case NoAutomation => return true, true;
        case Published =>
          zone := Some(z.(rollover := Some(r.(dsRemovalPushedAt := now))));
          settled, ok := true, saved;
      }
    }

    /** Enters the DS propagation wait of a KSK or algorithm rollover. */
    method Complete(kind: RolloverKind, now: Time, observedAt: Time, parentDSTTL: nat, stampSaved: bool)
      returns (ok: bool)
      modifies this
      ensures old(zone).Some? && CanComplete(old(zone).value, kind)
              ==> zone == Some(CompleteRollover(cfg, old(zone).value, observedAt, parentDSTTL, now, stampSaved))
      ensures !(old(zone).Some? && CanComplete(old(zone).value, kind)) ==> zone == old(zone) && !ok
    {
      if zone.None? || zone.value.rollover.None? { return false; }
      var r := zone.value.rollover.value;
      if r.kind != kind || !r.phase.DSAddWait? { return false; }
      var ttl := parentDSTTL;
      if ttl == 0 { ttl := cfg.parentDSTTLFallback; }
      var stamped := StampPropagation(stampSaved);
      if !stamped { return false; }
      var z := zone.value;
      r := z.rollover.value.(phase := DSPropagation, dsObservedAt := observedAt);
      r := r.(parentDSTTL := ttl, phaseStarted := now);
      zone := Some(z.(rollover := Some(r)));
      ok := true;
    }

    method CheckKSKRollover(now: Time, pushAt: Time, reply: Reply, saves: Saves) returns (ok: bool)
      modifies this
      ensures old(zone).None? ==> zone.None?
      ensures old(zone).Some? ==> zone == Some(CheckKSK(cfg, old(zone).value, now, pushAt, reply, saves))
    {
      if zone.None? || zone.value.rollover.None? || !zone.value.rollover.value.kind.KSKRoll? { return true; }
      ok := StampPropagation(saves.stamp);
      if !ok { return; }
      var r := zone.value.rollover.value;
      if r.phase.DSPropagation? {
        var settled;
        settled, ok := PushRemoval(pushAt, reply, saves.push);
        if !ok { return; }
        r := zone.value.rollover.value;
        if now < r.dsObservedAt + EffectiveParentDSTTL(r.parentDSTTL) { return; }
        zone := Some(zone.value.(rollover := Some(r.(phase := Retiring, phaseStarted := now)), forceResign := true));
      } else if r.phase.Retiring? {
        var settled;
        settled, ok := PushRemoval(pushAt, reply, saves.push);
        if !ok || !PublishedSince(zone.value, r.phaseStarted) || !settled { return; }
        zone := Some(zone.value.(rollover := None));
      }
    }

    method CheckAlgorithmRollover(now: Time, pushAt: Time, reply: Reply, probe: Probe, saves: Saves) returns (ok: bool)
      modifies this
      ensures old(zone).None? ==> zone.None?
      ensures old(zone).Some? ==> zone == Some(CheckAlgorithm(cfg, old(zone).value, now, pushAt, reply, probe, saves))
    {
      if zone.None? || zone.value.rollover.None? || !zone.value.rollover.value.kind.AlgorithmRoll? { return true; }
      ok := StampPropagation(saves.stamp);
      if !ok { return; }
      var z := zone.value;
      var r := z.rollover.value;
      match r.phase {
        case DSAddWait =>
          if NewKeysPropagated(z, now) && r.dsAddPushedAt == 0 && cfg.publisherInstalled && reply.Published? {
            zone := Some(z.(rollover := Some(r.(dsAddPushedAt := now))));
          }
        case DSPropagation =>
          if now < r.dsObservedAt + EffectiveParentDSTTL(r.parentDSTTL) { return; }
          zone := Some(z.(rollover := Some(r.(phase := OldDSRemoval, phaseStarted := now))));
          if !saves.phase { return false; }
          var settled;
          settled, ok := PushRemoval(pushAt, reply, saves.push);
        case OldDSRemoval =>
          if r.oldDSRemovedAt == 0 {
            var settled;
            settled, ok := PushRemoval(pushAt, reply, saves.push);
            if !ok || !probe.Observed? || !probe.absent { return; }
            r := zone.value.rollover.value;
            var ttlSeen := if probe.ttl == 0 then r.parentDSTTL else probe.ttl;
            r := r.(oldDSRemovedAt := now);
            if ttlSeen > r.parentDSTTL { r := r.(parentDSTTL := ttlSeen); }
            zone := Some(zone.value.(rollover := Some(r)));
            return;
          }
          if now < r.oldDSRemovedAt + EffectiveParentDSTTL(r.parentDSTTL) { return; }
          zone := Some(z.(rollover := Some(r.(phase := Retiring, phaseStarted := now)), forceResign := true));
        case Retiring =>
          if !PublishedSince(z, r.phaseStarted) { return; }
          zone := Some(z.(rollover := None));
        case _ =>
      }
    }

    /** Starts a due ZSK rollover, or advances the one in progress. */
    method CheckZSKRollover(now: Time, backupOK: bool, staged: Option<Key>, liveKeyOK: bool, save: SaveResult,
        saves: Saves) returns (ok: bool)
      modifies this
      ensures old(zone).Some? && old(zone).value.zsk.Some? && InKind(old(zone).value, ZSKRoll)
              ==> zone == Some(HandleZSK(cfg, old(zone).value, now, liveKeyOK, saves))
      ensures ReadyForZSK(cfg, old(zone), now, backupOK, staged) ==>
        zone == Some(if save.NotSaved? then old(zone).value.(forceResign := false)
                     else StartZSK(old(zone).value, staged.value, now))
      ensures !ReadyForZSK(cfg, old(zone), now, backupOK, staged) ==>
        zone == old(zone) || (old(zone).Some? && old(zone).value.zsk.Some? && InKind(old(zone).value, ZSKRoll))
    {
      if zone.None? || zone.value.zsk.None? { return true; }
      var z := zone.value;
      if z.rollover.Some? && z.rollover.value.kind.ZSKRoll? {
        ok := AdvanceZSK(now, liveKeyOK, saves);
        return;
      }
      if z.rollover.Some? || z.zskExpires > now + cfg.rolloverPrepublish { return true; }
      if !backupOK || staged.None? { return false; }
      zone := Some(z.(rollover := Some(NewRollover(ZSKRoll, PrePublish, z.zsk.value, staged.value, staged.value,
          staged.value, now)), forceResign := true));
      if save.NotSaved? {
        zone := Some(zone.value.(rollover := None, forceResign := false));
        return false;
      }
      ok := true;
    }

    method AdvanceZSK(now: Time, liveKeyOK: bool, saves: Saves) returns (ok: bool)
      requires zone.Some? && InKind(zone.value, ZSKRoll)
      modifies this
      ensures zone == Some(HandleZSK(cfg, old(zone).value, now, liveKeyOK, saves))
    {
      ok := true;
      var z := zone.value;
      var r := z.rollover.value;
      if r.phase.PrePublish? {
        if now < r.started + cfg.rolloverSwitch || !PublishedSince(z, r.started) { return; }
        if r.phaseFirstSigned == 0 {
          var horizon := z.publishedAt + DnskeyTTLFloor(cfg, z);
          if z.dnskeyHorizon > horizon { horizon := z.dnskeyHorizon; }
          zone := Some(z.(rollover := Some(r.(phaseFirstSigned := z.publishedAt, phaseHorizon := horizon))));
          if !saves.stamp { return false; }
        }
        if now < zone.value.rollover.value.phaseHorizon { return; }
        if !liveKeyOK { return false; }
        r := r.(phase := Signing, phaseStarted := now, phaseFirstSigned := 0, phaseHorizon := 0);
        zone := Some(z.(rollover := Some(r), zsk := Some(r.newKey), zskExpires := r.started + cfg.zskLifetime,
            forceResign := true));
      } else if r.phase.Signing? {
        var start := r.phaseStarted;
        if start == 0 { start := r.started; }
        if now < start + SigningDwell(cfg) || !PublishedSince(z, start) { return; }
        if r.phaseFirstSigned == 0 {
          var horizon := z.publishedAt + ZskRetireFloor(cfg, z);
          if z.dnskeyHorizon > horizon { horizon := z.dnskeyHorizon; }
          if z.rrsigHorizon > horizon { horizon := z.rrsigHorizon; }
          zone := Some(z.(rollover := Some(r.(phaseFirstSigned := z.publishedAt, phaseHorizon := horizon))));
          if !saves.stamp { return false; }
        }
        if now < zone.value.rollover.value.phaseHorizon { return; }
        zone := Some(z.(rollover := None, forceResign := true));
      }
    }
  }
}
