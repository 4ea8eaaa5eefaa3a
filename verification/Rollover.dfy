/** Time, keys and the per-zone record the rollover manager steps. */
module ZoneTypes {
  import opened Common

  /** Instants in nanoseconds. 0 is the zero time of the state file, so a running clock is positive. */
  type Time = nat

  const SECOND: nat := 1_000_000_000
  const DEFAULT_PARENT_DS_TTL: nat := 86400 * SECOND
  const DEFAULT_FLOOR: nat := 86400 * SECOND

  /** A key generation: its 16-bit key tag and its algorithm number. */
  datatype Key = Key(tag: nat, alg: nat)

  datatype RolloverKind = KSKRoll | ZSKRoll | AlgorithmRoll
  datatype Phase = DSAddWait | DSPropagation | OldDSRemoval | Retiring | PrePublish | Signing

  datatype Rollover = Rollover(
    kind: RolloverKind,
    phase: Phase,
    oldKey: Key,
    newKey: Key,
    oldZSK: Key,
    newZSK: Key,
    started: Time,
    phaseStarted: Time,
    phaseFirstSigned: Time,
    phaseHorizon: Time,
    dsObservedAt: Time,
    parentDSTTL: nat,
    oldDSRemovedAt: Time,
    dsRemovalPushedAt: Time,
    dsAddPushedAt: Time)

  datatype Zone = Zone(
    ksk: Option<Key>,
    zsk: Option<Key>,
    zskExpires: Time,
    rollover: Option<Rollover>,
    forceResign: bool,
    lastSigned: Time,
    publishedDNSKEYTTL: nat,
    publishedMaxRRSIGTTL: nat,
    pendingPublication: bool,
    publishedAt: Time,
    publishedGenSignedAt: Time,
    servedDNSKEYTTL: nat,
    servedMaxRRSIGTTL: nat,
    dnskeyHorizon: Time,
    rrsigHorizon: Time)

  datatype Config = Config(
    dnskeyTTL: nat,
    rolloverSwitch: nat,
    rolloverPrepublish: nat,
    parentDSTTLFallback: nat,
    zskLifetime: nat,
    publisherInstalled: bool)

  function Seconds(ttl: nat): nat { ttl * SECOND }

  function Later(a: Time, b: Time): Time { if b > a then b else a }

  /** A generation signed strictly after t has been confirmed served. */
  predicate PublishedSince(z: Zone, t: Time) { z.publishedGenSignedAt > t }

  /** A persisted zero means "unrecorded" and waits the conservative default. */
  function EffectiveParentDSTTL(ttl: nat): nat {
    if ttl == 0 then DEFAULT_PARENT_DS_TTL else Seconds(ttl)
  }

  /** The confirmation bookkeeping of one zone. */
  function ConfirmPublication(z: Zone, signedAt: Time, now: Time): Zone {
    if signedAt < z.publishedGenSignedAt then z else
    var prevDNSKEY := if z.servedDNSKEYTTL == 0 then z.publishedDNSKEYTTL else z.servedDNSKEYTTL;
    var prevRRSIG := if z.servedMaxRRSIGTTL == 0 then z.publishedMaxRRSIGTTL else z.servedMaxRRSIGTTL;
    z.(dnskeyHorizon := Later(z.dnskeyHorizon, now + Seconds(prevDNSKEY)),
       rrsigHorizon := Later(z.rrsigHorizon, now + Seconds(prevRRSIG)),
       servedDNSKEYTTL := z.publishedDNSKEYTTL,
       servedMaxRRSIGTTL := z.publishedMaxRRSIGTTL,
       publishedAt := now,
       publishedGenSignedAt := signedAt,
       pendingPublication := if z.lastSigned > signedAt then z.pendingPublication else false)
  }

  /** What a completed signing at `now` records; immediate mode treats the write as served. */
  function RecordSigned(z: Zone, now: Time, dnskeyTTL: nat, maxRRSIGTTL: nat, immediate: bool): Zone {
    var z1 := z.(lastSigned := now, forceResign := false,
                 publishedDNSKEYTTL := dnskeyTTL, publishedMaxRRSIGTTL := maxRRSIGTTL);
    if immediate then ConfirmPublication(z1, now, now) else z1.(pendingPublication := true)
  }
}

/** The rollover state machines as transitions of the zone record. */
module RolloverRules {
  import opened Common
  import opened ZoneTypes

  /** The registrar automation's answer to one DS update request. */
  datatype Reply = NoAutomation | Published | Failed

  /** What the parent-DS probe reported for the old KSK. */
  datatype Probe = NoProbe | ProbeFailed | Observed(absent: bool, ttl: nat)

  /** Whether the saves inside one check reached the disk. */
  datatype Saves = Saves(stamp: bool, push: bool, phase: bool)

  // ---------------------------------------------------------------- floors

  function DnskeyTTLFloor(cfg: Config, z: Zone): nat {
    var ttl := Later(Seconds(z.publishedDNSKEYTTL), Seconds(cfg.dnskeyTTL));
    if ttl == 0 then DEFAULT_FLOOR else ttl
  }

  function ZskRetireFloor(cfg: Config, z: Zone): nat {
    Later(DnskeyTTLFloor(cfg, z), Seconds(z.publishedMaxRRSIGTTL))
  }

  // ---------------------------------------------------------------- propagation of the new keys

  predicate NeedsStamp(z: Zone) {
    && z.rollover.Some?
    && !z.rollover.value.kind.ZSKRoll?
    && z.rollover.value.phaseHorizon == 0
    && PublishedSince(z, z.rollover.value.started)
  }

  /** Fixes, once per KSK or algorithm rollover, the instant the parent's DS set may change from. */
  function StampNewKeyPropagation(cfg: Config, z: Zone): Zone {
    if !NeedsStamp(z) then z else
    var r := z.rollover.value;
    var floor := if r.kind.AlgorithmRoll? then ZskRetireFloor(cfg, z) else DnskeyTTLFloor(cfg, z);
    var h1 := Later(z.publishedAt + floor, z.dnskeyHorizon);
    var h2 := if r.kind.AlgorithmRoll? then Later(h1, z.rrsigHorizon) else h1;
    z.(rollover := Some(r.(phaseFirstSigned := z.publishedAt, phaseHorizon := h2)))
  }

  predicate NewKeysPropagated(z: Zone, now: Time) {
    && z.rollover.Some?
    && PublishedSince(z, z.rollover.value.started)
    && z.rollover.value.phaseHorizon != 0
    && now >= z.rollover.value.phaseHorizon
  }

  // ---------------------------------------------------------------- starts

  function NewRollover(kind: RolloverKind, phase: Phase, oldKey: Key, newKey: Key, oldZSK: Key, newZSK: Key,
      now: Time): Rollover {
    Rollover(kind, phase, oldKey, newKey, oldZSK, newZSK, now, 0, 0, 0, 0, 0, 0, 0, 0)
  }

  predicate CanStartKSK(z: Zone) { z.rollover.None? && z.ksk.Some? }

  function StartKSK(z: Zone, k: Key, now: Time): Zone
    requires CanStartKSK(z)
  {
    z.(rollover := Some(NewRollover(KSKRoll, DSAddWait, z.ksk.value, k, k, k, now)),
       ksk := Some(k), forceResign := true)
  }

  predicate CanStartZSK(z: Zone) { z.rollover.None? && z.zsk.Some? }

  /** The record keeps naming the old ZSK: it goes on signing while the new one is pre-published. */
  function StartZSK(z: Zone, k: Key, now: Time): Zone
    requires CanStartZSK(z)
  {
    z.(rollover := Some(NewRollover(ZSKRoll, PrePublish, z.zsk.value, k, k, k, now)), forceResign := true)
  }

  predicate CanStartAlgorithm(z: Zone, target: nat) {
    z.rollover.None? && z.ksk.Some? && z.zsk.Some? && z.ksk.value.alg != target
  }

  function StartAlgorithm(z: Zone, k: Key, zk: Key, now: Time): Zone
    requires z.rollover.None? && z.ksk.Some? && z.zsk.Some?
  {
    z.(rollover := Some(NewRollover(AlgorithmRoll, DSAddWait, z.ksk.value, k, z.zsk.value, zk, now)),
       ksk := Some(k), zsk := Some(zk), forceResign := true)
  }

  // ---------------------------------------------------------------- completion by the operator

  predicate CanComplete(z: Zone, kind: RolloverKind) {
    z.rollover.Some? && z.rollover.value.kind == kind && z.rollover.value.phase.DSAddWait?
  }

  /** Both KSK and algorithm completion: the new DS was seen at every parent server at observedAt. */
  function CompleteRollover(cfg: Config, z: Zone, observedAt: Time, ttl: nat, now: Time, stampSaved: bool): Zone
    requires z.rollover.Some?
  {
    var z1 := StampNewKeyPropagation(cfg, z);
    if NeedsStamp(z) && !stampSaved then z1 else
    var r := z1.rollover.value;
    z1.(rollover := Some(r.(phase := DSPropagation, dsObservedAt := observedAt,
                            parentDSTTL := if ttl == 0 then cfg.parentDSTTLFallback else ttl,
                            phaseStarted := now)))
  }

  // ---------------------------------------------------------------- registrar automation

  /** The registrar is asked for the new-only set exactly when this holds. */
  predicate PushAttempted(cfg: Config, z: Zone, now: Time) {
    && cfg.publisherInstalled
    && z.rollover.Some?
    && z.rollover.value.dsRemovalPushedAt == 0
    && NewKeysPropagated(z, now)
  }

  predicate PushRecorded(cfg: Config, z: Zone, now: Time, reply: Reply) {
    PushAttempted(cfg, z, now) && reply.Published? }

  /** Whether nothing more is owed to the parent, and the zone after the attempt. */
  function PushOldDSRemoval(cfg: Config, z: Zone, now: Time, reply: Reply): (bool, Zone) {
    if !cfg.publisherInstalled || z.rollover.None? || z.rollover.value.dsRemovalPushedAt != 0 then (true, z)
    else if !PushAttempted(cfg, z, now) || reply.Failed? then (false, z)
    else if reply.NoAutomation? then (true, z)
    else (true, z.(rollover := Some(z.rollover.value.(dsRemovalPushedAt := now))))
  }

  // ---------------------------------------------------------------- periodic checks

  predicate InKind(z: Zone, kind: RolloverKind) { z.rollover.Some? && z.rollover.value.kind == kind }

  /** One KSK check; the registrar update reads the clock again, at `pushAt`. */
  function CheckKSK(cfg: Config, z: Zone, now: Time, pushAt: Time, reply: Reply, saves: Saves): Zone {
    if !InKind(z, KSKRoll) then z else
    var z1 := StampNewKeyPropagation(cfg, z);
    if NeedsStamp(z) && !saves.stamp then z1 else
    var (settled, z2) := PushOldDSRemoval(cfg, z1, pushAt, reply);
    var r := z2.rollover.value;
    match r.phase
    case DSPropagation =>
      if PushRecorded(cfg, z1, pushAt, reply) && !saves.push then z2
      else if now < r.dsObservedAt + EffectiveParentDSTTL(r.parentDSTTL) then z2
      else z2.(rollover := Some(r.(phase := Retiring, phaseStarted := now)), forceResign := true)
    case Retiring =>
      if PushRecorded(cfg, z1, pushAt, reply) && !saves.push then z2
      else if !PublishedSince(z2, r.phaseStarted) || !settled then z2
      else z2.(rollover := None)
    case _ => z1
  }

  /** The horizon a ZSK phase waits out, fixed at the first check that sees the phase served. */
  function StampZSKPhase(z: Zone, floor: nat, horizon: Time): Zone
    requires z.rollover.Some?
  {
    var r := z.rollover.value;
    if r.phaseFirstSigned != 0 then z else
    z.(rollover := Some(r.(phaseFirstSigned := z.publishedAt, phaseHorizon := Later(z.publishedAt + floor, horizon))))
  }

  function SigningDwell(cfg: Config): nat {
    if cfg.rolloverPrepublish <= cfg.rolloverSwitch then cfg.rolloverSwitch
    else cfg.rolloverPrepublish - cfg.rolloverSwitch
  }

  function SigningPhaseStart(r: Rollover): Time { if r.phaseStarted == 0 then r.started else r.phaseStarted }

  function HandleZSK(cfg: Config, z: Zone, now: Time, liveKeyOK: bool, saves: Saves): Zone
    requires InKind(z, ZSKRoll)
  {
    var r := z.rollover.value;
    match r.phase
    case PrePublish =>
      if now < r.started + cfg.rolloverSwitch || !PublishedSince(z, r.started) then z else
      var z1 := StampZSKPhase(z, DnskeyTTLFloor(cfg, z), z.dnskeyHorizon);
      if r.phaseFirstSigned == 0 && !saves.stamp then z1
      else if now < z1.rollover.value.phaseHorizon || !liveKeyOK then z1
      else z1.(rollover := Some(r.(phase := Signing, phaseStarted := now, phaseFirstSigned := 0, phaseHorizon := 0)),
               zsk := Some(r.newKey), zskExpires := r.started + cfg.zskLifetime, forceResign := true)
    case Signing =>
      var start := SigningPhaseStart(r);
      if now < start + SigningDwell(cfg) || !PublishedSince(z, start) then z else
      var z1 := StampZSKPhase(z, ZskRetireFloor(cfg, z), Later(z.dnskeyHorizon, z.rrsigHorizon));
      if r.phaseFirstSigned == 0 && !saves.stamp then z1
      else if now < z1.rollover.value.phaseHorizon then z1
      else z1.(rollover := None, forceResign := true)
    case _ => z
  }

  function AlgorithmDSAdd(cfg: Config, z: Zone, now: Time, reply: Reply): Zone
    requires z.rollover.Some?
  {
    if AddAttempted(cfg, z, now) && reply.Published?
    then z.(rollover := Some(z.rollover.value.(dsAddPushedAt := now))) else z
  }

  /** The registrar is asked to add the new algorithm's DS exactly when this holds. */
  predicate AddAttempted(cfg: Config, z: Zone, now: Time) {
    && cfg.publisherInstalled
    && z.rollover.Some?
    && z.rollover.value.dsAddPushedAt == 0
    && NewKeysPropagated(z, now)
  }

  function OldDSGone(r: Rollover, ttlSeen: nat, now: Time): Rollover {
    r.(oldDSRemovedAt := now, parentDSTTL := if ttlSeen > r.parentDSTTL then ttlSeen else r.parentDSTTL)
  }

  /** One algorithm check; the phases and the recorded instants use the reading at its start. */
  function CheckAlgorithm(cfg: Config, z: Zone, now: Time, pushAt: Time, reply: Reply, probe: Probe,
      saves: Saves): Zone {
    if !InKind(z, AlgorithmRoll) then z else
    var z1 := StampNewKeyPropagation(cfg, z);
    if NeedsStamp(z) && !saves.stamp then z1 else
    var r := z1.rollover.value;
    match r.phase
    case DSAddWait => AlgorithmDSAdd(cfg, z1, now, reply)
    case DSPropagation =>
      if now < r.dsObservedAt + EffectiveParentDSTTL(r.parentDSTTL) then z1 else
      var z2 := z1.(rollover := Some(r.(phase := OldDSRemoval, phaseStarted := now)));
      if !saves.phase then z2 else PushOldDSRemoval(cfg, z2, pushAt, reply).1
    case OldDSRemoval =>
      if r.oldDSRemovedAt == 0 then
        var z2 := PushOldDSRemoval(cfg, z1, pushAt, reply).1;
        if (PushRecorded(cfg, z1, pushAt, reply) && !saves.push) || !probe.Observed? || !probe.absent then z2
        else z2.(rollover := Some(OldDSGone(z2.rollover.value, probe.ttl, now)))
      else if now < r.oldDSRemovedAt + EffectiveParentDSTTL(r.parentDSTTL) then z1
      else z1.(rollover := Some(r.(phase := Retiring, phaseStarted := now)), forceResign := true)
    case Retiring => if PublishedSince(z1, r.phaseStarted) then z1.(rollover := None) else z1
    case _ => z1
  }

  // ---------------------------------------------------------------- persisted records

  const MAX_DNS_TTL: nat := 0x7fff_ffff

  /** What a persisted rollover record must say about the zone's live keys; anything else is refused on load. */
  predicate ValidRollover(ksk: Option<Key>, zsk: Option<Key>, r: Rollover) {
    && r.parentDSTTL <= MAX_DNS_TTL
    && match r.kind
       case KSKRoll =>
         && (r.phase.DSAddWait? || r.phase.DSPropagation? || r.phase.Retiring?)
         && r.oldKey.tag != r.newKey.tag && ksk.Some? && ksk.value.tag == r.newKey.tag
       case ZSKRoll =>
         && (r.phase.PrePublish? || r.phase.Signing?)
         && r.oldKey.tag != r.newKey.tag && zsk.Some?
         && zsk.value.tag == (if r.phase.PrePublish? then r.oldKey.tag else r.newKey.tag)
       case AlgorithmRoll =>
         && (r.phase.DSAddWait? || r.phase.DSPropagation? || r.phase.OldDSRemoval? || r.phase.Retiring?)
         && r.oldKey.tag != r.newKey.tag && r.oldZSK.tag != r.newZSK.tag && r.oldKey.alg != r.newKey.alg
         && ksk.Some? && zsk.Some? && ksk.value.tag == r.newKey.tag && zsk.value.tag == r.newZSK.tag
  }

  // ---------------------------------------------------------------- the DS set of a phase

  /** The propagation test the registrar side applies: the record alone, without the zone. */
  predicate NewKeysPropagatedBy(r: Rollover, now: Time) {
    !r.kind.ZSKRoll? && r.phaseHorizon != 0 && now >= r.phaseHorizon
  }

  predicate IncludesOldDS(r: Option<Rollover>, now: Time) {
    && r.Some?
    && match r.value.kind
       case KSKRoll => r.value.phase.DSAddWait? || !NewKeysPropagatedBy(r.value, now)
       case AlgorithmRoll => r.value.phase.DSAddWait? || r.value.phase.DSPropagation? ||
           !NewKeysPropagatedBy(r.value, now)
       case ZSKRoll => false
  }

  function BuildDSSet(z: Zone, now: Time): set<Key>
    requires z.ksk.Some?
  {
    {z.ksk.value} + if IncludesOldDS(z.rollover, now) then {z.rollover.value.oldKey} else {}
  }

  // ---------------------------------------------------------------- the keys of a phase

  /** The KSKs in the DNSKEY RRset; each of them signs that RRset. */
  function PhaseKSKs(z: Zone): set<Key>
    requires z.ksk.Some?
  {
    {z.ksk.value} +
    if z.rollover.None? then {} else
    var r := z.rollover.value;
    if (r.kind.KSKRoll? && (r.phase.DSAddWait? || r.phase.DSPropagation?)) ||
        (r.kind.AlgorithmRoll? && !r.phase.Retiring?)
    then {r.oldKey} else {}
  }

  /** The ZSKs in the DNSKEY RRset. */
  function PhaseZSKs(z: Zone): set<Key>
    requires z.zsk.Some?
  {
    {z.zsk.value} +
    if z.rollover.None? then {} else
    var r := z.rollover.value;
    if r.kind.ZSKRoll? && r.phase.PrePublish? then {r.newKey}
    else if r.kind.ZSKRoll? && r.phase.Signing? then {r.oldKey}
    else if r.kind.AlgorithmRoll? && !r.phase.Retiring? then {r.oldZSK}
    else {}
  }

  /** The ZSKs whose signatures cover every RRset but the DNSKEY RRset. */
  function PhaseSigners(z: Zone): set<Key>
    requires z.zsk.Some?
  {
    {z.zsk.value} +
    if z.rollover.Some? && z.rollover.value.kind.AlgorithmRoll? && !z.rollover.value.phase.Retiring?
    then {z.rollover.value.oldZSK} else {}
  }
}
