/** Recording hook completions: which of them may confirm a publication. */
module HookResults {
  import opened Common
  import opened ZoneTypes

  /** What a hook deployed: captured when it was launched. */
  datatype Deployed = Deployed(domain: string, signedPath: string, signedAt: Time, serial: nat)

  /** A zone record with its published serial and whether it shows a deployment error. */
  datatype Managed = Managed(zone: Zone, serial: nat, deploymentFailed: bool)

  /** The deployed generation is still the zone's current signing under the same output path. */
  predicate Current(d: Deployed, configured: map<string, string>, zones: map<string, Managed>) {
    && d.domain in zones && d.domain in configured
    && configured[d.domain] == d.signedPath
    && zones[d.domain].zone.lastSigned == d.signedAt
    && zones[d.domain].serial == d.serial
  }

  /** A completion's effect on a zone it is current for. */
  function Recorded(m: Managed, failed: bool, confirms: bool, now: Time): Managed {
    if failed then m.(deploymentFailed := true)
    else if confirms && m.zone.pendingPublication && m.zone.lastSigned != 0
    then m.(deploymentFailed := false, zone := ConfirmPublication(m.zone, m.zone.lastSigned, now))
    else m.(deploymentFailed := false)
  }

  ghost predicate SomeCurrent(deployed: seq<Deployed>, domain: string, configured: map<string, string>,
      zones: map<string, Managed>) {
    exists d <- deployed :: d.domain == domain && Current(d, configured, zones)
  }

  /** What every zone shows after the completion: zones with no current deployment are untouched. */
  ghost function AllRecorded(zones: map<string, Managed>, deployed: seq<Deployed>, configured: map<string, string>,
                             failed: bool, confirms: bool, now: Time): map<string, Managed> {
    map n | n in zones ::
      if SomeCurrent(deployed, n, configured, zones) then Recorded(zones[n], failed, confirms, now) else zones[n]
  }

  /** Recording twice at one instant is recording once: a confirmed zone is no longer pending. */
  lemma RecordedOnce(m: Managed, failed: bool, confirms: bool, now: Time)
    requires m.zone.publishedGenSignedAt <= m.zone.lastSigned
    ensures Recorded(Recorded(m, failed, confirms, now), failed, confirms, now) == Recorded(m, failed, confirms, now)
    ensures Recorded(m, failed, confirms, now).zone.lastSigned == m.zone.lastSigned
    ensures Recorded(m, failed, confirms, now).zone.publishedGenSignedAt <= m.zone.lastSigned
    ensures Recorded(m, failed, confirms, now).serial == m.serial
  {
  }

  /** One more deployment in the loop over a completion's zones. */
  lemma RecordStep(zones: map<string, Managed>, deployed: seq<Deployed>, i: nat, configured: map<string, string>,
                   failed: bool, confirms: bool, now: Time)
    requires i < |deployed|
    requires forall n <- zones :: zones[n].zone.publishedGenSignedAt <= zones[n].zone.lastSigned
    ensures var d := deployed[i];
      var before := AllRecorded(zones, deployed[..i], configured, failed, confirms, now);
      && (Current(d, configured, before) <==> Current(d, configured, zones))
      && AllRecorded(zones, deployed[..i + 1], configured, failed, confirms, now)
         == if Current(d, configured, before) then before[d.domain := Recorded(before[d.domain], failed, confirms, now)]
             else before
  {
    var d := deployed[i];
    assert deployed[..i + 1] == deployed[..i] + [d];
    forall n | n in zones
      ensures SomeCurrent(deployed[..i + 1], n, configured, zones)
        <==> SomeCurrent(deployed[..i], n, configured, zones) || (d.domain == n && Current(d, configured, zones))
    {
      if SomeCurrent(deployed[..i], n, configured, zones) {
        var e :| e in deployed[..i] && e.domain == n && Current(e, configured, zones);
        assert e in deployed[..i + 1];
      }
      if d.domain == n && Current(d, configured, zones) { assert d in deployed[..i + 1]; }
    }
    if d.domain in zones { RecordedOnce(zones[d.domain], failed, confirms, now); }
  }

  /** The daemon's active configuration generation, its configured outputs and its zone records. */
  class Daemon {
    var generation: nat
    var configured: map<string, string>
    var zones: map<string, Managed>

    ghost predicate Valid()
      reads this
    {
      forall n <- zones :: zones[n].zone.publishedGenSignedAt <= zones[n].zone.lastSigned
    }

    constructor (configured: map<string, string>, zones: map<string, Managed>)
      requires forall n <- zones :: zones[n].zone.publishedGenSignedAt <= zones[n].zone.lastSigned
      ensures Valid() && generation == 1 && this.configured == configured && this.zones == zones
    {
      this.generation, this.configured, this.zones := 1, configured, zones;
    }

    /** Swaps configuration and state and bumps the generation in one step. */
    method Reload(configured: map<string, string>, zones: map<string, Managed>)
      requires forall n <- zones :: zones[n].zone.publishedGenSignedAt <= zones[n].zone.lastSigned
      modifies this
      ensures Valid() && generation == old(generation) + 1
      ensures this.configured == configured && this.zones == zones
    {
      this.configured, this.zones := configured, zones;
      generation := generation + 1;
    }

    /** A completed signing; in immediate mode the write itself confirms it. */
    method Sign(domain: string, serial: nat, now: Time, dnskeyTTL: nat, maxRRSIGTTL: nat, immediate: bool)
      requires Valid() && domain in zones && zones[domain].zone.lastSigned <= now
      modifies this`zones
      ensures Valid()
      ensures zones == old(zones)[domain := Managed(RecordSigned(old(zones)[domain].zone, now, dnskeyTTL, maxRRSIGTTL,
          immediate),
                                                    serial, old(zones)[domain].deploymentFailed)]
    {
      var m := zones[domain];
      var z := m.zone.(lastSigned := now, forceResign := false, publishedDNSKEYTTL := dnskeyTTL, publishedMaxRRSIGTTL :=
          maxRRSIGTTL);
      if immediate { z := ConfirmPublication(z, now, now); } else { z := z.(pendingPublication := true); }
      zones := zones[domain := Managed(z, serial, m.deploymentFailed)];
    }

    /**
     * Records a completion launched under `launched`. Each zone ends as the simultaneous effect on all
     * zones says, so only a current, still pending signing under the active generation is confirmed.
     */
    method RecordHookResult(launched: nat, deployed: seq<Deployed>, failed: bool, confirms: bool, now: Time)
      requires Valid()
      modifies this`zones
      ensures Valid()
      ensures zones == if launched != generation then old(zones)
                       else AllRecorded(old(zones), deployed, configured, failed, confirms, now)
    {
      if launched != generation { return; }
      ghost var before := zones;
      assert AllRecorded(before, deployed[..0], configured, failed, confirms, now) == before;
      for i := 0 to |deployed|
        invariant zones == AllRecorded(before, deployed[..i], configured, failed, confirms, now)
      {
        hide AllRecorded;
        var d := deployed[i];
        RecordStep(before, deployed, i, configured, failed, confirms, now);
        if !(d.domain in zones && d.domain in configured) { continue; }
        var m := zones[d.domain];
        if configured[d.domain] != d.signedPath { continue; }
        if m.zone.lastSigned != d.signedAt || m.serial != d.serial { continue; }
        if failed {
          m := m.(deploymentFailed := true);
        } else {
          m := m.(deploymentFailed := false);
          if confirms && m.zone.pendingPublication && d.signedAt != 0 {
            m := m.(zone := ConfirmPublication(m.zone, d.signedAt, now));
          }
        }
        zones := zones[d.domain := m];
      }
      assert deployed[..|deployed|] == deployed;
      AllRecordedValid(before, deployed, failed, confirms, now);
    }

    lemma AllRecordedValid(before: map<string, Managed>, deployed: seq<Deployed>, failed: bool, confirms: bool,
        now: Time)
      requires forall n <- before :: before[n].zone.publishedGenSignedAt <= before[n].zone.lastSigned
      ensures var after := AllRecorded(before, deployed, configured, failed, confirms, now);
        forall n <- after :: after[n].zone.publishedGenSignedAt <= after[n].zone.lastSigned
    {
      forall n <- before ensures Recorded(before[n], failed, confirms,
          now).zone.publishedGenSignedAt <= before[n].zone.lastSigned {
        RecordedOnce(before[n], failed, confirms, now);
      }
    }
  }

  /**
   * A completion changes a zone's publication exactly when it succeeded, has the authority to confirm, and
   * deployed the zone's current, recorded and still pending signing; it then confirms that signing, and the
   * horizons never fall.
   */
  lemma OnlyCurrentSigningConfirmed(zones: map<string, Managed>, deployed: seq<Deployed>, configured: map<string,
      string>,
                                    failed: bool, confirms: bool, now: Time, n: string)
    requires n in zones && zones[n].zone.publishedGenSignedAt <= zones[n].zone.lastSigned
    ensures var after := AllRecorded(zones, deployed, configured, failed, confirms, now)[n].zone;
      var before := zones[n].zone;
      && (after != before <==>
          (&& !failed && confirms && before.pendingPublication && before.lastSigned != 0
           && SomeCurrent(deployed, n, configured, zones)))
      && (after != before ==>
          after.publishedGenSignedAt == before.lastSigned && after.publishedAt == now && !after.pendingPublication)
      && after.lastSigned == before.lastSigned
      && after.dnskeyHorizon >= before.dnskeyHorizon && after.rrsigHorizon >= before.rrsigHorizon
  {
    RecordedOnce(zones[n], failed, confirms, now);
  }
}
