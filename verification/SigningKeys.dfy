/** The keys of each rollover phase, signing with them, and the coverage the signer verifies. */
module SigningKeySets {
  import opened Common
  import opened CanonicalNames
  import opened ZoneData
  import opened ZoneTypes
  import opened RolloverRules

  /** A loaded key: what its file says, not what the record says. */
  datatype DnsKey = DnsKey(tag: nat, alg: nat, role: Role)

  /** The key directory as signing sees it: the live slot for a recorded tag, and the tag-named copies. */
  datatype KeyStore = KeyStore(live: map<(Role, nat), DnsKey>, byTag: map<(Role, nat), DnsKey>)

  /** Every load checks owner, role and tag before a key is used. */
  ghost predicate Checked(s: KeyStore) {
    && (forall r, t :: (r, t) in s.live ==> s.live[(r, t)].tag == t && s.live[(r, t)].role == r)
    && (forall r, t :: (r, t) in s.byTag ==> s.byTag[(r, t)].tag == t && s.byTag[(r, t)].role == r)
  }

  datatype KeySet = KeySet(dnskeys: seq<DnsKey>, ksks: seq<DnsKey>, zsks: seq<DnsKey>)

  /** The tags the live slots must hold; the pre-published ZSK is live while the old one signs. */
  function ExpectedLiveTags(z: Zone): Option<(nat, nat)> {
    if z.ksk.None? || z.zsk.None? then None
    else if z.rollover.Some? && z.rollover.value.kind.ZSKRoll? && z.rollover.value.phase.PrePublish?
    then Some((z.ksk.value.tag, z.rollover.value.newKey.tag))
    else Some((z.ksk.value.tag, z.zsk.value.tag))
  }

  predicate SignsWithOldKSK(r: Rollover) {
    (r.kind.KSKRoll? && (r.phase.DSAddWait? || r.phase.DSPropagation?)) || (r.kind.AlgorithmRoll? && !r.phase.Retiring?)
  }

  predicate Uniform(keys: seq<DnsKey>) { forall i, j :: 0 <= i < j < |keys| ==> keys[i].alg == keys[j].alg }

  /** Loads every key the phase publishes or signs with; any missing key is fatal. */
  method LoadKeysForSigning(z: Zone, s: KeyStore) returns (keys: Option<KeySet>)
    requires Checked(s)
    ensures keys == LoadedKeys(z, s)
  {
    var tags := ExpectedLiveTags(z);
    if tags.None? { return None; }
    if (KSKRole, tags.value.0) !in s.live || (ZSKRole, tags.value.1) !in s.live { return None; }
    var ksk, zsk := s.live[(KSKRole, tags.value.0)], s.live[(ZSKRole, tags.value.1)];
    var k := KeySet([ksk, zsk], [ksk], [zsk]);
    if z.rollover.Some? {
      var r := z.rollover.value;
      if r.kind.KSKRoll? && (r.phase.DSAddWait? || r.phase.DSPropagation?) {
        if (KSKRole, r.oldKey.tag) !in s.byTag { return None; }
        var prior := s.byTag[(KSKRole, r.oldKey.tag)];
        k := k.(dnskeys := k.dnskeys + [prior], ksks := k.ksks + [prior]);
      } else if r.kind.ZSKRoll? && r.phase.PrePublish? {
        if (ZSKRole, r.oldKey.tag) !in s.byTag { return None; }
        var prior := s.byTag[(ZSKRole, r.oldKey.tag)];
        k := k.(dnskeys := k.dnskeys + [prior], zsks := [prior]);
      } else if r.kind.ZSKRoll? && r.phase.Signing? {
        if (ZSKRole, r.oldKey.tag) !in s.byTag { return None; }
        k := k.(dnskeys := k.dnskeys + [s.byTag[(ZSKRole, r.oldKey.tag)]]);
      } else if r.kind.AlgorithmRoll? && !r.phase.Retiring? {
        if (KSKRole, r.oldKey.tag) !in s.byTag { return None; }
        var oldKSK := s.byTag[(KSKRole, r.oldKey.tag)];
        k := k.(dnskeys := k.dnskeys + [oldKSK], ksks := k.ksks + [oldKSK]);
        if (ZSKRole, r.oldZSK.tag) !in s.byTag { return None; }
        var oldZSK := s.byTag[(ZSKRole, r.oldZSK.tag)];
        k := k.(dnskeys := k.dnskeys + [oldZSK], zsks := k.zsks + [oldZSK]);
      }
    }
    assert Lookup(s.live, KSKRole, tags.value.0) + Lookup(s.live, ZSKRole, tags.value.1) == [ksk, zsk];
    assert k.dnskeys == [ksk, zsk] + OldKSKs(z, s) + OldZSKs(z, s) && k.ksks == [ksk] + OldKSKs(z, s);
    assert k.zsks == if InKind(z, ZSKRoll) && z.rollover.value.phase.PrePublish? then OldZSKs(z, s)
                     else if InKind(z, ZSKRoll) then [zsk] else [zsk] + OldZSKs(z, s);
    // No second algorithm outside an algorithm rollover.
    if !InKind(z, AlgorithmRoll) && !Uniform(k.dnskeys) { return None; }
    keys := Some(k);
  }

  function Lookup(m: map<(Role, nat), DnsKey>, r: Role, tag: nat): seq<DnsKey> {
    if (r, tag) in m then [m[(r, tag)]] else []
  }

  function OldKSKs(z: Zone, s: KeyStore): seq<DnsKey> {
    if z.rollover.Some? && SignsWithOldKSK(z.rollover.value) then Lookup(s.byTag, KSKRole, z.rollover.value.oldKey.tag)
        else []
  }

  function OldZSKs(z: Zone, s: KeyStore): seq<DnsKey> {
    if z.rollover.None? then [] else
    var r := z.rollover.value;
    if r.kind.ZSKRoll? && (r.phase.PrePublish? || r.phase.Signing?) then Lookup(s.byTag, ZSKRole, r.oldKey.tag)
    else if r.kind.AlgorithmRoll? && !r.phase.Retiring? then Lookup(s.byTag, ZSKRole, r.oldZSK.tag)
    else []
  }

  predicate NeedsOldKSK(z: Zone) { z.rollover.Some? && SignsWithOldKSK(z.rollover.value) }

  predicate NeedsOldZSK(z: Zone) {
    z.rollover.Some? && var r := z.rollover.value;
    (r.kind.ZSKRoll? && (r.phase.PrePublish? || r.phase.Signing?)) || (r.kind.AlgorithmRoll? && !r.phase.Retiring?)
  }

  /** The key set by role: what is published, what signs the DNSKEY RRset, what signs the data. */
  function LoadedKeys(z: Zone, s: KeyStore): Option<KeySet> {
    var tags := ExpectedLiveTags(z);
    if tags.None? then None else
    var live := Lookup(s.live, KSKRole, tags.value.0) + Lookup(s.live, ZSKRole, tags.value.1);
    var oldK, oldZ := OldKSKs(z, s), OldZSKs(z, s);
    if |live| != 2 || (NeedsOldKSK(z) && oldK == []) || (NeedsOldZSK(z) && oldZ == []) then None else
    var dnskeys := live + oldK + oldZ;
    if !InKind(z, AlgorithmRoll) && !Uniform(dnskeys) then None else
    Some(KeySet(dnskeys, [live[0]] + oldK,
                if InKind(z, ZSKRoll) && z.rollover.value.phase.PrePublish? then oldZ
                else if InKind(z, ZSKRoll) then [live[1]]
                else [live[1]] + oldZ))
  }

  // ---------------------------------------------------------------- signing and coverage

  /** A signature over one RRset, by one key. */
  datatype Sig = Sig(rrset: RR, key: DnsKey)

  function SignersOf(k: KeySet, rrset: RR): seq<DnsKey> { if rrset.rrtype == DNSKEY then k.ksks else k.zsks }

  ghost predicate SignsExactly(rs: seq<RR>, apex: Name, rrsets: seq<RR>, k: KeySet, sigs: seq<Sig>) {
    forall x :: x in sigs <==>
        x.rrset in rrsets && Signable(rs, apex, x.rrset.owner, x.rrset.rrtype) && x.key in SignersOf(k, x.rrset)
  }

  /** Signs each signable RRset with every key of its role and nothing else. */
  method SignRecords(m: ZoneModel, rs: seq<RR>, rrsets: seq<RR>, k: KeySet) returns (sigs: seq<Sig>)
    requires m.Valid() && m.records == rs
    modifies m`occluded
    ensures m.Valid()
    ensures SignsExactly(rs, m.apex, rrsets, k, sigs)
  {
    hide Occluded, Delegation;
    sigs := [];
    for i := 0 to |rrsets|
      invariant m.Valid() && SignsExactly(rs, m.apex, rrsets[..i], k, sigs)
    {
      var rrset := rrsets[i];
      var signable := m.IsSignable(rrset.owner, rrset.rrtype);
      assert rrsets[..i + 1] == rrsets[..i] + [rrset];
      if signable {
        var signers := SignersOf(k, rrset);
        ghost var before := sigs;
        for j := 0 to |signers|
          invariant m.Valid()
          invariant forall x :: x in sigs <==> x in before || (x.rrset == rrset && x.key in signers[..j])
        {
          assert signers[..j + 1] == signers[..j] + [signers[j]];
          sigs := sigs + [Sig(rrset, signers[j])];
        }
        assert signers[..|signers|] == signers;
      }
    }
    assert rrsets[..|rrsets|] == rrsets;
  }

  function RoleFor(rrset: RR): Role { if rrset.rrtype == DNSKEY then KSKRole else ZSKRole }

  /**
   * Every signature is by a published key over a present RRset, and every published algorithm signs every signable
   * RRset in its role.
   */
  ghost predicate CoverageAccepts(rs: seq<RR>, apex: Name, rrsets: seq<RR>, k: KeySet, sigs: seq<Sig>) {
    && (forall i :: 0 <= i < |sigs| ==> sigs[i].key in k.dnskeys && sigs[i].rrset in rrsets)
    && Survive(rs, rrsets)
    && AllCovered(rs, apex, rrsets, k, sigs)
  }

  /** Each signable RRset is covered for each published algorithm. */
  ghost predicate AllCovered(rs: seq<RR>, apex: Name, rrsets: seq<RR>, k: KeySet, sigs: seq<Sig>) {
    forall i, j :: 0 <= i < |rrsets| && 0 <= j < |k.dnskeys| ==>
      Signable(rs, apex, rrsets[i].owner, rrsets[i].rrtype) ==> CoveredBy(sigs, rrsets[i], k.dnskeys[j].alg)
  }

  /** Every input RRset is in the signed zone. */
  ghost predicate Survive(rs: seq<RR>, rrsets: seq<RR>) { forall i :: 0 <= i < |rs| ==> rs[i] in rrsets }

  ghost predicate CoveredBy(sigs: seq<Sig>, rrset: RR, alg: nat) {
    exists x :: x in sigs && x.rrset == rrset && x.key.alg == alg && x.key.role == RoleFor(rrset)
  }

  method VerifyCoverage(m: ZoneModel, rs: seq<RR>, rrsets: seq<RR>, k: KeySet, sigs: seq<Sig>) returns (ok: bool)
    requires m.Valid() && m.records == rs
    modifies m`occluded
    ensures m.Valid()
    ensures ok <==> CoverageAccepts(rs, m.apex, rrsets, k, sigs)
  {
    hide Occluded, Delegation;
    var covered: set<(RR, nat, Role)> := {};
    for i := 0 to |sigs|
      invariant m.Valid()
      invariant forall j :: 0 <= j < i ==> sigs[j].key in k.dnskeys && sigs[j].rrset in rrsets
      invariant forall c :: c in covered <==> exists x :: x in sigs[..i] && c == (x.rrset, x.key.alg, x.key.role)
    {
      if sigs[i].rrset !in rrsets { return false; }
      if sigs[i].key !in k.dnskeys { return false; }
      assert sigs[..i + 1] == sigs[..i] + [sigs[i]];
      covered := covered + {(sigs[i].rrset, sigs[i].key.alg, sigs[i].key.role)};
    }
    assert sigs[..|sigs|] == sigs;
    for i := 0 to |rs|
      invariant m.Valid() && forall j :: 0 <= j < i ==> rs[j] in rrsets
    {
      if rs[i] !in rrsets { return false; }
    }
    for i := 0 to |rrsets|
      invariant m.Valid()
      invariant forall a, j :: 0 <= a < i && 0 <= j < |k.dnskeys| && Signable(rs, m.apex, rrsets[a].owner,
          rrsets[a].rrtype) ==>
          CoveredBy(sigs, rrsets[a], k.dnskeys[j].alg)
    {
      var signable := m.IsSignable(rrsets[i].owner, rrsets[i].rrtype);
      if signable {
        for j := 0 to |k.dnskeys|
          invariant m.Valid()
          invariant forall b :: 0 <= b < j ==> CoveredBy(sigs, rrsets[i], k.dnskeys[b].alg)
        {
          var want := (rrsets[i], k.dnskeys[j].alg, RoleFor(rrsets[i]));
          assert want in covered <==> CoveredBy(sigs, rrsets[i], k.dnskeys[j].alg);
          if want !in covered { return false; }
        }
      }
    }
    ok := true;
  }

  // ---------------------------------------------------------------- when phase keys give complete zones

  ghost predicate Has(keys: seq<DnsKey>, alg: nat) { exists k :: k in keys && k.alg == alg }

  /** Each published algorithm has a signing key of both roles. */
  ghost predicate AlgorithmComplete(k: KeySet) {
    forall i :: 0 <= i < |k.dnskeys| ==> Has(k.ksks, k.dnskeys[i].alg) && Has(k.zsks, k.dnskeys[i].alg)
  }

  lemma LoadedRoles(z: Zone, s: KeyStore, k: KeySet)
    requires Checked(s) && LoadedKeys(z, s) == Some(k)
    ensures forall x :: x in k.ksks ==> x.role == KSKRole && x in k.dnskeys
    ensures forall x :: x in k.zsks ==> x.role == ZSKRole && x in k.dnskeys
    ensures k.ksks != [] && k.zsks != []
  {
  }

  /** Outside an algorithm rollover a key set that loads is always complete. */
  lemma OrdinaryPhasesAreComplete(z: Zone, s: KeyStore, k: KeySet)
    requires Checked(s) && LoadedKeys(z, s) == Some(k) && !InKind(z, AlgorithmRoll)
    ensures AlgorithmComplete(k)
  {
    LoadedRoles(z, s, k);
    assert k.ksks[0] in k.ksks && k.zsks[0] in k.zsks;
    forall i | 0 <= i < |k.dnskeys| ensures Has(k.ksks, k.dnskeys[i].alg) && Has(k.zsks, k.dnskeys[i].alg) {
      assert k.ksks[0] in k.dnskeys && k.zsks[0] in k.dnskeys;
      UniformAlg(k.dnskeys, k.dnskeys[i], k.ksks[0]);
      UniformAlg(k.dnskeys, k.dnskeys[i], k.zsks[0]);
    }
  }

  lemma UniformAlg(keys: seq<DnsKey>, a: DnsKey, b: DnsKey)
    requires Uniform(keys) && a in keys && b in keys
    ensures a.alg == b.alg
  {
    var i :| 0 <= i < |keys| && keys[i] == a;
    var j :| 0 <= j < |keys| && keys[j] == b;
  }

  /** During an algorithm rollover it is complete exactly when the KSKs and the ZSKs name the same algorithms. */
  lemma AlgorithmPhasesComplete(z: Zone, s: KeyStore, k: KeySet)
    requires Checked(s) && LoadedKeys(z, s) == Some(k) && InKind(z, AlgorithmRoll)
    ensures AlgorithmComplete(k) <==>
      if z.rollover.value.phase.Retiring? then k.ksks[0].alg == k.zsks[0].alg
      else {k.ksks[0].alg, k.ksks[1].alg} == {k.zsks[0].alg, k.zsks[1].alg}
  {
    if z.rollover.value.phase.Retiring? {
      PairComplete(k);
    } else {
      TwoPairsComplete(k);
    }
  }

  lemma PairComplete(k: KeySet)
    requires |k.ksks| == |k.zsks| == 1 && k.dnskeys == [k.ksks[0], k.zsks[0]]
    ensures AlgorithmComplete(k) <==> k.ksks[0].alg == k.zsks[0].alg
  {
    assert k.ksks[0] in k.ksks && k.zsks[0] in k.zsks;
    if AlgorithmComplete(k) { assert Has(k.ksks, k.dnskeys[1].alg); }
  }

  lemma TwoPairsComplete(k: KeySet)
    requires |k.ksks| == |k.zsks| == 2 && k.dnskeys == [k.ksks[0], k.zsks[0], k.ksks[1], k.zsks[1]]
    ensures AlgorithmComplete(k) <==> {k.ksks[0].alg, k.ksks[1].alg} == {k.zsks[0].alg, k.zsks[1].alg}
  {
    var a, b := {k.ksks[0].alg, k.ksks[1].alg}, {k.zsks[0].alg, k.zsks[1].alg};
    assert k.ksks[0] in k.ksks && k.ksks[1] in k.ksks && k.zsks[0] in k.zsks && k.zsks[1] in k.zsks;
    assert forall alg :: Has(k.ksks, alg) <==> alg in a;
    assert forall alg :: Has(k.zsks, alg) <==> alg in b;
    if AlgorithmComplete(k) {
      assert k.dnskeys[0].alg in b && k.dnskeys[2].alg in b && k.dnskeys[1].alg in a && k.dnskeys[3].alg in a;
    } else {
      var i :| 0 <= i < 4 && !(Has(k.ksks, k.dnskeys[i].alg) && Has(k.zsks, k.dnskeys[i].alg));
      assert k.dnskeys[i].alg in a + b;
    }
  }

  lemma CompleteKeysCover(rs: seq<RR>, apex: Name, rrsets: seq<RR>, k: KeySet, sigs: seq<Sig>)
    requires SignsExactly(rs, apex, rrsets, k, sigs) && AlgorithmComplete(k)
    requires (forall x :: x in k.ksks ==> x.role == KSKRole) && (forall x :: x in k.zsks ==> x.role == ZSKRole)
    ensures AllCovered(rs, apex, rrsets, k, sigs)
  {
    hide Signable;
    forall i, j | 0 <= i < |rrsets| && 0 <= j < |k.dnskeys| && Signable(rs, apex, rrsets[i].owner, rrsets[i].rrtype)
      ensures CoveredBy(sigs, rrsets[i], k.dnskeys[j].alg)
    {
      assert Has(SignersOf(k, rrsets[i]), k.dnskeys[j].alg);
      var x :| x in SignersOf(k, rrsets[i]) && x.alg == k.dnskeys[j].alg;
      assert Sig(rrsets[i], x) in sigs;
    }
  }

  /**
   * Signing with a loaded key set passes the coverage check exactly when the set is algorithm-complete and no input
   * RRset was lost.
   */
  lemma PhaseKeysCoverZone(z: Zone, s: KeyStore, k: KeySet, rs: seq<RR>, apex: Name, rrsets: seq<RR>, sigs: seq<Sig>)
    requires Checked(s) && LoadedKeys(z, s) == Some(k)
    requires SignsExactly(rs, apex, rrsets, k, sigs)
    requires RR(apex, DNSKEY) in rrsets && RR(apex, SOA) in rrsets
    ensures CoverageAccepts(rs, apex, rrsets, k, sigs) <==> AlgorithmComplete(k) && Survive(rs, rrsets)
  {
    LoadedRoles(z, s, k);
    if AlgorithmComplete(k) {
      CompleteKeysCover(rs, apex, rrsets, k, sigs);
    }
    if CoverageAccepts(rs, apex, rrsets, k, sigs) {
      forall j | 0 <= j < |k.dnskeys| ensures Has(k.ksks, k.dnskeys[j].alg) && Has(k.zsks, k.dnskeys[j].alg) {
        var a :| 0 <= a < |rrsets| && rrsets[a] == RR(apex, DNSKEY);
        var b :| 0 <= b < |rrsets| && rrsets[b] == RR(apex, SOA);
        assert !Occluded(rs, apex, apex);
        assert CoveredBy(sigs, rrsets[a], k.dnskeys[j].alg) && CoveredBy(sigs, rrsets[b], k.dnskeys[j].alg);
      }
    }
  }

  // ---------------------------------------------------------------- agreement with the rollover protocol

  /**
   * A retiring algorithm rollover whose live ZSK file is of the old algorithm: the record is accepted and the
   * keys load, since no check compares them, yet the zone they sign fails its own coverage check.
   */
  lemma MixedAlgorithmsLoad() returns (z: Zone, s: KeyStore, k: KeySet, rs: seq<RR>, apex: Name, sigs: seq<Sig>)
    ensures ValidRecord(z) && InKind(z, AlgorithmRoll) && z.rollover.value.phase.Retiring?
    ensures Checked(s) && LoadedKeys(z, s) == Some(k) && !AlgorithmComplete(k)
    ensures RR(apex, DNSKEY) in rs && RR(apex, SOA) in rs && SignsExactly(rs, apex, rs, k, sigs)
    ensures !CoverageAccepts(rs, apex, rs, k, sigs)
  {
    var ksk, zsk := DnsKey(3, 13, KSKRole), DnsKey(4, 8, ZSKRole);
    var r := NewRollover(AlgorithmRoll, Retiring, Key(1, 8), Key(3, 13), Key(2, 8), Key(4, 13), 1);
    z := Zone(Some(Key(3, 13)), Some(Key(4, 13)), 1, Some(r), false, 0, 0, 0, false, 0, 0, 0, 0, 0, 0);
    s := KeyStore(map[(KSKRole, 3) := ksk, (ZSKRole, 4) := zsk], map[]);
    k := KeySet([ksk, zsk], [ksk], [zsk]);
    apex := [];
    rs := [RR(apex, DNSKEY), RR(apex, SOA)];
    sigs := [Sig(rs[0], ksk), Sig(rs[1], zsk)];
    assert Lookup(s.live, KSKRole, 3) == [ksk] && Lookup(s.live, ZSKRole, 4) == [zsk];
    assert ExpectedLiveTags(z) == Some((3, 4)) && OldKSKs(z, s) == [] && OldZSKs(z, s) == [];
    assert [ksk] + [zsk] + [] + [] == [ksk, zsk] && [ksk] + [] == [ksk] && [zsk] + [] == [zsk];
    AlgorithmPhasesComplete(z, s, k);
    assert !Occluded(rs, apex, apex) && !Delegation(rs, apex, apex);
    PhaseKeysCoverZone(z, s, k, rs, apex, rs, sigs);
  }

  predicate ValidRecord(z: Zone) { z.rollover.Some? ==> ValidRollover(z.ksk, z.zsk, z.rollover.value) }

  function Tags(keys: set<Key>): set<nat> { set k | k in keys :: k.tag }

  function TagsOf(keys: seq<DnsKey>, role: Role): set<nat> {
    set i | 0 <= i < |keys| && keys[i].role == role :: keys[i].tag }

  lemma TagsOfConcat(a: seq<DnsKey>, b: seq<DnsKey>, role: Role)
    ensures TagsOf(a + b, role) == TagsOf(a, role) + TagsOf(b, role)
  {
    var c := a + b;
    forall t | t in TagsOf(b, role) ensures t in TagsOf(c, role) {
      var i :| 0 <= i < |b| && b[i].role == role && b[i].tag == t;
      assert c[|a| + i] == b[i];
    }
    forall t | t in TagsOf(a, role) ensures t in TagsOf(c, role) {
      var i :| 0 <= i < |a| && a[i].role == role && a[i].tag == t;
      assert c[i] == a[i];
    }
  }

  lemma TagsOfOne(k: DnsKey, role: Role)
    ensures TagsOf([k], role) == if k.role == role then {k.tag} else {}
  {
    if k.role == role { assert [k][0].tag in TagsOf([k], role); }
  }

  lemma TagsOfUnion(a: Key, b: set<Key>)
    ensures Tags({a} + b) == {a.tag} + Tags(b)
    ensures Tags({}) == {} && Tags({a}) == {a.tag}
  {
  }

  /** The tags of what one lookup found. */
  lemma LookupTags(s: KeyStore, role: Role, tag: nat, other: Role)
    requires Checked(s)
    ensures Lookup(s.live, role, tag) != [] ==>
        TagsOf(Lookup(s.live, role, tag), other) == if other == role then {tag} else {}
    ensures Lookup(s.byTag, role, tag) != [] ==>
        TagsOf(Lookup(s.byTag, role, tag), other) == if other == role then {tag} else {}
  {
    if (role, tag) in s.live { TagsOfOne(s.live[(role, tag)], other); }
    if (role, tag) in s.byTag { TagsOfOne(s.byTag[(role, tag)], other); }
  }

  /** The published tags of a role: the live one and the old one the phase still needs. */
  lemma PublishedTags(z: Zone, s: KeyStore, k: KeySet, role: Role)
    requires Checked(s) && LoadedKeys(z, s) == Some(k)
    ensures TagsOf(k.dnskeys, role) ==
      (if role == KSKRole then {ExpectedLiveTags(z).value.0} else {ExpectedLiveTags(z).value.1})
      + TagsOf(OldKSKs(z, s), role) + TagsOf(OldZSKs(z, s), role)
  {
    var tags := ExpectedLiveTags(z).value;
    var a, b := Lookup(s.live, KSKRole, tags.0), Lookup(s.live, ZSKRole, tags.1);
    LookupTags(s, KSKRole, tags.0, role);
    LookupTags(s, ZSKRole, tags.1, role);
    TagsOfConcat(a, b, role);
    TagsOfConcat(a + b, OldKSKs(z, s), role);
    TagsOfConcat(a + b + OldKSKs(z, s), OldZSKs(z, s), role);
  }

  lemma OldTags(z: Zone, s: KeyStore, k: KeySet, role: Role)
    requires Checked(s) && LoadedKeys(z, s) == Some(k)
    ensures TagsOf(OldKSKs(z, s), role) == if role == KSKRole && NeedsOldKSK(z) then {z.rollover.value.oldKey.tag}
        else {}
    ensures TagsOf(OldZSKs(z, s), role) == if role == ZSKRole && NeedsOldZSK(z)
      then {if z.rollover.value.kind.ZSKRoll? then z.rollover.value.oldKey.tag else z.rollover.value.oldZSK.tag} else {}
  {
    if z.rollover.Some? {
      LookupTags(s, KSKRole, z.rollover.value.oldKey.tag, role);
      LookupTags(s, ZSKRole, z.rollover.value.oldKey.tag, role);
      LookupTags(s, ZSKRole, z.rollover.value.oldZSK.tag, role);
    }
  }

  lemma PhaseTags(z: Zone)
    requires z.ksk.Some? && z.zsk.Some? && ValidRecord(z)
    ensures Tags(PhaseKSKs(z)) == {ExpectedLiveTags(z).value.0} + if NeedsOldKSK(z) then {z.rollover.value.oldKey.tag}
        else {}
    ensures Tags(PhaseZSKs(z)) == {ExpectedLiveTags(z).value.1} + if NeedsOldZSK(z)
      then {if z.rollover.value.kind.ZSKRoll? then z.rollover.value.oldKey.tag else z.rollover.value.oldZSK.tag} else {}
  {
    TagsOfUnion(z.ksk.value, {});
    TagsOfUnion(z.zsk.value, {});
    if z.rollover.Some? {
      var r := z.rollover.value;
      TagsOfUnion(z.ksk.value, {r.oldKey});
      TagsOfUnion(z.zsk.value, {r.oldKey});
      TagsOfUnion(z.zsk.value, {r.newKey});
      TagsOfUnion(z.zsk.value, {r.oldZSK});
      TagsOfUnion(r.oldKey, {});
      TagsOfUnion(r.newKey, {});
      TagsOfUnion(r.oldZSK, {});
    }
  }

  lemma SignerTags(z: Zone, s: KeyStore, k: KeySet)
    requires Checked(s) && ValidRecord(z) && LoadedKeys(z, s) == Some(k)
    ensures TagsOf(k.zsks, ZSKRole) == Tags(PhaseSigners(z))
  {
    OldTags(z, s, k, ZSKRole);
    TagsOfUnion(z.zsk.value, {});
    assert {z.zsk.value} + {} == {z.zsk.value};
    var tag := ExpectedLiveTags(z).value.1;
    LookupTags(s, ZSKRole, tag, ZSKRole);
    TagsOfConcat(Lookup(s.live, ZSKRole, tag), OldZSKs(z, s), ZSKRole);
    if InKind(z, AlgorithmRoll) {
      TagsOfUnion(z.zsk.value, {z.rollover.value.oldZSK});
      TagsOfUnion(z.rollover.value.oldZSK, {});
    }
  }

  /**
   * For every record the loader accepts, the loaded keys are the phase's KSKs, ZSKs and signers of the protocol model.
   */
  lemma LoadedKeysAreThePhaseKeys(z: Zone, s: KeyStore, k: KeySet)
    requires Checked(s) && ValidRecord(z) && LoadedKeys(z, s) == Some(k)
    ensures TagsOf(k.dnskeys, KSKRole) == TagsOf(k.ksks, KSKRole) == Tags(PhaseKSKs(z))
    ensures TagsOf(k.dnskeys, ZSKRole) == Tags(PhaseZSKs(z))
    ensures TagsOf(k.zsks, ZSKRole) == Tags(PhaseSigners(z))
  {
    PublishedTags(z, s, k, KSKRole);
    PublishedTags(z, s, k, ZSKRole);
    OldTags(z, s, k, KSKRole);
    OldTags(z, s, k, ZSKRole);
    PhaseTags(z);
    SignerTags(z, s, k);
    hide PhaseKSKs, PhaseZSKs, PhaseSigners;
    assert TagsOf(k.ksks, KSKRole) == {ExpectedLiveTags(z).value.0} + TagsOf(OldKSKs(z, s), KSKRole) by {
      var tag := ExpectedLiveTags(z).value.0;
      LookupTags(s, KSKRole, tag, KSKRole);
      TagsOfConcat(Lookup(s.live, KSKRole, tag), OldKSKs(z, s), KSKRole);
    }
  }
}
