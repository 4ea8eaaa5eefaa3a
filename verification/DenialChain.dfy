/** NSEC chains: generation, the independent verifier, and what an accepted chain proves. */
module NsecChains {
  import opened CanonicalNames
  import opened ZoneData

  /** A type bitmap is compared after sorting, duplicates included. */
  datatype NsecRecord = NsecRecord(owner: Name, next: Name, types: multiset<nat>)

  // ---------------------------------------------------------------- canonical sorting

  ghost predicate Ascending(q: seq<Name>) { forall i, j :: 0 <= i < j < |q| ==> Less(q[i], q[j]) }

  ghost predicate Elements(q: seq<Name>, s: set<Name>) { forall n :: n in s <==> n in q }

  /** Two ascending lists of the same names are one list. */
  lemma {:induction false} AscendingUnique(p: seq<Name>, q: seq<Name>)
    requires Ascending(p) && Ascending(q) && forall n :: n in p <==> n in q
    ensures p == q
  {
    if p == [] {
      assert forall n :: n !in q;
      assert q == [] by { assert forall i :: 0 <= i < |q| ==> q[i] in q; }
    } else {
      assert p[0] in q;
      assert q[0] in p;
      var i :| 0 <= i < |q| && q[i] == p[0];
      var j :| 0 <= j < |p| && p[j] == q[0];
      LessTrichotomy(p[0], q[0]);
      assert i == 0;
      forall n ensures n in p[1..] <==> n in q[1..] {
        LessTrichotomy(p[0], p[0]);
        if n in p[1..] { var k :| 1 <= k < |p| && p[k] == n; assert Less(p[0], n); assert n in q; LessTrichotomy(p[0],
            n); }
        if n in q[1..] { var k :| 1 <= k < |q| && q[k] == n; assert Less(q[0], n); assert n in p; LessTrichotomy(q[0],
            n); }
      }
      AscendingUnique(p[1..], q[1..]);
      assert p == [p[0]] + p[1..] && q == [q[0]] + q[1..];
    }
  }

  /** The owners in canonical order. */
  method SortNames(s: set<Name>) returns (q: seq<Name>)
    ensures Ascending(q) && Elements(q, s)
  {
    q := [];
    var rest := s;
    while rest != {}
      invariant rest <= s && Ascending(q) && Elements(q, s - rest)
      decreases rest
    {
      var n :| n in rest;
      q := Insert(q, n);
      rest := rest - {n};
    }
  }

  method Insert(q: seq<Name>, n: Name) returns (r: seq<Name>)
    requires Ascending(q) && n !in q
    ensures Ascending(r) && forall m :: m in r <==> m == n || m in q
  {
    var i := 0;
    while i < |q|
      invariant 0 <= i <= |q|
      invariant forall j :: 0 <= j < i ==> Less(q[j], n)
    {
      var before := CanonicalLess(q[i], n);
      if !before { break; }
      i := i + 1;
    }
    r := q[..i] + [n] + q[i..];
    if i < |q| { LessTrichotomy(q[i], n); }
    forall j | i < j < |q| ensures Less(n, q[j]) { LessTransitive(n, q[i], q[j]); }
  }

  // ---------------------------------------------------------------- generation

  /** The bitmap the generator writes: the types collected at the owner, then its own two appended. */
  function GeneratedTypes(rs: seq<RR>, apex: Name, n: Name): multiset<nat> {
    (if Delegation(rs, apex, n) then multiset({NS}) + (if RR(n, DS) in rs then multiset{DS} else multiset{})
     else multiset(TypesAt(rs, n)))
    + multiset{NSEC, RRSIG}
  }

  /** q lists the authoritative owners in canonical order. */
  ghost predicate OwnerOrder(rs: seq<RR>, apex: Name, q: seq<Name>) {
    Ascending(q) && Elements(q, Authoritative(rs, apex)) }

  function Succ(q: seq<Name>, i: nat): Name
    requires i < |q|
  { q[(i + 1) % |q|] }

  ghost predicate IsNsecChain(rs: seq<RR>, apex: Name, q: seq<Name>, chain: seq<NsecRecord>) {
    && |chain| == |q|
    && forall i :: 0 <= i < |q| ==> chain[i] == NsecRecord(q[i], Succ(q, i), GeneratedTypes(rs, apex, q[i]))
  }

  /** The authoritative owners of the zone and the types each holds. */
  method CollectOwners(m: ZoneModel, rs: seq<RR>) returns (types: map<Name, set<nat>>)
    requires m.Valid() && m.records == rs
    modifies m`occluded
    ensures m.Valid()
    ensures types.Keys == Authoritative(rs, m.apex)
    ensures forall n :: n in types ==> types[n] == TypesAt(rs, n)
  {
    types := map[];
    for i := 0 to |rs|
      invariant m.Valid()
      invariant forall n :: n in types <==> n in Owners(rs[..i]) && !Occluded(rs, m.apex, n)
      invariant forall n :: n in types ==> types[n] == TypesAt(rs[..i], n)
    {
      var n := rs[i].owner;
      var hidden := m.IsOccluded(n);
      AddedRecord(rs[..i], rs[i]);
      assert rs[..i + 1] == rs[..i] + [rs[i]];
      if !hidden {
        var at := if n in types then types[n] else {};
        types := types[n := at + {rs[i].rrtype}];
      }
    }
    assert rs[..|rs|] == rs;
  }

  /** Sorts the authoritative owners and links each to the next, the last back to the first. */
  method GenerateNSECChain(m: ZoneModel, rs: seq<RR>) returns (chain: seq<NsecRecord>, ghost q: seq<Name>)
    requires m.Valid() && m.records == rs
    modifies m`occluded
    ensures m.Valid()
    ensures OwnerOrder(rs, m.apex, q) && IsNsecChain(rs, m.apex, q, chain)
  {
    hide Less, Occluded, TypesAt, Owners, Succ, GeneratedTypes;
    var types := CollectOwners(m, rs);
    var names := SortNames(types.Keys);
    q := names;
    chain := [];
    for i := 0 to |names|
      invariant m.Valid() && |chain| == i
      invariant forall j :: 0 <= j < i ==> chain[j] == NsecRecord(q[j], Succ(q, j), GeneratedTypes(rs, m.apex, q[j]))
    {
      var n := names[i];
      assert n in types;
      var bitmap := Bitmap(rs, m.apex, n, n in m.delegations, types[n]);
      chain := chain + [NsecRecord(n, Succ(names, i), bitmap)];
    }
  }

  method Bitmap(rs: seq<RR>, apex: Name, n: Name, delegation: bool, types: set<nat>) returns (bitmap: multiset<nat>)
    requires types == TypesAt(rs, n) && (delegation <==> Delegation(rs, apex, n))
    ensures bitmap == GeneratedTypes(rs, apex, n)
  {
    bitmap := if delegation then multiset{NS} else multiset(types);
    TypeIsHeld(rs, n, DS);
    if delegation && DS in types { bitmap := bitmap + multiset{DS}; }
    assert multiset({NS}) == multiset{NS};
    bitmap := bitmap + multiset{NSEC, RRSIG};
  }

  lemma TypeIsHeld(rs: seq<RR>, n: Name, t: nat)
    ensures t in TypesAt(rs, n) <==> RR(n, t) in rs
  {
    if t in TypesAt(rs, n) {
      var i :| 0 <= i < |rs| && rs[i].owner == n && rs[i].rrtype == t;
      assert rs[i] == RR(n, t);
    }
    if RR(n, t) in rs { var i :| 0 <= i < |rs| && rs[i] == RR(n, t); }
  }

  // ---------------------------------------------------------------- verification

  ghost predicate DistinctOwners(nsecs: seq<NsecRecord>) {
    forall i, j :: 0 <= i < j < |nsecs| ==> nsecs[i].owner != nsecs[j].owner
  }

  /** The record the input dictates for the i-th owner. */
  function Expected(rs: seq<RR>, apex: Name, q: seq<Name>, i: nat): NsecRecord
    requires i < |q|
  { NsecRecord(q[i], Succ(q, i), multiset(DenialTypes(rs, apex, q[i], false))) }

  /** What the verifier accepts, against the owners q the input dictates. */
  ghost predicate Accepts(rs: seq<RR>, apex: Name, q: seq<Name>, nsecs: seq<NsecRecord>) {
    && nsecs != []
    && DistinctOwners(nsecs)
    && (forall i :: 0 <= i < |q| ==> Expected(rs, apex, q, i) in nsecs)
    && (forall i :: 0 <= i < |nsecs| ==> nsecs[i].owner in q)
  }

  /** Indexes the chain by owner; a repeated owner is refused. */
  method IndexByOwner(nsecs: seq<NsecRecord>) returns (ok: bool, byOwner: map<Name, NsecRecord>)
    ensures ok <==> DistinctOwners(nsecs)
    ensures ok ==> forall n, x :: n in byOwner && byOwner[n] == x <==> x in nsecs && x.owner == n
  {
    byOwner := map[];
    for i := 0 to |nsecs|
      invariant forall j, k :: 0 <= j < k < i ==> nsecs[j].owner != nsecs[k].owner
      invariant forall n :: n in byOwner ==> byOwner[n] in nsecs[..i] && byOwner[n].owner == n
      invariant forall j :: 0 <= j < i ==> nsecs[j].owner in byOwner && byOwner[nsecs[j].owner] == nsecs[j]
    {
      if nsecs[i].owner in byOwner { return false, byOwner; }
      byOwner := byOwner[nsecs[i].owner := nsecs[i]];
    }
    ok := true;
  }

  /** Whether every record sits at an authoritative owner. */
  method OwnersAreAuthoritative(m: ZoneModel, rs: seq<RR>, nsecs: seq<NsecRecord>) returns (ok: bool)
    requires m.Valid() && m.records == rs
    modifies m`occluded
    ensures m.Valid()
    ensures ok <==> forall i :: 0 <= i < |nsecs| ==> nsecs[i].owner in Authoritative(rs, m.apex)
  {
    for i := 0 to |nsecs|
      invariant m.Valid()
      invariant forall j :: 0 <= j < i ==> nsecs[j].owner in Authoritative(rs, m.apex)
    {
      if nsecs[i].owner !in m.owners { return false; }
      var hidden := m.IsOccluded(nsecs[i].owner);
      if hidden { return false; }
    }
    ok := true;
  }

  /** Whether each expected owner has its record with the expected successor and bitmap. */
  method OrderIsExpected(rs: seq<RR>, apex: Name, expected: seq<Name>, byOwner: map<Name, NsecRecord>)
    returns (ok: bool)
    requires forall i :: 0 <= i < |expected| && expected[i] in byOwner ==> byOwner[expected[i]].owner == expected[i]
    ensures ok <==> forall i :: 0 <= i < |expected| ==>
        expected[i] in byOwner && byOwner[expected[i]] == Expected(rs, apex, expected, i)
  {
    hide Succ, DenialTypes;
    for i := 0 to |expected|
      invariant forall j :: 0 <= j < i ==> expected[j] in byOwner
    {
      if expected[i] !in byOwner { return false; }
    }
    for i := 0 to |expected|
      invariant forall j :: 0 <= j < i ==> byOwner[expected[j]] == Expected(rs, apex, expected, j)
    {
      var n := byOwner[expected[i]];
      if n.next != Succ(expected, i) { return false; }
      if n.types != multiset(DenialTypes(rs, apex, expected[i], false)) { return false; }
    }
    ok := true;
  }

  /** The chain check: uniqueness and membership of the owners, then order and bitmaps. */
  method VerifyNSEC(m: ZoneModel, rs: seq<RR>, expected: seq<Name>, nsecs: seq<NsecRecord>) returns (ok: bool)
    requires m.Valid() && m.records == rs
    requires OwnerOrder(rs, m.apex, expected)
    modifies m`occluded
    ensures m.Valid()
    ensures ok <==> Accepts(rs, m.apex, expected, nsecs)
  {
    hide DenialTypes, Occluded, Owners, Ascending, Succ;
    if nsecs == [] { return false; }
    var distinct, byOwner := IndexByOwner(nsecs);
    if !distinct { return false; }
    var owners := OwnersAreAuthoritative(m, rs, nsecs);
    if !owners { return false; }
    ok := OrderIsExpected(rs, m.apex, expected, byOwner);
    assert forall i :: 0 <= i < |expected| ==>
      (expected[i] in byOwner && byOwner[expected[i]] == Expected(rs, m.apex, expected, i) <==>
          Expected(rs, m.apex, expected, i) in nsecs);
  }

  // ---------------------------------------------------------------- what acceptance means

  lemma ApexFirst(rs: seq<RR>, apex: Name, q: seq<Name>)
    requires InZone(rs, apex) && OwnerOrder(rs, apex, q)
    ensures q != [] && q[0] == apex
  {
    assert apex in Authoritative(rs, apex);
    var i :| 0 <= i < |q| && q[i] == apex;
    if i != 0 {
      assert q[0] in q && q[0] in Owners(rs);
      var k :| 0 <= k < |rs| && rs[k].owner == q[0];
      assert Less(q[0], apex);
      LessTrichotomy(q[0], apex);
      SubtreeFirst(apex, q[0]);
      assert false;
    }
  }

  /** An accepted chain holds exactly one record per authoritative owner. */
  lemma AcceptedIsExact(rs: seq<RR>, apex: Name, q: seq<Name>, nsecs: seq<NsecRecord>, i: nat)
    requires OwnerOrder(rs, apex, q) && Accepts(rs, apex, q, nsecs) && i < |nsecs|
    ensures exists j :: 0 <= j < |q| && nsecs[i] == Expected(rs, apex, q, j)
  {
    assert nsecs[i].owner in q;
    var j :| 0 <= j < |q| && q[j] == nsecs[i].owner;
    var want := Expected(rs, apex, q, j);
    var k :| 0 <= k < |nsecs| && nsecs[k] == want;
  }

  /** The NSEC proves that n does not exist: n lies strictly between owner and next, or after the last owner. */
  predicate Covers(apex: Name, x: NsecRecord, n: Name) { Less(x.owner, n) && (Less(n, x.next) || x.next == apex) }

  /** Where a name that is no owner falls in the canonical order. */
  lemma {:induction false} Gap(q: seq<Name>, n: Name, k: nat) returns (j: nat)
    requires Ascending(q) && n !in q && k < |q| && Less(q[0], n)
    requires forall i :: k < i < |q| ==> Less(n, q[i])
    ensures j < |q| && Less(q[j], n) && (j + 1 < |q| ==> Less(n, q[j + 1]))
    decreases k
  {
    LessTrichotomy(q[k], n);
    if Less(q[k], n) { j := k; } else { j := Gap(q, n, k - 1); }
  }

  lemma GapUnique(q: seq<Name>, n: Name, i: nat, j: nat)
    requires Ascending(q) && i < j < |q| && Less(n, q[i + 1])
    ensures !Less(q[j], n)
  {
    LessTrichotomy(n, q[j]);
    if i + 1 < j { LessTransitive(n, q[i + 1], q[j]); }
  }

  /** Coverage is the gap in the order: one closed cycle starting at the apex. */
  lemma CoversIsGap(apex: Name, q: seq<Name>, j: nat, n: Name, types: multiset<nat>)
    requires Ascending(q) && q != [] && q[0] == apex && j < |q| && Within(n, apex)
    ensures Covers(apex, NsecRecord(q[j], Succ(q, j), types), n) <==>
        Less(q[j], n) && (j + 1 < |q| ==> Less(n, q[j + 1]))
  {
    if j + 1 < |q| {
      assert (j + 1) % |q| == j + 1;
      LessTrichotomy(q[0], q[j + 1]);
    } else {
      assert (j + 1) % |q| == 0;
    }
  }

  /** The i-th record covers the name, and no other does. */
  ghost predicate OnlyCover(apex: Name, nsecs: seq<NsecRecord>, n: Name, i: nat)
    requires i < |nsecs|
  {
    && Covers(apex, nsecs[i], n)
    && forall k :: 0 <= k < |nsecs| && Covers(apex, nsecs[k], n) ==> k == i
  }

  /**
   * Soundness of acceptance: every name of the zone is an owner of the chain, covered by no record,
   * or no owner and covered by exactly one.
   */
  lemma AcceptedChainDenies(rs: seq<RR>, apex: Name, q: seq<Name>, nsecs: seq<NsecRecord>, n: Name)
    requires InZone(rs, apex) && OwnerOrder(rs, apex, q) && Accepts(rs, apex, q, nsecs) && Within(n, apex)
    ensures n in Authoritative(rs, apex) ==> forall i :: 0 <= i < |nsecs| ==> !Covers(apex, nsecs[i], n)
    ensures n !in Authoritative(rs, apex) ==>
      exists i :: 0 <= i < |nsecs| && OnlyCover(apex, nsecs, n, i)
  {
    hide Accepts, OwnerOrder, InZone, Less, Occluded, DenialTypes;
    if n in Authoritative(rs, apex) {
      forall i | 0 <= i < |nsecs| ensures !Covers(apex, nsecs[i], n) { OwnerIsUncovered(rs, apex, q, nsecs, n, i); }
    } else {
      var i := Coverer(rs, apex, q, nsecs, n);
      assert OnlyCover(apex, nsecs, n, i);
    }
  }

  lemma OwnerIsUncovered(rs: seq<RR>, apex: Name, q: seq<Name>, nsecs: seq<NsecRecord>, n: Name, i: nat)
    requires InZone(rs, apex) && OwnerOrder(rs, apex, q) && Accepts(rs, apex, q, nsecs) && i < |nsecs|
    requires n in Authoritative(rs, apex)
    ensures !Covers(apex, nsecs[i], n)
  {
    ApexFirst(rs, apex, q);
    hide Less, Occluded, DenialTypes;
    var m :| 0 <= m < |q| && q[m] == n;
    AcceptedIsExact(rs, apex, q, nsecs, i);
    var j :| 0 <= j < |q| && nsecs[i] == Expected(rs, apex, q, j);
    CoversIsGap(apex, q, j, n, nsecs[i].types);
    OwnerInNoGap(q, j, m);
  }

  /** The one record that covers a name the chain does not own. */
  lemma Coverer(rs: seq<RR>, apex: Name, q: seq<Name>, nsecs: seq<NsecRecord>, n: Name) returns (i: nat)
    requires InZone(rs, apex) && OwnerOrder(rs, apex, q) && Accepts(rs, apex, q, nsecs) && Within(n, apex)
    requires n !in Authoritative(rs, apex)
    ensures i < |nsecs| && Covers(apex, nsecs[i], n)
    ensures forall k :: 0 <= k < |nsecs| && Covers(apex, nsecs[k], n) ==> k == i
  {
    ApexFirst(rs, apex, q);
    LessTrichotomy(apex, n);
    assert n != apex && Less(apex, n) by { assert apex in q; SubtreeFirst(apex, n); }
    hide Less, Occluded, DenialTypes;
    var j := Gap(q, n, |q| - 1);
    var x := Expected(rs, apex, q, j);
    CoversIsGap(apex, q, j, n, x.types);
    i :| 0 <= i < |nsecs| && nsecs[i] == x;
    forall k | 0 <= k < |nsecs| && Covers(apex, nsecs[k], n) ensures k == i {
      AcceptedIsExact(rs, apex, q, nsecs, k);
      var l :| 0 <= l < |q| && nsecs[k] == Expected(rs, apex, q, l);
      CoversIsGap(apex, q, l, n, nsecs[k].types);
      if l < j { GapUnique(q, n, l, j); }
      if j < l { GapUnique(q, n, j, l); }
    }
  }

  lemma OwnerInNoGap(q: seq<Name>, j: nat, m: nat)
    requires Ascending(q) && j < |q| && m < |q|
    ensures !(Less(q[j], q[m]) && (j + 1 < |q| ==> Less(q[m], q[j + 1])))
  {
    LessTrichotomy(q[j], q[m]);
    if j + 1 < |q| { LessTrichotomy(q[m], q[j + 1]); }
  }

  // ---------------------------------------------------------------- the generator meets the verifier

  lemma GeneratedIsExpected(rs: seq<RR>, apex: Name, n: Name)
    requires Stripped(rs) && n in Owners(rs)
    ensures GeneratedTypes(rs, apex, n) == multiset(DenialTypes(rs, apex, n, false))
  {
    TypeIsHeld(rs, n, NSEC);
    TypeIsHeld(rs, n, RRSIG);
  }

  /** On every stripped zone the generated chain is accepted, each side having sorted the owners for itself. */
  lemma GeneratedChainAccepted(rs: seq<RR>, apex: Name, q: seq<Name>, e: seq<Name>, chain: seq<NsecRecord>)
    requires InZone(rs, apex) && Stripped(rs)
    requires OwnerOrder(rs, apex, q) && IsNsecChain(rs, apex, q, chain)
    requires OwnerOrder(rs, apex, e)
    ensures Accepts(rs, apex, e, chain)
  {
    AscendingUnique(q, e);
    ApexFirst(rs, apex, q);
    forall i | 0 <= i < |q| ensures Expected(rs, apex, q, i) in chain {
      assert q[i] in q;
      GeneratedIsExpected(rs, apex, q[i]);
      assert chain[i] == Expected(rs, apex, q, i);
    }
    forall i, j | 0 <= i < j < |chain| ensures chain[i].owner != chain[j].owner { LessTrichotomy(q[i], q[j]); }
  }
}

/** NSEC3 chains over an arbitrary hash of owner names. */
module Nsec3Chains {
  import opened CanonicalNames
  import opened ZoneData
  import opened NsecChains

  datatype Nsec3Record = Nsec3Record(hash: int, next: int, types: multiset<nat>)

  /** The names an NSEC3 chain proves: authoritative owners and empty non-terminals. */
  function ChainNames(rs: seq<RR>, apex: Name): set<Name> { Authoritative(rs, apex) + EmptyNonTerminals(rs, apex) }

  /** q lists the names of s once each, by hash; equal hashes may stand in either order. */
  ghost predicate HashOrder(q: seq<Name>, s: set<Name>, hash: Name -> int) {
    && Elements(q, s)
    && (forall i, j :: 0 <= i < j < |q| ==> q[i] != q[j] && hash(q[i]) <= hash(q[j]))
  }

  ghost predicate Injective(s: set<Name>, hash: Name -> int) {
    forall a, b :: a in s && b in s && hash(a) == hash(b) ==> a == b }

  /** The bitmap the generator writes for a name, empty for a name without records. */
  function GeneratedTypes3(rs: seq<RR>, apex: Name, n: Name): multiset<nat> {
    if Delegation(rs, apex, n) then multiset{NS} + (if RR(n, DS) in rs then multiset{DS, RRSIG} else multiset{})
    else
      var types := TypesAt(rs, n) + (if n == apex && n in Owners(rs) then {NSEC3PARAM} else {});
      if types == {} then multiset{} else multiset(types) + multiset{RRSIG}
  }

  ghost predicate IsNsec3Chain(rs: seq<RR>, apex: Name, hash: Name -> int, q: seq<Name>, chain: seq<Nsec3Record>) {
    && |chain| == |q|
    && forall i :: 0 <= i < |q| ==>
        chain[i] == Nsec3Record(hash(q[i]), hash(Succ(q, i)), GeneratedTypes3(rs, apex, q[i]))
  }

  // ---------------------------------------------------------------- generation

  ghost function AncestorsOf(s: set<Name>, apex: Name): set<Name> {
    set n, i | n in s && 1 <= i < |n| - |apex| :: Ancestor(n, i)
  }

  method AddAncestors(names: set<Name>, n: Name, apex: Name) returns (all: set<Name>)
    ensures all == names + AncestorsOf({n}, apex)
  {
    all := names;
    var i := 1;
    while i < |n| - |apex|
      invariant i >= 1
      invariant forall x :: x in all <==>
          x in names || exists j :: 1 <= j < i && j < |n| - |apex| && x == Ancestor(n, j)
    {
      var parent := Ancestor(n, i);
      if parent !in all { all := all + {parent}; }
      i := i + 1;
    }
  }

  /** The names with every name between them and the apex. */
  method AddEmptyNonTerminals(names: set<Name>, apex: Name) returns (all: set<Name>)
    ensures all == names + AncestorsOf(names, apex)
  {
    all := names;
    var rest := names;
    while rest != {}
      invariant rest <= names && all == names + AncestorsOf(names - rest, apex)
      decreases rest
    {
      var n :| n in rest;
      AncestorsOfOneMore(names - rest, n, apex);
      assert names - (rest - {n}) == (names - rest) + {n};
      all := AddAncestors(all, n, apex);
      rest := rest - {n};
    }
    assert names - rest == names;
  }

  lemma AncestorsOfOneMore(s: set<Name>, n: Name, apex: Name)
    ensures AncestorsOf(s + {n}, apex) == AncestorsOf(s, apex) + AncestorsOf({n}, apex)
  {
  }

  method SortByHash(s: set<Name>, hash: Name -> int) returns (q: seq<Name>)
    ensures HashOrder(q, s, hash)
  {
    q := [];
    var rest := s;
    while rest != {}
      invariant rest <= s && HashOrder(q, s - rest, hash)
      decreases rest
    {
      var n :| n in rest;
      q := InsertByHash(q, s - rest, n, hash);
      rest := rest - {n};
      assert s - rest == s - (rest + {n}) + {n};
    }
    assert s - rest == s;
  }

  method InsertByHash(q: seq<Name>, ghost s: set<Name>, n: Name, hash: Name -> int) returns (r: seq<Name>)
    requires HashOrder(q, s, hash) && n !in s
    ensures HashOrder(r, s + {n}, hash)
  {
    var i := 0;
    while i < |q| && hash(q[i]) < hash(n)
      invariant 0 <= i <= |q|
      invariant forall j :: 0 <= j < i ==> hash(q[j]) < hash(n)
    {
      i := i + 1;
    }
    r := q[..i] + [n] + q[i..];
    InsertedByHash(q, s, i, n, hash);
  }

  lemma InsertedByHash(q: seq<Name>, s: set<Name>, i: nat, n: Name, hash: Name -> int)
    requires HashOrder(q, s, hash) && n !in s && i <= |q|
    requires forall j :: 0 <= j < i ==> hash(q[j]) < hash(n)
    requires i < |q| ==> hash(n) <= hash(q[i])
    ensures HashOrder(q[..i] + [n] + q[i..], s + {n}, hash)
  {
    var r := q[..i] + [n] + q[i..];
    InsertedElements(q, s, i, n);
    forall j | 0 <= j < |q| ensures q[j] != n && (j >= i ==> hash(n) <= hash(q[j])) { assert q[j] in q; }
    forall a, b | 0 <= a < b < |r| ensures r[a] != r[b] && hash(r[a]) <= hash(r[b]) {
      if a != i && b != i {
        var a', b' := if a < i then a else a - 1, if b < i then b else b - 1;
        assert r[a] == q[a'] && r[b] == q[b'];
      }
    }
  }

  lemma InsertedElements(q: seq<Name>, s: set<Name>, i: nat, n: Name)
    requires Elements(q, s) && i <= |q|
    ensures Elements(q[..i] + [n] + q[i..], s + {n})
  {
    assert q == q[..i] + q[i..];
  }

  method Bitmap3(rs: seq<RR>, apex: Name, n: Name, delegation: bool, types: set<nat>) returns (bitmap: multiset<nat>)
    requires types == TypesAt(rs, n) + (if n == apex && n in Owners(rs) then {NSEC3PARAM} else {})
    requires delegation <==> Delegation(rs, apex, n)
    ensures bitmap == GeneratedTypes3(rs, apex, n)
  {
    TypeIsHeld(rs, n, DS);
    bitmap := multiset{};
    if delegation {
      bitmap := multiset{NS};
      if DS in types { bitmap := bitmap + multiset{DS, RRSIG}; }
    } else if types != {} {
      bitmap := multiset(types) + multiset{RRSIG};
    }
  }

  /** Collects owners and empty non-terminals, sorts them by hash and links each to the next. */
  method GenerateNSEC3Chain(m: ZoneModel, rs: seq<RR>, hash: Name -> int)
    returns (chain: seq<Nsec3Record>, ghost q: seq<Name>)
    requires m.Valid() && m.records == rs
    modifies m`occluded
    ensures m.Valid()
    ensures HashOrder(q, Authoritative(rs, m.apex) + AddedNonTerminals(rs, m.apex), hash)
    ensures IsNsec3Chain(rs, m.apex, hash, q, chain)
  {
    hide Occluded, Succ, GeneratedTypes3, HashOrder, Delegation;
    var types := CollectOwners(m, rs);
    var all := AddEmptyNonTerminals(types.Keys, m.apex);
    AddedAreAncestors(rs, m.apex);
    var names := SortByHash(all, hash);
    q := names;
    chain := [];
    for i := 0 to |names|
      invariant m.Valid() && |chain| == i
      invariant forall j :: 0 <= j < i ==>
          chain[j] == Nsec3Record(hash(q[j]), hash(Succ(q, j)), GeneratedTypes3(rs, m.apex, q[j]))
    {
      var n := names[i];
      var at := (if n in types then types[n] else {}) + (if n == m.apex && n in types then {NSEC3PARAM} else {});
      ListedTypes(rs, m.apex, all, names, i, hash);
      var bitmap := Bitmap3(rs, m.apex, n, n in m.delegations, at);
      chain := chain + [Nsec3Record(hash(n), hash(Succ(names, i)), bitmap)];
    }
  }

  lemma AddedAreAncestors(rs: seq<RR>, apex: Name)
    ensures Authoritative(rs, apex) + AncestorsOf(Authoritative(rs, apex), apex) == Authoritative(rs,
        apex) + AddedNonTerminals(rs, apex)
  {
  }

  /** A listed name without an entry in the type map holds no records, so its bitmap is the empty one. */
  lemma ListedTypes(rs: seq<RR>, apex: Name, all: set<Name>, q: seq<Name>, i: nat, hash: Name -> int)
    requires HashOrder(q, all, hash) && i < |q| && all == Authoritative(rs, apex) + AncestorsOf(Authoritative(rs, apex),
        apex)
    ensures q[i] in Owners(rs) <==> q[i] in Authoritative(rs, apex)
    ensures q[i] !in Owners(rs) ==> TypesAt(rs, q[i]) == {}
  {
    var n := q[i];
    assert n in q && n in all;
    if n !in Authoritative(rs, apex) {
      AddedAreAncestors(rs, apex);
      NonTerminalsAgree(rs, apex);
    }
  }

  // ---------------------------------------------------------------- verification

  function Expected3(rs: seq<RR>, apex: Name, hash: Name -> int, e: seq<Name>, i: nat): Nsec3Record
    requires i < |e|
  { Nsec3Record(hash(e[i]), hash(Succ(e, i)), multiset(DenialTypes(rs, apex, e[i], true))) }

  /** What the verifier accepts against the names e the input dictates. */
  ghost predicate Accepts3(rs: seq<RR>, apex: Name, hash: Name -> int, e: seq<Name>, chain: seq<Nsec3Record>) {
    && chain != []
    && DistinctHashes(chain)
    && (forall i :: 0 <= i < |e| ==> Expected3(rs, apex, hash, e, i) in chain)
    && OnlyExpectedHashes(hash, e, chain)
  }

  ghost predicate DistinctHashes(chain: seq<Nsec3Record>) {
    forall i, j :: 0 <= i < j < |chain| ==> chain[i].hash != chain[j].hash
  }

  /** Indexes the chain by hash; a repeated hash is refused. */
  method IndexByHash(chain: seq<Nsec3Record>) returns (ok: bool, byHash: map<int, Nsec3Record>)
    ensures ok <==> DistinctHashes(chain)
    ensures ok ==> forall h, x :: h in byHash && byHash[h] == x <==> x in chain && x.hash == h
  {
    byHash := map[];
    for i := 0 to |chain|
      invariant forall j, k :: 0 <= j < k < i ==> chain[j].hash != chain[k].hash
      invariant forall h :: h in byHash ==> byHash[h] in chain[..i] && byHash[h].hash == h
      invariant forall j :: 0 <= j < i ==> chain[j].hash in byHash && byHash[chain[j].hash] == chain[j]
    {
      if chain[i].hash in byHash { return false, byHash; }
      byHash := byHash[chain[i].hash := chain[i]];
    }
    ok := true;
  }

  ghost function HashesOf(hash: Name -> int, e: seq<Name>): set<int> { set n | n in e :: hash(n) }

  ghost predicate OnlyExpectedHashes(hash: Name -> int, e: seq<Name>, chain: seq<Nsec3Record>) {
    forall i :: 0 <= i < |chain| ==> chain[i].hash in HashesOf(hash, e)
  }

  /** Whether every record's hash is an expected one. */
  method HashesAreExpected(hash: Name -> int, e: seq<Name>, chain: seq<Nsec3Record>) returns (ok: bool)
    ensures ok <==> OnlyExpectedHashes(hash, e, chain)
  {
    var expectedHashes: set<int> := {};
    for i := 0 to |e|
      invariant expectedHashes == HashesOf(hash, e[..i])
    {
      assert e[..i + 1] == e[..i] + [e[i]];
      expectedHashes := expectedHashes + {hash(e[i])};
    }
    assert e[..|e|] == e;
    for i := 0 to |chain|
      invariant forall j :: 0 <= j < i ==> chain[j].hash in expectedHashes
    {
      if chain[i].hash !in expectedHashes { return false; }
    }
    ok := true;
  }

  /** Whether the chain holds each expected record. */
  method RecordsAreExpected(rs: seq<RR>, apex: Name, hash: Name -> int, e: seq<Name>, chain: seq<Nsec3Record>,
      byHash: map<int, Nsec3Record>)
    returns (ok: bool)
    requires forall h, x :: h in byHash && byHash[h] == x <==> x in chain && x.hash == h
    ensures ok <==> forall i :: 0 <= i < |e| ==> Expected3(rs, apex, hash, e, i) in chain
  {
    hide DenialTypes, Succ;
    for i := 0 to |e|
      invariant forall j :: 0 <= j < i ==> Expected3(rs, apex, hash, e, j) in chain
    {
      ghost var x := Expected3(rs, apex, hash, e, i);
      assert x in chain <==> hash(e[i]) in byHash && byHash[hash(e[i])] == x;
      if hash(e[i]) !in byHash { return false; }
      var n := byHash[hash(e[i])];
      if n.next != hash(Succ(e, i)) || n.types != multiset(DenialTypes(rs, apex, e[i], true)) { return false; }
      assert n.hash == hash(e[i]) && n == x;
    }
    ok := true;
  }

  /** The verifier: one record per hash, the expected hashes and no others, order and bitmaps. */
  method VerifyNSEC3(rs: seq<RR>, apex: Name, hash: Name -> int, e: seq<Name>, chain: seq<Nsec3Record>)
    returns (ok: bool)
    ensures ok <==> Accepts3(rs, apex, hash, e, chain)
  {
    if chain == [] { return false; }
    var distinct, byHash := IndexByHash(chain);
    if !distinct { return false; }
    ok := HashesAreExpected(hash, e, chain);
    if !ok { return false; }
    ok := RecordsAreExpected(rs, apex, hash, e, chain, byHash);
  }

  // ---------------------------------------------------------------- the generator meets the verifier

  lemma GeneratedIsExpected3(rs: seq<RR>, apex: Name, n: Name)
    requires Stripped(rs) && n in ChainNames(rs, apex)
    ensures GeneratedTypes3(rs, apex, n) == multiset(DenialTypes(rs, apex, n, true))
  {
    TypeIsHeld(rs, n, NS);
    if n !in Owners(rs) { assert TypesAt(rs, n) == {}; }
    else if Delegation(rs, apex, n) { assert multiset({NS, DS, RRSIG}) == multiset{NS, DS, RRSIG}; }
    else { OwnedTypes3(rs, apex, n); }
  }

  lemma OwnedTypes3(rs: seq<RR>, apex: Name, n: Name)
    requires Stripped(rs) && n in Owners(rs) && !Delegation(rs, apex, n)
    ensures GeneratedTypes3(rs, apex, n) == multiset(DenialTypes(rs, apex, n, true))
  {
    TypeIsHeld(rs, n, RRSIG);
    var i :| 0 <= i < |rs| && rs[i].owner == n;
    assert rs[i].rrtype in TypesAt(rs, n);
    var types := TypesAt(rs, n) + (if n == apex then {NSEC3PARAM} else {});
    assert RRSIG !in types;
    assert DenialTypes(rs, apex, n, true) == types + {RRSIG};
    assert multiset(types + {RRSIG}) == multiset(types) + multiset{RRSIG};
  }

  /** Under an injective hash the order by hash is the only one. */
  lemma {:induction false} HashOrderUnique(p: seq<Name>, q: seq<Name>, s: set<Name>, hash: Name -> int)
    requires HashOrder(p, s, hash) && HashOrder(q, s, hash) && Injective(s, hash)
    ensures p == q
    decreases |p|
  {
    SameHead(p, q, s, hash);
    if p != [] {
      TailOrder(p, s, hash);
      TailOrder(q, s, hash);
      hide HashOrder;
      HashOrderUnique(p[1..], q[1..], s - {p[0]}, hash);
      assert p == [p[0]] + p[1..] && q == [q[0]] + q[1..];
    }
  }

  lemma SameHead(p: seq<Name>, q: seq<Name>, s: set<Name>, hash: Name -> int)
    requires HashOrder(p, s, hash) && HashOrder(q, s, hash) && Injective(s, hash)
    ensures if p == [] then q == [] else q != [] && p[0] == q[0]
  {
    if p == [] {
      assert forall i :: 0 <= i < |q| ==> q[i] in q;
    } else {
      assert p[0] in p && p[0] in s && p[0] in q;
      var i :| 0 <= i < |q| && q[i] == p[0];
      assert q[0] in q && q[0] in s && q[0] in p;
      var j :| 0 <= j < |p| && p[j] == q[0];
      assert hash(q[0]) <= hash(q[i]) && hash(p[0]) <= hash(p[j]);
    }
  }

  lemma TailOrder(p: seq<Name>, s: set<Name>, hash: Name -> int)
    requires HashOrder(p, s, hash) && p != []
    ensures HashOrder(p[1..], s - {p[0]}, hash)
  {
    forall n ensures n in s - {p[0]} <==> n in p[1..] {
      if n in s && n != p[0] { var i :| 0 <= i < |p| && p[i] == n; assert p[1..][i - 1] == n; }
      if n in p[1..] { var i :| 0 <= i < |p| - 1 && p[1..][i] == n; assert p[i + 1] == n; }
    }
  }

  lemma AcceptedSeparates(rs: seq<RR>, apex: Name, hash: Name -> int, q: seq<Name>, e: seq<Name>,
      chain: seq<Nsec3Record>)
    requires HashOrder(q, ChainNames(rs, apex), hash) && IsNsec3Chain(rs, apex, hash, q, chain)
    requires Accepts3(rs, apex, hash, e, chain)
    ensures Injective(ChainNames(rs, apex), hash)
  {
    hide ChainNames, GeneratedTypes3, Expected3, Succ;
    var s := ChainNames(rs, apex);
    forall a, b | a in s && b in s && hash(a) == hash(b) ensures a == b {
      var i :| 0 <= i < |q| && q[i] == a;
      var j :| 0 <= j < |q| && q[j] == b;
      assert chain[i].hash == chain[j].hash;
    }
  }

  lemma SeparatedAccepted(rs: seq<RR>, apex: Name, hash: Name -> int, q: seq<Name>, chain: seq<Nsec3Record>)
    requires Stripped(rs) && q != []
    requires HashOrder(q, ChainNames(rs, apex), hash) && IsNsec3Chain(rs, apex, hash, q, chain)
    requires Injective(ChainNames(rs, apex), hash)
    ensures Accepts3(rs, apex, hash, q, chain)
  {
    hide ChainNames, GeneratedTypes3, DenialTypes, Succ, Stripped;
    forall i | 0 <= i < |q| ensures Expected3(rs, apex, hash, q, i) in chain && chain[i].hash == hash(q[i]) {
      assert q[i] in q;
      GeneratedIsExpected3(rs, apex, q[i]);
      assert chain[i] == Expected3(rs, apex, hash, q, i);
    }
    forall i, j | 0 <= i < j < |chain| ensures chain[i].hash != chain[j].hash {
      assert q[i] in q && q[j] in q;
    }
  }

  /**
   * On every stripped zone the generated NSEC3 chain is accepted exactly when the hash separates the
   * zone's names: a collision is always caught.
   */
  lemma Nsec3AcceptedIffNoCollision(rs: seq<RR>, apex: Name, hash: Name -> int, q: seq<Name>, e: seq<Name>,
      chain: seq<Nsec3Record>)
    requires InZone(rs, apex) && Stripped(rs)
    requires HashOrder(q, Authoritative(rs, apex) + AddedNonTerminals(rs, apex), hash)
    requires HashOrder(e, ChainNames(rs, apex), hash)
    requires IsNsec3Chain(rs, apex, hash, q, chain)
    ensures Accepts3(rs, apex, hash, e, chain) <==> Injective(ChainNames(rs, apex), hash)
  {
    hide Accepts3, IsNsec3Chain, HashOrder, Injective;
    NonTerminalsAgree(rs, apex);
    if Accepts3(rs, apex, hash, e, chain) { AcceptedSeparates(rs, apex, hash, q, e, chain); }
    if Injective(ChainNames(rs, apex), hash) {
      HashOrderUnique(q, e, ChainNames(rs, apex), hash);
      ApexListed(rs, apex, hash, q);
      SeparatedAccepted(rs, apex, hash, q, chain);
    }
  }

  lemma ApexListed(rs: seq<RR>, apex: Name, hash: Name -> int, q: seq<Name>)
    requires InZone(rs, apex) && HashOrder(q, ChainNames(rs, apex), hash)
    ensures q != []
  {
    assert apex in Authoritative(rs, apex) && apex in q;
  }

  // ---------------------------------------------------------------- parameters

  /** The parameter fields NSEC3 and NSEC3PARAM records share; the salt is hexadecimal text. */
  datatype Parameters = Parameters(hashAlgorithm: nat, flags: nat, iterations: nat, salt: string)

  /** An NSEC3 record at <hash>.<zone>, with its parameters. */
  datatype OwnedNsec3 = OwnedNsec3(zone: Name, parameters: Parameters, record: Nsec3Record)

  /** The denial records of a zone: its NSEC3PARAM records with their owners, and its NSEC3 records. */
  datatype Denial = Denial(params: seq<(Name, Parameters)>, records: seq<OwnedNsec3>)

  const SHA1: nat := 1

  function Upper(s: string): string {
    if s == "" then "" else [if 'a' <= s[0] <= 'z' then (s[0] as int - 32) as char else s[0]] + Upper(s[1..])
  }

  /** The salt as it is compared: upper case, with "-" for none. */
  function NormalSalt(salt: string): string { if Upper(salt) == "" then "-" else Upper(salt) }

  predicate Matches(p: Parameters, iterations: nat, salt: string) {
    p.hashAlgorithm == SHA1 && p.flags == 0 && p.iterations == iterations && NormalSalt(p.salt) == NormalSalt(salt)
  }

  function Chain3(records: seq<OwnedNsec3>): (chain: seq<Nsec3Record>)
    ensures |chain| == |records| && forall i :: 0 <= i < |records| ==> chain[i] == records[i].record
  { seq(|records|, i requires 0 <= i < |records| => records[i].record) }

  /**
   * What the whole verifier accepts: one matching NSEC3PARAM at the apex, matching records of this zone, and the chain.
   */
  ghost predicate AcceptsDenial(rs: seq<RR>, apex: Name, hash: Name -> int, e: seq<Name>, d: Denial, iterations: nat,
      salt: string) {
    && |d.params| == 1 && d.params[0].0 == apex && Matches(d.params[0].1, iterations, salt)
    && (forall i :: 0 <= i < |d.records| ==>
        d.records[i].zone == apex && Matches(d.records[i].parameters, iterations, salt))
    && Accepts3(rs, apex, hash, e, Chain3(d.records))
  }

  method VerifyNSEC3Denial(rs: seq<RR>, apex: Name, hash: Name -> int, e: seq<Name>, d: Denial, iterations: nat,
      salt: string) returns (ok: bool)
    ensures ok <==> AcceptsDenial(rs, apex, hash, e, d, iterations, salt)
  {
    hide Accepts3;
    if |d.params| != 1 { return false; }
    var (owner, p) := d.params[0];
    if owner != apex || !Matches(p, iterations, salt) { return false; }
    for i := 0 to |d.records|
      invariant forall j :: 0 <= j < i ==>
          d.records[j].zone == apex && Matches(d.records[j].parameters, iterations, salt)
    {
      if d.records[i].zone != apex || !Matches(d.records[i].parameters, iterations, salt) { return false; }
    }
    ok := VerifyNSEC3(rs, apex, hash, e, Chain3(d.records));
  }

  /** The generated denial: the configured parameters on every record, and the chain. */
  ghost predicate IsDenial(rs: seq<RR>, apex: Name, hash: Name -> int, q: seq<Name>, d: Denial, iterations: nat,
      salt: string) {
    var p := Parameters(SHA1, 0, iterations, salt);
    && d.params == [(apex, p)]
    && (forall i :: 0 <= i < |d.records| ==> d.records[i].zone == apex && d.records[i].parameters == p)
    && IsNsec3Chain(rs, apex, hash, q, Chain3(d.records))
  }

  method GenerateNSEC3Denial(m: ZoneModel, rs: seq<RR>, hash: Name -> int, iterations: nat, salt: string)
    returns (d: Denial, ghost q: seq<Name>)
    requires m.Valid() && m.records == rs
    modifies m`occluded
    ensures m.Valid()
    ensures HashOrder(q, Authoritative(rs, m.apex) + AddedNonTerminals(rs, m.apex), hash)
    ensures IsDenial(rs, m.apex, hash, q, d, iterations, salt)
  {
    hide HashOrder, IsNsec3Chain;
    var p := Parameters(SHA1, 0, iterations, salt);
    var chain;
    chain, q := GenerateNSEC3Chain(m, rs, hash);
    var records := [];
    for i := 0 to |chain|
      invariant |records| == i
      invariant forall j :: 0 <= j < i ==> records[j] == OwnedNsec3(m.apex, p, chain[j])
    {
      records := records + [OwnedNsec3(m.apex, p, chain[i])];
    }
    assert Chain3(records) == chain;
    d := Denial([(m.apex, p)], records);
  }

  /**
   * The generated denial of every stripped zone is accepted exactly when the hash separates its names, whatever the
   * parameters.
   */
  lemma DenialAcceptedIffNoCollision(rs: seq<RR>, apex: Name, hash: Name -> int, q: seq<Name>, e: seq<Name>, d: Denial,
      iterations: nat, salt: string)
    requires InZone(rs, apex) && Stripped(rs)
    requires HashOrder(q, Authoritative(rs, apex) + AddedNonTerminals(rs, apex), hash)
    requires HashOrder(e, ChainNames(rs, apex), hash)
    requires IsDenial(rs, apex, hash, q, d, iterations, salt)
    ensures AcceptsDenial(rs, apex, hash, e, d, iterations, salt) <==> Injective(ChainNames(rs, apex), hash)
  {
    hide Accepts3, IsNsec3Chain, HashOrder, Injective, Stripped, InZone;
    Nsec3AcceptedIffNoCollision(rs, apex, hash, q, e, Chain3(d.records));
  }
}
