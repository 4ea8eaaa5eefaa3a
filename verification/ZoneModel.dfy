/** The canonical index of one zone snapshot: owners, cuts, occlusion, denial types. */
module ZoneData {
  import opened CanonicalNames

  const NS: nat := 2
  const SOA: nat := 6
  const DNAME: nat := 39
  const DS: nat := 43
  const RRSIG: nat := 46
  const NSEC: nat := 47
  const DNSKEY: nat := 48
  const NSEC3: nat := 50
  const NSEC3PARAM: nat := 51

  /** A record by its canonical owner and type. */
  datatype RR = RR(owner: Name, rrtype: nat)

  function Owners(rs: seq<RR>): set<Name> { set i | 0 <= i < |rs| :: rs[i].owner }

  function TypesAt(rs: seq<RR>, n: Name): set<nat> { set i | 0 <= i < |rs| && rs[i].owner == n :: rs[i].rrtype }

  /** The name obtained by dropping the i most specific labels. */
  function Ancestor(n: Name, i: nat): Name
    requires i <= |n|
  { n[i..] }

  predicate Delegation(rs: seq<RR>, apex: Name, n: Name) { n != apex && RR(n, NS) in rs }

  predicate Cut(rs: seq<RR>, apex: Name, n: Name) { Delegation(rs, apex, n) || RR(n, DNAME) in rs }

  /** Some proper ancestor strictly below the apex is a cut. */
  predicate Occluded(rs: seq<RR>, apex: Name, n: Name) {
    exists i :: 1 <= i < |n| - |apex| && Cut(rs, apex, Ancestor(n, i))
  }

  predicate Signable(rs: seq<RR>, apex: Name, n: Name, t: nat) {
    !Occluded(rs, apex, n) && (Delegation(rs, apex, n) ==> t == DS || t == NSEC)
  }

  function Authoritative(rs: seq<RR>, apex: Name): set<Name> { set n | n in Owners(rs) && !Occluded(rs, apex, n) }

  /** Names the verifier expects to hold nothing: above authoritative owners, below the apex, without records. */
  function EmptyNonTerminals(rs: seq<RR>, apex: Name): set<Name> {
    set n, i | n in Authoritative(rs, apex) && 1 <= i < |n| - |apex| && Ancestor(n, i) !in Owners(rs) :: Ancestor(n, i)
  }

  /** The names the generator adds: ancestors of authoritative owners that are not authoritative owners. */
  function AddedNonTerminals(rs: seq<RR>, apex: Name): set<Name> {
    set n, i | n in Authoritative(rs, apex) && 1 <= i < |n| - |apex| && Ancestor(n, i) !in Authoritative(rs, apex) ::
        Ancestor(n, i)
  }

  /** The type bitmap the denial record of an owner must carry. */
  function DenialTypes(rs: seq<RR>, apex: Name, n: Name, nsec3: bool): set<nat> {
    (if n !in Owners(rs) then {}
     else if Delegation(rs, apex, n) then {NS} + (if RR(n, DS) in rs then (if nsec3 then {DS, RRSIG} else {DS}) else {})
     else TypesAt(rs, n) + (if nsec3 then {RRSIG} else {}))
    + (if nsec3 then (if n == apex && n in Owners(rs) then {NSEC3PARAM} else {}) else {NSEC, RRSIG})
  }

  /** Every owner is in the zone and the apex holds records, as validation requires. */
  predicate InZone(rs: seq<RR>, apex: Name) {
    apex in Owners(rs) && forall i :: 0 <= i < |rs| ==> Within(rs[i].owner, apex)
  }

  /** No record of a type the signer generates itself is left in the input. */
  predicate Stripped(rs: seq<RR>) {
    forall i :: 0 <= i < |rs| ==>
        rs[i].rrtype != RRSIG && rs[i].rrtype != NSEC && rs[i].rrtype != NSEC3 && rs[i].rrtype != NSEC3PARAM
  }

  lemma AncestorOfAncestor(n: Name, i: nat, j: nat)
    requires i + j <= |n|
    ensures Ancestor(Ancestor(n, i), j) == Ancestor(n, i + j)
  {
  }

  /** Ancestors of a visible name are visible. */
  lemma AncestorsAreVisible(rs: seq<RR>, apex: Name, n: Name, i: nat)
    requires !Occluded(rs, apex, n) && 1 <= i < |n| - |apex|
    ensures !Occluded(rs, apex, Ancestor(n, i))
  {
    var a := Ancestor(n, i);
    if Occluded(rs, apex, a) {
      var j :| 1 <= j < |a| - |apex| && Cut(rs, apex, Ancestor(a, j));
      AncestorOfAncestor(n, i, j);
      assert false;
    }
  }

  /** So both computations of the empty non-terminals agree. */
  lemma NonTerminalsAgree(rs: seq<RR>, apex: Name)
    ensures AddedNonTerminals(rs, apex) == EmptyNonTerminals(rs, apex)
  {
    forall n, i: nat | n in Authoritative(rs, apex) && 1 <= i < |n| - |apex|
      ensures Ancestor(n, i) in Owners(rs) <==> Ancestor(n, i) in Authoritative(rs, apex)
    {
      AncestorsAreVisible(rs, apex, n, i);
    }
  }

  /** The index the signer builds once per snapshot, with memoized occlusion answers. */
  class ZoneModel {
    const apex: Name
    ghost var records: seq<RR>
    var owners: map<Name, set<nat>>
    var delegations: set<Name>
    var dnames: set<Name>
    var occluded: map<Name, bool>

    ghost predicate Indexed()
      reads this
    {
      && owners.Keys == Owners(records)
      && (forall n :: n in owners ==> owners[n] == TypesAt(records, n))
      && (forall n :: n in delegations <==> Delegation(records, apex, n))
      && (forall n :: n in dnames <==> RR(n, DNAME) in records)
    }

    ghost predicate Valid()
      reads this
    {
      Indexed() && forall n :: n in occluded ==> occluded[n] == Occluded(records, apex, n)
    }

    constructor (apex: Name, rs: seq<RR>)
      ensures Valid() && this.apex == apex && records == rs && occluded == map[]
    {
      this.apex := apex;
      records, owners, delegations, dnames, occluded := [], map[], {}, {}, map[];
      new;
      for i := 0 to |rs|
        invariant records == rs[..i] && occluded == map[] && Indexed()
      {
        Add(rs[i]);
        assert rs[..i] + [rs[i]] == rs[..i + 1];
      }
      assert rs[..|rs|] == rs;
    }

    /** Indexes one record. */
    method Add(rr: RR)
      requires Indexed() && occluded == map[]
      modifies this
      ensures Indexed() && occluded == map[] && records == old(records) + [rr]
    {
      hide Owners, TypesAt;
      var types := if rr.owner in owners then owners[rr.owner] else {};
      owners := owners[rr.owner := types + {rr.rrtype}];
      if rr.rrtype == NS {
        if rr.owner != apex { delegations := delegations + {rr.owner}; }
      } else if rr.rrtype == DNAME {
        dnames := dnames + {rr.owner};
      }
      AddedRecord(records, rr);
      records := records + [rr];
    }

    /** Whether a name lies below a cut; each answer is computed once. */
    method IsOccluded(n: Name) returns (r: bool)
      requires Valid()
      modifies this`occluded
      ensures Valid()
      ensures r == Occluded(records, apex, n)
    {
      if delegations == {} && dnames == {} { return false; }
      if n in occluded { return occluded[n]; }
      r := false;
      var i := 1;
      while i < |n| - |apex|
        invariant 1 <= i
        invariant !r && forall j :: 1 <= j < i && j < |n| - |apex| ==> !Cut(records, apex, Ancestor(n, j))
      {
        var anc := Ancestor(n, i);
        if anc in delegations || anc in dnames {
          r := true;
          break;
        }
        i := i + 1;
      }
      occluded := occluded[n := r];
    }

    /** Whether the zone signs the RRset of type t at n. */
    method IsSignable(n: Name, t: nat) returns (r: bool)
      requires Valid()
      modifies this`occluded
      ensures Valid()
      ensures r == Signable(records, apex, n, t)
    {
      var hidden := IsOccluded(n);
      if hidden { return false; }
      r := !(n in delegations && t != DS && t != NSEC);
    }
  }

  lemma AddedRecord(rs: seq<RR>, rr: RR)
    ensures Owners(rs + [rr]) == Owners(rs) + {rr.owner}
    ensures TypesAt(rs + [rr], rr.owner) == TypesAt(rs, rr.owner) + {rr.rrtype}
    ensures forall n :: n != rr.owner ==> TypesAt(rs + [rr], n) == TypesAt(rs, n)
    ensures rr.owner !in Owners(rs) ==> TypesAt(rs, rr.owner) == {}
  {
    var all := rs + [rr];
    assert forall i :: 0 <= i < |rs| ==> all[i] == rs[i];
    assert all[|rs|] == rr;
    forall n | n != rr.owner ensures TypesAt(all, n) == TypesAt(rs, n) {
      forall t ensures t in TypesAt(all, n) <==> t in TypesAt(rs, n) {
        if t in TypesAt(rs, n) {
          var i :| 0 <= i < |rs| && rs[i].owner == n && rs[i].rrtype == t;
          assert all[i].owner == n && all[i].rrtype == t;
        }
      }
    }
    forall t ensures t in TypesAt(all, rr.owner) <==> t in TypesAt(rs, rr.owner) + {rr.rrtype} {
      if t in TypesAt(rs, rr.owner) {
        var i :| 0 <= i < |rs| && rs[i].owner == rr.owner && rs[i].rrtype == t;
        assert all[i].owner == rr.owner && all[i].rrtype == t;
      }
    }
    forall n ensures n in Owners(all) <==> n in Owners(rs) + {rr.owner} {
      if n in Owners(rs) {
        var i :| 0 <= i < |rs| && rs[i].owner == n;
        assert all[i].owner == n;
      }
    }
  }
}
