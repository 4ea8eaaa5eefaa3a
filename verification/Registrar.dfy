/** Replacing the DS set at a registrar whose replies may hide what it applied. */
module DSReplacement {

  datatype DS = DS(tag: nat, alg: nat, digestType: nat, digest: seq<char>)

  /** Sent and acknowledged, sent with an unusable reply, or never sent. */
  datatype Reply = Acknowledged | Dispatched | NotSent

  datatype Outcome = Replaced | DSEmpty | OtherError

  /** The registrar's upsert by key tag. */
  function Upsert(held: set<DS>, d: DS): set<DS> { (set x | x in held && x.tag != d.tag) + {d} }

  function UpsertAll(held: set<DS>, ds: seq<DS>): set<DS>
    decreases |ds|
  {
    if ds == [] then held else UpsertAll(Upsert(held, ds[0]), ds[1..])
  }

  /** Wanted records the registrar does not hold, and held ones not wanted. */
  method CompareDSSets(want: seq<DS>, have: set<DS>) returns (missing: set<DS>, extra: set<DS>)
    ensures missing == (set d | d in want) - have
    ensures extra == have - (set d | d in want)
  {
    missing := {};
    var wanted: set<DS> := {};
    for i := 0 to |want|
      invariant wanted == set d | d in want[..i]
      invariant missing == wanted - have
    {
      assert want[..i + 1] == want[..i] + [want[i]];
      wanted := wanted + {want[i]};
      if want[i] !in have { missing := missing + {want[i]}; }
    }
    assert want[..|want|] == want;
    extra := have - wanted;
  }

  class Registrar {
    /** The DS set the registrar holds for the domain. */
    var held: set<DS>

    /** Delivers one request: acknowledged means applied, dispatched may or may not have been, not sent was not. */
    method Put(d: DS) returns (r: Reply)
      modifies this
      ensures r.Acknowledged? ==> held == Upsert(old(held), d)
      ensures r.Dispatched? ==> held == Upsert(old(held), d) || held == old(held)
      ensures r.NotSent? ==> held == old(held)
    {
      r := *;
      var applied: bool := *;
      if r.Acknowledged? || (r.Dispatched? && applied) { held := Upsert(held, d); }
    }

    method Delete() returns (r: Reply)
      modifies this
      ensures r.Acknowledged? ==> held == {}
      ensures r.Dispatched? ==> held == {} || held == old(held)
      ensures r.NotSent? ==> held == old(held)
    {
      r := *;
      var applied: bool := *;
      if r.Acknowledged? || (r.Dispatched? && applied) { held := {}; }
    }

    /** Reads the set back; an acknowledged read is accurate. */
    method Get() returns (r: Reply, have: set<DS>)
      ensures r.Acknowledged? ==> have == held
    {
      r := *;
      have := held;
    }

    /** Publishes records one at a time, stopping at the first failure. */
    method AddDS(records: seq<DS>) returns (ok: bool)
      modifies this
      ensures ok ==> held == UpsertAll(old(held), records)
      ensures old(held) != {} ==> held != {}
      ensures ok && records != [] ==> held != {}
    {
      ghost var before := held;
      assert records[0..] == records;
      for i := 0 to |records|
        invariant UpsertAll(held, records[i..]) == UpsertAll(before, records)
        invariant before != {} ==> held != {}
        invariant i > 0 ==> held != {}
      {
        assert records[i] in Upsert(held, records[i]);
        assert records[i..][1..] == records[i + 1..];
        var r := Put(records[i]);
        if !r.Acknowledged? { return false; }
      }
      assert records[|records|..] == [];
      ok := true;
    }

    /**
     * Leaves the registrar with exactly `records`: publish, clear, publish again, read back.
     * A clear whose outcome is uncertain is followed by the restore all the same.
     */
    method ReplaceDS(records: seq<DS>) returns (outcome: Outcome)
      modifies this
      ensures outcome.Replaced? ==> held == set d | d in records
      ensures outcome.OtherError? && records != [] && old(held) != {} ==> held != {}
      ensures outcome.DSEmpty? ==> records != []
    {
      if records != [] {
        var published := AddDS(records);
        if !published { return OtherError; }
      }
      var deleted := Delete();
      if deleted.NotSent? { return OtherError; }
      if records == [] {
        if deleted.Acknowledged? { return Replaced; }
        var read, have := Get();
        if !read.Acknowledged? { return OtherError; }
        return if have == {} then Replaced else OtherError;
      }
      var attempt := 1;
      while attempt <= 3
        decreases 4 - attempt
      {
        var restored := AddDS(records);
        if restored {
          var read, have := Get();
          if read.Acknowledged? {
            var missing, extra := CompareDSSets(records, have);
            if missing == {} {
              assert records[0] in (set d | d in records) && records[0] !in missing;
              if extra != {} { return OtherError; }
              return Replaced;
            }
          }
        }
        var budgetLeft: bool := *;
        if !budgetLeft { return DSEmpty; }
        attempt := attempt + 1;
      }
      outcome := DSEmpty;
    }
  }
}
