/** Bounded, single-flight dispatch of deployment hooks. */
module HookDispatch {
  import opened Common
  import opened ZoneTypes

  /** One publication generation: the single-flight key. */
  datatype Identity = Identity(domain: string, signedAt: int)

  datatype Job = Job(zones: seq<Identity>, cmdKey: string)

  datatype Backoff = Backoff(attempts: nat, until: int, cmdKey: string)

  // ---------------------------------------------------------------- the generations jobs hold

  ghost function Ids(jobs: seq<Job>): multiset<Identity> {
    if jobs == [] then multiset{} else multiset(jobs[0].zones) + Ids(jobs[1..])
  }

  lemma {:induction false} IdsAppend(a: seq<Job>, b: seq<Job>)
    ensures Ids(a + b) == Ids(a) + Ids(b)
    decreases |a|
  {
    if a == [] { assert a + b == b; }
    else {
      assert (a + b)[1..] == a[1..] + b;
      IdsAppend(a[1..], b);
    }
  }

  lemma IdsRemove(jobs: seq<Job>, k: nat)
    requires k < |jobs|
    ensures Ids(jobs) == Ids(jobs[..k] + jobs[k + 1..]) + multiset(jobs[k].zones)
  {
    hide Ids;
    IdsAppend(jobs[..k], jobs[k..]);
    IdsAppend(jobs[..k], jobs[k + 1..]);
    IdsHead(jobs[k..]);
    assert jobs == jobs[..k] + jobs[k..];
    assert jobs[k..][1..] == jobs[k + 1..];
  }

  lemma IdsHead(jobs: seq<Job>)
    requires jobs != []
    ensures Ids(jobs) == multiset(jobs[0].zones) + Ids(jobs[1..])
  {
  }

  lemma IdsOne(job: Job)
    ensures Ids([job]) == multiset(job.zones)
  {
    assert [job][1..] == [];
  }

  lemma RepeatCountsTwice(s: seq<Identity>, i: nat, j: nat)
    requires i < j < |s|
    ensures s[i] == s[j] ==> multiset(s)[s[j]] >= 2
  {
    assert s == s[..j] + [s[j]] + s[j + 1..];
    assert s[..j][i] == s[i];
  }

  lemma {:induction false} SinglesHold(accepted: seq<Identity>, cmdKey: string)
    ensures Ids(Singles(accepted, cmdKey)) == multiset(accepted)
    ensures |Singles(accepted, cmdKey)| == |accepted|
    ensures forall i :: 0 <= i < |accepted| ==> Singles(accepted, cmdKey)[i].zones == [accepted[i]]
  {
    if accepted != [] {
      SinglesHold(accepted[1..], cmdKey);
      assert Singles(accepted, cmdKey)[1..] == Singles(accepted[1..], cmdKey);
      assert accepted == [accepted[0]] + accepted[1..];
    }
  }

  function Singles(accepted: seq<Identity>, cmdKey: string): seq<Job> {
    if accepted == [] then [] else [Job([accepted[0]], cmdKey)] + Singles(accepted[1..], cmdKey)
  }

  /** One batch job when coalescing, otherwise one job per zone. */
  function JobsFor(accepted: seq<Identity>, cmdKey: string, coalesce: bool): seq<Job> {
    if coalesce then [Job(accepted, cmdKey)] else Singles(accepted, cmdKey)
  }

  /** `active` is exactly the disjoint union of what the jobs hold and `others`. */
  ghost predicate Accounted(active: set<Identity>, queue: seq<Job>, others: multiset<Identity>) {
    Ids(queue) + others == multiset(active)
  }

  // ---------------------------------------------------------------- superseding

  predicate Older(q: Identity, z: Identity) { q.domain == z.domain && q.signedAt < z.signedAt }

  function NotOlder(zones: seq<Identity>, z: Identity): seq<Identity> {
    if zones == [] then [] else (if Older(zones[0], z) then [] else [zones[0]]) + NotOlder(zones[1..], z)
  }

  function DropOlder(jobs: seq<Job>, z: Identity): seq<Job> {
    if jobs == [] then [] else
    var zones := NotOlder(jobs[0].zones, z);
    (if zones == [] then [] else [jobs[0].(zones := zones)]) + DropOlder(jobs[1..], z)
  }

  ghost function Superseded(jobs: seq<Job>, z: Identity): set<Identity> { set q | q in Ids(jobs) && Older(q, z) }

  ghost function OlderIn(zones: seq<Identity>, z: Identity): set<Identity> { set q | q in zones && Older(q, z) }

  lemma NotOlderStep(zones: seq<Identity>, i: nat, z: Identity)
    requires i < |zones|
    ensures NotOlder(zones[i..], z) == (if Older(zones[i], z) then [] else [zones[i]]) + NotOlder(zones[i + 1..], z)
    ensures OlderIn(zones[..i + 1], z) == OlderIn(zones[..i], z) + if Older(zones[i], z) then {zones[i]} else {}
  {
    assert zones[i..][1..] == zones[i + 1..];
    assert zones[..i + 1] == zones[..i] + [zones[i]];
  }

  lemma NoneOlder(z: Identity)
    ensures NotOlder([], z) == [] && OlderIn([], z) == {}
  {
  }

  lemma {:induction false} NotOlderKeeps(zones: seq<Identity>, z: Identity, q: Identity)
    ensures multiset(NotOlder(zones, z))[q] == if Older(q, z) then 0 else multiset(zones)[q]
  {
    if zones != [] {
      NotOlderKeeps(zones[1..], z, q);
      assert zones == [zones[0]] + zones[1..];
    }
  }

  lemma {:induction false} DropOlderKeeps(jobs: seq<Job>, z: Identity, q: Identity)
    ensures Ids(DropOlder(jobs, z))[q] == if Older(q, z) then 0 else Ids(jobs)[q]
    ensures forall j <- DropOlder(jobs, z) :: j.zones != []
  {
    if jobs != [] {
      DropOlderKeeps(jobs[1..], z, q);
      var zones := NotOlder(jobs[0].zones, z);
      NotOlderKeeps(jobs[0].zones, z, q);
      var first := if zones == [] then [] else [jobs[0].(zones := zones)];
      IdsAppend(first, DropOlder(jobs[1..], z));
      assert Ids(first) == multiset(zones);
    }
  }

  /** One more job: what it adds to the superseded set and to the kept queue. */
  lemma DropOlderStep(jobs: seq<Job>, i: nat, z: Identity)
    requires i < |jobs|
    ensures Superseded(jobs[..i + 1], z) == Superseded(jobs[..i], z) + set q | q in jobs[i].zones && Older(q, z)
    ensures var zones := NotOlder(jobs[i].zones, z);
      DropOlder(jobs[i..], z) == (if zones == [] then [] else [jobs[i].(zones := zones)]) + DropOlder(jobs[i + 1..], z)
  {
    PrefixIds(jobs, i);
    assert jobs[i..][1..] == jobs[i + 1..];
  }

  lemma NothingYet(z: Identity)
    ensures Superseded([], z) == {} && DropOlder([], z) == []
  {
  }

  lemma NoIds()
    ensures Ids([]) == multiset{}
  {
  }

  lemma PrefixIds(jobs: seq<Job>, i: nat)
    requires i < |jobs|
    ensures Ids(jobs[..i + 1]) == Ids(jobs[..i]) + multiset(jobs[i].zones)
  {
    hide Ids;
    assert jobs[..i + 1] == jobs[..i] + [jobs[i]];
    IdsAppend(jobs[..i], [jobs[i]]);
    IdsOne(jobs[i]);
  }

  /** Superseding takes out of `active` exactly what it takes out of the queue. */
  lemma DropOlderAccounted(active: set<Identity>, jobs: seq<Job>, others: multiset<Identity>, z: Identity)
    requires Accounted(active, jobs, others)
    ensures Accounted(active - Superseded(jobs, z), DropOlder(jobs, z), others)
  {
    var left := DropOlder(jobs, z);
    forall q ensures (Ids(left) + others)[q] == multiset(active - Superseded(jobs, z))[q] {
      DropOlderKeeps(jobs, z, q);
      assert (Ids(jobs) + others)[q] == multiset(active)[q];
    }
  }

  // ---------------------------------------------------------------- offering generations

  datatype Front = Front(queue: seq<Job>, active: set<Identity>, accepted: seq<Identity>)

  predicate HeldBack(backoff: map<Identity, Backoff>, z: Identity, cmdKey: string, now: int) {
    z in backoff && backoff[z].cmdKey == cmdKey && now < backoff[z].until
  }

  ghost function Offer(f: Front, z: Identity, held: bool): Front {
    if z in f.active || held then f
    else Front(DropOlder(f.queue, z), f.active - Superseded(f.queue, z) + {z}, f.accepted + [z])
  }

  ghost function OfferAll(f: Front, zs: seq<Identity>, backoff: map<Identity, Backoff>, cmdKey: string, now: int): Front
    decreases |zs|
  {
    if zs == [] then f
    else OfferAll(Offer(f, zs[0], HeldBack(backoff, zs[0], cmdKey, now)), zs[1..], backoff, cmdKey, now)
  }

  /** One turn of the loop over the offered generations. */
  lemma OfferStep(f: Front, zs: seq<Identity>, i: nat, backoff: map<Identity, Backoff>, cmdKey: string, now: int)
    requires i < |zs|
    ensures OfferAll(f, zs[i..], backoff, cmdKey, now)
         == OfferAll(Offer(f, zs[i], HeldBack(backoff, zs[i], cmdKey, now)), zs[i + 1..], backoff, cmdKey, now)
  {
    assert zs[i..][1..] == zs[i + 1..];
  }

  lemma NoneLeft(f: Front, zs: seq<Identity>, backoff: map<Identity, Backoff>, cmdKey: string, now: int)
    ensures OfferAll(f, zs[|zs|..], backoff, cmdKey, now) == f
  {
  }

  /** Queueing the accepted generations moves them from the cycle to the queue. */
  lemma EnqueuedAccounted(active: set<Identity>, queue: seq<Job>, running: multiset<Identity>, accepted: seq<Identity>,
      cmdKey: string, coalesce: bool)
    requires Accounted(active, queue, running + multiset(accepted))
    ensures Accounted(active, queue + JobsFor(accepted, cmdKey, coalesce), running)
    ensures accepted != [] ==> forall j <- JobsFor(accepted, cmdKey, coalesce) :: j.zones != []
    ensures accepted != [] ==> JobsFor(accepted, cmdKey, coalesce) != []
  {
    hide Ids, Singles;
    SinglesHold(accepted, cmdKey);
    IdsAppend(queue, JobsFor(accepted, cmdKey, coalesce));
    IdsOne(Job(accepted, cmdKey));
    assert Ids(queue) + multiset(accepted) + running == Ids(queue) + (running + multiset(accepted));
  }

  lemma OfferAccounted(f: Front, z: Identity, held: bool, running: multiset<Identity>)
    requires Accounted(f.active, f.queue, running + multiset(f.accepted))
    ensures var g := Offer(f, z, held); Accounted(g.active, g.queue, running + multiset(g.accepted))
  {
    if z !in f.active && !held {
      DropOlderAccounted(f.active, f.queue, running + multiset(f.accepted), z);
      var g := Offer(f, z, held);
      assert multiset(g.active) == multiset(f.active - Superseded(f.queue, z)) + multiset{z};
      assert multiset(g.accepted) == multiset(f.accepted) + multiset{z};
    }
  }

  /** Offering another zone leaves this zone's generations alone. */
  lemma OfferFrame(f: Front, z: Identity, held: bool, q: Identity)
    requires q.domain != z.domain
    ensures var g := Offer(f, z, held);
      && (q in g.active <==> q in f.active)
      && Ids(g.queue)[q] == Ids(f.queue)[q]
      && (q in g.accepted <==> q in f.accepted)
  {
    DropOlderKeeps(f.queue, z, q);
  }

  ghost predicate DistinctDomains(zs: seq<Identity>) {
    forall i, j :: 0 <= i < j < |zs| ==> zs[i].domain != zs[j].domain }

  lemma {:induction false} OfferAllFrame(f: Front, zs: seq<Identity>, backoff: map<Identity, Backoff>, cmdKey: string,
      now: int, q: Identity)
    requires forall z <- zs :: z.domain != q.domain
    ensures var g := OfferAll(f, zs, backoff, cmdKey, now);
      && (q in g.active <==> q in f.active)
      && Ids(g.queue)[q] == Ids(f.queue)[q]
      && (q in g.accepted <==> q in f.accepted)
    decreases |zs|
  {
    if zs != [] {
      var held := HeldBack(backoff, zs[0], cmdKey, now);
      OfferFrame(f, zs[0], held, q);
      OfferAllFrame(Offer(f, zs[0], held), zs[1..], backoff, cmdKey, now, q);
    }
  }

  /**
   * A cycle offering one generation per zone: exactly the generations that are neither active nor held
   * back are accepted, and no older generation of an accepted zone stays queued.
   */
  lemma {:induction false} OfferedCycle(f: Front, zs: seq<Identity>, backoff: map<Identity, Backoff>, cmdKey: string,
      now: int, k: nat, q: Identity)
    requires k < |zs| && DistinctDomains(zs) && (forall a <- f.accepted, z <- zs :: a.domain != z.domain)
    ensures var g := OfferAll(f, zs, backoff, cmdKey, now);
      && (zs[k] in g.accepted <==> zs[k] !in f.active && !HeldBack(backoff, zs[k], cmdKey, now))
      && (zs[k] in g.active || HeldBack(backoff, zs[k], cmdKey, now))
      && (zs[k] in g.accepted && Older(q, zs[k]) ==> q !in Ids(g.queue))
    decreases |zs|
  {
    hide HeldBack, DropOlder, Ids, Superseded, OfferAll;
    var z := zs[0];
    var held := HeldBack(backoff, z, cmdKey, now);
    var next := Offer(f, z, held);
    OfferHead(f, zs, backoff, cmdKey, now);
    if k == 0 {
      OfferAllFrame(next, zs[1..], backoff, cmdKey, now, z);
      assert z in zs && z !in f.accepted;
      OfferSupersedes(f, z, held, q);
      if Older(q, z) { OfferAllFrame(next, zs[1..], backoff, cmdKey, now, q); }
    } else {
      assert zs[1..][k - 1] == zs[k];
      AcceptedApart(f, zs, held);
      OfferedCycle(next, zs[1..], backoff, cmdKey, now, k - 1, q);
      OfferFrame(f, z, held, zs[k]);
    }
  }

  lemma OfferHead(f: Front, zs: seq<Identity>, backoff: map<Identity, Backoff>, cmdKey: string, now: int)
    requires zs != []
    ensures OfferAll(f, zs, backoff, cmdKey, now)
         == OfferAll(Offer(f, zs[0], HeldBack(backoff, zs[0], cmdKey, now)), zs[1..], backoff, cmdKey, now)
  {
  }

  /** An accepted generation leaves no older one of its zone queued. */
  lemma OfferSupersedes(f: Front, z: Identity, held: bool, q: Identity)
    requires z !in f.accepted
    ensures var g := Offer(f, z, held);
      && (z in g.accepted <==> z !in f.active && !held)
      && (z in g.active || held)
      && (z in g.accepted && Older(q, z) ==> q !in Ids(g.queue))
  {
    DropOlderKeeps(f.queue, z, q);
  }

  lemma AcceptedApart(f: Front, zs: seq<Identity>, held: bool)
    requires zs != [] && DistinctDomains(zs) && (forall a <- f.accepted, z <- zs :: a.domain != z.domain)
    ensures DistinctDomains(zs[1..]) && forall a <- Offer(f, zs[0], held).accepted, y <- zs[1..] :: a.domain != y.domain
  {
    var z, next := zs[0], Offer(f, zs[0], held);
    assert forall a <- next.accepted :: a in f.accepted || a == z;
    forall a <- next.accepted, y <- zs[1..] ensures a.domain != y.domain {
      if a == z { var i :| 0 <= i < |zs[1..]| && zs[1..][i] == y; assert zs[i + 1] == y; }
    }
  }

  // ---------------------------------------------------------------- backoff

  function Pow2(n: nat): (p: nat)
    ensures p > 0
  { if n == 0 then 1 else 2 * Pow2(n - 1) }

  function FirstDelay(base: int): (d: nat)
    ensures d > 0
  { if base > 0 then base else SECOND }

  function Min(a: nat, b: nat): nat { if a < b then a else b }

  /** The delay after the k-th failure. */
  function Delay(base: int, max: nat, k: nat): nat
    requires k > 0
  { Min(FirstDelay(base) * Pow2(k - 1), max) }

  lemma {:induction false} PowGrows(b: nat, i: nat, k: nat)
    requires i <= k
    ensures b * Pow2(i) <= b * Pow2(k)
    decreases k
  {
    if i < k {
      PowGrows(b, i, k - 1);
      assert b * Pow2(k) == 2 * (b * Pow2(k - 1));
    }
  }

  method RetryDelay(base: int, max: nat, attempts: nat) returns (delay: nat)
    requires attempts > 0
    ensures delay == Delay(base, max, attempts)
  {
    delay := if base <= 0 then SECOND else base;
    ghost var b := FirstDelay(base);
    var i := 1;
    while i < attempts && delay < max
      invariant 1 <= i <= attempts && delay == b * Pow2(i - 1)
    {
      assert b * Pow2(i) == 2 * (b * Pow2(i - 1));
      delay := delay * 2;
      i := i + 1;
    }
    PowGrows(b, i - 1, attempts - 1);
    if delay > max { delay := max; }
  }

  function Attempts(backoff: map<Identity, Backoff>, z: Identity): nat {
    if z in backoff then backoff[z].attempts else 0 }

  function Failed(attempts: nat, base: int, max: nat, cmdKey: string, now: int): Backoff {
    Backoff(attempts + 1, now + Delay(base, max, attempts + 1), cmdKey)
  }

  /** The records after an invocation over these generations ends. */
  ghost function Settled(backoff: map<Identity, Backoff>, zs: set<Identity>, failed: bool, base: int, max: nat,
      cmdKey: string, now: int): map<Identity, Backoff> {
    if failed
    then map q | q in backoff.Keys + zs :: if q in zs then Failed(Attempts(backoff, q), base, max, cmdKey, now)
        else backoff[q]
    else backoff - zs
  }

  ghost function Elems(zones: seq<Identity>): set<Identity> { set q | q in zones }

  lemma NoneSettled(backoff: map<Identity, Backoff>, failed: bool, base: int, max: nat, cmdKey: string, now: int)
    ensures Settled(backoff, {}, failed, base, max, cmdKey, now) == backoff
  {
  }

  lemma SettledStep(backoff: map<Identity, Backoff>, zs: set<Identity>, z: Identity, failed: bool, base: int, max: nat,
      cmdKey: string, now: int)
    requires z !in zs
    ensures var before := Settled(backoff, zs, failed, base, max, cmdKey, now);
      && Attempts(before, z) == Attempts(backoff, z)
      && Settled(backoff, zs + {z}, failed, base, max, cmdKey, now)
         == if failed then before[z := Failed(Attempts(before, z), base, max, cmdKey, now)] else before - {z}
  {
  }

  /** One settled invocation: the generations it covered, its outcome, and the base delay in force. */
  datatype Attempt = Attempt(zones: set<Identity>, failed: bool, base: int, cmdKey: string, now: int)

  ghost function SettleAll(backoff: map<Identity, Backoff>, runs: seq<Attempt>, max: nat): map<Identity, Backoff> {
    if runs == [] then backoff else
    var last := runs[|runs| - 1];
    Settled(SettleAll(backoff, runs[..|runs| - 1], max), last.zones, last.failed, last.base, max, last.cmdKey, last.now)
  }

  /** How often a generation has failed since it last succeeded. */
  ghost function FailuresInARow(runs: seq<Attempt>, z: Identity): nat {
    if runs == [] then 0 else
    var last := runs[|runs| - 1];
    if z !in last.zones then FailuresInARow(runs[..|runs| - 1], z)
    else if last.failed then FailuresInARow(runs[..|runs| - 1], z) + 1
    else 0
  }

  /**
   * Over any sequence of settled invocations, the k-th failure in a row of a generation backs it off by
   * min(base * 2^(k-1), max), with the base of that invocation; a success clears the record.
   */
  lemma {:induction false} KthFailure(runs: seq<Attempt>, max: nat, z: Identity)
    ensures var after := SettleAll(map[], runs, max);
      var k := FailuresInARow(runs, z);
      && Attempts(after, z) == k && (z in after <==> k > 0)
      && (runs != [] && z in runs[|runs| - 1].zones && runs[|runs| - 1].failed ==>
            var last := runs[|runs| - 1];
            after[z] == Backoff(k, last.now + Min((if last.base > 0 then last.base else SECOND) * Pow2(k - 1), max),
                last.cmdKey))
  {
    if runs != [] { KthFailure(runs[..|runs| - 1], max, z); }
  }

  // ---------------------------------------------------------------- the dispatcher

  class HookDispatcher {
    const cap: nat
    const maxBackoff: nat
    var queue: seq<Job>
    var active: set<Identity>
    var backoff: map<Identity, Backoff>
    var backoffBase: int
    var workers: nat
    /** The jobs workers have taken and not settled. */
    ghost var running: seq<Job>

    ghost predicate Valid()
      reads this
    {
      && cap > 0
      && Accounted(active, queue, Ids(running))
      && |running| <= workers <= cap
      && (queue != [] ==> workers > 0)
      && (forall j <- queue :: j.zones != [])
    }

    constructor (cap: nat, maxBackoff: nat)
      requires cap > 0
      ensures Valid() && queue == [] && running == [] && workers == 0 && backoff == map[]
      ensures this.cap == cap && this.maxBackoff == maxBackoff
    {
      this.cap, this.maxBackoff := cap, maxBackoff;
      queue, active, backoff, backoffBase, workers, running := [], {}, map[], 0, 0, [];
    }

    method KeepZones(zones: seq<Identity>, z: Identity) returns (kept: seq<Identity>)
      modifies this`active
      ensures kept == NotOlder(zones, z)
      ensures active == old(active) - set q | q in zones && Older(q, z)
    {
      hide NotOlder;
      kept := [];
      assert zones[0..] == zones;
      for i := 0 to |zones|
        invariant kept + NotOlder(zones[i..], z) == NotOlder(zones, z)
        invariant active == old(active) - OlderIn(zones[..i], z)
      {
        NotOlderStep(zones, i, z);
        if Older(zones[i], z) { active := active - {zones[i]}; } else { kept := kept + [zones[i]]; }
      }
      assert zones[..|zones|] == zones && zones[|zones|..] == [];
      NoneOlder(z);
    }

    /** Removes every queued older generation of the zone; an emptied job goes too. */
    method DropQueuedOlder(z: Identity)
      modifies this`queue, this`active
      ensures queue == DropOlder(old(queue), z)
      ensures active == old(active) - Superseded(old(queue), z)
    {
      hide Ids, DropOlder, Superseded, NotOlder;
      var jobs := queue;
      var kept := [];
      assert jobs[0..] == jobs;
      NothingYet(z);
      for i := 0 to |jobs|
        invariant kept + DropOlder(jobs[i..], z) == DropOlder(jobs, z)
        invariant active == old(active) - Superseded(jobs[..i], z)
      {
        DropOlderStep(jobs, i, z);
        var zones := KeepZones(jobs[i].zones, z);
        if |zones| > 0 { kept := kept + [jobs[i].(zones := zones)]; }
      }
      assert jobs[..|jobs|] == jobs && jobs[|jobs|..] == [];
      queue := kept;
    }

    /** The loop over the offered generations. */
    method OfferGenerations(signed: seq<Identity>, cmdKey: string, now: int) returns (accepted: seq<Identity>)
      requires Valid()
      modifies this`queue, this`active
      ensures Front(queue, active, accepted) == OfferAll(Front(old(queue), old(active), []), signed, backoff, cmdKey,
          now)
      ensures Accounted(active, queue, Ids(running) + multiset(accepted))
      ensures accepted == [] ==> queue == old(queue)
      ensures forall j <- queue :: j.zones != []
    {
      hide Ids, DropOlder, Superseded, OfferAll, Accounted;
      accepted := [];
      assert signed[0..] == signed;
      assert Ids(running) + multiset(accepted) == Ids(running);
      for i := 0 to |signed|
        invariant OfferAll(Front(queue, active, accepted), signed[i..], backoff, cmdKey, now)
               == OfferAll(Front(old(queue), old(active), []), signed, backoff, cmdKey, now)
        invariant Accounted(active, queue, Ids(running) + multiset(accepted))
        invariant accepted == [] ==> queue == old(queue)
        invariant forall j <- queue :: j.zones != []
      {
        var z := signed[i];
        ghost var f := Front(queue, active, accepted);
        OfferStep(f, signed, i, backoff, cmdKey, now);
        OfferAccounted(f, z, HeldBack(backoff, z, cmdKey, now), Ids(running));
        if z in active || (z in backoff && backoff[z].cmdKey == cmdKey && now < backoff[z].until) {
          continue;
        }
        DropOlderKeeps(queue, z, z);
        DropQueuedOlder(z);
        active := active + {z};
        accepted := accepted + [z];
      }
      NoneLeft(Front(queue, active, accepted), signed, backoff, cmdKey, now);
    }

    /** Offers a cycle's generations and starts workers for what was queued. */
    method Dispatch(configured: bool, cmdKey: string, coalesce: bool, signed: seq<Identity>, base: int, now: int)
      returns (enqueued: nat)
      requires Valid()
      modifies this`queue, this`active, this`backoffBase, this`workers
      ensures Valid()
      ensures backoffBase == if configured && signed != [] && base > 0 then base else old(backoffBase)
      ensures var offered := if configured then signed else [];
        var front := OfferAll(Front(old(queue), old(active), []), offered, backoff, cmdKey, now);
        && enqueued == |front.accepted|
        && active == front.active
        && queue == front.queue + (if enqueued == 0 then [] else JobsFor(front.accepted, cmdKey, coalesce))
      ensures workers >= old(workers) && (enqueued > 0 ==> workers >= Min(cap, |queue|))
    {
      hide Ids, Singles, HeldBack, Offer;
      if !configured || |signed| == 0 { return 0; }
      if base > 0 { backoffBase := base; }
      var accepted := OfferGenerations(signed, cmdKey, now);
      enqueued := |accepted|;
      assert accepted == [] ==> Ids(running) + multiset(accepted) == Ids(running);
      if enqueued == 0 { return; }
      EnqueuedAccounted(active, queue, Ids(running), accepted, cmdKey, coalesce);
      queue := queue + JobsFor(accepted, cmdKey, coalesce);
      ghost var jobs, live, first := queue, active, backoffBase;
      while workers < cap && workers < |queue|
        invariant queue == jobs && active == live && backoffBase == first
        invariant old(workers) <= workers <= cap
      {
        workers := workers + 1;
      }
    }

    /** Drops every queued job; running ones are left to finish. */
    method PurgeQueued()
      requires Valid()
      modifies this`queue, this`active
      ensures Valid() && queue == []
      ensures multiset(active) == Ids(running)
    {
      hide Ids;
      var jobs := queue;
      ghost var before := active;
      assert Ids([]) == multiset{} by { NoIds(); }
      for i := 0 to |jobs|
        invariant active == before - set q | q in Ids(jobs[..i])
      {
        PrefixIds(jobs, i);
        active := active - set q | q in jobs[i].zones;
      }
      assert jobs[..|jobs|] == jobs;
      queue := [];
      forall q ensures multiset(active)[q] == Ids(running)[q] {
        assert multiset(before)[q] == (Ids(jobs) + Ids(running))[q];
      }
    }

    /** A worker's turn at the lock: it takes the head of the queue, or leaves when there is none. */
    method TakeJob() returns (job: Option<Job>)
      requires Valid() && |running| < workers
      modifies this`queue, this`workers, this`running
      ensures Valid()
      ensures old(queue) == [] ==> job == None && workers == old(workers) - 1 && queue == [] && running == old(running)
      ensures old(queue) != [] ==> job == Some(old(queue)[0]) && queue == old(queue)[1..]
      ensures old(queue) != [] ==> workers == old(workers) && running == old(running) + [old(queue)[0]]
    {
      if |queue| == 0 {
        workers := workers - 1;
        return None;
      }
      job := Some(queue[0]);
      hide Ids;
      IdsHead(queue);
      IdsAppend(running, [queue[0]]);
      IdsOne(queue[0]);
      running := running + [queue[0]];
      queue := queue[1..];
    }

    /** The body of settling: each generation once. */
    method SettleZones(zones: seq<Identity>, cmdKey: string, failed: bool, now: int)
      requires forall i, j :: 0 <= i < j < |zones| ==> zones[i] != zones[j]
      modifies this`active, this`backoff
      ensures active == old(active) - Elems(zones)
      ensures backoff == Settled(old(backoff), Elems(zones), failed, backoffBase, maxBackoff, cmdKey, now)
    {
      hide Settled, Delay;
      NoneSettled(backoff, failed, backoffBase, maxBackoff, cmdKey, now);
      assert Elems(zones[..0]) == {};
      for i := 0 to |zones|
        invariant active == old(active) - Elems(zones[..i])
        invariant backoff == Settled(old(backoff), Elems(zones[..i]), failed, backoffBase, maxBackoff, cmdKey, now)
      {
        var z := zones[i];
        ghost var seen := Elems(zones[..i]);
        assert z !in seen && Elems(zones[..i + 1]) == seen + {z};
        SettledStep(old(backoff), seen, z, failed, backoffBase, maxBackoff, cmdKey, now);
        active := active - {z};
        if !failed {
          backoff := backoff - {z};
        } else {
          var attempts := (if z in backoff then backoff[z].attempts else 0) + 1;
          var delay := RetryDelay(backoffBase, maxBackoff, attempts);
          backoff := backoff[z := Backoff(attempts, now + delay, cmdKey)];
        }
      }
      assert zones[..|zones|] == zones;
    }

    /** A finished invocation frees its generations; a failure backs each of them off once. */
    method Settle(ghost k: nat, job: Job, failed: bool, now: int)
      requires Valid() && k < |running| && running[k] == job
      modifies this`active, this`backoff, this`running
      ensures Valid() && running == old(running)[..k] + old(running)[k + 1..]
      ensures active == old(active) - Elems(job.zones)
      ensures backoff == Settled(old(backoff), Elems(job.zones), failed, backoffBase, maxBackoff, job.cmdKey, now)
    {
      hide Ids, Settled;
      IdsRemove(running, k);
      JobIsDuplicateFree(k);
      ghost var before := active;
      SettleZones(job.zones, job.cmdKey, failed, now);
      running := running[..k] + running[k + 1..];
      forall q ensures multiset(active)[q] == (Ids(queue) + Ids(running))[q] {
        assert multiset(before)[q] == (Ids(queue) + Ids(running) + multiset(job.zones))[q];
      }
    }

    /** No job holds a generation twice, because `active` is a set. */
    lemma JobIsDuplicateFree(k: nat)
      requires Valid() && k < |running|
      ensures forall i, j :: 0 <= i < j < |running[k].zones| ==> running[k].zones[i] != running[k].zones[j]
    {
      IdsRemove(running, k);
      var zones := running[k].zones;
      forall i, j | 0 <= i < j < |zones| ensures zones[i] != zones[j] {
        RepeatCountsTwice(zones, i, j);
        assert multiset(active)[zones[j]] == (Ids(queue) + Ids(running))[zones[j]];
      }
    }

    /** Single flight: a generation is queued at most once, and never both queued and running. */
    lemma SingleFlight(q: Identity)
      requires Valid()
      ensures Ids(queue)[q] + Ids(running)[q] == if q in active then 1 else 0
    {
      assert multiset(active)[q] == (Ids(queue) + Ids(running))[q];
    }
  }
}
