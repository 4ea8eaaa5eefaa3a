/** The registrar API limiter: a rolling-window quota with a recovery reserve and tiered spacing. */
module RateLimiting {
  import opened Common

  const MILLISECOND: nat := 1_000_000

  datatype Admission = Admission(at: int, recovery: bool)

  /** The minimum gap after `count` admissions in the window. */
  function TierDelay(count: nat): nat {
    if count < 20 then 100 * MILLISECOND
    else if count < 40 then 500 * MILLISECOND
    else 2000 * MILLISECOND
  }

  ghost predicate Ascending(log: seq<Admission>) {
    forall i, j :: 0 <= i < j < |log| ==> log[i].at <= log[j].at
  }

  /** Admissions in the half-open window (to - window, to]; `recoveryOnly` counts those of recovery callers. */
  ghost function CountIn(log: seq<Admission>, window: nat, to: int, recoveryOnly: bool): nat {
    if log == [] then 0 else
    var last := log[|log| - 1];
    CountIn(log[..|log| - 1], window, to, recoveryOnly)
    + if to - window < last.at <= to && (recoveryOnly ==> last.recovery) then 1 else 0
  }

  /**
   * The spacing that admission enforces: an admission is at least a window later than the one a whole
   * quota before it, and an ordinary one than the one a quota less the reserve before it.
   */
  ghost predicate Spaced(log: seq<Admission>, window: nat, quota: nat, reserve: nat)
    requires reserve < quota
  {
    && (forall j :: quota <= j < |log| ==> log[j - quota].at + window <= log[j].at)
    && (forall j :: quota - reserve <= j < |log| && !log[j].recovery
          ==> log[j - (quota - reserve)].at + window <= log[j].at)
  }

  /** In an ascending log the window is a contiguous range. */
  lemma {:induction false} CountIsRange(log: seq<Admission>, lo: nat, hi: nat, window: nat, to: int)
    requires lo <= hi <= |log|
    requires forall i :: 0 <= i < lo ==> log[i].at <= to - window
    requires forall i :: lo <= i < hi ==> to - window < log[i].at <= to
    requires forall i :: hi <= i < |log| ==> to < log[i].at
    ensures CountIn(log, window, to, false) == hi - lo
    decreases |log|
  {
    if |log| > 0 {
      var n := |log| - 1;
      var shorter := log[..n];
      if hi <= n { CountIsRange(shorter, lo, hi, window, to); }
      else if lo <= n { CountIsRange(shorter, lo, n, window, to); }
      else { CountIsRange(shorter, n, n, window, to); }
    }
  }

  /** The first admission later than `t`. */
  ghost function FirstAfter(log: seq<Admission>, t: int): (k: nat)
    requires Ascending(log)
    ensures k <= |log|
    ensures forall i :: 0 <= i < k ==> log[i].at <= t
    ensures forall i :: k <= i < |log| ==> t < log[i].at
  {
    if log == [] || log[|log| - 1].at <= t then |log| else FirstAfter(log[..|log| - 1], t)
  }

  /** No half-open window, wherever it ends, holds more than the quota. */
  lemma NoWindowExceedsQuota(log: seq<Admission>, window: nat, quota: nat, reserve: nat, to: int)
    requires reserve < quota && Ascending(log) && Spaced(log, window, quota, reserve)
    ensures CountIn(log, window, to, false) <= quota
  {
    var lo, hi := FirstAfter(log, to - window), FirstAfter(log, to);
    assert hi < |log| ==> to < log[hi].at;
    CountIsRange(log, lo, hi, window, to);
    assert lo + quota < |log| ==> log[lo + quota - quota].at + window <= log[lo + quota].at;
  }

  /** When the last `k` admissions are all recovery ones inside the window, the recovery count is at least `k`. */
  lemma {:induction false} RecoveryTail(log: seq<Admission>, k: nat, window: nat, to: int)
    requires k <= |log|
    requires forall i :: |log| - k <= i < |log| ==> log[i].recovery && to - window < log[i].at <= to
    ensures CountIn(log, window, to, true) >= k
    decreases k
  {
    if k > 0 {
      var shorter := log[..|log| - 1];
      assert forall i :: |log| - k <= i < |log| - 1 ==> shorter[i] == log[i];
      RecoveryTail(shorter, k - 1, window, to);
    }
  }

  /** The reserve: a recovery caller with fewer than `reserve` recovery admissions in the window finds room. */
  lemma ReserveIsFree(log: seq<Admission>, window: nat, quota: nat, reserve: nat, now: int)
    requires reserve < quota && Ascending(log) && Spaced(log, window, quota, reserve)
    requires forall i :: 0 <= i < |log| ==> log[i].at <= now
    requires CountIn(log, window, now, true) < reserve
    ensures CountIn(log, window, now, false) < quota
  {
    var lo := FirstAfter(log, now - window);
    CountIsRange(log, lo, |log|, window, now);
    forall j | quota - reserve <= j < |log| && !log[j].recovery ensures j - (quota - reserve) < lo {
      assert log[j - (quota - reserve)].at + window <= log[j].at;
    }
    if |log| - lo >= quota { RecoveryTail(log, reserve, window, now); }
  }

  /** The window already holds as many admissions as the caller may see. */
  ghost predicate Blocked(log: seq<Admission>, window: nat, limit: nat, now: int) {
    CountIn(log, window, now, false) >= limit
  }

  /** The spacing since the last admission holds the caller back. */
  ghost predicate TooSoon(log: seq<Admission>, window: nat, now: int) {
    var n := CountIn(log, window, now, false);
    log != [] && n > 0 && now - log[|log| - 1].at < TierDelay(n)
  }

  /** Appending an admission under the limit keeps the spacing. */
  lemma AdmissionKeepsSpacing(log: seq<Admission>, lo: nat, window: nat, quota: nat, reserve: nat, adm: Admission)
    requires reserve < quota && Ascending(log) && Spaced(log, window, quota, reserve) && lo <= |log|
    requires forall i :: 0 <= i < lo ==> log[i].at <= adm.at - window
    requires forall i :: 0 <= i < |log| ==> log[i].at <= adm.at
    requires |log| - lo < if adm.recovery then quota else quota - reserve
    ensures Ascending(log + [adm]) && Spaced(log + [adm], window, quota, reserve)
  {
    var longer := log + [adm];
    assert forall i :: 0 <= i < |log| ==> longer[i] == log[i];
    forall j | quota <= j < |longer| ensures longer[j - quota].at + window <= longer[j].at {
      if j < |log| { assert log[j - quota].at + window <= log[j].at; }
    }
    forall j | quota - reserve <= j < |longer| && !longer[j].recovery
      ensures longer[j - (quota - reserve)].at + window <= longer[j].at
    {
      if j < |log| { assert log[j - (quota - reserve)].at + window <= log[j].at; }
    }
  }

  /** After the wait, with nobody else admitted meanwhile, neither rule holds the caller back. */
  lemma WaitIsEnough(log: seq<Admission>, lo: nat, window: nat, limit: nat, now: int, later: int)
    requires Ascending(log) && lo <= |log| && now <= later && limit > 0
    requires forall i :: 0 <= i < lo ==> log[i].at <= now - window
    requires forall i :: lo <= i < |log| ==> now - window < log[i].at <= now
    requires |log| - lo >= limit ==> log[|log| - limit].at + window <= later
    requires |log| > lo ==> log[|log| - 1].at + TierDelay(|log| - lo) <= later
    ensures !Blocked(log, window, limit, later) && !TooSoon(log, window, later)
  {
    var after := FirstAfter(log, later - window);
    assert forall i :: 0 <= i < |log| ==> log[i].at <= now;
    CountIsRange(log, after, |log|, window, later);
    assert after < |log| ==> later - window < log[after].at;
  }

  class WindowLimiter {
    const window: nat
    const quota: nat
    const reserve: nat
    var admitted: seq<int>
    /** Every admission ever made, the number of them pruned away, and the last clock reading. */
    ghost var log: seq<Admission>
    ghost var pruned: nat
    ghost var clock: int

    ghost predicate Valid()
      reads this
    {
      && reserve < quota
      && Remembered(admitted, log, pruned)
      && Ascending(log)
      && (forall i :: 0 <= i < |log| ==> log[i].at <= clock)
      && (forall i :: 0 <= i < pruned ==> log[i].at <= clock - window)
      && Spaced(log, window, quota, reserve)
    }

    /** The slice holds the times of the admissions not yet pruned. */
    static ghost predicate Remembered(admitted: seq<int>, log: seq<Admission>, pruned: nat) {
      pruned + |admitted| == |log| && forall i :: 0 <= i < |admitted| ==> admitted[i] == log[pruned + i].at
    }

    ghost function Limit(recovery: bool): nat
      requires reserve < quota
    {
      if recovery then quota else quota - reserve
    }

    constructor (window: nat, quota: nat, reserve: nat)
      requires reserve < quota
      ensures Valid() && log == [] && admitted == []
      ensures this.window == window && this.quota == quota && this.reserve == reserve && clock == 0
    {
      this.window, this.quota, this.reserve := window, quota, reserve;
      admitted, log, pruned, clock := [], [], 0, 0;
    }

    /** Drops admissions that have left the window. */
    method Prune(now: int)
      requires Valid() && clock <= now
      modifies this`admitted, this`pruned, this`clock
      ensures Valid() && clock == now
      ensures forall i :: pruned <= i < |log| ==> now - window < log[i].at
    {
      hide Spaced;
      var cutoff := now - window;
      var i := 0;
      while i < |admitted| && admitted[i] <= cutoff
        invariant 0 <= i <= |admitted|
        invariant forall j :: 0 <= j < i ==> admitted[j] <= cutoff
      {
        i := i + 1;
      }
      ghost var was := admitted;
      forall j | 0 <= j < pruned + i ensures log[j].at <= cutoff {
        if j >= pruned { assert was[j - pruned] == log[pruned + (j - pruned)].at; }
      }
      if i < |admitted| { assert was[i] == log[pruned + i].at; }
      admitted := admitted[i..];
      forall j | 0 <= j < |admitted| ensures admitted[j] == log[pruned + i + j].at {
        assert was[i + j] == log[pruned + (i + j)].at;
      }
      pruned := pruned + i;
      clock := now;
    }

    /** How long a caller must wait, the window having been pruned: until both rules let it through. */
    method WaitFor(now: int, recovery: bool) returns (wait: int)
      requires Valid() && clock == now && forall i :: pruned <= i < |log| ==> now - window < log[i].at
      ensures wait > 0 <==> Blocked(log, window, Limit(recovery), now) || TooSoon(log, window, now)
      ensures wait > 0 ==> forall later :: later >= now + wait ==>
        !Blocked(log, window, Limit(recovery), later) && !TooSoon(log, window, later)
      ensures wait <= 0 ==> |log| - pruned < Limit(recovery)
    {
      hide CountIn, Spaced, TierDelay;
      var limit := if recovery then quota else quota - reserve;
      var n := |admitted|;
      CountIsRange(log, pruned, |log|, window, now);
      assert n > 0 ==> admitted[n - 1] == log[pruned + (n - 1)].at;
      assert n >= limit ==> admitted[n - limit] == log[pruned + (n - limit)].at;
      wait := 0;
      if n >= limit && limit > 0 {
        wait := admitted[n - limit] + window - now;
      }
      if n > 0 {
        var gap := TierDelay(n) - (now - admitted[n - 1]);
        if gap > wait { wait := gap; }
      }
      forall later | wait > 0 && later >= now + wait
        ensures !Blocked(log, window, Limit(recovery), later) && !TooSoon(log, window, later)
      {
        WaitIsEnough(log, pruned, window, limit, now, later);
      }
    }

    /** One pass under the lock: admits at once, or says how long to wait. */
    method TryAdmit(now: int, recovery: bool) returns (wait: int)
      requires Valid() && clock <= now
      modifies this
      ensures Valid() && clock == now
      ensures wait > 0 <==> Blocked(old(log), window, Limit(recovery), now) || TooSoon(old(log), window, now)
      ensures log == if wait > 0 then old(log) else old(log) + [Admission(now, recovery)]
      ensures wait > 0 ==> forall later :: later >= now + wait ==>
        !Blocked(log, window, Limit(recovery), later) && !TooSoon(log, window, later)
    {
      hide Spaced, Ascending, Blocked, TooSoon;
      Prune(now);
      wait := WaitFor(now, recovery);
      if wait <= 0 {
        AdmissionKeepsSpacing(log, pruned, window, quota, reserve, Admission(now, recovery));
        admitted := admitted + [now];
        log := log + [Admission(now, recovery)];
      }
    }

    /**
     * The whole gate for a caller nobody competes with: it sleeps at most once and is then admitted, unless its
     * context ends first (at `cancelled`), in which case it takes no slot.
     */
    method Gate(now: int, recovery: bool, oversleep: nat, cancelled: Option<int>) returns (waits: nat, admitted: bool)
      requires Valid() && clock <= now
      modifies this
      ensures Valid() && waits <= 1
      ensures log == if admitted then old(log) + [Admission(clock, recovery)] else old(log)
      ensures cancelled.None? ==> admitted
      ensures cancelled.Some? && cancelled.value <= now ==> !admitted
      ensures admitted && cancelled.Some? ==> clock < cancelled.value
    {
      waits := 0;
      var reading := now;
      while true
        invariant Valid() && waits <= 1 && clock <= reading && log == old(log) && now <= reading
        invariant waits == 1 ==> !Blocked(log, window, Limit(recovery), reading) && !TooSoon(log, window, reading)
        decreases 1 - waits
      {
        if cancelled.Some? && cancelled.value <= reading { return waits, false; }
        var wait := TryAdmit(reading, recovery);
        if wait <= 0 { return waits, true; }
        if cancelled.Some? && cancelled.value < reading + wait { return waits, false; }
        waits := waits + 1;
        reading := reading + wait + oversleep;
      }
    }
  }
}
