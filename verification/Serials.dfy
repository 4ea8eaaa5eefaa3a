/** SOA serials under the epoch policy, in 32-bit serial-number arithmetic (RFC 1982). */
module Serials {

  const MODULUS: int := 0x1_0000_0000
  const HALF: int := 0x8000_0000
  const EPOCH_FLOOR: nat := 946684800
  const DAY: nat := 86400

  type Uint32 = x: int | 0 <= x < 0x1_0000_0000

  datatype Result = Ok(serial: Uint32) | NotEpoch

  function Wrap(x: int): Uint32 { x % MODULUS }

  /** a is greater than b as secondaries compare serials. */
  predicate SerialGt(a: Uint32, b: Uint32) { (a > b && a - b < HALF) || (a < b && b - a > HALF) }

  /** The serial to publish: now, pushed past the source serial and past the one published before. */
  function NextPublishedSerial(epoch: bool, serial: Uint32, previous: Uint32, now: nat): Result {
    if !epoch then Ok(serial) else
    var nowSerial := Wrap(now);
    if serial < EPOCH_FLOOR || serial > Wrap(nowSerial + DAY) then NotEpoch else
    var next := if SerialGt(nowSerial, serial) then nowSerial else Wrap(serial + 1);
    if previous != 0 && !SerialGt(next, previous) then Ok(Wrap(previous + 1)) else Ok(next)
  }

  /** Serial comparison is order of the unwrapped values while they stay within half the space. */
  lemma SerialGtIsOrder(a: int, b: int)
    requires -HALF < a - b < HALF
    ensures SerialGt(Wrap(a), Wrap(b)) <==> a > b
  {
    var qa, qb := a / MODULUS, b / MODULUS;
    assert a == qa * MODULUS + Wrap(a) && b == qb * MODULUS + Wrap(b);
    assert -1 <= qa - qb <= 1;
  }

  /** Every successful signing advances the published serial, wraparound included. */
  lemma PublishedAdvances(serial: Uint32, previous: Uint32, now: nat)
    requires previous != 0 && NextPublishedSerial(true, serial, previous, now).Ok?
    ensures SerialGt(NextPublishedSerial(true, serial, previous, now).serial, previous)
  {
    SerialGtIsOrder(previous + 1, previous);
  }

  function Max(a: int, b: int): int { if a >= b then a else b }

  /**
   * With every value in the half-window from lo, the published serial is the maximum the policy names; a zero is no
   * previous serial.
   */
  lemma PublishedIsMaximum(lo: nat, n: nat, s: nat, p: nat)
    requires lo <= n < lo + HALF && lo <= s < lo + HALF - 1 && (Wrap(p) != 0 ==> lo <= p < lo + HALF - 1)
    requires NextPublishedSerial(true, Wrap(s), Wrap(p), n).Ok?
    ensures NextPublishedSerial(true, Wrap(s), Wrap(p), n)
         == Ok(Wrap(if Wrap(p) == 0 then Max(n, s + 1) else Max(n, Max(s + 1, p + 1))))
  {
    var first := Max(n, s + 1);
    SerialGtIsOrder(n, s);
    if Wrap(p) != 0 { SerialGtIsOrder(first, p); }
    WrapSuccessor(s);
    WrapSuccessor(p);
    hide SerialGt, Wrap;
  }

  lemma WrapSuccessor(x: int)
    ensures Wrap(Wrap(x) + 1) == Wrap(x + 1)
  {
  }

  /** The serials a sequence of signings publishes; a refused signing publishes nothing. */
  function Published(inputs: seq<(Uint32, nat)>, previous: Uint32): seq<Uint32>
  {
    if inputs == [] then [] else
    match NextPublishedSerial(true, inputs[0].0, previous, inputs[0].1)
    case Ok(s) => [s] + Published(inputs[1..], s)
    case NotEpoch => Published(inputs[1..], previous)
  }

  /** Over any sequence of signings, each published serial is greater than the non-zero one before it. */
  lemma {:induction false} SerialsAdvanceOverRuns(inputs: seq<(Uint32, nat)>, previous: Uint32)
    ensures var out := Published(inputs, previous);
      && (out != [] && previous != 0 ==> SerialGt(out[0], previous))
      && forall i :: 0 < i < |out| && out[i - 1] != 0 ==> SerialGt(out[i], out[i - 1])
  {
    if inputs != [] {
      var r := NextPublishedSerial(true, inputs[0].0, previous, inputs[0].1);
      if r.Ok? {
        if previous != 0 { PublishedAdvances(inputs[0].0, previous, inputs[0].1); }
        SerialsAdvanceOverRuns(inputs[1..], r.serial);
        var rest := Published(inputs[1..], r.serial);
        var out := [r.serial] + rest;
        forall i | 0 < i < |out| && out[i - 1] != 0 ensures SerialGt(out[i], out[i - 1]) {
          if i > 1 { assert out[i] == rest[i - 1] && out[i - 1] == rest[i - 2]; }
        }
      } else {
        SerialsAdvanceOverRuns(inputs[1..], previous);
        assert Published(inputs, previous) == Published(inputs[1..], previous);
      }
    }
  }
}
