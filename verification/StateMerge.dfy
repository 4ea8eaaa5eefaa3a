/** The persistent state: three-way merge with the disk, saving, and what neither ever loses. */
module StateMerge {
  import opened Common
  import opened ZoneTypes
  import opened RolloverRules

  // ---------------------------------------------------------------- field classes of a zone record

  datatype Signing = Signing(path: string, serial: nat, publishedSerial: nat, lastSigned: Time, sourceModTime: Time,
      sourceSize: nat,
                             sourceDigest: string, signaturesExp: Time, dnskeyTTL: nat, maxRRSIGTTL: nat)

  datatype Keys = Keys(ksk: Option<Key>, zsk: Option<Key>, rollover: Option<Rollover>)

  datatype Publication = Publication(pending: bool, publishedAt: Time, genSignedAt: Time, servedDNSKEYTTL: nat,
      servedMaxRRSIGTTL: nat,
                                     dnskeyHorizon: Time, rrsigHorizon: Time)

  datatype Record = Record(revision: nat, signing: Signing, keys: Keys, pub: Publication, warnings: seq<string>,
      errors: seq<string>, forceResign: bool)

  predicate ContentEqual(a: Record, b: Record) { a == b.(revision := a.revision) }

  // ---------------------------------------------------------------- diagnostics

  /** The position of ": " in an error entry, or the entry's length. */
  function Colon(e: string): nat {
    if |e| < 2 then |e| else if e[0] == ':' && e[1] == ' ' then 0 else 1 + Colon(e[1..])
  }

  predicate HasOperation(e: string) { 0 < Colon(e) && Colon(e) + 2 <= |e| }

  function Operation(e: string): string
    requires HasOperation(e)
  { e[..Colon(e)] }

  predicate SameOperation(a: string, b: string) { HasOperation(a) && HasOperation(b) && Operation(a) == Operation(b) }

  /** Entries memory still holds that the disk holds too or memory added. */
  function KeptByMemory(base: seq<string>, disk: seq<string>, mem: seq<string>): seq<string> {
    if mem == [] then [] else
    (if mem[0] in disk || mem[0] !in base then [mem[0]] else []) + KeptByMemory(base, disk, mem[1..])
  }

  function DropOperation(list: seq<string>, d: string): seq<string> {
    if list == [] then [] else (if SameOperation(list[0], d) then [] else [list[0]]) + DropOperation(list[1..], d)
  }

  /** The disk's additions appended one by one; an operation's newer error replaces the older one. */
  function AddFromDisk(base: seq<string>, disk: seq<string>, kept: seq<string>, opScoped: bool): seq<string>
    decreases |disk|
  {
    if disk == [] then kept
    else if disk[0] in base || disk[0] in kept then AddFromDisk(base, disk[1..], kept, opScoped)
    else AddFromDisk(base, disk[1..], (if opScoped then DropOperation(kept, disk[0]) else kept) + [disk[0]], opScoped)
  }

  function MergedDiagnostics(base: seq<string>, disk: seq<string>, mem: seq<string>, opScoped: bool): seq<string> {
    AddFromDisk(base, disk, KeptByMemory(base, disk, mem), opScoped)
  }

  lemma KeptStep(base: seq<string>, disk: seq<string>, mem: seq<string>, i: nat)
    requires i < |mem|
    ensures KeptByMemory(base, disk, mem[i..])
         == (if mem[i] in disk || mem[i] !in base then [mem[i]] else []) + KeptByMemory(base, disk, mem[i + 1..])
  {
    assert mem[i..][1..] == mem[i + 1..];
  }

  lemma AddStep(base: seq<string>, disk: seq<string>, i: nat, kept: seq<string>, opScoped: bool)
    requires i < |disk|
    ensures AddFromDisk(base, disk[i..], kept, opScoped)
         == AddFromDisk(base, disk[i + 1..],
                        if disk[i] in base || disk[i] in kept then kept
                        else (if opScoped then DropOperation(kept, disk[i]) else kept) + [disk[i]], opScoped)
  {
    assert disk[i..][1..] == disk[i + 1..];
  }

  lemma DropStep(list: seq<string>, d: string, i: nat)
    requires i < |list|
    ensures DropOperation(list[i..], d) == (if SameOperation(list[i], d) then []
        else [list[i]]) + DropOperation(list[i + 1..], d)
  {
    assert list[i..][1..] == list[i + 1..];
  }

  lemma NothingLeft(base: seq<string>, disk: seq<string>, kept: seq<string>, d: string, opScoped: bool)
    ensures KeptByMemory(base, disk, []) == [] && AddFromDisk(base, [], kept, opScoped) == kept &&
        DropOperation([], d) == []
  {
  }

  method MergeDiagnostics(base: seq<string>, disk: seq<string>, mem: seq<string>, opScoped: bool)
    returns (out: seq<string>)
    ensures out == MergedDiagnostics(base, disk, mem, opScoped)
  {
    hide KeptByMemory, AddFromDisk, DropOperation;
    out := KeepByMemory(base, disk, mem);
    assert disk[0..] == disk;
    for i := 0 to |disk|
      invariant AddFromDisk(base, disk[i..], out, opScoped) == MergedDiagnostics(base, disk, mem, opScoped)
    {
      AddStep(base, disk, i, out, opScoped);
      var d := disk[i];
      if d !in base && d !in out {
        if opScoped { out := WithoutOperation(out, d); }
        out := out + [d];
      }
    }
    assert disk[|disk|..] == [];
    NothingLeft(base, disk, out, "", opScoped);
  }

  /** The entries memory keeps, in order. */
  method KeepByMemory(base: seq<string>, disk: seq<string>, mem: seq<string>) returns (out: seq<string>)
    ensures out == KeptByMemory(base, disk, mem)
  {
    hide KeptByMemory;
    out := [];
    for i := 0 to |mem|
      invariant out + KeptByMemory(base, disk, mem[i..]) == KeptByMemory(base, disk, mem)
    {
      KeptStep(base, disk, mem, i);
      if mem[i] in disk || mem[i] !in base { out := out + [mem[i]]; }
    }
    assert mem[|mem|..] == [];
    NothingLeft(base, disk, [], "", false);
  }

  method WithoutOperation(list: seq<string>, d: string) returns (kept: seq<string>)
    ensures kept == DropOperation(list, d)
  {
    hide DropOperation, SameOperation;
    kept := [];
    assert list[0..] == list;
    for i := 0 to |list|
      invariant kept + DropOperation(list[i..], d) == DropOperation(list, d)
    {
      DropStep(list, d, i);
      if !SameOperation(list[i], d) { kept := kept + [list[i]]; }
    }
    assert list[|list|..] == [];
    NothingLeft([], [], [], d, false);
  }

  lemma {:induction false} KeptMembers(base: seq<string>, disk: seq<string>, mem: seq<string>, x: string)
    ensures x in KeptByMemory(base, disk, mem) <==> x in mem && (x in disk || x !in base)
  {
    if mem != [] {
      KeptMembers(base, disk, mem[1..], x);
      assert mem == [mem[0]] + mem[1..];
    }
  }

  lemma {:induction false} AddedMembers(base: seq<string>, disk: seq<string>, kept: seq<string>, x: string)
    ensures x in AddFromDisk(base, disk, kept, false) <==> x in kept || (x in disk && x !in base)
    decreases |disk|
  {
    if disk != [] {
      assert disk == [disk[0]] + disk[1..];
      AddedMembers(base, disk[1..], if disk[0] in base || disk[0] in kept then kept else kept + [disk[0]], x);
    }
  }

  /** A three-way set merge: what either side removed is gone, what either side added stays, nothing else appears. */
  lemma WarningsAreSetMerged(base: seq<string>, disk: seq<string>, mem: seq<string>, x: string)
    ensures x in MergedDiagnostics(base, disk, mem, false) <==>
      if x in base then x in disk && x in mem else x in disk || x in mem
  {
    KeptMembers(base, disk, mem, x);
    AddedMembers(base, disk, KeptByMemory(base, disk, mem), x);
  }

  /** At most one entry per operation. */
  ghost predicate OnePerOperation(list: seq<string>) {
    forall i, j :: 0 <= i < j < |list| ==> !SameOperation(list[i], list[j]) }

  lemma {:induction false} KeptOnePerOperation(base: seq<string>, disk: seq<string>, mem: seq<string>)
    requires OnePerOperation(mem)
    ensures OnePerOperation(KeptByMemory(base, disk, mem))
  {
    if mem != [] {
      KeptOnePerOperation(base, disk, mem[1..]);
      var rest := KeptByMemory(base, disk, mem[1..]);
      forall i | 0 <= i < |rest| ensures !SameOperation(mem[0], rest[i]) {
        KeptMembers(base, disk, mem[1..], rest[i]);
        var k :| 0 <= k < |mem[1..]| && mem[1..][k] == rest[i];
        assert mem[k + 1] == rest[i];
      }
    }
  }

  lemma {:induction false} DroppedMembers(list: seq<string>, d: string)
    ensures forall x :: x in DropOperation(list, d) <==> x in list && !SameOperation(x, d)
  {
    if list != [] {
      DroppedMembers(list[1..], d);
      assert list == [list[0]] + list[1..];
    }
  }

  lemma {:induction false} DroppedOnePerOperation(list: seq<string>, d: string)
    requires OnePerOperation(list)
    ensures OnePerOperation(DropOperation(list, d))
  {
    if list != [] {
      DroppedOnePerOperation(list[1..], d);
      DroppedMembers(list[1..], d);
      var rest := DropOperation(list[1..], d);
      forall i | 0 <= i < |rest| ensures !SameOperation(list[0], rest[i]) {
        assert rest[i] in rest;
        var k :| 0 <= k < |list[1..]| && list[1..][k] == rest[i];
        assert list[k + 1] == rest[i];
      }
    }
  }

  /** Errors keep at most one entry per operation, and an error the disk newly reports always survives. */
  lemma {:induction false} ErrorsAddedOnePerOperation(base: seq<string>, disk: seq<string>, kept: seq<string>)
    requires OnePerOperation(kept) && OnePerOperation(disk)
    ensures OnePerOperation(AddFromDisk(base, disk, kept, true))
    ensures forall x :: x in disk && x !in base ==> x in AddFromDisk(base, disk, kept, true)
    ensures forall x :: x in kept && (forall d :: d in disk && d !in base ==> d == x || !SameOperation(x, d)) ==>
        x in AddFromDisk(base, disk, kept, true)
    decreases |disk|
  {
    if disk != [] {
      var d, rest := disk[0], disk[1..];
      assert disk == [d] + rest;
      if d in base || d in kept {
        ErrorsAddedOnePerOperation(base, rest, kept);
        if d in kept && d !in base {
          forall e | e in rest && e !in base ensures e == d || !SameOperation(d, e) {
            var k :| 0 <= k < |rest| && rest[k] == e; assert disk[k + 1] == e; }
        }
      } else {
        DroppedMembers(kept, d);
        DroppedOnePerOperation(kept, d);
        var next := DropOperation(kept, d) + [d];
        forall i | 0 <= i < |DropOperation(kept, d)| ensures !SameOperation(next[i], d) {
          assert next[i] in DropOperation(kept, d); }
        ErrorsAddedOnePerOperation(base, rest, next);
        forall e | e in rest ensures !SameOperation(d, e) {
          var k :| 0 <= k < |rest| && rest[k] == e; assert disk[k + 1] == e; }
      }
    }
  }

  lemma ErrorsOnePerOperation(base: seq<string>, disk: seq<string>, mem: seq<string>)
    requires OnePerOperation(disk) && OnePerOperation(mem)
    ensures OnePerOperation(MergedDiagnostics(base, disk, mem, true))
    ensures forall x :: x in disk && x !in base ==> x in MergedDiagnostics(base, disk, mem, true)
  {
    KeptOnePerOperation(base, disk, mem);
    ErrorsAddedOnePerOperation(base, disk, KeptByMemory(base, disk, mem));
  }

  // ---------------------------------------------------------------- merging one zone

  function MergedPublication(disk: Publication, mem: Publication, lastSigned: Time): Publication {
    var win := if mem.genSignedAt > disk.genSignedAt then mem else disk;
    Publication(lastSigned > win.genSignedAt, win.publishedAt, win.genSignedAt, win.servedDNSKEYTTL,
        win.servedMaxRRSIGTTL,
                Later(disk.dnskeyHorizon, mem.dnskeyHorizon), Later(disk.rrsigHorizon, mem.rrsigHorizon))
  }

  predicate SignFromDisk(base: Record, disk: Record, mem: Record) {
    disk.signing != base.signing && (mem.signing == base.signing || disk.signing.lastSigned >= mem.signing.lastSigned)
  }

  function MergeZone(base: Record, disk: Record, mem: Record): Record {
    if disk.revision == base.revision && ContentEqual(disk, base) then mem
    else if ContentEqual(mem, base) then disk
    else
      var fromDisk := SignFromDisk(base, disk, mem);
      var signing := if fromDisk then disk.signing else mem.signing;
      var dPub, mPub := disk.pub != base.pub, mem.pub != base.pub;
      var dKeys, mKeys := disk.keys != base.keys, mem.keys != base.keys;
      var pub :=
        if dPub && !mPub then (if fromDisk then disk.pub
            else disk.pub.(pending := signing.lastSigned > disk.pub.genSignedAt))
        else if dPub then MergedPublication(disk.pub, mem.pub, signing.lastSigned)
        else if mPub && fromDisk then mem.pub.(pending := signing.lastSigned > mem.pub.genSignedAt)
        else mem.pub;
      var dDiag := disk.warnings != base.warnings || disk.errors != base.errors;
      var dForce, mForce := disk.forceResign != base.forceResign, mem.forceResign != base.forceResign;
      Record(if disk.revision > mem.revision then disk.revision else mem.revision,
             signing,
             if dKeys then disk.keys else mem.keys,
             pub,
             if dDiag then MergedDiagnostics(base.warnings, disk.warnings, mem.warnings, false) else mem.warnings,
             if dDiag then MergedDiagnostics(base.errors, disk.errors, mem.errors, true) else mem.errors,
             if dKeys && mKeys then true
             else if dForce && mForce then disk.forceResign || mem.forceResign
             else if dForce then disk.forceResign
             else mem.forceResign)
  }

  /** Publication apart from the pending flag, which a merge may recompute. */
  function Confirmed(p: Publication): Publication { p.(pending := false) }

  /** Both sides moved the keys or the rollover: the merge forces a new signing. */
  predicate KeyConflict(base: Record, disk: Record, mem: Record) { disk.keys != base.keys && mem.keys != base.keys }

  /** No lost update: a class only one side changed since the base keeps that side's value. */
  lemma OneSidedChangesSurvive(base: Record, disk: Record, mem: Record)
    ensures var out := MergeZone(base, disk, mem);
      && (disk.signing == base.signing ==> out.signing == mem.signing)
      && (mem.signing == base.signing ==> out.signing == disk.signing)
      && (disk.keys == base.keys ==> out.keys == mem.keys)
      && (mem.keys == base.keys ==> out.keys == disk.keys)
      && (disk.pub == base.pub ==> Confirmed(out.pub) == Confirmed(mem.pub))
      && (mem.pub == base.pub ==> Confirmed(out.pub) == Confirmed(disk.pub))
      && (disk.forceResign == base.forceResign && !KeyConflict(base, disk, mem) ==> out.forceResign == mem.forceResign)
      && (mem.forceResign == base.forceResign && !KeyConflict(base, disk, mem) ==> out.forceResign == disk.forceResign)
      && (disk.warnings == base.warnings ==> out.warnings == mem.warnings)
      && (disk.errors == base.errors ==> out.errors == mem.errors)
      && (mem.revision >= base.revision ==> out.revision >= disk.revision)
  {
    hide MergedPublication, MergedDiagnostics;
    UnchangedDiskAddsNothing(base.warnings, mem.warnings, false);
    UnchangedDiskAddsNothing(base.errors, mem.errors, true);
  }

  lemma {:induction false} AllKept(base: seq<string>, mem: seq<string>)
    ensures KeptByMemory(base, base, mem) == mem
  {
    if mem != [] { AllKept(base, mem[1..]); }
  }

  lemma {:induction false} NothingAdded(base: seq<string>, disk: seq<string>, kept: seq<string>, opScoped: bool)
    requires forall d <- disk :: d in base
    ensures AddFromDisk(base, disk, kept, opScoped) == kept
    decreases |disk|
  {
    if disk != [] {
      assert disk[0] in disk && forall d <- disk[1..] :: d in disk;
      NothingAdded(base, disk[1..], kept, opScoped);
    }
  }

  /** Diagnostics the disk did not change are memory's, entry by entry and in order. */
  lemma UnchangedDiskAddsNothing(base: seq<string>, mem: seq<string>, opScoped: bool)
    ensures MergedDiagnostics(base, base, mem, opScoped) == mem
  {
    AllKept(base, mem);
    NothingAdded(base, base, mem, opScoped);
  }

  /** A warning survives a merge exactly as the three-way set rule says, whichever way the zone was merged. */
  lemma WarningMerged(base: Record, disk: Record, mem: Record, x: string)
    ensures x in MergeZone(base, disk, mem).warnings <==>
      if x in base.warnings then x in disk.warnings && x in mem.warnings else x in disk.warnings || x in mem.warnings
  {
    hide MergedPublication, MergedDiagnostics;
    WarningsAreSetMerged(base.warnings, disk.warnings, mem.warnings, x);
  }

  predicate OfOperation(x: string, op: string) { HasOperation(x) && Operation(x) == op }

  /** Two lists agree on the errors of an operation. */
  ghost predicate SameErrors(op: string, a: seq<string>, b: seq<string>) {
    forall x :: OfOperation(x, op) ==> (x in a <==> x in b)
  }

  /** Entries the disk adds for other operations leave an operation's errors alone. */
  lemma {:induction false} OtherOperationsAdded(base: seq<string>, disk: seq<string>, kept: seq<string>, op: string)
    requires forall d <- disk :: OfOperation(d, op) ==> d in base
    ensures SameErrors(op, AddFromDisk(base, disk, kept, true), kept)
    decreases |disk|
  {
    if disk != [] {
      var d := disk[0];
      assert d in disk && forall e <- disk[1..] :: e in disk;
      if d in base || d in kept { OtherOperationsAdded(base, disk[1..], kept, op); }
      else {
        var next := DropOperation(kept, d) + [d];
        DroppedMembers(kept, d);
        assert SameErrors(op, next, kept);
        OtherOperationsAdded(base, disk[1..], next, op);
      }
    }
  }

  /** Errors of an operation only memory changed are memory's. */
  lemma MemoryErrorsSurvive(base: Record, disk: Record, mem: Record, op: string)
    requires SameErrors(op, disk.errors, base.errors)
    ensures SameErrors(op, MergeZone(base, disk, mem).errors, mem.errors)
  {
    hide MergedPublication;
    var kept := KeptByMemory(base.errors, disk.errors, mem.errors);
    forall k ensures k in kept <==> k in mem.errors && (k in disk.errors || k !in base.errors) {
      KeptMembers(base.errors, disk.errors, mem.errors, k);
    }
    OtherOperationsAdded(base.errors, disk.errors, kept, op);
  }

  /** The disk's additions of an operation all arrive when the disk holds one error per operation. */
  lemma {:induction false} OperationAdded(base: seq<string>, disk: seq<string>, kept: seq<string>, op: string)
    requires OnePerOperation(disk)
    requires forall k <- kept, d <- disk :: OfOperation(k, op) && OfOperation(d, op) ==> k == d
    ensures forall x :: OfOperation(x, op) ==>
        (x in AddFromDisk(base, disk, kept, true) <==> x in kept || (x in disk && x !in base))
    decreases |disk|
  {
    if disk != [] {
      var d, rest := disk[0], disk[1..];
      assert disk == [d] + rest;
      assert OnePerOperation(rest) by { assert forall i :: 0 <= i < |rest| ==> rest[i] == disk[i + 1]; }
      if d in base || d in kept { OperationAdded(base, rest, kept, op); }
      else {
        var next := DropOperation(kept, d) + [d];
        DroppedMembers(kept, d);
        forall e <- rest ensures !SameOperation(d, e) {
          var i :| 0 <= i < |rest| && rest[i] == e;
          assert !SameOperation(disk[0], disk[i + 1]);
        }
        forall x | OfOperation(x, op) ensures x in next <==> x in kept || x == d {
          assert d in disk;
        }
        OperationAdded(base, rest, next, op);
        assert AddFromDisk(base, disk, kept, true) == AddFromDisk(base, rest, next, true);
      }
    }
  }

  lemma OneEntry(disk: seq<string>, a: string, b: string)
    requires OnePerOperation(disk) && a in disk && b in disk && SameOperation(a, b)
    ensures a == b
  {
    var i :| 0 <= i < |disk| && disk[i] == a;
    var j :| 0 <= j < |disk| && disk[j] == b;
  }

  /** Errors of an operation only the disk changed are the disk's. */
  lemma DiskErrorsSurvive(base: Record, disk: Record, mem: Record, op: string)
    requires SameErrors(op, mem.errors, base.errors) && OnePerOperation(disk.errors)
    ensures SameErrors(op, MergeZone(base, disk, mem).errors, disk.errors)
  {
    hide MergedPublication;
    var kept := KeptByMemory(base.errors, disk.errors, mem.errors);
    forall k ensures k in kept <==> k in mem.errors && (k in disk.errors || k !in base.errors) {
      KeptMembers(base.errors, disk.errors, mem.errors, k);
    }
    forall k <- kept, d <- disk.errors | OfOperation(k, op) && OfOperation(d, op) ensures k == d {
      OneEntry(disk.errors, k, d); }
    OperationAdded(base.errors, disk.errors, kept, op);
  }

  /** Publication records that confirmations alone can lead from one to the other. */
  predicate Forward(a: Publication, b: Publication) {
    a.genSignedAt <= b.genSignedAt && a.dnskeyHorizon <= b.dnskeyHorizon && a.rrsigHorizon <= b.rrsigHorizon
  }

  /** A confirmation only the disk saw is adopted even after a merge has recomputed memory's pending flag. */
  lemma DiskConfirmationAdopted(base: Record, disk: Record, mem: Record)
    requires Confirmed(mem.pub) == Confirmed(base.pub) && Forward(base.pub, disk.pub)
    ensures Confirmed(MergeZone(base, disk, mem).pub) == Confirmed(disk.pub)
  {
    hide MergedDiagnostics;
  }

  // ---------------------------------------------------------------- invariants the merge keeps

  /** The rules a persisted zone entry must meet to be loaded. */
  predicate ValidEntry(z: Record) {
    && '\0' !in z.signing.path
    && (z.signing.lastSigned != 0 ==> !Blank(z.signing.path))
    && (z.keys.ksk.Some? ==> z.keys.ksk.value.alg != 0)
    && (z.keys.zsk.Some? ==> z.keys.zsk.value.alg != 0)
    && (z.keys.rollover.Some? ==> ValidRollover(z.keys.ksk, z.keys.zsk, z.keys.rollover.value))
  }

  /** A signing newer than the confirmed generation is shown as pending. */
  predicate PendingShown(z: Record) { z.signing.lastSigned > z.pub.genSignedAt ==> z.pub.pending }

  predicate HorizonsFrom(a: Record, b: Record) {
    a.pub.dnskeyHorizon <= b.pub.dnskeyHorizon && a.pub.rrsigHorizon <= b.pub.rrsigHorizon }

  /** From valid sides that evolved from base, the merge is valid, lowers no horizon and hides no pending signing. */
  lemma MergeKeepsInvariants(base: Record, disk: Record, mem: Record)
    requires ValidEntry(disk) && ValidEntry(mem)
    requires HorizonsFrom(base, disk) && HorizonsFrom(base, mem)
    ensures ValidEntry(MergeZone(base, disk, mem))
    ensures HorizonsFrom(disk, MergeZone(base, disk, mem)) && HorizonsFrom(mem, MergeZone(base, disk, mem))
    ensures PendingShown(disk) && PendingShown(mem) ==> PendingShown(MergeZone(base, disk, mem))
  {
  }

  /** When both sides moved the keys or the rollover, the disk's record stands and the zone is signed again. */
  lemma KeyConflictForcesResign(base: Record, disk: Record, mem: Record)
    requires disk.keys != base.keys && mem.keys != base.keys
    ensures MergeZone(base, disk, mem).keys == disk.keys && MergeZone(base, disk, mem).forceResign
  {
  }

  // ---------------------------------------------------------------- reloading, domain by domain

  /** One domain as memory sees it: its zone, its removal marker, and its zone in the last synchronized image. */
  datatype View = View(mem: Option<Record>, marker: Option<Time>, base: Option<Record>)

  /** A domain holding a disk marker and no disk zone was removed, unless memory signed it after the removal. */
  function AfterMarker(v: View, zone: Option<Record>, marker: Option<Time>): View {
    if marker.None? || zone.Some? then v
    else if v.mem.Some? && v.mem.value.signing.lastSigned > marker.value then v.(marker := None)
    else v.(mem := None, marker := marker)
  }

  function AfterMerge(v: View, zone: Option<Record>): Option<Record> {
    match zone
    case Some(d) => if v.mem.None? || v.base.None? then Some(d) else Some(MergeZone(v.base.value, d, v.mem.value))
    case None => if v.mem.Some? && v.base.Some? && ContentEqual(v.mem.value, v.base.value) then None else v.mem
  }

  function ReloadView(v: View, zone: Option<Record>, marker: Option<Time>): View {
    var v1 := AfterMarker(v, zone, marker);
    View(AfterMerge(v1, zone), if zone.Some? then None else v1.marker, zone)
  }

  /** The one case a second reload of the same disk still changes: a stale marker on a zone the disk has lost. */
  predicate StaleMarkerOnLostZone(v: View, zone: Option<Record>, marker: Option<Time>) {
    && zone.None? && marker.Some?
    && v.mem.Some? && v.mem.value.signing.lastSigned > marker.value
    && v.base.Some? && ContentEqual(v.mem.value, v.base.value)
  }

  /** A second reload of the same disk changes nothing, exactly outside that case. */
  lemma ReloadIsIdempotent(v: View, zone: Option<Record>, marker: Option<Time>)
    ensures var once := ReloadView(v, zone, marker);
            ReloadView(once, zone, marker) == once <==> !StaleMarkerOnLostZone(v, zone, marker)
  {
  }

  // ---------------------------------------------------------------- the in-memory state

  datatype Document = Document(zones: map<string, Record>, removed: map<string, Time>)

  function Get<T>(m: map<string, T>, d: string): Option<T> { if d in m then Some(m[d]) else None }

  /** The revision a save gives a zone: past both the in-memory and the synchronized one when content changed. */
  function NextRevision(z: Record, base: Option<Record>): nat {
    if base.Some? && ContentEqual(z, base.value) then z.revision
    else if base.Some? && base.value.revision > z.revision then base.value.revision + 1
    else z.revision + 1
  }

  class State {
    var zones: map<string, Record>
    var removed: map<string, Time>
    var base: map<string, Record>

    ghost function At(d: string): View
      reads this
    { View(Get(zones, d), Get(removed, d), Get(base, d)) }

    constructor (doc: Document)
      ensures zones == doc.zones && removed == doc.removed && base == doc.zones
    {
      zones, removed, base := doc.zones, doc.removed, doc.zones;
    }

    /** Merges a validated disk document into memory; every domain follows ReloadView. */
    method ReloadFromDisk(doc: Document)
      modifies this
      ensures forall d :: At(d) == ReloadView(old(At(d)), Get(doc.zones, d), Get(doc.removed, d))
    {
      hide MergeZone, ContentEqual;
      ApplyMarkers(doc);
      var dropped := set d | d in removed && d in doc.zones;
      removed := removed - dropped;
      MergeZones(doc);
      DropLost(doc);
      base := doc.zones;
    }

    /** Removal markers on disk: adopt them, unless memory signed the zone after the removal. */
    method ApplyMarkers(doc: Document)
      modifies this`zones, this`removed
      ensures forall d :: At(d) == AfterMarker(old(At(d)), Get(doc.zones, d), Get(doc.removed, d))
    {
      var todo := doc.removed.Keys;
      while todo != {}
        invariant todo <= doc.removed.Keys
        invariant forall d :: At(d) == if d in todo then old(At(d)) else AfterMarker(old(At(d)), Get(doc.zones, d),
            Get(doc.removed, d))
        decreases todo
      {
        var d :| d in todo;
        todo := todo - {d};
        if d !in doc.zones {
          if d in zones && zones[d].signing.lastSigned > doc.removed[d] {
            removed := removed - {d};
          } else {
            if d in zones { zones := zones - {d}; }
            removed := removed[d := doc.removed[d]];
          }
        }
      }
    }

    /** Zones on disk: adopted, or merged three ways when memory and the image hold them too. */
    method MergeZones(doc: Document)
      modifies this`zones
      ensures forall d :: Get(zones, d) == if d in doc.zones then AfterMerge(old(At(d)), Some(doc.zones[d]))
          else old(Get(zones, d))
    {
      hide MergeZone;
      var todo := doc.zones.Keys;
      while todo != {}
        invariant todo <= doc.zones.Keys
        invariant forall d :: Get(zones, d) == if d in doc.zones && d !in todo
            then AfterMerge(old(At(d)), Some(doc.zones[d])) else old(Get(zones, d))
        decreases todo
      {
        var d :| d in todo;
        todo := todo - {d};
        if d !in zones || d !in base {
          zones := zones[d := doc.zones[d]];
        } else {
          zones := zones[d := MergeZone(base[d], doc.zones[d], zones[d])];
        }
      }
    }

    /** Zones only in memory: dropped when they hold nothing unsaved. */
    method DropLost(doc: Document)
      modifies this`zones
      ensures forall d :: Get(zones, d) == if d in doc.zones then old(Get(zones, d)) else AfterMerge(old(At(d)), None)
    {
      var lost := set d | d in zones && d !in doc.zones && d in base && ContentEqual(zones[d], base[d]);
      zones := zones - lost;
    }

    /** Writes the document; a committed write becomes the new synchronized image. */
    method Save(committed: bool) returns (doc: Document)
      modifies this
      ensures forall d :: d in zones <==> d in old(zones)
      ensures forall d :: d in zones ==>
          zones[d] == old(zones)[d].(revision := NextRevision(old(zones)[d], Get(old(base), d)))
      ensures doc == Document(zones, removed) && removed == old(removed)
      ensures base == if committed then zones else old(base)
    {
      zones := map d | d in zones :: zones[d].(revision := NextRevision(zones[d], Get(base, d)));
      doc := Document(zones, removed);
      if committed { base := zones; }
    }
  }
}

/** Runs of locked cycles with failing saves, against other processes that commit in between. */
module StateRuns {
  import opened Common
  import opened ZoneTypes
  import opened StateMerge

  /** One zone present throughout: this process's memory, its synchronized image, and the disk. */
  datatype Sync = Sync(mem: Record, base: Record, disk: Record)

  datatype Event =
    | Mutate(to: Record)
    | Foreign(to: Record)
    | Reload
    | SaveOk
    | SaveFail

  /**
   * A mutation leaves the revision alone, another process's commit raises it at least once (retried saves skip ahead);
   * a save runs inside the locked cycle that has just reloaded.
   */
  predicate Possible(s: Sync, e: Event) {
    match e
    case Mutate(to) => to.revision == s.mem.revision
    case Foreign(to) => to.revision >= NextRevision(to.(revision := s.disk.revision), Some(s.disk))
    case SaveOk => s.base == s.disk
    case _ => true
  }

  function Bumped(s: Sync): Record { s.mem.(revision := NextRevision(s.mem, Some(s.base))) }

  function Effect(s: Sync, e: Event): Sync {
    match e
    case Mutate(to) => s.(mem := to)
    case Foreign(to) => s.(disk := to)
    case Reload => Sync(MergeZone(s.base, s.disk, s.mem), s.disk, s.disk)
    case SaveOk => Sync(Bumped(s), Bumped(s), Bumped(s))
    case SaveFail => s.(mem := Bumped(s))
  }

  /** The states of a run, one more than its events. */
  ghost predicate IsRun(run: seq<Sync>, events: seq<Event>) {
    && |run| == |events| + 1
    && run[0].mem == run[0].base == run[0].disk
    && forall i :: 0 <= i < |events| ==> Possible(run[i], events[i]) && run[i + 1] == Effect(run[i], events[i])
  }

  predicate Ordered(s: Sync) { s.mem.revision >= s.base.revision && s.base.revision <= s.disk.revision }

  lemma StepKeepsOrder(s: Sync, e: Event)
    requires Ordered(s) && Possible(s, e)
    ensures Ordered(Effect(s, e))
    ensures Effect(s, e).disk.revision >= s.disk.revision
    ensures Effect(s, e).disk != s.disk ==> Effect(s, e).disk.revision > s.disk.revision
  {
    hide MergedDiagnostics, MergedPublication;
    if e.Reload? { OneSidedChangesSurvive(s.base, s.disk, s.mem); }
  }

  /** The zone's revision on disk never falls and strictly rises whenever the document on disk changed. */
  lemma {:induction false} RevisionRises(run: seq<Sync>, events: seq<Event>, i: nat, j: nat)
    requires IsRun(run, events) && i <= j < |run|
    ensures Ordered(run[j])
    ensures run[i].disk.revision <= run[j].disk.revision
    ensures run[i].disk != run[j].disk ==> run[i].disk.revision < run[j].disk.revision
    decreases j
  {
    if j > 0 {
      if i < j {
        RevisionRises(run, events, i, j - 1);
        StepKeepsOrder(run[j - 1], events[j - 1]);
      } else {
        RevisionRises(run, events, 0, j - 1);
        StepKeepsOrder(run[j - 1], events[j - 1]);
      }
      assert run[j] == Effect(run[j - 1], events[j - 1]);
    }
  }

  /**
   * The parts of a zone one side may change alone: field classes, one warning, the errors of one operation, and the
   * flag.
   */
  datatype Class =
    | SigningClass
    | KeysClass
    | PublicationClass
    | Warning(text: string)
    | ErrorsOf(op: string)
    | ForceClass

  ghost predicate SameClass(c: Class, a: Record, b: Record) {
    match c
    case SigningClass => a.signing == b.signing
    case KeysClass => a.keys == b.keys
    case PublicationClass => Confirmed(a.pub) == Confirmed(b.pub)
    case Warning(text) => text in a.warnings <==> text in b.warnings
    case ErrorsOf(op) => SameErrors(op, a.errors, b.errors)
    case ForceClass => a.forceResign == b.forceResign
  }

  /** Exact agreement on a class, the pending flag included. */
  ghost predicate ExactClass(c: Class, a: Record, b: Record) {
    SameClass(c, a, b) && (c.PublicationClass? ==> a.pub == b.pub) }

  lemma MemorySideSurvives(c: Class, base: Record, disk: Record, mem: Record)
    requires ExactClass(c, disk, base) && (c.ForceClass? ==> !KeyConflict(base, disk, mem))
    ensures SameClass(c, MergeZone(base, disk, mem), mem)
  {
    hide MergeZone;
    OneSidedChangesSurvive(base, disk, mem);
    match c
    case Warning(text) => WarningMerged(base, disk, mem, text);
    case ErrorsOf(op) => MemoryErrorsSurvive(base, disk, mem, op);
    case _ =>
  }

  lemma DiskSideAdopted(c: Class, base: Record, disk: Record, mem: Record)
    requires SameClass(c, mem, base) && (c.ForceClass? ==> !KeyConflict(base, disk, mem))
    requires c.PublicationClass? ==> Forward(base.pub, disk.pub)
    requires c.ErrorsOf? ==> OnePerOperation(disk.errors)
    ensures SameClass(c, MergeZone(base, disk, mem), disk)
  {
    hide MergeZone;
    OneSidedChangesSurvive(base, disk, mem);
    match c
    case PublicationClass => DiskConfirmationAdopted(base, disk, mem);
    case Warning(text) => WarningMerged(base, disk, mem, text);
    case ErrorsOf(op) => DiskErrorsSurvive(base, disk, mem, op);
    case _ =>
  }

  /** Between i and j no other process touches the class and this one does not change it again. */
  ghost predicate OnlyMemoryChanged(c: Class, run: seq<Sync>, events: seq<Event>, i: nat, j: nat)
    requires |run| == |events| + 1 && i <= j < |run|
  {
    && ExactClass(c, run[i].base, run[i].disk)
    && forall m :: i <= m < j ==>
         && (events[m].Mutate? ==> SameClass(c, events[m].to, run[m].mem))
         && (events[m].Foreign? ==> ExactClass(c, events[m].to, run[m].disk))
  }

  /** No reload between i and j meets keys that both sides moved; one that does forces a new signing instead. */
  ghost predicate NoKeyConflict(run: seq<Sync>, events: seq<Event>, i: nat, j: nat)
    requires |run| == |events| + 1 && i <= j < |run|
  {
    forall m :: i <= m < j && events[m].Reload? ==> !KeyConflict(run[m].base, run[m].disk, run[m].mem)
  }

  /**
   * A class only memory changed since the common image is never lost: through any number of failed saves,
   * reloads and foreign commits to other classes it stays, and the first committed save puts it on disk.
   */
  lemma {:induction false} UnsavedWorkSurvives(c: Class, run: seq<Sync>, events: seq<Event>, i: nat, j: nat)
    requires IsRun(run, events) && i <= j < |run| && OnlyMemoryChanged(c, run, events, i, j)
    requires c.ForceClass? ==> NoKeyConflict(run, events, i, j)
    ensures SameClass(c, run[j].mem, run[i].mem)
    ensures ExactClass(c, run[j].base, run[j].disk)
    ensures i < j && events[j - 1].SaveOk? ==> SameClass(c, run[j].disk, run[i].mem)
    decreases j
  {
    hide MergeZone;
    if i < j {
      UnsavedWorkSurvives(c, run, events, i, j - 1);
      var s, e := run[j - 1], events[j - 1];
      assert run[j - 1 + 1] == Effect(s, e);
      if e.Reload? { MemorySideSurvives(c, s.base, s.disk, s.mem); }
    }
  }

  /** Every writer keeps one error per operation, as setting and clearing an operation's error do. */
  ghost predicate WriteOneErrorEach(run: seq<Sync>, events: seq<Event>)
    requires |run| == |events| + 1
  {
    && OnePerOperation(run[0].disk.errors)
    && forall m :: 0 <= m < |events| && (events[m].Mutate? || events[m].Foreign?) ==>
        OnePerOperation(events[m].to.errors)
  }

  /** Then memory, image and disk never hold two errors of one operation. */
  lemma {:induction false} OneErrorPerOperation(run: seq<Sync>, events: seq<Event>, j: nat)
    requires IsRun(run, events) && WriteOneErrorEach(run, events) && j < |run|
    ensures OnePerOperation(run[j].mem.errors) && OnePerOperation(run[j].base.errors) &&
        OnePerOperation(run[j].disk.errors)
  {
    hide OnePerOperation, MergedPublication, MergedDiagnostics;
    if j > 0 {
      OneErrorPerOperation(run, events, j - 1);
      var s, e := run[j - 1], events[j - 1];
      assert run[j - 1 + 1] == Effect(s, e);
      if e.Reload? { ErrorsOnePerOperation(s.base.errors, s.disk.errors, s.mem.errors); }
    }
  }

  /**
   * A class only other processes change is adopted at every reload. For the publication class those
   * changes are confirmations, which never move backwards.
   */
  lemma {:induction false} ForeignWorkIsAdopted(c: Class, run: seq<Sync>, events: seq<Event>, i: nat, j: nat)
    requires IsRun(run, events) && i <= j < |run|
    requires SameClass(c, run[i].mem, run[i].base)
    requires forall m :: i <= m < j && events[m].Mutate? ==> SameClass(c, events[m].to, run[m].mem)
    requires c.PublicationClass? ==> Forward(run[i].base.pub, run[i].disk.pub)
    requires c.PublicationClass? ==>
        forall m :: i <= m < j && events[m].Foreign? ==> Forward(run[m].disk.pub, events[m].to.pub)
    requires c.ErrorsOf? ==> WriteOneErrorEach(run, events)
    requires c.ForceClass? ==> NoKeyConflict(run, events, i, j)
    ensures SameClass(c, run[j].mem, run[j].base)
    ensures i < j && events[j - 1].Reload? ==> SameClass(c, run[j].mem, run[j].disk)
    ensures c.PublicationClass? ==> Forward(run[j].base.pub, run[j].disk.pub)
    decreases j
  {
    hide MergeZone, OnePerOperation;
    if i < j {
      ForeignWorkIsAdopted(c, run, events, i, j - 1);
      var s, e := run[j - 1], events[j - 1];
      assert run[j - 1 + 1] == Effect(s, e);
      if e.Reload? {
        if c.ErrorsOf? { OneErrorPerOperation(run, events, j - 1); }
        DiskSideAdopted(c, s.base, s.disk, s.mem);
      }
    }
  }
}
