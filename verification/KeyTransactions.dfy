/** Key-file transactions: stage, record, activate, with a crash possible after every file operation. */
module KeyTransactions {
  import opened Common

  datatype Half = Pub | Priv

  /** The live pair of a role, the tag-named copy of one generation, or the n-th unique copy of a slot. */
  datatype Base = Live(role: Role) | Tagged(role: Role, tag: nat) | Unique(of: Base, n: nat)

  datatype File = Of(base: Base, half: Half) | Aside(file: File, n: nat)

  /** A key generation. `fit` is what validation checks besides correspondence: owner, role flags, algorithm. */
  datatype Generation = Generation(id: nat, tag: nat, fit: bool)

  /** What a file holds: a half of some generation, an empty placeholder, or something that does not parse. */
  datatype Content = PubOf(gen: Generation) | PrivOf(gen: Generation) | Empty | Broken

  type Files = map<File, Content>

  /** What survives a crash: the files and the generation the saved state names for each role. */
  datatype Disk = Disk(files: Files, recorded: map<Role, nat>)

  /** The generation a slot loads: both halves parse, correspond and are fit. */
  function Loads(fs: Files, b: Base): Option<Generation> {
    if Of(b, Pub) in fs && Of(b, Priv) in fs && fs[Of(b, Pub)].PubOf? &&
        fs[Of(b, Priv)] == PrivOf(fs[Of(b, Pub)].gen) && fs[Of(b, Pub)].gen.fit
    then Some(fs[Of(b, Pub)].gen) else None
  }

  ghost predicate Present(fs: Files, g: Generation) { exists b :: Loads(fs, b) == Some(g) }

  /** Every pair that verified in some slot still verifies in some slot. */
  ghost predicate NoLoss(a: Files, b: Files) { forall g :: Present(a, g) ==> Present(b, g) }

  /** Every slot that verified still holds the same generation. */
  ghost predicate Preserves(a: Files, b: Files) { forall x: Base :: Loads(a, x).Some? ==> Loads(b, x) == Loads(a, x) }

  predicate LiveUntouched(a: Files, b: Files) {
    Loads(b, Live(KSKRole)) == Loads(a, Live(KSKRole)) && Loads(b, Live(ZSKRole)) == Loads(a, Live(ZSKRole))
  }

  /** Some slot other than a live one loads g. */
  ghost predicate HeldElsewhere(fs: Files, g: Generation) { exists b: Base :: !b.Live? && Loads(fs, b) == Some(g) }

  /** Live and tag-named slots hold exactly the same files. */
  ghost predicate SameSlots(a: Files, b: Files) {
    forall x: Base, h :: !x.Unique? ==>
        (Of(x, h) in b <==> Of(x, h) in a) && (Of(x, h) in b ==> b[Of(x, h)] == a[Of(x, h)])
  }

  /** The content of f in `a` is in `b` under an aside name that was free. */
  predicate MovedAside(a: Files, b: Files, f: File, n: nat) {
    f in a && Aside(f, n) !in a && Aside(f, n) in b && b[Aside(f, n)] == a[f]
  }

  /** What the tag slot of g holds, if anything, is g's. */
  predicate SlotFree(fs: Files, role: Role, g: Generation) {
    Of(Tagged(role, g.tag), Pub) in fs ==> fs[Of(Tagged(role, g.tag), Pub)] == PubOf(g)
  }

  /** The generation a slot loads, if its tag is the one asked for. */
  predicate LoadsTag(fs: Files, b: Base, tag: nat) { Loads(fs, b).Some? && Loads(fs, b).value.tag == tag }

  /** The halves a slot held in `a`, verifying or not, are in `b` under another base. */
  ghost predicate CopiedHalves(a: Files, b: Files, slot: Base, copy: Base) {
    && (Of(slot, Pub) in a ==> Of(copy, Pub) in b && b[Of(copy, Pub)] == a[Of(slot, Pub)])
    && (Of(slot, Priv) in a ==> Of(copy, Priv) in b && b[Of(copy, Priv)] == a[Of(slot, Priv)])
  }

  ghost predicate Quiet(a: Files, b: Files) { Preserves(a, b) && LiveUntouched(a, b) }

  lemma PreservesLosesNothing(a: Files, b: Files)
    requires Preserves(a, b)
    ensures NoLoss(a, b)
  {
    forall g | Present(a, g) ensures Present(b, g) { var x :| Loads(a, x) == Some(g); assert Loads(b, x) == Some(g); }
  }

  lemma QuietTransitive(a: Files, b: Files, c: Files)
    requires Quiet(a, b) && Quiet(b, c)
    ensures Quiet(a, c)
  {
  }

  lemma NoLossTransitive(a: Files, b: Files, c: Files)
    requires NoLoss(a, b) && NoLoss(b, c)
    ensures NoLoss(a, c)
  {
  }

  class KeyDirectory {
    var files: Files
    var recorded: map<Role, nat>
    const faulty: bool
    ghost const origin: Files
    /** Every state a crash can leave behind, oldest first. */
    ghost var history: seq<Disk>
    /** The files and the record at the last mark, and the first state after it. */
    ghost var mark: Disk
    ghost var markAt: nat

    /** No state in the history has lost a pair, and none since the mark has touched a pair that verified then. */
    ghost predicate Valid()
      reads this
    {
      && Kept() && markAt <= |history|
      && recorded == mark.recorded && Quiet(mark.files, files)
      && (forall i :: markAt <= i < |history| ==>
          history[i].recorded == mark.recorded && Quiet(mark.files, history[i].files))
    }

    ghost predicate Kept()
      reads this
    {
      && history != []
      && history[|history| - 1] == Disk(files, recorded)
      && forall i :: 0 <= i < |history| ==> NoLoss(origin, history[i].files)
    }

    lemma StartsKept()
      requires Valid()
      ensures Kept()
    {
    }

    lemma SinceMark()
      requires Valid()
      ensures forall i :: markAt <= i < |history| ==>
          history[i].recorded == mark.recorded && Quiet(mark.files, history[i].files)
    {
    }

    /** Later calls only add states. */
    twostate predicate Extends()
      reads this
    {
      old(history) <= history && mark == old(mark) && markAt == old(markAt) && recorded == old(recorded) &&
          Quiet(old(files), files)
    }

    constructor (files: Files, recorded: map<Role, nat>, faulty: bool)
      ensures Valid() && this.files == files && this.recorded == recorded && this.faulty == faulty
      ensures origin == files && history == [Disk(files, recorded)] && markAt == 0
    {
      this.files, this.recorded, this.faulty, this.origin := files, recorded, faulty, files;
      this.history, this.mark, this.markAt := [Disk(files, recorded)], Disk(files, recorded), 0;
    }

    // ---------------------------------------------------------------- file operations

    /** An atomic change of the directory; fails without effect on a fault. */
    method Change(next: Files) returns (ok: bool)
      requires Valid() && Quiet(files, next)
      modifies this
      ensures Valid() && Extends()
      ensures !faulty ==> ok
      ensures files == if ok then next else old(files)
    {
      hide Quiet, NoLoss;
      var broken: bool := *;
      if faulty && broken {
        QuietReflexive(files);
        return false;
      }
      assert NoLoss(origin, next) by {
        assert NoLoss(origin, history[|history| - 1].files);
        QuietLosesNothing(files, next);
        NoLossTransitive(origin, files, next);
      }
      QuietTransitive(mark.files, files, next);
      files := next;
      history := history + [Disk(files, recorded)];
      ok := true;
    }

    /** Moves a file out of the way under a free name: linked there first, then unlinked. */
    method SetAside(f: File) returns (ok: bool)
      requires Valid() && f in files && f.Of? && Loads(files, f.base).None? && !f.base.Live?
      modifies this
      ensures Valid() && Extends()
      ensures !faulty ==> ok
      ensures Loads(files, f.base).None?
      ensures forall x :: x != f && x.Of? ==>
          (x in files <==> x in old(files)) && (x in files ==> files[x] == old(files)[x])
      ensures forall x :: x in old(files) && x.Aside? ==> x in files && files[x] == old(files)[x]
      ensures ok ==> exists n: nat :: MovedAside(old(files), files, f, n)
    {
      var n := 0;
      ghost var taken: set<File> := {};
      while Aside(f, n) in files
        invariant forall x :: x in taken ==> x in files && x.Aside? && x.file == f && x.n < n
        decreases files.Keys - taken
      {
        taken := taken + {Aside(f, n)};
        n := n + 1;
      }
      AsideIsQuiet(files, f, n, files[f]);
      ok := Change(files[Aside(f, n) := files[f]]);
      if !ok { return; }
      RemoveIsQuiet(files, f);
      ghost var linked := files;
      var unlinked := Change(files - {f});
      QuietTransitive(old(files), linked, files);
      assert MovedAside(old(files), files, f, n);
    }

    /** Writes into a slot that is not live and does not verify, or rewrites what it holds. */
    method Fill(b: Base, h: Half, c: Content) returns (ok: bool)
      requires Valid() && !b.Live? && (Loads(files, b).None? || (Of(b, h) in files && files[Of(b, h)] == c))
      modifies this
      ensures Valid() && Extends()
      ensures !faulty ==> ok
      ensures files == if ok then old(files)[Of(b, h) := c] else old(files)
    {
      if Loads(files, b).None? { PutIsQuiet(files, Of(b, h), c); } else { assert files[Of(b, h) := c] == files; }
      ok := Change(files[Of(b, h) := c]);
    }

    // ---------------------------------------------------------------- staging

    /** Writes a generation to its tag-named slot and reloads it; a slot holding another key is never overwritten. */
    method StageKeyPair(role: Role, g: Generation) returns (ok: bool)
      requires Valid()
      modifies this
      ensures Valid() && Extends()
      ensures ok ==> Loads(files, Tagged(role, g.tag)) == Some(g)
      ensures !faulty && g.fit && SlotFree(old(files), role, g) ==> ok
    {
      hide Quiet;
      QuietReflexive(files);
      if !g.fit { return false; }
      var b := Tagged(role, g.tag);
      if Of(b, Pub) in files {
        if files[Of(b, Pub)] != PubOf(g) { return false; }
        if Of(b, Priv) in files {
          if Loads(files, b) == Some(g) { return true; }
          ok := SetAside(Of(b, Priv));
          if !ok { return; }
        }
      } else if Of(b, Priv) in files {
        ok := SetAside(Of(b, Priv));
        if !ok { return; }
      }
      ghost var f1 := files;
      ok := Fill(b, Priv, PrivOf(g));
      QuietTransitive(old(files), f1, files);
      if !ok { return; }
      ghost var f2 := files;
      ok := Fill(b, Pub, PubOf(g));
      QuietTransitive(old(files), f2, files);
    }

    // ---------------------------------------------------------------- preserving the live pair

    /** Puts the public half into a slot without one; a lone private half there is set aside first. */
    method BackupPub(b: Base, g: Generation) returns (ok: bool)
      requires Valid() && !b.Live? && Of(b, Pub) !in files
      modifies this
      ensures Valid() && Extends()
      ensures !faulty ==> ok
      ensures ok ==> Of(b, Pub) in files && files[Of(b, Pub)] == PubOf(g)
    {
      hide Quiet;
      QuietReflexive(files);
      if Of(b, Priv) in files {
        ok := SetAside(Of(b, Priv));
        if !ok { return; }
      }
      ghost var f1 := files;
      ok := Fill(b, Pub, PubOf(g));
      QuietTransitive(old(files), f1, files);
    }

    /** Completes a slot that holds the public half; a foreign private half is set aside first. */
    method BackupPriv(b: Base, g: Generation) returns (ok: bool)
      requires Valid() && !b.Live? && g.fit && Of(b, Pub) in files && files[Of(b, Pub)] == PubOf(g)
      modifies this
      ensures Valid() && Extends()
      ensures !faulty ==> ok
      ensures ok ==> Loads(files, b) == Some(g)
    {
      hide Quiet;
      QuietReflexive(files);
      if Of(b, Priv) in files && files[Of(b, Priv)] != PrivOf(g) {
        ok := SetAside(Of(b, Priv));
        if !ok { return; }
      }
      ok := true;
      if Loads(files, b) != Some(g) {
        ghost var f1 := files;
        ok := Fill(b, Priv, PrivOf(g));
        QuietTransitive(old(files), f1, files);
      }
    }

    /** Guarantees a verified tag-named copy of the live generation; the tag slot of a different key is a conflict. */
    method EnsureVerifiedBackup(role: Role) returns (result: BackupResult)
      requires Valid()
      modifies this
      ensures Valid() && Extends()
      ensures result.Unverifiable? <==> Loads(old(files), Live(role)).None?
      ensures result.Unverifiable? || result.Conflict? ==> files == old(files)
      ensures result.BackedUp? ==>
          Loads(old(files), Live(role)) == Some(result.gen) &&
          Loads(files, Tagged(role, result.gen.tag)) == Some(result.gen)
      ensures result.Fault? ==> faulty
    {
      hide Quiet;
      QuietReflexive(files);
      var loaded := Loads(files, Live(role));
      if loaded.None? { return Unverifiable; }
      var g := loaded.value;
      var b := Tagged(role, g.tag);
      if Of(b, Pub) in files {
        if files[Of(b, Pub)] != PubOf(g) { return Conflict; }
      } else {
        var copied := BackupPub(b, g);
        if !copied { return Fault; }
      }
      ghost var f1 := files;
      var completed := BackupPriv(b, g);
      QuietTransitive(old(files), f1, files);
      if !completed { return Fault; }
      result := BackedUp(g);
    }

    /** Claims both names of a free unique base with empty placeholders. */
    method ReserveUnique(of: Base) returns (r: Option<Base>)
      requires Valid()
      modifies this
      ensures Valid() && Extends()
      ensures r.None? ==> faulty
      ensures r.Some? ==> r.value.Unique? && Of(r.value, Pub) in files && files[Of(r.value, Pub)] == Empty
                          && Of(r.value, Priv) in files && files[Of(r.value, Priv)] == Empty
      ensures r.Some? ==> Of(r.value, Pub) !in old(files) && Of(r.value, Priv) !in old(files)
      ensures SameSlots(old(files), files)
    {
      hide Quiet;
      QuietReflexive(files);
      var n := 0;
      ghost var taken: set<File> := {};
      while true
        invariant Valid() && Extends() && files == old(files)
        invariant forall x :: x in taken ==> x in files && x.Of? && x.base.Unique? && x.base.of == of && x.base.n < n
        decreases files.Keys - taken
      {
        var b := Unique(of, n);
        if Of(b, Pub) in files {
          taken := taken + {Of(b, Pub)};
        } else {
          var claimed := Fill(b, Pub, Empty);
          if !claimed { return None; }
          ghost var f1 := files;
          if Of(b, Priv) !in files {
            claimed := Fill(b, Priv, Empty);
            QuietTransitive(old(files), f1, files);
            if !claimed { return None; }
            return Some(b);
          }
          taken := taken + {Of(b, Priv)};
          RemoveIsQuiet(files, Of(b, Pub));
          var released := Change(files - {Of(b, Pub)});
          QuietTransitive(old(files), f1, files);
          if !released { return None; }
          assert files == old(files);
        }
        n := n + 1;
      }
    }

    /** Copies whichever halves the live slot holds under a fresh unique base. */
    method CopyLiveUnique(role: Role, prefix: Base) returns (ok: bool)
      requires Valid()
      modifies this
      ensures Valid() && Extends()
      ensures !ok ==> faulty
      ensures ok && Loads(old(files), Live(role)).Some? ==> HeldElsewhere(files, Loads(old(files), Live(role)).value)
      ensures ok ==> exists copy: Base :: copy.Unique? && CopiedHalves(old(files), files, Live(role), copy)
    {
      hide Quiet;
      var r := ReserveUnique(prefix);
      if r.None? { return false; }
      var b, live := r.value, Live(role);
      ghost var f1 := files;
      if Of(live, Pub) in files {
        ok := Fill(b, Pub, files[Of(live, Pub)]);
        QuietTransitive(old(files), f1, files);
        if !ok { return; }
      } else {
        RemoveIsQuiet(files, Of(b, Pub));
        var released := Change(files - {Of(b, Pub)});
        QuietTransitive(old(files), f1, files);
      }
      ghost var f2 := files;
      if Of(live, Priv) in files {
        ok := Fill(b, Priv, files[Of(live, Priv)]);
        QuietTransitive(old(files), f2, files);
        if !ok { return; }
      } else {
        RemoveIsQuiet(files, Of(b, Priv));
        var released := Change(files - {Of(b, Priv)});
        QuietTransitive(old(files), f2, files);
      }
      ok := true;
      assert CopiedHalves(old(files), files, live, b);
      assert Loads(old(files), live).Some? ==> Loads(files, b) == Loads(old(files), live);
    }

    /** Whatever the live slot holds survives an overwrite. */
    method PreserveLivePair(role: Role) returns (ok: bool)
      requires Valid()
      modifies this
      ensures Valid() && Extends()
      ensures !ok ==> faulty
      ensures ok && Loads(files, Live(role)).Some? ==> HeldElsewhere(files, Loads(files, Live(role)).value)
      ensures ok && Loads(files, Live(role)).None? ==>
          exists copy: Base :: copy.Unique? && CopiedHalves(old(files), files, Live(role), copy)
    {
      var live := Live(role);
      if Of(live, Pub) !in files && Of(live, Priv) !in files {
        assert CopiedHalves(files, files, live, Unique(live, 0));
        return true;
      }
      if Of(live, Pub) in files && Of(live, Priv) in files {
        var backup := EnsureVerifiedBackup(role);
        ghost var f1 := files;
        match backup {
          case BackedUp(g) => return true;
          case Conflict => ok := CopyLiveUnique(role, Tagged(role, Loads(files, live).value.tag));
          case Unverifiable => ok := CopyLiveUnique(role, live);
          case Fault => return false;
        }
        QuietTransitive(old(files), f1, files);
        if ok && Loads(files, live).None? {
          ghost var copy: Base :| copy.Unique? && CopiedHalves(f1, files, live, copy);
          assert CopiedHalves(old(files), files, live, copy);
        }
      } else {
        ok := CopyLiveUnique(role, live);
      }
    }

    // ---------------------------------------------------------------- activation and recovery

    /** Overwrites one half of a live pair whose generation another slot holds. */
    method ReplaceLive(role: Role, h: Half, c: Content) returns (ok: bool)
      requires Kept() && (Loads(files, Live(role)).Some? ==> HeldElsewhere(files, Loads(files, Live(role)).value))
      modifies this
      ensures Kept() && recorded == old(recorded) && mark == old(mark) && markAt == old(markAt)
      ensures !faulty ==> ok
      ensures files == if ok then old(files)[Of(Live(role), h) := c] else old(files)
      ensures history == if ok then old(history) + [Disk(files, recorded)] else old(history)
    {
      hide NoLoss;
      var broken: bool := *;
      if faulty && broken { return false; }
      var next := files[Of(Live(role), h) := c];
      assert NoLoss(origin, next) by {
        assert NoLoss(origin, history[|history| - 1].files);
        LiveWriteLosesNothing(files, role, h, c);
        NoLossTransitive(origin, files, next);
      }
      files := next;
      history := history + [Disk(files, recorded)];
      ok := true;
    }

    /** The overwrite itself: .private before .key, so a crash in between leaves a pair that does not verify. */
    method WriteLivePair(role: Role, g: Generation, ghost start: Files) returns (ok: bool)
      requires Kept() && g.fit && Quiet(start, files) && Loads(start, Tagged(role, g.tag)) == Some(g)
      requires Loads(files, Live(role)).Some? ==> HeldElsewhere(files, Loads(files, Live(role)).value)
      modifies this
      ensures Kept() && recorded == old(recorded) && old(history) <= history
      ensures forall i :: |old(history)| <= i < |history| ==>
                history[i].recorded == old(recorded) && Activating(start, history[i].files, role, Some(g))
      ensures Activating(start, files, role, Some(g))
      ensures ok ==> Loads(files, Live(role)) == Some(g)
      ensures !faulty ==> ok
    {
      QuietIsActivating(start, files, role, Some(g));
      MidActivation(start, files, role, g);
      EndActivation(start, files, role, g);
      assert Loads(files, Tagged(role, g.tag)) == Some(g);
      hide Activating, Quiet, NoLoss;
      ok := ReplaceLive(role, Priv, PrivOf(g));
      if !ok { return; }
      assert Loads(files, Tagged(role, g.tag)) == Some(g);
      ok := ReplaceLive(role, Pub, PubOf(g));
    }

    /** Makes a verified tag-named generation live; whatever was live is preserved first. */
    method ActivateKeyPair(role: Role, tag: nat) returns (ok: bool)
      requires Valid()
      modifies this
      ensures Valid() && recorded == old(recorded) && old(history) <= history
      ensures forall i :: |old(history)| <= i < |history| ==>
                history[i].recorded == old(recorded) && Activating(old(files), history[i].files, role,
                    Loads(old(files), Tagged(role, tag)))
      ensures Activating(old(files), files, role, Loads(old(files), Tagged(role, tag)))
      ensures ok ==> Loads(old(files), Tagged(role, tag)).Some? && Loads(old(files), Tagged(role, tag)).value.tag == tag
      ensures ok ==> Loads(files, Live(role)) == Loads(old(files), Tagged(role, tag))
      ensures !faulty && LoadsTag(old(files), Tagged(role, tag), tag) ==> ok
    {
      hide Activating, Quiet, NoLoss, HeldElsewhere;
      SetMark();
      var staged := Loads(files, Tagged(role, tag));
      QuietReflexive(files);
      QuietIsActivating(files, files, role, staged);
      if staged.None? || staged.value.tag != tag { return false; }
      if Loads(files, Live(role)) == staged { return true; }
      ok := PreserveLivePair(role);
      QuietIsActivating(old(files), files, role, staged);
      forall i | |old(history)| <= i < |history| ensures Activating(old(files), history[i].files, role, staged) {
        QuietIsActivating(old(files), history[i].files, role, staged);
      }
      if !ok { return; }
      ok := WriteLivePair(role, staged.value, old(files));
      SetMark();
    }

    /** Loads the live pair and holds it to the recorded tag, re-activating the tag-named copy when they differ. */
    method EnsureLiveKey(role: Role, expected: nat) returns (r: Option<Generation>)
      requires Valid()
      modifies this
      ensures Valid() && recorded == old(recorded) && old(history) <= history
      ensures r.Some? ==> r.value.tag == expected && Loads(files, Live(role)) == r
      ensures forall x: Base :: x != Live(role) && Loads(old(files), x).Some? ==>
          Loads(files, x) == Loads(old(files), x)
      ensures !faulty ==> r == Recoverable(old(files), role, expected)
      ensures Loads(old(files), Live(role)).Some? && Loads(old(files), Live(role)).value.tag == expected ==>
          history == old(history)
      ensures forall i :: |old(history)| <= i < |history| ==>
                history[i].recorded == old(recorded) && Activating(old(files), history[i].files, role,
                    Loads(old(files), Tagged(role, expected)))
    {
      var live := Loads(files, Live(role));
      if live.Some? && live.value.tag == expected { return live; }
      var copy := Loads(files, Tagged(role, expected));
      if copy.None? || copy.value.tag != expected { return None; }
      var ok := ActivateKeyPair(role, expected);
      if !ok { return None; }
      r := Loads(files, Live(role));
    }

    // ---------------------------------------------------------------- a rollover start

    /** Backs up the live pair and stages the new generation. */
    method PrepareOne(role: Role, g: Generation) returns (ok: bool)
      requires Valid() && Loads(files, Live(role)).Some?
      modifies this
      ensures Valid() && Extends()
      ensures ok ==> HeldByTag(files, role, Loads(old(files), Live(role)).value) && HeldByTag(files, role, g)
    {
      hide NoLoss;
      var backup := EnsureVerifiedBackup(role);
      if !backup.BackedUp? { return false; }
      ghost var f1 := files;
      ok := StageKeyPair(role, g);
      QuietTransitive(old(files), f1, files);
      assert HeldByTag(files, role, backup.gen);
    }

    /**
     * Back up, stage, save the record, activate. `g` replaces `before` as the recorded generation.
     * Cut anywhere, the disk satisfies CrashSafe.
     */
    method StartRollover(role: Role, before: Generation, g: Generation) returns (ok: bool)
      requires Valid()
      requires Loads(files, Live(role)) == Some(before) && role in recorded && recorded[role] == before.tag
      requires g.fit && g.tag != before.tag
      modifies this
      ensures Valid() && old(history) <= history
      ensures forall i :: |old(history)| <= i < |history| ==> CrashSafe(history[i], role, before, g)
      ensures ok ==> Loads(files, Live(role)) == Some(g) && recorded == old(recorded)[role := g.tag]
      ensures ok ==> Loads(files, Tagged(role, before.tag)) == Some(before)
    {
      hide NoLoss, Activating, Quiet, CrashSafe, Loads, Valid;
      StartsKept();
      SetMark();
      ok := PrepareOne(role, g);
      SinceMark();
      BeforeSave(old(files), history, |old(history)|, role, before, g, recorded);
      if !ok { return; }
      LiveStays(old(files), files);
      ok := SaveRecord(recorded[role := g.tag]);
      if !ok { return; }
      ghost var f2, h2, rec := files, |history|, recorded;
      Recorded(Disk(f2, rec), role, before, g);
      ok := ActivateKeyPair(role, g.tag);
      ActivationSafe(f2, rec, history, h2, role, before, g);
      TaggedKept(f2, files, role, Some(g), before);
    }

    /** Backs up both live pairs and stages both new generations. */
    method PrepareBoth(newKSK: Generation, newZSK: Generation) returns (ok: bool)
      requires Valid() && Loads(files, Live(KSKRole)).Some? && Loads(files, Live(ZSKRole)).Some?
      modifies this
      ensures Valid() && Extends()
      ensures ok ==> HeldByTag(files, KSKRole, Loads(old(files), Live(KSKRole)).value)
      ensures ok ==> HeldByTag(files, ZSKRole, Loads(old(files), Live(ZSKRole)).value)
      ensures ok ==> HeldByTag(files, KSKRole, newKSK) && HeldByTag(files, ZSKRole, newZSK)
    {
      hide NoLoss;
      var b1 := EnsureVerifiedBackup(KSKRole);
      ghost var f1 := files;
      if !b1.BackedUp? { return false; }
      var b2 := EnsureVerifiedBackup(ZSKRole);
      ghost var f2 := files;
      QuietTransitive(old(files), f1, f2);
      if !b2.BackedUp? { return false; }
      ok := StageKeyPair(KSKRole, newKSK);
      ghost var f3 := files;
      QuietTransitive(old(files), f2, f3);
      if !ok { return; }
      ok := StageKeyPair(ZSKRole, newZSK);
      QuietTransitive(old(files), f3, files);
      assert ok ==> HeldByTag(files, KSKRole, b1.gen) && HeldByTag(files, ZSKRole, b2.gen);
    }

    /**
     * An algorithm rollover: both old pairs backed up, both new ones staged, one record for the four
     * generations, then both activated.
     */
    method StartAlgorithmRollover(oldKSK: Generation, newKSK: Generation, oldZSK: Generation, newZSK: Generation)
      returns (ok: bool)
      requires Valid()
      requires Loads(files, Live(KSKRole)) == Some(oldKSK) && KSKRole in recorded && recorded[KSKRole] == oldKSK.tag
      requires Loads(files, Live(ZSKRole)) == Some(oldZSK) && ZSKRole in recorded && recorded[ZSKRole] == oldZSK.tag
      requires newKSK.fit && newKSK.tag != oldKSK.tag && newZSK.fit && newZSK.tag != oldZSK.tag
      modifies this
      ensures Valid() && old(history) <= history
      ensures forall i :: |old(history)| <= i < |history| ==>
                CrashSafe(history[i], KSKRole, oldKSK, newKSK) && CrashSafe(history[i], ZSKRole, oldZSK, newZSK)
      ensures ok ==> Loads(files, Live(KSKRole)) == Some(newKSK) && Loads(files, Live(ZSKRole)) == Some(newZSK)
                     && recorded == old(recorded)[KSKRole := newKSK.tag][ZSKRole := newZSK.tag]
    {
      hide NoLoss, Activating, Quiet, CrashSafe, Loads, Valid;
      StartsKept();
      SetMark();
      ok := PrepareBoth(newKSK, newZSK);
      SinceMark();
      BeforeSave(old(files), history, |old(history)|, KSKRole, oldKSK, newKSK, recorded);
      BeforeSave(old(files), history, |old(history)|, ZSKRole, oldZSK, newZSK, recorded);
      if !ok { return; }
      LiveStays(old(files), files);
      ok := SaveRecord(recorded[KSKRole := newKSK.tag][ZSKRole := newZSK.tag]);
      if !ok { return; }
      ghost var f2, h2, rec := files, |history|, recorded;
      Recorded(Disk(f2, rec), KSKRole, oldKSK, newKSK);
      Recorded(Disk(f2, rec), ZSKRole, oldZSK, newZSK);
      ok := ActivateKeyPair(KSKRole, newKSK.tag);
      ghost var f3, h3 := files, |history|;
      ActivationSafe(f2, rec, history, h2, KSKRole, oldKSK, newKSK);
      OtherRoleSafe(f2, rec, history, h2, KSKRole, Some(newKSK), ZSKRole, oldZSK, newZSK);
      if !ok { return; }
      OtherRoleSafe(f2, rec, [Disk(f3, rec)], 0, KSKRole, Some(newKSK), ZSKRole, oldZSK, newZSK);
      ActivationSafe(f2, rec, [Disk(f3, rec)], 0, KSKRole, oldKSK, newKSK);
      assert CrashSafe([Disk(f3, rec)][0], KSKRole, oldKSK, newKSK) && CrashSafe([Disk(f3, rec)][0], ZSKRole, oldZSK,
          newZSK);
      TaggedStays(Disk(f3, rec), ZSKRole, oldZSK, newZSK);
      ok := ActivateKeyPair(ZSKRole, newZSK.tag);
      ActivationSafe(f3, rec, history, h3, ZSKRole, oldZSK, newZSK);
      OtherRoleSafe(f3, rec, history, h3, ZSKRole, Some(newZSK), KSKRole, oldKSK, newKSK);
      OtherLiveStays(f3, files, ZSKRole, Some(newZSK), KSKRole);
    }

    /** Saves the record; the files stay. */
    method SaveRecord(rec: map<Role, nat>) returns (ok: bool)
      requires Valid()
      modifies this
      ensures Valid() && files == old(files)
      ensures ok ==> recorded == rec && history == old(history) + [Disk(files, rec)]
      ensures !ok ==> recorded == old(recorded) && history == old(history)
    {
      hide NoLoss;
      var broken: bool := *;
      if faulty && broken { return false; }
      assert NoLoss(origin, history[|history| - 1].files);
      recorded := rec;
      history := history + [Disk(files, recorded)];
      SetMark();
      ok := true;
    }

    /** Starts a new stretch of states at the present one. */
    ghost method SetMark()
      requires Kept()
      modifies this`mark, this`markAt
      ensures Valid() && mark == Disk(files, recorded) && markAt == |history|
    {
      mark, markAt := Disk(files, recorded), |history|;
      QuietReflexive(files);
    }
  }

  /** The generation with the expected tag: the live one, else its tag-named copy. */
  function Recoverable(fs: Files, role: Role, expected: nat): Option<Generation> {
    var live, copy := Loads(fs, Live(role)), Loads(fs, Tagged(role, expected));
    if live.Some? && live.value.tag == expected then live
    else if copy.Some? && copy.value.tag == expected then copy
    else None
  }

  /**
   * What a crash during a rollover start may leave: the old generation live and recorded, or the new one recorded and
   * both copies safe.
   */
  ghost predicate CrashSafe(d: Disk, role: Role, before: Generation, g: Generation) {
    && role in d.recorded
    && (d.recorded[role] == before.tag || d.recorded[role] == g.tag)
    && (d.recorded[role] == before.tag ==> Loads(d.files, Live(role)) == Some(before))
    && (d.recorded[role] == g.tag ==>
          && Loads(d.files, Tagged(role, before.tag)) == Some(before)
          && Loads(d.files, Tagged(role, g.tag)) == Some(g)
          && (Loads(d.files, Live(role)).None? || Loads(d.files, Live(role)) == Some(before) ||
              Loads(d.files, Live(role)) == Some(g)))
  }

  lemma BeforeSave(start: Files, history: seq<Disk>, from: nat, role: Role, before: Generation, g: Generation,
      rec: map<Role, nat>)
    requires Loads(start, Live(role)) == Some(before) && role in rec && rec[role] == before.tag && g.tag != before.tag
    requires forall i :: from <= i < |history| ==> history[i].recorded == rec && Quiet(start, history[i].files)
    ensures forall i :: from <= i < |history| ==> CrashSafe(history[i], role, before, g)
  {
  }

  ghost predicate HeldByTag(fs: Files, role: Role, g: Generation) { Loads(fs, Tagged(role, g.tag)) == Some(g) }

  lemma LiveStays(a: Files, b: Files)
    requires Quiet(a, b)
    ensures Loads(b, Live(KSKRole)) == Loads(a, Live(KSKRole)) && Loads(b, Live(ZSKRole)) == Loads(a, Live(ZSKRole))
  {
  }

  lemma Recorded(d: Disk, role: Role, before: Generation, g: Generation)
    requires role in d.recorded && d.recorded[role] == g.tag && g.tag != before.tag
    requires HeldByTag(d.files, role, before) && HeldByTag(d.files, role, g) &&
        Loads(d.files, Live(role)) == Some(before)
    ensures CrashSafe(d, role, before, g)
  {
  }

  lemma TaggedKept(a: Files, b: Files, role: Role, act: Option<Generation>, before: Generation)
    requires HeldByTag(a, role, before) && Activating(a, b, role, act)
    ensures HeldByTag(b, role, before)
  {
  }

  lemma TaggedStays(d: Disk, role: Role, before: Generation, g: Generation)
    requires CrashSafe(d, role, before, g) && d.recorded[role] == g.tag
    ensures HeldByTag(d.files, role, g)
  {
  }

  lemma OtherLiveStays(a: Files, b: Files, role: Role, g: Option<Generation>, other: Role)
    requires Activating(a, b, role, g) && other != role
    ensures Loads(b, Live(other)) == Loads(a, Live(other))
  {
  }

  /** Activating one role from a crash-safe disk stays crash-safe for it ... */
  lemma ActivationSafe(start: Files, rec: map<Role, nat>, history: seq<Disk>, from: nat, role: Role, before: Generation,
      g: Generation)
    requires CrashSafe(Disk(start, rec), role, before, g) && rec[role] == g.tag && g.tag != before.tag
    requires forall i :: from <= i < |history| ==>
        history[i].recorded == rec && Activating(start, history[i].files, role, Some(g))
    ensures forall i :: from <= i < |history| ==> CrashSafe(history[i], role, before, g)
  {
  }

  /** ... and for the other. */
  lemma OtherRoleSafe(start: Files, rec: map<Role, nat>, history: seq<Disk>, from: nat, role: Role,
      act: Option<Generation>, other: Role, before: Generation, g: Generation)
    requires CrashSafe(Disk(start, rec), other, before, g) && other != role
    requires forall i :: from <= i < |history| ==>
        history[i].recorded == rec && Activating(start, history[i].files, role, act)
    ensures forall i :: from <= i < |history| ==> CrashSafe(history[i], other, before, g)
  {
  }

  /**
   * Restart on any state such a crash leaves. Recovery without faults yields exactly the recorded generation;
   * with faults or cut in its turn, every state it leaves is one recovery can start from again.
   */
  method RestartAfterCrash(d: Disk, role: Role, before: Generation, g: Generation, faulty: bool)
    returns (dir: KeyDirectory, r: Option<Generation>)
    requires CrashSafe(d, role, before, g) && g.tag != before.tag
    ensures !faulty ==> r == Some(if d.recorded[role] == g.tag then g else before)
    ensures r.Some? ==> Loads(dir.files, Live(role)) == r && r.value.tag == d.recorded[role]
    ensures dir.recorded == d.recorded
    ensures d.recorded[role] == g.tag ==> Loads(dir.files, Tagged(role, before.tag)) == Some(before)
    ensures NoLoss(d.files, dir.files)
    ensures dir.history != [] && dir.history[|dir.history| - 1] == Disk(dir.files, dir.recorded)
    ensures forall i :: 0 <= i < |dir.history| ==>
        CrashSafe(dir.history[i], role, before, g) && NoLoss(d.files, dir.history[i].files)
  {
    dir := new KeyDirectory(d.files, d.recorded, faulty);
    r := dir.EnsureLiveKey(role, d.recorded[role]);
    assert NoLoss(dir.origin, dir.history[|dir.history| - 1].files);
    if d.recorded[role] == g.tag { ActivationSafe(d.files, d.recorded, dir.history, 1, role, before, g); }
  }

  /** States during an activation of g: other slots keep what verified; the live slot is as before, broken, or g. */
  ghost predicate Activating(a: Files, d: Files, role: Role, g: Option<Generation>) {
    && (forall x: Base :: x != Live(role) && Loads(a, x).Some? ==> Loads(d, x) == Loads(a, x))
    && (forall r :: r != role ==> Loads(d, Live(r)) == Loads(a, Live(r)))
    && (Loads(d, Live(role)) == Loads(a, Live(role)) || Loads(d, Live(role)).None? || Loads(d, Live(role)) == g)
  }

  lemma QuietIsActivating(a: Files, d: Files, role: Role, g: Option<Generation>)
    requires Quiet(a, d)
    ensures Activating(a, d, role, g)
  {
  }

  lemma MidActivation(a: Files, f: Files, role: Role, g: Generation)
    requires Quiet(a, f) && g.fit
    ensures var m := f[Of(Live(role), Priv) := PrivOf(g)];
            && Activating(a, m, role, Some(g))
            && (Loads(m, Live(role)).Some? ==> Loads(m, Live(role)) == Some(g))
  {
  }

  lemma EndActivation(a: Files, f: Files, role: Role, g: Generation)
    requires Quiet(a, f) && g.fit
    ensures var m := f[Of(Live(role), Priv) := PrivOf(g)][Of(Live(role), Pub) := PubOf(g)];
            Activating(a, m, role, Some(g)) && Loads(m, Live(role)) == Some(g)
  {
  }

  lemma LiveWriteLosesNothing(fs: Files, role: Role, h: Half, c: Content)
    requires Loads(fs, Live(role)).Some? ==> HeldElsewhere(fs, Loads(fs, Live(role)).value)
    ensures NoLoss(fs, fs[Of(Live(role), h) := c])
  {
    var next := fs[Of(Live(role), h) := c];
    forall g | Present(fs, g) ensures Present(next, g) {
      var x :| Loads(fs, x) == Some(g);
      if x == Live(role) {
        var b: Base :| !b.Live? && Loads(fs, b) == Some(g);
        assert Loads(next, b) == Some(g);
      } else {
        assert Loads(next, x) == Some(g);
      }
    }
  }

  datatype BackupResult = BackedUp(gen: Generation) | Conflict | Unverifiable | Fault

  lemma QuietReflexive(fs: Files)
    ensures Quiet(fs, fs)
  {
  }

  lemma QuietLosesNothing(a: Files, b: Files)
    requires Quiet(a, b)
    ensures NoLoss(a, b)
  {
    PreservesLosesNothing(a, b);
  }

  lemma AsideIsQuiet(fs: Files, f: File, n: nat, c: Content)
    ensures forall b :: Loads(fs[Aside(f, n) := c], b) == Loads(fs, b)
    ensures Quiet(fs, fs[Aside(f, n) := c])
  {
    assert forall b :: Loads(fs[Aside(f, n) := c], b) == Loads(fs, b);
  }

  /** Touching a slot that does not verify and is not live disturbs nothing. */
  lemma RemoveIsQuiet(fs: Files, f: File)
    requires f.Of? && Loads(fs, f.base).None? && !f.base.Live?
    ensures Quiet(fs, fs - {f}) && Loads(fs - {f}, f.base).None?
  {
  }

  lemma PutIsQuiet(fs: Files, f: File, c: Content)
    requires f.Of? && Loads(fs, f.base).None? && !f.base.Live?
    ensures Quiet(fs, fs[f := c])
  {
  }
}
