/** Whole runs over one block directory: any claims, any decisions, any interleaving. */
module BlockRuns {
  import opened BlockStores
  import opened BaseGuards

  ghost predicate SomeStep(b: Base, s: Store, s': Store) { exists c :: Step(b, s, c, s') }

  ghost predicate Run(b: Base, run: seq<Store>) {
    run != [] && run[0] == Fresh(b) && forall k :: 0 < k < |run| ==> SomeStep(b, run[k - 1], run[k])
  }

  lemma {:induction false} RunKeepsInv(b: Base, run: seq<Store>, k: nat)
    requires Disjoint(b) && Run(b, run) && k < |run|
    ensures Inv(b, run[k])
  {
    if k == 0 {
      FreshInv(b);
    } else {
      RunKeepsInv(b, run, k - 1);
      var c :| Step(b, run[k - 1], c, run[k]);
      StepKeepsInv(b, run[k - 1], c, run[k]);
    }
  }

  /** Whatever the jobs decide, write and however they interleave: no call throws, and every base block keeps its bytes. */
  lemma BaseBlocksSurvive(b: Base, run: seq<Store>, k: nat)
    requires Disjoint(b) && Run(b, run) && k < |run|
    ensures !run[k].fault
    ensures forall i :: i in b.dir ==> b.dir[i] in run[k].disk && run[k].disk[b.dir[i]] == b.disk[b.dir[i]]
  {
    RunKeepsInv(b, run, k);
    assert BaseKept(b, run[k]);
    forall i | i in b.dir ensures b.dir[i] in run[k].disk && run[k].disk[b.dir[i]] == b.disk[b.dir[i]] {
      var n := b.dir[i];
      assert n in b.disk;
      assert n in run[k].disk && run[k].disk[n] == b.disk[n];
    }
  }

  /** Claims on existing base blocks start from different ones; a claim on a missing block may be anywhere. */
  ghost predicate Different(b: Base) {
    forall c, d :: c in b.claims && d in b.claims && b.claims[c].Some? && b.claims[c] == b.claims[d] && b.claims[c].value in b.dir ==> c == d
  }

  lemma DifferentNoClash(b: Base, s: Store)
    requires Different(b) && LinksInv(b, s)
    ensures NoClash(b, s)
  {
  }

  /** Even if named base blocks are missing and calls throw: no write ever aims at an inode of the base. */
  lemma {:induction false} BaseKeptAnyway(b: Base, run: seq<Store>, k: nat)
    requires Different(b) && Run(b, run) && k < |run|
    ensures LinksInv(b, run[k]) && Guard(b, run[k]) && BaseKept(b, run[k]) && !Threatened(b, run[k])
  {
    if k == 0 {
      FreshGuard(b);
    } else {
      BaseKeptAnyway(b, run, k - 1);
      var c :| Step(b, run[k - 1], c, run[k]);
      ActedKeepsGuard(b, run[k - 1], run[k]);
      DifferentNoClash(b, run[k]);
      ActedKeepsGuard(b, run[k - 1], run[k]);
    }
    Unthreatened(b, run[k]);
  }

  /** No call throws, and every base block keeps its bytes. */
  ghost predicate Safe(b: Base, s: Store) {
    && !s.fault
    && forall i :: i in b.dir ==> b.dir[i] in b.disk && b.dir[i] in s.disk && s.disk[b.dir[i]] == b.disk[b.dir[i]]
  }

  ghost predicate SafeRun(b: Base, run: seq<Store>) { forall k :: 0 <= k < |run| ==> Safe(b, run[k]) }

  lemma TwoStates(b: Base, s: Store)
    requires SomeStep(b, Fresh(b), s)
    ensures Run(b, [Fresh(b), s])
  {
  }

  /** A claim on a block that is not there: its link throws. */
  lemma AbsentBlockThrows(b: Base, c: Claim) returns (run: seq<Store>)
    requires c in b.claims && b.claims[c].Some? && b.claims[c].value !in b.dir
    ensures Run(b, run) && !SafeRun(b, run)
  {
    var s := Fresh(b).(fault := true);
    assert Action(b, Fresh(b), c, true, "", s) && Step(b, Fresh(b), c, s);
    TwoStates(b, s);
    run := [Fresh(b), s];
    assert !Safe(b, run[1]);
  }

  /** Two claims on one block: when both free it, the second throws. */
  lemma SharedBlockThrows(b: Base, c: Claim, d: Claim) returns (run: seq<Store>)
    requires c in b.claims && d in b.claims && c != d && b.claims[c].Some? && b.claims[c] == b.claims[d]
    requires b.claims[c].value in b.dir
    ensures Run(b, run) && !SafeRun(b, run)
  {
    var s0 := Fresh(b);
    var s1 := s0.(alloc := s0.alloc - {b.claims[c].value}, phase := s0.phase[c := Freed]);
    var s2 := s1.(fault := true);
    assert Action(b, s0, c, false, "", s1) && Step(b, s0, c, s1);
    assert Action(b, s1, d, false, "", s2) && Step(b, s1, d, s2);
    run := [s0, s1, s2];
    assert !Safe(b, run[2]);
  }

  /** All runs are safe exactly if claims start from different base blocks, all of which exist. */
  lemma SafeExactly(b: Base)
    ensures (forall run :: Run(b, run) ==> SafeRun(b, run)) <==> Disjoint(b)
  {
    if Disjoint(b) {
      forall run | Run(b, run) ensures SafeRun(b, run) {
        forall k | 0 <= k < |run| ensures Safe(b, run[k]) { BaseBlocksSurvive(b, run, k); }
      }
    }
    if forall run :: Run(b, run) ==> SafeRun(b, run) {
      SafeOnlyIfDisjoint(b);
    }
  }

  lemma SafeOnlyIfDisjoint(b: Base)
    requires forall run :: Run(b, run) ==> SafeRun(b, run)
    ensures Disjoint(b)
  {
    forall c | c in b.claims && b.claims[c].Some? ensures b.claims[c].value in b.dir {
      if b.claims[c].value !in b.dir { var run := AbsentBlockThrows(b, c); }
    }
    forall c, d | c in b.claims && d in b.claims && b.claims[c].Some? && b.claims[c] == b.claims[d] ensures c == d {
      if c != d { var run := SharedBlockThrows(b, c, d); }
    }
    assert Run(b, [Fresh(b)]) && SafeRun(b, [Fresh(b)]);
    assert Safe(b, [Fresh(b)][0]);
  }
}
