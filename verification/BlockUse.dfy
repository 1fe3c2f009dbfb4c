/** The allocator's set over whole runs: it is exactly what is in use. */
module BlockUses {
  import opened Common
  import opened BlockStores
  import opened BlockRuns

  /** Some claim answers for index `i`. */
  ghost predicate HeldBySome(b: Base, s: Store, i: int) {
    exists c :: c in b.claims && c in s.phase && Held(b, s, c) == Some(i)
  }

  /** A base block from which no claim starts. */
  ghost predicate Leftover(b: Base, i: int) { i in b.dir && forall c :: c in b.claims ==> b.claims[c] != Some(i) }

  /** The allocator holds the indices that claims answer for, the leftovers, and nothing else. */
  ghost predicate Exact(b: Base, s: Store) {
    forall i :: i in s.alloc <==> HeldBySome(b, s, i) || Leftover(b, i)
  }

  lemma FreshExact(b: Base)
    requires Disjoint(b)
    ensures Exact(b, Fresh(b))
  {
    var s := Fresh(b);
    forall i ensures i in s.alloc <==> HeldBySome(b, s, i) || Leftover(b, i) {
      if i in b.dir && !Leftover(b, i) {
        var c :| c in b.claims && b.claims[c] == Some(i);
        assert c in s.phase && Held(b, s, c) == Some(i);
      }
    }
  }

  /** Claim `c` moves on and the others stay where they are. */
  lemma HeldMoves(b: Base, s: Store, c: Claim, s': Store, i: int)
    requires s.phase.Keys == b.claims.Keys && c in b.claims && c in s'.phase && s'.phase == s.phase[c := s'.phase[c]]
    requires HeldOnce(b, s)
    ensures HeldBySome(b, s', i)
            <==> Held(b, s', c) == Some(i) || (HeldBySome(b, s, i) && Held(b, s, c) != Some(i))
  {
    if d :| d in b.claims && d in s'.phase && Held(b, s', d) == Some(i) {
      if d != c {
        assert Held(b, s, d) == Some(i);
        assert Held(b, s, c) == Some(i) ==> c == d;
      }
    }
    if HeldBySome(b, s, i) && Held(b, s, c) != Some(i) {
      var d :| d in b.claims && d in s.phase && Held(b, s, d) == Some(i);
      assert d in s'.phase && Held(b, s', d) == Some(i);
    }
    if Held(b, s', c) == Some(i) { assert HeldBySome(b, s', i); }
  }

  /** Index `i` changes hands in the allocator exactly as claim `c` takes it up or lays it down. */
  lemma MovesKeepExact(b: Base, s: Store, c: Claim, s': Store)
    requires s.phase.Keys == b.claims.Keys && c in b.claims && c in s'.phase && s'.phase == s.phase[c := s'.phase[c]]
    requires HeldOnce(b, s) && Exact(b, s)
    requires forall i :: i in s'.alloc <==> Held(b, s', c) == Some(i) || (i in s.alloc && Held(b, s, c) != Some(i))
    requires forall i :: Leftover(b, i) ==> Held(b, s, c) != Some(i)
    ensures Exact(b, s')
  {
    forall i ensures i in s'.alloc <==> HeldBySome(b, s', i) || Leftover(b, i) {
      HeldMoves(b, s, c, s', i);
    }
  }

  /** What a claim holds is no leftover: it is the claim's own base block, or was free when it was taken. */
  ghost predicate HoldsNoLeftover(b: Base, s: Store) {
    forall c, i :: c in b.claims && c in s.phase && Leftover(b, i) ==> Held(b, s, c) != Some(i)
  }

  ghost predicate ExactInv(b: Base, s: Store) {
    s.phase.Keys == b.claims.Keys && HeldOnce(b, s) && Exact(b, s) && HoldsNoLeftover(b, s)
  }

  /** What a claim holds is allocated. */
  lemma HeldIsAllocated(b: Base, s: Store, c: Claim)
    requires ExactInv(b, s) && c in b.claims && Held(b, s, c).Some?
    ensures Held(b, s, c).value in s.alloc
  {
    assert HeldBySome(b, s, Held(b, s, c).value);
  }

  lemma LinkKeepsExact(b: Base, s: Store, c: Claim, s': Store)
    requires ExactInv(b, s) && LinkStep(b, s, c, s') && !s'.fault
    ensures Exact(b, s') && HoldsNoLeftover(b, s')
  {
    HeldIsAllocated(b, s, c);
    MovesKeepExact(b, s, c, s');
  }

  lemma FreeKeepsExact(b: Base, s: Store, c: Claim, s': Store)
    requires ExactInv(b, s) && FreeStep(b, s, c, s') && !s'.fault
    ensures Exact(b, s') && HoldsNoLeftover(b, s')
  {
    MovesKeepExact(b, s, c, s');
  }

  lemma AllocKeepsExact(b: Base, s: Store, c: Claim, s': Store)
    requires ExactInv(b, s) && AllocStep(b, s, c, s')
    ensures Exact(b, s') && HoldsNoLeftover(b, s')
  {
    MovesKeepExact(b, s, c, s');
    forall d, i | d in b.claims && d in s'.phase && Leftover(b, i) ensures Held(b, s', d) != Some(i) {
      if d != c { assert Held(b, s', d) == Held(b, s, d); } else { assert i in s.alloc; }
    }
  }

  lemma SpitKeepsExact(b: Base, s: Store, c: Claim, data: string, s': Store)
    requires ExactInv(b, s) && SpitStep(b, s, c, data, s')
    ensures Exact(b, s') && HoldsNoLeftover(b, s')
  {
    HeldIsAllocated(b, s, c);
    MovesKeepExact(b, s, c, s');
  }

  lemma ActionKeepsExact(b: Base, s: Store, c: Claim, keep: bool, data: string, s': Store)
    requires ExactInv(b, s) && Action(b, s, c, keep, data, s') && !s'.fault
    ensures Exact(b, s') && HoldsNoLeftover(b, s')
  {
    if keep {
      LinkKeepsExact(b, s, c, s');
    } else if FreeStep(b, s, c, s') {
      FreeKeepsExact(b, s, c, s');
    } else if AllocStep(b, s, c, s') {
      AllocKeepsExact(b, s, c, s');
    } else {
      SpitKeepsExact(b, s, c, data, s');
    }
  }

  /** In every interleaving the allocator is exact: a freed index is free, and nothing else is. */
  lemma {:induction false} RunKeepsExact(b: Base, run: seq<Store>, k: nat)
    requires Disjoint(b) && Run(b, run) && k < |run|
    ensures Exact(b, run[k]) && HoldsNoLeftover(b, run[k])
  {
    if k == 0 {
      FreshExact(b);
    } else {
      RunKeepsExact(b, run, k - 1);
      RunKeepsInv(b, run, k - 1);
      var c :| Step(b, run[k - 1], c, run[k]);
      var keep, data :| Action(b, run[k - 1], c, keep, data, run[k]);
      ActionKeepsInv(b, run[k - 1], c, keep, data, run[k]);
      ActionKeepsExact(b, run[k - 1], c, keep, data, run[k]);
    }
  }
}
