/** How far block indices can grow: taking the lowest free index never needs more than the blocks there are. */
module BlockBounds {
  import opened Measures
  import opened Numbers
  import opened BlockStores
  import opened CreateRuns
  import opened ReadBacks

  function Owners(s: Store): set<Claim> {
    set c | c in s.phase && (s.phase[c].Owned? || s.phase[c].Written?)
  }

  /** The claims that took a fresh index pay for what the allocator holds beyond the base. */
  ghost predicate Compact(b: Base, s: Store) {
    && |s.alloc| <= |b.dir| + |Owners(s)|
    && forall c :: c in Owners(s) ==> s.phase[c].idx < |b.dir| + |b.claims|
  }

  lemma {:induction false} FullPrefix(alloc: set<int>, i: nat)
    requires forall j :: 0 <= j < i ==> j in alloc
    ensures i <= |alloc|
  {
    if i > 0 {
      FullPrefix(alloc - {i - 1}, i - 1);
    }
  }

  lemma FreshCompact(b: Base)
    ensures Compact(b, Fresh(b))
  {
    assert Owners(Fresh(b)) == {};
    assert |b.dir.Keys| == |b.dir|;
  }

  lemma OneMoreOwner(s: Store, c: Claim, i: int, s': Store)
    requires c in s.phase && c !in Owners(s) && s'.phase == s.phase[c := Owned(i)]
    ensures Owners(s') == Owners(s) + {c} && |Owners(s')| == |Owners(s)| + 1
    ensures |Owners(s')| <= |s.phase|
  {
    assert Owners(s') == Owners(s) + {c};
    SubsetSize(Owners(s'), s.phase.Keys);
  }

  lemma AllocKeepsCompact(b: Base, s: Store, c: Claim, i: int, s': Store)
    requires s.phase.Keys == b.claims.Keys && Compact(b, s) && c in s.phase && c !in Owners(s) && Lowest(s.alloc, i)
    requires s' == s.(alloc := s.alloc + {i}, phase := s.phase[c := Owned(i)])
    ensures Compact(b, s')
  {
    FullPrefix(s.alloc, i);
    OneMoreOwner(s, c, i, s');
    assert |s.phase| == |s.phase.Keys| == |b.claims|;
  }

  /** The other actions neither allocate nor change who owns a fresh index. */
  lemma NoAllocKeepsCompact(b: Base, s: Store, c: Claim, s': Store)
    requires Compact(b, s) && |s'.alloc| <= |s.alloc| && c in s.phase
    requires c in s'.phase && (s'.phase == s.phase || s'.phase == s.phase[c := s'.phase[c]])
    requires (c in Owners(s') <==> c in Owners(s))
    requires c in Owners(s') ==> s'.phase[c].idx == s.phase[c].idx
    ensures Compact(b, s')
  {
    assert Owners(s') == Owners(s);
  }

  lemma LinkKeepsCompact(b: Base, s: Store, c: Claim, s': Store)
    requires Compact(b, s) && LinkStep(b, s, c, s')
    ensures Compact(b, s')
  {
    NoAllocKeepsCompact(b, s, c, s');
  }

  lemma FreeKeepsCompact(b: Base, s: Store, c: Claim, s': Store)
    requires Compact(b, s) && FreeStep(b, s, c, s')
    ensures Compact(b, s')
  {
    SubsetSize(s'.alloc, s.alloc);
    NoAllocKeepsCompact(b, s, c, s');
  }

  lemma SpitKeepsCompact(b: Base, s: Store, c: Claim, data: string, s': Store)
    requires Compact(b, s) && SpitStep(b, s, c, data, s')
    ensures Compact(b, s')
  {
    NoAllocKeepsCompact(b, s, c, s');
  }

  lemma ActionKeepsCompact(b: Base, s: Store, c: Claim, keep: bool, data: string, s': Store)
    requires s.phase.Keys == b.claims.Keys && Compact(b, s) && Action(b, s, c, keep, data, s')
    ensures Compact(b, s')
  {
    if keep {
      LinkKeepsCompact(b, s, c, s');
    } else if FreeStep(b, s, c, s') {
      FreeKeepsCompact(b, s, c, s');
    } else if SpitStep(b, s, c, data, s') {
      SpitKeepsCompact(b, s, c, data, s');
    } else {
      var i :| Lowest(s.alloc, i) && s' == s.(alloc := s.alloc + {i}, phase := s.phase[c := Owned(i)]);
      AllocKeepsCompact(b, s, c, i, s');
    }
  }

  /** A step leaves the chunk directory alone or is one action on it. */
  lemma StepKeepsCompact(cfg: Config, s: State, f: nat, s': State)
    requires s.chunks.phase.Keys == cfg.chunkBase.claims.Keys && FileStep(cfg, s, f, s') && Compact(cfg.chunkBase, s.chunks)
    ensures Compact(cfg.chunkBase, s'.chunks)
  {
    if c: nat :| RunChunk(cfg, s, f, c, s') {
      ActionKeepsCompact(cfg.chunkBase, s.chunks, Claim(f, c), SameHash(cfg, f, c),
                         Packed(cfg, cfg.files[f].live[c]).1, s'.chunks);
    } else if LinkOne(cfg, s, f, s') {
      ActionKeepsCompact(cfg.chunkBase, s.chunks, Claim(f, s.job[f].next), true, "", s'.chunks);
    } else {
      assert s'.chunks == s.chunks;
    }
  }

  /** What holds at first and is kept by every step holds throughout. */
  lemma {:induction false} Throughout(cfg: Config, p: State -> bool, run: seq<State>, k: nat)
    requires Setup(cfg) && CreateRuns.Run(cfg, run) && k < |run| && p(Init(cfg))
    requires forall s, s' :: RunInv(cfg, s) && p(s) && CreateRuns.Step(cfg, s, s') ==> p(s')
    ensures p(run[k])
  {
    if k > 0 {
      Throughout(cfg, p, run, k - 1);
      CreateRuns.RunKeepsInv(cfg, run, k - 1);
      assert StepAt(cfg, run, k);
    }
  }

  lemma RunKeepsCompact(cfg: Config, run: seq<State>, k: nat)
    requires Setup(cfg) && CreateRuns.Run(cfg, run) && k < |run|
    ensures Compact(cfg.chunkBase, run[k].chunks)
  {
    FreshCompact(cfg.chunkBase);
    forall s, s' | RunInv(cfg, s) && Compact(cfg.chunkBase, s.chunks) && CreateRuns.Step(cfg, s, s')
      ensures Compact(cfg.chunkBase, s'.chunks)
    {
      var f :| FileStep(cfg, s, f, s');
      StepKeepsCompact(cfg, s, f, s');
    }
    Throughout(cfg, (s: State) => Compact(cfg.chunkBase, s.chunks), run, k);
  }

  predicate Small(b: Base) { |b.dir| + |b.claims| < I63 && forall i :: i in b.dir ==> 0 <= i < I63 }

  /** Every index of the new archive is a base index, or below the number of base blocks and chunk places. */
  lemma IndexBounded(b: Base, s: Store, i: int)
    requires BlockStores.Inv(b, s) && Compact(b, s) && i in s.dir
    ensures i in b.dir || 0 <= i < |b.dir| + |b.claims|
  {
    var c :| c in s.phase && Fills(s.phase[c], i);
    assert PhaseInv(b, s, c);
    assert s.phase[c].Written? ==> c in Owners(s);
  }

  lemma IndicesFit(b: Base, s: Store)
    requires BlockStores.Inv(b, s) && Compact(b, s) && Small(b)
    ensures forall i :: i in s.dir ==> 0 <= i < I63
  {
    forall i | i in s.dir ensures 0 <= i < I63 { IndexBounded(b, s, i); }
  }

  /** When base and live files are small enough, no index of any run reaches 2^63. */
  lemma SmallRunsFit(cfg: Config, run: seq<State>, k: nat)
    requires Setup(cfg) && Small(cfg.chunkBase) && CreateRuns.Run(cfg, run) && k < |run|
    ensures Fits(run[k])
  {
    RunKeepsCompact(cfg, run, k);
    CreateRuns.RunKeepsInv(cfg, run, k);
    IndicesFit(cfg.chunkBase, run[k].chunks);
  }
}
