/** Which create runs leave their base alone. The base archive need not be readable or complete, and nothing is
    assumed about hashes, stats or compression. */
module BaseSafeties {
  import opened Common
  import opened BlockStores
  import opened BaseGuards
  import opened CreateRuns

  /** All base chunks of a file up to place `c` exist and are different, so that linking in order gets past `c`. */
  predicate LinksUpTo(cfg: Config, f: nat, c: nat)
    requires f < |cfg.files| && c < |BaseChunks(cfg.files[f])|
  {
    var b := BaseChunks(cfg.files[f]);
    && (forall e :: 0 <= e <= c ==> b[e].idx in cfg.chunkBase.dir)
    && (forall d, e :: 0 <= d < e <= c ==> b[d].idx != b[e].idx)
  }

  /** Some job will want to link the base chunk at this place. */
  predicate Links(cfg: Config, f: nat, c: nat) {
    && f < |cfg.files| && c < |BaseChunks(cfg.files[f])|
    && var spec := cfg.files[f];
       if spec.skip then LinksUpTo(cfg, f, c)
       else c < |spec.live| && cfg.codec.hash(spec.live[c]) == BaseChunks(spec)[c].hash
  }

  /** Some job will free the base chunk at this place and write another. */
  predicate Rewrites(cfg: Config, g: nat, d: nat) {
    && g < |cfg.files| && d < |cfg.files[g].live| && d < |BaseChunks(cfg.files[g])|
    && !cfg.files[g].skip && cfg.codec.hash(cfg.files[g].live[d]) != BaseChunks(cfg.files[g])[d].hash
  }

  /** One existing base block is to be kept for one place and rewritten for another. */
  predicate MixedAt(cfg: Config, f: nat, c: nat, g: nat, d: nat) {
    && Links(cfg, f, c) && Rewrites(cfg, g, d)
    && BaseChunks(cfg.files[f])[c].idx == BaseChunks(cfg.files[g])[d].idx
    && BaseChunks(cfg.files[f])[c].idx in cfg.chunkBase.dir
  }

  ghost predicate Mixed(cfg: Config) { exists f, c, g, d :: MixedAt(cfg, f, c, g, d) }

  /** Two files that found one FInfo block found one list in it, which is not empty; live files are not empty either. */
  ghost predicate Coherent(cfg: Config) {
    && (forall f :: 0 <= f < |cfg.files| ==> cfg.files[f].live != [])
    && (forall f, g :: 0 <= f < |cfg.files| && 0 <= g < |cfg.files| && f != g ==> SameList(cfg.files[f], cfg.files[g]))
  }

  predicate SameList(x: FileSpec, y: FileSpec) {
    BaseIdx(x) >= 0 && BaseIdx(x) == BaseIdx(y) ==> BaseChunks(x) == BaseChunks(y) != []
  }

  predicate BasePlace(cfg: Config, f: nat, c: nat) { f < |cfg.files| && c < |BaseChunks(cfg.files[f])| }

  /** The base entries name no existing block twice. */
  ghost predicate ListedOnce(cfg: Config) {
    forall f: nat, c: nat, g: nat, d: nat :: BasePlace(cfg, f, c) && BasePlace(cfg, g, d) ==>
      var i := BaseChunks(cfg.files[f])[c].idx;
      i == BaseChunks(cfg.files[g])[d].idx && i in cfg.chunkBase.dir ==> f == g && c == d
  }

  lemma ListedOnceIsUnmixed(cfg: Config)
    requires ListedOnce(cfg)
    ensures !Mixed(cfg)
  {
    forall f, c, g, d ensures !MixedAt(cfg, f, c, g, d) {
      assert MixedAt(cfg, f, c, g, d) ==> BasePlace(cfg, f, c) && BasePlace(cfg, g, d);
    }
  }

  /** What a caller can check before the run, from the base entries, the live hashes and the block names. */
  ghost predicate Harmless(cfg: Config) { ClaimsMatch(cfg) && Coherent(cfg) && !Mixed(cfg) }

  /** A linked chunk is one that its file's job wants linked. */
  lemma LinkedLinks(cfg: Config, s: State, f: nat, c: nat)
    requires ClaimsMatch(cfg) && FilesInv(cfg, s) && LinksInv(cfg.chunkBase, s.chunks) && f < |cfg.files|
    requires PhaseOf(s.chunks, f, c).Linked?
    ensures Links(cfg, f, c) && PhaseOf(s.chunks, f, c).idx == BaseChunks(cfg.files[f])[c].idx
    ensures BaseChunks(cfg.files[f])[c].idx in cfg.chunkBase.dir
  {
    assert FileInv(cfg, s, f);
    assert ChunkInv(cfg, s, f, c);
    if cfg.files[f].skip { SkippedPrefix(cfg, s, f, c); }
  }

  lemma SkippedPrefix(cfg: Config, s: State, f: nat, c: nat)
    requires FilesInv(cfg, s) && LinksInv(cfg.chunkBase, s.chunks) && f < |cfg.files| && cfg.files[f].skip
    requires PhaseOf(s.chunks, f, c).Linked? && c < |BaseChunks(cfg.files[f])|
    ensures LinksUpTo(cfg, f, c)
  {
    var b := BaseChunks(cfg.files[f]);
    assert FileInv(cfg, s, f);
    forall e: nat | e <= c
      ensures Claim(f, e) in s.chunks.phase && s.chunks.phase[Claim(f, e)] == Linked(b[e].idx) && b[e].idx in cfg.chunkBase.dir
    {
      AllLinkedBefore(cfg, s, f, c, e);
      assert ChunkInv(cfg, s, f, e);
    }
  }

  lemma AllLinkedBefore(cfg: Config, s: State, f: nat, c: nat, e: nat)
    requires FilesInv(cfg, s) && f < |cfg.files| && cfg.files[f].skip
    requires PhaseOf(s.chunks, f, c).Linked? && e <= c < |BaseChunks(cfg.files[f])|
    ensures PhaseOf(s.chunks, f, e).Linked?
  {
    assert FileInv(cfg, s, f);
  }

  lemma LooseRewrites(cfg: Config, s: State, g: nat, d: nat)
    requires ClaimsMatch(cfg) && FilesInv(cfg, s) && g < |cfg.files| && Loose(PhaseOf(s.chunks, g, d))
    requires d < |BaseChunks(cfg.files[g])|
    ensures Rewrites(cfg, g, d)
  {
    assert FileInv(cfg, s, g);
    assert ChunkInv(cfg, s, g, d);
  }

  lemma ChunksDoNotClash(cfg: Config, s: State)
    requires ClaimsMatch(cfg) && FilesInv(cfg, s) && LinksInv(cfg.chunkBase, s.chunks) && !Mixed(cfg)
    ensures NoClash(cfg.chunkBase, s.chunks)
  {
    var b := cfg.chunkBase;
    forall c, d | c in s.chunks.phase && d in s.chunks.phase && d in b.claims && s.chunks.phase[c].Linked? && Loose(s.chunks.phase[d])
      ensures b.claims[d] != Some(s.chunks.phase[c].idx)
    {
      if b.claims[d] == Some(s.chunks.phase[c].idx) {
        ClashIsMixed(cfg, s, c, d);
      }
    }
  }

  lemma ClashIsMixed(cfg: Config, s: State, c: Claim, d: Claim)
    requires ClaimsMatch(cfg) && FilesInv(cfg, s) && LinksInv(cfg.chunkBase, s.chunks)
    requires c in s.chunks.phase && d in s.chunks.phase && d in cfg.chunkBase.claims
    requires s.chunks.phase[c].Linked? && Loose(s.chunks.phase[d]) && cfg.chunkBase.claims[d] == Some(s.chunks.phase[c].idx)
    ensures Mixed(cfg)
  {
    assert c in cfg.chunkBase.claims && Place(cfg, c.file, c.part) && Place(cfg, d.file, d.part);
    assert cfg.chunkBase.claims[d] == ChunkClaim(cfg.files[d.file], d.part);
    assert PhaseOf(s.chunks, c.file, c.part) == s.chunks.phase[c] && PhaseOf(s.chunks, d.file, d.part) == s.chunks.phase[d];
    LinkedLinks(cfg, s, c.file, c.part);
    LooseRewrites(cfg, s, d.file, d.part);
    assert MixedAt(cfg, c.file, c.part, d.file, d.part);
  }

  /** A kept FInfo means a kept first chunk. */
  lemma KeptFirst(cfg: Config, s: State, f: nat)
    requires FilesInv(cfg, s) && f < |cfg.files| && cfg.files[f].live != [] && BaseChunks(cfg.files[f]) != []
    requires PhaseOf(s.finfos, f, 0).Linked?
    ensures PhaseOf(s.chunks, f, 0).Linked?
  {
    assert FileInv(cfg, s, f);
    assert s.job[f].Closing? || s.job[f].Listed?;
    assert AllLinked(s.chunks, f, 1);
  }

  /** A rewritten FInfo means a finished first chunk. */
  lemma RewrittenFirst(cfg: Config, s: State, g: nat)
    requires FilesInv(cfg, s) && g < |cfg.files| && cfg.files[g].live != []
    requires Loose(PhaseOf(s.finfos, g, 0))
    ensures Done(PhaseOf(s.chunks, g, 0))
  {
    assert FileInv(cfg, s, g);
    assert s.job[g].Closing? || s.job[g].Listed?;
    assert Claim(g, 0) in s.posted;
    assert ChunkInv(cfg, s, g, 0);
  }

  lemma FInfosDoNotClash(cfg: Config, s: State)
    requires ClaimsMatch(cfg) && FilesInv(cfg, s) && Coherent(cfg) && !Mixed(cfg)
    requires LinksInv(cfg.chunkBase, s.chunks) && LinksInv(cfg.finfoBase, s.finfos)
    ensures NoClash(cfg.finfoBase, s.finfos)
  {
    var b := cfg.finfoBase;
    forall c, d | c in s.finfos.phase && d in s.finfos.phase && d in b.claims && s.finfos.phase[c].Linked? && Loose(s.finfos.phase[d])
      ensures b.claims[d] != Some(s.finfos.phase[c].idx)
    {
      if b.claims[d] == Some(s.finfos.phase[c].idx) {
        FInfoClashIsMixed(cfg, s, c, d);
      }
    }
  }

  lemma FInfoClashIsMixed(cfg: Config, s: State, c: Claim, d: Claim)
    requires ClaimsMatch(cfg) && FilesInv(cfg, s) && Coherent(cfg)
    requires LinksInv(cfg.chunkBase, s.chunks) && LinksInv(cfg.finfoBase, s.finfos)
    requires c in s.finfos.phase && d in s.finfos.phase && d in cfg.finfoBase.claims
    requires s.finfos.phase[c].Linked? && Loose(s.finfos.phase[d]) && cfg.finfoBase.claims[d] == Some(s.finfos.phase[c].idx)
    ensures Mixed(cfg)
  {
    var f, g := c.file, d.file;
    assert c in cfg.finfoBase.claims && f < |cfg.files| && g < |cfg.files| && c == Claim(f, 0) && d == Claim(g, 0);
    assert cfg.finfoBase.claims[c] == FInfoClaim(cfg.files[f]) && cfg.finfoBase.claims[d] == FInfoClaim(cfg.files[g]);
    assert PhaseOf(s.finfos, f, 0) == s.finfos.phase[c] && PhaseOf(s.finfos, g, 0) == s.finfos.phase[d];
    assert f != g && SameList(cfg.files[f], cfg.files[g]);
    KeptFirst(cfg, s, f);
    RewrittenFirst(cfg, s, g);
    FirstChunksMix(cfg, s, f, g);
  }

  /** One first chunk, linked for one file and finished for another: the other one rewrote it. */
  lemma FirstChunksMix(cfg: Config, s: State, f: nat, g: nat)
    requires ClaimsMatch(cfg) && FilesInv(cfg, s) && LinksInv(cfg.chunkBase, s.chunks)
    requires f < |cfg.files| && g < |cfg.files| && f != g && BaseChunks(cfg.files[f]) == BaseChunks(cfg.files[g]) != []
    requires PhaseOf(s.chunks, f, 0).Linked? && Done(PhaseOf(s.chunks, g, 0))
    ensures Mixed(cfg)
  {
    LinkedLinks(cfg, s, f, 0);
    NotLinkedToo(cfg, s, f, g);
    LooseRewrites(cfg, s, g, 0);
    assert MixedAt(cfg, f, 0, g, 0);
  }

  lemma NotLinkedToo(cfg: Config, s: State, f: nat, g: nat)
    requires ClaimsMatch(cfg) && FilesInv(cfg, s) && LinksInv(cfg.chunkBase, s.chunks)
    requires f < |cfg.files| && g < |cfg.files| && f != g && BaseChunks(cfg.files[f]) == BaseChunks(cfg.files[g]) != []
    requires PhaseOf(s.chunks, f, 0).Linked?
    ensures !PhaseOf(s.chunks, g, 0).Linked?
  {
    LinkedLinks(cfg, s, f, 0);
    if PhaseOf(s.chunks, g, 0).Linked? { LinkedLinks(cfg, s, g, 0); }
  }

  lemma RunKeepsLinks(cfg: Config, run: seq<State>, k: nat)
    requires CreateRuns.Run(cfg, run) && k < |run|
    ensures LinksInv(cfg.chunkBase, run[k].chunks)
  {
    FreshGuard(cfg.chunkBase);
    forall s: State, s': State | LinksInv(cfg.chunkBase, s.chunks) && CreateRuns.Step(cfg, s, s') ensures LinksInv(cfg.chunkBase, s'.chunks) {
      SomeStepActs(cfg, s, s');
      ActedKeepsGuard(cfg.chunkBase, s.chunks, s'.chunks);
    }
    EveryState(cfg, (s: State) => LinksInv(cfg.chunkBase, s.chunks), run, k);
  }

  /** The file keeps all that its base entry offers for the live chunks. */
  predicate Keeps(cfg: Config, f: nat)
    requires f < |cfg.files|
  {
    var spec := cfg.files[f];
    spec.skip || forall c :: 0 <= c < |spec.live| ==>
      c < |BaseChunks(spec)| && cfg.codec.hash(spec.live[c]) == BaseChunks(spec)[c].hash
  }

  lemma KeeperLinksFirst(cfg: Config, s: State, f: nat)
    requires FilesInv(cfg, s) && f < |cfg.files| && s.job[f].Listed? && Keeps(cfg, f)
    requires BaseChunks(cfg.files[f]) != [] && cfg.files[f].live != []
    ensures PhaseOf(s.chunks, f, 0).Linked?
  {
    assert FileInv(cfg, s, f);
    assert ChunkInv(cfg, s, f, 0);
    if cfg.files[f].skip { assert AllLinked(s.chunks, f, 1); } else { assert Claim(f, 0) in s.posted; }
  }

  /** Of two files that both keep one base entry at most one is ever listed: the other's link throws. Two files that
      both rewrite it, or one that keeps and one that rewrites, may both be listed; only the latter is `Mixed`. */
  lemma OneKeeperListed(cfg: Config, run: seq<State>, k: nat, f: nat, g: nat)
    requires ClaimsMatch(cfg) && CreateRuns.Run(cfg, run) && k < |run|
    requires f < |cfg.files| && g < |cfg.files| && f != g && BaseChunks(cfg.files[f]) == BaseChunks(cfg.files[g]) != []
    requires Keeps(cfg, f) && Keeps(cfg, g) && cfg.files[f].live != [] && cfg.files[g].live != []
    ensures |run[k].job| == |cfg.files| && !(run[k].job[f].Listed? && run[k].job[g].Listed?)
  {
    RunKeepsFiles(cfg, run, k);
    RunKeepsLinks(cfg, run, k);
    if run[k].job[f].Listed? {
      KeeperLinksFirst(cfg, run[k], f);
      NotLinkedToo(cfg, run[k], f, g);
      if run[k].job[g].Listed? { KeeperLinksFirst(cfg, run[k], g); }
    }
  }

  ghost predicate Guarded(cfg: Config, s: State) {
    && FilesInv(cfg, s) && LinksInv(cfg.chunkBase, s.chunks) && LinksInv(cfg.finfoBase, s.finfos)
    && Guard(cfg.chunkBase, s.chunks) && Guard(cfg.finfoBase, s.finfos)
  }

  lemma ActedKeepsGuarded(cfg: Config, s: State, s': State)
    requires Harmless(cfg) && Guarded(cfg, s)
    requires FilesInv(cfg, s') && ActsOnStores(cfg, s, s')
    ensures Guarded(cfg, s')
  {
    ActedKeepsGuard(cfg.chunkBase, s.chunks, s'.chunks);
    ActedKeepsGuard(cfg.finfoBase, s.finfos, s'.finfos);
    ChunksDoNotClash(cfg, s');
    FInfosDoNotClash(cfg, s');
  }

  lemma StepKeepsGuarded(cfg: Config, s: State, f: nat, s': State)
    requires Harmless(cfg) && Guarded(cfg, s) && FileStep(cfg, s, f, s')
    ensures Guarded(cfg, s')
  {
    StepKeepsFiles(cfg, s, f, s');
    StepActsOnStores(cfg, s, f, s');
    ActedKeepsGuarded(cfg, s, s');
  }

  lemma InitIsGuarded(cfg: Config)
    ensures Guarded(cfg, Init(cfg))
  {
    InitFiles(cfg);
    FreshGuard(cfg.chunkBase);
    FreshGuard(cfg.finfoBase);
  }

  lemma RunIsGuarded(cfg: Config, run: seq<State>, k: nat)
    requires Harmless(cfg) && CreateRuns.Run(cfg, run) && k < |run|
    ensures Guarded(cfg, run[k])
  {
    InitIsGuarded(cfg);
    forall s, s' | Guarded(cfg, s) && CreateRuns.Step(cfg, s, s') ensures Guarded(cfg, s') {
      var f :| FileStep(cfg, s, f, s');
      StepKeepsGuarded(cfg, s, f, s');
    }
    EveryState(cfg, (s: State) => Guarded(cfg, s), run, k);
  }

  /** Unless a base block is to be kept and rewritten at once, no write ever aims at an inode that existed before the
      run, and all of them keep their bytes: with any base archive, in every interleaving, up to and after exceptions. */
  lemma BaseOutOfReach(cfg: Config, run: seq<State>, k: nat)
    requires Harmless(cfg) && CreateRuns.Run(cfg, run) && k < |run|
    ensures !Threatened(cfg.chunkBase, run[k].chunks) && !Threatened(cfg.finfoBase, run[k].finfos)
    ensures BaseKept(cfg.chunkBase, run[k].chunks) && BaseKept(cfg.finfoBase, run[k].finfos)
  {
    RunIsGuarded(cfg, run, k);
    Unthreatened(cfg.chunkBase, run[k].chunks);
    Unthreatened(cfg.finfoBase, run[k].finfos);
  }
}
