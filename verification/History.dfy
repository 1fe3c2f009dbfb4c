/** Chains of archives: each create run takes some finished archive as its base, adds one, and leaves all others as they
    were, well-formed or not (Archive.cpp, Create.cpp). */
module Histories {
  import opened Common
  import opened BlockStores
  import opened BaseSafeties
  import opened CreateRuns
  import opened ReadBacks
  import opened Snapshots

  /** A repository: the inodes under both kinds of block directories, and the finished archives. The lossy ones list a
      file that cannot be read, or came about in a way that promises nothing about them. */
  datatype Repo = Repo(chunkDisk: map<int, string>, finfoDisk: map<int, string>, archives: seq<Snapshot>, lossy: seq<Snapshot>)

  ghost predicate RepoOK(codec: Codec, r: Repo) {
    && (forall k: nat :: k < |r.archives| ==> SnapshotOK(codec, r.archives[k], r.chunkDisk, r.finfoDisk))
    && (forall sn :: sn in r.lossy ==> Inodes(sn.chunkDir, r.chunkDisk) && Inodes(sn.finfoDir, r.finfoDisk))
  }

  /** Any finished archive may be the base; the program takes the newest one unless told otherwise. */
  predicate Available(r: Repo, base: Snapshot) { base == NO_BASE || base in r.archives || base in r.lossy }

  /** The files draw their base entries from a well-formed archive. */
  ghost predicate Sourced(r: Repo, cfg: Config, base: Snapshot) {
    (base == NO_BASE || base in r.archives) && exists pick :: BasedOn(cfg, base, r.chunkDisk, r.finfoDisk, pick)
  }

  /** A create run on one of the archives: a well-formed one, or any at all if no base block is to be both kept and
      rewritten. */
  ghost predicate Starts(codec: Codec, r: Repo, cfg: Config, base: Snapshot, run: seq<State>) {
    && cfg.codec == codec && Available(r, base)
    && cfg.chunkBase.dir == base.chunkDir && cfg.chunkBase.disk == r.chunkDisk
    && cfg.finfoBase.dir == base.finfoDir && cfg.finfoBase.disk == r.finfoDisk
    && (Sourced(r, cfg, base) || Harmless(cfg))
    && CreateRuns.Run(cfg, run)
  }

  /** The command is cut short at any point, by an exception or from outside: what it leaves counts as no archive. */
  ghost predicate CutShort(r: Repo, run: seq<State>, r': Repo)
    requires run != []
  {
    var s := run[|run| - 1];
    r' == Repo(s.chunks.disk, s.finfos.disk, r.archives, r.lossy)
  }

  /** Every file is listed, whatever can be read of it. */
  ghost predicate EndedSomehow(r: Repo, cfg: Config, run: seq<State>, zeros: nat, r': Repo)
    requires run != []
  {
    var s := run[|run| - 1];
    Ended(cfg, s) && r' == Repo(s.chunks.disk, s.finfos.disk, r.archives, r.lossy + [NewSnapshot(cfg, s, zeros)])
  }

  /** Every file is listed and none lost, on a well-formed base or one of which all that matters can be read. */
  ghost predicate EndedWell(r: Repo, cfg: Config, base: Snapshot, run: seq<State>, zeros: nat, r': Repo)
    requires run != []
  {
    var s := run[|run| - 1];
    && Finished(cfg, s) && Fits(s) && (Sourced(r, cfg, base) || Hypotheses(cfg))
    && r' == Repo(s.chunks.disk, s.finfos.disk, r.archives + [NewSnapshot(cfg, s, zeros)], r.lossy)
  }

  ghost predicate Ends(r: Repo, cfg: Config, base: Snapshot, run: seq<State>, zeros: nat, r': Repo)
    requires run != []
  {
    CutShort(r, run, r') || EndedSomehow(r, cfg, run, zeros, r') || EndedWell(r, cfg, base, run, zeros, r')
  }

  ghost predicate CreateStep(codec: Codec, r: Repo, r': Repo) {
    exists cfg, run, base, zeros :: Starts(codec, r, cfg, base, run) && Ends(r, cfg, base, run, zeros, r')
  }

  lemma BaseIsOK(codec: Codec, r: Repo, base: Snapshot)
    requires RepoOK(codec, r) && (base == NO_BASE || base in r.archives)
    ensures SnapshotOK(codec, base, r.chunkDisk, r.finfoDisk)
  {
    if base in r.archives {
      var k: nat :| k < |r.archives| && r.archives[k] == base;
    }
  }

  lemma BaseInodes(codec: Codec, r: Repo, base: Snapshot)
    requires RepoOK(codec, r) && Available(r, base)
    ensures Inodes(base.chunkDir, r.chunkDisk) && Inodes(base.finfoDir, r.finfoDisk)
  {
    if base !in r.lossy { BaseIsOK(codec, r, base); }
  }

  lemma SetupHarmless(cfg: Config)
    requires Setup(cfg)
    ensures Harmless(cfg)
  {
    forall f: nat, c: nat, g: nat, d: nat | BasePlace(cfg, f, c) && BasePlace(cfg, g, d) && BaseChunks(cfg.files[f])[c].idx == BaseChunks(cfg.files[g])[d].idx
      ensures f == g && c == d
    {
      SetupPlace(cfg, f, c);
      SetupPlace(cfg, g, d);
      assert Claim(f, c) == Claim(g, d);
    }
    ListedOnceIsUnmixed(cfg);
    forall f: nat, g: nat | f < |cfg.files| && g < |cfg.files| && f != g ensures SameList(cfg.files[f], cfg.files[g]) {
      assert cfg.finfoBase.claims[Claim(f, 0)] == FInfoClaim(cfg.files[f]);
      assert cfg.finfoBase.claims[Claim(g, 0)] == FInfoClaim(cfg.files[g]);
    }
  }

  lemma SetupPlace(cfg: Config, f: nat, c: nat)
    requires ClaimsMatch(cfg) && BasePlace(cfg, f, c)
    ensures Claim(f, c) in cfg.chunkBase.claims && cfg.chunkBase.claims[Claim(f, c)] == Some(BaseChunks(cfg.files[f])[c].idx)
  {
    assert Place(cfg, f, c);
    assert cfg.chunkBase.claims[Claim(f, c)] == ChunkClaim(cfg.files[f], c);
  }

  lemma SourcedHypotheses(codec: Codec, r: Repo, cfg: Config, base: Snapshot)
    requires CodecOK(codec) && cfg.codec == codec && RepoOK(codec, r) && Sourced(r, cfg, base)
    ensures Hypotheses(cfg)
  {
    var pick :| BasedOn(cfg, base, r.chunkDisk, r.finfoDisk, pick);
    BaseIsOK(codec, r, base);
    BaseGivesHypotheses(cfg, base, r.chunkDisk, r.finfoDisk, pick);
  }

  lemma StartsHarmless(codec: Codec, r: Repo, cfg: Config, base: Snapshot, run: seq<State>)
    requires CodecOK(codec) && RepoOK(codec, r) && Starts(codec, r, cfg, base, run)
    ensures Harmless(cfg)
  {
    if Sourced(r, cfg, base) {
      SourcedHypotheses(codec, r, cfg, base);
      SetupHarmless(cfg);
    }
  }

  /** Every name of either directory leads to an inode. */
  ghost predicate HasInodes(b: Base, s: Store) { Inodes(s.dir, s.disk) && b.disk.Keys <= s.disk.Keys }

  lemma ActedKeepsInodes(b: Base, s: Store, s': Store)
    requires Inodes(b.dir, b.disk) && HasInodes(b, s) && (s' == s || SomeAction(b, s, s'))
    ensures HasInodes(b, s')
  {
  }

  lemma RunHasInodes(cfg: Config, run: seq<State>, k: nat)
    requires Inodes(cfg.chunkBase.dir, cfg.chunkBase.disk) && Inodes(cfg.finfoBase.dir, cfg.finfoBase.disk)
    requires CreateRuns.Run(cfg, run) && k < |run|
    ensures HasInodes(cfg.chunkBase, run[k].chunks) && HasInodes(cfg.finfoBase, run[k].finfos)
  {
    var p := (s: State) => HasInodes(cfg.chunkBase, s.chunks) && HasInodes(cfg.finfoBase, s.finfos);
    forall s, s' | p(s) && CreateRuns.Step(cfg, s, s') ensures p(s') {
      SomeStepActs(cfg, s, s');
      ActedKeepsInodes(cfg.chunkBase, s.chunks, s'.chunks);
      ActedKeepsInodes(cfg.finfoBase, s.finfos, s'.finfos);
    }
    EveryState(cfg, p, run, k);
  }

  /** Neither kind of inode was touched, whatever the base, the outcome and the moment. */
  lemma AttemptGrowsDisks(codec: Codec, r: Repo, cfg: Config, base: Snapshot, run: seq<State>)
    requires CodecOK(codec) && RepoOK(codec, r) && Starts(codec, r, cfg, base, run)
    ensures var s := run[|run| - 1]; Grows(r.chunkDisk, s.chunks.disk) && Grows(r.finfoDisk, s.finfos.disk)
  {
    StartsHarmless(codec, r, cfg, base, run);
    BaseOutOfReach(cfg, run, |run| - 1);
  }

  /** Whatever becomes of its own archive, and at every moment, a create command leaves all others as they were. */
  lemma AttemptKeepsRepo(codec: Codec, r: Repo, cfg: Config, base: Snapshot, run: seq<State>, r': Repo)
    requires CodecOK(codec) && RepoOK(codec, r) && Starts(codec, r, cfg, base, run) && CutShort(r, run, r')
    ensures RepoOK(codec, r')
  {
    AttemptGrowsDisks(codec, r, cfg, base, run);
    forall k: nat | k < |r'.archives| ensures SnapshotOK(codec, r'.archives[k], r'.chunkDisk, r'.finfoDisk) {
      SnapshotSurvives(codec, r.archives[k], r.chunkDisk, r.finfoDisk, r'.chunkDisk, r'.finfoDisk);
    }
    forall sn | sn in r.lossy ensures Inodes(sn.chunkDir, r'.chunkDisk) && Inodes(sn.finfoDir, r'.finfoDisk) {
      InodesStay(sn.chunkDir, r.chunkDisk, r'.chunkDisk);
      InodesStay(sn.finfoDir, r.finfoDisk, r'.finfoDisk);
    }
  }

  lemma LossyKeepsRepo(codec: Codec, r: Repo, cfg: Config, base: Snapshot, run: seq<State>, zeros: nat, r': Repo)
    requires CodecOK(codec) && RepoOK(codec, r) && Starts(codec, r, cfg, base, run)
    requires EndedSomehow(r, cfg, run, zeros, r')
    ensures RepoOK(codec, r')
  {
    AttemptKeepsRepo(codec, r, cfg, base, run, Repo(r'.chunkDisk, r'.finfoDisk, r.archives, r.lossy));
    BaseInodes(codec, r, base);
    RunHasInodes(cfg, run, |run| - 1);
  }

  lemma CreateKeepsRepo(codec: Codec, r: Repo, cfg: Config, base: Snapshot, run: seq<State>, zeros: nat, r': Repo)
    requires CodecOK(codec) && RepoOK(codec, r) && Starts(codec, r, cfg, base, run)
    requires EndedWell(r, cfg, base, run, zeros, r')
    ensures RepoOK(codec, r')
  {
    AttemptKeepsRepo(codec, r, cfg, base, run, Repo(r'.chunkDisk, r'.finfoDisk, r.archives, r.lossy));
    if Sourced(r, cfg, base) { SourcedHypotheses(codec, r, cfg, base); }
    NewSnapshotOK(cfg, run, zeros);
  }

  ghost predicate CreateStepAt(codec: Codec, h: seq<Repo>, k: int) { 0 < k < |h| && CreateStep(codec, h[k - 1], h[k]) }

  ghost predicate History(codec: Codec, h: seq<Repo>) {
    h != [] && h[0] == Repo(map[], map[], [], []) && forall k :: 0 < k < |h| ==> CreateStepAt(codec, h, k)
  }

  lemma StepKeepsRepo(codec: Codec, r: Repo, r': Repo)
    requires CodecOK(codec) && RepoOK(codec, r) && CreateStep(codec, r, r')
    ensures RepoOK(codec, r')
    ensures Grows(r.chunkDisk, r'.chunkDisk) && Grows(r.finfoDisk, r'.finfoDisk) && r.archives <= r'.archives && r.lossy <= r'.lossy
  {
    var cfg, run, base, zeros :| Starts(codec, r, cfg, base, run) && Ends(r, cfg, base, run, zeros, r');
    AttemptGrowsDisks(codec, r, cfg, base, run);
    if CutShort(r, run, r') {
      AttemptKeepsRepo(codec, r, cfg, base, run, r');
    } else if EndedSomehow(r, cfg, run, zeros, r') {
      LossyKeepsRepo(codec, r, cfg, base, run, zeros, r');
    } else {
      CreateKeepsRepo(codec, r, cfg, base, run, zeros, r');
    }
  }

  lemma {:induction false} HistoryKeepsRepo(codec: Codec, h: seq<Repo>, k: nat)
    requires CodecOK(codec) && History(codec, h) && k < |h|
    ensures RepoOK(codec, h[k])
  {
    if k > 0 {
      HistoryKeepsRepo(codec, h, k - 1);
      assert CreateStepAt(codec, h, k);
      StepKeepsRepo(codec, h[k - 1], h[k]);
    }
  }

  /** Over any history of create commands, finished, lossy, failed or cut short, with any finished archive as base:
      every well-formed archive stays well-formed and readable, and tests clean. */
  lemma EveryArchiveSurvives(codec: Codec, h: seq<Repo>, k: nat)
    requires CodecOK(codec) && History(codec, h) && k < |h|
    ensures RepoOK(codec, h[k])
    ensures forall a :: 0 <= a < |h[k].archives| ==>
              var sn := h[k].archives[a];
              TestsClean(codec, sn.chunkDir, h[k].chunkDisk, sn.finfoDir, h[k].finfoDisk, Entries(sn))
  {
    HistoryKeepsRepo(codec, h, k);
    forall a: nat | a < |h[k].archives|
      ensures var sn := h[k].archives[a];
              TestsClean(codec, sn.chunkDir, h[k].chunkDisk, sn.finfoDir, h[k].finfoDisk, Entries(sn))
    {
      OKTestsClean(codec, h[k].archives[a], h[k].chunkDisk, h[k].finfoDisk);
    }
  }

  function ReadIn(codec: Codec, sn: Snapshot, r: Repo, flag: char, idx: int): Option<string> {
    ReadFile(codec, sn.chunkDir, r.chunkDisk, sn.finfoDir, r.finfoDisk, flag, idx)
  }

  lemma StaysReadable(codec: Codec, sn: Snapshot, r: Repo, r': Repo, flag: char, idx: int)
    requires Inodes(sn.chunkDir, r.chunkDisk) && Inodes(sn.finfoDir, r.finfoDisk)
    requires Grows(r.chunkDisk, r'.chunkDisk) && Grows(r.finfoDisk, r'.finfoDisk)
    ensures ReadIn(codec, sn, r', flag, idx) == ReadIn(codec, sn, r, flag, idx)
  {
    BlockStays(sn.finfoDir, r.finfoDisk, r'.finfoDisk, idx);
    var chunks := ReadFInfo(codec, sn.finfoDir, r.finfoDisk, flag, idx);
    if chunks.Some? {
      forall c | c in chunks.value
        ensures ReadChunk(codec, sn.chunkDir, r'.chunkDisk, c) == ReadChunk(codec, sn.chunkDir, r.chunkDisk, c)
      {
        BlockStays(sn.chunkDir, r.chunkDisk, r'.chunkDisk, c.idx);
      }
      ReadAllSame(codec, sn.chunkDir, r.chunkDisk, sn.chunkDir, r'.chunkDisk, chunks.value);
    }
  }

  /** What any archive, lossy ones included, once gave for a list entry, it gives ever after: the bytes or the failure. */
  lemma {:induction false} EntriesNeverChange(codec: Codec, h: seq<Repo>, j: nat, k: nat, sn: Snapshot, flag: char, idx: int)
    requires CodecOK(codec) && History(codec, h) && j <= k < |h| && (sn in h[j].archives || sn in h[j].lossy)
    ensures (sn in h[k].archives || sn in h[k].lossy) && ReadIn(codec, sn, h[k], flag, idx) == ReadIn(codec, sn, h[j], flag, idx)
    decreases k - j
  {
    if j < k {
      EntriesNeverChange(codec, h, j, k - 1, sn, flag, idx);
      HistoryKeepsRepo(codec, h, k - 1);
      assert CreateStepAt(codec, h, k);
      StepKeepsEntry(codec, h[k - 1], h[k], sn, flag, idx);
    }
  }

  lemma StepKeepsEntry(codec: Codec, r: Repo, r': Repo, sn: Snapshot, flag: char, idx: int)
    requires CodecOK(codec) && RepoOK(codec, r) && CreateStep(codec, r, r') && (sn in r.archives || sn in r.lossy)
    ensures (sn in r'.archives || sn in r'.lossy) && ReadIn(codec, sn, r', flag, idx) == ReadIn(codec, sn, r, flag, idx)
  {
    StepKeepsRepo(codec, r, r');
    BaseInodes(codec, r, sn);
    StaysReadable(codec, sn, r, r', flag, idx);
  }

  /** Nothing is listed twice in the archive, so nothing can be both kept and rewritten. */
  lemma DistinctHarmless(cfg: Config, sn: Snapshot, chunkDisk: map<int, string>, finfoDisk: map<int, string>, pick: seq<Option<nat>>)
    requires Draws(cfg, sn, chunkDisk, finfoDisk, pick) && Distinct(sn)
    requires forall a: nat, i: nat :: HasChunk(sn, a, i) ==> HasFInfo(sn, a)
    ensures Harmless(cfg)
  {
    forall f: nat | f < |cfg.files| ensures DrawsOne(cfg.files[f], sn, pick[f]) {}
    forall f: nat, c: nat, g: nat, d: nat | BasePlace(cfg, f, c) && BasePlace(cfg, g, d) && BaseChunks(cfg.files[f])[c].idx == BaseChunks(cfg.files[g])[d].idx
      ensures f == g && c == d
    {
      var a, b := pick[f].value, pick[g].value;
      assert HasChunk(sn, a, c) && HasChunk(sn, b, d) && ChunkAt(sn, a, c) == ChunkAt(sn, b, d);
      assert HasFInfo(sn, a);
    }
    ListedOnceIsUnmixed(cfg);
  }

  /** A lossy archive is a harmless base as long as the run that made it had a sound one: the damage of a truncated file
      takes one more generation. */
  lemma NextRunIsHarmless(cfg: Config, run: seq<State>, zeros: nat, next: Config, pick: seq<Option<nat>>)
    requires Hypotheses(cfg) && CreateRuns.Run(cfg, run) && Ended(cfg, run[|run| - 1])
    requires var s := run[|run| - 1]; Draws(next, NewSnapshot(cfg, s, zeros), s.chunks.disk, s.finfos.disk, pick)
    ensures Harmless(next)
  {
    var s := run[|run| - 1];
    CreateRuns.RunKeepsInv(cfg, run, |run| - 1);
    NewDistinct(cfg, s, zeros);
    forall a: nat, i: nat | HasChunk(NewSnapshot(cfg, s, zeros), a, i) ensures HasFInfo(NewSnapshot(cfg, s, zeros), a) {
      NewMember(cfg, s, zeros, a);
      FInfoIsHeld(cfg, s, a);
    }
    DistinctHarmless(next, NewSnapshot(cfg, s, zeros), s.chunks.disk, s.finfos.disk, pick);
  }
}
