/** What a base archive with a truncated file leads to: a run on it can lose a file that is neither truncated nor under a
    stale flag, or list one block for two files; and the run after that can write into an archive that read back. */
module LossyBases {
  import opened Common
  import opened FInfos
  import opened BlockStores
  import opened CreateRuns
  import opened ReadBacks
  import opened Snapshots
  import opened CreateSteps
  import opened BaseSafeties
  import opened BaseThreats
  import opened CreateWitnesses

  /** `next` runs on the archive that `s` ended with: same directories and inodes, and each base entry is one that the
      list of that archive holds, with the chunks its FInfo block gives. */
  ghost predicate Follows(next: Config, cfg: Config, s: State) {
    && ClaimsMatch(next) && next.codec == cfg.codec && Ended(cfg, s)
    && next.chunkBase.dir == s.chunks.dir && next.chunkBase.disk == s.chunks.disk
    && next.finfoBase.dir == s.finfos.dir && next.finfoBase.disk == s.finfos.disk
    && (forall f :: 0 <= f < |next.files| ==> next.files[f].base.Some? ==> FindsEntry(next.files[f].base.value, cfg, s))
  }

  ghost predicate FindsEntry(b: BaseFile, cfg: Config, s: State) {
    && (exists f :: 0 <= f < |s.job| && s.job[f].Listed? && s.job[f].flag == b.flag && s.job[f].idx == b.idx)
    && ReadFInfo(cfg.codec, s.finfos.dir, s.finfos.disk, b.flag, b.idx) == Some(b.chunks)
  }

  /** The file had the chunks `x` and `y` and was cut off after `x`; the archive that lists it holds only block 0. */
  ghost predicate CutArchive(codec: Codec, x: string, y: string, cfg: Config, s: State) {
    && cfg.codec == codec && Ended(cfg, s) && |s.job| == 1
    && s.job[0] == Listed(s.job[0].text, true, UNCOMPRESSED, 0)
    && s.chunks.dir == map[0 := 10] && 10 in s.chunks.disk && s.chunks.disk[10] == x
    && s.finfos.dir == map[0 := 20] && 20 in s.finfos.disk && s.finfos.disk[20] == FInfoText(Two(codec, x, y))
  }

  /** A truncating run leaves such an archive. */
  lemma CutRun(codec: Codec, x: string, y: string) returns (cfg: Config, run: seq<State>)
    requires CodecOK(codec) && x != ""
    ensures Hypotheses(cfg) && |cfg.files| == 1 && Truncated(cfg, 0)
    ensures CreateRuns.Run(cfg, run) && CutArchive(codec, x, y, cfg, Last(run))
  {
    cfg, run := TruncatedFileIsLost(codec, x, y);
    OneFileIsCut(cfg, x, y);
    CutEnd(cfg, run, x, y);
  }

  /** What matters here of the run that truncates. */
  ghost predicate CutConfig(cfg: Config, x: string, y: string) {
    && |cfg.files| == 1 && cfg.files[0] == FileSpec([x], Some(BaseFile(0, UNCOMPRESSED, Two(cfg.codec, x, y))), false)
    && cfg.chunkBase.claims.Keys == {Claim(0, 0), Claim(0, 1)} && cfg.finfoBase.claims == map[Claim(0, 0) := Some(0)]
    && 0 in cfg.chunkBase.dir && cfg.chunkBase.dir[0] == 10 && 10 in cfg.chunkBase.disk && cfg.chunkBase.disk[10] == x
    && 0 in cfg.finfoBase.dir && cfg.finfoBase.dir[0] == 20 && 20 in cfg.finfoBase.disk
    && cfg.finfoBase.disk[20] == FInfoText(Two(cfg.codec, x, y))
  }

  lemma OneFileIsCut(cfg: Config, x: string, y: string)
    requires cfg == OneFile(cfg.codec, false, x, y, x, UNCOMPRESSED, FInfoText(Two(cfg.codec, x, y)))
    ensures CutConfig(cfg, x, y)
  {
  }

  lemma CutEnd(cfg: Config, run: seq<State>, x: string, y: string)
    requires Setup(cfg) && CutConfig(cfg, x, y) && CreateRuns.Run(cfg, run) && LosesItsFile(cfg, Last(run))
    ensures CutArchive(cfg.codec, x, y, cfg, Last(run))
  {
    CreateRuns.RunKeepsInv(cfg, run, |run| - 1);
    CutState(cfg, Last(run), x, y);
  }

  lemma CutState(cfg: Config, s: State, x: string, y: string)
    requires CutConfig(cfg, x, y) && RunInv(cfg, s) && s.job[0].Listed?
    ensures CutArchive(cfg.codec, x, y, cfg, s)
  {
    CutChunks(cfg, s, x, y);
    CutFInfo(cfg, s, x, y);
  }

  lemma CutPhases(cfg: Config, s: State, x: string, y: string)
    requires RunInv(cfg, s) && CutConfig(cfg, x, y)
    requires s.job[0].Listed?
    ensures s.job[0].keep && s.job[0].flag == UNCOMPRESSED && s.job[0].idx == 0
    ensures PhaseOf(s.chunks, 0, 0) == Linked(0) && PhaseOf(s.chunks, 0, 1) == Waiting && PhaseOf(s.finfos, 0, 0) == Linked(0)
  {
    assert SameHash(cfg, 0, 0);
    KeepExactly(cfg, s, 0);
    assert FileInv(cfg, s, 0);
    assert ChunkInv(cfg, s, 0, 0);
    assert PhaseInv(cfg.finfoBase, s.finfos, Claim(0, 0));
    assert Claim(0, 0) in s.posted;
  }

  lemma CutChunks(cfg: Config, s: State, x: string, y: string)
    requires RunInv(cfg, s) && CutConfig(cfg, x, y)
    requires s.job[0].Listed?
    ensures s.chunks.dir == map[0 := 10] && 10 in s.chunks.disk && s.chunks.disk[10] == x
  {
    CutPhases(cfg, s, x, y);
    assert PhaseInv(cfg.chunkBase, s.chunks, Claim(0, 0));
    forall i | i in s.chunks.dir ensures i == 0 {
      var c :| c in s.chunks.phase && Fills(s.chunks.phase[c], i);
    }
  }

  lemma CutFInfo(cfg: Config, s: State, x: string, y: string)
    requires RunInv(cfg, s) && CutConfig(cfg, x, y)
    requires s.job[0].Listed?
    ensures s.finfos.dir == map[0 := 20] && 20 in s.finfos.disk && s.finfos.disk[20] == FInfoText(Two(cfg.codec, x, y))
    ensures s.job[0] == Listed(s.job[0].text, true, UNCOMPRESSED, 0)
  {
    CutPhases(cfg, s, x, y);
    assert PhaseInv(cfg.finfoBase, s.finfos, Claim(0, 0));
    forall i | i in s.finfos.dir ensures i == 0 {
      var c :| c in s.finfos.phase && Fills(s.finfos.phase[c], i);
    }
  }

  /** Now it has the chunks `x` and `z`, and there is a new file with the chunk `g`. */
  ghost predicate Grown(cfg: Config, x: string, y: string, z: string, g: string) {
    && ClaimsMatch(cfg) && !cfg.compress && |cfg.files| == 2
    && cfg.files[0] == FileSpec([x, z], Some(BaseFile(0, UNCOMPRESSED, Two(cfg.codec, x, y))), false)
    && cfg.files[1] == FileSpec([g], None, false)
    && cfg.chunkBase.dir == map[0 := 10] && cfg.finfoBase.dir == map[0 := 20]
    && 10 in cfg.chunkBase.disk && cfg.chunkBase.disk[10] == x
  }

  /** The chunk claims of the third run. */
  ghost predicate ThirdClaims(b: Base) {
    && b.dir == map[0 := 10]
    && Claim(0, 0) in b.claims && b.claims[Claim(0, 0)] == Some(0)
    && Claim(0, 1) in b.claims && b.claims[Claim(0, 1)] == Some(1)
    && Claim(1, 0) in b.claims && b.claims[Claim(1, 0)] == None
  }

  lemma GrownClaims(cfg: Config, x: string, y: string, z: string, g: string)
    requires Grown(cfg, x, y, z, g)
    ensures ThirdClaims(cfg.chunkBase)
  {
    assert Place(cfg, 0, 0) && Place(cfg, 0, 1) && Place(cfg, 1, 0);
  }

  /** The stores of the third run: the new file takes index 1; the old one links 0, frees 1, takes it and writes over it. */
  function Third(b: Base, n: int, g: string, z: string, k: nat): Store {
    var s := Fresh(b);
    var c, d, e := Claim(0, 0), Claim(0, 1), Claim(1, 0);
    if k == 0 then s
    else if k == 1 then s.(alloc := {0, 1}, phase := s.phase[e := Owned(1)])
    else if k == 2 then s.(alloc := {0, 1}, dir := map[1 := n], disk := b.disk[n := g], phase := s.phase[e := Written(1, g)])
    else if k == 3 then
      s.(alloc := {0, 1}, dir := map[1 := n, 0 := 10], disk := b.disk[n := g], phase := s.phase[e := Written(1, g)][c := Linked(0)])
    else if k == 4 then
      s.(alloc := {0}, dir := map[1 := n, 0 := 10], disk := b.disk[n := g],
         phase := s.phase[e := Written(1, g)][c := Linked(0)][d := Freed])
    else if k == 5 then
      s.(alloc := {0, 1}, dir := map[1 := n, 0 := 10], disk := b.disk[n := g],
         phase := s.phase[e := Written(1, g)][c := Linked(0)][d := Owned(1)])
    else
      s.(alloc := {0, 1}, dir := map[1 := n, 0 := 10], disk := b.disk[n := z],
         phase := s.phase[e := Written(1, g)][c := Linked(0)][d := Written(1, z)])
  }

  lemma NewFileWrites(b: Base, n: int, g: string, z: string)
    requires ThirdClaims(b) && n !in b.disk
    ensures Action(b, Third(b, n, g, z, 0), Claim(1, 0), false, g, Third(b, n, g, z, 1))
    ensures Action(b, Third(b, n, g, z, 1), Claim(1, 0), false, g, Third(b, n, g, z, 2))
  {
    assert Fresh(b).alloc == {0} && {0} + {1} == {0, 1};
    assert Lowest({0}, 1);
    assert AllocStep(b, Third(b, n, g, z, 0), Claim(1, 0), Third(b, n, g, z, 1));
    assert SpitStep(b, Third(b, n, g, z, 1), Claim(1, 0), g, Third(b, n, g, z, 2));
  }

  lemma OldFileLinks(b: Base, n: int, g: string, z: string, x: string)
    requires ThirdClaims(b) && n !in b.disk
    ensures Action(b, Third(b, n, g, z, 2), Claim(0, 0), true, x, Third(b, n, g, z, 3))
  {
    assert LinkStep(b, Third(b, n, g, z, 2), Claim(0, 0), Third(b, n, g, z, 3));
  }

  lemma OldFileFrees(b: Base, n: int, g: string, z: string)
    requires ThirdClaims(b) && n !in b.disk
    ensures Action(b, Third(b, n, g, z, 3), Claim(0, 1), false, z, Third(b, n, g, z, 4))
  {
    assert {0, 1} - {1} == {0};
    assert FreeStep(b, Third(b, n, g, z, 3), Claim(0, 1), Third(b, n, g, z, 4));
  }

  lemma OldFileTakes(b: Base, n: int, g: string, z: string)
    requires ThirdClaims(b) && n !in b.disk
    ensures Action(b, Third(b, n, g, z, 4), Claim(0, 1), false, z, Third(b, n, g, z, 5))
  {
    assert {0} + {1} == {0, 1};
    assert Lowest({0}, 1);
    assert AllocStep(b, Third(b, n, g, z, 4), Claim(0, 1), Third(b, n, g, z, 5));
  }

  lemma OldFileOverwrites(b: Base, n: int, g: string, z: string)
    requires ThirdClaims(b) && n !in b.disk
    ensures Action(b, Third(b, n, g, z, 5), Claim(0, 1), false, z, Third(b, n, g, z, 6))
  {
    assert SpitStep(b, Third(b, n, g, z, 5), Claim(0, 1), z, Third(b, n, g, z, 6));
  }

  lemma GrownDecisions(cfg: Config, x: string, y: string, z: string, g: string)
    requires Grown(cfg, x, y, z, g) && cfg.codec.hash(z) != cfg.codec.hash(y)
    ensures SameHash(cfg, 0, 0) && !SameHash(cfg, 0, 1) && !SameHash(cfg, 1, 0)
    ensures forall data :: Packed(cfg, data) == (UNCOMPRESSED, data)
  {
  }

  lemma BothRead(cfg: Config, x: string, y: string, z: string, g: string) returns (run: seq<State>)
    requires Grown(cfg, x, y, z, g)
    ensures Runs(cfg, run) && Last(run) == Init(cfg).(job := [Reading(2, 0, "", true), Reading(1, 0, "", true)])
  {
    InitRuns(cfg);
    run := Begun(cfg, [Init(cfg)], 0);
    run := LaunchedTo(cfg, run, 0, 0, 2);
    run := Begun(cfg, run, 1);
    run := LaunchedTo(cfg, run, 1, 0, 1);
    assert |Last(run).job| == 2;
  }

  /** The chunk jobs of the third run are over. */
  lemma ThirdChunks(cfg: Config, x: string, y: string, z: string, g: string, n: int) returns (run: seq<State>)
    requires Grown(cfg, x, y, z, g) && cfg.codec.hash(z) != cfg.codec.hash(y) && n !in cfg.chunkBase.disk
    ensures Runs(cfg, run) && Last(run).chunks == Third(cfg.chunkBase, n, g, z, 6)
    ensures Last(run).finfos == Fresh(cfg.finfoBase) && Last(run).job == [Reading(2, 0, "", true), Reading(1, 0, "", true)]
  {
    GrownClaims(cfg, x, y, z, g);
    GrownDecisions(cfg, x, y, z, g);
    run := BothRead(cfg, x, y, z, g);
    var b := cfg.chunkBase;
    NewFileWrites(b, n, g, z);
    run := ActedOn(cfg, run, 1, 0, Third(b, n, g, z, 1));
    run := ActedOn(cfg, run, 1, 0, Third(b, n, g, z, 2));
    OldFileLinks(b, n, g, z, x);
    run := ActedOn(cfg, run, 0, 0, Third(b, n, g, z, 3));
    OldFileFrees(b, n, g, z);
    run := ActedOn(cfg, run, 0, 1, Third(b, n, g, z, 4));
    OldFileTakes(b, n, g, z);
    run := ActedOn(cfg, run, 0, 1, Third(b, n, g, z, 5));
    OldFileOverwrites(b, n, g, z);
    run := ActedOn(cfg, run, 0, 1, Third(b, n, g, z, 6));
  }

  /** The old file's second chunk went to the block of the new file's only one. */
  ghost predicate OneBlockForTwo(b: Base, s: Store, n: int, g: string, z: string) {
    && PhaseOf(s, 0, 0) == Linked(0) && PhaseOf(s, 0, 1) == Written(1, z) && PhaseOf(s, 1, 0) == Written(1, g)
    && s.dir == map[1 := n, 0 := 10] && n !in b.disk && s.disk == b.disk[n := z] && s.alloc == {0, 1}
  }

  lemma ThirdStore(b: Base, n: int, g: string, z: string)
    requires ThirdClaims(b) && n !in b.disk
    ensures OneBlockForTwo(b, Third(b, n, g, z, 6), n, g, z)
  {
  }

  /** What the third archive lists. */
  function ThirdList(codec: Codec, x: string, z: string, g: string, f: nat): seq<Chunk> {
    if f == 0 then [Chunk(UNCOMPRESSED, 0, codec.hash(x)), Chunk(UNCOMPRESSED, 1, codec.hash(z))]
    else [Chunk(UNCOMPRESSED, 1, codec.hash(g))]
  }

  lemma ThirdOutcomes(cfg: Config, x: string, y: string, z: string, g: string, n: int, s: Store)
    requires Grown(cfg, x, y, z, g) && OneBlockForTwo(cfg.chunkBase, s, n, g, z)
    ensures Outcomes(cfg, s, 0, 2) == ThirdList(cfg.codec, x, z, g, 0)
    ensures Outcomes(cfg, s, 1, 1) == ThirdList(cfg.codec, x, z, g, 1)
  {
    assert Outcome(cfg, s, 0, 0) == Chunk(UNCOMPRESSED, 0, cfg.codec.hash(x));
    assert Outcome(cfg, s, 0, 1) == Chunk(UNCOMPRESSED, 1, cfg.codec.hash(z));
    assert Outcome(cfg, s, 1, 0) == Chunk(UNCOMPRESSED, 1, cfg.codec.hash(g));
    assert Outcomes(cfg, s, 0, 1) == [] + [Outcome(cfg, s, 0, 0)];
    assert Outcomes(cfg, s, 1, 0) == [];
  }

  ghost predicate ThirdEnd(cfg: Config, x: string, z: string, g: string, n: int, s: State) {
    && Ended(cfg, s) && |s.job| == 2 && OneBlockForTwo(cfg.chunkBase, s.chunks, n, g, z)
    && ListsThird(cfg, x, z, g, s, 0) && ListsThird(cfg, x, z, g, s, 1)
  }

  /** File `f` is listed with a plain FInfo of its own. */
  ghost predicate ListsThird(cfg: Config, x: string, z: string, g: string, s: State, f: nat)
    requires f < |s.job|
  {
    && s.job[f].Listed? && s.job[f].flag == UNCOMPRESSED && s.job[f].idx >= 0
    && ReadFInfo(cfg.codec, s.finfos.dir, s.finfos.disk, UNCOMPRESSED, s.job[f].idx) == Some(ThirdList(cfg.codec, x, z, g, f))
  }

  lemma ThirdPhases(cfg: Config, x: string, y: string, z: string, g: string, n: int, s: State)
    requires Grown(cfg, x, y, z, g) && OneBlockForTwo(cfg.chunkBase, s.chunks, n, g, z)
    ensures ChunksDone(cfg, s, 0) && ChunksDone(cfg, s, 1)
    ensures !PhaseOf(s.chunks, 0, 1).Linked? && !PhaseOf(s.chunks, 1, 0).Linked?
  {
  }

  lemma ThirdPrints(codec: Codec, x: string, z: string, g: string, f: nat)
    requires CodecOK(codec)
    ensures forall c :: c in ThirdList(codec, x, z, g, f) ==> Printable(c)
  {
  }

  /** A rewritten FInfo of a run without compression gives the file's results. */
  lemma PlainFInfo(cfg: Config, s: State, f: nat, l: seq<Chunk>)
    requires FilesInv(cfg, s) && BlockStores.Inv(cfg.finfoBase, s.finfos) && f < |cfg.files| && !cfg.files[f].skip && !cfg.compress
    requires BaseFlag(cfg.files[f]) == UNCOMPRESSED && Outcomes(cfg, s.chunks, f, |cfg.files[f].live|) == l
    requires CodecOK(cfg.codec) && l != [] && forall c :: c in l ==> Printable(c)
    requires s.job[f].Listed? && !s.job[f].keep
    ensures s.job[f].flag == UNCOMPRESSED && s.job[f].idx >= 0
    ensures ReadFInfo(cfg.codec, s.finfos.dir, s.finfos.disk, UNCOMPRESSED, s.job[f].idx) == Some(l)
  {
    PlainText(cfg, s, f, l);
    ReadWritten(cfg, s, s.job[f], UNCOMPRESSED, l);
  }

  lemma PlainText(cfg: Config, s: State, f: nat, l: seq<Chunk>)
    requires FilesInv(cfg, s) && BlockStores.Inv(cfg.finfoBase, s.finfos) && f < |cfg.files| && !cfg.files[f].skip && !cfg.compress
    requires BaseFlag(cfg.files[f]) == UNCOMPRESSED && Outcomes(cfg, s.chunks, f, |cfg.files[f].live|) == l
    requires s.job[f].Listed? && !s.job[f].keep
    ensures var j := s.job[f];
            && j.text == FInfoText(l) && j.flag == UNCOMPRESSED && j.idx >= 0
            && ReadBlock(s.finfos.dir, s.finfos.disk, j.idx) == Some(Packed(cfg, j.text).1)
  {
    assert FileInv(cfg, s, f);
    WrittenBlock(cfg.finfoBase, s.finfos, Claim(f, 0));
  }

  lemma ThirdEntry(cfg: Config, s: State, x: string, z: string, g: string, f: nat)
    requires FilesInv(cfg, s) && BlockStores.Inv(cfg.finfoBase, s.finfos) && CodecOK(cfg.codec) && !cfg.compress
    requires f < |cfg.files| && !cfg.files[f].skip && BaseFlag(cfg.files[f]) == UNCOMPRESSED
    requires Outcomes(cfg, s.chunks, f, |cfg.files[f].live|) == ThirdList(cfg.codec, x, z, g, f)
    requires s.job[f].Listed? && !s.job[f].keep
    ensures ListsThird(cfg, x, z, g, s, f)
  {
    ThirdPrints(cfg.codec, x, z, g, f);
    PlainFInfo(cfg, s, f, ThirdList(cfg.codec, x, z, g, f));
  }

  lemma ThirdFiles(cfg: Config, x: string, y: string, z: string, g: string)
    requires Grown(cfg, x, y, z, g)
    ensures forall f :: 0 <= f < 2 ==> !cfg.files[f].skip && BaseFlag(cfg.files[f]) == UNCOMPRESSED
    ensures |cfg.files[0].live| == 2 && |cfg.files[1].live| == 1
  {
  }

  /** The list entries of the third archive. */
  lemma ThirdEntries(cfg: Config, s: State, x: string, y: string, z: string, g: string, n: int)
    requires FilesInv(cfg, s) && BlockStores.Inv(cfg.finfoBase, s.finfos)
    requires Grown(cfg, x, y, z, g) && CodecOK(cfg.codec) && OneBlockForTwo(cfg.chunkBase, s.chunks, n, g, z)
    requires forall f :: 0 <= f < 2 ==> s.job[f].Listed? && !s.job[f].keep
    ensures ThirdEnd(cfg, x, z, g, n, s)
  {
    ThirdOutcomes(cfg, x, y, z, g, n, s.chunks);
    ThirdFiles(cfg, x, y, z, g);
    ThirdEntry(cfg, s, x, z, g, 0);
    ThirdEntry(cfg, s, x, z, g, 1);
  }

  lemma ThirdListed(cfg: Config, x: string, y: string, z: string, g: string, n: int) returns (run: seq<State>)
    requires Grown(cfg, x, y, z, g) && Disjoint(cfg.finfoBase)
    requires cfg.codec.hash(z) != cfg.codec.hash(y) && n !in cfg.chunkBase.disk
    ensures Runs(cfg, run) && OneBlockForTwo(cfg.chunkBase, Last(run).chunks, n, g, z)
    ensures forall f :: 0 <= f < 2 ==> Last(run).job[f].Listed? && !Last(run).job[f].keep
  {
    run := ThirdChunks(cfg, x, y, z, g, n);
    GrownClaims(cfg, x, y, z, g);
    ThirdStore(cfg.chunkBase, n, g, z);
    ThirdPhases(cfg, x, y, z, g, n, Last(run));
    run := Entered(cfg, run, 0, 1);
    ThirdPhases(cfg, x, y, z, g, n, Last(run));
    run := Entered(cfg, run, 1, 0);
  }

  /** The whole third run. */
  lemma ThirdRun(cfg: Config, x: string, y: string, z: string, g: string, n: int) returns (run: seq<State>)
    requires Grown(cfg, x, y, z, g) && CodecOK(cfg.codec) && Disjoint(cfg.finfoBase)
    requires cfg.codec.hash(z) != cfg.codec.hash(y) && n !in cfg.chunkBase.disk
    ensures Runs(cfg, run) && ThirdEnd(cfg, x, z, g, n, Last(run))
  {
    run := ThirdListed(cfg, x, y, z, g, n);
    ThirdEnded(cfg, run, x, y, z, g, n);
  }

  lemma ThirdEnded(cfg: Config, run: seq<State>, x: string, y: string, z: string, g: string, n: int)
    requires Runs(cfg, run) && Grown(cfg, x, y, z, g) && CodecOK(cfg.codec) && Disjoint(cfg.finfoBase)
    requires OneBlockForTwo(cfg.chunkBase, Last(run).chunks, n, g, z)
    requires forall f :: 0 <= f < 2 ==> Last(run).job[f].Listed? && !Last(run).job[f].keep
    ensures ThirdEnd(cfg, x, z, g, n, Last(run))
  {
    RunKeepsFInfos(cfg, run, |run| - 1);
    RunKeepsFiles(cfg, run, |run| - 1);
    ThirdEntries(cfg, Last(run), x, y, z, g, n);
  }

  /** The old file reads back; the new one does only if the two share the bytes they wrote to one block. */
  lemma ThirdReads(cfg: Config, x: string, y: string, z: string, g: string, n: int, s: State)
    requires Grown(cfg, x, y, z, g) && ThirdEnd(cfg, x, z, g, n, s)
    ensures ReadEntry(cfg, s, s.job[0].flag, s.job[0].idx) == Some(x + z)
    ensures ReadEntry(cfg, s, s.job[1].flag, s.job[1].idx) == if cfg.codec.hash(z) == cfg.codec.hash(g) then Some(z) else None
  {
    var h := cfg.codec.hash;
    ThirdBlocks(cfg, x, y, z, g, n, s);
    ReadTwo(cfg, s, Chunk(UNCOMPRESSED, 0, h(x)), Chunk(UNCOMPRESSED, 1, h(z)), x, z);
    ReadOne(cfg, s, Chunk(UNCOMPRESSED, 1, h(g)));
  }

  lemma ThirdBlocks(cfg: Config, x: string, y: string, z: string, g: string, n: int, s: State)
    requires Grown(cfg, x, y, z, g) && OneBlockForTwo(cfg.chunkBase, s.chunks, n, g, z)
    ensures var h := cfg.codec.hash;
            && ReadNew(cfg, s, Chunk(UNCOMPRESSED, 0, h(x))) == Some(x)
            && ReadNew(cfg, s, Chunk(UNCOMPRESSED, 1, h(z))) == Some(z)
            && ReadNew(cfg, s, Chunk(UNCOMPRESSED, 1, h(g))) == if h(z) == h(g) then Some(z) else None
  {
    assert ReadBlock(s.chunks.dir, s.chunks.disk, 0) == Some(x) && ReadBlock(s.chunks.dir, s.chunks.disk, 1) == Some(z);
  }

  lemma ReadOne(cfg: Config, s: State, c: Chunk)
    ensures ReadAll(cfg.codec, s.chunks.dir, s.chunks.disk, [c]) == ReadNew(cfg, s, c)
  {
    ReadAllSnoc(cfg.codec, s.chunks.dir, s.chunks.disk, [], c);
    assert [] + [c] == [c];
    var r := ReadNew(cfg, s, c);
    if r.Some? { assert "" + r.value == r.value; }
  }

  lemma ReadTwo(cfg: Config, s: State, c: Chunk, d: Chunk, x: string, z: string)
    requires ReadNew(cfg, s, c) == Some(x) && ReadNew(cfg, s, d) == Some(z)
    ensures ReadAll(cfg.codec, s.chunks.dir, s.chunks.disk, [c, d]) == Some(x + z)
  {
    ReadOne(cfg, s, c);
    ReadAllSnoc(cfg.codec, s.chunks.dir, s.chunks.disk, [c], d);
    assert [c] + [d] == [c, d];
  }

  /** The third run as the program sets it up from the second archive. */
  lemma GrownOn(codec: Codec, x: string, y: string, z: string, g: string, last: Config, s: State) returns (cfg: Config)
    requires CodecOK(codec) && CutArchive(codec, x, y, last, s)
    ensures Grown(cfg, x, y, z, g) && Follows(cfg, last, s) && Disjoint(cfg.finfoBase) && cfg.codec == codec
  {
    var b := BaseFile(0, UNCOMPRESSED, Two(codec, x, y));
    cfg := TwoFiles(codec, FileSpec([x, z], Some(b), false), FileSpec([g], None, false), s);
    CutEntry(codec, x, y, last, s);
    OnlyOldClaims(cfg, b);
  }

  /** A run of two files on the directories that `s` ended with. */
  lemma TwoFiles(codec: Codec, first: FileSpec, second: FileSpec, s: State) returns (cfg: Config)
    ensures ClaimsMatch(cfg) && cfg.codec == codec && !cfg.compress && cfg.files == [first, second]
    ensures cfg.chunkBase.dir == s.chunks.dir && cfg.chunkBase.disk == s.chunks.disk
    ensures cfg.finfoBase.dir == s.finfos.dir && cfg.finfoBase.disk == s.finfos.disk
  {
    var files := [first, second];
    cfg := Config(codec, false, files, Base(s.chunks.dir, s.chunks.disk, ChunkClaims(files)),
                  Base(s.finfos.dir, s.finfos.disk, FInfoClaims(files)));
    MadeMatches(cfg);
  }

  lemma OnlyOldClaims(cfg: Config, b: BaseFile)
    requires ClaimsMatch(cfg) && |cfg.files| == 2 && cfg.files[0].base == Some(b) && cfg.files[1].base == None && b.idx == 0
    requires cfg.finfoBase.dir == map[0 := 20] && 20 in cfg.finfoBase.disk
    ensures Disjoint(cfg.finfoBase)
  {
    FInfoClaimsDiffer(cfg.finfoBase, b);
  }

  lemma CutEntry(codec: Codec, x: string, y: string, last: Config, s: State)
    requires CodecOK(codec) && CutArchive(codec, x, y, last, s)
    ensures FindsEntry(BaseFile(0, UNCOMPRESSED, Two(codec, x, y)), last, s)
  {
    TwoPrintable(codec, x, y);
    assert s.job[0].Listed? && s.job[0].flag == UNCOMPRESSED && s.job[0].idx == 0;
  }

  lemma FInfoClaimsDiffer(b: Base, e: BaseFile)
    requires b.dir == map[0 := 20] && 20 in b.disk && e.idx == 0
    requires forall c :: c in b.claims && b.claims[c].Some? ==> c == Claim(0, 0) && b.claims[c] == Some(0)
    ensures Disjoint(b)
  {
  }

  /** A third way to lose a file. The second run truncates one file, and its archive is the base of the third, as it is
      by default. There the old file frees a base index that is not in the base but already belongs to a new file, gets
      it again, and writes over the new file's block. The new file is not truncated and its flag is not stale. */
  lemma LossyBaseLosesAnother(codec: Codec, x: string, y: string, z: string, g: string)
    returns (second: Config, run2: seq<State>, third: Config, run3: seq<State>)
    requires CodecOK(codec) && x != "" && codec.hash(z) != codec.hash(y) && codec.hash(g) != codec.hash(z)
    ensures Hypotheses(second) && |second.files| == 1 && Truncated(second, 0) && CreateRuns.Run(second, run2) && Follows(third, second, Last(run2))
    ensures CreateRuns.Run(third, run3) && |third.files| == 2 && Ended(third, Last(run3))
    ensures third.files[1] == FileSpec([g], None, false) && !Truncated(third, 1) && !StaleFlag(third, 1, Last(run3).job[1])
    ensures ReadEntry(third, Last(run3), Last(run3).job[1].flag, Last(run3).job[1].idx) == None
  {
    second, run2 := CutRun(codec, x, y);
    third := GrownOn(codec, x, y, z, g, second, Last(run2));
    var disk := third.chunkBase.disk.Keys;
    var n := LowestExists(disk, disk, 0);
    run3 := ThirdRun(third, x, y, z, g, n);
    ThirdReads(third, x, y, z, g, n, Last(run3));
  }

  /** In the fourth run the first of two files with one block is unchanged, and the other's chunk is now `w`. */
  ghost predicate Shared(cfg: Config, x: string, z: string, w: string, n: int) {
    && ClaimsMatch(cfg) && !cfg.compress && |cfg.files| == 2
    && (forall f :: 0 <= f < 2 ==> cfg.files[f].base.Some? && BaseChunks(cfg.files[f]) == ThirdList(cfg.codec, x, z, z, f) && !cfg.files[f].skip)
    && cfg.files[0].live == [x, z] && cfg.files[1].live == [w]
    && cfg.chunkBase.dir == map[1 := n, 0 := 10] && 10 in cfg.chunkBase.disk && n in cfg.chunkBase.disk
  }

  function ThirdFile(last: Config, s: State, x: string, z: string, f: nat): BaseFile
    requires f < |s.job| && s.job[f].Listed?
  {
    BaseFile(s.job[f].idx, UNCOMPRESSED, ThirdList(last.codec, x, z, z, f))
  }

  lemma ThirdFound(last: Config, s: State, x: string, z: string, n: int, f: nat)
    requires ThirdEnd(last, x, z, z, n, s) && f < 2
    ensures FindsEntry(ThirdFile(last, s, x, z, f), last, s)
  {
    assert ListsThird(last, x, z, z, s, f);
  }

  lemma SharedOn(x: string, y: string, z: string, w: string, n: int, last: Config, s: State) returns (cfg: Config)
    requires Grown(last, x, y, z, z) && ThirdEnd(last, x, z, z, n, s)
    ensures Shared(cfg, x, z, w, n) && Follows(cfg, last, s)
  {
    var b, c := ThirdFile(last, s, x, z, 0), ThirdFile(last, s, x, z, 1);
    cfg := TwoFiles(last.codec, FileSpec([x, z], Some(b), false), FileSpec([w], Some(c), false), s);
    SharedIs(cfg, x, z, w, n, b, c);
    ThirdFound(last, s, x, z, n, 0);
    ThirdFound(last, s, x, z, n, 1);
    SharedFollows(cfg, last, s, b, c);
  }

  lemma SharedIs(cfg: Config, x: string, z: string, w: string, n: int, b: BaseFile, c: BaseFile)
    requires ClaimsMatch(cfg) && !cfg.compress
    requires cfg.files == [FileSpec([x, z], Some(b), false), FileSpec([w], Some(c), false)]
    requires b.chunks == ThirdList(cfg.codec, x, z, z, 0) && c.chunks == ThirdList(cfg.codec, x, z, z, 1)
    requires cfg.chunkBase.dir == map[1 := n, 0 := 10] && 10 in cfg.chunkBase.disk && n in cfg.chunkBase.disk
    ensures Shared(cfg, x, z, w, n)
  {
  }

  lemma SharedFollows(cfg: Config, last: Config, s: State, b: BaseFile, c: BaseFile)
    requires ClaimsMatch(cfg) && cfg.codec == last.codec && Ended(last, s)
    requires |cfg.files| == 2 && cfg.files[0].base == Some(b) && cfg.files[1].base == Some(c)
    requires cfg.chunkBase.dir == s.chunks.dir && cfg.chunkBase.disk == s.chunks.disk
    requires cfg.finfoBase.dir == s.finfos.dir && cfg.finfoBase.disk == s.finfos.disk
    requires FindsEntry(b, last, s) && FindsEntry(c, last, s)
    ensures Follows(cfg, last, s)
  {
  }

  lemma SharedMixed(cfg: Config, x: string, z: string, w: string, n: int)
    requires Shared(cfg, x, z, w, n) && cfg.codec.hash(w) != cfg.codec.hash(z)
    ensures MixedAt(cfg, 0, 1, 1, 0) && Mixed(cfg) && BlocksExist(cfg.chunkBase)
    ensures BaseChunks(cfg.files[1])[0].idx == 1
  {
    assert BaseChunks(cfg.files[0]) == ThirdList(cfg.codec, x, z, z, 0) && BaseChunks(cfg.files[1]) == ThirdList(cfg.codec, x, z, z, 1);
    assert SameHash(cfg, 0, 1) && !SameHash(cfg, 1, 0);
    assert Links(cfg, 0, 1) && Rewrites(cfg, 1, 0);
    MixedSomewhere(cfg, 0, 1, 1, 0);
  }

  lemma MixedSomewhere(cfg: Config, f: nat, c: nat, g: nat, d: nat)
    requires MixedAt(cfg, f, c, g, d)
    ensures Mixed(cfg)
  {
  }

  lemma LowestIsOne(cfg: Config, x: string, z: string, w: string, n: int)
    requires Shared(cfg, x, z, w, n)
    ensures Lowest(cfg.chunkBase.dir.Keys - {1}, 1)
  {
    assert cfg.chunkBase.dir.Keys == {0, 1};
  }

  lemma FourthRun(cfg: Config, x: string, z: string, w: string, n: int) returns (run: seq<State>)
    requires Shared(cfg, x, z, w, n) && cfg.codec.hash(w) != cfg.codec.hash(z)
    ensures CreateRuns.Run(cfg, run) && Last(run).finfos == Fresh(cfg.finfoBase)
    ensures Last(run).chunks.disk == cfg.chunkBase.disk[n := w]
  {
    SharedMixed(cfg, x, z, w, n);
    LowestIsOne(cfg, x, z, w, n);
    run := MixedOverwrites(cfg, 0, 1, 1, 0);
  }

  /** The first file of the third archive cannot be read any more. */
  lemma ThirdBroken(cfg: Config, x: string, z: string, w: string, n: int, s: State, disk: map<int, string>)
    requires ThirdEnd(cfg, x, z, z, n, s) && disk == s.chunks.disk[n := w] && cfg.codec.hash(w) != cfg.codec.hash(z)
    ensures ReadFile(cfg.codec, s.chunks.dir, disk, s.finfos.dir, s.finfos.disk, s.job[0].flag, s.job[0].idx) == None
  {
    var l := ThirdList(cfg.codec, x, z, z, 0);
    assert ReadBlock(s.chunks.dir, disk, 1) == Some(w);
    assert ReadChunk(cfg.codec, s.chunks.dir, disk, l[1]) == None;
    ReadAllFails(cfg.codec, s.chunks.dir, disk, l, 1);
  }

  /** And a way to lose an archive that read back. If the two files of the third run wrote the same bytes, all of the
      third archive can be read, but it lists block 1 twice. In the fourth run one file keeps the block, the other
      rewrites it: `Mixed`, as could have been seen before. The write lands in the third archive. */
  lemma LossyBaseBreaksNext(codec: Codec, x: string, y: string, z: string, w: string)
    returns (second: Config, run2: seq<State>, third: Config, run3: seq<State>, fourth: Config, run4: seq<State>)
    requires CodecOK(codec) && x != "" && codec.hash(z) != codec.hash(y) && codec.hash(w) != codec.hash(z)
    ensures Hypotheses(second) && |second.files| == 1 && Truncated(second, 0)
    ensures CreateRuns.Run(second, run2) && Follows(third, second, Last(run2))
    ensures CreateRuns.Run(third, run3) && Follows(fourth, third, Last(run3)) && |Last(run3).job| == 2
    ensures |third.files| == 2 && third.files[0].live == [x, z] && third.files[1].live == [z]
    ensures ReadEntry(third, Last(run3), Last(run3).job[0].flag, Last(run3).job[0].idx) == Some(x + z)
    ensures ReadEntry(third, Last(run3), Last(run3).job[1].flag, Last(run3).job[1].idx) == Some(z)
    ensures CreateRuns.Run(fourth, run4) && Mixed(fourth)
    ensures ReadFile(codec, Last(run3).chunks.dir, Last(run4).chunks.disk, Last(run3).finfos.dir, Last(run4).finfos.disk,
                     Last(run3).job[0].flag, Last(run3).job[0].idx) == None
  {
    second, run2 := CutRun(codec, x, y);
    third := GrownOn(codec, x, y, z, z, second, Last(run2));
    var disk := third.chunkBase.disk.Keys;
    var n := LowestExists(disk, disk, 0);
    run3 := ThirdRun(third, x, y, z, z, n);
    ThirdReads(third, x, y, z, z, n, Last(run3));
    fourth := SharedOn(x, y, z, w, n, third, Last(run3));
    SharedMixed(fourth, x, z, w, n);
    run4 := FourthRun(fourth, x, z, w, n);
    ThirdBroken(third, x, z, w, n, Last(run3), Last(run4).chunks.disk);
  }
}
