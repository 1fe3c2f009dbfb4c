/** Two create runs whose file does not read back: both conditions of `ReadsBackExactly` can fail. */
module CreateWitnesses {
  import opened Common
  import opened FInfos
  import opened BlockStores
  import opened CreateRuns
  import opened ReadBacks
  import opened BlockBounds
  import opened CreateTerminations

  /** A base file of two plain chunks in blocks 0 and 1. */
  function Two(codec: Codec, x: string, y: string): seq<Chunk> {
    [Chunk(UNCOMPRESSED, 0, codec.hash(x)), Chunk(UNCOMPRESSED, 1, codec.hash(y))]
  }

  /** That file, its FInfo stored as `finfo` under `flag`; now the live file is the one chunk `z`. */
  function OneFile(codec: Codec, compress: bool, x: string, y: string, z: string, flag: char, finfo: string): Config {
    Config(codec, compress, [FileSpec([z], Some(BaseFile(0, flag, Two(codec, x, y))), false)],
           Base(map[0 := 10, 1 := 11], map[10 := x, 11 := y], map[Claim(0, 0) := Some(0), Claim(0, 1) := Some(1)]),
           Base(map[0 := 20], map[20 := finfo], map[Claim(0, 0) := Some(0)]))
  }

  lemma OneFileMatches(codec: Codec, compress: bool, x: string, y: string, z: string, flag: char, finfo: string)
    ensures ClaimsMatch(OneFile(codec, compress, x, y, z, flag, finfo))
  {
    var cfg := OneFile(codec, compress, x, y, z, flag, finfo);
    forall cl: Claim ensures cl in cfg.chunkBase.claims <==> Place(cfg, cl.file, cl.part) {
      assert cl == Claim(cl.file, cl.part);
      assert Width(cfg.files[0]) == 2;
    }
  }

  lemma OneFileSetup(codec: Codec, compress: bool, x: string, y: string, z: string, flag: char, finfo: string)
    requires z != ""
    ensures Setup(OneFile(codec, compress, x, y, z, flag, finfo))
  {
    OneFileMatches(codec, compress, x, y, z, flag, finfo);
    OneFileDisjoint(x, y, finfo);
  }

  lemma OneFileDisjoint(x: string, y: string, finfo: string)
    ensures Disjoint(Base(map[0 := 10, 1 := 11], map[10 := x, 11 := y], map[Claim(0, 0) := Some(0), Claim(0, 1) := Some(1)]))
    ensures Disjoint(Base(map[0 := 20], map[20 := finfo], map[Claim(0, 0) := Some(0)]))
  {
  }

  lemma OneFileTrusted(codec: Codec, compress: bool, x: string, y: string, z: string, flag: char, finfo: string, text: string)
    requires Flag(flag) && Unpack(codec, flag, finfo) == Some(text) && Parse(text) == Ok(Two(codec, x, y))
    requires codec.hash(z) == codec.hash(x) ==> z == x
    ensures Trusted(OneFile(codec, compress, x, y, z, flag, finfo), 0)
  {
    OneFileReads(codec, compress, x, y, z, flag, finfo);
  }

  lemma OneFileReads(codec: Codec, compress: bool, x: string, y: string, z: string, flag: char, finfo: string)
    ensures var cfg := OneFile(codec, compress, x, y, z, flag, finfo);
            && BaseRead(cfg, Two(codec, x, y)[0]) == Some(x) && BaseRead(cfg, Two(codec, x, y)[1]) == Some(y)
            && ReadBlock(cfg.finfoBase.dir, cfg.finfoBase.disk, 0) == Some(finfo)
  {
  }

  /** The configuration meets all that is asked of a create run. */
  lemma OneFileRuns(codec: Codec, compress: bool, x: string, y: string, z: string, flag: char, finfo: string, text: string)
    returns (cfg: Config)
    requires CodecOK(codec) && Flag(flag) && Unpack(codec, flag, finfo) == Some(text) && Parse(text) == Ok(Two(codec, x, y))
    requires z != "" && (codec.hash(z) == codec.hash(x) ==> z == x)
    ensures Hypotheses(cfg) && Small(cfg.chunkBase) && cfg.codec == codec && cfg.compress == compress
    ensures cfg.files == [FileSpec([z], Some(BaseFile(0, flag, Two(codec, x, y))), false)]
    ensures cfg == OneFile(codec, compress, x, y, z, flag, finfo)
  {
    cfg := OneFile(codec, compress, x, y, z, flag, finfo);
    OneFileSetup(codec, compress, x, y, z, flag, finfo);
    OneFileTrusted(codec, compress, x, y, z, flag, finfo, text);
    OneFileSmall(cfg.chunkBase, x, y);
    OnlyTrusted(cfg);
  }

  lemma OneFileSmall(b: Base, x: string, y: string)
    requires b == Base(map[0 := 10, 1 := 11], map[10 := x, 11 := y], map[Claim(0, 0) := Some(0), Claim(0, 1) := Some(1)])
    ensures Small(b)
  {
  }

  lemma OnlyTrusted(cfg: Config)
    requires Setup(cfg) && CodecOK(cfg.codec) && |cfg.files| == 1 && Trusted(cfg, 0)
    ensures Hypotheses(cfg)
  {
  }

  lemma TwoPrintable(codec: Codec, x: string, y: string)
    requires CodecOK(codec)
    ensures forall c :: c in Two(codec, x, y) ==> Printable(c)
    ensures Parse(FInfoText(Two(codec, x, y))) == Ok(Two(codec, x, y))
  {
    FInfoRoundTrip(Two(codec, x, y));
  }

  /** The only file of the run is listed and cannot be read. */
  ghost predicate LosesItsFile(cfg: Config, s: State) {
    |s.job| == 1 && s.job[0].Listed? && ReadEntry(cfg, s, s.job[0].flag, s.job[0].idx) == None
  }

  ghost predicate Always(cfg: Config, p: State -> bool) {
    forall s :: RunInv(cfg, s) && Fits(s) && AllListed(s) ==> p(s)
  }

  /** Some run goes on to the end, where `p` holds if it always holds at the end. */
  lemma AtTheEnd(cfg: Config, p: State -> bool) returns (run: seq<State>)
    requires Setup(cfg) && Small(cfg.chunkBase) && Always(cfg, p)
    ensures CreateRuns.Run(cfg, run) && p(run[|run| - 1])
  {
    run := Completes(cfg, [Init(cfg)]);
    AtThisEnd(cfg, p, run);
  }

  lemma AtThisEnd(cfg: Config, p: State -> bool, run: seq<State>)
    requires Setup(cfg) && Small(cfg.chunkBase) && Always(cfg, p) && CreateRuns.Run(cfg, run) && AllListed(run[|run| - 1])
    ensures p(run[|run| - 1])
  {
    SmallRunsFit(cfg, run, |run| - 1);
    CreateRuns.RunKeepsInv(cfg, run, |run| - 1);
  }

  ghost function Loses(cfg: Config): State -> bool { s => LosesItsFile(cfg, s) }

  /** Whatever the interleaving, the file is lost in the end. */
  ghost predicate AlwaysLost(cfg: Config) { Always(cfg, Loses(cfg)) }

  lemma LostRun(cfg: Config) returns (run: seq<State>)
    requires Setup(cfg) && Small(cfg.chunkBase) && AlwaysLost(cfg)
    ensures CreateRuns.Run(cfg, run) && LosesItsFile(cfg, run[|run| - 1])
  {
    run := AtTheEnd(cfg, Loses(cfg));
    Unwrapped(cfg, run[|run| - 1]);
  }

  lemma Unwrapped(cfg: Config, s: State)
    requires Loses(cfg)(s)
    ensures LosesItsFile(cfg, s)
  {
  }

  lemma TruncatedLost(cfg: Config)
    requires Hypotheses(cfg) && |cfg.files| == 1 && Truncated(cfg, 0)
    ensures AlwaysLost(cfg)
  {
    forall s | RunInv(cfg, s) && Fits(s) && AllListed(s) ensures LosesItsFile(cfg, s) {
      if !s.job[0].keep { NotTruncated(cfg, s, 0); }
      KeptReads(cfg, s, 0);
    }
  }

  lemma CutOff(cfg: Config, x: string, y: string, flag: char)
    requires cfg.files == [FileSpec([x], Some(BaseFile(0, flag, Two(cfg.codec, x, y))), false)]
    ensures Truncated(cfg, 0)
  {
    assert SameHash(cfg, 0, 0);
  }

  /** The live file is the base file without its second chunk. All of its chunks are kept, so the base FInfo is
      linked, and that lists a chunk which the new archive does not have. */
  lemma TruncatedFileIsLost(codec: Codec, x: string, y: string) returns (cfg: Config, run: seq<State>)
    requires CodecOK(codec) && x != ""
    ensures Hypotheses(cfg) && CreateRuns.Run(cfg, run) && LosesItsFile(cfg, run[|run| - 1])
    ensures cfg == OneFile(codec, false, x, y, x, UNCOMPRESSED, FInfoText(Two(codec, x, y))) && Truncated(cfg, 0)
  {
    TwoPrintable(codec, x, y);
    cfg := OneFileRuns(codec, false, x, y, x, UNCOMPRESSED, FInfoText(Two(codec, x, y)), FInfoText(Two(codec, x, y)));
    CutOff(cfg, x, y, UNCOMPRESSED);
    TruncatedLost(cfg);
    run := LostRun(cfg);
  }

  /** The FInfo of a file with the single chunk `z` does not compress. */
  ghost predicate Incompressible(codec: Codec, z: string) {
    forall flag: char, i: int ::
      |codec.zip(FInfoText([Chunk(flag, i, codec.hash(z))]))| >= |FInfoText([Chunk(flag, i, codec.hash(z))])|
  }

  /** The base FInfo was stored compressed, the first chunk changed, and the new FInfo does not compress:
      the list entry inherits the old flag, so the plain text is taken for compressed data. */
  lemma StaleFileIsLost(codec: Codec, x: string, y: string, z: string) returns (cfg: Config, run: seq<State>)
    requires CodecOK(codec) && z != "" && codec.hash(z) != codec.hash(x) && Incompressible(codec, z)
    ensures Hypotheses(cfg) && CreateRuns.Run(cfg, run) && LosesItsFile(cfg, run[|run| - 1])
    ensures |cfg.files| == 1 && cfg.files[0].live == [z]
  {
    TwoPrintable(codec, x, y);
    cfg := OneFileRuns(codec, true, x, y, z, COMPRESSED, codec.zip(FInfoText(Two(codec, x, y))), FInfoText(Two(codec, x, y)));
    NewFInfoLost(cfg, x, y, z);
    run := LostRun(cfg);
  }

  lemma NewFInfoLost(cfg: Config, x: string, y: string, z: string)
    requires Hypotheses(cfg) && cfg.files == [FileSpec([z], Some(BaseFile(0, COMPRESSED, Two(cfg.codec, x, y))), false)]
    requires cfg.codec.hash(z) != cfg.codec.hash(x) && Incompressible(cfg.codec, z)
    ensures AlwaysLost(cfg)
  {
    assert !SameHash(cfg, 0, 0);
    forall s | RunInv(cfg, s) && Fits(s) && AllListed(s) ensures LosesItsFile(cfg, s) {
      NewFInfo(cfg, s, z);
      RewrittenReads(cfg, s, 0);
    }
  }

  /** The new FInfo has one line, which does not compress. */
  lemma NewFInfo(cfg: Config, s: State, z: string)
    requires Hypotheses(cfg) && RunInv(cfg, s) && |cfg.files| == 1 && s.job[0].Listed?
    requires BaseFlag(cfg.files[0]) == COMPRESSED && !cfg.files[0].skip && cfg.files[0].live == [z]
    requires !SameHash(cfg, 0, 0) && Incompressible(cfg.codec, z)
    ensures !s.job[0].keep && StaleFlag(cfg, 0, s.job[0])
  {
    assert FileInv(cfg, s, 0);
    if s.job[0].keep { KeptOutcomes(cfg, s, 0); }
    RewrittenFacts(cfg, s, 0);
    AllDone(cfg, s, 0);
    OneOutcome(cfg, s, z);
  }

  lemma OneOutcome(cfg: Config, s: State, z: string)
    requires |cfg.files| == 1 && cfg.files[0].live == [z] && Done(PhaseOf(s.chunks, 0, 0))
    ensures var r := Outcome(cfg, s.chunks, 0, 0);
            Outcomes(cfg, s.chunks, 0, 1) == [Chunk(r.flag, r.idx, cfg.codec.hash(z))]
  {
    assert Outcomes(cfg, s.chunks, 0, 0) == [];
  }
}
