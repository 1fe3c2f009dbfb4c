/** Why create calls must start from different base entries: a run that writes into the base archive. */
module SharedBlocks {
  import opened Common
  import opened FInfos
  import opened BlockStores
  import opened CreateRuns
  import opened ReadBacks
  import opened BaseSafeties
  import opened BaseThreats
  import opened CreateSteps

  /** The base entry of a hard-linked file with the one chunk `x`. */
  function Entry(codec: Codec, x: string): BaseFile {
    BaseFile(0, UNCOMPRESSED, [Chunk(UNCOMPRESSED, 0, codec.hash(x))])
  }

  /** Since then the link was split: one name has new content `z`, the other still has `x`. Both find the entry. */
  function SplitFiles(codec: Codec, x: string, z: string): seq<FileSpec> {
    [FileSpec([z], Some(Entry(codec, x)), false), FileSpec([x], Some(Entry(codec, x)), false)]
  }

  function SplitLink(codec: Codec, x: string, z: string): Config {
    var files := SplitFiles(codec, x, z);
    Config(codec, false, files, Base(map[0 := 10], map[10 := x], ChunkClaims(files)),
           Base(map[0 := 20], map[20 := FInfoText(Entry(codec, x).chunks)], FInfoClaims(files)))
  }

  lemma SplitMatches(codec: Codec, x: string, z: string)
    requires x != "" && z != ""
    ensures ClaimsMatch(SplitLink(codec, x, z))
    ensures forall f :: 0 <= f < 2 ==> SpecOK(SplitLink(codec, x, z).files[f])
  {
    MadeMatches(SplitLink(codec, x, z));
  }

  /** What makes a file with this entry trustworthy. */
  lemma EntryTrusted(cfg: Config, x: string, f: nat)
    requires CodecOK(cfg.codec) && f < |cfg.files| && cfg.files[f].base == Some(Entry(cfg.codec, x)) && !cfg.files[f].skip
    requires ReadBlock(cfg.chunkBase.dir, cfg.chunkBase.disk, 0) == Some(x)
    requires ReadBlock(cfg.finfoBase.dir, cfg.finfoBase.disk, 0) == Some(FInfoText(Entry(cfg.codec, x).chunks))
    requires SameHash(cfg, f, 0) ==> cfg.files[f].live[0] == x
    ensures Trusted(cfg, f)
  {
    FInfoRoundTrip(Entry(cfg.codec, x).chunks);
    assert BaseRead(cfg, Entry(cfg.codec, x).chunks[0]) == Some(x);
  }

  lemma SplitTrusted(codec: Codec, x: string, z: string, f: nat)
    requires CodecOK(codec) && codec.hash(x) != codec.hash(z) && f < 2
    ensures Trusted(SplitLink(codec, x, z), f)
  {
    var cfg := SplitLink(codec, x, z);
    assert ReadBlock(cfg.chunkBase.dir, cfg.chunkBase.disk, 0) == Some(x);
    assert ReadBlock(cfg.finfoBase.dir, cfg.finfoBase.disk, 0) == Some(FInfoText(Entry(codec, x).chunks));
    EntryTrusted(cfg, x, f);
  }

  lemma SplitIsMixed(codec: Codec, x: string, z: string)
    requires codec.hash(x) != codec.hash(z)
    ensures MixedAt(SplitLink(codec, x, z), 1, 0, 0, 0)
  {
    var cfg := SplitLink(codec, x, z);
    assert SameHash(cfg, 1, 0) && !SameHash(cfg, 0, 0);
  }

  /** All that a create run asks for holds, but for the disjointness: the two files found one base entry. */
  ghost predicate SharesAnEntry(cfg: Config) {
    && ClaimsMatch(cfg) && CodecOK(cfg.codec)
    && |cfg.files| == 2 && cfg.files[0].base == cfg.files[1].base && cfg.files[0].base.Some?
    && SpecOK(cfg.files[0]) && SpecOK(cfg.files[1]) && Trusted(cfg, 0) && Trusted(cfg, 1)
  }

  /** Block 0 of the base archive held `x`, and its inode now holds `z`. */
  predicate Overwritten(cfg: Config, s: State, x: string, z: string) {
    var b := cfg.chunkBase;
    && 0 in b.dir && b.dir[0] in b.disk && b.disk[b.dir[0]] == x
    && b.dir[0] in s.chunks.disk && s.chunks.disk[b.dir[0]] == z
  }

  lemma SplitShares(codec: Codec, x: string, z: string)
    requires CodecOK(codec) && x != "" && z != "" && codec.hash(x) != codec.hash(z)
    ensures SharesAnEntry(SplitLink(codec, x, z))
  {
    SplitMatches(codec, x, z);
    SplitTrusted(codec, x, z, 0);
    SplitTrusted(codec, x, z, 1);
  }

  lemma OverwritingRun(codec: Codec, x: string, z: string) returns (run: seq<State>)
    requires x != "" && z != "" && codec.hash(x) != codec.hash(z)
    ensures CreateRuns.Run(SplitLink(codec, x, z), run) && Overwritten(SplitLink(codec, x, z), run[|run| - 1], x, z)
  {
    var cfg := SplitLink(codec, x, z);
    SplitMatches(codec, x, z);
    SplitIsMixed(codec, x, z);
    assert cfg.chunkBase.dir.Keys - {0} == {};
    run := MixedOverwrites(cfg, 1, 0, 0, 0);
  }

  /** Without disjoint claims the promise fails, for every codec and contents: two files that were one hard-linked
      file in the base share a block, one job frees it, the other links it, and the freed index is reused for a
      write into the linked inode. */
  lemma SharedBlockIsOverwritten(codec: Codec, x: string, z: string) returns (cfg: Config, run: seq<State>)
    requires CodecOK(codec) && x != "" && z != "" && codec.hash(x) != codec.hash(z)
    ensures cfg.codec == codec && SharesAnEntry(cfg)
    ensures CreateRuns.Run(cfg, run) && Overwritten(cfg, run[|run| - 1], x, z) && x != z
  {
    cfg := SplitLink(codec, x, z);
    SplitShares(codec, x, z);
    run := OverwritingRun(codec, x, z);
  }
}
