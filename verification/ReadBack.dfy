/** Reading a file out of an archive (`ArchFileRead`, `ExtractChunkJob`), and when a created file reads back. */
module ReadBacks {
  import opened Common
  import opened Numbers
  import opened FInfos
  import opened LiveFiles
  import opened BlockStores
  import opened CreateRuns

  /** `SlurpBlock`; a missing block throws. */
  function ReadBlock(dir: map<int, int>, disk: map<int, string>, idx: int): Option<string> {
    if idx in dir && dir[idx] in disk then Some(disk[dir[idx]]) else None
  }

  function Unpack(codec: Codec, flag: char, bytes: string): Option<string> {
    if flag == UNCOMPRESSED then Some(bytes)
    else if flag == COMPRESSED then codec.unzip(bytes)
    else None
  }

  /** One chunk, with its hash checked. */
  function ReadChunk(codec: Codec, dir: map<int, int>, disk: map<int, string>, c: Chunk): Option<string> {
    match ReadBlock(dir, disk, c.idx)
    case None => None
    case Some(bytes) =>
      match Unpack(codec, c.flag, bytes)
      case None => None
      case Some(data) => if codec.hash(data) == c.hash then Some(data) else None
  }

  function ReadAll(codec: Codec, dir: map<int, int>, disk: map<int, string>, chunks: seq<Chunk>): Option<string> {
    if chunks == [] then Some("")
    else
      match ReadChunk(codec, dir, disk, chunks[0])
      case None => None
      case Some(data) =>
        match ReadAll(codec, dir, disk, chunks[1..])
        case None => None
        case Some(rest) => Some(data + rest)
  }

  /** The chunk list of a list entry; a negative index stands for a file without data. */
  function ReadFInfo(codec: Codec, dir: map<int, int>, disk: map<int, string>, flag: char, idx: int): Option<seq<Chunk>> {
    if idx < 0 then Some([])
    else
      match ReadBlock(dir, disk, idx)
      case None => None
      case Some(bytes) =>
        match Unpack(codec, flag, bytes)
        case None => None
        case Some(text) => match Parse(text) case Err(_) => None case Ok(chunks) => Some(chunks)
  }

  /** The bytes that extraction writes for a list entry, or None where it throws. */
  function ReadFile(codec: Codec, chunkDir: map<int, int>, chunkDisk: map<int, string>,
                    finfoDir: map<int, int>, finfoDisk: map<int, string>, flag: char, idx: int): Option<string> {
    match ReadFInfo(codec, finfoDir, finfoDisk, flag, idx)
    case None => None
    case Some(chunks) => ReadAll(codec, chunkDir, chunkDisk, chunks)
  }

  /** How every FInfo text begins. */
  predicate FInfoStart(x: string) { |x| >= 2 && Flag(x[0]) && x[1] == '-' }

  /** What zstd and mhash are trusted for: decompression undoes compression and rejects FInfo text, hashes are hex. */
  ghost predicate CodecOK(codec: Codec) {
    && (forall x :: codec.unzip(codec.zip(x)) == Some(x))
    && (forall x :: FInfoStart(x) ==> codec.unzip(x) == None)
    && (forall x :: codec.hash(x) != "" && ' ' !in codec.hash(x) && '\n' !in codec.hash(x))
  }

  function BaseRead(cfg: Config, c: Chunk): Option<string> {
    ReadChunk(cfg.codec, cfg.chunkBase.dir, cfg.chunkBase.disk, c)
  }

  /** The base archive is readable, equal hashes and equal stats mean equal content. */
  ghost predicate Trusted(cfg: Config, f: nat)
    requires f < |cfg.files|
  {
    var spec := cfg.files[f];
    && Flag(BaseFlag(spec))
    && (BaseIdx(spec) >= 0 ==>
          ReadFInfo(cfg.codec, cfg.finfoBase.dir, cfg.finfoBase.disk, BaseFlag(spec), BaseIdx(spec)) == Some(BaseChunks(spec)))
    && (forall c: nat :: c < |BaseChunks(spec)| ==> Flag(BaseChunks(spec)[c].flag) && BaseRead(cfg, BaseChunks(spec)[c]).Some?)
    && (forall c: nat :: c < |spec.live| && c < |BaseChunks(spec)| && cfg.codec.hash(spec.live[c]) == BaseChunks(spec)[c].hash ==>
          BaseRead(cfg, BaseChunks(spec)[c]) == Some(spec.live[c]))
    && (spec.skip ==>
          ReadAll(cfg.codec, cfg.chunkBase.dir, cfg.chunkBase.disk, BaseChunks(spec)) == Some(Concat(spec.live)))
  }

  ghost predicate Hypotheses(cfg: Config) {
    Setup(cfg) && CodecOK(cfg.codec) && forall f: nat :: f < |cfg.files| ==> Trusted(cfg, f)
  }

  /** Block indices stay below 2^63. */
  ghost predicate Fits(s: State) { forall i :: i in s.chunks.dir ==> 0 <= i < I63 }

  function ReadNew(cfg: Config, s: State, c: Chunk): Option<string> {
    ReadChunk(cfg.codec, s.chunks.dir, s.chunks.disk, c)
  }

  /** The live file is the base file cut off at a chunk boundary: every chunk is kept, and so is the longer FInfo. */
  predicate Truncated(cfg: Config, f: nat)
    requires f < |cfg.files|
  {
    var spec := cfg.files[f];
    && !spec.skip && |spec.live| < |BaseChunks(spec)|
    && forall c :: 0 <= c < |spec.live| ==> cfg.codec.hash(spec.live[c]) == BaseChunks(spec)[c].hash
  }

  /** A rewritten FInfo that did not compress goes under a flag inherited from a compressed one. */
  predicate StaleFlag(cfg: Config, f: nat, j: Job)
    requires f < |cfg.files| && j.Listed?
  {
    && !j.keep && BaseFlag(cfg.files[f]) == COMPRESSED
    && !(cfg.compress && |cfg.codec.zip(j.text)| < |j.text|)
  }

  /** A linked place reads as in the base archive. */
  lemma LinkedReads(cfg: Config, s: State, f: nat, c: nat)
    requires Hypotheses(cfg) && RunInv(cfg, s) && f < |cfg.files| && PhaseOf(s.chunks, f, c).Linked?
    ensures c < |BaseChunks(cfg.files[f])|
    ensures ReadNew(cfg, s, BaseChunks(cfg.files[f])[c]) == BaseRead(cfg, BaseChunks(cfg.files[f])[c])
  {
    assert FileInv(cfg, s, f);
    assert ChunkInv(cfg, s, f, c);
    LinkedBlock(cfg.chunkBase, s.chunks, Claim(f, c));
  }

  /** A linked block is the base block, and its inode has the base bytes. */
  lemma LinkedBlock(b: Base, s: Store, c: Claim)
    requires Disjoint(b) && BlockStores.Inv(b, s) && c in s.phase && s.phase[c].Linked?
    ensures var i := s.phase[c].idx;
            i in b.dir && ReadBlock(s.dir, s.disk, i) == ReadBlock(b.dir, b.disk, i)
  {
    assert PhaseInv(b, s, c);
    var i := s.phase[c].idx;
    var n := b.dir[i];
    assert n in b.disk;
    assert n in s.disk && s.disk[n] == b.disk[n];
  }

  lemma WrittenBlock(b: Base, s: Store, c: Claim)
    requires BlockStores.Inv(b, s) && c in s.phase && s.phase[c].Written?
    ensures var p := s.phase[c]; 0 <= p.idx && p.idx in s.dir && ReadBlock(s.dir, s.disk, p.idx) == Some(p.data)
  {
    assert PhaseInv(b, s, c);
  }

  lemma WaitingBlock(b: Base, s: Store, c: Claim)
    requires BlockStores.Inv(b, s) && c in b.claims && s.phase[c].Waiting? && b.claims[c].Some?
    ensures ReadBlock(s.dir, s.disk, b.claims[c].value) == None
  {
    assert PhaseInv(b, s, c);
  }

  /** Unpacking what was packed, under the flag it was packed with. */
  lemma PackRoundTrip(cfg: Config, data: string)
    requires CodecOK(cfg.codec)
    ensures Unpack(cfg.codec, Packed(cfg, data).0, Packed(cfg, data).1) == Some(data)
  {
  }

  /** The recorded result of a finished place reads back as the live chunk, and can be printed. */
  lemma OutcomeReads(cfg: Config, s: State, f: nat, c: nat)
    requires Hypotheses(cfg) && RunInv(cfg, s) && Fits(s) && f < |cfg.files|
    requires !cfg.files[f].skip && c < |cfg.files[f].live| && Done(PhaseOf(s.chunks, f, c))
    ensures var r := Outcome(cfg, s.chunks, f, c);
            ReadNew(cfg, s, r) == Some(cfg.files[f].live[c]) && Printable(r)
  {
    assert FileInv(cfg, s, f);
    assert ChunkInv(cfg, s, f, c);
    var cl := Claim(f, c);
    assert PhaseInv(cfg.chunkBase, s.chunks, cl);
    if PhaseOf(s.chunks, f, c).Linked? {
      LinkedReads(cfg, s, f, c);
      assert Trusted(cfg, f) && SameHash(cfg, f, c);
      assert Outcome(cfg, s.chunks, f, c) == BaseChunks(cfg.files[f])[c];
    } else {
      WrittenBlock(cfg.chunkBase, s.chunks, cl);
      PackRoundTrip(cfg, cfg.files[f].live[c]);
    }
  }

  function Both(a: Option<string>, b: Option<string>): Option<string> {
    if a.Some? && b.Some? then Some(a.value + b.value) else None
  }

  lemma {:induction false} ReadAllSnoc(codec: Codec, dir: map<int, int>, disk: map<int, string>, chunks: seq<Chunk>, c: Chunk)
    ensures ReadAll(codec, dir, disk, chunks + [c])
         == Both(ReadAll(codec, dir, disk, chunks), ReadChunk(codec, dir, disk, c))
  {
    if chunks == [] {
      assert chunks + [c] == [c] && [c][1..] == [];
      var r := ReadChunk(codec, dir, disk, c);
      if r.Some? { assert r.value + "" == r.value && "" + r.value == r.value; }
    } else {
      assert (chunks + [c])[1..] == chunks[1..] + [c];
      ReadAllSnoc(codec, dir, disk, chunks[1..], c);
      var x, y, z := ReadChunk(codec, dir, disk, chunks[0]), ReadAll(codec, dir, disk, chunks[1..]), ReadChunk(codec, dir, disk, c);
      if x.Some? && y.Some? && z.Some? { assert x.value + (y.value + z.value) == (x.value + y.value) + z.value; }
    }
  }

  /** One unreadable chunk makes the file unreadable. */
  lemma {:induction false} ReadAllFails(codec: Codec, dir: map<int, int>, disk: map<int, string>, chunks: seq<Chunk>, k: nat)
    requires k < |chunks| && ReadChunk(codec, dir, disk, chunks[k]) == None
    ensures ReadAll(codec, dir, disk, chunks) == None
  {
    if k > 0 {
      ReadAllFails(codec, dir, disk, chunks[1..], k - 1);
    }
  }

  lemma {:induction false} ReadAllSame(codec: Codec, dir: map<int, int>, disk: map<int, string>,
                                       dir': map<int, int>, disk': map<int, string>, chunks: seq<Chunk>)
    requires forall c :: c in chunks ==> ReadChunk(codec, dir', disk', c) == ReadChunk(codec, dir, disk, c)
    ensures ReadAll(codec, dir', disk', chunks) == ReadAll(codec, dir, disk, chunks)
  {
    if chunks != [] {
      ReadAllSame(codec, dir, disk, dir', disk', chunks[1..]);
    }
  }

  ghost predicate GoodOutcome(cfg: Config, s: State, f: nat, c: nat)
    requires f < |cfg.files| && c < |cfg.files[f].live|
  {
    var r := Outcome(cfg, s.chunks, f, c);
    ReadNew(cfg, s, r) == Some(cfg.files[f].live[c]) && Printable(r)
  }

  /** The first `k` results read back as the first `k` live chunks. */
  lemma {:induction false} GoodOutcomesRead(cfg: Config, s: State, f: nat, k: nat)
    requires f < |cfg.files| && k <= |cfg.files[f].live|
    requires forall c: nat :: c < k ==> GoodOutcome(cfg, s, f, c)
    ensures ReadAll(cfg.codec, s.chunks.dir, s.chunks.disk, Outcomes(cfg, s.chunks, f, k)) == Some(Concat(cfg.files[f].live[..k]))
    ensures forall c :: c in Outcomes(cfg, s.chunks, f, k) ==> Printable(c)
  {
    var live := cfg.files[f].live;
    if k > 0 {
      GoodOutcomesRead(cfg, s, f, k - 1);
      assert GoodOutcome(cfg, s, f, k - 1);
      ReadAllSnoc(cfg.codec, s.chunks.dir, s.chunks.disk, Outcomes(cfg, s.chunks, f, k - 1), Outcome(cfg, s.chunks, f, k - 1));
      ConcatSnoc(live[..k - 1], live[k - 1]);
      assert live[..k] == live[..k - 1] + [live[k - 1]];
    }
  }

  lemma OutcomesRead(cfg: Config, s: State, f: nat)
    requires Hypotheses(cfg) && RunInv(cfg, s) && Fits(s) && f < |cfg.files| && !cfg.files[f].skip && s.job[f].Listed?
    ensures var r := Outcomes(cfg, s.chunks, f, |cfg.files[f].live|);
            && ReadAll(cfg.codec, s.chunks.dir, s.chunks.disk, r) == Some(Concat(cfg.files[f].live))
            && r != [] && forall c :: c in r ==> Printable(c)
  {
    var live := cfg.files[f].live;
    AllDone(cfg, s, f);
    forall c: nat | c < |live| ensures GoodOutcome(cfg, s, f, c) { OutcomeReads(cfg, s, f, c); }
    GoodOutcomesRead(cfg, s, f, |live|);
    assert live[..|live|] == live;
    assert SpecOK(cfg.files[f]);
  }

  predicate KeptChunk(cfg: Config, s: State, f: nat, c: nat)
    requires f < |cfg.files| && c < |cfg.files[f].live|
  {
    SameHash(cfg, f, c) && Outcome(cfg, s.chunks, f, c) == BaseChunks(cfg.files[f])[c]
  }

  lemma {:induction false} KeptPrefix(cfg: Config, s: State, f: nat, k: nat)
    requires f < |cfg.files| && k <= |cfg.files[f].live|
    requires forall c: nat :: c < k ==> KeptChunk(cfg, s, f, c)
    ensures k <= |BaseChunks(cfg.files[f])| && Outcomes(cfg, s.chunks, f, k) == BaseChunks(cfg.files[f])[..k]
  {
    if k > 0 {
      KeptPrefix(cfg, s, f, k - 1);
      assert KeptChunk(cfg, s, f, k - 1);
      var b := BaseChunks(cfg.files[f]);
      assert b[..k] == b[..k - 1] + [b[k - 1]];
    }
  }

  /** Kept chunks describe themselves as the base did; this is what justifies linking the base FInfo. */
  lemma KeptOutcomes(cfg: Config, s: State, f: nat)
    requires FilesInv(cfg, s) && f < |cfg.files| && !cfg.files[f].skip
    requires AllLinked(s.chunks, f, |cfg.files[f].live|)
    ensures var n := |cfg.files[f].live|;
            n <= |BaseChunks(cfg.files[f])| && Outcomes(cfg, s.chunks, f, n) == BaseChunks(cfg.files[f])[..n]
    ensures var spec := cfg.files[f];
            forall c :: 0 <= c < |spec.live| ==> c < |BaseChunks(spec)| && cfg.codec.hash(spec.live[c]) == BaseChunks(spec)[c].hash
  {
    var n, spec := |cfg.files[f].live|, cfg.files[f];
    assert FileInv(cfg, s, f);
    forall c: nat | c < n
      ensures KeptChunk(cfg, s, f, c) && c < |BaseChunks(spec)| && cfg.codec.hash(spec.live[c]) == BaseChunks(spec)[c].hash
    {
      assert ChunkInv(cfg, s, f, c) && PhaseOf(s.chunks, f, c).Linked?;
    }
    KeptPrefix(cfg, s, f, n);
  }

  function ReadEntry(cfg: Config, s: State, flag: char, idx: int): Option<string> {
    ReadFile(cfg.codec, s.chunks.dir, s.chunks.disk, s.finfos.dir, s.finfos.disk, flag, idx)
  }

  /** A linked FInfo block still lists the base chunks. */
  lemma LinkedFInfo(cfg: Config, s: State, f: nat)
    requires Hypotheses(cfg) && RunInv(cfg, s) && f < |cfg.files| && PhaseOf(s.finfos, f, 0).Linked?
    ensures BaseIdx(cfg.files[f]) >= 0
    ensures ReadFInfo(cfg.codec, s.finfos.dir, s.finfos.disk, BaseFlag(cfg.files[f]), BaseIdx(cfg.files[f]))
         == Some(BaseChunks(cfg.files[f]))
  {
    var cl := Claim(f, 0);
    assert cl in cfg.finfoBase.claims && cfg.finfoBase.claims[cl] == FInfoClaim(cfg.files[f]);
    assert PhaseInv(cfg.finfoBase, s.finfos, cl);
    LinkedBlock(cfg.finfoBase, s.finfos, cl);
    assert Trusted(cfg, f);
  }

  /** Equal stats mean equal content, so only an entry with data is skipped. */
  lemma SkippedHasFInfo(cfg: Config, f: nat)
    requires f < |cfg.files| && SpecOK(cfg.files[f]) && Trusted(cfg, f) && cfg.files[f].skip
    ensures BaseIdx(cfg.files[f]) >= 0
  {
    var live := cfg.files[f].live;
    assert Concat(live) == live[0] + Concat(live[1..]);
  }

  /** If stats mislead: a base directory or symbolic link with the file's size and time has no data, and neither
      has the new entry. */
  lemma SkippedWithoutData(cfg: Config, s: State, f: nat)
    requires FilesInv(cfg, s) && f < |cfg.files| && SpecOK(cfg.files[f]) && s.job[f].Listed?
    requires cfg.files[f].skip && BaseIdx(cfg.files[f]) < 0
    ensures ReadEntry(cfg, s, s.job[f].flag, s.job[f].idx) == Some("") && Concat(cfg.files[f].live) != ""
  {
    assert FileInv(cfg, s, f);
    assert Concat(cfg.files[f].live) == cfg.files[f].live[0] + Concat(cfg.files[f].live[1..]);
  }

  lemma SkippedReads(cfg: Config, s: State, f: nat)
    requires Hypotheses(cfg) && RunInv(cfg, s) && f < |cfg.files| && s.job[f].Listed? && cfg.files[f].skip
    ensures ReadEntry(cfg, s, s.job[f].flag, s.job[f].idx) == Some(Concat(cfg.files[f].live))
  {
    SkippedFacts(cfg, s, f);
    ReadAllSame(cfg.codec, cfg.chunkBase.dir, cfg.chunkBase.disk, s.chunks.dir, s.chunks.disk, BaseChunks(cfg.files[f]));
    assert Trusted(cfg, f);
  }

  lemma SkippedFacts(cfg: Config, s: State, f: nat)
    requires Hypotheses(cfg) && RunInv(cfg, s) && f < |cfg.files| && s.job[f].Listed? && cfg.files[f].skip
    ensures ReadFInfo(cfg.codec, s.finfos.dir, s.finfos.disk, s.job[f].flag, s.job[f].idx) == Some(BaseChunks(cfg.files[f]))
    ensures forall c :: c in BaseChunks(cfg.files[f]) ==> ReadNew(cfg, s, c) == BaseRead(cfg, c)
  {
    var b := BaseChunks(cfg.files[f]);
    assert FileInv(cfg, s, f);
    SkippedHasFInfo(cfg, f);
    LinkedFInfo(cfg, s, f);
    forall c | c in b ensures ReadNew(cfg, s, c) == BaseRead(cfg, c) {
      var k :| 0 <= k < |b| && b[k] == c;
      LinkedReads(cfg, s, f, k);
    }
  }

  lemma AllDone(cfg: Config, s: State, f: nat)
    requires FilesInv(cfg, s) && f < |cfg.files| && s.job[f].Listed? && !cfg.files[f].skip
    ensures forall c: nat :: c < |cfg.files[f].live| ==> Done(PhaseOf(s.chunks, f, c))
  {
    assert FileInv(cfg, s, f);
    forall c: nat | c < |cfg.files[f].live| ensures Done(PhaseOf(s.chunks, f, c)) {
      assert ChunkInv(cfg, s, f, c);
    }
  }

  /** Every chunk was kept and the base FInfo linked: the file reads back unless the base list is longer. */
  lemma KeptReads(cfg: Config, s: State, f: nat)
    requires Hypotheses(cfg) && RunInv(cfg, s) && Fits(s) && f < |cfg.files|
    requires s.job[f].Listed? && !cfg.files[f].skip && s.job[f].keep
    ensures ReadEntry(cfg, s, s.job[f].flag, s.job[f].idx)
         == if Truncated(cfg, f) then None else Some(Concat(cfg.files[f].live))
  {
    var n, b := |cfg.files[f].live|, BaseChunks(cfg.files[f]);
    KeptFacts(cfg, s, f);
    OutcomesRead(cfg, s, f);
    if n < |b| {
      MissingChunk(cfg, s, f, n);
      ReadAllFails(cfg.codec, s.chunks.dir, s.chunks.disk, b, n);
    } else {
      assert b[..n] == b;
    }
  }

  lemma KeptFacts(cfg: Config, s: State, f: nat)
    requires Hypotheses(cfg) && RunInv(cfg, s) && f < |cfg.files|
    requires s.job[f].Listed? && !cfg.files[f].skip && s.job[f].keep
    ensures var n, b := |cfg.files[f].live|, BaseChunks(cfg.files[f]);
            && n <= |b| && Outcomes(cfg, s.chunks, f, n) == b[..n]
            && (Truncated(cfg, f) <==> n < |b|)
            && ReadFInfo(cfg.codec, s.finfos.dir, s.finfos.disk, s.job[f].flag, s.job[f].idx) == Some(b)
  {
    assert FileInv(cfg, s, f);
    assert SpecOK(cfg.files[f]);
    KeptOutcomes(cfg, s, f);
    LinkedFInfo(cfg, s, f);
  }

  /** A base chunk beyond the live file is not in the new archive. */
  lemma MissingChunk(cfg: Config, s: State, f: nat, c: nat)
    requires Setup(cfg) && RunInv(cfg, s) && f < |cfg.files| && s.job[f].Listed? && !cfg.files[f].skip
    requires |cfg.files[f].live| <= c < |BaseChunks(cfg.files[f])|
    ensures ReadNew(cfg, s, BaseChunks(cfg.files[f])[c]) == None
  {
    var cl := Claim(f, c);
    assert FileInv(cfg, s, f);
    assert PhaseOf(s.chunks, f, c) == Waiting;
    assert Place(cfg, cl.file, cl.part);
    assert cfg.chunkBase.claims[cl] == ChunkClaim(cfg.files[f], c);
    WaitingBlock(cfg.chunkBase, s.chunks, cl);
  }

  /** A new FInfo was written: the file reads back unless the entry's flag is stale. */
  lemma RewrittenReads(cfg: Config, s: State, f: nat)
    requires Hypotheses(cfg) && RunInv(cfg, s) && Fits(s) && f < |cfg.files|
    requires s.job[f].Listed? && !cfg.files[f].skip && !s.job[f].keep
    ensures ReadEntry(cfg, s, s.job[f].flag, s.job[f].idx)
         == if StaleFlag(cfg, f, s.job[f]) then None else Some(Concat(cfg.files[f].live))
    ensures !StaleFlag(cfg, f, s.job[f]) ==>
              ReadFInfo(cfg.codec, s.finfos.dir, s.finfos.disk, s.job[f].flag, s.job[f].idx)
              == Some(Outcomes(cfg, s.chunks, f, |cfg.files[f].live|))
  {
    var j, r := s.job[f], Outcomes(cfg, s.chunks, f, |cfg.files[f].live|);
    RewrittenFacts(cfg, s, f);
    OutcomesRead(cfg, s, f);
    ReadWritten(cfg, s, j, BaseFlag(cfg.files[f]), r);
  }

  lemma ReadWritten(cfg: Config, s: State, j: Job, inherited: char, r: seq<Chunk>)
    requires CodecOK(cfg.codec) && j.Listed? && Flag(inherited)
    requires j.idx >= 0 && ReadBlock(s.finfos.dir, s.finfos.disk, j.idx) == Some(Packed(cfg, j.text).1)
    requires j.flag == if Packed(cfg, j.text).0 == COMPRESSED then COMPRESSED else inherited
    requires j.text == FInfoText(r) && r != [] && forall c :: c in r ==> Printable(c)
    ensures ReadFInfo(cfg.codec, s.finfos.dir, s.finfos.disk, j.flag, j.idx)
         == if inherited == COMPRESSED && Packed(cfg, j.text).0 == UNCOMPRESSED then None else Some(r)
  {
    FInfoRoundTrip(r);
    TextStartsWithFlag(r);
    UnpackListed(cfg, j.text, inherited, j.flag);
  }

  lemma RewrittenFacts(cfg: Config, s: State, f: nat)
    requires Hypotheses(cfg) && RunInv(cfg, s) && f < |cfg.files|
    requires s.job[f].Listed? && !cfg.files[f].skip && !s.job[f].keep
    ensures var j := s.job[f];
            && j.idx >= 0 && ReadBlock(s.finfos.dir, s.finfos.disk, j.idx) == Some(Packed(cfg, j.text).1)
            && j.flag == (if Packed(cfg, j.text).0 == COMPRESSED then COMPRESSED else BaseFlag(cfg.files[f]))
            && j.text == FInfoText(Outcomes(cfg, s.chunks, f, |cfg.files[f].live|))
            && Flag(BaseFlag(cfg.files[f]))
  {
    assert FileInv(cfg, s, f);
    assert Trusted(cfg, f);
    WrittenBlock(cfg.finfoBase, s.finfos, Claim(f, 0));
  }

  lemma TextStartsWithFlag(chunks: seq<Chunk>)
    requires chunks != [] && forall c :: c in chunks ==> Printable(c)
    ensures FInfoStart(FInfoText(chunks))
  {
    assert Printable(chunks[0]);
  }

  lemma UnpackListed(cfg: Config, text: string, inherited: char, flag: char)
    requires CodecOK(cfg.codec) && FInfoStart(text) && Flag(inherited)
    requires flag == if Packed(cfg, text).0 == COMPRESSED then COMPRESSED else inherited
    ensures Unpack(cfg.codec, flag, Packed(cfg, text).1)
         == if inherited == COMPRESSED && Packed(cfg, text).0 == UNCOMPRESSED then None else Some(text)
  {
  }

  /** A listed file reads back as the live file, exactly when it is neither truncated nor under a stale flag.
      `keep` and `text` are those of the finished job. */
  lemma ReadsBackExactly(cfg: Config, run: seq<State>, k: nat, f: nat)
    requires Hypotheses(cfg) && CreateRuns.Run(cfg, run) && k < |run| && f < |cfg.files|
    requires |run[k].job| == |cfg.files| && run[k].job[f].Listed? && Fits(run[k])
    ensures var j := run[k].job[f];
            ReadEntry(cfg, run[k], j.flag, j.idx) == Some(Concat(cfg.files[f].live))
            <==> !Truncated(cfg, f) && !StaleFlag(cfg, f, j)
  {
    var s := run[k];
    CreateRuns.RunKeepsInv(cfg, run, k);
    if cfg.files[f].skip {
      assert FileInv(cfg, s, f);
      SkippedReads(cfg, s, f);
    } else if s.job[f].keep {
      KeptReads(cfg, s, f);
    } else {
      RewrittenReads(cfg, s, f);
      NotTruncated(cfg, s, f);
    }
  }

  lemma NotTruncated(cfg: Config, s: State, f: nat)
    requires FilesInv(cfg, s) && f < |cfg.files| && s.job[f].Listed? && !cfg.files[f].skip && !s.job[f].keep
    ensures !Truncated(cfg, f)
  {
    assert FileInv(cfg, s, f);
    AllDone(cfg, s, f);
    var c :| 0 <= c < |cfg.files[f].live| && !PhaseOf(s.chunks, f, c).Linked?;
    assert ChunkInv(cfg, s, f, c);
  }

  /** No live chunk differs from the base chunk at its place. */
  predicate Unchanged(cfg: Config, f: nat)
    requires f < |cfg.files|
  {
    var live, b := cfg.files[f].live, BaseChunks(cfg.files[f]);
    forall c :: 0 <= c < |live| ==> c < |b| && cfg.codec.hash(live[c]) == b[c].hash
  }

  /** Whether the base FInfo is kept does not depend on the interleaving. */
  lemma KeepExactly(cfg: Config, s: State, f: nat)
    requires FilesInv(cfg, s) && f < |cfg.files| && s.job[f].Listed?
    ensures s.job[f].keep <==> cfg.files[f].skip || Unchanged(cfg, f)
  {
    assert FileInv(cfg, s, f);
    if !cfg.files[f].skip {
      AllDone(cfg, s, f);
      var live, b := cfg.files[f].live, BaseChunks(cfg.files[f]);
      forall c: nat | c < |live|
        ensures PhaseOf(s.chunks, f, c).Linked? <==> c < |b| && cfg.codec.hash(live[c]) == b[c].hash
      {
        assert ChunkInv(cfg, s, f, c) && Done(PhaseOf(s.chunks, f, c));
      }
    }
  }

  /** The fate of each chunk of a file that was read, whatever the base and the interleaving: it is the base block if
      and only if the base has a chunk of the same hash at its place; otherwise it is written anew, compressed if that
      makes it shorter. */
  lemma ChunkFate(cfg: Config, run: seq<State>, k: nat, f: nat, c: nat)
    requires ClaimsMatch(cfg) && CreateRuns.Run(cfg, run) && k < |run| && f < |cfg.files| && c < |cfg.files[f].live|
    requires |run[k].job| == |cfg.files| && run[k].job[f].Listed? && !cfg.files[f].skip
    ensures var spec, p := cfg.files[f], PhaseOf(run[k].chunks, f, c);
            var live, zip := spec.live[c], cfg.codec.zip(spec.live[c]);
            if spec.base.Some? && c < |spec.base.value.chunks| && cfg.codec.hash(live) == spec.base.value.chunks[c].hash
            then p == Linked(spec.base.value.chunks[c].idx)
            else p.Written? && p.data == if cfg.compress && |zip| < |live| then zip else live
  {
    RunKeepsFiles(cfg, run, k);
    DoneAsDecided(cfg, run[k], f, c);
  }

  lemma DoneAsDecided(cfg: Config, s: State, f: nat, c: nat)
    requires FilesInv(cfg, s) && f < |cfg.files| && c < |cfg.files[f].live| && s.job[f].Listed? && !cfg.files[f].skip
    ensures var p := PhaseOf(s.chunks, f, c);
            if SameHash(cfg, f, c) then p == Linked(BaseChunks(cfg.files[f])[c].idx)
            else p.Written? && p.data == Packed(cfg, cfg.files[f].live[c]).1
  {
    AllDone(cfg, s, f);
    assert FileInv(cfg, s, f);
    assert ChunkInv(cfg, s, f, c);
  }

  /** A skipped file keeps every base chunk. */
  lemma SkippedFate(cfg: Config, run: seq<State>, k: nat, f: nat, c: nat)
    requires ClaimsMatch(cfg) && CreateRuns.Run(cfg, run) && k < |run| && f < |cfg.files|
    requires |run[k].job| == |cfg.files| && run[k].job[f].Listed? && cfg.files[f].skip
    requires cfg.files[f].base.Some? && c < |cfg.files[f].base.value.chunks|
    ensures PhaseOf(run[k].chunks, f, c) == Linked(cfg.files[f].base.value.chunks[c].idx)
  {
    RunKeepsFiles(cfg, run, k);
    assert FileInv(cfg, run[k], f);
    assert ChunkInv(cfg, run[k], f, c);
  }

  /** The fate of the FInfo: the base block if nothing differs, otherwise the new text, compressed if that is shorter.
      A new text sets the entry's flag only if it was compressed. */
  lemma FInfoFate(cfg: Config, run: seq<State>, k: nat, f: nat)
    requires ClaimsMatch(cfg) && CreateRuns.Run(cfg, run) && k < |run| && f < |cfg.files|
    requires |run[k].job| == |cfg.files| && run[k].job[f].Listed?
    ensures var spec, j, p := cfg.files[f], run[k].job[f], PhaseOf(run[k].finfos, f, 0);
            var flag := if spec.base.Some? then spec.base.value.flag else 'U';
            var zip := cfg.codec.zip(j.text);
            if spec.skip || Unchanged(cfg, f)
            then j.flag == flag && j.idx == BaseIdx(spec) && (j.idx >= 0 ==> p.Linked?)
            else if cfg.compress && |zip| < |j.text| then p == Written(j.idx, zip) && j.flag == 'C'
            else p == Written(j.idx, j.text) && j.flag == flag
  {
    RunKeepsFiles(cfg, run, k);
    KeepExactly(cfg, run[k], f);
    assert FileInv(cfg, run[k], f);
  }

  /** A chunk list that the live chunks could be recorded as; flags and indices are up to compression and allocator. */
  predicate Recordable(cfg: Config, f: nat, rs: seq<Chunk>)
    requires f < |cfg.files|
  {
    var live := cfg.files[f].live;
    |rs| == |live| && forall c :: 0 <= c < |rs| ==> rs[c].hash == cfg.codec.hash(live[c]) && Printable(rs[c])
  }

  /** Every possible FInfo text of the file compresses, or none does. */
  ghost predicate Compresses(cfg: Config, f: nat, yes: bool)
    requires f < |cfg.files|
  {
    forall rs :: Recordable(cfg, f, rs) ==>
      (cfg.compress && |cfg.codec.zip(FInfoText(rs))| < |FInfoText(rs)|) == yes
  }

  /** What can be seen before the run: the file will be read back. */
  ghost predicate SurelyKept(cfg: Config, f: nat)
    requires f < |cfg.files|
  {
    && !Truncated(cfg, f)
    && (|| cfg.files[f].skip || Unchanged(cfg, f) || BaseFlag(cfg.files[f]) != COMPRESSED || Compresses(cfg, f, true))
  }

  /** What can be seen before the run: the file will be lost. */
  ghost predicate SurelyLost(cfg: Config, f: nat)
    requires f < |cfg.files|
  {
    || Truncated(cfg, f)
    || (&& !cfg.files[f].skip && !Unchanged(cfg, f)
        && BaseFlag(cfg.files[f]) == COMPRESSED && Compresses(cfg, f, false))
  }

  lemma {:induction false} OutcomeHashes(cfg: Config, s: Store, f: nat, k: nat)
    requires f < |cfg.files| && k <= |cfg.files[f].live|
    requires forall c: nat :: c < k ==> Done(PhaseOf(s, f, c))
    ensures forall c :: 0 <= c < k ==> Outcomes(cfg, s, f, k)[c].hash == cfg.codec.hash(cfg.files[f].live[c])
  {
    if k > 0 {
      OutcomeHashes(cfg, s, f, k - 1);
    }
  }

  lemma OutcomesRecordable(cfg: Config, s: State, f: nat)
    requires Hypotheses(cfg) && RunInv(cfg, s) && Fits(s) && f < |cfg.files| && !cfg.files[f].skip && s.job[f].Listed?
    ensures Recordable(cfg, f, Outcomes(cfg, s.chunks, f, |cfg.files[f].live|))
  {
    AllDone(cfg, s, f);
    OutcomeHashes(cfg, s.chunks, f, |cfg.files[f].live|);
    OutcomesRead(cfg, s, f);
  }

  /** Whether the flag ends up stale, from what can be seen before the run. */
  lemma StaleFromInputs(cfg: Config, s: State, f: nat)
    requires Hypotheses(cfg) && RunInv(cfg, s) && Fits(s) && f < |cfg.files| && s.job[f].Listed?
    ensures SurelyKept(cfg, f) ==> !StaleFlag(cfg, f, s.job[f])
    ensures SurelyLost(cfg, f) ==> Truncated(cfg, f) || StaleFlag(cfg, f, s.job[f])
  {
    KeepExactly(cfg, s, f);
    if !s.job[f].keep {
      RewrittenFacts(cfg, s, f);
      OutcomesRecordable(cfg, s, f);
    }
  }

  /** The same condition on the inputs alone, for every interleaving: such a file is read back, such a file is lost.
      In between, some texts the FInfo can have compress and others do not, and the interleaving decides which one
      it gets. */
  lemma ReadsBackFromInputs(cfg: Config, run: seq<State>, k: nat, f: nat)
    requires Hypotheses(cfg) && CreateRuns.Run(cfg, run) && k < |run| && f < |cfg.files|
    requires |run[k].job| == |cfg.files| && run[k].job[f].Listed? && Fits(run[k])
    ensures var read := ReadEntry(cfg, run[k], run[k].job[f].flag, run[k].job[f].idx);
            && (SurelyKept(cfg, f) ==> read == Some(Concat(cfg.files[f].live)))
            && (SurelyLost(cfg, f) ==> read != Some(Concat(cfg.files[f].live)))
  {
    CreateRuns.RunKeepsInv(cfg, run, k);
    ReadsBackExactly(cfg, run, k, f);
    StaleFromInputs(cfg, run[k], f);
  }
}
