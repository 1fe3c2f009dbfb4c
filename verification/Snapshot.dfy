/** Archives as a whole: what makes one well-formed, that `DoTest` then has nothing to complain about (Archive.cpp),
    and that a create run from a well-formed base yields a well-formed archive. */
module Snapshots {
  import opened Common
  import opened Numbers
  import opened FInfos
  import opened LiveFiles
  import opened BlockStores
  import opened CreateRuns
  import opened ReadBacks

  /** One FInfo index of an archive: flag and index as in the list, and what they stand for. */
  datatype Member = Member(flag: char, idx: int, chunks: seq<Chunk>, content: string)

  datatype Snapshot = Snapshot(chunkDir: map<int, int>, finfoDir: map<int, int>, members: seq<Member>)

  const NO_BASE := Snapshot(map[], map[], [])

  ghost predicate MemberOK(codec: Codec, sn: Snapshot, chunkDisk: map<int, string>, finfoDisk: map<int, string>, m: Member) {
    && Flag(m.flag)
    && ReadFInfo(codec, sn.finfoDir, finfoDisk, m.flag, m.idx) == Some(m.chunks)
    && ReadAll(codec, sn.chunkDir, chunkDisk, m.chunks) == Some(m.content)
    && forall c :: c in m.chunks ==> Flag(c.flag)
  }

  /** Position `i` of member `a` is a chunk position. */
  predicate HasChunk(sn: Snapshot, a: nat, i: nat) { a < |sn.members| && i < |sn.members[a].chunks| }

  function ChunkAt(sn: Snapshot, a: nat, i: nat): int
    requires HasChunk(sn, a, i)
  {
    sn.members[a].chunks[i].idx
  }

  /** Different members have different FInfo indices, and no chunk index is listed twice. */
  ghost predicate Distinct(sn: Snapshot) {
    && (forall a: nat, b: nat :: a < |sn.members| && b < |sn.members| && sn.members[a].idx == sn.members[b].idx ==> a == b)
    && (forall a: nat, i: nat, b: nat, j: nat :: HasChunk(sn, a, i) && HasChunk(sn, b, j) && ChunkAt(sn, a, i) == ChunkAt(sn, b, j)
          ==> a == b && i == j)
  }

  /** The block files on disk are exactly those that the list leads to. */
  ghost predicate Exact(sn: Snapshot) {
    && (forall i :: i in sn.finfoDir <==> i >= 0 && exists a: nat :: a < |sn.members| && sn.members[a].idx == i)
    && (forall i :: i in sn.chunkDir <==> exists a: nat, k: nat :: HasChunk(sn, a, k) && ChunkAt(sn, a, k) == i)
  }

  ghost predicate Inodes(dir: map<int, int>, disk: map<int, string>) { forall i :: i in dir ==> dir[i] in disk }

  ghost predicate SnapshotOK(codec: Codec, sn: Snapshot, chunkDisk: map<int, string>, finfoDisk: map<int, string>) {
    && Inodes(sn.chunkDir, chunkDisk) && Inodes(sn.finfoDir, finfoDisk)
    && Distinct(sn) && Exact(sn)
    && forall a: nat :: a < |sn.members| ==> MemberOK(codec, sn, chunkDisk, finfoDisk, sn.members[a])
  }

  /** `DoTest`: every entry's chunks are read and hashed; every block file found must have been used. */
  ghost predicate TestsClean(codec: Codec, chunkDir: map<int, int>, chunkDisk: map<int, string>,
                             finfoDir: map<int, int>, finfoDisk: map<int, string>, entries: seq<(char, int)>) {
    && (forall e :: e in entries ==>
          var r := ReadFInfo(codec, finfoDir, finfoDisk, e.0, e.1);
          r.Some? && forall c :: c in r.value ==> ReadChunk(codec, chunkDir, chunkDisk, c).Some?)
    && (forall i :: i in finfoDir ==> exists e :: e in entries && e.1 == i)
    && (forall i :: i in chunkDir ==> exists e, c :: e in entries && LeadsTo(codec, finfoDir, finfoDisk, e, c) && c.idx == i)
  }

  ghost predicate LeadsTo(codec: Codec, finfoDir: map<int, int>, finfoDisk: map<int, string>, e: (char, int), c: Chunk) {
    var r := ReadFInfo(codec, finfoDir, finfoDisk, e.0, e.1);
    r.Some? && c in r.value
  }

  function Entries(sn: Snapshot): seq<(char, int)> {
    seq(|sn.members|, a requires 0 <= a < |sn.members| => (sn.members[a].flag, sn.members[a].idx))
  }

  lemma {:induction false} ReadAllReadsEach(codec: Codec, dir: map<int, int>, disk: map<int, string>, chunks: seq<Chunk>)
    requires ReadAll(codec, dir, disk, chunks).Some?
    ensures forall c :: c in chunks ==> ReadChunk(codec, dir, disk, c).Some?
  {
    if chunks != [] {
      ReadAllReadsEach(codec, dir, disk, chunks[1..]);
    }
  }

  lemma OKTestsClean(codec: Codec, sn: Snapshot, chunkDisk: map<int, string>, finfoDisk: map<int, string>)
    requires SnapshotOK(codec, sn, chunkDisk, finfoDisk)
    ensures TestsClean(codec, sn.chunkDir, chunkDisk, sn.finfoDir, finfoDisk, Entries(sn))
  {
    var es := Entries(sn);
    forall a: nat | a < |sn.members|
      ensures var m := sn.members[a]; es[a] in es && es[a] == (m.flag, m.idx)
      ensures ReadFInfo(codec, sn.finfoDir, finfoDisk, es[a].0, es[a].1) == Some(sn.members[a].chunks)
      ensures forall c :: c in sn.members[a].chunks ==> ReadChunk(codec, sn.chunkDir, chunkDisk, c).Some?
    {
      assert MemberOK(codec, sn, chunkDisk, finfoDisk, sn.members[a]);
      ReadAllReadsEach(codec, sn.chunkDir, chunkDisk, sn.members[a].chunks);
    }
    forall i | i in sn.finfoDir ensures exists e :: e in es && e.1 == i {
      var a: nat :| a < |sn.members| && sn.members[a].idx == i;
      assert es[a] in es && es[a].1 == i;
    }
    forall i | i in sn.chunkDir
      ensures exists e, c :: e in es && LeadsTo(codec, sn.finfoDir, finfoDisk, e, c) && c.idx == i
    {
      var a: nat, k: nat :| HasChunk(sn, a, k) && ChunkAt(sn, a, k) == i;
      assert es[a] in es && LeadsTo(codec, sn.finfoDir, finfoDisk, es[a], sn.members[a].chunks[k]);
    }
  }

  /** More inodes, the old ones unchanged. */
  ghost predicate Grows(disk: map<int, string>, disk': map<int, string>) {
    forall n :: n in disk ==> n in disk' && disk'[n] == disk[n]
  }

  lemma BlockStays(dir: map<int, int>, disk: map<int, string>, disk': map<int, string>, idx: int)
    requires Inodes(dir, disk) && Grows(disk, disk')
    ensures ReadBlock(dir, disk', idx) == ReadBlock(dir, disk, idx)
  {
    if idx in dir {
      var n := dir[idx];
      assert n in disk;
      assert n in disk' && disk'[n] == disk[n];
    }
  }

  lemma MemberSurvives(codec: Codec, sn: Snapshot, chunkDisk: map<int, string>, finfoDisk: map<int, string>,
                       chunkDisk': map<int, string>, finfoDisk': map<int, string>, m: Member)
    requires Inodes(sn.chunkDir, chunkDisk) && Inodes(sn.finfoDir, finfoDisk)
    requires Grows(chunkDisk, chunkDisk') && Grows(finfoDisk, finfoDisk')
    requires MemberOK(codec, sn, chunkDisk, finfoDisk, m)
    ensures MemberOK(codec, sn, chunkDisk', finfoDisk', m)
  {
    BlockStays(sn.finfoDir, finfoDisk, finfoDisk', m.idx);
    forall c | c in m.chunks ensures ReadChunk(codec, sn.chunkDir, chunkDisk', c) == ReadChunk(codec, sn.chunkDir, chunkDisk, c) {
      BlockStays(sn.chunkDir, chunkDisk, chunkDisk', c.idx);
    }
    ReadAllSame(codec, sn.chunkDir, chunkDisk, sn.chunkDir, chunkDisk', m.chunks);
  }

  lemma InodesStay(dir: map<int, int>, disk: map<int, string>, disk': map<int, string>)
    requires Inodes(dir, disk) && Grows(disk, disk')
    ensures Inodes(dir, disk')
  {
    forall i | i in dir ensures dir[i] in disk' {
      var n := dir[i];
      assert n in disk;
    }
  }

  /** An archive does not notice what is written into fresh inodes. */
  lemma SnapshotSurvives(codec: Codec, sn: Snapshot, chunkDisk: map<int, string>, finfoDisk: map<int, string>,
                         chunkDisk': map<int, string>, finfoDisk': map<int, string>)
    requires SnapshotOK(codec, sn, chunkDisk, finfoDisk) && Grows(chunkDisk, chunkDisk') && Grows(finfoDisk, finfoDisk')
    ensures SnapshotOK(codec, sn, chunkDisk', finfoDisk')
  {
    InodesStay(sn.chunkDir, chunkDisk, chunkDisk');
    InodesStay(sn.finfoDir, finfoDisk, finfoDisk');
    forall a: nat | a < |sn.members| ensures MemberOK(codec, sn, chunkDisk', finfoDisk', sn.members[a]) {
      MemberSurvives(codec, sn, chunkDisk, finfoDisk, chunkDisk', finfoDisk', sn.members[a]);
    }
  }

  /** The run starts from archive `sn`; file `f` finds the list entry of member `pick[f]`, or none.
      No two `Create` calls find entries of one FInfo index, which a split base hard link would cause. */
  ghost predicate Draws(cfg: Config, sn: Snapshot, chunkDisk: map<int, string>, finfoDisk: map<int, string>, pick: seq<Option<nat>>) {
    && cfg.chunkBase.dir == sn.chunkDir && cfg.chunkBase.disk == chunkDisk
    && cfg.finfoBase.dir == sn.finfoDir && cfg.finfoBase.disk == finfoDisk
    && ClaimsMatch(cfg) && |pick| == |cfg.files|
    && (forall f: nat :: f < |pick| ==> DrawsOne(cfg.files[f], sn, pick[f]))
    && (forall f: nat, g: nat :: f < |pick| && g < |pick| && pick[f].Some? && pick[f] == pick[g] && HasFInfo(sn, pick[f].value) ==> f == g)
  }

  predicate HasFInfo(sn: Snapshot, a: nat) { a < |sn.members| && sn.members[a].idx >= 0 }

  /** A file that picks no member has no base entry, or that of a directory or symbolic link. */
  predicate DrawsOne(spec: FileSpec, sn: Snapshot, pick: Option<nat>) {
    && spec.live != [] && spec.live[0] != ""
    && match pick
       case None => (spec.base == None || spec.base == Some(BaseFile(INT64_MIN, UNCOMPRESSED, []))) && !spec.skip
       case Some(a) =>
         a < |sn.members| && spec.base == Some(BaseFile(sn.members[a].idx, sn.members[a].flag, sn.members[a].chunks))
  }

  /** What the run may believe about one file: stats that match mean content that matches, and so do hashes. */
  ghost predicate Believes(cfg: Config, sn: Snapshot, pick: seq<Option<nat>>, f: nat)
    requires f < |cfg.files| && f < |pick|
  {
    pick[f].Some? && pick[f].value < |sn.members| ==>
      var m, spec := sn.members[pick[f].value], cfg.files[f];
      && (spec.skip ==> m.content == Concat(spec.live))
      && (forall c: nat :: c < |spec.live| && c < |m.chunks| && cfg.codec.hash(spec.live[c]) == m.chunks[c].hash ==>
            BaseRead(cfg, m.chunks[c]) == Some(spec.live[c]))
  }

  ghost predicate BasedOn(cfg: Config, sn: Snapshot, chunkDisk: map<int, string>, finfoDisk: map<int, string>, pick: seq<Option<nat>>) {
    && Draws(cfg, sn, chunkDisk, finfoDisk, pick)
    && forall f: nat :: f < |pick| ==> Believes(cfg, sn, pick, f)
  }

  lemma PickedMember(cfg: Config, sn: Snapshot, chunkDisk: map<int, string>, finfoDisk: map<int, string>,
                     pick: seq<Option<nat>>, f: nat)
    requires SnapshotOK(cfg.codec, sn, chunkDisk, finfoDisk) && BasedOn(cfg, sn, chunkDisk, finfoDisk, pick) && f < |cfg.files|
    ensures SpecOK(cfg.files[f]) && Trusted(cfg, f)
  {
    assert DrawsOne(cfg.files[f], sn, pick[f]) && Believes(cfg, sn, pick, f);
    if pick[f].Some? {
      var m := sn.members[pick[f].value];
      assert MemberOK(cfg.codec, sn, chunkDisk, finfoDisk, m);
      ReadAllReadsEach(cfg.codec, sn.chunkDir, chunkDisk, m.chunks);
    }
  }

  lemma ChunkClaimsDisjoint(cfg: Config, sn: Snapshot, chunkDisk: map<int, string>, finfoDisk: map<int, string>, pick: seq<Option<nat>>)
    requires SnapshotOK(cfg.codec, sn, chunkDisk, finfoDisk) && BasedOn(cfg, sn, chunkDisk, finfoDisk, pick)
    ensures Disjoint(cfg.chunkBase)
  {
    var b := cfg.chunkBase;
    forall c | c in b.claims && b.claims[c].Some?
      ensures c.file < |pick| && pick[c.file].Some? && HasChunk(sn, pick[c.file].value, c.part)
      ensures b.claims[c].value == ChunkAt(sn, pick[c.file].value, c.part) && b.claims[c].value in b.dir
    {
      assert Place(cfg, c.file, c.part);
      assert b.claims[c] == ChunkClaim(cfg.files[c.file], c.part);
      assert DrawsOne(cfg.files[c.file], sn, pick[c.file]);
    }
    forall c, d | c in b.claims && d in b.claims && b.claims[c].Some? && b.claims[c] == b.claims[d] ensures c == d {
      assert ChunkAt(sn, pick[c.file].value, c.part) == ChunkAt(sn, pick[d.file].value, d.part);
    }
  }

  lemma FInfoClaimIsMember(cfg: Config, sn: Snapshot, chunkDisk: map<int, string>, finfoDisk: map<int, string>,
                           pick: seq<Option<nat>>, c: Claim)
    requires SnapshotOK(cfg.codec, sn, chunkDisk, finfoDisk) && BasedOn(cfg, sn, chunkDisk, finfoDisk, pick)
    requires c in cfg.finfoBase.claims && cfg.finfoBase.claims[c].Some?
    ensures c.part == 0 && c.file < |pick| && pick[c.file].Some? && HasFInfo(sn, pick[c.file].value)
    ensures cfg.finfoBase.claims[c].value == sn.members[pick[c.file].value].idx && cfg.finfoBase.claims[c].value in cfg.finfoBase.dir
  {
    assert cfg.finfoBase.claims[c] == FInfoClaim(cfg.files[c.file]);
    assert DrawsOne(cfg.files[c.file], sn, pick[c.file]);
  }

  lemma FInfoClaimsDisjoint(cfg: Config, sn: Snapshot, chunkDisk: map<int, string>, finfoDisk: map<int, string>, pick: seq<Option<nat>>)
    requires SnapshotOK(cfg.codec, sn, chunkDisk, finfoDisk) && BasedOn(cfg, sn, chunkDisk, finfoDisk, pick)
    ensures Disjoint(cfg.finfoBase)
  {
    var b := cfg.finfoBase;
    forall c | c in b.claims && b.claims[c].Some? ensures b.claims[c].value in b.dir {
      FInfoClaimIsMember(cfg, sn, chunkDisk, finfoDisk, pick, c);
    }
    forall c, d | c in b.claims && d in b.claims && b.claims[c].Some? && b.claims[c] == b.claims[d] ensures c == d {
      FInfoClaimIsMember(cfg, sn, chunkDisk, finfoDisk, pick, c);
      FInfoClaimIsMember(cfg, sn, chunkDisk, finfoDisk, pick, d);
      assert pick[c.file] == pick[d.file];
    }
  }

  /** A well-formed base gives a create run all it relies on. */
  lemma BaseGivesHypotheses(cfg: Config, sn: Snapshot, chunkDisk: map<int, string>, finfoDisk: map<int, string>, pick: seq<Option<nat>>)
    requires CodecOK(cfg.codec)
    requires SnapshotOK(cfg.codec, sn, chunkDisk, finfoDisk) && BasedOn(cfg, sn, chunkDisk, finfoDisk, pick)
    ensures Hypotheses(cfg)
  {
    ChunkClaimsDisjoint(cfg, sn, chunkDisk, finfoDisk, pick);
    FInfoClaimsDisjoint(cfg, sn, chunkDisk, finfoDisk, pick);
    forall f: nat | f < |cfg.files| ensures SpecOK(cfg.files[f]) && Trusted(cfg, f) {
      PickedMember(cfg, sn, chunkDisk, finfoDisk, pick, f);
    }
  }

  /** What a finished run wrote down for file `f`. */
  function ChunksOf(cfg: Config, s: State, f: nat): seq<Chunk>
    requires f < |cfg.files| && f < |s.job|
  {
    if s.job[f].Listed? && s.job[f].keep then BaseChunks(cfg.files[f])
    else Outcomes(cfg, s.chunks, f, |cfg.files[f].live|)
  }

  /** Every file is listed: the archive counts as finished, even if not all of it can be read. */
  predicate Ended(cfg: Config, s: State) {
    |s.job| == |cfg.files| && forall f: nat :: f < |cfg.files| ==> s.job[f].Listed?
  }

  /** Every file is listed, none of them truncated or under a stale flag. */
  ghost predicate Finished(cfg: Config, s: State) {
    && |s.job| == |cfg.files|
    && forall f: nat :: f < |cfg.files| ==> s.job[f].Listed? && !Truncated(cfg, f) && !StaleFlag(cfg, f, s.job[f])
  }

  function MemberOf(cfg: Config, s: State, f: nat): Member
    requires f < |cfg.files| && f < |s.job| && s.job[f].Listed?
  {
    Member(s.job[f].flag, s.job[f].idx, ChunksOf(cfg, s, f), Concat(cfg.files[f].live))
  }

  /** Empty files, fifos and sockets count down from -2 and own no block. */
  function ZeroMember(k: nat): Member { Member(UNCOMPRESSED, -2 - k, [], "") }

  function NewSnapshot(cfg: Config, s: State, zeros: nat): Snapshot
    requires Ended(cfg, s)
  {
    Snapshot(s.chunks.dir, s.finfos.dir,
             seq(|cfg.files|, f requires 0 <= f < |cfg.files| => MemberOf(cfg, s, f)) + seq(zeros, k requires 0 <= k => ZeroMember(k)))
  }

  /** Each chunk of a finished file is the block its claim ended on. */
  lemma ChunkIsHeld(cfg: Config, s: State, f: nat, c: nat)
    requires Setup(cfg) && RunInv(cfg, s) && Finished(cfg, s) && f < |cfg.files| && c < |ChunksOf(cfg, s, f)|
    ensures Claim(f, c) in s.chunks.phase && Fills(s.chunks.phase[Claim(f, c)], ChunksOf(cfg, s, f)[c].idx)
  {
    assert FileInv(cfg, s, f);
    assert ChunkInv(cfg, s, f, c);
    if !cfg.files[f].skip {
      AllDone(cfg, s, f);
      if s.job[f].keep { KeptOutcomes(cfg, s, f); }
      OutcomeAt(cfg, s.chunks, f, |cfg.files[f].live|, c);
    }
  }

  lemma {:induction false} OutcomeAt(cfg: Config, s: Store, f: nat, k: nat, c: nat)
    requires f < |cfg.files| && k <= |cfg.files[f].live|
    ensures c < k ==> Outcomes(cfg, s, f, k)[c] == Outcome(cfg, s, f, c)
  {
    if k > 0 && c < k - 1 {
      OutcomeAt(cfg, s, f, k - 1, c);
    }
  }

  /** Where a recorded chunk's place stands in the end. */
  lemma RecordedPlace(cfg: Config, s: State, f: nat, c: nat)
    requires FilesInv(cfg, s) && f < |cfg.files| && s.job[f].Listed? && c < |ChunksOf(cfg, s, f)|
    ensures var p, i := PhaseOf(s.chunks, f, c), ChunksOf(cfg, s, f)[c].idx;
            Fills(p, i) || (p == Waiting && c < |BaseChunks(cfg.files[f])| && BaseChunks(cfg.files[f])[c].idx == i)
  {
    assert FileInv(cfg, s, f);
    assert ChunkInv(cfg, s, f, c);
    if !cfg.files[f].skip {
      AllDone(cfg, s, f);
      OutcomeAt(cfg, s.chunks, f, |cfg.files[f].live|, c);
    }
  }

  /** Each chunk that a listed file's FInfo names is an index its claim still answers for, even if the file is truncated
      and the block is missing. */
  lemma ChunkIsClaimed(cfg: Config, s: State, f: nat, c: nat)
    requires Setup(cfg) && RunInv(cfg, s) && IsFile(cfg, s, f) && s.job[f].Listed? && c < |ChunksOf(cfg, s, f)|
    ensures Claim(f, c) in cfg.chunkBase.claims && Claim(f, c) in s.chunks.phase
    ensures Held(cfg.chunkBase, s.chunks, Claim(f, c)) == Some(ChunksOf(cfg, s, f)[c].idx)
  {
    RecordedPlace(cfg, s, f, c);
    RecordedClaim(cfg, s.chunks, f, c, ChunksOf(cfg, s, f)[c].idx);
  }

  lemma RecordedClaim(cfg: Config, s: Store, f: nat, c: nat, i: int)
    requires ClaimsMatch(cfg) && PhasesHold(cfg.chunkBase, s) && f < |cfg.files|
    requires var p := PhaseOf(s, f, c);
             Fills(p, i) || (p == Waiting && c < |BaseChunks(cfg.files[f])| && BaseChunks(cfg.files[f])[c].idx == i)
    ensures Claim(f, c) in cfg.chunkBase.claims && Claim(f, c) in s.phase && Held(cfg.chunkBase, s, Claim(f, c)) == Some(i)
  {
    if !Fills(PhaseOf(s, f, c), i) {
      assert Place(cfg, f, c);
      assert cfg.chunkBase.claims[Claim(f, c)] == ChunkClaim(cfg.files[f], c);
    }
  }

  /** No chunk place beyond the recorded chunks owns a block. */
  lemma FilledIsRecorded(cfg: Config, s: State, cl: Claim, i: int)
    requires Setup(cfg) && RunInv(cfg, s) && Finished(cfg, s) && cl in s.chunks.phase && Fills(s.chunks.phase[cl], i)
    ensures cl.file < |cfg.files| && cl.part < |ChunksOf(cfg, s, cl.file)|
  {
    var f, c := cl.file, cl.part;
    assert Place(cfg, f, c);
    assert FileInv(cfg, s, f);
    assert ChunkInv(cfg, s, f, c);
    assert PhaseOf(s.chunks, f, c) == s.chunks.phase[cl];
    if !cfg.files[f].skip && s.job[f].keep { KeptOutcomes(cfg, s, f); }
  }

  lemma FInfoIsHeld(cfg: Config, s: State, f: nat)
    requires Hypotheses(cfg) && RunInv(cfg, s) && IsFile(cfg, s, f) && s.job[f].Listed?
    ensures s.job[f].idx >= 0
    ensures Claim(f, 0) in s.finfos.phase && Fills(s.finfos.phase[Claim(f, 0)], s.job[f].idx)
  {
    var cl := Claim(f, 0);
    assert FileInv(cfg, s, f);
    if cfg.files[f].skip { SkippedHasFInfo(cfg, f); }
    assert cl in cfg.finfoBase.claims && cfg.finfoBase.claims[cl] == FInfoClaim(cfg.files[f]);
    assert PhaseInv(cfg.finfoBase, s.finfos, cl);
    if s.job[f].keep && !cfg.files[f].skip { KeptOutcomes(cfg, s, f); }
  }

  lemma MemberReads(cfg: Config, s: State, f: nat)
    requires Hypotheses(cfg) && RunInv(cfg, s) && Finished(cfg, s) && Fits(s) && f < |cfg.files|
    ensures var j := s.job[f];
            && ReadFInfo(cfg.codec, s.finfos.dir, s.finfos.disk, j.flag, j.idx) == Some(ChunksOf(cfg, s, f))
            && ReadAll(cfg.codec, s.chunks.dir, s.chunks.disk, ChunksOf(cfg, s, f)) == Some(Concat(cfg.files[f].live))
  {
    if cfg.files[f].skip {
      assert FileInv(cfg, s, f);
      SkippedReads(cfg, s, f);
      SkippedFacts(cfg, s, f);
    } else if s.job[f].keep {
      KeptReads(cfg, s, f);
      KeptFacts(cfg, s, f);
    } else {
      RewrittenReads(cfg, s, f);
    }
  }

  lemma MemberFlags(cfg: Config, s: State, f: nat)
    requires Hypotheses(cfg) && RunInv(cfg, s) && Finished(cfg, s) && Fits(s) && f < |cfg.files|
    ensures Flag(s.job[f].flag)
    ensures forall c :: c in ChunksOf(cfg, s, f) ==> Flag(c.flag)
  {
    assert Trusted(cfg, f);
    assert FileInv(cfg, s, f);
    if !s.job[f].keep {
      OutcomesRead(cfg, s, f);
    }
  }

  lemma FileMembersOK(cfg: Config, s: State, zeros: nat, f: nat)
    requires Hypotheses(cfg) && RunInv(cfg, s) && Finished(cfg, s) && Fits(s) && f < |cfg.files|
    ensures MemberOK(cfg.codec, NewSnapshot(cfg, s, zeros), s.chunks.disk, s.finfos.disk, MemberOf(cfg, s, f))
  {
    MemberReads(cfg, s, f);
    MemberFlags(cfg, s, f);
  }

  /** The members of a new archive: one per file, then the empty ones. */
  lemma NewMember(cfg: Config, s: State, zeros: nat, a: nat)
    requires Ended(cfg, s) && a < |cfg.files| + zeros
    ensures var ms := NewSnapshot(cfg, s, zeros).members;
            && |ms| == |cfg.files| + zeros
            && ms[a] == if a < |cfg.files| then MemberOf(cfg, s, a) else ZeroMember(a - |cfg.files|)
  {
  }

  lemma StoreInodes(b: Base, s: Store)
    requires BlockStores.Inv(b, s) && Disjoint(b)
    ensures Inodes(s.dir, s.disk)
  {
    forall i | i in s.dir ensures s.dir[i] in s.disk {
      var c :| c in s.phase && Fills(s.phase[c], i);
      assert PhaseInv(b, s, c);
      if s.phase[c].Linked? { LinkedBlock(b, s, c); }
    }
  }

  lemma NewIndicesDistinct(cfg: Config, s: State, f: nat, g: nat)
    requires Hypotheses(cfg) && RunInv(cfg, s) && Ended(cfg, s) && f < |cfg.files| && g < |cfg.files|
    requires s.job[f].idx == s.job[g].idx
    ensures f == g
  {
    FInfoIsHeld(cfg, s, f);
    FInfoIsHeld(cfg, s, g);
    FillsOnce(cfg.finfoBase, s.finfos, Claim(f, 0), Claim(g, 0), s.job[f].idx);
  }

  lemma FillsOnce(b: Base, s: Store, c: Claim, d: Claim, i: int)
    requires BlockStores.Inv(b, s) && c in s.phase && d in s.phase && Fills(s.phase[c], i) && Fills(s.phase[d], i)
    ensures c == d
  {
    assert Held(b, s, c) == Some(i) && Held(b, s, d) == Some(i);
  }

  /** An archive that may have lost files still lists no chunk index twice. */
  lemma NewDistinct(cfg: Config, s: State, zeros: nat)
    requires Hypotheses(cfg) && RunInv(cfg, s) && Ended(cfg, s)
    ensures Distinct(NewSnapshot(cfg, s, zeros))
  {
    var sn, n := NewSnapshot(cfg, s, zeros), |cfg.files|;
    forall a: nat, b: nat | a < |sn.members| && b < |sn.members| && sn.members[a].idx == sn.members[b].idx ensures a == b {
      NewMember(cfg, s, zeros, a);
      NewMember(cfg, s, zeros, b);
      if a < n { FInfoIsHeld(cfg, s, a); }
      if b < n { FInfoIsHeld(cfg, s, b); }
      if a < n && b < n { NewIndicesDistinct(cfg, s, a, b); }
    }
    forall a: nat, i: nat, b: nat, j: nat | HasChunk(sn, a, i) && HasChunk(sn, b, j) && ChunkAt(sn, a, i) == ChunkAt(sn, b, j)
      ensures a == b && i == j
    {
      NewMember(cfg, s, zeros, a);
      NewMember(cfg, s, zeros, b);
      ChunkIsClaimed(cfg, s, a, i);
      ChunkIsClaimed(cfg, s, b, j);
      assert Claim(a, i) == Claim(b, j);
    }
  }

  lemma NewFInfosExact(cfg: Config, s: State, zeros: nat)
    requires Hypotheses(cfg) && RunInv(cfg, s) && Finished(cfg, s)
    ensures var sn := NewSnapshot(cfg, s, zeros);
            forall i :: i in sn.finfoDir <==> i >= 0 && exists a: nat :: a < |sn.members| && sn.members[a].idx == i
  {
    var sn, n := NewSnapshot(cfg, s, zeros), |cfg.files|;
    forall i ensures i in sn.finfoDir <==> i >= 0 && exists a: nat :: a < |sn.members| && sn.members[a].idx == i {
      if i in sn.finfoDir {
        var c :| c in s.finfos.phase && Fills(s.finfos.phase[c], i);
        NewMember(cfg, s, zeros, c.file);
        FInfoIsHeld(cfg, s, c.file);
        assert c == Claim(c.file, 0);
        assert sn.members[c.file].idx == i;
      }
      if a: nat :| i >= 0 && a < |sn.members| && sn.members[a].idx == i {
        NewMember(cfg, s, zeros, a);
        FInfoIsHeld(cfg, s, a);
        FilledIsThere(cfg.finfoBase, s.finfos, Claim(a, 0), i);
      }
    }
  }

  lemma FilledIsThere(b: Base, s: Store, c: Claim, i: int)
    requires BlockStores.Inv(b, s) && c in s.phase && Fills(s.phase[c], i)
    ensures i in s.dir
  {
    assert PhaseInv(b, s, c);
  }

  lemma NewChunksExact(cfg: Config, s: State, zeros: nat)
    requires Setup(cfg) && RunInv(cfg, s) && Finished(cfg, s)
    ensures var sn := NewSnapshot(cfg, s, zeros);
            forall i :: i in sn.chunkDir <==> exists a: nat, k: nat :: HasChunk(sn, a, k) && ChunkAt(sn, a, k) == i
  {
    var sn := NewSnapshot(cfg, s, zeros);
    forall i ensures i in sn.chunkDir <==> exists a: nat, k: nat :: HasChunk(sn, a, k) && ChunkAt(sn, a, k) == i {
      if i in sn.chunkDir {
        var c :| c in s.chunks.phase && Fills(s.chunks.phase[c], i);
        FilledIsRecorded(cfg, s, c, i);
        NewMember(cfg, s, zeros, c.file);
        ChunkIsHeld(cfg, s, c.file, c.part);
        assert HasChunk(sn, c.file, c.part) && ChunkAt(sn, c.file, c.part) == i;
      }
      if a: nat, k: nat :| HasChunk(sn, a, k) && ChunkAt(sn, a, k) == i {
        NewMember(cfg, s, zeros, a);
        ChunkIsHeld(cfg, s, a, k);
        FilledIsThere(cfg.chunkBase, s.chunks, Claim(a, k), i);
      }
    }
  }

  /** A finished run yields a well-formed, readable archive whose block files are exactly those in use. */
  lemma NewSnapshotOK(cfg: Config, run: seq<State>, zeros: nat)
    requires Hypotheses(cfg) && CreateRuns.Run(cfg, run)
    requires var s := run[|run| - 1]; Finished(cfg, s) && Fits(s)
    ensures var s := run[|run| - 1]; SnapshotOK(cfg.codec, NewSnapshot(cfg, s, zeros), s.chunks.disk, s.finfos.disk)
  {
    var s := run[|run| - 1];
    var sn := NewSnapshot(cfg, s, zeros);
    CreateRuns.RunKeepsInv(cfg, run, |run| - 1);
    StoreInodes(cfg.chunkBase, s.chunks);
    StoreInodes(cfg.finfoBase, s.finfos);
    NewDistinct(cfg, s, zeros);
    NewFInfosExact(cfg, s, zeros);
    NewChunksExact(cfg, s, zeros);
    forall a: nat | a < |sn.members| ensures MemberOK(cfg.codec, sn, s.chunks.disk, s.finfos.disk, sn.members[a]) {
      NewMember(cfg, s, zeros, a);
      if a < |cfg.files| { FileMembersOK(cfg, s, zeros, a); }
    }
  }
}
