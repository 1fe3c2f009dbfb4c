/** A create run: file jobs and chunk jobs that interleave over the two block directories of the new archive
    (`ArchFileCreate::Create` and `HashAndCompressJob`, Archive.cpp). */
module CreateRuns {
  import opened Common
  import opened Numbers
  import opened FInfos
  import opened BlockStores

  /** Hash and compression are parameters: the model knows nothing else about them. */
  datatype Codec = Codec(hash: string -> string, zip: string -> string, unzip: string -> Option<string>)

  /** What the base archive's list and FInfo block say about a file of the same name; `idx < 0` means no FInfo block. */
  datatype BaseFile = BaseFile(idx: int, flag: char, chunks: seq<Chunk>)

  /** One regular, non-empty live file: the chunks that reading it gives, and whether size and mtime match the base. */
  datatype FileSpec = FileSpec(live: seq<string>, base: Option<BaseFile>, skip: bool)

  datatype Config = Config(codec: Codec, compress: bool, files: seq<FileSpec>, chunkBase: Base, finfoBase: Base)

  /** Where one `Create` call stands. `Listed` remembers the text and the flag that led to the entry. */
  datatype Job =
    | Start
    | Reading(launched: nat, collected: nat, text: string, keep: bool)
    | Linking(next: nat)
    | Closing(text: string, keep: bool)
    | Listed(text: string, keep: bool, flag: char, idx: int)

  datatype State = State(chunks: Store, finfos: Store, job: seq<Job>, posted: set<Claim>)

  /** "If compression doesn't help, keep it uncompressed." */
  function Packed(cfg: Config, data: string): (char, string) {
    var z := cfg.codec.zip(data);
    if cfg.compress && |z| < |data| then (COMPRESSED, z) else (UNCOMPRESSED, data)
  }

  function BaseChunks(spec: FileSpec): seq<Chunk> { if spec.base.Some? then spec.base.value.chunks else [] }

  /** The number of chunk places of a file, in the live file or in its base. */
  function Width(spec: FileSpec): nat {
    if |spec.live| < |BaseChunks(spec)| then |BaseChunks(spec)| else |spec.live|
  }

  /** The live chunk has the hash of the base chunk at its place. */
  predicate SameHash(cfg: Config, f: nat, c: nat)
    requires f < |cfg.files|
  {
    var spec := cfg.files[f];
    c < |spec.live| && c < |BaseChunks(spec)| && cfg.codec.hash(spec.live[c]) == BaseChunks(spec)[c].hash
  }

  function BaseIdx(spec: FileSpec): int { if spec.base.Some? then spec.base.value.idx else INT64_MIN }

  /** The flag that the new list entry starts with. */
  function BaseFlag(spec: FileSpec): char { if spec.base.Some? then spec.base.value.flag else UNCOMPRESSED }

  function PhaseOf(s: Store, f: nat, c: nat): Phase {
    if Claim(f, c) in s.phase then s.phase[Claim(f, c)] else Waiting
  }

  function ChunkClaim(spec: FileSpec, c: nat): Option<int> {
    if c < |BaseChunks(spec)| then Some(BaseChunks(spec)[c].idx) else None
  }

  function FInfoClaim(spec: FileSpec): Option<int> {
    if BaseIdx(spec) >= 0 then Some(BaseIdx(spec)) else None
  }

  predicate Place(cfg: Config, f: nat, c: nat) { f < |cfg.files| && c < Width(cfg.files[f]) }

  /** The claims of both directories are those of the files. */
  ghost predicate ClaimsMatch(cfg: Config) {
    && (forall cl :: cl in cfg.chunkBase.claims <==> Place(cfg, cl.file, cl.part))
    && (forall cl :: cl in cfg.chunkBase.claims ==> cfg.chunkBase.claims[cl] == ChunkClaim(cfg.files[cl.file], cl.part))
    && (forall cl :: cl in cfg.finfoBase.claims <==> cl.file < |cfg.files| && cl.part == 0)
    && (forall cl :: cl in cfg.finfoBase.claims ==> cfg.finfoBase.claims[cl] == FInfoClaim(cfg.files[cl.file]))
  }

  /** A live file is not empty, and a base entry without FInfo block has no chunks. */
  predicate SpecOK(spec: FileSpec) {
    && spec.live != [] && spec.live[0] != ""
    && (BaseIdx(spec) < 0 ==> BaseChunks(spec) == [])
  }

  ghost predicate Setup(cfg: Config) {
    && ClaimsMatch(cfg) && Disjoint(cfg.chunkBase) && Disjoint(cfg.finfoBase)
    && (forall f :: 0 <= f < |cfg.files| ==> SpecOK(cfg.files[f]))
  }

  function Init(cfg: Config): State {
    State(Fresh(cfg.chunkBase), Fresh(cfg.finfoBase), seq(|cfg.files|, _ => Start), {})
  }

  ghost predicate IsFile(cfg: Config, s: State, f: nat) { f < |cfg.files| && |s.job| == |cfg.files| }

  ghost predicate Begin(cfg: Config, s: State, f: nat, s': State)
    requires IsFile(cfg, s, f)
  {
    && s.job[f].Start?
    && s' == s.(job := s.job[f := if cfg.files[f].skip then Linking(0) else Reading(0, 0, "", true)])
  }

  ghost predicate Launch(cfg: Config, s: State, f: nat, s': State)
    requires IsFile(cfg, s, f)
  {
    && s.job[f].Reading? && s.job[f].launched < |cfg.files[f].live|
    && s' == s.(job := s.job[f := s.job[f].(launched := s.job[f].launched + 1)])
  }

  /** One action of `HashAndCompressJob` for chunk `c`: keep and link, or free, allocate and write. */
  ghost predicate ChunkAction(cfg: Config, s: Store, f: nat, c: nat, s': Store)
    requires f < |cfg.files| && c < |cfg.files[f].live|
  {
    Action(cfg.chunkBase, s, Claim(f, c), SameHash(cfg, f, c), Packed(cfg, cfg.files[f].live[c]).1, s')
  }

  ghost predicate RunChunk(cfg: Config, s: State, f: nat, c: nat, s': State)
    requires IsFile(cfg, s, f)
  {
    && s.job[f].Reading? && c < s.job[f].launched <= |cfg.files[f].live|
    && ChunkAction(cfg, s.chunks, f, c, s'.chunks)
    && s' == s.(chunks := s'.chunks)
  }

  predicate Done(p: Phase) { p.Linked? || p.Written? }

  ghost predicate Post(cfg: Config, s: State, f: nat, c: nat, s': State)
    requires IsFile(cfg, s, f)
  {
    && s.job[f].Reading? && c < s.job[f].launched && Done(PhaseOf(s.chunks, f, c)) && Claim(f, c) !in s.posted
    && s' == s.(posted := s.posted + {Claim(f, c)})
  }

  /** What the chunk job left in its `HashAndCompressReturn`. */
  function Outcome(cfg: Config, s: Store, f: nat, c: nat): Chunk
    requires f < |cfg.files| && c < |cfg.files[f].live|
  {
    var data := cfg.files[f].live[c];
    match PhaseOf(s, f, c)
    case Linked(i) =>
      Chunk(if c < |BaseChunks(cfg.files[f])| then BaseChunks(cfg.files[f])[c].flag else UNCOMPRESSED, i, cfg.codec.hash(data))
    case Written(i, _) => Chunk(Packed(cfg, data).0, i, cfg.codec.hash(data))
    case _ => Chunk(UNCOMPRESSED, 0, "")
  }

  function Outcomes(cfg: Config, s: Store, f: nat, k: nat): (r: seq<Chunk>)
    requires f < |cfg.files| && k <= |cfg.files[f].live|
    ensures |r| == k
  {
    if k == 0 then [] else Outcomes(cfg, s, f, k - 1) + [Outcome(cfg, s, f, k - 1)]
  }

  predicate AllLinked(s: Store, f: nat, k: nat) { forall c :: 0 <= c < k ==> PhaseOf(s, f, c).Linked? }

  /** `CheckReturns` takes the result at the front of the queue, whether polling or draining. */
  ghost predicate Collect(cfg: Config, s: State, f: nat, s': State)
    requires IsFile(cfg, s, f)
  {
    && s.job[f].Reading?
    && var j := s.job[f];
       && j.collected < j.launched <= |cfg.files[f].live| && Claim(f, j.collected) in s.posted
       && s' == s.(job := s.job[f := Reading(j.launched, j.collected + 1,
                     j.text + (ChunkLine(Outcome(cfg, s.chunks, f, j.collected)) + "\n"),
                     j.keep && PhaseOf(s.chunks, f, j.collected).Linked?)])
  }

  /** Size and mtime match: the base chunks are linked one after the other, unread, up to an exception. */
  ghost predicate LinkOne(cfg: Config, s: State, f: nat, s': State)
    requires IsFile(cfg, s, f)
  {
    && s.job[f].Linking? && s.job[f].next < |BaseChunks(cfg.files[f])|
    && LinkStep(cfg.chunkBase, s.chunks, Claim(f, s.job[f].next), s'.chunks)
    && s' == if PhaseOf(s'.chunks, f, s.job[f].next).Linked?
             then s.(chunks := s'.chunks, job := s.job[f := Linking(s.job[f].next + 1)])
             else s.(chunks := s'.chunks)
  }

  ghost predicate Close(cfg: Config, s: State, f: nat, s': State)
    requires IsFile(cfg, s, f)
  {
    || (&& s.job[f].Reading? && s.job[f].launched == s.job[f].collected == |cfg.files[f].live|
        && s' == s.(job := s.job[f := Closing(s.job[f].text, s.job[f].keep)]))
    || (&& s.job[f].Linking? && s.job[f].next == |BaseChunks(cfg.files[f])|
        && s' == s.(job := s.job[f := Closing("", true)]))
  }

  /** One action on the FInfo block. */
  ghost predicate RunFInfo(cfg: Config, s: State, f: nat, s': State)
    requires IsFile(cfg, s, f)
  {
    && s.job[f].Closing?
    && Action(cfg.finfoBase, s.finfos, Claim(f, 0), s.job[f].keep, Packed(cfg, s.job[f].text).1, s'.finfos)
    && s' == s.(finfos := s'.finfos)
  }

  /** The entry goes to the list. A rewritten FInfo sets the flag to 'C' when it was compressed and leaves it alone otherwise. */
  ghost predicate List(cfg: Config, s: State, f: nat, s': State)
    requires IsFile(cfg, s, f)
  {
    && s.job[f].Closing?
    && var spec, p, text := cfg.files[f], PhaseOf(s.finfos, f, 0), s.job[f].text;
       if s.job[f].keep then
         && (p.Linked? || BaseIdx(spec) < 0)
         && s' == s.(job := s.job[f := Listed(text, true, BaseFlag(spec), BaseIdx(spec))])
       else
         && p.Written?
         && s' == s.(job := s.job[f := Listed(text, false,
                       if Packed(cfg, text).0 == COMPRESSED then COMPRESSED else BaseFlag(spec), p.idx)])
  }

  ghost predicate FileStep(cfg: Config, s: State, f: nat, s': State) {
    && IsFile(cfg, s, f)
    && (|| Begin(cfg, s, f, s') || Launch(cfg, s, f, s') || (exists c :: RunChunk(cfg, s, f, c, s'))
        || (exists c :: Post(cfg, s, f, c, s')) || Collect(cfg, s, f, s') || LinkOne(cfg, s, f, s')
        || Close(cfg, s, f, s') || RunFInfo(cfg, s, f, s') || List(cfg, s, f, s'))
  }

  ghost predicate Step(cfg: Config, s: State, s': State) { exists f :: FileStep(cfg, s, f, s') }

  ghost predicate StepAt(cfg: Config, run: seq<State>, k: int) { 0 < k < |run| && Step(cfg, run[k - 1], run[k]) }

  ghost predicate Run(cfg: Config, run: seq<State>) {
    run != [] && run[0] == Init(cfg) && forall k :: 0 < k < |run| ==> StepAt(cfg, run, k)
  }

  /** What holds at first and is kept by every step holds in every state of a run. */
  lemma {:induction false} EveryState(cfg: Config, p: State -> bool, run: seq<State>, k: nat)
    requires Run(cfg, run) && k < |run| && p(Init(cfg))
    requires forall s, s' :: p(s) && Step(cfg, s, s') ==> p(s')
    ensures p(run[k])
  {
    if k > 0 {
      EveryState(cfg, p, run, k - 1);
      assert StepAt(cfg, run, k);
    }
  }

  /** A chunk place is touched only in the way its file's job decided. */
  ghost predicate ChunkInv(cfg: Config, s: State, f: nat, c: nat)
    requires f < |cfg.files|
  {
    var spec := cfg.files[f];
    && (match PhaseOf(s.chunks, f, c)
        case Waiting => true
        case Linked(i) => c < |BaseChunks(spec)| && i == BaseChunks(spec)[c].idx && (spec.skip || SameHash(cfg, f, c))
        case Written(_, data) => !spec.skip && c < |spec.live| && !SameHash(cfg, f, c) && data == Packed(cfg, spec.live[c]).1
        case _ => !spec.skip && c < |spec.live| && !SameHash(cfg, f, c))
    && (Claim(f, c) in s.posted ==> Done(PhaseOf(s.chunks, f, c)))
  }

  /** From place `k` on nothing has happened yet. */
  ghost predicate Untouched(s: State, f: nat, k: nat) { forall c :: k <= c ==> PhaseOf(s.chunks, f, c) == Waiting }

  ghost predicate AllPosted(s: State, f: nat, k: nat) { forall c :: 0 <= c < k ==> Claim(f, c) in s.posted }

  /** All chunk places of the file are settled and the text describes them. */
  ghost predicate Settled(cfg: Config, s: State, f: nat, text: string, keep: bool)
    requires f < |cfg.files|
  {
    var spec := cfg.files[f];
    if spec.skip then keep && AllLinked(s.chunks, f, |BaseChunks(spec)|)
    else
      && AllPosted(s, f, |spec.live|) && Untouched(s, f, |spec.live|)
      && text == FInfoText(Outcomes(cfg, s.chunks, f, |spec.live|))
      && keep == AllLinked(s.chunks, f, |spec.live|)
  }

  ghost predicate JobInv(cfg: Config, s: State, f: nat)
    requires IsFile(cfg, s, f)
  {
    var spec, p := cfg.files[f], PhaseOf(s.finfos, f, 0);
    match s.job[f]
    case Start => Untouched(s, f, 0) && p == Waiting
    case Reading(l, k, text, keep) =>
      && !spec.skip && k <= l <= |spec.live| && p == Waiting
      && Untouched(s, f, l) && AllPosted(s, f, k)
      && text == FInfoText(Outcomes(cfg, s.chunks, f, k)) && keep == AllLinked(s.chunks, f, k)
    case Linking(n) =>
      && spec.skip && n <= |BaseChunks(spec)| && p == Waiting
      && Untouched(s, f, n) && AllLinked(s.chunks, f, n)
    case Closing(text, keep) =>
      && Settled(cfg, s, f, text, keep)
      && (if keep then p.Waiting? || p.Linked? else !p.Linked?)
      && (p.Written? ==> p.data == Packed(cfg, text).1)
    case Listed(text, keep, flag, idx) =>
      && Settled(cfg, s, f, text, keep)
      && (if keep then flag == BaseFlag(spec) && idx == BaseIdx(spec) && (p.Linked? || (p == Waiting && idx < 0))
          else
            && p == Written(idx, Packed(cfg, text).1)
            && flag == if Packed(cfg, text).0 == COMPRESSED then COMPRESSED else BaseFlag(spec))
  }

  ghost predicate FileInv(cfg: Config, s: State, f: nat)
    requires IsFile(cfg, s, f)
  {
    JobInv(cfg, s, f) && forall c: nat :: ChunkInv(cfg, s, f, c)
  }

  ghost predicate FilesInv(cfg: Config, s: State) {
    |s.job| == |cfg.files| && forall f: nat :: f < |cfg.files| ==> FileInv(cfg, s, f)
  }

  ghost predicate RunInv(cfg: Config, s: State) {
    BlockStores.Inv(cfg.chunkBase, s.chunks) && BlockStores.Inv(cfg.finfoBase, s.finfos) && FilesInv(cfg, s)
  }

  /** Nothing that concerns file `g` differs. */
  ghost predicate Same(s: State, g: nat, s': State) {
    && (g < |s.job| <==> g < |s'.job|) && (g < |s.job| ==> s'.job[g] == s.job[g])
    && (forall c: nat :: PhaseOf(s'.chunks, g, c) == PhaseOf(s.chunks, g, c))
    && PhaseOf(s'.finfos, g, 0) == PhaseOf(s.finfos, g, 0)
    && (forall c: nat :: Claim(g, c) in s'.posted <==> Claim(g, c) in s.posted)
  }

  lemma {:induction false} OutcomesSame(cfg: Config, s: Store, s': Store, f: nat, k: nat)
    requires f < |cfg.files| && k <= |cfg.files[f].live|
    requires forall c: nat :: c < k ==> PhaseOf(s', f, c) == PhaseOf(s, f, c)
    ensures Outcomes(cfg, s', f, k) == Outcomes(cfg, s, f, k)
  {
    if k > 0 {
      OutcomesSame(cfg, s, s', f, k - 1);
    }
  }

  lemma OtherFile(cfg: Config, s: State, g: nat, s': State)
    requires FilesInv(cfg, s) && |s'.job| == |s.job| && g < |cfg.files| && Same(s, g, s')
    ensures FileInv(cfg, s', g)
  {
    assert FileInv(cfg, s, g);
    forall c: nat ensures ChunkInv(cfg, s', g, c) {
      assert ChunkInv(cfg, s, g, c);
    }
    match s.job[g] {
      case Reading(_, k, _, _) => OutcomesSame(cfg, s.chunks, s'.chunks, g, k);
      case Closing(_, _) => OutcomesSame(cfg, s.chunks, s'.chunks, g, |cfg.files[g].live|);
      case Listed(_, _, _, _) => OutcomesSame(cfg, s.chunks, s'.chunks, g, |cfg.files[g].live|);
      case _ =>
    }
  }

  /** It is enough to look at the file that moved. */
  lemma OnlyFile(cfg: Config, s: State, f: nat, s': State)
    requires FilesInv(cfg, s) && |s'.job| == |s.job| && f < |cfg.files|
    requires forall g: nat :: g != f ==> Same(s, g, s')
    requires FileInv(cfg, s', f)
    ensures FilesInv(cfg, s')
  {
    forall g: nat | g < |cfg.files| ensures FileInv(cfg, s', g) {
      if g != f { OtherFile(cfg, s, g, s'); }
    }
  }

  /** A step that leaves both directories and the posts alone. */
  lemma JobOnly(cfg: Config, s: State, f: nat, j: Job, s': State)
    requires FilesInv(cfg, s) && f < |cfg.files| && s' == s.(job := s.job[f := j]) && JobInv(cfg, s', f)
    ensures FilesInv(cfg, s')
  {
    assert FileInv(cfg, s, f);
    forall c: nat ensures ChunkInv(cfg, s', f, c) { assert ChunkInv(cfg, s, f, c); }
    OnlyFile(cfg, s, f, s');
  }

  lemma BeginKeeps(cfg: Config, s: State, f: nat, s': State)
    requires FilesInv(cfg, s) && IsFile(cfg, s, f) && Begin(cfg, s, f, s')
    ensures FilesInv(cfg, s')
  {
    assert FileInv(cfg, s, f);
    JobOnly(cfg, s, f, s'.job[f], s');
  }

  lemma LaunchKeeps(cfg: Config, s: State, f: nat, s': State)
    requires FilesInv(cfg, s) && IsFile(cfg, s, f) && Launch(cfg, s, f, s')
    ensures FilesInv(cfg, s')
  {
    assert FileInv(cfg, s, f);
    JobOnly(cfg, s, f, s'.job[f], s');
  }

  lemma CollectKeeps(cfg: Config, s: State, f: nat, s': State)
    requires FilesInv(cfg, s) && IsFile(cfg, s, f) && Collect(cfg, s, f, s')
    ensures FilesInv(cfg, s')
  {
    assert FileInv(cfg, s, f);
    CollectJob(cfg, s, f, s');
    JobOnly(cfg, s, f, s'.job[f], s');
  }

  lemma CollectJob(cfg: Config, s: State, f: nat, s': State)
    requires IsFile(cfg, s, f) && JobInv(cfg, s, f) && Collect(cfg, s, f, s')
    ensures JobInv(cfg, s', f)
  {
    var k := s.job[f].collected;
    CollectText(cfg, s.chunks, f, k);
    AllLinkedNext(s.chunks, f, k);
  }

  lemma AllLinkedNext(s: Store, f: nat, k: nat)
    ensures AllLinked(s, f, k + 1) <==> AllLinked(s, f, k) && PhaseOf(s, f, k).Linked?
  {
  }

  lemma CollectText(cfg: Config, s: Store, f: nat, k: nat)
    requires f < |cfg.files| && k < |cfg.files[f].live|
    ensures FInfoText(Outcomes(cfg, s, f, k + 1))
         == FInfoText(Outcomes(cfg, s, f, k)) + (ChunkLine(Outcome(cfg, s, f, k)) + "\n")
  {
    FInfoTextSnoc(Outcomes(cfg, s, f, k), Outcome(cfg, s, f, k));
  }

  lemma CloseKeeps(cfg: Config, s: State, f: nat, s': State)
    requires FilesInv(cfg, s) && IsFile(cfg, s, f) && Close(cfg, s, f, s')
    ensures FilesInv(cfg, s')
  {
    assert FileInv(cfg, s, f);
    JobOnly(cfg, s, f, s'.job[f], s');
  }

  lemma ListKeeps(cfg: Config, s: State, f: nat, s': State)
    requires FilesInv(cfg, s) && IsFile(cfg, s, f) && List(cfg, s, f, s')
    ensures FilesInv(cfg, s')
  {
    assert FileInv(cfg, s, f);
    JobOnly(cfg, s, f, s'.job[f], s');
  }

  lemma PostKeeps(cfg: Config, s: State, f: nat, c: nat, s': State)
    requires FilesInv(cfg, s) && IsFile(cfg, s, f) && Post(cfg, s, f, c, s')
    ensures FilesInv(cfg, s')
  {
    assert FileInv(cfg, s, f);
    forall d: nat ensures ChunkInv(cfg, s', f, d) { assert ChunkInv(cfg, s, f, d); }
    OnlyFile(cfg, s, f, s');
  }

  /** The chunk places of `f` below the ones collected or above the ones launched do not change. */
  lemma ChunkMoved(cfg: Config, s: State, f: nat, c: nat, s': State)
    requires FilesInv(cfg, s) && f < |cfg.files| && s' == s.(chunks := s'.chunks)
    requires OnlyMoved(s.chunks, Claim(f, c), s'.chunks)
    requires s.job[f].Reading? && c < s.job[f].launched && Claim(f, c) !in s.posted
    requires ChunkInv(cfg, s', f, c)
    ensures FilesInv(cfg, s')
  {
    assert FileInv(cfg, s, f);
    var k := s.job[f].collected;
    assert c >= k;
    forall d: nat | d != c ensures PhaseOf(s'.chunks, f, d) == PhaseOf(s.chunks, f, d) {}
    forall d: nat ensures ChunkInv(cfg, s', f, d) {
      assert ChunkInv(cfg, s, f, d);
    }
    OutcomesSame(cfg, s.chunks, s'.chunks, f, k);
    OnlyFile(cfg, s, f, s');
  }

  /** What one action of a chunk job can do to its place. */
  ghost predicate Acts(cfg: Config, f: nat, c: nat, p: Phase, p': Phase)
    requires f < |cfg.files| && c < |cfg.files[f].live|
  {
    var spec := cfg.files[f];
    && !Done(p)
    && (|| p' == p
        || if SameHash(cfg, f, c) then p' == Linked(BaseChunks(spec)[c].idx)
           else p'.Freed? || p'.Owned? || (p'.Written? && p'.data == Packed(cfg, spec.live[c]).1))
  }

  lemma ActionOnPlace(cfg: Config, s: Store, f: nat, c: nat, s': Store)
    requires ClaimsMatch(cfg) && f < |cfg.files| && c < |cfg.files[f].live| && ChunkAction(cfg, s, f, c, s')
    ensures OnlyMoved(s, Claim(f, c), s') && Acts(cfg, f, c, PhaseOf(s, f, c), PhaseOf(s', f, c))
  {
    var cl := Claim(f, c);
    assert Place(cfg, cl.file, cl.part);
    assert cfg.chunkBase.claims[cl] == ChunkClaim(cfg.files[f], c);
    ActionMovesOne(cfg.chunkBase, s, cl, SameHash(cfg, f, c), Packed(cfg, cfg.files[f].live[c]).1, s');
  }

  /** The place keeps to the job's decision. */
  lemma DecisionKept(cfg: Config, s: State, f: nat, c: nat, s': State)
    requires IsFile(cfg, s, f) && FileInv(cfg, s, f) && c < |cfg.files[f].live| && !cfg.files[f].skip
    requires s' == s.(chunks := s'.chunks) && Acts(cfg, f, c, PhaseOf(s.chunks, f, c), PhaseOf(s'.chunks, f, c))
    ensures Claim(f, c) !in s.posted && ChunkInv(cfg, s', f, c)
  {
    assert ChunkInv(cfg, s, f, c);
  }

  lemma RunChunkKeeps(cfg: Config, s: State, f: nat, c: nat, s': State)
    requires ClaimsMatch(cfg) && FilesInv(cfg, s) && IsFile(cfg, s, f) && RunChunk(cfg, s, f, c, s')
    ensures FilesInv(cfg, s')
  {
    ActionOnPlace(cfg, s.chunks, f, c, s'.chunks);
    ChunkStepKeepsFiles(cfg, s, f, c, s');
  }

  lemma ChunkStepKeepsFiles(cfg: Config, s: State, f: nat, c: nat, s': State)
    requires FilesInv(cfg, s) && IsFile(cfg, s, f) && RunChunk(cfg, s, f, c, s')
    requires OnlyMoved(s.chunks, Claim(f, c), s'.chunks)
    requires Acts(cfg, f, c, PhaseOf(s.chunks, f, c), PhaseOf(s'.chunks, f, c))
    ensures FilesInv(cfg, s')
  {
    assert FileInv(cfg, s, f);
    DecisionKept(cfg, s, f, c, s');
    ChunkMoved(cfg, s, f, c, s');
  }

  lemma LinkOneKeeps(cfg: Config, s: State, f: nat, s': State)
    requires ClaimsMatch(cfg) && FilesInv(cfg, s) && IsFile(cfg, s, f) && LinkOne(cfg, s, f, s')
    ensures FilesInv(cfg, s')
  {
    var cl := Claim(f, s.job[f].next);
    assert cfg.chunkBase.claims[cl] == ChunkClaim(cfg.files[f], cl.part);
    ActionMovesOne(cfg.chunkBase, s.chunks, cl, true, "", s'.chunks);
    LinkOneKeepsFiles(cfg, s, f, s');
  }

  lemma LinkOneKeepsFiles(cfg: Config, s: State, f: nat, s': State)
    requires FilesInv(cfg, s) && IsFile(cfg, s, f) && LinkOne(cfg, s, f, s')
    requires OnlyMoved(s.chunks, Claim(f, s.job[f].next), s'.chunks)
    requires var p := PhaseOf(s'.chunks, f, s.job[f].next);
             p == PhaseOf(s.chunks, f, s.job[f].next) || p == Linked(BaseChunks(cfg.files[f])[s.job[f].next].idx)
    ensures FilesInv(cfg, s')
  {
    var n := s.job[f].next;
    assert FileInv(cfg, s, f);
    forall d: nat | d != n ensures PhaseOf(s'.chunks, f, d) == PhaseOf(s.chunks, f, d) {}
    forall d: nat ensures ChunkInv(cfg, s', f, d) { assert ChunkInv(cfg, s, f, d); }
    OnlyFile(cfg, s, f, s');
  }

  /** What one action of a `Create` call can do to its FInfo. */
  ghost predicate ActsOnFInfo(cfg: Config, keep: bool, text: string, p: Phase, p': Phase) {
    || p' == p
    || if keep then p'.Linked? else p'.Freed? || p'.Owned? || (p'.Written? && p'.data == Packed(cfg, text).1)
  }

  lemma RunFInfoKeeps(cfg: Config, s: State, f: nat, s': State)
    requires FilesInv(cfg, s) && IsFile(cfg, s, f) && RunFInfo(cfg, s, f, s')
    ensures FilesInv(cfg, s')
  {
    ActionMovesOne(cfg.finfoBase, s.finfos, Claim(f, 0), s.job[f].keep, Packed(cfg, s.job[f].text).1, s'.finfos);
    FInfoStepKeepsFiles(cfg, s, f, s');
  }

  lemma FInfoStepKeepsFiles(cfg: Config, s: State, f: nat, s': State)
    requires FilesInv(cfg, s) && IsFile(cfg, s, f) && RunFInfo(cfg, s, f, s')
    requires OnlyMoved(s.finfos, Claim(f, 0), s'.finfos)
    requires ActsOnFInfo(cfg, s.job[f].keep, s.job[f].text, PhaseOf(s.finfos, f, 0), PhaseOf(s'.finfos, f, 0))
    ensures FilesInv(cfg, s')
  {
    assert FileInv(cfg, s, f);
    forall d: nat ensures ChunkInv(cfg, s', f, d) { assert ChunkInv(cfg, s, f, d); }
    OnlyFile(cfg, s, f, s');
  }

  /** Whatever the base archive, sound or not, each job keeps to its decisions and the texts describe them. */
  lemma StepKeepsFiles(cfg: Config, s: State, f: nat, s': State)
    requires ClaimsMatch(cfg) && FilesInv(cfg, s) && FileStep(cfg, s, f, s')
    ensures FilesInv(cfg, s')
  {
    if Begin(cfg, s, f, s') { BeginKeeps(cfg, s, f, s'); }
    else if Launch(cfg, s, f, s') { LaunchKeeps(cfg, s, f, s'); }
    else if c :| RunChunk(cfg, s, f, c, s') { RunChunkKeeps(cfg, s, f, c, s'); }
    else if c :| Post(cfg, s, f, c, s') { PostKeeps(cfg, s, f, c, s'); }
    else if Collect(cfg, s, f, s') { CollectKeeps(cfg, s, f, s'); }
    else if LinkOne(cfg, s, f, s') { LinkOneKeeps(cfg, s, f, s'); }
    else if Close(cfg, s, f, s') { CloseKeeps(cfg, s, f, s'); }
    else if RunFInfo(cfg, s, f, s') { RunFInfoKeeps(cfg, s, f, s'); }
    else { ListKeeps(cfg, s, f, s'); }
  }

  lemma RunKeepsFiles(cfg: Config, run: seq<State>, k: nat)
    requires ClaimsMatch(cfg) && Run(cfg, run) && k < |run|
    ensures FilesInv(cfg, run[k])
  {
    InitFiles(cfg);
    forall s, s' | FilesInv(cfg, s) && Step(cfg, s, s') ensures FilesInv(cfg, s') {
      var f :| FileStep(cfg, s, f, s');
      StepKeepsFiles(cfg, s, f, s');
    }
    EveryState(cfg, (s: State) => FilesInv(cfg, s), run, k);
  }

  /** What a step does to the two directories: nothing, or one action of one claim on one of them. */
  ghost predicate ActsOnStores(cfg: Config, s: State, s': State) {
    || (s'.chunks == s.chunks && s'.finfos == s.finfos)
    || (s'.finfos == s.finfos && BlockStores.SomeAction(cfg.chunkBase, s.chunks, s'.chunks))
    || (s'.chunks == s.chunks && BlockStores.SomeAction(cfg.finfoBase, s.finfos, s'.finfos))
  }

  lemma StepActsOnStores(cfg: Config, s: State, f: nat, s': State)
    requires FileStep(cfg, s, f, s')
    ensures ActsOnStores(cfg, s, s')
  {
    if c: nat :| RunChunk(cfg, s, f, c, s') {
      assert Action(cfg.chunkBase, s.chunks, Claim(f, c), SameHash(cfg, f, c), Packed(cfg, cfg.files[f].live[c]).1, s'.chunks);
    } else if LinkOne(cfg, s, f, s') {
      assert Action(cfg.chunkBase, s.chunks, Claim(f, s.job[f].next), true, "", s'.chunks);
    } else if RunFInfo(cfg, s, f, s') {
      assert Action(cfg.finfoBase, s.finfos, Claim(f, 0), s.job[f].keep, Packed(cfg, s.job[f].text).1, s'.finfos);
    }
  }

  lemma SomeStepActs(cfg: Config, s: State, s': State)
    requires Step(cfg, s, s')
    ensures ActsOnStores(cfg, s, s')
  {
    var f :| FileStep(cfg, s, f, s');
    StepActsOnStores(cfg, s, f, s');
  }

  lemma InitInv(cfg: Config)
    requires Setup(cfg)
    ensures RunInv(cfg, Init(cfg))
  {
    FreshInv(cfg.chunkBase);
    FreshInv(cfg.finfoBase);
    InitFiles(cfg);
  }

  lemma InitFiles(cfg: Config)
    ensures FilesInv(cfg, Init(cfg))
  {
    forall f: nat | f < |cfg.files| ensures FileInv(cfg, Init(cfg), f) {}
  }

  lemma StepKeeps(cfg: Config, s: State, f: nat, s': State)
    requires Setup(cfg) && RunInv(cfg, s) && FileStep(cfg, s, f, s')
    ensures RunInv(cfg, s')
  {
    StepKeepsFiles(cfg, s, f, s');
    StepActsOnStores(cfg, s, f, s');
    ActedKeepsInv(cfg.chunkBase, s.chunks, s'.chunks);
    ActedKeepsInv(cfg.finfoBase, s.finfos, s'.finfos);
  }

  lemma ActedKeepsInv(b: Base, s: Store, s': Store)
    requires Disjoint(b) && BlockStores.Inv(b, s) && (s' == s || BlockStores.SomeAction(b, s, s'))
    ensures BlockStores.Inv(b, s')
  {
    if s' != s {
      var c, keep, data :| Action(b, s, c, keep, data, s');
      ActionKeepsInv(b, s, c, keep, data, s');
    }
  }

  /** The FInfo directory keeps its invariant, whatever the state of the other one. */
  lemma RunKeepsFInfos(cfg: Config, run: seq<State>, k: nat)
    requires Disjoint(cfg.finfoBase) && Run(cfg, run) && k < |run|
    ensures BlockStores.Inv(cfg.finfoBase, run[k].finfos)
  {
    FreshInv(cfg.finfoBase);
    forall s: State, s': State | BlockStores.Inv(cfg.finfoBase, s.finfos) && Step(cfg, s, s')
      ensures BlockStores.Inv(cfg.finfoBase, s'.finfos)
    {
      SomeStepActs(cfg, s, s');
      ActedKeepsInv(cfg.finfoBase, s.finfos, s'.finfos);
    }
    EveryState(cfg, (s: State) => BlockStores.Inv(cfg.finfoBase, s.finfos), run, k);
  }

  lemma RunKeepsInv(cfg: Config, run: seq<State>, k: nat)
    requires Setup(cfg) && Run(cfg, run) && k < |run|
    ensures RunInv(cfg, run[k])
  {
    InitInv(cfg);
    forall s, s' | RunInv(cfg, s) && Step(cfg, s, s') ensures RunInv(cfg, s') {
      var f :| FileStep(cfg, s, f, s');
      StepKeeps(cfg, s, f, s');
    }
    EveryState(cfg, (s: State) => RunInv(cfg, s), run, k);
  }

  /** In every interleaving no call throws and every inode of the base archive keeps its bytes. */
  lemma BaseArchiveSurvives(cfg: Config, run: seq<State>, k: nat)
    requires Setup(cfg) && Run(cfg, run) && k < |run|
    ensures !run[k].chunks.fault && !run[k].finfos.fault
    ensures forall n :: n in cfg.chunkBase.disk ==> n in run[k].chunks.disk && run[k].chunks.disk[n] == cfg.chunkBase.disk[n]
    ensures forall n :: n in cfg.finfoBase.disk ==> n in run[k].finfos.disk && run[k].finfos.disk[n] == cfg.finfoBase.disk[n]
  {
    RunKeepsInv(cfg, run, k);
  }

  lemma LowestExists(alloc: set<int>, rest: set<int>, k: int) returns (i: int)
    requires 0 <= k && forall j :: 0 <= j < k ==> j in alloc
    requires forall j :: j in alloc && k <= j ==> j in rest
    ensures Lowest(alloc, i)
    decreases rest
  {
    if k in alloc {
      i := LowestExists(alloc, rest - {k}, k + 1);
    } else {
      i := k;
    }
  }

  /** An unfinished claim can always act. */
  lemma CanAct(b: Base, s: Store, c: Claim, keep: bool, data: string) returns (s': Store)
    requires c in b.claims && c in s.phase && !Done(s.phase[c])
    requires keep ==> b.claims[c].Some? && s.phase[c].Waiting?
    requires s.phase[c].Freed? || s.phase[c].Owned? || s.phase[c].Waiting?
    ensures Action(b, s, c, keep, data, s')
  {
    if keep || (s.phase[c].Waiting? && b.claims[c].Some?) {
      var i := b.claims[c].value;
      if keep {
        s' := if i in b.dir && i !in s.dir
              then s.(dir := s.dir[i := b.dir[i]], phase := s.phase[c := Linked(i)]) else s.(fault := true);
      } else {
        s' := if i in s.alloc then s.(alloc := s.alloc - {i}, phase := s.phase[c := Freed]) else s.(fault := true);
      }
    } else if s.phase[c].Owned? {
      var i := s.phase[c].idx;
      var done := s.phase[c := Written(i, data)];
      var n := LowestExists(s.disk.Keys, s.disk.Keys, 0);
      s' := if i in s.dir then s.(disk := s.disk[s.dir[i] := data], phase := done)
            else s.(disk := s.disk[n := data], dir := s.dir[i := n], phase := done);
    } else {
      var i := LowestExists(s.alloc, s.alloc, 0);
      s' := s.(alloc := s.alloc + {i}, phase := s.phase[c := Owned(i)]);
    }
  }

  /** No state before completion is stuck: a file that is not listed can make a step. */
  lemma NotStuck(cfg: Config, s: State, f: nat) returns (s': State)
    requires Setup(cfg) && RunInv(cfg, s) && f < |cfg.files| && !s.job[f].Listed?
    ensures FileStep(cfg, s, f, s')
  {
    assert FileInv(cfg, s, f);
    assert SpecOK(cfg.files[f]);
    match s.job[f]
    case Start =>
      s' := s.(job := s.job[f := if cfg.files[f].skip then Linking(0) else Reading(0, 0, "", true)]);
      assert Begin(cfg, s, f, s');
    case Reading(_, _, _, _) => s' := ReadingCanStep(cfg, s, f);
    case Linking(n) => s' := LinkingCanStep(cfg, s, f);
    case Closing(_, _) => s' := ClosingCanStep(cfg, s, f);
  }

  lemma ReadingCanStep(cfg: Config, s: State, f: nat) returns (s': State)
    requires Setup(cfg) && RunInv(cfg, s) && f < |cfg.files| && s.job[f].Reading?
    ensures FileStep(cfg, s, f, s')
  {
    assert FileInv(cfg, s, f);
    var j := s.job[f];
    var c := j.collected;
    if j.launched == |cfg.files[f].live| && c < j.launched && Claim(f, c) !in s.posted && !Done(PhaseOf(s.chunks, f, c)) {
      s' := ChunkCanStep(cfg, s, f, c);
    } else {
      s' := ReaderCanStep(cfg, s, f);
    }
  }

  /** The reading loop goes on, unless it waits for the result at the front of its queue. */
  lemma ReaderCanStep(cfg: Config, s: State, f: nat) returns (s': State)
    requires IsFile(cfg, s, f) && s.job[f].Reading? && s.job[f].collected <= s.job[f].launched <= |cfg.files[f].live|
    requires var j := s.job[f];
             || j.launched < |cfg.files[f].live| || j.collected == j.launched
             || Claim(f, j.collected) in s.posted || Done(PhaseOf(s.chunks, f, j.collected))
    ensures FileStep(cfg, s, f, s')
  {
    var j := s.job[f];
    var c := j.collected;
    if j.launched < |cfg.files[f].live| {
      s' := s.(job := s.job[f := j.(launched := j.launched + 1)]);
      assert Launch(cfg, s, f, s');
    } else if c == j.launched {
      s' := s.(job := s.job[f := Closing(j.text, j.keep)]);
      assert Close(cfg, s, f, s');
    } else if Claim(f, c) in s.posted {
      var r := ChunkLine(Outcome(cfg, s.chunks, f, c)) + "\n";
      s' := s.(job := s.job[f := Reading(j.launched, c + 1, j.text + r, j.keep && PhaseOf(s.chunks, f, c).Linked?)]);
      assert Collect(cfg, s, f, s');
    } else {
      s' := s.(posted := s.posted + {Claim(f, c)});
      assert Post(cfg, s, f, c, s');
    }
  }

  lemma ChunkCanStep(cfg: Config, s: State, f: nat, c: nat) returns (s': State)
    requires Setup(cfg) && RunInv(cfg, s) && f < |cfg.files| && s.job[f].Reading?
    requires c < s.job[f].launched <= |cfg.files[f].live| && !Done(PhaseOf(s.chunks, f, c))
    ensures FileStep(cfg, s, f, s')
  {
    var cl := Claim(f, c);
    assert FileInv(cfg, s, f);
    assert ChunkInv(cfg, s, f, c);
    assert Place(cfg, cl.file, cl.part);
    assert cfg.chunkBase.claims[cl] == ChunkClaim(cfg.files[f], c);
    var t := CanAct(cfg.chunkBase, s.chunks, cl, SameHash(cfg, f, c), Packed(cfg, cfg.files[f].live[c]).1);
    s' := s.(chunks := t);
    assert RunChunk(cfg, s, f, c, s');
  }

  lemma LinkingCanStep(cfg: Config, s: State, f: nat) returns (s': State)
    requires Setup(cfg) && RunInv(cfg, s) && f < |cfg.files| && s.job[f].Linking?
    ensures FileStep(cfg, s, f, s')
  {
    var n, cl := s.job[f].next, Claim(f, s.job[f].next);
    assert FileInv(cfg, s, f);
    if n == |BaseChunks(cfg.files[f])| {
      s' := s.(job := s.job[f := Closing("", true)]);
      assert Close(cfg, s, f, s');
    } else {
      assert Place(cfg, cl.file, cl.part);
      assert cfg.chunkBase.claims[cl] == ChunkClaim(cfg.files[f], n);
      assert PhaseOf(s.chunks, f, n) == Waiting;
      s' := LinkCanStep(cfg, s, f);
    }
  }

  lemma LinkCanStep(cfg: Config, s: State, f: nat) returns (s': State)
    requires IsFile(cfg, s, f) && s.job[f].Linking? && s.job[f].next < |BaseChunks(cfg.files[f])|
    requires var cl := Claim(f, s.job[f].next);
             cl in cfg.chunkBase.claims && cfg.chunkBase.claims[cl].Some? && At(cfg.chunkBase, s.chunks, cl, Waiting)
    ensures FileStep(cfg, s, f, s')
  {
    var t := CanAct(cfg.chunkBase, s.chunks, Claim(f, s.job[f].next), true, "");
    s' := if PhaseOf(t, f, s.job[f].next).Linked? then s.(chunks := t, job := s.job[f := Linking(s.job[f].next + 1)])
          else s.(chunks := t);
    assert LinkOne(cfg, s, f, s');
  }

  lemma ClosingCanStep(cfg: Config, s: State, f: nat) returns (s': State)
    requires Setup(cfg) && RunInv(cfg, s) && f < |cfg.files| && s.job[f].Closing?
    ensures FileStep(cfg, s, f, s')
  {
    var spec, j, p, cl := cfg.files[f], s.job[f], PhaseOf(s.finfos, f, 0), Claim(f, 0);
    assert FileInv(cfg, s, f);
    assert cl in cfg.finfoBase.claims && cfg.finfoBase.claims[cl] == FInfoClaim(spec);
    if j.keep && (p.Linked? || BaseIdx(spec) < 0) {
      s' := s.(job := s.job[f := Listed(j.text, true, BaseFlag(spec), BaseIdx(spec))]);
      assert List(cfg, s, f, s');
    } else if !j.keep && p.Written? {
      s' := s.(job := s.job[f := Listed(j.text, false,
                 if Packed(cfg, j.text).0 == COMPRESSED then COMPRESSED else BaseFlag(spec), p.idx)]);
      assert List(cfg, s, f, s');
    } else {
      var t := CanAct(cfg.finfoBase, s.finfos, cl, j.keep, Packed(cfg, j.text).1);
      s' := s.(finfos := t);
      assert RunFInfo(cfg, s, f, s');
    }
  }
}
