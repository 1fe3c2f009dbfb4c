/** Every create run ends, whatever the interleaving, and a run that cannot go on has listed every file. */
module CreateTerminations {
  import opened BlockStores
  import opened CreateRuns
  import opened CreateSteps

  function ChunkWork(s: State, f: nat, c: nat): nat {
    PhaseWork(PhaseOf(s.chunks, f, c)) + if Claim(f, c) in s.posted then 0 else 1
  }

  function ChunksWork(s: State, f: nat, n: nat): nat {
    if n == 0 then 0 else ChunksWork(s, f, n - 1) + ChunkWork(s, f, n - 1)
  }

  function JobWork(spec: FileSpec, j: Job): int {
    match j
    case Start => 2 * |spec.live| + |BaseChunks(spec)| + 4
    case Reading(l, k, _, _) => 2 * |spec.live| - l - k + 3
    case Linking(n) => |BaseChunks(spec)| - n + 3
    case Closing(_, _) => 2
    case Listed(_, _, _, _) => 1
  }

  /** The steps that file `f` may still make, at most. */
  function FileWork(cfg: Config, s: State, f: nat): int
    requires f < |cfg.files| && f < |s.job|
  {
    JobWork(cfg.files[f], s.job[f]) + ChunksWork(s, f, Width(cfg.files[f])) + PhaseWork(PhaseOf(s.finfos, f, 0))
  }

  function Work(cfg: Config, s: State, n: nat): int {
    if n == 0 || n > |cfg.files| || n > |s.job| then 0 else Work(cfg, s, n - 1) + FileWork(cfg, s, n - 1)
  }

  lemma {:induction false} ChunksWorkSame(s: State, s': State, f: nat, n: nat)
    requires forall c: nat :: c < n ==> ChunkWork(s', f, c) == ChunkWork(s, f, c)
    ensures ChunksWork(s', f, n) == ChunksWork(s, f, n)
  {
    if n > 0 {
      ChunksWorkSame(s, s', f, n - 1);
    }
  }

  lemma {:induction false} ChunksWorkLess(s: State, s': State, f: nat, c: nat, n: nat)
    requires c < n && ChunkWork(s', f, c) < ChunkWork(s, f, c)
    requires forall d: nat :: d < n && d != c ==> ChunkWork(s', f, d) == ChunkWork(s, f, d)
    ensures ChunksWork(s', f, n) < ChunksWork(s, f, n)
  {
    if c == n - 1 {
      ChunksWorkSame(s, s', f, n - 1);
    } else {
      ChunksWorkLess(s, s', f, c, n - 1);
    }
  }

  lemma SameWork(cfg: Config, s: State, s': State, g: nat)
    requires g < |cfg.files| && g < |s.job| && |s'.job| == |s.job| && Same(s, g, s')
    ensures FileWork(cfg, s', g) == FileWork(cfg, s, g)
  {
    ChunksWorkSame(s, s', g, Width(cfg.files[g]));
  }

  lemma {:induction false} LessWork(cfg: Config, s: State, s': State, f: nat, n: nat)
    requires n <= |cfg.files| && |s.job| == |s'.job| == |cfg.files| && f < |cfg.files|
    requires forall g: nat :: g != f ==> Same(s, g, s')
    requires FileWork(cfg, s', f) < FileWork(cfg, s, f)
    ensures Work(cfg, s', n) <= Work(cfg, s, n)
    ensures f < n ==> Work(cfg, s', n) < Work(cfg, s, n)
  {
    if n > 0 {
      LessWork(cfg, s, s', f, n - 1);
      if n - 1 != f { SameWork(cfg, s, s', n - 1); }
    }
  }

  /** Without exceptions, each action on a claim uses up some of its work. */
  lemma ActionWorks(b: Base, s: Store, c: Claim, keep: bool, data: string, s': Store)
    requires Disjoint(b) && BlockStores.Inv(b, s) && Action(b, s, c, keep, data, s')
    ensures c in s.phase && c in s'.phase && PhaseWork(s'.phase[c]) < PhaseWork(s.phase[c])
    ensures Extends(s, c, s')
  {
    ActionKeepsInv(b, s, c, keep, data, s');
  }

  /** A step that only moves the job. */
  lemma JobWorks(cfg: Config, s: State, f: nat, j: Job, s': State)
    requires IsFile(cfg, s, f) && s' == s.(job := s.job[f := j])
    requires JobWork(cfg.files[f], j) < JobWork(cfg.files[f], s.job[f])
    ensures Work(cfg, s', |cfg.files|) < Work(cfg, s, |cfg.files|)
  {
    ChunksWorkSame(s, s', f, Width(cfg.files[f]));
    LessWork(cfg, s, s', f, |cfg.files|);
  }

  /** A chunk place that uses up work, while the job does not gain any. */
  lemma ChunkWorks(cfg: Config, s: State, f: nat, c: nat, s': State)
    requires IsFile(cfg, s, f) && |s'.job| == |s.job| && c < Width(cfg.files[f])
    requires forall g: nat :: g != f ==> Same(s, g, s')
    requires JobWork(cfg.files[f], s'.job[f]) <= JobWork(cfg.files[f], s.job[f]) && s'.finfos == s.finfos
    requires ChunkWork(s', f, c) < ChunkWork(s, f, c)
    requires forall d: nat :: d != c ==> ChunkWork(s', f, d) == ChunkWork(s, f, d)
    ensures Work(cfg, s', |cfg.files|) < Work(cfg, s, |cfg.files|)
  {
    ChunksWorkLess(s, s', f, c, Width(cfg.files[f]));
    LessWork(cfg, s, s', f, |cfg.files|);
  }

  /** What `ActionWorks` says about all chunk places, given that only one claim moved. */
  lemma OneChunkMoved(s: State, f: nat, c: nat, s': State)
    requires s'.posted == s.posted && s'.finfos == s.finfos && Extends(s.chunks, Claim(f, c), s'.chunks)
    requires Claim(f, c) in s.chunks.phase
    requires PhaseWork(PhaseOf(s'.chunks, f, c)) < PhaseWork(PhaseOf(s.chunks, f, c))
    ensures ChunkWork(s', f, c) < ChunkWork(s, f, c)
    ensures forall d: nat :: d != c ==> ChunkWork(s', f, d) == ChunkWork(s, f, d)
    ensures forall g: nat, d: nat :: g != f ==> PhaseOf(s'.chunks, g, d) == PhaseOf(s.chunks, g, d)
  {
    forall d: nat | d != c ensures PhaseOf(s'.chunks, f, d) == PhaseOf(s.chunks, f, d) {}
  }

  lemma RunChunkWorks(cfg: Config, s: State, f: nat, c: nat, s': State)
    requires Setup(cfg) && RunInv(cfg, s) && IsFile(cfg, s, f) && RunChunk(cfg, s, f, c, s')
    ensures Work(cfg, s', |cfg.files|) < Work(cfg, s, |cfg.files|)
  {
    ActionWorks(cfg.chunkBase, s.chunks, Claim(f, c), SameHash(cfg, f, c), Packed(cfg, cfg.files[f].live[c]).1, s'.chunks);
    RunChunkUsesWork(cfg, s, f, c, s');
  }

  lemma RunChunkUsesWork(cfg: Config, s: State, f: nat, c: nat, s': State)
    requires IsFile(cfg, s, f) && c < Width(cfg.files[f]) && s' == s.(chunks := s'.chunks)
    requires Extends(s.chunks, Claim(f, c), s'.chunks) && Claim(f, c) in s.chunks.phase
    requires PhaseWork(PhaseOf(s'.chunks, f, c)) < PhaseWork(PhaseOf(s.chunks, f, c))
    ensures Work(cfg, s', |cfg.files|) < Work(cfg, s, |cfg.files|)
  {
    OneChunkMoved(s, f, c, s');
    ChunkWorks(cfg, s, f, c, s');
  }

  lemma PostWorks(cfg: Config, s: State, f: nat, c: nat, s': State)
    requires IsFile(cfg, s, f) && Post(cfg, s, f, c, s') && s.job[f].launched <= |cfg.files[f].live|
    ensures Work(cfg, s', |cfg.files|) < Work(cfg, s, |cfg.files|)
  {
    ChunkWorks(cfg, s, f, c, s');
  }

  lemma LinkOneWorks(cfg: Config, s: State, f: nat, s': State)
    requires Setup(cfg) && RunInv(cfg, s) && IsFile(cfg, s, f) && LinkOne(cfg, s, f, s')
    ensures Work(cfg, s', |cfg.files|) < Work(cfg, s, |cfg.files|)
  {
    ActionWorks(cfg.chunkBase, s.chunks, Claim(f, s.job[f].next), true, "", s'.chunks);
    LinkOneUsesWork(cfg, s, f, s');
  }

  lemma LinkOneUsesWork(cfg: Config, s: State, f: nat, s': State)
    requires IsFile(cfg, s, f) && LinkOne(cfg, s, f, s')
    requires var n := s.job[f].next;
             && Extends(s.chunks, Claim(f, n), s'.chunks) && Claim(f, n) in s.chunks.phase
             && PhaseWork(PhaseOf(s'.chunks, f, n)) < PhaseWork(PhaseOf(s.chunks, f, n))
    ensures Work(cfg, s', |cfg.files|) < Work(cfg, s, |cfg.files|)
  {
    OneChunkMoved(s, f, s.job[f].next, s');
    ChunkWorks(cfg, s, f, s.job[f].next, s');
  }

  lemma RunFInfoWorks(cfg: Config, s: State, f: nat, s': State)
    requires Setup(cfg) && RunInv(cfg, s) && IsFile(cfg, s, f) && RunFInfo(cfg, s, f, s')
    ensures Work(cfg, s', |cfg.files|) < Work(cfg, s, |cfg.files|)
  {
    ActionWorks(cfg.finfoBase, s.finfos, Claim(f, 0), s.job[f].keep, Packed(cfg, s.job[f].text).1, s'.finfos);
    FInfoUsesWork(cfg, s, f, s');
  }

  lemma FInfoUsesWork(cfg: Config, s: State, f: nat, s': State)
    requires IsFile(cfg, s, f) && s' == s.(finfos := s'.finfos)
    requires Extends(s.finfos, Claim(f, 0), s'.finfos) && Claim(f, 0) in s.finfos.phase
    requires PhaseWork(PhaseOf(s'.finfos, f, 0)) < PhaseWork(PhaseOf(s.finfos, f, 0))
    ensures Work(cfg, s', |cfg.files|) < Work(cfg, s, |cfg.files|)
  {
    ChunksWorkSame(s, s', f, Width(cfg.files[f]));
    LessWork(cfg, s, s', f, |cfg.files|);
  }

  lemma JobStepWorks(cfg: Config, s: State, f: nat, s': State)
    requires IsFile(cfg, s, f)
    requires || Begin(cfg, s, f, s') || Launch(cfg, s, f, s') || Collect(cfg, s, f, s')
             || Close(cfg, s, f, s') || List(cfg, s, f, s')
    ensures Work(cfg, s', |cfg.files|) < Work(cfg, s, |cfg.files|)
  {
    JobWorks(cfg, s, f, s'.job[f], s');
  }

  lemma LaunchedInRange(cfg: Config, s: State, f: nat)
    requires RunInv(cfg, s) && f < |cfg.files| && s.job[f].Reading?
    ensures s.job[f].launched <= |cfg.files[f].live|
  {
    assert FileInv(cfg, s, f);
  }

  /** Each step of any interleaving uses up work, which is never negative: every run ends. */
  lemma StepWorks(cfg: Config, s: State, f: nat, s': State)
    requires Setup(cfg) && RunInv(cfg, s) && FileStep(cfg, s, f, s')
    ensures |s'.job| == |cfg.files| && Work(cfg, s', |cfg.files|) < Work(cfg, s, |cfg.files|)
  {
    if c :| RunChunk(cfg, s, f, c, s') {
      RunChunkWorks(cfg, s, f, c, s');
    } else if c :| Post(cfg, s, f, c, s') {
      LaunchedInRange(cfg, s, f);
      PostWorks(cfg, s, f, c, s');
    } else if LinkOne(cfg, s, f, s') {
      LinkOneWorks(cfg, s, f, s');
    } else if RunFInfo(cfg, s, f, s') {
      RunFInfoWorks(cfg, s, f, s');
    } else {
      JobStepWorks(cfg, s, f, s');
    }
  }

  lemma {:induction false} WorkIsNatural(cfg: Config, s: State, n: nat)
    requires FilesInv(cfg, s) && n <= |cfg.files|
    ensures Work(cfg, s, n) >= 0
  {
    if n > 0 {
      WorkIsNatural(cfg, s, n - 1);
      assert FileInv(cfg, s, n - 1);
    }
  }

  /** A measure that every step from a state of some run uses up. */
  ghost predicate Ranks(cfg: Config, w: State -> int) {
    forall s, s' :: RunInv(cfg, s) && CreateRuns.Step(cfg, s, s') ==> 0 <= w(s') < w(s)
  }

  lemma WorkRanks(cfg: Config)
    requires Setup(cfg)
    ensures Ranks(cfg, s => Work(cfg, s, |cfg.files|))
  {
    forall s, s' | RunInv(cfg, s) && CreateRuns.Step(cfg, s, s')
      ensures 0 <= Work(cfg, s', |cfg.files|) < Work(cfg, s, |cfg.files|)
    {
      var f :| FileStep(cfg, s, f, s');
      StepWorks(cfg, s, f, s');
      StepKeeps(cfg, s, f, s');
      WorkIsNatural(cfg, s', |cfg.files|);
    }
  }

  lemma {:induction false} RankFalls(cfg: Config, w: State -> int, run: seq<State>, k: nat)
    requires Setup(cfg) && CreateRuns.Run(cfg, run) && k < |run| && Ranks(cfg, w)
    ensures w(run[k]) <= w(run[0]) - k
    ensures k > 0 ==> w(run[k]) >= 0
  {
    if k > 0 {
      RankFalls(cfg, w, run, k - 1);
      CreateRuns.RunKeepsInv(cfg, run, k - 1);
      assert StepAt(cfg, run, k);
    }
  }

  /** No run is longer than the work it starts with. */
  lemma RunsAreBounded(cfg: Config, run: seq<State>)
    requires Setup(cfg) && CreateRuns.Run(cfg, run)
    ensures |run| <= Work(cfg, Init(cfg), |cfg.files|) + 1
  {
    InitFiles(cfg);
    WorkIsNatural(cfg, Init(cfg), |cfg.files|);
    WorkRanks(cfg);
    RankFalls(cfg, s => Work(cfg, s, |cfg.files|), run, |run| - 1);
  }

  predicate AllListed(s: State) { forall f :: 0 <= f < |s.job| ==> s.job[f].Listed? }

  lemma OneMore(cfg: Config, run: seq<State>) returns (s': State)
    requires Setup(cfg) && CreateRuns.Run(cfg, run) && !AllListed(run[|run| - 1])
    ensures CreateRuns.Step(cfg, run[|run| - 1], s') && CreateRuns.Run(cfg, run + [s'])
    ensures RunInv(cfg, run[|run| - 1])
  {
    var s := run[|run| - 1];
    CreateRuns.RunKeepsInv(cfg, run, |run| - 1);
    var f: nat :| f < |s.job| && !s.job[f].Listed?;
    s' := NotStuck(cfg, s, f);
    Continued(cfg, run, f, s');
  }

  /** Any run can be carried on until every file is listed. */
  lemma Completes(cfg: Config, run: seq<State>) returns (full: seq<State>)
    requires Setup(cfg) && CreateRuns.Run(cfg, run)
    ensures CreateRuns.Run(cfg, full) && run <= full && AllListed(full[|full| - 1])
  {
    WorkRanks(cfg);
    full := CarriedOn(cfg, s => Work(cfg, s, |cfg.files|), run);
  }

  lemma {:induction false} CarriedOn(cfg: Config, w: State -> int, run: seq<State>) returns (full: seq<State>)
    requires Setup(cfg) && CreateRuns.Run(cfg, run) && Ranks(cfg, w)
    ensures CreateRuns.Run(cfg, full) && run <= full && AllListed(full[|full| - 1])
    decreases w(run[|run| - 1])
  {
    if AllListed(run[|run| - 1]) {
      full := run;
    } else {
      var s' := OneMore(cfg, run);
      full := CarriedOn(cfg, w, run + [s']);
    }
  }
}
