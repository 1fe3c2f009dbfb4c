/** Building runs: a given run is continued by chosen steps of a chosen file. Nothing is assumed about the base. */
module CreateSteps {
  import opened Common
  import opened FInfos
  import opened BlockStores
  import opened CreateRuns

  function ChunkClaims(files: seq<FileSpec>): map<Claim, Option<int>> {
    map f: nat, c: nat | f < |files| && c < Width(files[f]) :: Claim(f, c) := ChunkClaim(files[f], c)
  }

  function FInfoClaims(files: seq<FileSpec>): map<Claim, Option<int>> {
    map f: nat | f < |files| :: Claim(f, 0) := FInfoClaim(files[f])
  }

  lemma ChunkClaimsAt(files: seq<FileSpec>, cl: Claim)
    ensures cl in ChunkClaims(files) <==> cl.file < |files| && cl.part < Width(files[cl.file])
    ensures cl in ChunkClaims(files) ==> ChunkClaims(files)[cl] == ChunkClaim(files[cl.file], cl.part)
  {
    assert cl == Claim(cl.file, cl.part);
  }

  lemma FInfoClaimsAt(files: seq<FileSpec>, cl: Claim)
    ensures cl in FInfoClaims(files) <==> cl.file < |files| && cl.part == 0
    ensures cl in FInfoClaims(files) ==> FInfoClaims(files)[cl] == FInfoClaim(files[cl.file])
  {
    assert cl == Claim(cl.file, cl.part);
  }

  /** A run of these files may be configured on these directories. */
  ghost predicate Made(cfg: Config) {
    cfg.chunkBase.claims == ChunkClaims(cfg.files) && cfg.finfoBase.claims == FInfoClaims(cfg.files)
  }

  lemma MadeMatches(cfg: Config)
    requires Made(cfg)
    ensures ClaimsMatch(cfg)
  {
    forall cl: Claim
      ensures cl in cfg.chunkBase.claims <==> Place(cfg, cl.file, cl.part)
      ensures cl in cfg.chunkBase.claims ==> cfg.chunkBase.claims[cl] == ChunkClaim(cfg.files[cl.file], cl.part)
    {
      ChunkClaimsAt(cfg.files, cl);
    }
    forall cl: Claim
      ensures cl in cfg.finfoBase.claims <==> cl.file < |cfg.files| && cl.part == 0
      ensures cl in cfg.finfoBase.claims ==> cfg.finfoBase.claims[cl] == FInfoClaim(cfg.files[cl.file])
    {
      FInfoClaimsAt(cfg.files, cl);
    }
  }

  /** How many actions a claim in this phase is away from being done, at most. */
  function PhaseWork(p: Phase): nat {
    match p case Waiting => 3 case Freed => 2 case Owned(_) => 1 case _ => 0
  }

  function Last(run: seq<State>): State
    requires run != []
  {
    run[|run| - 1]
  }

  /** A run can be continued by a step of file `f`. */
  lemma Continued(cfg: Config, run: seq<State>, f: nat, s': State)
    requires CreateRuns.Run(cfg, run) && FileStep(cfg, Last(run), f, s')
    ensures CreateRuns.Run(cfg, run + [s'])
  {
    var more := run + [s'];
    forall k | 0 < k < |more| ensures StepAt(cfg, more, k) {
      if k < |run| {
        assert StepAt(cfg, run, k) && more[k] == run[k] && more[k - 1] == run[k - 1];
      } else {
        assert more[k - 1] == Last(run) && more[k] == s';
      }
    }
  }

  /** A run in which every file has a job. */
  ghost predicate Runs(cfg: Config, run: seq<State>) { CreateRuns.Run(cfg, run) && |Last(run).job| == |cfg.files| }

  /** `more` ends where `run` does, but for the job of file `f`. */
  ghost predicate MovesJob(cfg: Config, run: seq<State>, f: nat, j: Job, more: seq<State>) {
    && Runs(cfg, run) && Runs(cfg, more) && f < |cfg.files|
    && Last(more) == Last(run).(job := Last(run).job[f := j])
  }

  lemma Begun(cfg: Config, run: seq<State>, f: nat) returns (more: seq<State>)
    requires Runs(cfg, run) && f < |cfg.files| && Last(run).job[f] == Start
    ensures MovesJob(cfg, run, f, if cfg.files[f].skip then Linking(0) else Reading(0, 0, "", true), more)
  {
    var s' := Last(run).(job := Last(run).job[f := if cfg.files[f].skip then Linking(0) else Reading(0, 0, "", true)]);
    assert Begin(cfg, Last(run), f, s');
    Continued(cfg, run, f, s');
    more := run + [s'];
  }

  lemma Launched(cfg: Config, run: seq<State>, f: nat, l: nat) returns (more: seq<State>)
    requires Runs(cfg, run) && f < |cfg.files| && Last(run).job[f] == Reading(l, 0, "", true) && l < |cfg.files[f].live|
    ensures MovesJob(cfg, run, f, Reading(l + 1, 0, "", true), more)
  {
    var s' := Last(run).(job := Last(run).job[f := Reading(l + 1, 0, "", true)]);
    assert Launch(cfg, Last(run), f, s');
    Continued(cfg, run, f, s');
    more := run + [s'];
  }

  lemma {:induction false} LaunchedTo(cfg: Config, run: seq<State>, f: nat, l: nat, k: nat) returns (more: seq<State>)
    requires Runs(cfg, run) && f < |cfg.files| && Last(run).job[f] == Reading(l, 0, "", true) && l <= k <= |cfg.files[f].live|
    ensures MovesJob(cfg, run, f, Reading(k, 0, "", true), more)
    decreases k - l
  {
    more := run;
    if l < k {
      more := Launched(cfg, run, f, l);
      more := LaunchedTo(cfg, more, f, l + 1, k);
    }
  }

  /** Nothing has been collected yet. */
  predicate Uncollected(j: Job, width: nat) { j == Start || (j.Reading? && j == Reading(j.launched, 0, "", true) && j.launched <= width) }

  /** The file is read at least up to its first `k` chunks. */
  lemma ReadTo(cfg: Config, run: seq<State>, f: nat, k: nat) returns (more: seq<State>, l: nat)
    requires Runs(cfg, run) && f < |cfg.files| && !cfg.files[f].skip && k <= |cfg.files[f].live|
    requires Uncollected(Last(run).job[f], |cfg.files[f].live|)
    ensures k <= l <= |cfg.files[f].live| && MovesJob(cfg, run, f, Reading(l, 0, "", true), more)
  {
    more := run;
    l := 0;
    if Last(run).job[f] == Start {
      more := Begun(cfg, run, f);
    } else {
      l := Last(run).job[f].launched;
    }
    if l < k {
      more := LaunchedTo(cfg, more, f, l, k);
      l := k;
    }
  }

  /** One action of a chunk job. */
  lemma ActedOn(cfg: Config, run: seq<State>, f: nat, c: nat, t: Store) returns (more: seq<State>)
    requires Runs(cfg, run) && f < |cfg.files|
    requires Last(run).job[f].Reading? && c < Last(run).job[f].launched <= |cfg.files[f].live|
    requires ChunkAction(cfg, Last(run).chunks, f, c, t)
    ensures Runs(cfg, more) && Last(more) == Last(run).(chunks := t)
  {
    var s' := Last(run).(chunks := t);
    assert RunChunk(cfg, Last(run), f, c, s');
    Continued(cfg, run, f, s');
    more := run + [s'];
  }

  /** Nothing but file `f`'s job, posts and FInfo moved. */
  ghost predicate OnlyJob(s: State, f: nat, s': State) {
    s'.chunks == s.chunks && |s'.job| == |s.job| && forall g :: 0 <= g < |s.job| && g != f ==> s'.job[g] == s.job[g]
  }

  ghost predicate ChunksDone(cfg: Config, s: State, f: nat)
    requires f < |cfg.files|
  {
    forall c: nat :: c < |cfg.files[f].live| ==> Done(PhaseOf(s.chunks, f, c))
  }

  /** The results of all chunk jobs are posted and collected, and the reading loop ends. */
  lemma {:induction false} Collected(cfg: Config, run: seq<State>, f: nat) returns (more: seq<State>)
    requires Runs(cfg, run) && f < |cfg.files| && Last(run).job[f].Reading? && ChunksDone(cfg, Last(run), f)
    requires Last(run).job[f].collected <= Last(run).job[f].launched == |cfg.files[f].live|
    ensures Runs(cfg, more) && OnlyJob(Last(run), f, Last(more)) && Last(more).job[f].Closing?
    decreases |cfg.files[f].live| - Last(run).job[f].collected, Claim(f, Last(run).job[f].collected) !in Last(run).posted
  {
    var s := Last(run);
    var j := s.job[f];
    var c, s' := j.collected, s;
    if c == |cfg.files[f].live| {
      s' := s.(job := s.job[f := Closing(j.text, j.keep)]);
      assert Close(cfg, s, f, s');
    } else if Claim(f, c) in s.posted {
      s' := s.(job := s.job[f := Reading(j.launched, c + 1, j.text + (ChunkLine(Outcome(cfg, s.chunks, f, c)) + "\n"),
                                         j.keep && PhaseOf(s.chunks, f, c).Linked?)]);
      assert Collect(cfg, s, f, s');
    } else {
      s' := s.(posted := s.posted + {Claim(f, c)});
      assert Post(cfg, s, f, c, s');
    }
    Continued(cfg, run, f, s');
    more := run + [s'];
    if c < |cfg.files[f].live| { more := Collected(cfg, more, f); }
  }

  /** An unfinished claim of a sound store gets on by one action. */
  lemma Advance(b: Base, s: Store, c: Claim, keep: bool, data: string) returns (s': Store)
    requires Disjoint(b) && BlockStores.Inv(b, s) && c in b.claims && !Done(s.phase[c])
    requires keep ==> b.claims[c].Some? && s.phase[c].Waiting?
    ensures Action(b, s, c, keep, data, s') && BlockStores.Inv(b, s') && PhaseWork(s'.phase[c]) < PhaseWork(s.phase[c])
    ensures keep ==> s'.phase[c].Linked?
    ensures !keep ==> !s'.phase[c].Linked?
  {
    s' := CanAct(b, s, c, keep, data);
    if keep { LinkKeepsInv(b, s, c, s'); }
    else if FreeStep(b, s, c, s') { FreeKeepsInv(b, s, c, s'); }
    else if AllocStep(b, s, c, s') { AllocKeepsInv(b, s, c, s'); }
    else { SpitKeepsInv(b, s, c, data, s'); }
  }

  /** The FInfo is written, and the entry goes to the list. */
  lemma {:induction false} Rewritten(cfg: Config, run: seq<State>, f: nat) returns (more: seq<State>)
    requires Runs(cfg, run) && Disjoint(cfg.finfoBase) && BlockStores.Inv(cfg.finfoBase, Last(run).finfos)
    requires Claim(f, 0) in cfg.finfoBase.claims && f < |cfg.files| && Last(run).job[f].Closing? && !Last(run).job[f].keep
    requires !PhaseOf(Last(run).finfos, f, 0).Linked?
    ensures Runs(cfg, more) && OnlyJob(Last(run), f, Last(more)) && Last(more).job[f].Listed? && !Last(more).job[f].keep
    decreases PhaseWork(PhaseOf(Last(run).finfos, f, 0))
  {
    var s := Last(run);
    var text, p, s' := s.job[f].text, PhaseOf(s.finfos, f, 0), s;
    if p.Written? {
      s' := s.(job := s.job[f := Listed(text, false,
                 if Packed(cfg, text).0 == COMPRESSED then COMPRESSED else BaseFlag(cfg.files[f]), p.idx)]);
      assert List(cfg, s, f, s');
    } else {
      var t := Advance(cfg.finfoBase, s.finfos, Claim(f, 0), false, Packed(cfg, text).1);
      s' := s.(finfos := t);
      assert RunFInfo(cfg, s, f, s');
    }
    Continued(cfg, run, f, s');
    more := run + [s'];
    if !p.Written? { more := Rewritten(cfg, more, f); }
  }

  /** A file that is read, with some chunk rewritten, gets its list entry. */
  lemma Entered(cfg: Config, run: seq<State>, f: nat, c: nat) returns (more: seq<State>)
    requires ClaimsMatch(cfg) && Disjoint(cfg.finfoBase) && Runs(cfg, run) && f < |cfg.files| && !cfg.files[f].skip
    requires Last(run).job[f] == Reading(|cfg.files[f].live|, 0, "", true) && ChunksDone(cfg, Last(run), f)
    requires c < |cfg.files[f].live| && !PhaseOf(Last(run).chunks, f, c).Linked?
    ensures Runs(cfg, more) && OnlyJob(Last(run), f, Last(more)) && Last(more).job[f].Listed? && !Last(more).job[f].keep
  {
    var part := Collected(cfg, run, f);
    ReadyToRewrite(cfg, part, f, c);
    more := Rewritten(cfg, part, f);
  }

  lemma ReadyToRewrite(cfg: Config, run: seq<State>, f: nat, c: nat)
    requires ClaimsMatch(cfg) && Disjoint(cfg.finfoBase) && Runs(cfg, run) && f < |cfg.files| && !cfg.files[f].skip
    requires c < |cfg.files[f].live| && !PhaseOf(Last(run).chunks, f, c).Linked? && Last(run).job[f].Closing?
    ensures !Last(run).job[f].keep && !PhaseOf(Last(run).finfos, f, 0).Linked?
    ensures BlockStores.Inv(cfg.finfoBase, Last(run).finfos) && Claim(f, 0) in cfg.finfoBase.claims
  {
    RunKeepsFInfos(cfg, run, |run| - 1);
    RunKeepsFiles(cfg, run, |run| - 1);
    NotKept(cfg, Last(run), f, c);
  }

  lemma NotKept(cfg: Config, s: State, f: nat, c: nat)
    requires FilesInv(cfg, s) && f < |cfg.files| && !cfg.files[f].skip && s.job[f].Closing?
    requires c < |cfg.files[f].live| && !PhaseOf(s.chunks, f, c).Linked?
    ensures !s.job[f].keep && !PhaseOf(s.finfos, f, 0).Linked?
  {
    assert FileInv(cfg, s, f);
  }
}
