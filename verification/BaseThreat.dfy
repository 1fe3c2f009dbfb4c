/** The other half of `BaseOutOfReach`: a base block that is to be kept for one place and rewritten for another can be
    written to, as soon as enough new files take the lower free indices. */
module BaseThreats {
  import opened Common
  import opened BlockStores
  import opened BaseGuards
  import opened CreateRuns
  import opened BaseSafeties
  import opened CreateSteps

  /** The same run with further files, which the base does not know. */
  ghost predicate MoreNew(cfg: Config, more: Config) {
    && ClaimsMatch(more) && more.codec == cfg.codec && more.compress == cfg.compress
    && more.chunkBase.dir == cfg.chunkBase.dir && more.chunkBase.disk == cfg.chunkBase.disk
    && more.finfoBase.dir == cfg.finfoBase.dir && more.finfoBase.disk == cfg.finfoBase.disk
    && cfg.files <= more.files
    && forall f :: |cfg.files| <= f < |more.files| ==> more.files[f].live != [] && more.files[f].base == None && !more.files[f].skip
  }

  /** Block names are numbers, and they lead to inodes. */
  ghost predicate BlocksExist(b: Base) { forall i :: i in b.dir ==> 0 <= i && b.dir[i] in b.disk }

  lemma OldFile(cfg: Config, more: Config, f: nat)
    requires MoreNew(cfg, more) && f < |more.files|
    ensures f < |cfg.files| ==> more.files[f] == cfg.files[f]
    ensures BaseChunks(more.files[f]) != [] || BaseIdx(more.files[f]) >= 0 ==> f < |cfg.files|
  {
  }

  lemma SamePlaces(cfg: Config, more: Config, f: nat, c: nat)
    requires MoreNew(cfg, more) && f < |cfg.files|
    ensures Links(more, f, c) <==> Links(cfg, f, c)
    ensures Rewrites(more, f, c) <==> Rewrites(cfg, f, c)
  {
    OldFile(cfg, more, f);
  }

  lemma StaysUnmixed(cfg: Config, more: Config)
    requires MoreNew(cfg, more) && !Mixed(cfg)
    ensures !Mixed(more)
  {
    forall f, c, g, d ensures !MixedAt(more, f, c, g, d) {
      if MixedAt(more, f, c, g, d) { MixedBefore(cfg, more, f, c, g, d); }
    }
  }

  lemma MixedBefore(cfg: Config, more: Config, f: nat, c: nat, g: nat, d: nat)
    requires MoreNew(cfg, more) && MixedAt(more, f, c, g, d)
    ensures MixedAt(cfg, f, c, g, d)
  {
    OldFile(cfg, more, f);
    OldFile(cfg, more, g);
    SamePlaces(cfg, more, f, c);
    SamePlaces(cfg, more, g, d);
  }

  lemma StaysCoherent(cfg: Config, more: Config)
    requires MoreNew(cfg, more) && Coherent(cfg)
    ensures Coherent(more)
  {
    forall f: nat, g: nat | f < |more.files| && g < |more.files| && f != g ensures SameList(more.files[f], more.files[g]) {
      OldFile(cfg, more, f);
      OldFile(cfg, more, g);
    }
  }

  /** `n` new files of one chunk each. */
  function Extended(cfg: Config, n: nat): Config {
    var m := |cfg.files|;
    cfg.(files := cfg.files + seq(n, _ => FileSpec(["new"], None, false)),
         chunkBase := cfg.chunkBase.(claims := Added(cfg.chunkBase.claims, m, n)),
         finfoBase := cfg.finfoBase.(claims := Added(cfg.finfoBase.claims, m, n)))
  }

  function Added(claims: map<Claim, Option<int>>, m: nat, n: nat): map<Claim, Option<int>> {
    (map k: nat | m <= k < m + n :: Claim(k, 0) := None) + claims
  }

  lemma ExtendedIsMore(cfg: Config, n: nat)
    requires ClaimsMatch(cfg)
    ensures MoreNew(cfg, Extended(cfg, n)) && |Extended(cfg, n).files| == |cfg.files| + n
    ensures forall f :: |cfg.files| <= f < |cfg.files| + n ==> Extended(cfg, n).files[f] == FileSpec(["new"], None, false)
  {
    ExtendedMatches(cfg, n);
  }

  lemma AddedAt(claims: map<Claim, Option<int>>, m: nat, n: nat, cl: Claim)
    ensures cl in Added(claims, m, n) <==> cl in claims || (m <= cl.file < m + n && cl.part == 0)
    ensures cl in Added(claims, m, n) ==> Added(claims, m, n)[cl] == if cl in claims then claims[cl] else None
  {
    assert cl == Claim(cl.file, cl.part);
  }

  lemma ExtendedFile(cfg: Config, n: nat, f: nat)
    requires f < |cfg.files| + n
    ensures |Extended(cfg, n).files| == |cfg.files| + n
    ensures Extended(cfg, n).files[f] == if f < |cfg.files| then cfg.files[f] else FileSpec(["new"], None, false)
  {
  }

  lemma ExtendedClaim(cfg: Config, n: nat, cl: Claim)
    requires ClaimsMatch(cfg)
    ensures cl in Extended(cfg, n).chunkBase.claims <==> Place(Extended(cfg, n), cl.file, cl.part)
    ensures cl in Extended(cfg, n).chunkBase.claims ==>
              Extended(cfg, n).chunkBase.claims[cl] == ChunkClaim(Extended(cfg, n).files[cl.file], cl.part)
  {
    AddedAt(cfg.chunkBase.claims, |cfg.files|, n, cl);
    if cl.file < |cfg.files| + n { ExtendedFile(cfg, n, cl.file); }
    assert cl in cfg.chunkBase.claims <==> Place(cfg, cl.file, cl.part);
  }

  lemma ExtendedFInfoClaim(cfg: Config, n: nat, cl: Claim)
    requires ClaimsMatch(cfg)
    ensures cl in Extended(cfg, n).finfoBase.claims <==> cl.file < |cfg.files| + n && cl.part == 0
    ensures cl in Extended(cfg, n).finfoBase.claims ==>
              Extended(cfg, n).finfoBase.claims[cl] == FInfoClaim(Extended(cfg, n).files[cl.file])
  {
    AddedAt(cfg.finfoBase.claims, |cfg.files|, n, cl);
    if cl.file < |cfg.files| + n { ExtendedFile(cfg, n, cl.file); }
  }

  lemma ExtendedMatches(cfg: Config, n: nat)
    requires ClaimsMatch(cfg)
    ensures ClaimsMatch(Extended(cfg, n))
  {
    forall cl: Claim
      ensures cl in Extended(cfg, n).chunkBase.claims <==> Place(Extended(cfg, n), cl.file, cl.part)
      ensures cl in Extended(cfg, n).chunkBase.claims ==>
                Extended(cfg, n).chunkBase.claims[cl] == ChunkClaim(Extended(cfg, n).files[cl.file], cl.part)
    {
      ExtendedClaim(cfg, n, cl);
    }
    forall cl: Claim
      ensures cl in Extended(cfg, n).finfoBase.claims <==> cl.file < |cfg.files| + n && cl.part == 0
      ensures cl in Extended(cfg, n).finfoBase.claims ==>
                Extended(cfg, n).finfoBase.claims[cl] == FInfoClaim(Extended(cfg, n).files[cl.file])
    {
      ExtendedFInfoClaim(cfg, n, cl);
    }
  }

  /** A skipped file can link its next base chunk. */
  ghost predicate CanLink(cfg: Config, s: Store, f: nat, e: nat)
    requires f < |cfg.files| && e < |BaseChunks(cfg.files[f])|
  {
    var i := BaseChunks(cfg.files[f])[e].idx;
    At(cfg.chunkBase, s, Claim(f, e), Waiting) && cfg.chunkBase.claims[Claim(f, e)] == Some(i) && i in cfg.chunkBase.dir && i !in s.dir
  }

  function LinkedStore(cfg: Config, s: Store, f: nat, e: nat): Store
    requires f < |cfg.files| && e < |BaseChunks(cfg.files[f])| && BaseChunks(cfg.files[f])[e].idx in cfg.chunkBase.dir
  {
    var i := BaseChunks(cfg.files[f])[e].idx;
    s.(dir := s.dir[i := cfg.chunkBase.dir[i]], phase := s.phase[Claim(f, e) := Linked(i)])
  }

  lemma LinkedNext(cfg: Config, run: seq<State>, f: nat, e: nat) returns (more: seq<State>)
    requires Runs(cfg, run) && f < |cfg.files| && e < |BaseChunks(cfg.files[f])|
    requires Last(run).job[f] == Linking(e) && CanLink(cfg, Last(run).chunks, f, e)
    ensures Runs(cfg, more)
    ensures Last(more) == Last(run).(chunks := LinkedStore(cfg, Last(run).chunks, f, e), job := Last(run).job[f := Linking(e + 1)])
  {
    var t := LinkedStore(cfg, Last(run).chunks, f, e);
    var s' := Last(run).(chunks := t, job := Last(run).job[f := Linking(e + 1)]);
    assert LinkOne(cfg, Last(run), f, s');
    Continued(cfg, run, f, s');
    more := run + [s'];
  }

  /** Names came to point at base blocks for places `n` to `c` of file `f`; nothing else happened. */
  ghost predicate OnlyLinks(cfg: Config, s: State, f: nat, n: nat, c: nat, s': State)
    requires f < |cfg.files| && c < |BaseChunks(cfg.files[f])|
  {
    var b := BaseChunks(cfg.files[f]);
    && s' == s.(chunks := s'.chunks, job := s'.job) && |s'.job| == |s.job|
    && (forall g :: 0 <= g < |s.job| && g != f ==> s'.job[g] == s.job[g])
    && s'.chunks == s.chunks.(dir := s'.chunks.dir, phase := s'.chunks.phase)
    && (forall i :: i in s'.chunks.dir ==> i in s.chunks.dir || exists e :: n <= e <= c && b[e].idx == i)
    && (forall i :: i in s'.chunks.dir && i !in s.chunks.dir ==> i in cfg.chunkBase.dir && s'.chunks.dir[i] == cfg.chunkBase.dir[i])
    && (forall i :: i in s.chunks.dir ==> i in s'.chunks.dir && s'.chunks.dir[i] == s.chunks.dir[i])
    && s'.chunks.phase.Keys == s.chunks.phase.Keys
    && (forall cl :: cl in s.chunks.phase && (cl.file != f || c < cl.part) ==> s'.chunks.phase[cl] == s.chunks.phase[cl])
  }

  lemma LinkOnlyLinks(cfg: Config, s: State, f: nat, e: nat, s': State)
    requires f < |cfg.files| && e < |BaseChunks(cfg.files[f])| && f < |s.job| && CanLink(cfg, s.chunks, f, e)
    requires s' == s.(chunks := LinkedStore(cfg, s.chunks, f, e), job := s.job[f := Linking(e + 1)])
    ensures OnlyLinks(cfg, s, f, e, e, s')
    ensures BaseChunks(cfg.files[f])[e].idx in s'.chunks.dir
  {
  }

  lemma OnlyLinksTrans(cfg: Config, s: State, f: nat, n: nat, c: nat, t: State, s': State)
    requires f < |cfg.files| && 0 < c < |BaseChunks(cfg.files[f])| && n < c
    requires OnlyLinks(cfg, s, f, n, c - 1, t) && OnlyLinks(cfg, t, f, c, c, s')
    ensures OnlyLinks(cfg, s, f, n, c, s')
  {
  }

  lemma LinkedFurther(cfg: Config, s: State, run: seq<State>, f: nat, c: nat) returns (more: seq<State>)
    requires ClaimsMatch(cfg) && Runs(cfg, run) && f < |cfg.files| && 0 < c < |BaseChunks(cfg.files[f])| && LinksUpTo(cfg, f, c)
    requires s.chunks == Fresh(cfg.chunkBase) && Last(run).job[f] == Linking(c) && OnlyLinks(cfg, s, f, 0, c - 1, Last(run))
    ensures Runs(cfg, more) && Last(more).job[f] == Linking(c + 1) && OnlyLinks(cfg, s, f, 0, c, Last(more))
    ensures BaseChunks(cfg.files[f])[c].idx in Last(more).chunks.dir
  {
    CanLinkThen(cfg, s, Last(run), f, c);
    more := LinkedNext(cfg, run, f, c);
    LinkOnlyLinks(cfg, Last(run), f, c, Last(more));
    OnlyLinksTrans(cfg, s, f, 0, c, Last(run), Last(more));
  }

  lemma CanLinkThen(cfg: Config, s: State, t: State, f: nat, c: nat)
    requires ClaimsMatch(cfg) && f < |cfg.files| && 0 < c < |BaseChunks(cfg.files[f])| && LinksUpTo(cfg, f, c)
    requires s.chunks == Fresh(cfg.chunkBase) && OnlyLinks(cfg, s, f, 0, c - 1, t)
    ensures CanLink(cfg, t.chunks, f, c)
  {
    assert Place(cfg, f, c);
    CanLinkNext(cfg, t.chunks, f, c);
  }

  lemma LinkedFirst(cfg: Config, run: seq<State>, f: nat) returns (more: seq<State>)
    requires ClaimsMatch(cfg) && Runs(cfg, run) && f < |cfg.files| && BaseChunks(cfg.files[f]) != [] && LinksUpTo(cfg, f, 0)
    requires Last(run).job[f] == Linking(0) && Last(run).chunks == Fresh(cfg.chunkBase)
    ensures Runs(cfg, more) && Last(more).job[f] == Linking(1) && OnlyLinks(cfg, Last(run), f, 0, 0, Last(more))
    ensures BaseChunks(cfg.files[f])[0].idx in Last(more).chunks.dir
  {
    assert Place(cfg, f, 0);
    CanLinkNext(cfg, Last(run).chunks, f, 0);
    more := LinkedNext(cfg, run, f, 0);
    LinkOnlyLinks(cfg, Last(run), f, 0, Last(more));
  }

  lemma {:induction false} LinkedTo(cfg: Config, run: seq<State>, f: nat, c: nat) returns (more: seq<State>)
    requires ClaimsMatch(cfg) && Runs(cfg, run) && f < |cfg.files| && c < |BaseChunks(cfg.files[f])| && LinksUpTo(cfg, f, c)
    requires Last(run).job[f] == Linking(0) && Last(run).chunks == Fresh(cfg.chunkBase)
    ensures Runs(cfg, more) && Last(more).job[f] == Linking(c + 1) && OnlyLinks(cfg, Last(run), f, 0, c, Last(more))
    ensures BaseChunks(cfg.files[f])[c].idx in Last(more).chunks.dir
  {
    if c == 0 {
      more := LinkedFirst(cfg, run, f);
    } else {
      var part := LinkedTo(cfg, run, f, c - 1);
      more := LinkedFurther(cfg, Last(run), part, f, c);
    }
  }

  lemma CanLinkNext(cfg: Config, s: Store, f: nat, c: nat)
    requires ClaimsMatch(cfg) && f < |cfg.files| && c < |BaseChunks(cfg.files[f])| && LinksUpTo(cfg, f, c)
    requires Claim(f, c) in s.phase && s.phase[Claim(f, c)] == Waiting
    requires forall i :: i in s.dir ==> exists e :: 0 <= e < c && BaseChunks(cfg.files[f])[e].idx == i
    ensures CanLink(cfg, s, f, c)
  {
    var cl := Claim(f, c);
    assert Place(cfg, cl.file, cl.part);
    assert cfg.chunkBase.claims[cl] == ChunkClaim(cfg.files[f], c);
  }

  /** Files from `m` on are new, and their jobs have not begun. */
  ghost predicate NewFrom(cfg: Config, s: State, m: nat) {
    |s.job| == |cfg.files| && forall k :: m <= k < |cfg.files| ==> NotBegun(cfg, s, k)
  }

  ghost predicate NotBegun(cfg: Config, s: State, k: nat)
    requires k < |cfg.files| && k < |s.job|
  {
    && s.job[k] == Start && At(cfg.chunkBase, s.chunks, Claim(k, 0), Waiting)
    && cfg.chunkBase.claims[Claim(k, 0)] == None && cfg.files[k] == FileSpec(["new"], None, false)
  }

  /** Index `i` leads to an inode of the base, and the rewriting place still waits. */
  ghost predicate Kept(cfg: Config, s: State, i: int, g: nat, d: nat)
    requires g < |cfg.files|
  {
    && |s.job| == |cfg.files| && i in s.chunks.dir && s.chunks.dir[i] in cfg.chunkBase.disk
    && s.chunks.alloc == cfg.chunkBase.dir.Keys
    && At(cfg.chunkBase, s.chunks, Claim(g, d), Waiting) && cfg.chunkBase.claims[Claim(g, d)] == Some(i)
    && Uncollected(s.job[g], |cfg.files[g].live|)
  }

  /** Index `i` is free, its name still there, and one job is about to allocate. */
  ghost predicate Open(cfg: Config, s: State, i: int, g: nat, d: nat) {
    && |s.job| == |cfg.files| && g < |cfg.files|
    && i in s.chunks.dir && s.chunks.dir[i] in cfg.chunkBase.disk && i !in s.chunks.alloc
    && At(cfg.chunkBase, s.chunks, Claim(g, d), Freed)
    && s.job[g].Reading? && d < s.job[g].launched <= |cfg.files[g].live|
  }

  /** File `f` has linked its base chunk `c`, and no other file has begun. */
  ghost predicate KeptBy(cfg: Config, s: State, f: nat, c: nat) {
    && f < |cfg.files| == |s.job| && c < |BaseChunks(cfg.files[f])|
    && (forall k :: 0 <= k < |s.job| && k != f ==> s.job[k] == Start)
    && (!cfg.files[f].skip ==> Uncollected(s.job[f], |cfg.files[f].live|))
    && s.chunks.alloc == cfg.chunkBase.dir.Keys && s.chunks.phase.Keys == cfg.chunkBase.claims.Keys
    && s.chunks.disk == cfg.chunkBase.disk && s.finfos == Fresh(cfg.finfoBase)
    && (forall cl :: cl in s.chunks.phase && (cl.file != f || (!cfg.files[f].skip && cl.part != c)) ==> s.chunks.phase[cl] == Waiting)
    && var i := BaseChunks(cfg.files[f])[c].idx;
       i in s.chunks.dir && i in cfg.chunkBase.dir && s.chunks.dir[i] == cfg.chunkBase.dir[i]
  }

  lemma InitRuns(cfg: Config)
    ensures Runs(cfg, [Init(cfg)]) && forall k :: 0 <= k < |cfg.files| ==> Init(cfg).job[k] == Start
  {
  }

  lemma KeepSkipped(cfg: Config, f: nat, c: nat) returns (run: seq<State>)
    requires ClaimsMatch(cfg) && f < |cfg.files| && c < |BaseChunks(cfg.files[f])| && cfg.files[f].skip && LinksUpTo(cfg, f, c)
    ensures Runs(cfg, run) && KeptBy(cfg, Last(run), f, c)
  {
    InitRuns(cfg);
    run := Begun(cfg, [Init(cfg)], f);
    run := LinkedTo(cfg, run, f, c);
  }

  lemma KeepRead(cfg: Config, f: nat, c: nat) returns (run: seq<State>)
    requires ClaimsMatch(cfg) && f < |cfg.files| && !cfg.files[f].skip && SameHash(cfg, f, c)
    requires BaseChunks(cfg.files[f])[c].idx in cfg.chunkBase.dir
    ensures Runs(cfg, run) && KeptBy(cfg, Last(run), f, c)
  {
    var cl, i, l := Claim(f, c), BaseChunks(cfg.files[f])[c].idx, 0;
    assert Place(cfg, f, c) && cfg.chunkBase.claims[cl] == ChunkClaim(cfg.files[f], c);
    InitRuns(cfg);
    run, l := ReadTo(cfg, [Init(cfg)], f, c + 1);
    var s := Fresh(cfg.chunkBase);
    var t := s.(dir := s.dir[i := cfg.chunkBase.dir[i]], phase := s.phase[cl := Linked(i)]);
    assert LinkStep(cfg.chunkBase, s, cl, t);
    run := ActedOn(cfg, run, f, c, t);
  }

  lemma KeepFirst(cfg: Config, f: nat, c: nat) returns (run: seq<State>)
    requires ClaimsMatch(cfg) && Links(cfg, f, c) && BaseChunks(cfg.files[f])[c].idx in cfg.chunkBase.dir
    ensures Runs(cfg, run) && KeptBy(cfg, Last(run), f, c)
  {
    if cfg.files[f].skip {
      run := KeepSkipped(cfg, f, c);
    } else {
      run := KeepRead(cfg, f, c);
    }
  }

  lemma RewriterWaits(cfg: Config, s: State, f: nat, c: nat, g: nat, d: nat)
    requires ClaimsMatch(cfg) && BlocksExist(cfg.chunkBase) && MixedAt(cfg, f, c, g, d) && KeptBy(cfg, s, f, c)
    ensures Kept(cfg, s, BaseChunks(cfg.files[g])[d].idx, g, d)
  {
    var cl := Claim(g, d);
    assert Place(cfg, cl.file, cl.part);
    assert cfg.chunkBase.claims[cl] == ChunkClaim(cfg.files[g], d);
    assert cl.file != f || cl.part != c;
  }

  lemma OthersWait(cfg: Config, s: State, f: nat, c: nat, m: nat)
    requires KeptBy(cfg, s, f, c) && f < m && NewFrom(cfg, Init(cfg), m)
    ensures NewFrom(cfg, s, m)
  {
    forall k: nat | m <= k < |cfg.files| ensures NotBegun(cfg, s, k) {
      assert NotBegun(cfg, Init(cfg), k);
    }
  }

  lemma NewAtFirst(cfg: Config, m: nat)
    requires ClaimsMatch(cfg) && forall f :: m <= f < |cfg.files| ==> cfg.files[f] == FileSpec(["new"], None, false)
    ensures NewFrom(cfg, Init(cfg), m)
  {
    InitRuns(cfg);
    forall k: nat | m <= k < |cfg.files| ensures NotBegun(cfg, Init(cfg), k) {
      assert Place(cfg, k, 0);
      assert cfg.chunkBase.claims[Claim(k, 0)] == ChunkClaim(cfg.files[k], 0);
    }
  }

  /** Then the rewriting job gives the index up. */
  lemma OpenUp(cfg: Config, run: seq<State>, i: int, g: nat, d: nat, m: nat) returns (more: seq<State>)
    requires Runs(cfg, run) && Rewrites(cfg, g, d) && Kept(cfg, Last(run), i, g, d) && NewFrom(cfg, Last(run), m) && g < m
    requires i in cfg.chunkBase.dir
    ensures Runs(cfg, more) && Open(cfg, Last(more), i, g, d) && NewFrom(cfg, Last(more), m)
    ensures Last(more).chunks == Last(run).chunks.(alloc := Last(run).chunks.alloc - {i}, phase := Last(run).chunks.phase[Claim(g, d) := Freed])
    ensures Last(more).finfos == Last(run).finfos && Last(more).job[g].Reading? && d < Last(more).job[g].launched <= |cfg.files[g].live|
  {
    var l;
    more, l := ReadTo(cfg, run, g, d + 1);
    var s := Last(more).chunks;
    var t := s.(alloc := s.alloc - {i}, phase := s.phase[Claim(g, d) := Freed]);
    assert FreeStep(cfg.chunkBase, s, Claim(g, d), t);
    more := ActedOn(cfg, more, g, d, t);
    StillNew(cfg, Last(run), Last(more), m, g, d);
  }

  lemma StillNew(cfg: Config, s: State, s': State, m: nat, g: nat, d: nat)
    requires NewFrom(cfg, s, m) && g < m && |s'.job| == |s.job|
    requires forall k :: 0 <= k < |s.job| && k != g ==> s'.job[k] == s.job[k]
    requires OnlyMoved(s.chunks, Claim(g, d), s'.chunks)
    ensures NewFrom(cfg, s', m)
  {
    forall k: nat | m <= k < |cfg.files| ensures NotBegun(cfg, s', k) {
      assert NotBegun(cfg, s, k);
    }
  }

  /** A new file takes the lowest free index. */
  lemma NewTakes(cfg: Config, run: seq<State>, k: nat, j: int) returns (more: seq<State>)
    requires Runs(cfg, run) && k < |cfg.files| && NewFrom(cfg, Last(run), k) && Lowest(Last(run).chunks.alloc, j)
    ensures Runs(cfg, more) && NewFrom(cfg, Last(more), k + 1)
    ensures OnlyMoved(Last(run).chunks, Claim(k, 0), Last(more).chunks)
    ensures Last(more).chunks.alloc == Last(run).chunks.alloc + {j} && Last(more).chunks.dir == Last(run).chunks.dir
    ensures forall f :: 0 <= f < |cfg.files| && f != k ==> Last(more).job[f] == Last(run).job[f]
  {
    assert NotBegun(cfg, Last(run), k);
    more := Begun(cfg, run, k);
    more := Launched(cfg, more, k, 0);
    var s := Last(more).chunks;
    var t := s.(alloc := s.alloc + {j}, phase := s.phase[Claim(k, 0) := Owned(j)]);
    assert AllocStep(cfg.chunkBase, s, Claim(k, 0), t);
    more := ActedOn(cfg, more, k, 0, t);
    forall q: nat | k + 1 <= q < |cfg.files| ensures NotBegun(cfg, Last(more), q) {
      assert NotBegun(cfg, Last(run), q);
    }
  }

  ghost predicate Below(s: Store, k: int) { forall j :: 0 <= j < k ==> j in s.alloc }

  lemma StaysOpen(cfg: Config, s: State, s': State, i: int, g: nat, d: nat, k: nat)
    requires Open(cfg, s, i, g, d) && |s'.job| == |s.job| && g < k
    requires OnlyMoved(s.chunks, Claim(k, 0), s'.chunks) && i !in s'.chunks.alloc && s'.chunks.dir == s.chunks.dir
    requires s'.job[g] == s.job[g]
    ensures Open(cfg, s', i, g, d)
  {
  }

  /** One new file after the other fills the gaps below `i`. */
  lemma {:induction false} FillUp(cfg: Config, run: seq<State>, i: int, g: nat, d: nat, m: nat, k: nat) returns (more: seq<State>)
    requires Runs(cfg, run) && Open(cfg, Last(run), i, g, d) && g < m && |cfg.files| == m + i && k <= i
    requires NewFrom(cfg, Last(run), m + k) && Below(Last(run).chunks, k)
    ensures Runs(cfg, more) && Open(cfg, Last(more), i, g, d) && Lowest(Last(more).chunks.alloc, i)
    decreases i - k
  {
    if Lowest(Last(run).chunks.alloc, i) {
      more := run;
    } else {
      var alloc := Last(run).chunks.alloc;
      var j := LowestExists(alloc, alloc, 0);
      more := NewTakes(cfg, run, m + k, j);
      StaysOpen(cfg, Last(run), Last(more), i, g, d, m + k);
      more := FillUp(cfg, more, i, g, d, m, k + 1);
    }
  }

  /** And the rewriting job gets the index back, whose name leads into the base. */
  lemma TakeBack(cfg: Config, run: seq<State>, i: int, g: nat, d: nat) returns (more: seq<State>)
    requires Runs(cfg, run) && Open(cfg, Last(run), i, g, d) && Rewrites(cfg, g, d) && Lowest(Last(run).chunks.alloc, i)
    ensures Runs(cfg, more) && Threatened(cfg.chunkBase, Last(more).chunks) && Last(more).job == Last(run).job && Last(more).finfos == Last(run).finfos
    ensures Last(more).chunks == Last(run).chunks.(alloc := Last(run).chunks.alloc + {i}, phase := Last(run).chunks.phase[Claim(g, d) := Owned(i)])
  {
    var s := Last(run).chunks;
    var t := s.(alloc := s.alloc + {i}, phase := s.phase[Claim(g, d) := Owned(i)]);
    assert AllocStep(cfg.chunkBase, s, Claim(g, d), t);
    more := ActedOn(cfg, run, g, d, t);
    assert t.phase[Claim(g, d)] == Owned(i);
  }

  lemma MixedThreatens(cfg: Config, f: nat, c: nat, g: nat, d: nat) returns (more: Config, run: seq<State>)
    requires ClaimsMatch(cfg) && BlocksExist(cfg.chunkBase) && MixedAt(cfg, f, c, g, d)
    ensures MoreNew(cfg, more) && Runs(more, run) && Threatened(more.chunkBase, Last(run).chunks)
  {
    var i, m := BaseChunks(cfg.files[g])[d].idx, |cfg.files|;
    more := Extended(cfg, i);
    ExtendedIsMore(cfg, i);
    NewAtFirst(more, m);
    MixedThere(cfg, more, f, c, g, d);
    run := KeepFirst(more, f, c);
    RewriterWaits(more, Last(run), f, c, g, d);
    OthersWait(more, Last(run), f, c, m);
    run := OpenUp(more, run, i, g, d, m);
    run := FillUp(more, run, i, g, d, m, 0);
    run := TakeBack(more, run, i, g, d);
  }

  lemma MixedThere(cfg: Config, more: Config, f: nat, c: nat, g: nat, d: nat)
    requires MoreNew(cfg, more) && MixedAt(cfg, f, c, g, d)
    ensures MixedAt(more, f, c, g, d)
  {
    SamePlaces(cfg, more, f, c);
    SamePlaces(cfg, more, g, d);
  }

  /** No job is about to write to an inode of the base, and no inode of the base has changed. */
  ghost predicate BaseAlone(cfg: Config, s: State) {
    && !Threatened(cfg.chunkBase, s.chunks) && BaseKept(cfg.chunkBase, s.chunks)
    && !Threatened(cfg.finfoBase, s.finfos) && BaseKept(cfg.finfoBase, s.finfos)
  }

  ghost predicate LeavesBaseAlone(cfg: Config) {
    forall run, k :: CreateRuns.Run(cfg, run) && 0 <= k < |run| ==> BaseAlone(cfg, run[k])
  }

  /** Whatever else is new in the live tree, no run writes to the base archive: exactly if no base block is both to be
      kept and to be rewritten. The base need not be readable or complete. */
  lemma BaseAloneExactly(cfg: Config)
    requires ClaimsMatch(cfg) && Coherent(cfg) && BlocksExist(cfg.chunkBase)
    ensures (forall more :: MoreNew(cfg, more) ==> LeavesBaseAlone(more)) <==> !Mixed(cfg)
  {
    if !Mixed(cfg) {
      forall more | MoreNew(cfg, more) ensures LeavesBaseAlone(more) { UnmixedLeavesAlone(cfg, more); }
    }
    if Mixed(cfg) {
      var f, c, g, d :| MixedAt(cfg, f, c, g, d);
      var more, run := MixedThreatens(cfg, f, c, g, d);
      assert !BaseAlone(more, run[|run| - 1]) && !LeavesBaseAlone(more);
    }
  }

  lemma UnmixedLeavesAlone(cfg: Config, more: Config)
    requires Coherent(cfg) && !Mixed(cfg) && MoreNew(cfg, more)
    ensures LeavesBaseAlone(more)
  {
    StaysUnmixed(cfg, more);
    StaysCoherent(cfg, more);
    forall run, k | CreateRuns.Run(more, run) && 0 <= k < |run| ensures BaseAlone(more, run[k]) {
      BaseOutOfReach(more, run, k);
    }
  }

  /** If all lower indices are taken anyway, no new file is needed, and the write goes through. */
  lemma MixedOverwrites(cfg: Config, f: nat, c: nat, g: nat, d: nat) returns (run: seq<State>)
    requires ClaimsMatch(cfg) && BlocksExist(cfg.chunkBase) && MixedAt(cfg, f, c, g, d)
    requires var i := BaseChunks(cfg.files[g])[d].idx; Lowest(cfg.chunkBase.dir.Keys - {i}, i)
    ensures CreateRuns.Run(cfg, run) && Last(run).finfos == Fresh(cfg.finfoBase)
    ensures var i := BaseChunks(cfg.files[g])[d].idx;
            Last(run).chunks.disk == cfg.chunkBase.disk[cfg.chunkBase.dir[i] := Packed(cfg, cfg.files[g].live[d]).1]
  {
    var i := BaseChunks(cfg.files[g])[d].idx;
    run := KeepFirst(cfg, f, c);
    RewriterWaits(cfg, Last(run), f, c, g, d);
    assert Last(run).chunks.dir[i] == cfg.chunkBase.dir[i] && Last(run).chunks.disk == cfg.chunkBase.disk;
    run := OverwrittenFrom(cfg, run, i, g, d);
  }

  lemma OverwrittenFrom(cfg: Config, run: seq<State>, i: int, g: nat, d: nat) returns (more: seq<State>)
    requires Runs(cfg, run) && Rewrites(cfg, g, d) && Kept(cfg, Last(run), i, g, d) && i in cfg.chunkBase.dir
    requires Lowest(cfg.chunkBase.dir.Keys - {i}, i)
    ensures CreateRuns.Run(cfg, more) && Last(more).finfos == Last(run).finfos
    ensures var s := Last(run).chunks; Last(more).chunks.disk == s.disk[s.dir[i] := Packed(cfg, cfg.files[g].live[d]).1]
  {
    more := OpenUp(cfg, run, i, g, d, |cfg.files|);
    more := TakeBack(cfg, more, i, g, d);
    var s := Last(more).chunks;
    var data := Packed(cfg, cfg.files[g].live[d]).1;
    var t := s.(disk := s.disk[s.dir[i] := data], phase := s.phase[Claim(g, d) := Written(i, data)]);
    assert SpitStep(cfg.chunkBase, s, Claim(g, d), data, t);
    more := ActedOn(cfg, more, g, d, t);
  }
}
