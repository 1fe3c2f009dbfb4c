/** `ReverseAlloc`: tasks walk a block tree in any order and mark what they find (BlockList.cpp). */
module BlockWalks {
  import opened Measures
  import opened Numbers
  import opened BlockLists
  import opened BlockTrees

  /** A submitted task: list a directory, or mark the index a file is named after. */
  datatype Task = Walk(dir: seq<string>) | Mark(path: seq<string>, name: string)

  datatype State = State(pending: set<Task>, ranges: seq<Range>, thrown: bool)

  const START := State({Walk([])}, [], false)

  function Submitted(t: Tree, dir: seq<string>): set<Task> {
    (set p | p in t.dirs && |p| == |dir| + 1 && p[..|dir|] == dir :: Walk(p))
    + (set f | f in t.files && f.0 == dir :: Mark(f.0, f.1))
  }

  /** One task runs. Listing reads a tree that does not change, so all that it submits may as well appear at once.
      Marking has the outcome that `BlockList.MarkAllocated` promises. */
  ghost predicate Next(t: Tree, s: State, task: Task, s': State) {
    && task in s.pending
    && match task
       case Walk(dir) =>
         s' == s.(pending := s.pending - {task} + Submitted(t, dir))
       case Mark(_, name) =>
         var idx := Number(name);
         && s'.pending == s.pending - {task}
         && WellFormed(s'.ranges) && Indices(s'.ranges) == Indices(s.ranges) + {idx}
         && s'.thrown == (s.thrown || idx in Indices(s.ranges))
  }

  ghost predicate Step(t: Tree, s: State, s': State) { exists task :: Next(t, s, task, s') }

  ghost predicate Run(t: Tree, run: seq<State>) {
    && run != [] && run[0] == START
    && forall k :: 0 < k < |run| ==> Step(t, run[k - 1], run[k])
  }

  /** `strtoull` of a file name, as an index. */
  function Number(name: string): int { ToI64(StrToULL(name, 10)) }

  /** All directories on the way to a file are there, and its name reads as an index. */
  ghost predicate Rooted(t: Tree) {
    forall f :: f in t.files ==> Number(f.1) >= 0 && forall k :: 0 <= k <= |f.0| ==> f.0[..k] in t.dirs
  }

  /** The task will lead to the marking of file `f`. */
  predicate Covers(task: Task, f: (seq<string>, string)) {
    match task
    case Walk(dir) => dir <= f.0
    case Mark(path, name) => (path, name) == f
  }

  ghost predicate Awaits(s: State, f: (seq<string>, string)) { exists task :: task in s.pending && Covers(task, f) }

  ghost predicate Marked(t: Tree, s: State, f: (seq<string>, string)) { f in t.files && !Awaits(s, f) }

  /** Two files that have been marked have one number. */
  ghost predicate Twice(t: Tree, s: State) {
    exists f, g :: Marked(t, s, f) && Marked(t, s, g) && f != g && Number(f.1) == Number(g.1)
  }

  /** Every file is marked, or led to by exactly one pending task; a number that comes twice has been noticed. */
  ghost predicate Inv(t: Tree, s: State) {
    && WellFormed(s.ranges)
    && (forall task :: task in s.pending && task.Mark? ==> (task.path, task.name) in t.files)
    && (forall f, a, b :: f in t.files && a in s.pending && b in s.pending && Covers(a, f) && Covers(b, f) ==> a == b)
    && (forall i :: i in Indices(s.ranges) <==> exists f :: Marked(t, s, f) && Number(f.1) == i)
    && (s.thrown <==> Twice(t, s))
  }

  /** Listing a directory hands each file below it to exactly one new task. */
  lemma SubmittedCovers(t: Tree, dir: seq<string>, f: (seq<string>, string))
    requires Rooted(t) && f in t.files
    ensures (exists x :: x in Submitted(t, dir) && Covers(x, f)) <==> Covers(Walk(dir), f)
    ensures forall a, b :: a in Submitted(t, dir) && b in Submitted(t, dir) && Covers(a, f) && Covers(b, f) ==> a == b
  {
    var p := f.0;
    if dir == p {
      assert Mark(p, f.1) in Submitted(t, dir) && Covers(Mark(p, f.1), f);
    } else if dir <= p {
      var q := p[..|dir| + 1];
      assert q <= p && q in t.dirs;
      assert Walk(q) in Submitted(t, dir) && Covers(Walk(q), f);
    }
    forall x | x in Submitted(t, dir) && Covers(x, f)
      ensures dir <= p && x == if dir == p then Mark(p, f.1) else Walk(p[..|dir| + 1])
    {
      if x.Walk? { assert x.dir == p[..|x.dir|]; }
    }
  }

  lemma WalkAwaits(t: Tree, s: State, dir: seq<string>, s': State, f: (seq<string>, string))
    requires Rooted(t) && Inv(t, s) && Next(t, s, Walk(dir), s') && f in t.files
    ensures Awaits(s', f) <==> Awaits(s, f)
    ensures forall a, b :: a in s'.pending && b in s'.pending && Covers(a, f) && Covers(b, f) ==> a == b
  {
    SubmittedCovers(t, dir, f);
    assert Walk(dir) in s.pending;
    if x :| x in s.pending && Covers(x, f) && x != Walk(dir) { assert x in s'.pending; }
    if x :| x in Submitted(t, dir) && Covers(x, f) { assert x in s'.pending; }
  }

  lemma WalkStep(t: Tree, s: State, dir: seq<string>, s': State)
    requires Rooted(t) && Inv(t, s) && Next(t, s, Walk(dir), s')
    ensures Inv(t, s')
  {
    forall f | f in t.files
      ensures Awaits(s', f) <==> Awaits(s, f)
      ensures forall a, b :: a in s'.pending && b in s'.pending && Covers(a, f) && Covers(b, f) ==> a == b
    {
      WalkAwaits(t, s, dir, s', f);
    }
    SameMarked(t, s, s');
  }

  lemma SameMarked(t: Tree, s: State, s': State)
    requires forall f :: f in t.files ==> (Awaits(s', f) <==> Awaits(s, f))
    ensures Twice(t, s') <==> Twice(t, s)
    ensures forall f :: Marked(t, s', f) <==> Marked(t, s, f)
  {
    assert forall f :: Marked(t, s', f) <==> Marked(t, s, f);
    if f, g :| Marked(t, s, f) && Marked(t, s, g) && f != g && Number(f.1) == Number(g.1) {
      assert Marked(t, s', f) && Marked(t, s', g);
    }
    if f, g :| Marked(t, s', f) && Marked(t, s', g) && f != g && Number(f.1) == Number(g.1) {
      assert Marked(t, s, f) && Marked(t, s, g);
    }
  }

  /** Marking one file moves that file only. */
  lemma MarkMoves(t: Tree, s: State, f: (seq<string>, string), s': State)
    requires Inv(t, s) && f in t.files && Next(t, s, Mark(f.0, f.1), s')
    ensures !Marked(t, s, f) && forall g :: Marked(t, s', g) <==> Marked(t, s, g) || g == f
  {
    var task := Mark(f.0, f.1);
    assert task in s.pending && Covers(task, f);
    forall g ensures Marked(t, s', g) <==> Marked(t, s, g) || g == f {
      if x :| x in s.pending && Covers(x, g) && g != f { assert x in s'.pending; }
      if x :| x in s'.pending && Covers(x, g) { assert x in s.pending; }
    }
  }

  lemma MarkNotices(t: Tree, s: State, f: (seq<string>, string), s': State)
    requires Inv(t, s) && f in t.files && Next(t, s, Mark(f.0, f.1), s')
    requires !Marked(t, s, f) && forall g :: Marked(t, s', g) <==> Marked(t, s, g) || g == f
    ensures s'.thrown <==> Twice(t, s')
  {
    if s.thrown {
      var g, h :| Marked(t, s, g) && Marked(t, s, h) && g != h && Number(g.1) == Number(h.1);
      assert Marked(t, s', g) && Marked(t, s', h);
    } else if Number(f.1) in Indices(s.ranges) {
      var g :| Marked(t, s, g) && Number(g.1) == Number(f.1);
      assert Marked(t, s', g) && Marked(t, s', f);
    }
  }

  lemma MarkIndices(t: Tree, s: State, f: (seq<string>, string), s': State, i: int)
    requires Inv(t, s) && f in t.files && Next(t, s, Mark(f.0, f.1), s')
    requires forall g :: Marked(t, s', g) <==> Marked(t, s, g) || g == f
    ensures i in Indices(s'.ranges) <==> exists g :: Marked(t, s', g) && Number(g.1) == i
  {
    if i == Number(f.1) { assert Marked(t, s', f); }
    if g :| Marked(t, s, g) && Number(g.1) == i { assert Marked(t, s', g); }
  }

  lemma MarkStep(t: Tree, s: State, task: Task, s': State)
    requires Inv(t, s) && task.Mark? && Next(t, s, task, s')
    ensures Inv(t, s')
  {
    var f := (task.path, task.name);
    MarkMoves(t, s, f, s');
    MarkNotices(t, s, f, s');
    forall i ensures i in Indices(s'.ranges) <==> exists g :: Marked(t, s', g) && Number(g.1) == i { MarkIndices(t, s, f, s', i); }
  }

  lemma StepKeepsInv(t: Tree, s: State, s': State)
    requires Rooted(t) && Inv(t, s) && Step(t, s, s')
    ensures Inv(t, s')
  {
    var task :| Next(t, s, task, s');
    match task
    case Walk(dir) => WalkStep(t, s, dir, s');
    case Mark(_, _) => MarkStep(t, s, task, s');
  }

  lemma StartInv(t: Tree)
    ensures Inv(t, START)
  {
    assert Walk([]) in START.pending;
    forall f | f in t.files ensures Awaits(START, f) { assert Covers(Walk([]), f); }
  }

  lemma {:induction false} RunKeepsInv(t: Tree, run: seq<State>, k: nat)
    requires Rooted(t) && Run(t, run) && k < |run|
    ensures Inv(t, run[k])
  {
    if k == 0 {
      StartInv(t);
    } else {
      RunKeepsInv(t, run, k - 1);
      StepKeepsInv(t, run[k - 1], run[k]);
    }
  }

  predicate HasNumber(t: Tree, f: (seq<string>, string), i: int) { f in t.files && Number(f.1) == i }

  predicate SameNumber(t: Tree, f: (seq<string>, string), g: (seq<string>, string)) {
    f in t.files && g in t.files && f != g && Number(f.1) == Number(g.1)
  }

  /** On any directory tree and in every order of the tasks: a finished walk has allocated the numbers of all files, and
      has thrown if and only if two files have one number. */
  lemma WalkExactly(t: Tree, run: seq<State>)
    requires Rooted(t) && Run(t, run) && run[|run| - 1].pending == {}
    ensures var last := run[|run| - 1];
            && WellFormed(last.ranges)
            && (forall i :: i in Indices(last.ranges) <==> exists f :: HasNumber(t, f, i))
            && (last.thrown <==> exists f, g :: SameNumber(t, f, g))
  {
    var s := run[|run| - 1];
    RunKeepsInv(t, run, |run| - 1);
    assert forall f :: Marked(t, s, f) <==> f in t.files;
    if s.thrown {
      var f, g :| Marked(t, s, f) && Marked(t, s, g) && f != g && Number(f.1) == Number(g.1);
      assert SameNumber(t, f, g);
    }
    if f, g :| SameNumber(t, f, g) { assert Marked(t, s, f) && Marked(t, s, g); }
    forall i ensures i in Indices(s.ranges) <==> exists f :: HasNumber(t, f, i) {
      if f :| Marked(t, s, f) && Number(f.1) == i { assert HasNumber(t, f, i); }
      if f :| HasNumber(t, f, i) { assert Marked(t, s, f); }
    }
  }

  lemma StoresRooted(t: Tree, blocks: set<nat>, m: nat)
    requires m >= 2 && Stores(t, blocks, m) && forall i :: i in blocks ==> i < I63
    ensures Rooted(t)
    ensures forall f :: f in t.files ==> Number(f.1) in blocks && f == (SubDirs(Number(f.1), m), FileName(Number(f.1)))
    ensures forall i :: i in blocks ==> (SubDirs(i, m), FileName(i)) in t.files && Number(FileName(i)) == i
  {
    forall i | i in blocks ensures Number(FileName(i)) == i { PrintRoundTrip(i, 10); }
    forall f | f in t.files
      ensures Number(f.1) in blocks && f == (SubDirs(Number(f.1), m), FileName(Number(f.1)))
      ensures forall k :: 0 <= k <= |f.0| ==> f.0[..k] in t.dirs
    {
      var i :| i in blocks && f == (SubDirs(i, m), FileName(i));
    }
  }

  /** However the tasks are ordered, nothing is thrown, and a finished walk has allocated exactly the stored blocks. */
  lemma WalkRebuilds(t: Tree, blocks: set<nat>, m: nat, run: seq<State>)
    requires m >= 2 && Stores(t, blocks, m) && Run(t, run)
    requires forall i :: i in blocks ==> i < I63
    ensures forall k :: 0 <= k < |run| ==> !run[k].thrown
    ensures var last := run[|run| - 1]; last.pending == {} ==> WellFormed(last.ranges) && Indices(last.ranges) == blocks
  {
    StoresRooted(t, blocks, m);
    forall k | 0 <= k < |run| ensures !run[k].thrown { RunKeepsInv(t, run, k); }
    if run[|run| - 1].pending == {} {
      WalkExactly(t, run);
      forall i ensures i in Indices(run[|run| - 1].ranges) <==> i in blocks {
        if i in blocks { assert HasNumber(t, (SubDirs(i, m), FileName(i)), i); }
      }
    }
  }

  /** Two finished walks of the same tree end in the same range vector. */
  lemma WalkOrderIsIrrelevant(t: Tree, blocks: set<nat>, m: nat, run: seq<State>, run': seq<State>)
    requires m >= 2 && Stores(t, blocks, m) && Run(t, run) && Run(t, run')
    requires forall i :: i in blocks ==> i < I63
    requires run[|run| - 1].pending == {} && run'[|run'| - 1].pending == {}
    ensures run[|run| - 1].ranges == run'[|run'| - 1].ranges
  {
    WalkRebuilds(t, blocks, m, run);
    WalkRebuilds(t, blocks, m, run');
    Canonical(run[|run| - 1].ranges, run'[|run'| - 1].ranges);
  }

  /** Tasks that may still come up: those of the tree that are pending or below a pending listing. */
  function TasksOf(t: Tree): set<Task> { (set p | p in t.dirs :: Walk(p)) + (set f | f in t.files :: Mark(f.0, f.1)) }

  function PathOf(task: Task): seq<string> { if task.Walk? then task.dir else task.path }

  predicate Above(a: Task, b: Task) { a.Walk? && a != b && a.dir <= PathOf(b) }

  ghost predicate Awaited(t: Tree, s: State, x: Task) {
    x in TasksOf(t) && (x in s.pending || exists a :: a in s.pending && Above(a, x))
  }

  ghost function Rest(t: Tree, s: State): set<Task> { set x | x in TasksOf(t) && Awaited(t, s, x) }

  /** Pending tasks belong to the tree, and none will submit another. */
  ghost predicate Apart(t: Tree, s: State) {
    && s.pending <= TasksOf(t)
    && forall a, b :: a in s.pending && b in s.pending ==> !Above(a, b)
  }

  lemma SubmittedBelow(t: Tree, dir: seq<string>, x: Task)
    requires x in Submitted(t, dir)
    ensures x in TasksOf(t) && Above(Walk(dir), x) && PathOf(x)[..|dir|] == dir
    ensures x.Walk? ==> |x.dir| == |dir| + 1
    ensures x.Mark? ==> x.path == dir
  {
  }

  /** Submitted tasks are apart from each other and from all others. */
  lemma ApartStays(t: Tree, s: State, task: Task, s': State)
    requires Apart(t, s) && Next(t, s, task, s')
    ensures Apart(t, s')
  {
    forall x | x in s'.pending ensures x in TasksOf(t) {
      if x !in s.pending { SubmittedBelow(t, task.dir, x); }
    }
    forall a, b | a in s'.pending && b in s'.pending ensures !Above(a, b) {
      if a !in s.pending { SubmittedBelow(t, task.dir, a); }
      if b !in s.pending { SubmittedBelow(t, task.dir, b); }
      assert a in s.pending ==> !Above(a, task);
      assert b in s.pending ==> !Above(task, b);
    }
  }

  /** The task that runs does not come up again, and no new one does. */
  lemma StepRests(t: Tree, s: State, task: Task, s': State)
    requires Apart(t, s) && Next(t, s, task, s')
    ensures Rest(t, s') < Rest(t, s)
  {
    forall x | x in Rest(t, s') ensures x in Rest(t, s) && x != task {
      if x in s'.pending {
        if x !in s.pending { SubmittedBelow(t, task.dir, x); }
      } else {
        var a :| a in s'.pending && Above(a, x);
        if a !in s.pending { SubmittedBelow(t, task.dir, a); }
        assert a in s.pending ==> !Above(a, task);
      }
    }
    assert task in Rest(t, s);
  }

  /** Every walk ends: each directory and each file of the tree has one task. */
  lemma {:induction false} WalksAreBounded(t: Tree, run: seq<State>, k: nat)
    requires Run(t, run) && k < |run| && [] in t.dirs
    ensures Apart(t, run[k]) && |Rest(t, run[k])| + k <= |TasksOf(t)|
  {
    if k == 0 {
      assert Walk([]) in TasksOf(t);
      SubsetSize(Rest(t, START), TasksOf(t));
    } else {
      WalksAreBounded(t, run, k - 1);
      assert Step(t, run[k - 1], run[k]);
      var task :| Next(t, run[k - 1], task, run[k]);
      ApartStays(t, run[k - 1], task, run[k]);
      StepRests(t, run[k - 1], task, run[k]);
      SubsetSize(Rest(t, run[k]), Rest(t, run[k - 1]));
    }
  }

  /** Some range vector holds one index more. */
  lemma Markable(rs: seq<Range>, idx: int) returns (more: seq<Range>)
    requires WellFormed(rs) && 0 <= idx
    ensures WellFormed(more) && Indices(more) == Indices(rs) + {idx}
  {
    var k := Find(rs, idx);
    FindDecides(rs, idx);
    if k >= 0 && rs[k].max >= idx {
      more := rs;
      assert Indices(rs) + {idx} == Indices(rs);
    } else {
      more := MarkedAt(rs, k, idx);
    }
  }

  lemma MarkedAt(rs: seq<Range>, k: int, idx: int) returns (more: seq<Range>)
    requires WellFormed(rs) && -1 <= k < |rs| && 0 <= idx
    requires k >= 0 ==> rs[k].max < idx
    requires k + 1 < |rs| ==> idx < rs[k + 1].min
    ensures WellFormed(more) && Indices(more) == Indices(rs) + {idx}
  {
    MarkGrows(rs, k, idx);
    var joinsLeft, joinsRight := k >= 0 && idx == rs[k].max + 1, k + 1 < |rs| && rs[k + 1].min == idx + 1;
    var r := Range(if joinsLeft then rs[k].min else idx, if joinsRight then rs[k + 1].max else idx);
    var i, j := if joinsLeft then k else k + 1, if joinsRight then k + 2 else k + 1;
    assert Adds(rs, i, j, r, idx);
    more := rs[..i] + [r] + rs[j..];
  }

  /** Any pending task can run. */
  lemma NotStuck(t: Tree, s: State, task: Task) returns (s': State)
    requires Rooted(t) && Inv(t, s) && task in s.pending
    ensures Next(t, s, task, s')
  {
    match task
    case Walk(dir) => s' := s.(pending := s.pending - {task} + Submitted(t, dir));
    case Mark(path, name) =>
      assert (path, name) in t.files;
      var more := Markable(s.ranges, Number(name));
      s' := State(s.pending - {task}, more, s.thrown || Number(name) in Indices(s.ranges));
  }

  /** The tree after writing or linking blocks in some order. */
  function TreeOf(idxs: seq<nat>, m: nat): Tree
    requires m >= 2
  {
    if idxs == [] then Tree({[]}, {}) else AddBlock(TreeOf(idxs[..|idxs| - 1], m), idxs[|idxs| - 1], m)
  }

  function Elements(idxs: seq<nat>): set<nat> { set i | i in idxs }

  lemma {:induction false} TreeStores(idxs: seq<nat>, m: nat)
    requires m >= 2
    ensures Stores(TreeOf(idxs, m), Elements(idxs), m)
  {
    if idxs == [] {
      StoresNothing(m);
      assert Elements(idxs) == {};
    } else {
      var front, last := idxs[..|idxs| - 1], idxs[|idxs| - 1];
      TreeStores(front, m);
      StoresGrows(TreeOf(front, m), Elements(front), last, m);
      assert idxs == front + [last];
      assert Elements(idxs) == Elements(front) + {last};
    }
  }

  /** Whatever blocks were written, in whatever order, a walk of the tree they left allocates exactly them. */
  lemma WrittenBlocksAreFound(idxs: seq<nat>, m: nat, run: seq<State>)
    requires m >= 2 && (forall i :: i in idxs ==> i < I63) && Run(TreeOf(idxs, m), run)
    ensures forall k :: 0 <= k < |run| ==> !run[k].thrown
    ensures var last := run[|run| - 1];
            last.pending == {} ==> WellFormed(last.ranges) && forall i :: i in Indices(last.ranges) <==> i >= 0 && i in idxs
  {
    TreeStores(idxs, m);
    WalkRebuilds(TreeOf(idxs, m), Elements(idxs), m, run);
  }
}
