/** `DoTest` with its jobs side by side: one job for each list line, one task for each chunk (Archive.cpp).
    Whatever the interleaving, the verdict is the same. */
module TestRuns {
  import opened Common
  import opened FInfos
  import opened Measures
  import CreateRuns
  import opened ReadBacks
  import opened Snapshots
  import opened Histories
  import opened ArchiveTests

  /** `DoTestJob`: `Skipped` has no data or lost the race for its FInfo index, `Failed` could not open the FInfo. */
  datatype Job = Waiting | Opening | Looping(next: nat) | Skipped | Over | Failed

  /** The chunk task of a list line. */
  datatype Task = Task(line: nat, part: nat)

  /** `finfos` and `chunks` are the maps of used blocks; `pending` are the tasks submitted and not yet run; `fault`
      records an exception, which ends the program without a clean verdict. */
  datatype State = State(job: seq<Job>, finfos: set<int>, chunks: set<int>, pending: set<Task>, mismatched: set<int>, fault: bool)

  datatype Test = Test(sh: Shelf, entries: seq<(char, int)>)

  function Init(t: Test): State { State(seq(|t.entries|, _ => Waiting), {}, {}, {}, {}, false) }

  ghost predicate IsLine(t: Test, s: State, e: nat) { e < |t.entries| && |s.job| == |t.entries| }

  /** The chunks of a line whose FInfo could be opened. */
  function Parts(t: Test, e: nat): seq<Chunk>
    requires e < |t.entries|
  {
    if Chunks(t.sh, t.entries[e]).Some? then Chunks(t.sh, t.entries[e]).value else []
  }

  /** Check and mark the FInfo index, under its lock. */
  ghost predicate Enter(t: Test, s: State, e: nat, s': State)
    requires IsLine(t, s, e)
  {
    && s.job[e] == Waiting
    && var i := t.entries[e].1;
       if i < 0 || i in s.finfos then s' == s.(job := s.job[e := Skipped])
       else s' == s.(job := s.job[e := Opening], finfos := s.finfos + {i})
  }

  ghost predicate Open(t: Test, s: State, e: nat, s': State)
    requires IsLine(t, s, e)
  {
    && s.job[e] == Opening
    && s' == if Chunks(t.sh, t.entries[e]).Some? then s.(job := s.job[e := Looping(0)])
             else s.(job := s.job[e := Failed], fault := true)
  }

  /** Mark the next chunk, under its lock, and submit its task. */
  ghost predicate Submit(t: Test, s: State, e: nat, s': State)
    requires IsLine(t, s, e)
  {
    && s.job[e].Looping? && s.job[e].next < |Parts(t, e)|
    && var k := s.job[e].next;
       s' == s.(job := s.job[e := Looping(k + 1)], chunks := s.chunks + {Parts(t, e)[k].idx}, pending := s.pending + {Task(e, k)})
  }

  ghost predicate Leave(t: Test, s: State, e: nat, s': State)
    requires IsLine(t, s, e)
  {
    s.job[e] == Looping(|Parts(t, e)|) && s' == s.(job := s.job[e := Over])
  }

  /** The task reads its chunk: an exception, a warning, or nothing. */
  ghost predicate Check(t: Test, s: State, e: nat, s': State)
    requires IsLine(t, s, e)
  {
    exists k: nat :: Task(e, k) in s.pending && k < |Parts(t, e)| && s' == Checked(t, s, e, k)
  }

  function Checked(t: Test, s: State, e: nat, k: nat): State
    requires e < |t.entries| && k < |Parts(t, e)|
  {
    var c := Parts(t, e)[k];
    var after := s.(pending := s.pending - {Task(e, k)});
    match CheckChunk(t.sh, c)
    case Err(_) => after.(fault := true)
    case Ok(good) => if good then after else after.(mismatched := s.mismatched + {c.idx})
  }

  ghost predicate LineStep(t: Test, s: State, e: nat, s': State) {
    IsLine(t, s, e) && (Enter(t, s, e, s') || Open(t, s, e, s') || Submit(t, s, e, s') || Leave(t, s, e, s') || Check(t, s, e, s'))
  }

  ghost predicate Step(t: Test, s: State, s': State) { exists e :: LineStep(t, s, e, s') }

  ghost predicate StepAt(t: Test, run: seq<State>, k: int) { 0 < k < |run| && Step(t, run[k - 1], run[k]) }

  ghost predicate Run(t: Test, run: seq<State>) {
    run != [] && run[0] == Init(t) && forall k :: 0 < k < |run| ==> StepAt(t, run, k)
  }

  predicate Opened(j: Job) { j.Opening? || j.Looping? || j.Over? || j.Failed? }

  /** How many tasks the job has submitted. */
  function Begun(t: Test, s: State, e: nat): nat
    requires e < |t.entries| && e < |s.job|
  {
    match s.job[e] case Looping(k) => k case Over => |Parts(t, e)| case _ => 0
  }

  predicate Started(t: Test, s: State, e: nat, k: nat) { e < |t.entries| && e < |s.job| && k < Begun(t, s, e) && k < |Parts(t, e)| }

  ghost predicate JobOK(t: Test, s: State, e: nat)
    requires IsLine(t, s, e)
  {
    var i := t.entries[e].1;
    match s.job[e]
    case Waiting => true
    case Skipped => i < 0 || i in s.finfos
    case Opening => i >= 0
    case Looping(k) => i >= 0 && Chunks(t.sh, t.entries[e]).Some? && k <= |Parts(t, e)|
    case Over => i >= 0 && Chunks(t.sh, t.entries[e]).Some?
    case Failed => i >= 0 && Chunks(t.sh, t.entries[e]) == None && s.fault
  }

  /** A started task is pending, or has left its trace. */
  ghost predicate TaskOK(t: Test, s: State, e: nat, k: nat)
    requires Started(t, s, e, k)
  {
    var c := Parts(t, e)[k];
    && c.idx in s.chunks
    && (|| Task(e, k) in s.pending || CheckChunk(t.sh, c) == Ok(true)
        || (CheckChunk(t.sh, c) == Ok(false) && c.idx in s.mismatched) || (CheckChunk(t.sh, c).Err? && s.fault))
  }

  ghost predicate SomeOpened(t: Test, s: State, i: int) {
    exists e: nat :: e < |t.entries| && e < |s.job| && Opened(s.job[e]) && t.entries[e].1 == i
  }

  ghost predicate SomeStarted(t: Test, s: State, i: int) {
    exists e: nat, k: nat :: Started(t, s, e, k) && Parts(t, e)[k].idx == i
  }

  ghost predicate SomeMismatched(t: Test, s: State, i: int) {
    exists e: nat, k: nat :: Started(t, s, e, k) && Parts(t, e)[k].idx == i && CheckChunk(t.sh, Parts(t, e)[k]) == Ok(false)
  }

  /** An exception has a cause. */
  ghost predicate SomeBroken(t: Test) {
    exists e :: e in t.entries && (Chunks(t.sh, e) == None || exists c :: c in Chunks(t.sh, e).value && CheckChunk(t.sh, c).Err?)
  }

  ghost predicate Inv(t: Test, s: State) {
    && |s.job| == |t.entries|
    && (forall e: nat :: e < |t.entries| ==> JobOK(t, s, e))
    && (forall e: nat, k: nat :: Started(t, s, e, k) ==> TaskOK(t, s, e, k))
    && (forall p :: p in s.pending ==> Started(t, s, p.line, p.part))
    && (forall i :: i in s.finfos <==> SomeOpened(t, s, i))
    && (forall i :: i in s.chunks ==> SomeStarted(t, s, i))
    && (forall i :: i in s.mismatched ==> SomeMismatched(t, s, i))
    && (s.fault ==> SomeBroken(t))
  }

  /** What a step of line `e` leaves alone, and what it only adds to. */
  ghost predicate Adds(t: Test, s: State, e: nat, s': State) {
    && |s.job| == |s'.job| == |t.entries| && e < |t.entries|
    && (forall d :: 0 <= d < |s.job| && d != e ==> s'.job[d] == s.job[d])
    && s.finfos <= s'.finfos && s.chunks <= s'.chunks && s.mismatched <= s'.mismatched && (s.fault ==> s'.fault)
    && Begun(t, s, e) <= Begun(t, s', e) && (Opened(s.job[e]) ==> Opened(s'.job[e]))
    && (forall p :: p in s.pending && p.line != e ==> p in s'.pending)
  }

  lemma StepAdds(t: Test, s: State, e: nat, s': State)
    requires IsLine(t, s, e) && JobOK(t, s, e) && LineStep(t, s, e, s')
    ensures Adds(t, s, e, s')
  {
    if Check(t, s, e, s') { CheckAdds(t, s, e, s'); }
  }

  lemma CheckAdds(t: Test, s: State, e: nat, s': State)
    requires IsLine(t, s, e) && Check(t, s, e, s')
    ensures Adds(t, s, e, s')
  {
    var k: nat :| Task(e, k) in s.pending && k < |Parts(t, e)| && s' == Checked(t, s, e, k);
    assert s'.job == s.job && s'.finfos == s.finfos && s'.chunks == s.chunks && s'.pending == s.pending - {Task(e, k)};
  }

  lemma StartedStays(t: Test, s: State, e: nat, s': State, d: nat, k: nat)
    requires Adds(t, s, e, s') && Started(t, s, d, k)
    ensures Started(t, s', d, k)
  {
  }

  /** Existence statements survive. */
  lemma SomeStay(t: Test, s: State, e: nat, s': State, i: int)
    requires Adds(t, s, e, s')
    ensures SomeOpened(t, s, i) ==> SomeOpened(t, s', i)
    ensures SomeStarted(t, s, i) ==> SomeStarted(t, s', i)
    ensures SomeMismatched(t, s, i) ==> SomeMismatched(t, s', i)
  {
    if d: nat :| d < |t.entries| && d < |s.job| && Opened(s.job[d]) && t.entries[d].1 == i { assert Opened(s'.job[d]); }
    if d: nat, k: nat :| Started(t, s, d, k) && Parts(t, d)[k].idx == i { StartedStays(t, s, e, s', d, k); }
    if d: nat, k: nat :| Started(t, s, d, k) && Parts(t, d)[k].idx == i && CheckChunk(t.sh, Parts(t, d)[k]) == Ok(false) {
      StartedStays(t, s, e, s', d, k);
    }
  }

  lemma JobsStayOK(t: Test, s: State, e: nat, s': State, d: nat)
    requires IsLine(t, s, e) && LineStep(t, s, e, s') && Adds(t, s, e, s') && d < |t.entries| && JobOK(t, s, d)
    ensures JobOK(t, s', d)
  {
    if d == e && Check(t, s, e, s') {
      var k: nat :| Task(e, k) in s.pending && k < |Parts(t, e)| && s' == Checked(t, s, e, k);
    }
  }

  /** A task that was started before. */
  lemma TaskStaysOK(t: Test, s: State, e: nat, s': State, d: nat, k: nat)
    requires LineStep(t, s, e, s') && Adds(t, s, e, s') && Started(t, s, d, k) && TaskOK(t, s, d, k)
    ensures Started(t, s', d, k) && TaskOK(t, s', d, k)
  {
    StartedStays(t, s, e, s', d, k);
    if Check(t, s, e, s') {
      var j: nat :| Task(e, j) in s.pending && j < |Parts(t, e)| && s' == Checked(t, s, e, j);
    }
  }

  /** A task that has just been started. */
  lemma NewTask(t: Test, s: State, e: nat, s': State, d: nat, k: nat)
    requires LineStep(t, s, e, s') && Adds(t, s, e, s') && Started(t, s', d, k) && !Started(t, s, d, k)
    requires JobOK(t, s, e)
    ensures Submit(t, s, e, s') && d == e && k == s.job[e].next
  {
  }

  lemma TasksStayOK(t: Test, s: State, e: nat, s': State, d: nat, k: nat)
    requires LineStep(t, s, e, s') && Adds(t, s, e, s') && Started(t, s', d, k) && JobOK(t, s, e)
    requires Started(t, s, d, k) ==> TaskOK(t, s, d, k)
    ensures TaskOK(t, s', d, k)
  {
    if Started(t, s, d, k) {
      TaskStaysOK(t, s, e, s', d, k);
    } else {
      NewTask(t, s, e, s', d, k);
    }
  }

  lemma PendingStarted(t: Test, s: State, e: nat, s': State, p: Task)
    requires LineStep(t, s, e, s') && Adds(t, s, e, s') && p in s'.pending
    requires p in s.pending ==> Started(t, s, p.line, p.part)
    ensures Started(t, s', p.line, p.part)
  {
    if p in s.pending { StartedStays(t, s, e, s', p.line, p.part); }
  }

  lemma FInfosOpened(t: Test, s: State, e: nat, s': State, i: int)
    requires LineStep(t, s, e, s') && Adds(t, s, e, s') && (i in s.finfos <==> SomeOpened(t, s, i))
    ensures i in s'.finfos <==> SomeOpened(t, s', i)
  {
    SomeStay(t, s, e, s', i);
    if i in s'.finfos && i !in s.finfos { assert Opened(s'.job[e]) && t.entries[e].1 == i; }
    if d: nat :| d < |t.entries| && d < |s'.job| && Opened(s'.job[d]) && t.entries[d].1 == i {
      if d != e || Opened(s.job[d]) { assert Opened(s.job[d]) && SomeOpened(t, s, i); }
    }
  }

  lemma ChunksStarted(t: Test, s: State, e: nat, s': State, i: int)
    requires LineStep(t, s, e, s') && Adds(t, s, e, s') && i in s'.chunks && (i in s.chunks ==> SomeStarted(t, s, i))
    ensures SomeStarted(t, s', i)
  {
    SomeStay(t, s, e, s', i);
    if i !in s.chunks { assert Started(t, s', e, s.job[e].next); }
  }

  lemma MismatchesFound(t: Test, s: State, e: nat, s': State, i: int)
    requires LineStep(t, s, e, s') && Adds(t, s, e, s') && i in s'.mismatched && (i in s.mismatched ==> SomeMismatched(t, s, i))
    requires forall p :: p in s.pending ==> Started(t, s, p.line, p.part)
    ensures SomeMismatched(t, s', i)
  {
    SomeStay(t, s, e, s', i);
    if i !in s.mismatched {
      var k: nat :| Task(e, k) in s.pending && k < |Parts(t, e)| && s' == Checked(t, s, e, k);
      assert Started(t, s, Task(e, k).line, Task(e, k).part);
      StartedStays(t, s, e, s', e, k);
    }
  }

  lemma FaultHasCause(t: Test, s: State, e: nat, s': State)
    requires LineStep(t, s, e, s') && JobOK(t, s, e) && s'.fault && (s.fault ==> SomeBroken(t))
    requires forall p :: p in s.pending ==> Started(t, s, p.line, p.part)
    ensures SomeBroken(t)
  {
    if !s.fault {
      assert t.entries[e] in t.entries;
      if Check(t, s, e, s') {
        var k: nat :| Task(e, k) in s.pending && k < |Parts(t, e)| && s' == Checked(t, s, e, k);
        assert Parts(t, e)[k] in Chunks(t.sh, t.entries[e]).value;
      }
    }
  }

  lemma StepKeepsInv(t: Test, s: State, e: nat, s': State)
    requires Inv(t, s) && LineStep(t, s, e, s')
    ensures Inv(t, s')
  {
    assert JobOK(t, s, e);
    StepAdds(t, s, e, s');
    forall d: nat | d < |t.entries| ensures JobOK(t, s', d) { JobsStayOK(t, s, e, s', d); }
    forall d: nat, k: nat | Started(t, s', d, k) ensures TaskOK(t, s', d, k) { TasksStayOK(t, s, e, s', d, k); }
    forall p | p in s'.pending ensures Started(t, s', p.line, p.part) { PendingStarted(t, s, e, s', p); }
    forall i ensures i in s'.finfos <==> SomeOpened(t, s', i) { FInfosOpened(t, s, e, s', i); }
    forall i | i in s'.chunks ensures SomeStarted(t, s', i) { ChunksStarted(t, s, e, s', i); }
    forall i | i in s'.mismatched ensures SomeMismatched(t, s', i) { MismatchesFound(t, s, e, s', i); }
    if s'.fault { FaultHasCause(t, s, e, s'); }
  }

  lemma InitInv(t: Test)
    ensures Inv(t, Init(t))
  {
  }

  lemma {:induction false} RunKeepsInv(t: Test, run: seq<State>, k: nat)
    requires Run(t, run) && k < |run|
    ensures Inv(t, run[k])
  {
    if k == 0 {
      InitInv(t);
    } else {
      RunKeepsInv(t, run, k - 1);
      NextKeepsInv(t, run, k);
    }
  }

  lemma NextKeepsInv(t: Test, run: seq<State>, k: int)
    requires StepAt(t, run, k) && Inv(t, run[k - 1])
    ensures Inv(t, run[k])
  {
    var e :| LineStep(t, run[k - 1], e, run[k]);
    StepKeepsInv(t, run[k - 1], e, run[k]);
  }

  /** No two jobs open one FInfo. */
  ghost predicate OpenedOnce(t: Test, s: State) {
    && |s.job| == |t.entries|
    && (forall d, e :: 0 <= d < |s.job| && 0 <= e < |s.job| && Opened(s.job[d]) && Opened(s.job[e]) && t.entries[d].1 == t.entries[e].1 ==> d == e)
  }

  lemma StepOpensOnce(t: Test, s: State, e: nat, s': State)
    requires OpenedOnce(t, s) && LineStep(t, s, e, s') && Adds(t, s, e, s')
    requires forall d: nat :: d < |s.job| && Opened(s.job[d]) ==> t.entries[d].1 in s.finfos
    ensures OpenedOnce(t, s')
  {
  }

  lemma OpenedIsMarked(t: Test, s: State, d: nat)
    requires Inv(t, s) && d < |s.job| && Opened(s.job[d])
    ensures t.entries[d].1 in s.finfos
  {
    assert SomeOpened(t, s, t.entries[d].1);
  }

  lemma NextOpensOnce(t: Test, run: seq<State>, k: int)
    requires StepAt(t, run, k) && Inv(t, run[k - 1]) && OpenedOnce(t, run[k - 1])
    ensures OpenedOnce(t, run[k])
  {
    var e :| LineStep(t, run[k - 1], e, run[k]);
    assert JobOK(t, run[k - 1], e);
    StepAdds(t, run[k - 1], e, run[k]);
    forall d: nat | d < |run[k - 1].job| && Opened(run[k - 1].job[d]) ensures t.entries[d].1 in run[k - 1].finfos {
      OpenedIsMarked(t, run[k - 1], d);
    }
    StepOpensOnce(t, run[k - 1], e, run[k]);
  }

  /** However the jobs interleave, each FInfo is opened, and its chunks tested, by one job only. */
  lemma {:induction false} RunOpensOnce(t: Test, run: seq<State>, k: nat)
    requires Run(t, run) && k < |run|
    ensures OpenedOnce(t, run[k])
  {
    if k > 0 {
      RunOpensOnce(t, run, k - 1);
      RunKeepsInv(t, run, k - 1);
      NextOpensOnce(t, run, k);
    }
  }

  /** The pool is idle: every job has returned, every task has run. */
  predicate Idle(s: State) { s.pending == {} && forall e :: 0 <= e < |s.job| ==> s.job[e].Skipped? || s.job[e].Over? || s.job[e].Failed? }

  /** An entry with data was opened, through its own line or another one of its index. */
  lemma EntryOpened(t: Test, s: State, e: (char, int)) returns (d: nat)
    requires Inv(t, s) && Idle(s) && SameFlags(t.entries) && e in t.entries && e.1 >= 0
    ensures d < |t.entries| && t.entries[d] == e && (s.job[d].Over? || s.job[d].Failed?)
  {
    var f: nat :| f < |t.entries| && t.entries[f] == e;
    assert JobOK(t, s, f);
    assert SomeOpened(t, s, e.1);
    d :| d < |t.entries| && d < |s.job| && Opened(s.job[d]) && t.entries[d].1 == e.1;
    assert t.entries[d] in t.entries;
  }

  /** A finished job has started the task of each chunk, and all tasks have run. */
  lemma ChunkTested(t: Test, s: State, d: nat, c: Chunk)
    requires Inv(t, s) && Idle(s) && d < |t.entries| && s.job[d].Over? && c in Parts(t, d)
    ensures c.idx in s.chunks
    ensures CheckChunk(t.sh, c) == Ok(true) || (CheckChunk(t.sh, c) == Ok(false) && c.idx in s.mismatched) || (CheckChunk(t.sh, c).Err? && s.fault)
  {
    var k: nat :| k < |Parts(t, d)| && Parts(t, d)[k] == c;
    assert Started(t, s, d, k);
    assert TaskOK(t, s, d, k);
  }

  /** In the end an exception was thrown exactly if something is missing or broken. */
  lemma FaultExactly(t: Test, s: State)
    requires Inv(t, s) && Idle(s) && SameFlags(t.entries)
    ensures s.fault <==> SomeBroken(t)
  {
    if SomeBroken(t) {
      var e :| e in t.entries && (Chunks(t.sh, e) == None || exists c :: c in Chunks(t.sh, e).value && CheckChunk(t.sh, c).Err?);
      BrokenFaults(t, s, e);
    }
  }

  lemma BrokenFaults(t: Test, s: State, e: (char, int))
    requires Inv(t, s) && Idle(s) && SameFlags(t.entries) && e in t.entries
    requires Chunks(t.sh, e) == None || exists c :: c in Chunks(t.sh, e).value && CheckChunk(t.sh, c).Err?
    ensures s.fault
  {
    var d := EntryOpened(t, s, e);
    assert JobOK(t, s, d);
    if Chunks(t.sh, e).Some? {
      var c :| c in Chunks(t.sh, e).value && CheckChunk(t.sh, c).Err?;
      ChunkTested(t, s, d, c);
    }
  }

  function SeenBy(s: State): Seen { Seen(s.finfos, s.chunks, s.mismatched) }

  lemma EntryDone(t: Test, s: State, e: (char, int)) returns (d: nat)
    requires Inv(t, s) && Idle(s) && SameFlags(t.entries) && !s.fault && e in t.entries && e.1 >= 0
    ensures d < |t.entries| && t.entries[d] == e && s.job[d].Over? && Chunks(t.sh, e) == Some(Parts(t, d))
  {
    d := EntryOpened(t, s, e);
    assert JobOK(t, s, d);
  }

  lemma LeadsToTested(t: Test, s: State, e: (char, int), c: Chunk)
    requires Inv(t, s) && Idle(s) && SameFlags(t.entries) && !s.fault && e in t.entries
    requires LeadsTo(t.sh.codec, t.sh.finfoDir, t.sh.finfoDisk, e, c)
    ensures c.idx in s.chunks
    ensures CheckChunk(t.sh, c) == Ok(true) || (CheckChunk(t.sh, c) == Ok(false) && c.idx in s.mismatched)
  {
    var d := EntryDone(t, s, e);
    ChunkTested(t, s, d, c);
  }

  lemma StartedLeads(t: Test, s: State, d: nat, k: nat)
    requires Inv(t, s) && Started(t, s, d, k)
    ensures t.entries[d] in t.entries && LeadsTo(t.sh.codec, t.sh.finfoDir, t.sh.finfoDisk, t.entries[d], Parts(t, d)[k])
  {
    assert JobOK(t, s, d);
  }

  lemma IdlePasses(t: Test, s: State)
    requires Inv(t, s) && Idle(s) && SameFlags(t.entries) && !s.fault
    ensures Passes(t.sh, t.entries, s.mismatched)
  {
    FaultExactly(t, s);
    forall e, c | e in t.entries && LeadsTo(t.sh.codec, t.sh.finfoDir, t.sh.finfoDisk, e, c)
      ensures CheckChunk(t.sh, c).Ok? && (CheckChunk(t.sh, c) == Ok(false) ==> c.idx in s.mismatched)
    {
      LeadsToTested(t, s, e, c);
    }
    forall i | i in s.mismatched
      ensures exists e, c :: e in t.entries && LeadsTo(t.sh.codec, t.sh.finfoDir, t.sh.finfoDisk, e, c) && c.idx == i && CheckChunk(t.sh, c) == Ok(false)
    {
      assert SomeMismatched(t, s, i);
      var d: nat, k: nat :| Started(t, s, d, k) && Parts(t, d)[k].idx == i && CheckChunk(t.sh, Parts(t, d)[k]) == Ok(false);
      StartedLeads(t, s, d, k);
    }
  }

  lemma IdleUses(t: Test, s: State, i: int)
    requires Inv(t, s) && Idle(s) && SameFlags(t.entries) && !s.fault
    ensures i in s.chunks <==> Uses(t.sh, t.entries, i)
  {
    if i in s.chunks {
      assert SomeStarted(t, s, i);
      var d: nat, k: nat :| Started(t, s, d, k) && Parts(t, d)[k].idx == i;
      StartedLeads(t, s, d, k);
    }
    if e, c :| e in t.entries && LeadsTo(t.sh.codec, t.sh.finfoDir, t.sh.finfoDisk, e, c) && c.idx == i {
      LeadsToTested(t, s, e, c);
    }
  }

  lemma IdleFInfos(t: Test, s: State, i: int)
    requires Inv(t, s) && Idle(s) && SameFlags(t.entries) && !s.fault
    ensures i in s.finfos <==> i >= 0 && exists e :: e in t.entries && e.1 == i
  {
    if i in s.finfos {
      assert SomeOpened(t, s, i);
      var d: nat :| d < |t.entries| && d < |s.job| && Opened(s.job[d]) && t.entries[d].1 == i;
      assert JobOK(t, s, d) && t.entries[d] in t.entries;
    }
    if i >= 0 && exists e :: e in t.entries && e.1 == i {
      var e :| e in t.entries && e.1 == i;
      var d := EntryOpened(t, s, e);
      assert Opened(s.job[d]) && SomeOpened(t, s, i);
    }
  }

  /** Without an exception, the jobs have recorded exactly the used blocks and the mismatches, although an FInfo index
      that was seen before is not looked at again. */
  lemma IdleRecords(t: Test, s: State)
    requires Inv(t, s) && Idle(s) && SameFlags(t.entries) && !s.fault
    ensures Records(t.sh, t.entries, SeenBy(s))
  {
    IdlePasses(t, s);
    forall i ensures i in s.finfos <==> i >= 0 && exists e :: e in t.entries && e.1 == i { IdleFInfos(t, s, i); }
    forall i ensures i in s.chunks <==> Uses(t.sh, t.entries, i) { IdleUses(t, s, i); }
  }

  /** No exception, no warning, and no block file found that was not used. */
  predicate Clean(t: Test, s: State) {
    !s.fault && s.mismatched == {} && t.sh.finfoDir.Keys <= s.finfos && t.sh.chunkDir.Keys <= s.chunks
  }

  /** However the jobs and tasks interleave: when all are over, the verdict is clean exactly if the archive is what it
      should be. */
  lemma VerdictExactly(t: Test, run: seq<State>)
    requires Run(t, run) && Idle(run[|run| - 1]) && SameFlags(t.entries) && forall i :: i in t.sh.finfoDir ==> i >= 0
    ensures Clean(t, run[|run| - 1])
            <==> TestsClean(t.sh.codec, t.sh.chunkDir, t.sh.chunkDisk, t.sh.finfoDir, t.sh.finfoDisk, t.entries)
  {
    var s := run[|run| - 1];
    RunKeepsInv(t, run, |run| - 1);
    FaultExactly(t, s);
    if s.fault {
      NotClean(t.sh, t.entries);
    } else {
      IdleRecords(t, s);
      CleanOrNot(t.sh, t.entries, SeenBy(s));
    }
  }

  /** The records of one list agree. */
  lemma RecordsAgree(sh: Shelf, entries: seq<(char, int)>, a: Seen, b: Seen)
    requires Records(sh, entries, a) && Records(sh, entries, b)
    ensures a == b
  {
    forall i ensures i in a.finfos <==> i in b.finfos {}
    forall i ensures i in a.chunks <==> i in b.chunks { assert i in a.chunks <==> Uses(sh, entries, i); }
    MismatchesAgree(sh, entries, a.mismatched, b.mismatched);
    MismatchesAgree(sh, entries, b.mismatched, a.mismatched);
  }

  lemma MismatchesAgree(sh: Shelf, entries: seq<(char, int)>, a: set<int>, b: set<int>)
    requires Passes(sh, entries, a) && Passes(sh, entries, b)
    ensures a <= b
  {
    forall i | i in a ensures i in b {
      var e, c :| e in entries && LeadsTo(sh.codec, sh.finfoDir, sh.finfoDisk, e, c) && c.idx == i && CheckChunk(sh, c) == Ok(false);
    }
  }

  /** Two runs on one list end alike: with an exception both, or with the same records. */
  lemma OrderIsIrrelevant(t: Test, run: seq<State>, other: seq<State>)
    requires Run(t, run) && Run(t, other) && SameFlags(t.entries)
    requires Idle(run[|run| - 1]) && Idle(other[|other| - 1])
    ensures run[|run| - 1].fault == other[|other| - 1].fault
    ensures !run[|run| - 1].fault ==> SeenBy(run[|run| - 1]) == SeenBy(other[|other| - 1])
  {
    var s, s' := run[|run| - 1], other[|other| - 1];
    RunKeepsInv(t, run, |run| - 1);
    RunKeepsInv(t, other, |other| - 1);
    FaultExactly(t, s);
    FaultExactly(t, s');
    if !s.fault {
      IdleRecords(t, s);
      IdleRecords(t, s');
      RecordsAgree(t.sh, t.entries, SeenBy(s), SeenBy(s'));
    }
  }

  /** Before that, some job or task can go on. */
  lemma NotStuck(t: Test, s: State) returns (s': State)
    requires Inv(t, s) && !Idle(s)
    ensures Step(t, s, s')
  {
    if p :| p in s.pending {
      assert Started(t, s, p.line, p.part) && p == Task(p.line, p.part);
      s' := Checked(t, s, p.line, p.part);
      assert Check(t, s, p.line, s') && LineStep(t, s, p.line, s');
    } else {
      var e: nat :| e < |s.job| && !(s.job[e].Skipped? || s.job[e].Over? || s.job[e].Failed?);
      s' := JobCanStep(t, s, e);
    }
  }

  lemma JobCanStep(t: Test, s: State, e: nat) returns (s': State)
    requires IsLine(t, s, e) && JobOK(t, s, e) && !(s.job[e].Skipped? || s.job[e].Over? || s.job[e].Failed?)
    ensures LineStep(t, s, e, s')
  {
    var i := t.entries[e].1;
    match s.job[e]
    case Waiting =>
      s' := if i < 0 || i in s.finfos then s.(job := s.job[e := Skipped]) else s.(job := s.job[e := Opening], finfos := s.finfos + {i});
      assert Enter(t, s, e, s');
    case Opening =>
      s' := if Chunks(t.sh, t.entries[e]).Some? then s.(job := s.job[e := Looping(0)]) else s.(job := s.job[e := Failed], fault := true);
      assert Open(t, s, e, s');
    case Looping(k) =>
      if k < |Parts(t, e)| {
        s' := s.(job := s.job[e := Looping(k + 1)], chunks := s.chunks + {Parts(t, e)[k].idx}, pending := s.pending + {Task(e, k)});
        assert Submit(t, s, e, s');
      } else {
        s' := s.(job := s.job[e := Over]);
        assert Leave(t, s, e, s');
      }
  }

  function JobLeft(t: Test, e: nat, j: Job): nat
    requires e < |t.entries|
  {
    var n := |Parts(t, e)|;
    match j
    case Waiting => 2 * n + 3
    case Opening => 2 * n + 2
    case Looping(k) => if k <= n then 2 * (n - k) + 1 else 0
    case _ => 0
  }

  function LinesLeft(t: Test, job: seq<Job>): (r: seq<nat>)
    requires |job| == |t.entries|
  {
    seq(|job|, e requires 0 <= e < |job| => JobLeft(t, e, job[e]))
  }

  function Itself(n: nat): nat { n }

  /** What all jobs and tasks still have to do. */
  function Left(t: Test, s: State): nat
    requires |s.job| == |t.entries|
  {
    Sum(Itself, LinesLeft(t, s.job)) + |s.pending|
  }

  lemma LinesDiffer(t: Test, a: seq<Job>, e: nat, j: Job)
    requires |a| == |t.entries| && e < |a|
    ensures Sum(Itself, LinesLeft(t, a[e := j])) - Sum(Itself, LinesLeft(t, a)) == JobLeft(t, e, j) - JobLeft(t, e, a[e])
  {
    SumChanges(Itself, LinesLeft(t, a), LinesLeft(t, a[e := j]), e);
  }

  lemma JobWorks(t: Test, s: State, e: nat, s': State)
    requires IsLine(t, s, e) && JobOK(t, s, e) && LineStep(t, s, e, s') && !Check(t, s, e, s')
    ensures s'.job == s.job[e := s'.job[e]]
    ensures JobLeft(t, e, s'.job[e]) + |s'.pending| < JobLeft(t, e, s.job[e]) + |s.pending|
  {
    if Submit(t, s, e, s') { assert |s'.pending| <= |s.pending| + 1; }
  }

  lemma TaskWorks(t: Test, s: State, e: nat, s': State)
    requires IsLine(t, s, e) && Check(t, s, e, s')
    ensures s'.job == s.job && |s'.pending| < |s.pending|
  {
    var k: nat :| Task(e, k) in s.pending && k < |Parts(t, e)| && s' == Checked(t, s, e, k);
    SubsetSize(s'.pending, s.pending);
  }

  lemma StepWorks(t: Test, s: State, e: nat, s': State)
    requires IsLine(t, s, e) && JobOK(t, s, e) && LineStep(t, s, e, s')
    ensures |s'.job| == |s.job| && Left(t, s') < Left(t, s)
  {
    if Check(t, s, e, s') {
      TaskWorks(t, s, e, s');
    } else {
      JobWorks(t, s, e, s');
      LinesDiffer(t, s.job, e, s'.job[e]);
    }
  }

  /** Every test ends. */
  lemma {:induction false} RunsAreBounded(t: Test, run: seq<State>, k: nat)
    requires Run(t, run) && k < |run|
    ensures |run[k].job| == |t.entries| && k + Left(t, run[k]) <= Left(t, Init(t))
  {
    if k > 0 {
      RunsAreBounded(t, run, k - 1);
      RunKeepsInv(t, run, k - 1);
      assert StepAt(t, run, k);
      var e :| LineStep(t, run[k - 1], e, run[k]);
      assert JobOK(t, run[k - 1], e);
      StepWorks(t, run[k - 1], e, run[k]);
    }
  }

  /** The chunk indices under which some list entry has a chunk that can be read and has the wrong hash. */
  ghost predicate Mismatches(t: Test, mismatched: set<int>) {
    forall i :: i in mismatched <==>
      exists e, c :: e in t.entries && Chunks(t.sh, e).Some? && c in Chunks(t.sh, e).value && c.idx == i && CheckChunk(t.sh, c) == Ok(false)
  }

  lemma PassesMismatches(t: Test, mismatched: set<int>)
    requires Passes(t.sh, t.entries, mismatched)
    ensures Mismatches(t, mismatched)
  {
    forall i
      ensures i in mismatched <==>
        exists e, c :: e in t.entries && Chunks(t.sh, e).Some? && c in Chunks(t.sh, e).value && c.idx == i && CheckChunk(t.sh, c) == Ok(false)
    {
      if i in mismatched {
        var e, c :| e in t.entries && LeadsTo(t.sh.codec, t.sh.finfoDir, t.sh.finfoDisk, e, c) && c.idx == i && CheckChunk(t.sh, c) == Ok(false);
        assert c in Chunks(t.sh, e).value;
      }
      if e, c :| e in t.entries && Chunks(t.sh, e).Some? && c in Chunks(t.sh, e).value && c.idx == i && CheckChunk(t.sh, c) == Ok(false) {
        assert LeadsTo(t.sh.codec, t.sh.finfoDir, t.sh.finfoDisk, e, c);
      }
    }
  }

  /** The rest of `DoTest`, once the jobs are over. The report is clean exactly if the archive is what it should be,
      however the jobs interleaved. */
  method DoTest(t: Test, ghost run: seq<State>, last: State) returns (r: Result<Report>)
    requires Run(t, run) && last == run[|run| - 1] && Idle(last)
    ensures r.Err? <==> last.fault
    ensures SameFlags(t.entries) && (forall i :: i in t.sh.finfoDir ==> i >= 0) ==>
              (r == Ok(CLEAN) <==> TestsClean(t.sh.codec, t.sh.chunkDir, t.sh.chunkDisk, t.sh.finfoDir, t.sh.finfoDisk, t.entries))
    ensures r.Err? && SameFlags(t.entries) ==> SomeBroken(t)
    ensures r.Ok? && SameFlags(t.entries) ==> Mismatches(t, r.value.mismatched)
    ensures r.Ok? && SameFlags(t.entries) ==>
              match r.value.unusedFInfo
              case None => forall i :: i in t.sh.finfoDir && i >= 0 ==> exists e :: e in t.entries && e.1 == i
              case Some(i) =>
                && i in t.sh.finfoDir && (i >= 0 ==> forall e :: e in t.entries ==> e.1 != i)
                && (forall j :: j in t.sh.finfoDir && 0 <= j < i ==> exists e :: e in t.entries && e.1 == j)
    ensures r.Ok? && SameFlags(t.entries) && r.value.unusedFInfo == None ==>
              match r.value.unusedChunk
              case None => forall i :: i in t.sh.chunkDir ==> Uses(t.sh, t.entries, i)
              case Some(i) =>
                && i in t.sh.chunkDir && !Uses(t.sh, t.entries, i)
                && (forall j :: j in t.sh.chunkDir && j < i ==> Uses(t.sh, t.entries, j))
    ensures r.Ok? && r.value.unusedFInfo.Some? ==> r.value.unusedChunk == None
  {
    if SameFlags(t.entries) && forall i :: i in t.sh.finfoDir ==> i >= 0 { VerdictExactly(t, run); }
    RunKeepsInv(t, run, |run| - 1);
    if last.fault {
      return Err("exception");
    }
    if SameFlags(t.entries) {
      IdleRecords(t, last);
      PassesMismatches(t, last.mismatched);
    }
    var finfo := FirstUnused(t.sh.finfoDir.Keys, last.finfos);
    if finfo.Some? {
      return Ok(Report(last.mismatched, finfo, None));
    }
    var chunk := FirstUnused(t.sh.chunkDir.Keys, last.chunks);
    return Ok(Report(last.mismatched, None, chunk));
  }

  function TestOf(codec: CreateRuns.Codec, r: Repo, sn: Snapshot): Test {
    Test(Shelf(codec, sn.chunkDir, r.chunkDisk, sn.finfoDir, r.finfoDisk), Entries(sn))
  }

  /** After any history of create commands, every test of every well-formed archive passes, in every interleaving. */
  method TestAnyArchive(codec: CreateRuns.Codec, ghost h: seq<Repo>, ghost k: nat, r: Repo, a: nat, ghost run: seq<State>, last: State)
    returns (report: Result<Report>)
    requires CodecOK(codec) && History(codec, h) && k < |h| && r == h[k] && a < |r.archives|
    requires Run(TestOf(codec, r, r.archives[a]), run) && last == run[|run| - 1] && Idle(last)
    ensures report == Ok(CLEAN)
  {
    EveryArchiveSurvives(codec, h, k);
    GoodShelf(codec, r.archives[a], r.chunkDisk, r.finfoDisk);
    report := DoTest(TestOf(codec, r, r.archives[a]), run, last);
  }
}
