/** Parallel extraction of one file: jobs read the chunks, a chain of locks orders the writes (LiveFile.cpp). */
module ExtractChunks {
  import opened Common
  import opened FInfos
  import opened LiveFiles
  import opened Measures
  import ReadBacks
  import CreateRuns

  /** Where the `ExtractChunkJob` of a chunk stands: `Cleared` has waited for the previous chunk's lock. */
  datatype Pc = Idle | Reading | Loaded | Cleared | Wrote | Posted

  /** `inline` is the chunk that the extracting thread runs itself; locks below `deleted` are gone;
      `written` counts the writes to the file. */
  datatype State = State(launched: nat, inline: Option<nat>, pc: seq<Pc>, out: string, written: nat, deleted: nat, fault: bool)

  /** `data[k]` is what reading, decompressing and checking chunk `k` gives, or None if that throws. */
  function Init(data: seq<Option<string>>): State { State(0, None, seq(|data|, _ => Idle), "", 0, 0, false) }

  function Move(s: State, k: nat, p: Pc): State
    requires k < |s.pc|
  {
    s.(pc := s.pc[k := p])
  }

  /** `ThreadPool.Execute` hands the job to a worker or runs it inline; the last chunk is always run inline. */
  ghost predicate LaunchStep(threads: nat, data: seq<Option<string>>, s: State, k: nat, s': State)
    requires k < |data| == |s.pc|
  {
    && s.inline == None && k == s.launched
    && (|| s' == Move(s, k, Reading).(launched := k + 1, inline := Some(k))
        || (threads > 1 && k != |data| - 1 && s' == Move(s, k, Reading).(launched := k + 1)))
  }

  ghost predicate ReadStep(data: seq<Option<string>>, s: State, k: nat, s': State)
    requires k < |data| == |s.pc|
  {
    s.pc[k] == Reading && data[k].Some? && s' == Move(s, k, Loaded)
  }

  /** `PrevLock->WaitIdle ()`; a deleted lock must not be used. */
  ghost predicate WaitStep(data: seq<Option<string>>, s: State, k: nat, s': State)
    requires k < |data| == |s.pc|
  {
    && s.pc[k] == Loaded
    && if k > 0 && k - 1 < s.deleted then s' == s.(fault := true)
       else (k > 0 ==> s.pc[k - 1] == Posted) && s' == Move(s, k, Cleared)
  }

  ghost predicate WriteStep(data: seq<Option<string>>, s: State, k: nat, s': State)
    requires k < |data| == |s.pc|
  {
    && s.pc[k] == Cleared && data[k].Some?
    && s' == Move(s, k, Wrote).(out := s.out + data[k].value, written := s.written + 1)
  }

  ghost predicate PostStep(data: seq<Option<string>>, s: State, k: nat, s': State)
    requires k < |data| == |s.pc|
  {
    && s.pc[k] == Wrote
    && s' == Move(s, k, Posted).(inline := if s.inline == Some(k) then None else s.inline)
  }

  /** The final loop waits for the locks in order and deletes each. */
  ghost predicate DeleteStep(data: seq<Option<string>>, s: State, k: nat, s': State)
    requires k < |data| == |s.pc|
  {
    && s.launched == |data| && s.inline == None && k == s.deleted && s.pc[k] == Posted
    && s' == s.(deleted := k + 1)
  }

  ghost predicate StepOf(threads: nat, data: seq<Option<string>>, s: State, k: nat, s': State) {
    && k < |data| == |s.pc|
    && (|| LaunchStep(threads, data, s, k, s') || ReadStep(data, s, k, s') || WaitStep(data, s, k, s')
        || WriteStep(data, s, k, s') || PostStep(data, s, k, s') || DeleteStep(data, s, k, s'))
  }

  ghost predicate Step(threads: nat, data: seq<Option<string>>, s: State, s': State) {
    exists k :: StepOf(threads, data, s, k, s')
  }

  ghost predicate StepAt(threads: nat, data: seq<Option<string>>, run: seq<State>, i: int) {
    0 < i < |run| && Step(threads, data, run[i - 1], run[i])
  }

  ghost predicate Run(threads: nat, data: seq<Option<string>>, run: seq<State>) {
    run != [] && run[0] == Init(data) && forall i :: 0 < i < |run| ==> StepAt(threads, data, run, i)
  }

  predicate InFile(p: Pc) { p == Wrote || p == Posted }

  ghost predicate ChunkInv(data: seq<Option<string>>, s: State, k: nat)
    requires k < |data| == |s.pc|
  {
    && (s.pc[k] == Idle <==> k >= s.launched)
    && (InFile(s.pc[k]) <==> k < s.written)
    && (s.pc[k] == Loaded || s.pc[k] == Cleared || InFile(s.pc[k]) ==> data[k].Some?)
    && (s.pc[k] == Cleared || InFile(s.pc[k]) ==> k == 0 || s.pc[k - 1] == Posted)
    && (s.inline == Some(k) ==> s.pc[k] != Posted)
  }

  function Values(data: seq<Option<string>>, n: nat): (v: seq<string>)
    requires n <= |data| && forall k :: 0 <= k < n ==> data[k].Some?
    ensures |v| == n && forall k :: 0 <= k < n ==> v[k] == data[k].value
  {
    seq(n, k requires 0 <= k < n => data[k].value)
  }

  /** The file holds the first `written` chunks in order; locks go away only when all chunks are posted. */
  ghost predicate Inv(data: seq<Option<string>>, s: State) {
    && |s.pc| == |data| && s.launched <= |data| && s.written <= |data| && s.deleted <= |data| && !s.fault
    && (forall k: nat :: k < |data| ==> ChunkInv(data, s, k))
    && (s.inline.Some? ==> s.inline.value + 1 == s.launched)
    && (s.deleted > 0 ==> s.launched == |data| && s.inline == None)
    && (s.launched == |data| > 0 ==> s.inline == Some(|data| - 1) || s.pc[|data| - 1] == Posted)
    && (forall k :: 0 <= k < s.written ==> data[k].Some?)
    && s.out == Concat(Values(data, s.written))
  }

  /** A cleared chunk is the next to be written. */
  lemma ClearedIsNext(data: seq<Option<string>>, s: State, k: nat)
    requires Inv(data, s) && k < |data| && s.pc[k] == Cleared
    ensures k == s.written
  {
    assert ChunkInv(data, s, k);
    assert k > 0 ==> ChunkInv(data, s, k - 1);
    assert s.written < |data| ==> ChunkInv(data, s, s.written);
  }

  /** If the last chunk is posted, so is every one. */
  lemma {:induction false} AllPosted(data: seq<Option<string>>, s: State, k: nat)
    requires Inv(data, s) && k < |data| && s.pc[|data| - 1] == Posted
    ensures s.pc[k] == Posted
    decreases |data| - k
  {
    if k < |data| - 1 {
      AllPosted(data, s, k + 1);
      assert ChunkInv(data, s, k + 1);
    }
  }

  lemma ValuesSnoc(data: seq<Option<string>>, n: nat)
    requires n < |data| && forall k :: 0 <= k <= n ==> data[k].Some?
    ensures Concat(Values(data, n + 1)) == Concat(Values(data, n)) + data[n].value
  {
    assert Values(data, n + 1) == Values(data, n) + [data[n].value];
    ConcatSnoc(Values(data, n), data[n].value);
  }

  lemma WriteKeeps(threads: nat, data: seq<Option<string>>, s: State, k: nat, s': State)
    requires Inv(data, s) && StepOf(threads, data, s, k, s') && WriteStep(data, s, k, s')
    ensures Inv(data, s')
  {
    ClearedIsNext(data, s, k);
    forall j: nat | j < |data| ensures ChunkInv(data, s', j) {
      assert ChunkInv(data, s, j);
      assert j > 0 ==> ChunkInv(data, s, j - 1);
    }
    ValuesSnoc(data, k);
  }

  lemma WaitKeeps(threads: nat, data: seq<Option<string>>, s: State, k: nat, s': State)
    requires Inv(data, s) && StepOf(threads, data, s, k, s') && WaitStep(data, s, k, s')
    ensures Inv(data, s')
  {
    assert s.deleted == 0 by {
      if s.deleted > 0 { AllPosted(data, s, k); }
    }
    forall j: nat | j < |data| ensures ChunkInv(data, s', j) {
      assert ChunkInv(data, s, j);
      assert j > 0 ==> ChunkInv(data, s, j - 1);
    }
  }

  lemma LaunchKeeps(threads: nat, data: seq<Option<string>>, s: State, k: nat, s': State)
    requires Inv(data, s) && StepOf(threads, data, s, k, s') && LaunchStep(threads, data, s, k, s')
    ensures Inv(data, s')
  {
    assert ChunkInv(data, s, k);
    forall j: nat | j < |data| ensures ChunkInv(data, s', j) {
      assert ChunkInv(data, s, j);
      assert j > 0 ==> ChunkInv(data, s, j - 1);
    }
  }

  lemma OtherKeeps(threads: nat, data: seq<Option<string>>, s: State, k: nat, s': State)
    requires Inv(data, s) && k < |data| && (ReadStep(data, s, k, s') || PostStep(data, s, k, s') || DeleteStep(data, s, k, s'))
    ensures Inv(data, s')
  {
    assert ChunkInv(data, s, k);
    forall j: nat | j < |data| ensures ChunkInv(data, s', j) {
      assert ChunkInv(data, s, j);
      assert j > 0 ==> ChunkInv(data, s, j - 1);
    }
  }

  lemma StepKeepsInv(threads: nat, data: seq<Option<string>>, s: State, k: nat, s': State)
    requires Inv(data, s) && StepOf(threads, data, s, k, s')
    ensures Inv(data, s')
  {
    if WriteStep(data, s, k, s') { WriteKeeps(threads, data, s, k, s'); }
    else if WaitStep(data, s, k, s') { WaitKeeps(threads, data, s, k, s'); }
    else if LaunchStep(threads, data, s, k, s') { LaunchKeeps(threads, data, s, k, s'); }
    else { OtherKeeps(threads, data, s, k, s'); }
  }

  lemma {:induction false} RunKeepsInv(threads: nat, data: seq<Option<string>>, run: seq<State>, i: nat)
    requires Run(threads, data, run) && i < |run|
    ensures Inv(data, run[i])
  {
    if i > 0 {
      RunKeepsInv(threads, data, run, i - 1);
      assert StepAt(threads, data, run, i);
      var k :| StepOf(threads, data, run[i - 1], k, run[i]);
      StepKeepsInv(threads, data, run[i - 1], k, run[i]);
    }
  }

  /** At every step of every interleaving the file holds a prefix of the chunks, in order; no job uses a deleted lock. */
  lemma WritesAreOrdered(threads: nat, data: seq<Option<string>>, run: seq<State>, i: nat)
    requires Run(threads, data, run) && i < |run|
    ensures !run[i].fault
    ensures run[i].written <= |data| && forall k :: 0 <= k < run[i].written ==> data[k].Some?
    ensures run[i].out == Concat(Values(data, run[i].written))
  {
    RunKeepsInv(threads, data, run, i);
  }

  predicate Finished(data: seq<Option<string>>, s: State) { s.launched == |data| && s.inline == None && s.deleted == |data| }

  /** A finished extraction has read all chunks and written them all. */
  lemma FileIsComplete(threads: nat, data: seq<Option<string>>, run: seq<State>)
    requires Run(threads, data, run) && Finished(data, run[|run| - 1])
    ensures forall k :: 0 <= k < |data| ==> data[k].Some?
    ensures run[|run| - 1].out == Concat(Values(data, |data|))
  {
    var s := run[|run| - 1];
    RunKeepsInv(threads, data, run, |run| - 1);
    if |data| > 0 { assert ChunkInv(data, s, |data| - 1); }
  }

  /** Until then someone can go on: the lowest unwritten chunk, the writer before it, or the extracting thread. */
  lemma NotStuck(threads: nat, data: seq<Option<string>>, s: State) returns (s': State)
    requires Inv(data, s) && !Finished(data, s) && forall k :: 0 <= k < |data| ==> data[k].Some?
    ensures Step(threads, data, s, s')
  {
    var w := s.written;
    if w > 0 && s.pc[w - 1] == Wrote {
      s' := Move(s, w - 1, Posted).(inline := if s.inline == Some(w - 1) then None else s.inline);
      assert PostStep(data, s, w - 1, s');
      assert StepOf(threads, data, s, w - 1, s');
    } else if w == |data| {
      s' := CanDelete(threads, data, s);
    } else {
      s' := CanWork(threads, data, s);
    }
  }

  lemma CanDelete(threads: nat, data: seq<Option<string>>, s: State) returns (s': State)
    requires Inv(data, s) && !Finished(data, s) && s.written == |data| && (|data| > 0 ==> s.pc[|data| - 1] != Wrote)
    ensures Step(threads, data, s, s')
  {
    if |data| > 0 {
      assert ChunkInv(data, s, |data| - 1);
      AllPosted(data, s, if s.deleted < |data| then s.deleted else 0);
    }
    s' := s.(deleted := s.deleted + 1);
    assert DeleteStep(data, s, s.deleted, s');
    assert StepOf(threads, data, s, s.deleted, s');
  }

  lemma CanWork(threads: nat, data: seq<Option<string>>, s: State) returns (s': State)
    requires Inv(data, s) && s.written < |data| && (s.written > 0 ==> s.pc[s.written - 1] != Wrote) && data[s.written].Some?
    ensures Step(threads, data, s, s')
  {
    var w := s.written;
    assert ChunkInv(data, s, w);
    assert w > 0 ==> ChunkInv(data, s, w - 1);
    match s.pc[w] {
      case Idle =>
        assert s.launched < |data| ==> ChunkInv(data, s, s.launched);
        s' := Move(s, w, Reading).(launched := w + 1, inline := Some(w));
        assert LaunchStep(threads, data, s, w, s');
      case Reading =>
        s' := Move(s, w, Loaded);
        assert ReadStep(data, s, w, s');
      case Loaded =>
        s' := if w > 0 && w - 1 < s.deleted then s.(fault := true) else Move(s, w, Cleared);
        assert WaitStep(data, s, w, s');
      case Cleared =>
        s' := Move(s, w, Wrote).(out := s.out + data[w].value, written := w + 1);
        assert WriteStep(data, s, w, s');
    }
    assert StepOf(threads, data, s, w, s');
  }

  function Rank(p: Pc): nat {
    match p case Idle => 5 case Reading => 4 case Loaded => 3 case Cleared => 2 case Wrote => 1 case Posted => 0
  }

  /** A job moves on, or a lock is deleted. */
  lemma StepWorks(threads: nat, data: seq<Option<string>>, s: State, k: nat, s': State)
    requires Inv(data, s) && StepOf(threads, data, s, k, s') && !s'.fault
    ensures Sum(Rank, s'.pc) - s'.deleted < Sum(Rank, s.pc) - s.deleted
  {
    if !DeleteStep(data, s, k, s') {
      assert ChunkInv(data, s, k);
      assert s'.pc == s.pc[k := s'.pc[k]] && s'.deleted == s.deleted;
      SumFalls(Rank, s.pc, s'.pc, k);
    }
  }

  /** Every extraction ends: six steps for each chunk. */
  lemma {:induction false} RunsAreBounded(threads: nat, data: seq<Option<string>>, run: seq<State>, i: nat)
    requires Run(threads, data, run) && i < |run|
    ensures |run[i].pc| == |data| && run[i].deleted <= |data|
    ensures Sum(Rank, run[i].pc) - run[i].deleted <= 5 * |data| - i
    ensures i <= 6 * |data|
  {
    if i == 0 {
      SumOfEqual(Rank, run[0].pc, 5);
    } else {
      RunsAreBounded(threads, data, run, i - 1);
      RunKeepsInv(threads, data, run, i - 1);
      RunKeepsInv(threads, data, run, i);
      assert StepAt(threads, data, run, i);
      var k :| StepOf(threads, data, run[i - 1], k, run[i]);
      StepWorks(threads, data, run[i - 1], k, run[i]);
    }
  }

  /** The chunks of an archived file as the jobs read them. */
  function Loads(codec: CreateRuns.Codec, dir: map<int, int>, disk: map<int, string>, chunks: seq<Chunk>): (d: seq<Option<string>>)
    ensures |d| == |chunks|
  {
    seq(|chunks|, k requires 0 <= k < |chunks| => ReadBacks.ReadChunk(codec, dir, disk, chunks[k]))
  }

  lemma {:induction false} LoadsAreReadAll(codec: CreateRuns.Codec, dir: map<int, int>, disk: map<int, string>, chunks: seq<Chunk>)
    ensures var d := Loads(codec, dir, disk, chunks);
            if forall k :: 0 <= k < |d| ==> d[k].Some?
            then ReadBacks.ReadAll(codec, dir, disk, chunks) == Some(Concat(Values(d, |d|)))
            else ReadBacks.ReadAll(codec, dir, disk, chunks) == None
  {
    var d := Loads(codec, dir, disk, chunks);
    if chunks != [] {
      var e := Loads(codec, dir, disk, chunks[1..]);
      LoadsAreReadAll(codec, dir, disk, chunks[1..]);
      assert d[1..] == e;
      if forall k :: 0 <= k < |d| ==> d[k].Some? {
        assert forall k :: 0 <= k < |e| ==> e[k] == d[k + 1];
        assert Values(d, |d|) == [d[0].value] + Values(e, |e|);
        ConcatCons(d[0].value, Values(e, |e|));
      }
    }
  }

  /** Any finished parallel extraction writes what reading the chunks one after the other gives. */
  lemma ExtractionIsReadAll(threads: nat, codec: CreateRuns.Codec, dir: map<int, int>, disk: map<int, string>,
                            chunks: seq<Chunk>, run: seq<State>)
    requires var d := Loads(codec, dir, disk, chunks); Run(threads, d, run) && Finished(d, run[|run| - 1])
    ensures ReadBacks.ReadAll(codec, dir, disk, chunks) == Some(run[|run| - 1].out)
  {
    FileIsComplete(threads, Loads(codec, dir, disk, chunks), run);
    LoadsAreReadAll(codec, dir, disk, chunks);
  }

  /** With more than one thread a later chunk can be read before an earlier one. */
  lemma ReadsOverlap(threads: nat, data: seq<Option<string>>) returns (run: seq<State>)
    requires threads > 1 && |data| > 1 && data[1].Some?
    ensures Run(threads, data, run) && |run[|run| - 1].pc| == |data|
    ensures run[|run| - 1].pc[0] == Reading && run[|run| - 1].pc[1] == Loaded
  {
    var s0 := Init(data);
    var s1 := Move(s0, 0, Reading).(launched := 1);
    var s2 := Move(s1, 1, Reading).(launched := 2, inline := Some(1));
    var s3 := Move(s2, 1, Loaded);
    assert LaunchStep(threads, data, s0, 0, s1) && LaunchStep(threads, data, s1, 1, s2) && ReadStep(data, s2, 1, s3);
    assert StepOf(threads, data, s0, 0, s1) && StepOf(threads, data, s1, 1, s2) && StepOf(threads, data, s2, 1, s3);
    run := [s0, s1, s2, s3];
    assert StepAt(threads, data, run, 1) && StepAt(threads, data, run, 2) && StepAt(threads, data, run, 3);
  }

  /** Only the chunk that the extracting thread runs itself is under way. */
  ghost predicate OneAtATime(s: State) {
    s.launched <= |s.pc| && forall k: nat :: k < s.launched && s.inline != Some(k) ==> s.pc[k] == Posted
  }

  /** With a single thread the chunks are read and written one after the other. */
  lemma {:induction false} OneThreadIsSequential(threads: nat, data: seq<Option<string>>, run: seq<State>, i: nat)
    requires threads <= 1 && Run(threads, data, run) && i < |run|
    ensures |run[i].pc| == |data| && OneAtATime(run[i])
  {
    if i > 0 {
      OneThreadIsSequential(threads, data, run, i - 1);
      assert StepAt(threads, data, run, i);
      var k :| StepOf(threads, data, run[i - 1], k, run[i]);
    }
  }
}
