/** Hard links while an archive is extracted: per FInfo index one job creates the file, the others link to it
    (`ArchiveRead::DoExtractJob`). */
module LinkExtracts {
  import opened Common
  import opened Measures
  import opened Numbers

  /** `HLinkSyncRec`; `leader` remembers which job put it into the map. */
  datatype Rec = Rec(leader: nat, name: Option<nat>, posted: bool)

  datatype Pc = Ready | Alone | Lead | Made | Named | Follow | Woken(target: Option<nat>) | Done

  /** `fs` gives each extracted line its inode; `made` are the jobs that created a file themselves. */
  datatype State = State(recs: map<int, Rec>, pc: seq<Pc>, fs: map<nat, int>, made: set<nat>, fault: bool)

  /** One job per list line; `es` has the lines' FInfo indices. */
  function Init(es: seq<int>): State { State(map[], seq(|es|, _ => Ready), map[], {}, false) }

  function Move(s: State, j: nat, p: Pc): State
    requires j < |s.pc|
  {
    s.(pc := s.pc[j := p])
  }

  /** Under `HLinkSyncsMtx`: the first job of an index leaves a record there. */
  ghost predicate LookStep(es: seq<int>, s: State, j: nat, s': State)
    requires j < |es| == |s.pc|
  {
    && s.pc[j] == Ready
    && s' == if es[j] == INT64_MIN then Move(s, j, Alone)
             else if es[j] in s.recs then Move(s, j, Follow)
             else Move(s, j, Lead).(recs := s.recs[es[j] := Rec(j, None, false)])
  }

  ghost predicate MakeStep(es: seq<int>, s: State, j: nat, s': State)
    requires j < |es| == |s.pc|
  {
    && (s.pc[j] == Alone || s.pc[j] == Lead)
    && exists n :: n !in s.fs.Values &&
         s' == Move(s, j, if s.pc[j] == Lead then Made else Done).(fs := s.fs[j := n], made := s.made + {j})
  }

  /** `HLS->Name = LF->Name`, then `HLS->Lock.PostIdle ()`. */
  ghost predicate NameStep(es: seq<int>, s: State, j: nat, s': State)
    requires j < |es| == |s.pc|
  {
    && s.pc[j] == Made && es[j] in s.recs
    && s' == Move(s, j, Named).(recs := s.recs[es[j] := s.recs[es[j]].(name := Some(j))])
  }

  ghost predicate PostStep(es: seq<int>, s: State, j: nat, s': State)
    requires j < |es| == |s.pc|
  {
    && s.pc[j] == Named && es[j] in s.recs
    && s' == Move(s, j, Done).(recs := s.recs[es[j] := s.recs[es[j]].(posted := true)])
  }

  /** `HLS->Lock.WaitIdle ()`, then the name is read. */
  ghost predicate WakeStep(es: seq<int>, s: State, j: nat, s': State)
    requires j < |es| == |s.pc|
  {
    && s.pc[j] == Follow && es[j] in s.recs && s.recs[es[j]].posted
    && s' == Move(s, j, Woken(s.recs[es[j]].name))
  }

  /** `MakeHardLink`; a target that does not exist throws. */
  ghost predicate LinkStep(es: seq<int>, s: State, j: nat, s': State)
    requires j < |es| == |s.pc|
  {
    && s.pc[j].Woken?
    && var t := s.pc[j].target;
       if t.Some? && t.value in s.fs then s' == Move(s, j, Done).(fs := s.fs[j := s.fs[t.value]])
       else s' == Move(s, j, Done).(fault := true)
  }

  ghost predicate StepOf(es: seq<int>, s: State, j: nat, s': State) {
    && j < |es| == |s.pc|
    && (|| LookStep(es, s, j, s') || MakeStep(es, s, j, s') || NameStep(es, s, j, s')
        || PostStep(es, s, j, s') || WakeStep(es, s, j, s') || LinkStep(es, s, j, s'))
  }

  ghost predicate Step(es: seq<int>, s: State, s': State) { exists j :: StepOf(es, s, j, s') }

  ghost predicate StepAt(es: seq<int>, run: seq<State>, k: int) { 0 < k < |run| && Step(es, run[k - 1], run[k]) }

  ghost predicate Run(es: seq<int>, run: seq<State>) {
    run != [] && run[0] == Init(es) && forall k :: 0 < k < |run| ==> StepAt(es, run, k)
  }

  predicate Leads(p: Pc) { p == Lead || p == Made || p == Named }

  /** What the program counter of a job says about its record and its file. */
  ghost predicate JobInv(es: seq<int>, s: State, j: nat)
    requires j < |es| == |s.pc|
  {
    var p := s.pc[j];
    && (j in s.fs <==> p == Made || p == Named || p == Done)
    && (j in s.made ==> j in s.fs)
    && if es[j] == INT64_MIN then p == Ready || p == Alone || p == Done
       else
         && p != Alone
         && (p != Ready ==> es[j] in s.recs)
         && (Leads(p) ==> s.recs[es[j]].leader == j)
         && (p == Follow || p.Woken? ==> s.recs[es[j]].leader != j)
         && (p == Done || p.Woken? ==> s.recs[es[j]].posted)
         && (j in s.made ==> s.recs[es[j]].leader == j)
         && (p.Woken? ==> p.target == s.recs[es[j]].name)
  }

  /** The job that made a record is on its way to post it; it names the file before that. */
  ghost predicate RecInv(es: seq<int>, s: State, i: int)
    requires |es| == |s.pc| && i in s.recs
  {
    var r := s.recs[i];
    && r.leader < |es| && es[r.leader] == i && i != INT64_MIN
    && (Leads(s.pc[r.leader]) || s.pc[r.leader] == Done)
    && (r.posted <==> s.pc[r.leader] == Done)
    && (s.pc[r.leader] == Named || s.pc[r.leader] == Done ==> r.name == Some(r.leader))
  }

  /** Files share an inode exactly if their lines share an FInfo index. */
  predicate Together(es: seq<int>, j: nat, k: nat)
    requires j < |es| && k < |es|
  {
    j == k || (es[j] == es[k] && es[j] != INT64_MIN)
  }

  ghost predicate Partition(es: seq<int>, s: State) {
    && (forall j :: j in s.fs ==> j < |es|)
    && forall j, k :: j in s.fs && k in s.fs ==> (s.fs[j] == s.fs[k] <==> Together(es, j, k))
  }

  ghost predicate Inv(es: seq<int>, s: State) {
    && |es| == |s.pc| && !s.fault
    && (forall j: nat :: j < |es| ==> JobInv(es, s, j))
    && (forall i :: i in s.recs ==> RecInv(es, s, i))
    && Partition(es, s)
  }

  /** A step that creates no file. */
  lemma RecordKeeps(es: seq<int>, s: State, j: nat, s': State)
    requires Inv(es, s) && StepOf(es, s, j, s') && !MakeStep(es, s, j, s') && !LinkStep(es, s, j, s')
    ensures Inv(es, s')
  {
    assert JobInv(es, s, j);
    assert es[j] in s.recs ==> RecInv(es, s, es[j]);
    forall k: nat | k < |es| ensures JobInv(es, s', k) { assert JobInv(es, s, k); }
    forall i | i in s'.recs ensures RecInv(es, s', i) {
      assert i in s.recs ==> RecInv(es, s, i);
    }
  }

  /** A leader, or a file without index, is the first of its kind. */
  lemma NobodyYet(es: seq<int>, s: State, j: nat)
    requires Inv(es, s) && j < |es| && (s.pc[j] == Alone || s.pc[j] == Lead)
    ensures forall k :: k in s.fs ==> !Together(es, j, k)
  {
    assert JobInv(es, s, j);
    forall k | k in s.fs ensures !Together(es, j, k) {
      assert JobInv(es, s, k);
    }
  }

  lemma MakeKeeps(es: seq<int>, s: State, j: nat, s': State)
    requires Inv(es, s) && StepOf(es, s, j, s') && MakeStep(es, s, j, s')
    ensures Inv(es, s')
  {
    assert JobInv(es, s, j);
    NobodyYet(es, s, j);
    var n :| n !in s.fs.Values && s'.fs == s.fs[j := n];
    forall k: nat | k < |es| ensures JobInv(es, s', k) { assert JobInv(es, s, k); }
    forall i | i in s'.recs ensures RecInv(es, s', i) { assert RecInv(es, s, i); }
    forall a, b | a in s'.fs && b in s'.fs ensures s'.fs[a] == s'.fs[b] <==> Together(es, a, b) {
      assert a in s.fs ==> s.fs[a] in s.fs.Values;
      assert b in s.fs ==> s.fs[b] in s.fs.Values;
    }
  }

  lemma LinkKeeps(es: seq<int>, s: State, j: nat, s': State)
    requires Inv(es, s) && StepOf(es, s, j, s') && LinkStep(es, s, j, s')
    ensures Inv(es, s')
  {
    assert JobInv(es, s, j) && RecInv(es, s, es[j]);
    var l := s.recs[es[j]].leader;
    assert JobInv(es, s, l);
    forall k: nat | k < |es| ensures JobInv(es, s', k) { assert JobInv(es, s, k); }
    forall i | i in s'.recs ensures RecInv(es, s', i) { assert RecInv(es, s, i); }
    LinkedTogether(es, s, j, l, s');
  }

  lemma LinkedTogether(es: seq<int>, s: State, j: nat, l: nat, s': State)
    requires Partition(es, s) && j < |es| && l in s.fs && j !in s.fs && es[j] == es[l] && es[j] != INT64_MIN
    requires s'.fs == s.fs[j := s.fs[l]]
    ensures Partition(es, s')
  {
    forall a, b | a in s'.fs && b in s'.fs ensures s'.fs[a] == s'.fs[b] <==> Together(es, a, b) {
      var x, y := if a == j then l else a, if b == j then l else b;
      assert s.fs[x] == s.fs[y] <==> Together(es, x, y);
    }
  }

  lemma StepKeepsInv(es: seq<int>, s: State, j: nat, s': State)
    requires Inv(es, s) && StepOf(es, s, j, s')
    ensures Inv(es, s')
  {
    if MakeStep(es, s, j, s') { MakeKeeps(es, s, j, s'); }
    else if LinkStep(es, s, j, s') { LinkKeeps(es, s, j, s'); }
    else { RecordKeeps(es, s, j, s'); }
  }

  lemma {:induction false} RunKeepsInv(es: seq<int>, run: seq<State>, k: nat)
    requires Run(es, run) && k < |run|
    ensures Inv(es, run[k])
  {
    if k > 0 {
      RunKeepsInv(es, run, k - 1);
      assert StepAt(es, run, k);
      var j :| StepOf(es, run[k - 1], j, run[k]);
      StepKeepsInv(es, run[k - 1], j, run[k]);
    }
  }

  /** At any moment of any interleaving: no link target is missing, no FInfo index is created twice, and the files
      extracted so far share inodes exactly as their lines share indices. */
  lemma OneCreatorPerIndex(es: seq<int>, run: seq<State>, n: nat, j: nat, k: nat)
    requires Run(es, run) && n < |run| && j < |es| && k < |es|
    ensures !run[n].fault
    ensures j in run[n].made && k in run[n].made && Together(es, j, k) ==> j == k
    ensures j in run[n].fs && k in run[n].fs ==> (run[n].fs[j] == run[n].fs[k] <==> Together(es, j, k))
  {
    RunKeepsInv(es, run, n);
    assert JobInv(es, run[n], j) && JobInv(es, run[n], k);
  }

  predicate Finished(s: State) { forall j: nat :: j < |s.pc| ==> s.pc[j] == Done }

  /** In the end every line has its file. */
  lemma EveryLineExtracted(es: seq<int>, run: seq<State>, j: nat)
    requires Run(es, run) && Finished(run[|run| - 1]) && j < |es|
    ensures j in run[|run| - 1].fs
  {
    RunKeepsInv(es, run, |run| - 1);
    assert JobInv(es, run[|run| - 1], j);
  }

  lemma FreshInode(used: set<int>, n: int) returns (m: int)
    ensures m !in used && m >= n
    decreases |set u | u in used && u >= n|
  {
    if n in used {
      var above, rest := set u | u in used && u >= n, set u | u in used && u >= n + 1;
      assert above == rest + {n};
      m := FreshInode(used, n + 1);
    } else {
      m := n;
    }
  }

  /** An unfinished job can go on, or the leader it waits for can. */
  lemma NotStuck(es: seq<int>, s: State, j: nat) returns (s': State)
    requires Inv(es, s) && j < |es| && s.pc[j] != Done
    ensures Step(es, s, s')
  {
    assert JobInv(es, s, j);
    var k := j;
    if s.pc[j] == Follow {
      assert RecInv(es, s, es[j]);
      if !s.recs[es[j]].posted {
        k := s.recs[es[j]].leader;
        assert JobInv(es, s, k);
      }
    }
    s' := Next(es, s, k);
    assert StepOf(es, s, k, s');
  }

  lemma Next(es: seq<int>, s: State, j: nat) returns (s': State)
    requires Inv(es, s) && j < |es| && s.pc[j] != Done
    requires s.pc[j] == Follow ==> es[j] in s.recs && s.recs[es[j]].posted
    ensures StepOf(es, s, j, s')
  {
    assert JobInv(es, s, j);
    match s.pc[j]
    case Ready =>
      s' := if es[j] == INT64_MIN then Move(s, j, Alone)
            else if es[j] in s.recs then Move(s, j, Follow)
            else Move(s, j, Lead).(recs := s.recs[es[j] := Rec(j, None, false)]);
      assert LookStep(es, s, j, s');
    case Made =>
      s' := Move(s, j, Named).(recs := s.recs[es[j] := s.recs[es[j]].(name := Some(j))]);
      assert NameStep(es, s, j, s');
    case Named =>
      s' := Move(s, j, Done).(recs := s.recs[es[j] := s.recs[es[j]].(posted := true)]);
      assert PostStep(es, s, j, s');
    case Follow =>
      s' := Move(s, j, Woken(s.recs[es[j]].name));
      assert WakeStep(es, s, j, s');
    case Woken(t) =>
      s' := if t.Some? && t.value in s.fs then Move(s, j, Done).(fs := s.fs[j := s.fs[t.value]])
            else Move(s, j, Done).(fault := true);
      assert LinkStep(es, s, j, s');
    case Alone =>
      var n := FreshInode(s.fs.Values, 0);
      s' := Move(s, j, Done).(fs := s.fs[j := n], made := s.made + {j});
      assert MakeStep(es, s, j, s');
    case Lead =>
      var n := FreshInode(s.fs.Values, 0);
      s' := Move(s, j, Made).(fs := s.fs[j := n], made := s.made + {j});
      assert MakeStep(es, s, j, s');
  }

  function Rank(p: Pc): nat {
    match p case Ready => 4 case Alone => 3 case Lead => 3 case Made => 2 case Follow => 2 case Done => 0 case _ => 1
  }

  lemma StepWorks(es: seq<int>, s: State, s': State)
    requires Step(es, s, s')
    ensures Sum(Rank, s'.pc) < Sum(Rank, s.pc)
  {
    var j: nat :| StepOf(es, s, j, s');
    OneFalls(es, s, j, s');
    SumFalls(Rank, s.pc, s'.pc, j);
  }

  lemma OneFalls(es: seq<int>, s: State, j: nat, s': State)
    requires StepOf(es, s, j, s')
    ensures |s'.pc| == |s.pc| && s'.pc == s.pc[j := s'.pc[j]] && Rank(s'.pc[j]) < Rank(s.pc[j])
  {
  }

  /** Every run ends: no job takes more than four steps. */
  lemma {:induction false} RunsAreBounded(es: seq<int>, run: seq<State>, k: nat)
    requires Run(es, run) && k < |run|
    ensures Sum(Rank, run[k].pc) <= 4 * |es| - k
  {
    if k == 0 {
      SumOfEqual(Rank, run[0].pc, 4);
    } else {
      RunsAreBounded(es, run, k - 1);
      assert StepAt(es, run, k);
      StepWorks(es, run[k - 1], run[k]);
    }
  }

  lemma OneMore(es: seq<int>, run: seq<State>) returns (more: seq<State>)
    requires Run(es, run) && !Finished(run[|run| - 1])
    ensures Run(es, more) && |more| == |run| + 1 && more[..|run|] == run
  {
    var s := run[|run| - 1];
    RunKeepsInv(es, run, |run| - 1);
    var j: nat :| j < |s.pc| && !s.pc[j].Done?;
    var s' := NotStuck(es, s, j);
    more := run + [s'];
    forall k | 0 < k < |more| ensures StepAt(es, more, k) {
      if k < |run| {
        assert StepAt(es, run, k);
        assert more[k] == run[k] && more[k - 1] == run[k - 1];
      } else {
        assert more[k - 1] == s && more[k] == s';
      }
    }
  }

  /** Every run can be carried on to a finished one. */
  lemma {:induction false} Completes(es: seq<int>, run: seq<State>) returns (full: seq<State>)
    requires Run(es, run)
    ensures Run(es, full) && Finished(full[|full| - 1])
    decreases 4 * |es| - |run|
  {
    if Finished(run[|run| - 1]) {
      full := run;
    } else {
      var more := OneMore(es, run);
      RunsAreBounded(es, more, |more| - 1);
      full := Completes(es, more);
    }
  }
}
