/** Runs of the thread pool are as long as their tasks allow: each submission brings at most eight steps. */
module PoolBounds {
  import opened Measures
  import opened ThreadPools

  /** How many steps a task still needs to be over. */
  function TaskRank(s: State, x: nat): nat {
    if x !in s.loc then 0
    else
      match s.loc[x]
      case Calling(t) => if t < |s.threads| && s.threads[t].call.Wanting? then 7 else 6
      case Slotted(w) => if w < |s.hold| && s.hold[w].HeldBy? then 5 else 4
      case OnStack(_, _) => 3
      case Over => 0
  }

  /** How many steps a worker still needs to be available. */
  function PcRank(p: Pc): nat { if p == Ended then 2 else if p == Idled then 1 else 0 }

  function ThreadRank(th: Thread): nat { PcRank(th.pc) }

  /** The work of the tasks below `n`. */
  function TasksWork(s: State, n: nat): nat {
    if n == 0 then 0 else TasksWork(s, n - 1) + TaskRank(s, n - 1)
  }

  ghost predicate OnlyTask(s: State, x: nat, s': State) { forall y: nat :: y != x ==> TaskRank(s', y) == TaskRank(s, y) }

  lemma {:induction false} TasksChange(s: State, x: nat, s': State, n: nat)
    requires OnlyTask(s, x, s')
    ensures TasksWork(s', n) - TasksWork(s, n) == if x < n then TaskRank(s', x) - TaskRank(s, x) else 0
  {
    if n > 0 {
      TasksChange(s, x, s', n - 1);
    }
  }

  ghost predicate OnlyThread(a: seq<Thread>, t: nat, b: seq<Thread>) {
    |a| == |b| && forall u: nat :: u < |a| && u != t ==> b[u].pc == a[u].pc
  }

  /** The change in work is that of task `x` and thread `t`. */
  lemma Changes(s: State, x: nat, t: nat, s': State, n: nat)
    requires OnlyTask(s, x, s') && OnlyThread(s.threads, t, s'.threads) && x < n && t < |s.threads|
    ensures TasksWork(s', n) + Sum(ThreadRank, s'.threads) - TasksWork(s, n) - Sum(ThreadRank, s.threads)
         == TaskRank(s', x) - TaskRank(s, x) + PcRank(s'.threads[t].pc) - PcRank(s.threads[t].pc)
  {
    TasksChange(s, x, s', n);
    SumChanges(ThreadRank, s.threads, s'.threads, t);
  }

  /** Step of thread `t` about task `x`: the two ranks together fall. */
  ghost predicate Falls(s: State, x: nat, t: nat, s': State) {
    && OnlyTask(s, x, s') && OnlyThread(s.threads, t, s'.threads) && t < |s.threads| && s'.loc.Keys == s.loc.Keys
    && TaskRank(s', x) + PcRank(s'.threads[t].pc) < TaskRank(s, x) + PcRank(s.threads[t].pc)
  }

  lemma AllocFalls(s: State, t: nat, s': State) returns (x: nat)
    requires Inv(s) && t < |s.threads| && AllocStep(s, t, s')
    ensures x in s.loc && Falls(s, x, t, s')
  {
    x := s.threads[t].call.task;
    var w := s.avail[|s.avail| - 1];
    assert ThreadInv(s, t) && Holds(s, w, Free);
    forall y: nat | y != x ensures TaskRank(s', y) == TaskRank(s, y) {
      assert y in s.loc ==> TaskInv(s, y);
    }
  }

  lemma InlineFalls(s: State, t: nat, s': State) returns (x: nat)
    requires Inv(s) && t < |s.threads| && InlineStep(s, t, s')
    ensures x in s.loc && Falls(s, x, t, s')
  {
    x := s.threads[t].call.task;
    assert ThreadInv(s, t);
    forall y: nat | y != x ensures TaskRank(s', y) == TaskRank(s, y) {
      assert y in s.loc ==> TaskInv(s, y);
    }
  }

  lemma StoreFalls(s: State, t: nat, s': State) returns (x: nat)
    requires Inv(s) && t < |s.threads| && StoreStep(s, t, s')
    ensures x in s.loc && Falls(s, x, t, s')
  {
    x := s.threads[t].call.task;
    assert ThreadInv(s, t);
    forall y: nat | y != x ensures TaskRank(s', y) == TaskRank(s, y) {
      assert y in s.loc ==> TaskInv(s, y);
    }
  }

  lemma GoFalls(s: State, t: nat, s': State) returns (x: nat)
    requires Inv(s) && t < |s.threads| && GoStep(s, t, s')
    ensures x in s.loc && Falls(s, x, t, s')
  {
    var w := s.threads[t].call.worker;
    assert ThreadInv(s, t) && ThreadInv(s, w);
    x := s.threads[w].slot.value;
    forall y: nat | y != x ensures TaskRank(s', y) == TaskRank(s, y) {
      assert y in s.loc ==> TaskInv(s, y);
    }
  }

  lemma WakeFalls(s: State, t: nat, s': State) returns (x: nat)
    requires Inv(s) && t < |s.threads| && WakeStep(s, t, s')
    ensures x in s.loc && Falls(s, x, t, s')
  {
    assert ThreadInv(s, t);
    x := s.threads[t].slot.value;
    assert TaskInv(s, x);
    forall y: nat | y != x ensures TaskRank(s', y) == TaskRank(s, y) {
      assert y in s.loc ==> TaskInv(s, y);
    }
  }

  lemma FinishFalls(s: State, t: nat, s': State) returns (x: nat)
    requires Inv(s) && t < |s.threads| && FinishStep(s, t, s')
    ensures x in s.loc && Falls(s, x, t, s')
  {
    var d := |s.threads[t].stack| - 1;
    x := s.threads[t].stack[d];
    assert ThreadInv(s, t) && At(s, x, OnStack(t, d));
    forall y: nat | y != x ensures TaskRank(s', y) == TaskRank(s, y) {
      assert y in s.loc ==> TaskInv(s, y);
    }
  }

  /** The last two steps of the worker loop concern no task. */
  lemma LoopFalls(s: State, t: nat, s': State, x: nat)
    requires Inv(s) && t < |s.threads| && (PostStep(s, t, s') || ReleaseStep(s, t, s'))
    ensures TaskRank(s', x) == TaskRank(s, x) && Falls(s, x, t, s')
  {
    assert ThreadInv(s, t);
    forall y: nat ensures TaskRank(s', y) == TaskRank(s, y) {
      assert y in s.loc ==> TaskInv(s, y);
    }
  }

  /** Each step but a submission is about some task and lowers the ranks. */
  lemma AdvanceFalls(s: State, t: nat, s': State, n: nat) returns (x: nat)
    requires Inv(s) && Advance(s, t, s') && n > 0 && forall y :: y in s.loc ==> y < n
    ensures x < n && Falls(s, x, t, s')
  {
    if AllocStep(s, t, s') { x := AllocFalls(s, t, s'); }
    else if InlineStep(s, t, s') { x := InlineFalls(s, t, s'); }
    else if StoreStep(s, t, s') { x := StoreFalls(s, t, s'); }
    else if GoStep(s, t, s') { x := GoFalls(s, t, s'); }
    else if WakeStep(s, t, s') { x := WakeFalls(s, t, s'); }
    else if FinishStep(s, t, s') { x := FinishFalls(s, t, s'); }
    else {
      x := 0;
      LoopFalls(s, t, s', x);
    }
  }

  lemma SubmitAdds(s: State, t: nat, s': State) returns (x: nat)
    requires Inv(s) && t < |s.threads| && SubmitStep(s, t, s')
    ensures x !in s.loc && s'.loc.Keys == s.loc.Keys + {x}
    ensures OnlyTask(s, x, s') && OnlyThread(s.threads, t, s'.threads)
    ensures TaskRank(s', x) == 7 && s'.threads[t].pc == s.threads[t].pc
  {
    x :| x !in s.loc && s'.loc == s.loc[x := Calling(t)] && s'.threads[t].call == Wanting(x);
    forall y: nat | y != x ensures TaskRank(s', y) == TaskRank(s, y) {
      assert y in s.loc ==> TaskInv(s, y);
    }
  }

  ghost function Debt(s: State, n: nat): int { 8 * |s.loc| - TasksWork(s, n) - Sum(ThreadRank, s.threads) }

  lemma StepPays(s: State, t: nat, s': State, n: nat)
    requires Inv(s) && StepOf(s, t, s') && n > 0 && (forall y :: y in s'.loc ==> y < n)
    requires s.loc.Keys <= s'.loc.Keys
    ensures Debt(s', n) >= Debt(s, n) + 1
  {
    if SubmitStep(s, t, s') {
      var x := SubmitAdds(s, t, s');
      Changes(s, x, t, s', n);
      assert |s'.loc.Keys| == |s.loc.Keys| + 1;
    } else {
      var x := AdvanceFalls(s, t, s', n);
      Changes(s, x, t, s', n);
      assert |s'.loc.Keys| == |s.loc.Keys|;
    }
  }

  lemma TasksStay(s: State, t: nat, s': State)
    requires Inv(s) && StepOf(s, t, s')
    ensures s.loc.Keys <= s'.loc.Keys
  {
    assert ThreadInv(s, t);
  }

  lemma {:induction false} DebtGrows(w: nat, run: seq<State>, k: nat, n: nat)
    requires Run(w, run) && k < |run| && n > 0 && forall y :: y in run[k].loc ==> y < n
    ensures Debt(run[k], n) >= k
    decreases k
  {
    if k == 0 {
      NoWork(w, n);
    } else {
      RunKeepsInv(w, run, k - 1);
      assert StepAt(run, k);
      var t :| StepOf(run[k - 1], t, run[k]);
      TasksStay(run[k - 1], t, run[k]);
      DebtGrows(w, run, k - 1, n);
      StepPays(run[k - 1], t, run[k], n);
    }
  }

  lemma {:induction false} NoTasks(s: State, n: nat)
    requires s.loc == map[]
    ensures TasksWork(s, n) == 0
  {
    if n > 0 { NoTasks(s, n - 1); }
  }

  lemma NoWork(w: nat, n: nat)
    ensures Debt(Init(w), n) == 0
  {
    var s := Init(w);
    NoTasks(s, n);
    SumOfEqual(ThreadRank, s.threads, 0);
  }

  lemma {:induction false} AllBelow(ids: set<nat>) returns (n: nat)
    ensures n > 0 && forall y :: y in ids ==> y < n
  {
    if ids == {} {
      n := 1;
    } else {
      var x :| x in ids;
      var m := AllBelow(ids - {x});
      n := if x < m then m else x + 1;
      forall y | y in ids ensures y < n { assert y == x || y in ids - {x}; }
    }
  }

  /** After `k` steps at least `k / 8` tasks were submitted: with finitely many tasks, every run ends. */
  lemma RunsAreBounded(w: nat, run: seq<State>, k: nat)
    requires Run(w, run) && k < |run|
    ensures k <= 8 * |run[k].loc|
  {
    var n := AllBelow(run[k].loc.Keys);
    DebtGrows(w, run, k, n);
  }
}
