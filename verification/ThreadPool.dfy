/** The hand-off of tasks to worker threads (ThreadPool.cpp, BusyLock.h).
    Thread 0 is the main thread, the others are the workers; any task may submit further tasks. */
module ThreadPools {
  import opened Common

  /** Where the loop of `BackGroundWorker` stands: waiting for busy, running its task, task over, idle posted. */
  datatype Pc = Waiting | Running | Ended | Idled

  /** How far a thread's current `Execute` call has come. */
  datatype Call = NoCall | Wanting(task: nat) | Got(task: nat, worker: nat) | Stored(worker: nat)

  /** A thread with the tasks it is inside of, and its `JobCtrl`. */
  datatype Thread = Thread(pc: Pc, busy: bool, slot: Option<nat>, stack: seq<nat>, call: Call)

  /** Bookkeeping: who may use a worker, and where a submitted task is. */
  datatype Hold = Free | HeldBy(thread: nat) | Own

  datatype Loc = Calling(thread: nat) | Slotted(worker: nat) | OnStack(thread: nat, depth: nat) | Over

  /** `runs` counts how often each submitted task was started. */
  datatype State = State(
    threads: seq<Thread>, avail: seq<nat>, hold: seq<Hold>, loc: map<nat, Loc>, runs: map<nat, nat>, fault: bool)

  /** `AddThreads (n)`: all workers available. */
  function Init(n: nat): State {
    State([Thread(Running, false, None, [], NoCall)] + seq(n, _ => Thread(Waiting, false, None, [], NoCall)),
          seq(n, w requires 0 <= w => w + 1), [Own] + seq(n, _ => Free), map[], map[], false)
  }

  function Put(s: State, t: nat, th: Thread): State
    requires t < |s.threads|
  {
    s.(threads := s.threads[t := th])
  }

  ghost predicate Shape(s: State) { |s.threads| == |s.hold| && s.threads != [] && s.loc.Keys == s.runs.Keys }

  ghost predicate SubmitStep(s: State, t: nat, s': State)
    requires Shape(s) && t < |s.threads|
  {
    var th := s.threads[t];
    && th.pc == Running && th.call == NoCall
    && exists x: nat :: x !in s.loc &&
         s' == Put(s, t, th.(call := Wanting(x))).(loc := s.loc[x := Calling(t)], runs := s.runs[x := 0])
  }

  /** `AllocThread` takes the last available worker. */
  ghost predicate AllocStep(s: State, t: nat, s': State)
    requires Shape(s) && t < |s.threads|
  {
    && s.threads[t].call.Wanting? && s.avail != []
    && var w := s.avail[|s.avail| - 1];
       && w < |s.hold|
       && s' == Put(s, t, s.threads[t].(call := Got(s.threads[t].call.task, w)))
                .(avail := s.avail[..|s.avail| - 1], hold := s.hold[w := HeldBy(t)])
  }

  /** Without an available worker the task runs in the submitting thread. */
  ghost predicate InlineStep(s: State, t: nat, s': State)
    requires Shape(s) && t < |s.threads|
  {
    var th := s.threads[t];
    && th.call.Wanting? && s.avail == []
    && var x := th.call.task;
       && x in s.runs
       && s' == Put(s, t, th.(call := NoCall, stack := th.stack + [x]))
                .(loc := s.loc[x := OnStack(t, |th.stack|)], runs := s.runs[x := s.runs[x] + 1])
  }

  /** `Thr->Task = Task` */
  ghost predicate StoreStep(s: State, t: nat, s': State)
    requires Shape(s) && t < |s.threads|
  {
    && s.threads[t].call.Got?
    && var x, w := s.threads[t].call.task, s.threads[t].call.worker;
       && w < |s.threads| && w != t
       && s' == Put(Put(s, t, s.threads[t].(call := Stored(w))), w, s.threads[w].(slot := Some(x)))
                .(loc := s.loc[x := Slotted(w)])
  }

  /** `Thr->Go ()` */
  ghost predicate GoStep(s: State, t: nat, s': State)
    requires Shape(s) && t < |s.threads|
  {
    && s.threads[t].call.Stored?
    && var w := s.threads[t].call.worker;
       && w < |s.threads| && w != t
       && s' == Put(Put(s, t, s.threads[t].(call := NoCall)), w, s.threads[w].(busy := true)).(hold := s.hold[w := Own])
  }

  /** `WaitBusy ()` returns and the task is called; without a task the assertion fails. */
  ghost predicate WakeStep(s: State, t: nat, s': State)
    requires Shape(s) && t < |s.threads|
  {
    var th := s.threads[t];
    && th.pc == Waiting && th.busy
    && if th.slot.Some? && th.slot.value in s.runs then
         var x := th.slot.value;
         s' == Put(s, t, th.(pc := Running, stack := [x])).(loc := s.loc[x := OnStack(t, 0)], runs := s.runs[x := s.runs[x] + 1])
       else s' == s.(fault := true)
  }

  /** The innermost task returns; a worker whose own task is over leaves the call. */
  ghost predicate FinishStep(s: State, t: nat, s': State)
    requires Shape(s) && t < |s.threads|
  {
    var th := s.threads[t];
    && th.pc == Running && th.call == NoCall && th.stack != []
    && var d := |th.stack| - 1;
       && th.stack[d] in s.loc
       && s' == Put(s, t, th.(stack := th.stack[..d], pc := if t > 0 && d == 0 then Ended else Running))
                .(loc := s.loc[th.stack[d] := Over])
  }

  ghost predicate PostStep(s: State, t: nat, s': State)
    requires Shape(s) && t < |s.threads|
  {
    s.threads[t].pc == Ended && s' == Put(s, t, s.threads[t].(busy := false, pc := Idled))
  }

  ghost predicate ReleaseStep(s: State, t: nat, s': State)
    requires Shape(s) && t < |s.threads|
  {
    && s.threads[t].pc == Idled
    && s' == Put(s, t, s.threads[t].(pc := Waiting)).(avail := s.avail + [t], hold := s.hold[t := Free])
  }

  /** All steps but a new submission. */
  ghost predicate Advance(s: State, t: nat, s': State) {
    && Shape(s) && t < |s.threads|
    && (|| AllocStep(s, t, s') || InlineStep(s, t, s') || StoreStep(s, t, s') || GoStep(s, t, s')
        || WakeStep(s, t, s') || FinishStep(s, t, s') || PostStep(s, t, s') || ReleaseStep(s, t, s'))
  }

  ghost predicate StepOf(s: State, t: nat, s': State) {
    Shape(s) && t < |s.threads| && (SubmitStep(s, t, s') || Advance(s, t, s'))
  }

  ghost predicate Step(s: State, s': State) { exists t :: StepOf(s, t, s') }

  ghost predicate StepAt(run: seq<State>, k: int) { 0 < k < |run| && Step(run[k - 1], run[k]) }

  ghost predicate Run(n: nat, run: seq<State>) {
    run != [] && run[0] == Init(n) && forall k :: 0 < k < |run| ==> StepAt(run, k)
  }

  predicate At(s: State, x: nat, l: Loc) { x in s.loc && s.loc[x] == l }

  predicate Holds(s: State, w: nat, h: Hold) { 1 <= w < |s.hold| && s.hold[w] == h }

  /** A call refers to its task or to a worker that nobody else holds. */
  ghost predicate CallInv(s: State, t: nat)
    requires Shape(s) && t < |s.threads|
  {
    match s.threads[t].call
    case NoCall => true
    case Wanting(x) => At(s, x, Calling(t))
    case Got(x, w) => At(s, x, Calling(t)) && Holds(s, w, HeldBy(t)) && w != t
    case Stored(w) => Holds(s, w, HeldBy(t)) && w != t
  }

  /** A free or held worker waits and is not busy, so that no post to it is lost; one on its own is busy until it posts. */
  ghost predicate WorkerInv(s: State, w: nat)
    requires Shape(s) && w < |s.threads|
  {
    var th := s.threads[w];
    if w == 0 then th.pc == Running && s.hold[0] == Own
    else
      match s.hold[w]
      case Free => th.pc == Waiting && !th.busy
      case HeldBy(t) =>
        && t < |s.threads| && th.pc == Waiting && !th.busy
        && (match s.threads[t].call
            case Got(_, v) => v == w
            case Stored(v) => v == w && th.slot.Some? && At(s, th.slot.value, Slotted(w))
            case _ => false)
      case Own =>
        match th.pc
        case Waiting => th.busy && th.slot.Some? && At(s, th.slot.value, Slotted(w))
        case Running => th.busy && th.stack != []
        case Ended => th.busy
        case Idled => !th.busy
  }

  ghost predicate ThreadInv(s: State, t: nat)
    requires Shape(s) && t < |s.threads|
  {
    var th := s.threads[t];
    && (th.pc != Running ==> th.stack == [] && th.call == NoCall)
    && (forall d: nat :: d < |th.stack| ==> At(s, th.stack[d], OnStack(t, d)))
    && CallInv(s, t) && WorkerInv(s, t)
  }

  /** A submitted task is where its location says, and has been started once exactly if it is past its hand-off. */
  ghost predicate TaskInv(s: State, x: nat)
    requires Shape(s) && x in s.loc
  {
    match s.loc[x]
    case Calling(t) =>
      && s.runs[x] == 0 && t < |s.threads|
      && (s.threads[t].call == Wanting(x) || (s.threads[t].call.Got? && s.threads[t].call.task == x))
    case Slotted(w) =>
      && s.runs[x] == 0 && 1 <= w < |s.threads| && s.threads[w].slot == Some(x)
      && (match s.hold[w]
          case Free => false
          case HeldBy(t) => t < |s.threads| && s.threads[t].call == Stored(w)
          case Own => s.threads[w].pc == Waiting)
    case OnStack(t, d) => s.runs[x] == 1 && t < |s.threads| && d < |s.threads[t].stack| && s.threads[t].stack[d] == x
    case Over => s.runs[x] == 1
  }

  ghost predicate AvailInv(s: State) {
    && (forall w :: w in s.avail <==> Holds(s, w, Free))
    && forall i, j :: 0 <= i < j < |s.avail| ==> s.avail[i] != s.avail[j]
  }

  ghost predicate Inv(s: State) {
    && Shape(s) && !s.fault && AvailInv(s)
    && (forall t: nat :: t < |s.threads| ==> ThreadInv(s, t))
    && (forall x: nat :: x in s.loc ==> TaskInv(s, x))
  }

  lemma InitInv(n: nat)
    ensures Inv(Init(n))
  {
    var s := Init(n);
    forall w: nat ensures w in s.avail <==> Holds(s, w, Free) {
      if Holds(s, w, Free) { assert s.avail[w - 1] == w; }
    }
  }

  lemma SubmitKeeps(s: State, t: nat, s': State)
    requires Inv(s) && StepOf(s, t, s') && SubmitStep(s, t, s')
    ensures Inv(s')
  {
    SubmitKeepsThreads(s, t, s');
    SubmitKeepsTasks(s, t, s');
    assert AvailInv(s');
  }

  lemma SubmitKeepsThreads(s: State, t: nat, s': State)
    requires Inv(s) && StepOf(s, t, s') && SubmitStep(s, t, s')
    ensures Shape(s') && forall u: nat :: u < |s'.threads| ==> ThreadInv(s', u)
  {
    assert ThreadInv(s, t);
    forall u: nat | u < |s'.threads| ensures ThreadInv(s', u) { assert ThreadInv(s, u); }
  }

  lemma SubmitKeepsTasks(s: State, t: nat, s': State)
    requires Inv(s) && StepOf(s, t, s') && SubmitStep(s, t, s')
    ensures Shape(s') && forall x: nat :: x in s'.loc ==> TaskInv(s', x)
  {
    assert ThreadInv(s, t);
    forall x: nat | x in s'.loc ensures TaskInv(s', x) { assert x in s.loc ==> TaskInv(s, x); }
  }

  lemma AllocKeeps(s: State, t: nat, s': State)
    requires Inv(s) && StepOf(s, t, s') && AllocStep(s, t, s')
    ensures Inv(s')
  {
    AllocKeepsThreads(s, t, s');
    AllocKeepsTasks(s, t, s');
    AvailPops(s, t, s');
  }

  lemma AllocKeepsThreads(s: State, t: nat, s': State)
    requires Inv(s) && StepOf(s, t, s') && AllocStep(s, t, s')
    ensures Shape(s') && forall u: nat :: u < |s'.threads| ==> ThreadInv(s', u)
  {
    assert Holds(s, s.avail[|s.avail| - 1], Free) && ThreadInv(s, s.avail[|s.avail| - 1]) && ThreadInv(s, t);
    forall u: nat | u < |s'.threads| ensures ThreadInv(s', u) { assert ThreadInv(s, u); }
  }

  lemma AllocKeepsTasks(s: State, t: nat, s': State)
    requires Inv(s) && StepOf(s, t, s') && AllocStep(s, t, s')
    ensures Shape(s') && forall x: nat :: x in s'.loc ==> TaskInv(s', x)
  {
    assert Holds(s, s.avail[|s.avail| - 1], Free) && ThreadInv(s, s.avail[|s.avail| - 1]) && ThreadInv(s, t);
    forall x: nat | x in s'.loc ensures TaskInv(s', x) { assert x in s.loc ==> TaskInv(s, x); }
  }

  lemma AvailPops(s: State, t: nat, s': State)
    requires AvailInv(s) && Shape(s) && t < |s.threads| && AllocStep(s, t, s')
    ensures AvailInv(s')
  {
    var m := |s.avail| - 1;
    var w := s.avail[m];
    forall v: nat ensures v in s'.avail <==> Holds(s', v, Free) {
      assert v in s.avail <==> v in s'.avail || v == w;
    }
  }

  lemma InlineKeeps(s: State, t: nat, s': State)
    requires Inv(s) && StepOf(s, t, s') && InlineStep(s, t, s')
    ensures Inv(s')
  {
    InlineKeepsThreads(s, t, s');
    InlineKeepsTasks(s, t, s');
    assert AvailInv(s');
  }

  lemma InlineKeepsThreads(s: State, t: nat, s': State)
    requires Inv(s) && StepOf(s, t, s') && InlineStep(s, t, s')
    ensures Shape(s') && forall u: nat :: u < |s'.threads| ==> ThreadInv(s', u)
  {
    assert ThreadInv(s, t) && TaskInv(s, s.threads[t].call.task);
    forall u: nat | u < |s'.threads| ensures ThreadInv(s', u) { assert ThreadInv(s, u); }
  }

  lemma InlineKeepsTasks(s: State, t: nat, s': State)
    requires Inv(s) && StepOf(s, t, s') && InlineStep(s, t, s')
    ensures Shape(s') && forall x: nat :: x in s'.loc ==> TaskInv(s', x)
  {
    assert ThreadInv(s, t) && TaskInv(s, s.threads[t].call.task);
    forall x: nat | x in s'.loc ensures TaskInv(s', x) { assert TaskInv(s, x); }
  }

  lemma StoreKeeps(s: State, t: nat, s': State)
    requires Inv(s) && StepOf(s, t, s') && StoreStep(s, t, s')
    ensures Inv(s')
  {
    StoreKeepsThreads(s, t, s');
    StoreKeepsTasks(s, t, s');
    assert AvailInv(s');
  }

  lemma StoreKeepsThreads(s: State, t: nat, s': State)
    requires Inv(s) && StepOf(s, t, s') && StoreStep(s, t, s')
    ensures Shape(s') && forall u: nat :: u < |s'.threads| ==> ThreadInv(s', u)
  {
    assert ThreadInv(s, t) && ThreadInv(s, s.threads[t].call.worker) && TaskInv(s, s.threads[t].call.task);
    forall u: nat | u < |s'.threads| ensures ThreadInv(s', u) { assert ThreadInv(s, u); }
  }

  lemma StoreKeepsTasks(s: State, t: nat, s': State)
    requires Inv(s) && StepOf(s, t, s') && StoreStep(s, t, s')
    ensures Shape(s') && forall x: nat :: x in s'.loc ==> TaskInv(s', x)
  {
    assert ThreadInv(s, t) && ThreadInv(s, s.threads[t].call.worker) && TaskInv(s, s.threads[t].call.task);
    forall x: nat | x in s'.loc ensures TaskInv(s', x) { assert TaskInv(s, x); }
  }

  lemma GoKeeps(s: State, t: nat, s': State)
    requires Inv(s) && StepOf(s, t, s') && GoStep(s, t, s')
    ensures Inv(s')
  {
    GoKeepsThreads(s, t, s');
    GoKeepsTasks(s, t, s');
    assert AvailInv(s') by { assert ThreadInv(s, t); }
  }

  lemma GoKeepsThreads(s: State, t: nat, s': State)
    requires Inv(s) && StepOf(s, t, s') && GoStep(s, t, s')
    ensures Shape(s') && forall u: nat :: u < |s'.threads| ==> ThreadInv(s', u)
  {
    assert ThreadInv(s, t) && ThreadInv(s, s.threads[t].call.worker);
    forall u: nat | u < |s'.threads| ensures ThreadInv(s', u) { assert ThreadInv(s, u); }
  }

  lemma GoKeepsTasks(s: State, t: nat, s': State)
    requires Inv(s) && StepOf(s, t, s') && GoStep(s, t, s')
    ensures Shape(s') && forall x: nat :: x in s'.loc ==> TaskInv(s', x)
  {
    assert ThreadInv(s, t) && ThreadInv(s, s.threads[t].call.worker);
    forall x: nat | x in s'.loc ensures TaskInv(s', x) { assert x in s.loc ==> TaskInv(s, x); }
  }

  lemma WakeKeeps(s: State, t: nat, s': State)
    requires Inv(s) && StepOf(s, t, s') && WakeStep(s, t, s')
    ensures Inv(s')
  {
    WakeKeepsThreads(s, t, s');
    WakeKeepsTasks(s, t, s');
    assert ThreadInv(s, t);
    assert AvailInv(s');
  }

  lemma WakeKeepsThreads(s: State, t: nat, s': State)
    requires Inv(s) && StepOf(s, t, s') && WakeStep(s, t, s')
    ensures Shape(s') && forall u: nat :: u < |s'.threads| ==> ThreadInv(s', u)
  {
    assert ThreadInv(s, t) && TaskInv(s, s.threads[t].slot.value);
    forall u: nat | u < |s'.threads| ensures ThreadInv(s', u) { assert ThreadInv(s, u); }
  }

  lemma WakeKeepsTasks(s: State, t: nat, s': State)
    requires Inv(s) && StepOf(s, t, s') && WakeStep(s, t, s')
    ensures Shape(s') && forall x: nat :: x in s'.loc ==> TaskInv(s', x)
  {
    assert ThreadInv(s, t) && TaskInv(s, s.threads[t].slot.value);
    forall x: nat | x in s'.loc ensures TaskInv(s', x) { assert x in s.loc ==> TaskInv(s, x); }
  }

  lemma FinishKeeps(s: State, t: nat, s': State)
    requires Inv(s) && StepOf(s, t, s') && FinishStep(s, t, s')
    ensures Inv(s')
  {
    FinishKeepsThreads(s, t, s');
    FinishKeepsTasks(s, t, s');
    assert AvailInv(s');
  }

  lemma FinishKeepsThreads(s: State, t: nat, s': State)
    requires Inv(s) && StepOf(s, t, s') && FinishStep(s, t, s')
    ensures Shape(s') && forall u: nat :: u < |s'.threads| ==> ThreadInv(s', u)
  {
    var d := |s.threads[t].stack| - 1;
    assert ThreadInv(s, t) && At(s, s.threads[t].stack[d], OnStack(t, d)) && TaskInv(s, s.threads[t].stack[d]);
    forall u: nat | u < |s'.threads| ensures ThreadInv(s', u) {
      assert ThreadInv(s, u);
      forall e: nat | e < |s'.threads[u].stack| ensures At(s', s'.threads[u].stack[e], OnStack(u, e)) {
        assert At(s, s.threads[u].stack[e], OnStack(u, e));
      }
    }
  }

  lemma FinishKeepsTasks(s: State, t: nat, s': State)
    requires Inv(s) && StepOf(s, t, s') && FinishStep(s, t, s')
    ensures Shape(s') && forall x: nat :: x in s'.loc ==> TaskInv(s', x)
  {
    var d := |s.threads[t].stack| - 1;
    assert ThreadInv(s, t) && At(s, s.threads[t].stack[d], OnStack(t, d)) && TaskInv(s, s.threads[t].stack[d]);
    forall x: nat | x in s'.loc ensures TaskInv(s', x) { assert TaskInv(s, x); }
  }

  lemma PostKeeps(s: State, t: nat, s': State)
    requires Inv(s) && StepOf(s, t, s') && PostStep(s, t, s')
    ensures Inv(s')
  {
    assert ThreadInv(s, t);
    forall u: nat | u < |s'.threads| ensures ThreadInv(s', u) { assert ThreadInv(s, u); }
    forall x: nat | x in s'.loc ensures TaskInv(s', x) { assert TaskInv(s, x); }
    assert AvailInv(s');
  }

  lemma ReleaseKeeps(s: State, t: nat, s': State)
    requires Inv(s) && StepOf(s, t, s') && ReleaseStep(s, t, s')
    ensures Inv(s')
  {
    assert ThreadInv(s, t);
    forall u: nat | u < |s'.threads| ensures ThreadInv(s', u) { assert ThreadInv(s, u); }
    forall x: nat | x in s'.loc ensures TaskInv(s', x) { assert TaskInv(s, x); }
    AvailGrows(s, t, s');
  }

  lemma AvailGrows(s: State, t: nat, s': State)
    requires AvailInv(s) && Shape(s) && 1 <= t < |s.hold| && s.hold[t] == Own
    requires s'.avail == s.avail + [t] && s'.hold == s.hold[t := Free]
    ensures AvailInv(s')
  {
    assert !Holds(s, t, Free);
    forall v: nat ensures v in s'.avail <==> Holds(s', v, Free) {
      assert v in s'.avail <==> v in s.avail || v == t;
      assert v in s.avail <==> Holds(s, v, Free);
    }
  }

  lemma StepKeepsInv(s: State, t: nat, s': State)
    requires Inv(s) && StepOf(s, t, s')
    ensures Inv(s')
  {
    if SubmitStep(s, t, s') { SubmitKeeps(s, t, s'); }
    else if AllocStep(s, t, s') { AllocKeeps(s, t, s'); }
    else if InlineStep(s, t, s') { InlineKeeps(s, t, s'); }
    else if StoreStep(s, t, s') { StoreKeeps(s, t, s'); }
    else if GoStep(s, t, s') { GoKeeps(s, t, s'); }
    else if WakeStep(s, t, s') { WakeKeeps(s, t, s'); }
    else if FinishStep(s, t, s') { FinishKeeps(s, t, s'); }
    else if PostStep(s, t, s') { PostKeeps(s, t, s'); }
    else { ReleaseKeeps(s, t, s'); }
  }

  lemma {:induction false} RunKeepsInv(n: nat, run: seq<State>, k: nat)
    requires Run(n, run) && k < |run|
    ensures Inv(run[k])
  {
    if k == 0 {
      InitInv(n);
    } else {
      RunKeepsInv(n, run, k - 1);
      assert StepAt(run, k);
      var t :| StepOf(run[k - 1], t, run[k]);
      StepKeepsInv(run[k - 1], t, run[k]);
    }
  }

  /** Task `x` was handed to worker `w`, or is what the worker works on. */
  predicate Occupies(s: State, x: nat, w: nat) { At(s, x, Slotted(w)) || At(s, x, OnStack(w, 0)) }

  /** In every interleaving: a task is started at most once, no worker gets two tasks, an occupied worker is not
      available, and a task whose submitter has gone lies with a worker that was told. */
  lemma HandOffIsSafe(n: nat, run: seq<State>, k: nat, x: nat, y: nat, w: nat)
    requires Run(n, run) && k < |run| && 1 <= w < |run[k].threads|
    ensures var s := run[k];
            && !s.fault && |s.hold| == |s.threads| && s.loc.Keys == s.runs.Keys
            && (x in s.runs ==> s.runs[x] == if s.loc[x].Calling? || s.loc[x].Slotted? then 0 else 1)
            && (Occupies(s, x, w) && Occupies(s, y, w) ==> x == y)
            && (Occupies(s, x, w) ==> w !in s.avail)
            && (At(s, x, Slotted(w)) && s.hold[w] == Own ==> s.threads[w].pc == Waiting && s.threads[w].busy)
  {
    RunKeepsInv(n, run, k);
    var s := run[k];
    assert ThreadInv(s, w);
    assert x in s.loc ==> TaskInv(s, x);
    assert y in s.loc ==> TaskInv(s, y);
    assert w in s.avail <==> Holds(s, w, Free);
  }

  function Upto(n: nat): (s: set<nat>)
    ensures |s| == n && forall v: nat :: v in s <==> 1 <= v <= n
  {
    if n == 0 then {} else Upto(n - 1) + {n}
  }

  lemma {:induction false} NoMore(a: seq<nat>, s: set<nat>)
    requires (forall i :: 0 <= i < |a| ==> a[i] in s) && (forall i, j :: 0 <= i < j < |a| ==> a[i] != a[j])
    ensures |a| <= |s|
  {
    if a != [] {
      NoMore(a[..|a| - 1], s - {a[|a| - 1]});
    }
  }

  /** The condition of `ThreadPool_t::WaitIdle`. */
  predicate PoolIdle(s: State) { |s.avail| + 1 == |s.threads| }

  /** The main thread is not inside of `Execute`. */
  predicate MainOutside(s: State)
    requires s.threads != []
  {
    s.threads[0].call == NoCall && s.threads[0].stack == []
  }

  lemma IdleWorkersAreFree(s: State, w: nat)
    requires Inv(s) && PoolIdle(s) && 1 <= w < |s.threads|
    ensures s.hold[w] == Free
  {
    forall i | 0 <= i < |s.avail| ensures 1 <= s.avail[i] <= |s.threads| - 1 {
      assert Holds(s, s.avail[i], Free);
    }
    if w !in s.avail { NoMore(s.avail, Upto(|s.threads| - 1) - {w}); }
  }

  /** How a task leaves its `Execute` call: with a worker available it goes to the one released last, and only without
      any does the submitting thread run it itself. */
  lemma HandOffPrefersWorkers(n: nat, run: seq<State>, k: nat, x: nat, t: nat)
    requires Run(n, run) && 0 < k < |run| && At(run[k - 1], x, Calling(t)) && x in run[k].loc
    ensures run[k].loc[x].OnStack? ==> run[k].loc[x].thread == t && run[k - 1].avail == []
    ensures t < |run[k - 1].threads| && t < |run[k].threads| && run[k - 1].threads[t].call == Wanting(x) && run[k].threads[t].call.Got? ==>
              run[k - 1].avail == run[k].avail + [run[k].threads[t].call.worker]
  {
    RunKeepsInv(n, run, k - 1);
    assert StepAt(run, k);
    var u :| StepOf(run[k - 1], u, run[k]);
    StepPrefersWorkers(run[k - 1], u, run[k], x, t);
  }

  lemma StepPrefersWorkers(s: State, u: nat, s': State, x: nat, t: nat)
    requires Inv(s) && StepOf(s, u, s') && At(s, x, Calling(t)) && x in s'.loc
    ensures s'.loc[x].OnStack? ==> s'.loc[x].thread == t && s.avail == []
    ensures t < |s.threads| && t < |s'.threads| && s.threads[t].call == Wanting(x) && s'.threads[t].call.Got? ==>
              s.avail == s'.avail + [s'.threads[t].call.worker]
  {
    if WakeStep(s, u, s') { WakeLeavesCalling(s, u, s', x, t); }
    else if FinishStep(s, u, s') { FinishLeavesCalling(s, u, s', x, t); }
    else if InlineStep(s, u, s') { InlinePrefersWorkers(s, u, s', x, t); }
    else { OthersPreferWorkers(s, u, s', x, t); }
  }

  lemma InlinePrefersWorkers(s: State, u: nat, s': State, x: nat, t: nat)
    requires Inv(s) && StepOf(s, u, s') && InlineStep(s, u, s') && At(s, x, Calling(t)) && x in s'.loc
    ensures s'.loc[x].OnStack? ==> s'.loc[x].thread == t && s.avail == []
    ensures t < |s.threads| && t < |s'.threads| && s.threads[t].call == Wanting(x) && s'.threads[t].call.Got? ==>
              s.avail == s'.avail + [s'.threads[t].call.worker]
  {
    assert ThreadInv(s, u) && TaskInv(s, x);
  }

  lemma OthersPreferWorkers(s: State, u: nat, s': State, x: nat, t: nat)
    requires Inv(s) && StepOf(s, u, s') && !WakeStep(s, u, s') && !FinishStep(s, u, s') && !InlineStep(s, u, s') && At(s, x, Calling(t)) && x in s'.loc
    ensures s'.loc[x].OnStack? ==> s'.loc[x].thread == t && s.avail == []
    ensures t < |s.threads| && t < |s'.threads| && s.threads[t].call == Wanting(x) && s'.threads[t].call.Got? ==>
              s.avail == s'.avail + [s'.threads[t].call.worker]
  {
  }

  lemma FinishLeavesCalling(s: State, u: nat, s': State, x: nat, t: nat)
    requires Inv(s) && StepOf(s, u, s') && FinishStep(s, u, s') && At(s, x, Calling(t))
    ensures At(s', x, Calling(t)) && (t < |s.threads| ==> s'.threads[t].call == s.threads[t].call)
  {
    assert ThreadInv(s, u);
  }

  lemma WakeLeavesCalling(s: State, u: nat, s': State, x: nat, t: nat)
    requires Inv(s) && StepOf(s, u, s') && WakeStep(s, u, s') && At(s, x, Calling(t))
    ensures At(s', x, Calling(t)) && (t < |s.threads| ==> s'.threads[t].call == s.threads[t].call)
  {
    assert ThreadInv(s, u);
  }

  /** When the main thread leaves `WaitIdle`, every task ever submitted, directly or by other tasks, is over. */
  lemma WaitIdleWaitsForAll(n: nat, run: seq<State>, k: nat, x: nat)
    requires Run(n, run) && k < |run| && run[k].threads != []
    requires PoolIdle(run[k]) && MainOutside(run[k]) && x in run[k].loc
    ensures run[k].loc[x] == Over && x in run[k].runs && run[k].runs[x] == 1
  {
    var s := run[k];
    RunKeepsInv(n, run, k);
    assert TaskInv(s, x);
    match s.loc[x] {
      case Calling(t) => Resting(s, t);
      case Slotted(w) => IdleWorkersAreFree(s, w);
      case OnStack(t, _) => Resting(s, t);
      case Over =>
    }
  }

  lemma Resting(s: State, t: nat)
    requires Inv(s) && PoolIdle(s) && MainOutside(s) && t < |s.threads|
    ensures s.threads[t].call == NoCall && s.threads[t].stack == []
  {
    if t > 0 {
      IdleWorkersAreFree(s, t);
      assert ThreadInv(s, t);
    }
  }

  /** Thread `t` is not where `WaitIdle` wants it. */
  predicate Active(s: State, t: nat)
    requires t < |s.threads| == |s.hold|
  {
    if t == 0 then s.threads[0].call != NoCall || s.threads[0].stack != [] else s.hold[t] != Free
  }

  /** As long as some thread is active, a step other than a new submission is possible. */
  lemma NotStuck(s: State, t: nat) returns (u: nat, s': State)
    requires Inv(s) && t < |s.threads| && Active(s, t)
    ensures Advance(s, u, s')
  {
    assert ThreadInv(s, t);
    u := if t > 0 && s.hold[t].HeldBy? then s.hold[t].thread else t;
    assert ThreadInv(s, u);
    if s.threads[u].call != NoCall {
      s' := CallGoesOn(s, u);
    } else {
      s' := LoopGoesOn(s, u);
    }
  }

  lemma CallGoesOn(s: State, t: nat) returns (s': State)
    requires Inv(s) && t < |s.threads| && s.threads[t].call != NoCall
    ensures Advance(s, t, s')
  {
    var th := s.threads[t];
    assert ThreadInv(s, t);
    match th.call
    case Wanting(x) =>
      if s.avail == [] {
        s' := Put(s, t, th.(call := NoCall, stack := th.stack + [x]))
              .(loc := s.loc[x := OnStack(t, |th.stack|)], runs := s.runs[x := s.runs[x] + 1]);
        assert InlineStep(s, t, s');
      } else {
        var w := s.avail[|s.avail| - 1];
        assert Holds(s, w, Free);
        s' := Put(s, t, th.(call := Got(x, w))).(avail := s.avail[..|s.avail| - 1], hold := s.hold[w := HeldBy(t)]);
        assert AllocStep(s, t, s');
      }
    case Got(x, w) =>
      s' := Put(Put(s, t, th.(call := Stored(w))), w, s.threads[w].(slot := Some(x))).(loc := s.loc[x := Slotted(w)]);
      assert StoreStep(s, t, s');
    case Stored(w) =>
      s' := Put(Put(s, t, th.(call := NoCall)), w, s.threads[w].(busy := true)).(hold := s.hold[w := Own]);
      assert GoStep(s, t, s');
  }

  lemma LoopGoesOn(s: State, t: nat) returns (s': State)
    requires Inv(s) && t < |s.threads| && s.threads[t].call == NoCall && Active(s, t) && !s.hold[t].HeldBy?
    ensures Advance(s, t, s')
  {
    var th := s.threads[t];
    assert ThreadInv(s, t);
    match th.pc
    case Waiting =>
      var x := th.slot.value;
      s' := Put(s, t, th.(pc := Running, stack := [x])).(loc := s.loc[x := OnStack(t, 0)], runs := s.runs[x := s.runs[x] + 1]);
      assert WakeStep(s, t, s');
    case Running =>
      var d := |th.stack| - 1;
      assert At(s, th.stack[d], OnStack(t, d));
      s' := Put(s, t, th.(stack := th.stack[..d], pc := if t > 0 && d == 0 then Ended else Running))
            .(loc := s.loc[th.stack[d] := Over]);
      assert FinishStep(s, t, s');
    case Ended =>
      s' := Put(s, t, th.(busy := false, pc := Idled));
      assert PostStep(s, t, s');
    case Idled =>
      s' := Put(s, t, th.(pc := Waiting)).(avail := s.avail + [t], hold := s.hold[t := Free]);
      assert ReleaseStep(s, t, s');
  }

  /** The worker loop with its last two steps exchanged: the worker is available before it has posted idle. */
  ghost predicate ReleaseFirst(s: State, t: nat, s': State)
    requires Shape(s) && t < |s.threads|
  {
    && s.threads[t].pc == Ended
    && s' == Put(s, t, s.threads[t].(pc := Idled)).(avail := s.avail + [t], hold := s.hold[t := Free])
  }

  ghost predicate PostLast(s: State, t: nat, s': State)
    requires Shape(s) && t < |s.threads|
  {
    s.threads[t].pc == Idled && s' == Put(s, t, s.threads[t].(busy := false, pc := Waiting))
  }

  ghost predicate SwappedStepOf(s: State, t: nat, s': State) {
    && Shape(s) && t < |s.threads|
    && (|| SubmitStep(s, t, s') || AllocStep(s, t, s') || InlineStep(s, t, s') || StoreStep(s, t, s') || GoStep(s, t, s')
        || WakeStep(s, t, s') || FinishStep(s, t, s') || ReleaseFirst(s, t, s') || PostLast(s, t, s'))
  }

  ghost predicate SwappedStep(s: State, s': State) { exists t :: SwappedStepOf(s, t, s') }

  /** Nobody will ever tell worker `w` about its task `x`. */
  predicate Forgotten(s: State, x: nat, w: nat) {
    && At(s, x, Slotted(w)) && 1 <= w < |s.threads| == |s.hold|
    && s.threads[w].pc == Waiting && !s.threads[w].busy && s.hold[w] == Own && w !in s.avail
  }

  /** The main thread in some call, and one worker. */
  function Two(call: Call, pc: Pc, busy: bool, slot: Option<nat>, stack: seq<nat>, hold: Hold,
               loc: map<nat, Loc>, runs: map<nat, nat>): State {
    State([Thread(Running, false, None, [], call), Thread(pc, busy, slot, stack, NoCall)],
          if hold == Free then [1] else [], [Own, hold], loc, runs, false)
  }

  lemma Submits(pc: Pc, busy: bool, slot: Option<nat>, loc: map<nat, Loc>, runs: map<nat, nat>, x: nat)
    requires loc.Keys == runs.Keys && x !in loc
    ensures SwappedStep(Two(NoCall, pc, busy, slot, [], Free, loc, runs),
                        Two(Wanting(x), pc, busy, slot, [], Free, loc[x := Calling(0)], runs[x := 0]))
  {
    assert SwappedStepOf(Two(NoCall, pc, busy, slot, [], Free, loc, runs), 0,
                         Two(Wanting(x), pc, busy, slot, [], Free, loc[x := Calling(0)], runs[x := 0]));
  }

  lemma Gets(pc: Pc, busy: bool, slot: Option<nat>, loc: map<nat, Loc>, runs: map<nat, nat>, x: nat)
    requires loc.Keys == runs.Keys
    ensures SwappedStep(Two(Wanting(x), pc, busy, slot, [], Free, loc, runs), Two(Got(x, 1), pc, busy, slot, [], HeldBy(0), loc, runs))
  {
    assert SwappedStepOf(Two(Wanting(x), pc, busy, slot, [], Free, loc, runs), 0, Two(Got(x, 1), pc, busy, slot, [], HeldBy(0), loc, runs));
  }

  lemma Stores(pc: Pc, busy: bool, slot: Option<nat>, loc: map<nat, Loc>, runs: map<nat, nat>, x: nat)
    requires loc.Keys == runs.Keys && x in loc
    ensures SwappedStep(Two(Got(x, 1), pc, busy, slot, [], HeldBy(0), loc, runs),
                        Two(Stored(1), pc, busy, Some(x), [], HeldBy(0), loc[x := Slotted(1)], runs))
  {
    assert SwappedStepOf(Two(Got(x, 1), pc, busy, slot, [], HeldBy(0), loc, runs), 0,
                         Two(Stored(1), pc, busy, Some(x), [], HeldBy(0), loc[x := Slotted(1)], runs));
  }

  lemma Goes(pc: Pc, busy: bool, slot: Option<nat>, loc: map<nat, Loc>, runs: map<nat, nat>)
    requires loc.Keys == runs.Keys
    ensures SwappedStep(Two(Stored(1), pc, busy, slot, [], HeldBy(0), loc, runs), Two(NoCall, pc, true, slot, [], Own, loc, runs))
  {
    assert SwappedStepOf(Two(Stored(1), pc, busy, slot, [], HeldBy(0), loc, runs), 0, Two(NoCall, pc, true, slot, [], Own, loc, runs));
  }

  /** The main thread hands task `x` to the worker, which is available. */
  lemma HandsOver(pc: Pc, busy: bool, slot: Option<nat>, loc: map<nat, Loc>, runs: map<nat, nat>, x: nat) returns (run: seq<State>)
    requires loc.Keys == runs.Keys && x !in loc
    ensures |run| == 5 && run[0] == Two(NoCall, pc, busy, slot, [], Free, loc, runs)
    ensures run[4] == Two(NoCall, pc, true, Some(x), [], Own, loc[x := Slotted(1)], runs[x := 0])
    ensures forall k :: 0 < k < |run| ==> SwappedStep(run[k - 1], run[k])
  {
    var calling, runs' := loc[x := Calling(0)], runs[x := 0];
    var slotted := calling[x := Slotted(1)];
    assert slotted == loc[x := Slotted(1)];
    Submits(pc, busy, slot, loc, runs, x);
    Gets(pc, busy, slot, calling, runs', x);
    Stores(pc, busy, slot, calling, runs', x);
    Goes(pc, busy, Some(x), slotted, runs');
    run := [Two(NoCall, pc, busy, slot, [], Free, loc, runs),
            Two(Wanting(x), pc, busy, slot, [], Free, calling, runs'),
            Two(Got(x, 1), pc, busy, slot, [], HeldBy(0), calling, runs'),
            Two(Stored(1), pc, busy, Some(x), [], HeldBy(0), slotted, runs'),
            Two(NoCall, pc, true, Some(x), [], Own, slotted, runs')];
  }

  lemma Wakes(x: nat)
    ensures SwappedStep(Two(NoCall, Waiting, true, Some(x), [], Own, map[x := Slotted(1)], map[x := 0]),
                        Two(NoCall, Running, true, Some(x), [x], Own, map[x := OnStack(1, 0)], map[x := 1]))
  {
    assert SwappedStepOf(Two(NoCall, Waiting, true, Some(x), [], Own, map[x := Slotted(1)], map[x := 0]), 1,
                         Two(NoCall, Running, true, Some(x), [x], Own, map[x := OnStack(1, 0)], map[x := 1]));
  }

  lemma Finishes(x: nat)
    ensures SwappedStep(Two(NoCall, Running, true, Some(x), [x], Own, map[x := OnStack(1, 0)], map[x := 1]),
                        Two(NoCall, Ended, true, Some(x), [], Own, map[x := Over], map[x := 1]))
  {
    assert SwappedStepOf(Two(NoCall, Running, true, Some(x), [x], Own, map[x := OnStack(1, 0)], map[x := 1]), 1,
                         Two(NoCall, Ended, true, Some(x), [], Own, map[x := Over], map[x := 1]));
  }

  lemma ReleasesEarly(x: nat)
    ensures SwappedStep(Two(NoCall, Ended, true, Some(x), [], Own, map[x := Over], map[x := 1]),
                        Two(NoCall, Idled, true, Some(x), [], Free, map[x := Over], map[x := 1]))
  {
    assert SwappedStepOf(Two(NoCall, Ended, true, Some(x), [], Own, map[x := Over], map[x := 1]), 1,
                         Two(NoCall, Idled, true, Some(x), [], Free, map[x := Over], map[x := 1]));
  }

  lemma Four(s0: State, s1: State, s2: State, s3: State) returns (run: seq<State>)
    requires SwappedStep(s0, s1) && SwappedStep(s1, s2) && SwappedStep(s2, s3)
    ensures |run| == 4 && run[0] == s0 && run[3] == s3
    ensures forall k :: 0 < k < |run| ==> SwappedStep(run[k - 1], run[k])
  {
    run := [s0, s1, s2, s3];
  }

  /** The worker runs its task `x` and becomes available, still busy. */
  lemma RunsAndReleases(x: nat) returns (run: seq<State>)
    ensures |run| == 4 && run[0] == Two(NoCall, Waiting, true, Some(x), [], Own, map[x := Slotted(1)], map[x := 0])
    ensures run[3] == Two(NoCall, Idled, true, Some(x), [], Free, map[x := Over], map[x := 1])
    ensures forall k :: 0 < k < |run| ==> SwappedStep(run[k - 1], run[k])
  {
    Wakes(x);
    Finishes(x);
    ReleasesEarly(x);
    run := Four(Two(NoCall, Waiting, true, Some(x), [], Own, map[x := Slotted(1)], map[x := 0]),
                Two(NoCall, Running, true, Some(x), [x], Own, map[x := OnStack(1, 0)], map[x := 1]),
                Two(NoCall, Ended, true, Some(x), [], Own, map[x := Over], map[x := 1]),
                Two(NoCall, Idled, true, Some(x), [], Free, map[x := Over], map[x := 1]));
  }

  lemma Joined(a: seq<State>, b: seq<State>)
    requires a != [] && b != [] && a[|a| - 1] == b[0]
    requires forall k :: 0 < k < |a| ==> SwappedStep(a[k - 1], a[k])
    requires forall k :: 0 < k < |b| ==> SwappedStep(b[k - 1], b[k])
    ensures forall k :: 0 < k < |a + b[1..]| ==> SwappedStep((a + b[1..])[k - 1], (a + b[1..])[k])
  {
    var c := a + b[1..];
    forall k | 0 < k < |c| ensures SwappedStep(c[k - 1], c[k]) {
      if k >= |a| { assert c[k] == b[k - |a| + 1] && c[k - 1] == b[k - |a|]; }
    }
  }

  /** With the steps exchanged, the idle post of one task can swallow the busy post of the next. */
  lemma ReleaseFirstLosesPosts(x: nat, y: nat) returns (run: seq<State>)
    requires x != y
    ensures run != [] && run[0] == Init(1) && Forgotten(run[|run| - 1], y, 1)
    ensures forall k :: 0 < k < |run| ==> SwappedStep(run[k - 1], run[k])
  {
    var one := HandsOver(Waiting, false, None, map[], map[], x);
    var two := RunsAndReleases(x);
    var three := HandsOver(Idled, true, Some(x), map[x := Over], map[x := 1], y);
    var s := three[4];
    var last := Two(NoCall, Waiting, false, Some(y), [], Own, map[x := Over][y := Slotted(1)], map[x := 1][y := 0]);
    assert SwappedStepOf(s, 1, last) by { assert PostLast(s, 1, last); }
    Joined(one, two);
    Joined(one + two[1..], three);
    run := one + two[1..] + three[1..];
    Joined(run, [s, last]);
    run := run + [last];
  }
}
