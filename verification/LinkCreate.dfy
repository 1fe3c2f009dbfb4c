/** Hard links while an archive is created: the first name of an inode is archived, later names join it
    (`Create::DoCreate`, `ArchFileCreate::Create` and `CreateLink`). */
module LinkCreates {
  import opened Common
  import opened Measures
  import opened Numbers

  /** One name met by `DoCreate`, in the order of its calls. */
  datatype Visit = Visit(name: string, dev: nat, ino: nat, dir: bool, slink: bool, nlink: nat)

  /** The map key: `Dev()` has 16 bits, `INodeNum` has 32, and inode number zero means "not tracked". */
  function Key(v: Visit): Option<(int, int)> {
    var inode := if v.dir || v.slink || v.nlink < 2 then 0 else v.ino;
    if inode % U32 == 0 then None else Some((v.dev % U16, inode % U32))
  }

  /** The first visit with the same key as visit `v`, from `u` on. */
  function FirstFrom(vs: seq<Visit>, u: nat, v: nat): (f: nat)
    requires u <= v < |vs|
    ensures u <= f <= v && Key(vs[f]) == Key(vs[v])
    ensures forall w :: u <= w < f ==> Key(vs[w]) != Key(vs[v])
    decreases v - u
  {
    if Key(vs[u]) == Key(vs[v]) then u else FirstFrom(vs, u + 1, v)
  }

  /** The visit whose `Create` call archives visit `v`. */
  function First(vs: seq<Visit>, v: nat): (f: nat)
    requires v < |vs|
    ensures f <= v && (Key(vs[v]) == None ==> f == v) && Key(vs[f]) == Key(vs[v])
    ensures Key(vs[v]).Some? ==> forall w :: 0 <= w < f ==> Key(vs[w]) != Key(vs[v])
  {
    if Key(vs[v]) == None then v else FirstFrom(vs, 0, v)
  }

  /** Names share their first visit exactly if they are tracked under one key. */
  lemma FirstIsShared(vs: seq<Visit>, v: nat, w: nat)
    requires v < |vs| && w < |vs|
    ensures First(vs, v) == First(vs, w) <==> v == w || (Key(vs[v]).Some? && Key(vs[v]) == Key(vs[w]))
  {
  }

  /** `Waiting` remembers the place of the name in the first file's `Links`. */
  datatype Pc =
    | Unvisited
    | Creating
    | Pushed
    | Draining(done: nat)
    | Linking(first: nat)
    | Late(first: nat)
    | Waiting(first: nat, place: nat)
    | Done

  /** A line of the list: the name of `visit`, with the data that the `Create` call of `entry` found. */
  datatype Item = Item(visit: nat, entry: nat)

  datatype State = State(
    next: nat, inodes: map<(int, int), nat>, links: seq<seq<nat>>, complete: set<nat>, pc: seq<Pc>, list: seq<Item>)

  function Init(vs: seq<Visit>): State {
    State(0, map[], seq(|vs|, _ => []), {}, seq(|vs|, _ => Unvisited), [])
  }

  ghost predicate Shape(vs: seq<Visit>, s: State) { |s.pc| == |s.links| == |vs| && s.next <= |vs| }

  function Move(s: State, v: nat, p: Pc): State
    requires v < |s.pc|
  {
    s.(pc := s.pc[v := p])
  }

  /** Under `InodesMtx`: a known key makes a link job, a new one is remembered and makes a create job. */
  ghost predicate VisitStep(vs: seq<Visit>, s: State, v: nat, s': State)
    requires Shape(vs, s) && v < |vs|
  {
    && v == s.next
    && var key := Key(vs[v]);
       if key.Some? && key.value in s.inodes then s' == Move(s, v, Linking(s.inodes[key.value])).(next := v + 1)
       else s' == Move(s, v, Creating).(next := v + 1, inodes := if key.Some? then s.inodes[key.value := v] else s.inodes)
  }

  ghost predicate PushStep(vs: seq<Visit>, s: State, v: nat, s': State)
    requires Shape(vs, s) && v < |vs|
  {
    && s.pc[v] == Creating
    && s' == Move(s, v, if Key(vs[v]).Some? then Pushed else Done).(list := s.list + [Item(v, v)])
  }

  /** `Inode->Mtx` is held from here until the links are drained. */
  ghost predicate CompleteStep(vs: seq<Visit>, s: State, v: nat, s': State)
    requires Shape(vs, s) && v < |vs|
  {
    s.pc[v] == Pushed && s' == Move(s, v, Draining(0)).(complete := s.complete + {v})
  }

  ghost predicate DrainStep(vs: seq<Visit>, s: State, v: nat, s': State)
    requires Shape(vs, s) && v < |vs|
  {
    && s.pc[v].Draining?
    && var k := s.pc[v].done;
       if k < |s.links[v]| then
         && s.links[v][k] < |vs|
         && s' == Move(Move(s, v, Draining(k + 1)), s.links[v][k], Done).(list := s.list + [Item(s.links[v][k], v)])
       else
         s' == Move(s, v, Done).(links := s.links[v := []])
  }

  /** `CreateLink` up to its unlock; it cannot enter while the first file drains. */
  ghost predicate JoinStep(vs: seq<Visit>, s: State, v: nat, s': State)
    requires Shape(vs, s) && v < |vs|
  {
    && s.pc[v].Linking?
    && var f := s.pc[v].first;
       && f < |vs| && !s.pc[f].Draining?
       && if f in s.complete then s' == Move(s, v, Late(f))
          else s' == Move(s, v, Waiting(f, |s.links[f]|)).(links := s.links[f := s.links[f] + [v]])
  }

  ghost predicate LateStep(vs: seq<Visit>, s: State, v: nat, s': State)
    requires Shape(vs, s) && v < |vs|
  {
    s.pc[v].Late? && s' == Move(s, v, Done).(list := s.list + [Item(v, s.pc[v].first)])
  }

  ghost predicate StepOf(vs: seq<Visit>, s: State, v: nat, s': State) {
    && Shape(vs, s) && v < |vs|
    && (|| VisitStep(vs, s, v, s') || PushStep(vs, s, v, s') || CompleteStep(vs, s, v, s')
        || DrainStep(vs, s, v, s') || JoinStep(vs, s, v, s') || LateStep(vs, s, v, s'))
  }

  ghost predicate Step(vs: seq<Visit>, s: State, s': State) { exists v :: StepOf(vs, s, v, s') }

  ghost predicate StepAt(vs: seq<Visit>, run: seq<State>, k: int) { 0 < k < |run| && Step(vs, run[k - 1], run[k]) }

  ghost predicate Run(vs: seq<Visit>, run: seq<State>) {
    run != [] && run[0] == Init(vs) && forall k :: 0 < k < |run| ==> StepAt(vs, run, k)
  }

  /** The first file is still to take care of its waiting names. */
  predicate Open(p: Pc) { p.Creating? || p.Pushed? || p.Draining? }

  function Drained(p: Pc): nat { if p.Draining? then p.done else 0 }

  predicate InList(p: Pc) { p.Pushed? || p.Draining? || p.Done? }

  ghost predicate PcInv(vs: seq<Visit>, s: State, v: nat)
    requires Shape(vs, s) && v < |vs|
  {
    && (s.pc[v].Unvisited? <==> v >= s.next)
    && (Open(s.pc[v]) ==> First(vs, v) == v)
    && (s.pc[v].Pushed? || s.pc[v].Draining? ==> Key(vs[v]).Some?)
    && (s.pc[v].Linking? || s.pc[v].Late? || s.pc[v].Waiting? ==> s.pc[v].first == First(vs, v) < v)
    && (v in s.complete ==> s.pc[v].Draining? || s.pc[v].Done?)
    && (First(vs, v) == v && Key(vs[v]).Some? && (s.pc[v].Draining? || s.pc[v].Done?) ==> v in s.complete)
    && (s.pc[v].Late? ==> First(vs, v) in s.complete)
  }

  /** The waiting names of visit `f` are its `Links` from the first undrained one on, and they wait for it. */
  ghost predicate LinksInv(vs: seq<Visit>, s: State, f: nat)
    requires Shape(vs, s) && f < |vs|
  {
    && (s.links[f] != [] ==> Open(s.pc[f]))
    && Drained(s.pc[f]) <= |s.links[f]|
    && forall p :: Drained(s.pc[f]) <= p < |s.links[f]| ==> WaitsAt(s, f, p)
  }

  ghost predicate WaitsAt(s: State, f: nat, p: nat)
    requires f < |s.links| && p < |s.links[f]|
  {
    s.links[f][p] < |s.pc| && s.pc[s.links[f][p]] == Waiting(f, p)
  }

  ghost predicate WaitInv(vs: seq<Visit>, s: State, v: nat)
    requires Shape(vs, s) && v < |vs|
  {
    s.pc[v].Waiting? ==>
      var f, p := s.pc[v].first, s.pc[v].place;
      f < |vs| && Drained(s.pc[f]) <= p < |s.links[f]| && s.links[f][p] == v
  }

  ghost predicate KeysInv(vs: seq<Visit>, s: State)
    requires Shape(vs, s)
  {
    && (forall v: nat :: v < s.next && Key(vs[v]).Some? ==>
          Key(vs[v]).value in s.inodes && s.inodes[Key(vs[v]).value] == First(vs, v))
    && (forall key :: key in s.inodes ==> s.inodes[key] < s.next && Key(vs[s.inodes[key]]) == Some(key))
  }

  /** How often a line must be in the list: once, with the first visit's data, when its job says so. */
  function Times(vs: seq<Visit>, s: State, i: Item): nat {
    if i.visit < |vs| && i.visit < |s.pc| && InList(s.pc[i.visit]) && i.entry == First(vs, i.visit) then 1 else 0
  }

  ghost predicate ListInv(vs: seq<Visit>, s: State) {
    forall i: Item :: multiset(s.list)[i] == Times(vs, s, i)
  }

  ghost predicate JobsInv(vs: seq<Visit>, s: State) {
    && Shape(vs, s)
    && (forall v: nat :: v < |vs| ==> PcInv(vs, s, v))
    && (forall v: nat :: v < |vs| ==> LinksInv(vs, s, v))
    && (forall v: nat :: v < |vs| ==> WaitInv(vs, s, v))
  }

  ghost predicate Inv(vs: seq<Visit>, s: State) {
    JobsInv(vs, s) && KeysInv(vs, s) && ListInv(vs, s)
  }

  /** A line is added for a visit that was not in the list, or none is. */
  lemma Added(vs: seq<Visit>, s: State, v: nat, s': State)
    requires Shape(vs, s) && |s'.pc| == |s.pc| && v < |vs| && ListInv(vs, s)
    requires !InList(s.pc[v]) && InList(s'.pc[v]) && s'.list == s.list + [Item(v, First(vs, v))]
    requires forall w: nat :: w < |vs| && w != v ==> (InList(s'.pc[w]) <==> InList(s.pc[w]))
    ensures ListInv(vs, s')
  {
    forall i: Item ensures multiset(s'.list)[i] == Times(vs, s', i) {
      assert multiset(s.list)[i] == Times(vs, s, i);
    }
  }

  lemma NoneAdded(vs: seq<Visit>, s: State, s': State)
    requires Shape(vs, s) && |s'.pc| == |s.pc| && ListInv(vs, s) && s'.list == s.list
    requires forall w: nat :: w < |vs| ==> (InList(s'.pc[w]) <==> InList(s.pc[w]))
    ensures ListInv(vs, s')
  {
    forall i: Item ensures multiset(s'.list)[i] == Times(vs, s', i) {
      assert multiset(s.list)[i] == Times(vs, s, i);
    }
  }

  lemma VisitKeeps(vs: seq<Visit>, s: State, v: nat, s': State)
    requires Inv(vs, s) && v < |vs| && VisitStep(vs, s, v, s')
    ensures Inv(vs, s')
  {
    assert PcInv(vs, s, v) && LinksInv(vs, s, v);
    VisitKeepsKeys(vs, s, v, s');
    VisitKeepsJobs(vs, s, v, s');
    NoneAdded(vs, s, s');
  }

  lemma VisitKeepsKeys(vs: seq<Visit>, s: State, v: nat, s': State)
    requires Shape(vs, s) && KeysInv(vs, s) && v < |vs| && VisitStep(vs, s, v, s')
    ensures KeysInv(vs, s')
    ensures s'.pc[v] == if First(vs, v) == v then Creating else Linking(First(vs, v))
  {
    var key := Key(vs[v]);
    if key.Some? && key.value in s.inodes {
      var f := s.inodes[key.value];
      FirstIsShared(vs, f, v);
      assert First(vs, f) == f;
    } else if key.Some? {
      assert !(First(vs, v) < s.next);
    }
  }

  lemma VisitKeepsJobs(vs: seq<Visit>, s: State, v: nat, s': State)
    requires JobsInv(vs, s) && v < |vs| && VisitStep(vs, s, v, s')
    requires s'.pc[v] == if First(vs, v) == v then Creating else Linking(First(vs, v))
    ensures JobsInv(vs, s')
  {
    assert PcInv(vs, s, v);
    OneMoves(vs, s, v, s');
  }

  /** A job moves on without touching any `Links`; only its own entry needs a look. */
  lemma OneMoves(vs: seq<Visit>, s: State, v: nat, s': State)
    requires JobsInv(vs, s) && Shape(vs, s') && v < |vs| && s'.links == s.links && s'.pc == s.pc[v := s'.pc[v]]
    requires forall w :: w != v ==> (w in s'.complete <==> w in s.complete)
    requires s'.next == s.next || (s.next == v && s'.next == v + 1)
    requires PcInv(vs, s', v) && !s.pc[v].Waiting? && !s'.pc[v].Waiting?
    requires v in s.complete ==> v in s'.complete
    requires Drained(s'.pc[v]) == Drained(s.pc[v]) && (Open(s.pc[v]) && s.links[v] != [] ==> Open(s'.pc[v]))
    ensures JobsInv(vs, s')
  {
    forall w: nat | w < |vs| ensures PcInv(vs, s', w) && LinksInv(vs, s', w) && WaitInv(vs, s', w) {
      assert PcInv(vs, s, w) && LinksInv(vs, s, w) && WaitInv(vs, s, w);
      forall p | Drained(s'.pc[w]) <= p < |s'.links[w]| ensures WaitsAt(s', w, p) {
        assert WaitsAt(s, w, p);
      }
    }
  }

  lemma PushKeeps(vs: seq<Visit>, s: State, v: nat, s': State)
    requires Inv(vs, s) && v < |vs| && PushStep(vs, s, v, s')
    ensures Inv(vs, s')
  {
    assert PcInv(vs, s, v) && LinksInv(vs, s, v);
    PushKeepsJobs(vs, s, v, s');
    Added(vs, s, v, s');
  }

  lemma PushKeepsJobs(vs: seq<Visit>, s: State, v: nat, s': State)
    requires JobsInv(vs, s) && v < |vs| && PushStep(vs, s, v, s')
    ensures JobsInv(vs, s')
  {
    assert PcInv(vs, s, v) && LinksInv(vs, s, v);
    if Key(vs[v]) == None { UntrackedAlone(vs, s, v); }
    OneMoves(vs, s, v, s');
  }

  /** Nobody waits for an untracked file. */
  lemma UntrackedAlone(vs: seq<Visit>, s: State, f: nat)
    requires JobsInv(vs, s) && f < |vs| && Key(vs[f]) == None && s.pc[f] == Creating
    ensures s.links[f] == []
  {
    assert LinksInv(vs, s, f);
    assert s.links[f] != [] ==> WaitsAt(s, f, 0) && PcInv(vs, s, s.links[f][0]);
  }

  lemma CompleteKeeps(vs: seq<Visit>, s: State, v: nat, s': State)
    requires Inv(vs, s) && v < |vs| && CompleteStep(vs, s, v, s')
    ensures Inv(vs, s')
  {
    assert PcInv(vs, s, v);
    OneMoves(vs, s, v, s');
    NoneAdded(vs, s, s');
  }

  lemma LateKeeps(vs: seq<Visit>, s: State, v: nat, s': State)
    requires Inv(vs, s) && v < |vs| && LateStep(vs, s, v, s')
    ensures Inv(vs, s')
  {
    assert PcInv(vs, s, v) && LinksInv(vs, s, v);
    OneMoves(vs, s, v, s');
    Added(vs, s, v, s');
  }

  lemma JoinKeeps(vs: seq<Visit>, s: State, v: nat, s': State)
    requires Inv(vs, s) && v < |vs| && JoinStep(vs, s, v, s')
    ensures Inv(vs, s')
  {
    var f := s.pc[v].first;
    assert PcInv(vs, s, v) && LinksInv(vs, s, v) && PcInv(vs, s, f);
    if f in s.complete {
      OneMoves(vs, s, v, s');
    } else {
      WaitKeepsJobs(vs, s, v, s');
    }
    NoneAdded(vs, s, s');
  }

  lemma WaitKeepsJobs(vs: seq<Visit>, s: State, v: nat, s': State)
    requires JobsInv(vs, s) && v < |vs| && JoinStep(vs, s, v, s') && s.pc[v].first !in s.complete
    ensures JobsInv(vs, s')
  {
    var f := s.pc[v].first;
    assert PcInv(vs, s, v) && PcInv(vs, s, f) && LinksInv(vs, s, f);
    FirstIsShared(vs, f, v);
    forall w: nat | w < |vs| ensures PcInv(vs, s', w) && LinksInv(vs, s', w) && WaitInv(vs, s', w) {
      assert PcInv(vs, s, w) && LinksInv(vs, s, w) && WaitInv(vs, s, w);
      forall p | Drained(s'.pc[w]) <= p < |s'.links[w]| ensures WaitsAt(s', w, p) {
        assert p < |s.links[w]| ==> WaitsAt(s, w, p);
      }
    }
  }

  lemma DrainKeeps(vs: seq<Visit>, s: State, v: nat, s': State)
    requires Inv(vs, s) && v < |vs| && DrainStep(vs, s, v, s')
    ensures Inv(vs, s')
  {
    var k := s.pc[v].done;
    assert PcInv(vs, s, v) && LinksInv(vs, s, v);
    if k < |s.links[v]| {
      var w := s.links[v][k];
      assert WaitsAt(s, v, k);
      assert PcInv(vs, s, w);
      DrainOneKeepsJobs(vs, s, v, s');
      Added(vs, s, w, s');
    } else {
      DrainedKeepsJobs(vs, s, v, s');
      NoneAdded(vs, s, s');
    }
  }

  lemma DrainOneKeepsJobs(vs: seq<Visit>, s: State, v: nat, s': State)
    requires JobsInv(vs, s) && v < |vs| && DrainStep(vs, s, v, s') && s.pc[v].done < |s.links[v]|
    ensures JobsInv(vs, s')
  {
    var x := s.links[v][s.pc[v].done];
    assert LinksInv(vs, s, v) && WaitsAt(s, v, s.pc[v].done);
    assert PcInv(vs, s, v) && PcInv(vs, s, x);
    assert LinksInv(vs, s, x);
    forall w: nat | w < |vs| ensures PcInv(vs, s', w) && LinksInv(vs, s', w) && WaitInv(vs, s', w) {
      assert PcInv(vs, s, w) && LinksInv(vs, s, w) && WaitInv(vs, s, w);
      forall p | Drained(s'.pc[w]) <= p < |s'.links[w]| ensures WaitsAt(s', w, p) {
        assert WaitsAt(s, w, p);
      }
    }
  }

  lemma DrainedKeepsJobs(vs: seq<Visit>, s: State, v: nat, s': State)
    requires JobsInv(vs, s) && v < |vs| && DrainStep(vs, s, v, s') && s.pc[v].done >= |s.links[v]|
    ensures JobsInv(vs, s')
  {
    assert LinksInv(vs, s, v) && PcInv(vs, s, v);
    forall w: nat | w < |vs| ensures PcInv(vs, s', w) && LinksInv(vs, s', w) && WaitInv(vs, s', w) {
      assert PcInv(vs, s, w) && LinksInv(vs, s, w) && WaitInv(vs, s, w);
      forall p | Drained(s'.pc[w]) <= p < |s'.links[w]| ensures WaitsAt(s', w, p) {
        assert WaitsAt(s, w, p);
      }
    }
  }

  lemma InitInv(vs: seq<Visit>)
    ensures Inv(vs, Init(vs))
  {
    assert multiset(Init(vs).list) == multiset{};
  }

  lemma StepKeepsInv(vs: seq<Visit>, s: State, v: nat, s': State)
    requires Inv(vs, s) && StepOf(vs, s, v, s')
    ensures Inv(vs, s')
  {
    if VisitStep(vs, s, v, s') { VisitKeeps(vs, s, v, s'); }
    else if PushStep(vs, s, v, s') { PushKeeps(vs, s, v, s'); }
    else if CompleteStep(vs, s, v, s') { CompleteKeeps(vs, s, v, s'); }
    else if DrainStep(vs, s, v, s') { DrainKeeps(vs, s, v, s'); }
    else if JoinStep(vs, s, v, s') { JoinKeeps(vs, s, v, s'); }
    else { LateKeeps(vs, s, v, s'); }
  }

  lemma {:induction false} RunKeepsInv(vs: seq<Visit>, run: seq<State>, k: nat)
    requires Run(vs, run) && k < |run|
    ensures Inv(vs, run[k])
  {
    if k == 0 {
      InitInv(vs);
    } else {
      RunKeepsInv(vs, run, k - 1);
      assert StepAt(vs, run, k);
      var v :| StepOf(vs, run[k - 1], v, run[k]);
      StepKeepsInv(vs, run[k - 1], v, run[k]);
    }
  }

  /** While the first file drains its links, a later name of it that has not joined yet stays where it is: the inode's
      lock is taken. */
  lemma DrainingExcludesJoining(vs: seq<Visit>, run: seq<State>, k: nat, f: nat, v: nat)
    requires Run(vs, run) && 0 < k < |run| && f < |vs| && v < |vs|
    requires f < |run[k - 1].pc| && v < |run[k - 1].pc| && run[k - 1].pc[f].Draining? && run[k - 1].pc[v] == Linking(f)
    ensures v < |run[k].pc| && run[k].pc[v] == Linking(f)
  {
    RunKeepsInv(vs, run, k - 1);
    assert StepAt(vs, run, k);
    var u :| StepOf(vs, run[k - 1], u, run[k]);
    StepLeavesLinking(vs, run[k - 1], u, run[k], f, v);
  }

  lemma StepLeavesLinking(vs: seq<Visit>, s: State, u: nat, s': State, f: nat, v: nat)
    requires Inv(vs, s) && StepOf(vs, s, u, s') && f < |vs| && v < |vs| && s.pc[f].Draining? && s.pc[v] == Linking(f)
    ensures v < |s'.pc| && s'.pc[v] == Linking(f)
  {
    assert PcInv(vs, s, v);
    if DrainStep(vs, s, u, s') { DrainLeavesLinking(vs, s, u, s', v); }
  }

  lemma DrainLeavesLinking(vs: seq<Visit>, s: State, u: nat, s': State, v: nat)
    requires Inv(vs, s) && StepOf(vs, s, u, s') && DrainStep(vs, s, u, s') && v < |vs| && s.pc[v].Linking?
    ensures s'.pc[v] == s.pc[v]
  {
    assert LinksInv(vs, s, u);
    assert s.pc[u].done < |s.links[u]| ==> WaitsAt(s, u, s.pc[u].done);
  }

  predicate Finished(s: State) { forall v: nat :: v < |s.pc| ==> s.pc[v].Done? }

  /** However the later links race with the first file: no line is written twice or with the data of another inode,
      and names wait only while the first file is not done. */
  lemma ListIsSound(vs: seq<Visit>, run: seq<State>, k: nat, i: Item)
    requires Run(vs, run) && k < |run|
    ensures multiset(run[k].list)[i] <= 1
    ensures i in run[k].list ==> i.visit < |vs| && i.entry == First(vs, i.visit)
    ensures forall f: nat :: f < |vs| && f < |run[k].links| && run[k].links[f] != [] ==> f < |run[k].pc| && Open(run[k].pc[f])
  {
    RunKeepsInv(vs, run, k);
    assert multiset(run[k].list)[i] == Times(vs, run[k], i);
    assert i in run[k].list <==> i in multiset(run[k].list);
    forall f: nat | f < |vs| && f < |run[k].links| && run[k].links[f] != [] ensures f < |run[k].pc| && Open(run[k].pc[f]) {
      assert LinksInv(vs, run[k], f);
    }
  }

  /** In the end each name is in the list exactly once, with the entry of the first file of its inode. */
  lemma ListIsComplete(vs: seq<Visit>, run: seq<State>, i: Item)
    requires Run(vs, run) && Finished(run[|run| - 1])
    ensures multiset(run[|run| - 1].list)[i] == if i.visit < |vs| && i.entry == First(vs, i.visit) then 1 else 0
  {
    RunKeepsInv(vs, run, |run| - 1);
  }

  /** The job of a visit that is not done can go on, or the one it waits for can. */
  lemma NotStuck(vs: seq<Visit>, s: State, v: nat) returns (s': State)
    requires Inv(vs, s) && v < |vs| && !s.pc[v].Done?
    ensures Step(vs, s, s')
  {
    assert PcInv(vs, s, v);
    var u := v;
    match s.pc[v] {
      case Unvisited =>
        u := s.next;
        assert PcInv(vs, s, u);
      case Linking(f) =>
        if s.pc[f].Draining? { u := f; }
      case Waiting(f, _) =>
        assert WaitInv(vs, s, v) && LinksInv(vs, s, f);
        u := f;
      case _ =>
    }
    s' := Next(vs, s, u);
    assert StepOf(vs, s, u, s');
  }

  lemma Next(vs: seq<Visit>, s: State, v: nat) returns (s': State)
    requires Inv(vs, s) && v < |vs| && !s.pc[v].Done? && !s.pc[v].Waiting?
    requires s.pc[v].Unvisited? ==> v == s.next
    requires s.pc[v].Linking? ==> s.pc[v].first < |vs| && !s.pc[s.pc[v].first].Draining?
    ensures StepOf(vs, s, v, s')
  {
    assert LinksInv(vs, s, v);
    match s.pc[v]
    case Unvisited =>
      var key := Key(vs[v]);
      if key.Some? && key.value in s.inodes {
        s' := Move(s, v, Linking(s.inodes[key.value])).(next := v + 1);
      } else {
        s' := Move(s, v, Creating).(next := v + 1, inodes := if key.Some? then s.inodes[key.value := v] else s.inodes);
      }
      assert VisitStep(vs, s, v, s');
    case Creating =>
      s' := Move(s, v, if Key(vs[v]).Some? then Pushed else Done).(list := s.list + [Item(v, v)]);
      assert PushStep(vs, s, v, s');
    case Pushed =>
      s' := Move(s, v, Draining(0)).(complete := s.complete + {v});
      assert CompleteStep(vs, s, v, s');
    case Draining(k) =>
      if k < |s.links[v]| {
        assert WaitsAt(s, v, k);
        s' := Move(Move(s, v, Draining(k + 1)), s.links[v][k], Done).(list := s.list + [Item(s.links[v][k], v)]);
      } else {
        s' := Move(s, v, Done).(links := s.links[v := []]);
      }
      assert DrainStep(vs, s, v, s');
    case Linking(f) =>
      s' := if f in s.complete then Move(s, v, Late(f))
            else Move(s, v, Waiting(f, |s.links[f]|)).(links := s.links[f := s.links[f] + [v]]);
      assert JoinStep(vs, s, v, s');
    case Late(f) =>
      s' := Move(s, v, Done).(list := s.list + [Item(v, f)]);
      assert LateStep(vs, s, v, s');
  }

  function Rank(p: Pc): nat {
    match p
    case Unvisited => 5
    case Creating => 4
    case Pushed => 3
    case Draining(_) => 2
    case Linking(_) => 2
    case Late(_) => 1
    case Waiting(_, _) => 1
    case Done => 0
  }

  lemma DrainWorks(vs: seq<Visit>, s: State, v: nat, s': State)
    requires JobsInv(vs, s) && v < |vs| && DrainStep(vs, s, v, s')
    ensures Sum(Rank, s'.pc) < Sum(Rank, s.pc)
  {
    assert PcInv(vs, s, v) && LinksInv(vs, s, v);
    if s.pc[v].done < |s.links[v]| {
      assert WaitsAt(s, v, s.pc[v].done);
      SumFalls(Rank, s.pc, s'.pc, s.links[v][s.pc[v].done]);
    } else {
      SumFalls(Rank, s.pc, s'.pc, v);
    }
  }

  lemma OneFalls(vs: seq<Visit>, s: State, v: nat, s': State)
    requires StepOf(vs, s, v, s') && !DrainStep(vs, s, v, s') && (VisitStep(vs, s, v, s') ==> s.pc[v].Unvisited?)
    ensures s'.pc == s.pc[v := s'.pc[v]] && Rank(s'.pc[v]) < Rank(s.pc[v])
  {
  }

  lemma StepWorks(vs: seq<Visit>, s: State, v: nat, s': State)
    requires Inv(vs, s) && StepOf(vs, s, v, s')
    ensures Sum(Rank, s'.pc) < Sum(Rank, s.pc)
  {
    assert PcInv(vs, s, v);
    if DrainStep(vs, s, v, s') {
      DrainWorks(vs, s, v, s');
    } else {
      OneFalls(vs, s, v, s');
      SumFalls(Rank, s.pc, s'.pc, v);
    }
  }

  /** Every run ends: no job takes more than five steps. */
  lemma {:induction false} RunsAreBounded(vs: seq<Visit>, run: seq<State>, k: nat)
    requires Run(vs, run) && k < |run|
    ensures Sum(Rank, run[k].pc) <= 5 * |vs| - k
  {
    if k == 0 {
      SumOfEqual(Rank, run[0].pc, 5);
    } else {
      RunsAreBounded(vs, run, k - 1);
      RunKeepsInv(vs, run, k - 1);
      assert StepAt(vs, run, k);
      var v :| StepOf(vs, run[k - 1], v, run[k]);
      StepWorks(vs, run[k - 1], v, run[k]);
    }
  }

  lemma OneMore(vs: seq<Visit>, run: seq<State>) returns (more: seq<State>)
    requires Run(vs, run) && !Finished(run[|run| - 1])
    ensures Run(vs, more) && |more| == |run| + 1 && more[..|run|] == run
  {
    var s := run[|run| - 1];
    RunKeepsInv(vs, run, |run| - 1);
    var j: nat :| j < |s.pc| && !s.pc[j].Done?;
    var s' := NotStuck(vs, s, j);
    more := run + [s'];
    forall k | 0 < k < |more| ensures StepAt(vs, more, k) {
      if k < |run| {
        assert StepAt(vs, run, k);
        assert more[k] == run[k] && more[k - 1] == run[k - 1];
      } else {
        assert more[k - 1] == s && more[k] == s';
      }
    }
  }

  /** Every run can be carried on to a finished one. */
  lemma {:induction false} Completes(vs: seq<Visit>, run: seq<State>) returns (full: seq<State>)
    requires Run(vs, run)
    ensures Run(vs, full) && Finished(full[|full| - 1])
    decreases 5 * |vs| - |run|
  {
    if Finished(run[|run| - 1]) {
      full := run;
    } else {
      var more := OneMore(vs, run);
      RunsAreBounded(vs, more, |more| - 1);
      full := Completes(vs, more);
    }
  }
}
