/** How scripts compose, what they can reach, and what their log can contain. */
module ScriptFacts {
  import opened Outcomes
  import opened Scripts
  import opened Storage

  /** A script run until it is used up or gives up. */
  function Sweep(e: Env, w: World, script: Script, saved: Saved): Moment
    decreases |script|
  {
    if script == [] then Moment(w, Forward([], saved))
    else
      var m := Advance(e, Moment(w, Forward(script, saved)));
      if m.task.Forward? then Sweep(e, m.w, script[1..], m.task.saved) else m
  }

  /** A step does not look at what comes after it. */
  lemma AdvanceOfMore(e: Env, w: World, p: Script, q: Script, saved: Saved)
    requires p != []
    ensures var m := Advance(e, Moment(w, Forward(p, saved)));
            && Advance(e, Moment(w, Forward(p + q, saved)))
               == (if m.task.Forward? then Moment(m.w, Forward(p[1..] + q, m.task.saved)) else m)
            && (m.task.Forward? ==> m.task.script == p[1..])
  {
    assert (p + q)[1..] == p[1..] + q;
    hide Perform, Performs, RunTest, RunReload, GiveUp;
    GivesUp(saved);
  }

  lemma GivesUp(saved: Saved)
    ensures forall undo :: GiveUp(saved, undo).Backward?
  {
  }

  lemma {:induction false} SweepThen(e: Env, w: World, p: Script, q: Script, saved: Saved)
    ensures var m := Sweep(e, w, p, saved);
            Complete(e, Moment(w, Forward(p + q, saved))) ==
            Complete(e, if m.task.Forward? then Moment(m.w, Forward(q, m.task.saved)) else m)
    decreases |p|
  {
    hide Advance;
    if p == [] {
      assert p + q == q;
    } else {
      AdvanceOfMore(e, w, p, q, saved);
      var m := Advance(e, Moment(w, Forward(p, saved)));
      if m.task.Forward? {
        SweepThen(e, m.w, p[1..], q, m.task.saved);
      }
    }
  }

  /** The rollback, as far as the disk is concerned, when each of its steps works. */
  function Applied(d: Disk, plan: seq<FileOp>): Disk
    decreases |plan|
  {
    if plan == [] then d else Applied(Changed(d, plan[0], Works), plan[1..])
  }

  lemma {:induction false} BackwardEnds(e: Env, w: World, plan: seq<FileOp>)
    ensures var r := Complete(e, Moment(w, Backward(plan)));
            && !r.ok && r.w.running == w.running && r.w.tick == w.tick + |plan|
            && (FilesWork(e, w.tick, r.w.tick) ==> r.w.disk == Applied(w.disk, plan))
    decreases |plan|
  {
    if plan != [] {
      BackwardEnds(e, Perform(e, w, plan[0]), plan[1..]);
    }
  }

  /** Where the preparation of an operation leaves off. */
  function Prepared(e: Env, w: World, op: Op): Moment {
    Sweep(e, w, Preparation(op), map[])
  }

  lemma {:induction false} Tick(e: Env, w: World, script: Script, saved: Saved)
    ensures var m := Sweep(e, w, script, saved);
            w.tick <= m.w.tick && (m.task.Forward? ==> m.w.tick == w.tick + |script| && m.task.script == [])
    decreases |script|
  {
    if script != [] {
      var m := Advance(e, Moment(w, Forward(script, saved)));
      if m.task.Forward? {
        Tick(e, m.w, script[1..], m.task.saved);
      }
    }
  }

  /** A prepared operation that is not being tested is done; otherwise the test and the reload decide. */
  lemma RunOpEnds(e: Env, w: World, op: Op, skipTest: bool)
    ensures var m := Prepared(e, w, op);
            var r := RunOp(e, w, op, skipTest);
            if m.task.Backward? then r == Complete(e, m)
            else if skipTest then r == Ending(m.w, true)
            else r == Judged(e, m.w, op, m.task.saved)
  {
    var m := Prepared(e, w, op);
    SweepThen(e, w, Preparation(op), TestSteps(op, skipTest), map[]);
    Tick(e, w, Preparation(op), map[]);
    if m.task.Forward? && !skipTest {
      JudgedEnds(e, m.w, op, m.task.saved);
    }
  }

  function Judged(e: Env, w: World, op: Op, saved: Saved): Ending {
    var tested := RunTest(e, w);
    var rollback := GiveUp(saved, Rollback(op));
    if !Passes(e, w) then Complete(e, Moment(tested, rollback))
    else if !Reloads(op) then Ending(tested, true)
    else if e.nginx(tested.tick).Works? then Ending(RunReload(e, tested), true)
    else Complete(e, Moment(RunReload(e, tested), rollback))
  }

  lemma JudgedEnds(e: Env, w: World, op: Op, saved: Saved)
    ensures Complete(e, Moment(w, Forward(TestSteps(op, false), saved))) == Judged(e, w, op, saved)
  {
    var steps := TestSteps(op, false);
    var m := Advance(e, Moment(w, Forward(steps, saved)));
    assert steps[0] == Test(Rollback(op));
    if m.task.Forward? {
      if Reloads(op) {
        assert steps[1..] == [Reload(Rollback(op))];
        var n := Advance(e, m);
        assert Complete(e, m) == Complete(e, n);
        assert n.task.Forward? ==> n.task.script == [];
      } else {
        assert steps[1..] == [];
      }
    }
  }

  // ---- what an operation can touch ----

  function StmtPath(s: Stmt): set<Path> {
    if s.Test? || s.Reload? || s.Save? then {} else {s.p}
  }

  function StmtUndo(s: Stmt): seq<Undo> {
    if s.Put? || s.Test? || s.Reload? then s.undo else []
  }

  ghost predicate StmtWithin(s: Stmt, paths: set<Path>) {
    StmtPath(s) <= paths && forall u <- StmtUndo(s) :: u.p in paths
  }

  ghost predicate TaskWithin(t: Task, paths: set<Path>) {
    match t
    case Forward(script, _) => forall s <- script :: StmtWithin(s, paths)
    case Backward(plan) => forall f <- plan :: f.p in paths
  }

  /** The files an operation may change. */
  function Reach(op: Op): set<Path> {
    match op
    case Generate(h) => {Main(h.name), Waf(h.id), Cloud(h.id)}
    case Rename(h, oldName) =>
      {Main(h.name), Waf(h.id), Cloud(h.id)} + if Renames(h, oldName) then {Main(oldName)} else {}
    case RemoveHost(h) => {Main(h.name), Waf(h.id), Cloud(h.id)}
    case UpdateWaf(h) => {Waf(h.id)}
    case UpdateFilters(_, _) => {FilterIps, FilterUas}
    case UpdateBanned(_) => {Banned}
    case TestOnly => {}
    case TestAndReload => {}
  }

  lemma StartWithin(op: Op, skipTest: bool)
    ensures TaskWithin(Start(op, skipTest), Reach(op))
  {
    hide Preparation, Rollback, Reach;
    var t := Start(op, skipTest);
    PreparationWithin(op);
    RollbackWithin(op);
    assert forall s <- TestSteps(op, skipTest) :: StmtWithin(s, Reach(op));
    assert forall s <- t.script :: s in Preparation(op) || s in TestSteps(op, skipTest);
  }

  lemma PreparationWithin(op: Op)
    ensures forall s <- Preparation(op) :: StmtWithin(s, Reach(op))
  {
    match op
    case Generate(h) => assert forall s <- HostFiles(h) :: StmtWithin(s, Reach(op));
    case Rename(h, oldName) => assert forall s <- HostFiles(h) :: StmtWithin(s, Reach(op));
    case _ =>
  }

  lemma RollbackWithin(op: Op)
    ensures forall u <- Rollback(op) :: u.p in Reach(op)
  {
  }

  lemma {:induction false} PlanWithin(saved: Saved, undo: seq<Undo>, paths: set<Path>)
    requires forall u <- undo :: u.p in paths
    ensures forall f <- Plan(saved, undo) :: f.p in paths
  {
    if undo != [] {
      PlanWithin(saved, undo[1..], paths);
    }
  }

  lemma StepWithin(e: Env, m: Moment, paths: set<Path>)
    requires !Done(m.task) && TaskWithin(m.task, paths)
    ensures TaskWithin(Advance(e, m).task, paths)
    ensures forall p :: p !in paths ==> Look(Advance(e, m).w.disk, p) == Look(m.w.disk, p)
  {
    if m.task.Forward? {
      var s := m.task.script[0];
      assert StmtWithin(s, paths);
      assert s.Delete? ==> Plan(m.task.saved, []) == [];
      PlanWithin(m.task.saved, StmtUndo(s), paths);
    }
  }

  lemma {:induction false} CompleteWithin(e: Env, m: Moment, paths: set<Path>)
    requires TaskWithin(m.task, paths)
    ensures forall p :: p !in paths ==> Look(Complete(e, m).w.disk, p) == Look(m.w.disk, p)
    decreases if m.task.Forward? then 1 else 0, StepsLeft(m.task)
  {
    if !Done(m.task) {
      StepWithin(e, m, paths);
      CompleteWithin(e, Advance(e, m), paths);
    }
  }

  /** However it goes, an operation changes no file outside its reach. */
  lemma OperationStaysWithin(e: Env, w: World, op: Op, skipTest: bool, p: Path)
    requires p !in Reach(op)
    ensures Look(RunOp(e, w, op, skipTest).w.disk, p) == Look(w.disk, p)
  {
    StartWithin(op, skipTest);
    CompleteWithin(e, Moment(w, Start(op, skipTest)), Reach(op));
  }

  // ---- tests and reloads ----

  /** Every reload comes straight after a test of the same files that passed. */
  ghost predicate ReloadsAreTested(e: Env, log: seq<Item>) {
    && (forall i :: 0 <= i < |log| && log[i].Tested? && log[i].passed ==> e.valid(log[i].disk))
    && (forall i :: 0 <= i < |log| && log[i].Reloaded? ==> i > 0 && log[i - 1] == Tested(log[i].disk, true))
  }

  /** The configuration loaded last. */
  function LastLoaded(log: seq<Item>, first: Disk): Disk {
    if log == [] then first
    else if log[|log| - 1].Reloaded? then log[|log| - 1].disk
    else LastLoaded(log[..|log| - 1], first)
  }

  predicate JustTested(w: World) {
    |w.log| > 0 && w.log[|w.log| - 1] == Tested(w.disk, true)
  }

  ghost predicate Guarded(m: Moment) {
    m.task.Forward? ==>
      var script := m.task.script;
      && (script != [] && script[0].Reload? ==> JustTested(m.w))
      && (forall i :: 0 < i < |script| && script[i].Reload? ==> script[i - 1].Test?)
  }

  /** The record of a world is honest: reloads are tested, and what runs is what was loaded last. */
  ghost predicate Honest(e: Env, w: World, first: Disk) {
    ReloadsAreTested(e, w.log) && w.running == LastLoaded(w.log, first)
  }

  lemma StartGuarded(w: World, op: Op, skipTest: bool)
    ensures Guarded(Moment(w, Start(op, skipTest)))
  {
    hide Preparation, TestSteps;
    var (p, q) := (Preparation(op), TestSteps(op, skipTest));
    PreparationHasNoReload(op);
    ReloadFollowsTest(op, skipTest);
    var script: Script := p + q;
    forall i | 0 <= i < |script| && script[i].Reload?
      ensures i > 0 && script[i - 1].Test?
    {
      assert i >= |p|;
      assert script[i] == q[i - |p|] && script[i - 1] == q[0];
    }
  }

  lemma PreparationHasNoReload(op: Op)
    ensures forall i :: 0 <= i < |Preparation(op)| ==> !Preparation(op)[i].Reload?
  {
    match op
    case Generate(h) => assert forall s <- HostFiles(h) :: !s.Reload?;
    case Rename(h, oldName) => assert forall s <- HostFiles(h) :: !s.Reload?;
    case _ =>
  }

  lemma ReloadFollowsTest(op: Op, skipTest: bool)
    ensures var q := TestSteps(op, skipTest);
            forall i :: 0 <= i < |q| && q[i].Reload? ==> i == 1 && q[0].Test?
  {
    hide Rollback;
  }

  lemma LogGrows(e: Env, w: World, item: Item, next: World, first: Disk)
    requires Honest(e, w, first)
    requires next.log == w.log + [item]
    requires item.Tested? && item.passed ==> e.valid(item.disk)
    requires item.Reloaded? ==> w.log != [] && w.log[|w.log| - 1] == Tested(item.disk, true)
    requires next.running == if item.Reloaded? then item.disk else w.running
    ensures Honest(e, next, first)
  {
    assert next.log[..|w.log|] == w.log;
  }

  lemma StepStaysGuarded(e: Env, m: Moment)
    requires !Done(m.task) && Guarded(m)
    ensures Guarded(Advance(e, m))
  {
    hide Plan;
    var n := Advance(e, m);
    if n.task.Forward? {
      var (script, rest) := (m.task.script, n.task.script);
      assert rest == script[1..];
      forall i | 0 <= i < |rest| && rest[i].Reload?
        ensures script[i].Test? && (i > 0 ==> rest[i - 1].Test?)
      {
        assert rest[i] == script[i + 1];
      }
    }
  }

  lemma StepStaysHonest(e: Env, m: Moment, first: Disk)
    requires !Done(m.task) && Guarded(m) && Honest(e, m.w, first)
    ensures Guarded(Advance(e, m)) && Honest(e, Advance(e, m).w, first)
  {
    hide LastLoaded, Plan, ReloadsAreTested;
    StepStaysGuarded(e, m);
    var n := Advance(e, m);
    var w := m.w;
    if n.w.log != w.log {
      var item := n.w.log[|w.log|];
      assert n.w.log == w.log + [item];
      if m.task.Forward? && m.task.script[0].Reload? {
        assert JustTested(w);
      }
      LogGrows(e, w, item, n.w, first);
    }
  }
}
