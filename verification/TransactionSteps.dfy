/** Working out what scripts and rollbacks do to the disk, one step at a time. */
module TransactionSteps {
  import opened Options
  import opened Outcomes
  import opened ScriptFacts
  import opened Scripts
  import opened Storage

  /** The operation made every change it needed and was then refused by the test or the reload. */
  ghost predicate Refused(e: Env, w: World, op: Op) {
    Prepared(e, w, op).task.Forward? && !RunOp(e, w, op, false).ok
  }

  ghost predicate RollbackWorks(e: Env, w: World, op: Op) {
    FilesWork(e, Prepared(e, w, op).w.tick, RunOp(e, w, op, false).w.tick)
  }

  /** A refused operation ends with its rollback applied to what it had prepared. */
  lemma RefusedRollsBack(e: Env, w: World, op: Op)
    requires Refused(e, w, op) && RollbackWorks(e, w, op)
    ensures RunOp(e, w, op, false).w.disk ==
            Applied(Prepared(e, w, op).w.disk, Plan(Prepared(e, w, op).task.saved, Rollback(op)))
  {
    RunOpEnds(e, w, op, false);
    var m := Prepared(e, w, op);
    var tested := RunTest(e, m.w);
    var rollback := Plan(m.task.saved, Rollback(op));
    BackwardEnds(e, tested, rollback);
    BackwardEnds(e, RunReload(e, tested), rollback);
  }

  lemma SweepOne(e: Env, w: World, script: Script, saved: Saved)
    requires script != []
    ensures var m := Advance(e, Moment(w, Forward(script, saved)));
            Sweep(e, w, script, saved) == if m.task.Forward? then Sweep(e, m.w, script[1..], m.task.saved) else m
  {
  }

  lemma PlanOne(saved: Saved, undo: seq<Undo>)
    requires undo != []
    ensures var first := UndoOp(saved, undo[0]);
            Plan(saved, undo) == (if first.Some? then [first.value] else []) + Plan(saved, undo[1..])
  {
  }

  lemma PlanNothing(saved: Saved)
    ensures Plan(saved, []) == []
  {
  }

  lemma {:induction false} AppliedConcat(d: Disk, p: seq<FileOp>, q: seq<FileOp>)
    ensures Applied(d, p + q) == Applied(Applied(d, p), q)
    decreases |p|
  {
    if p == [] {
      assert p + q == q;
    } else {
      assert (p + q)[1..] == p[1..] + q;
      AppliedConcat(Changed(d, p[0], Works), p[1..], q);
    }
  }

  function Undone(d: Disk, saved: Saved, u: Undo): Disk {
    var f := UndoOp(saved, u);
    if f.Some? then Changed(d, f.value, Works) else d
  }

  function UndoneAll(d: Disk, saved: Saved, undo: seq<Undo>): Disk
    decreases |undo|
  {
    if undo == [] then d else UndoneAll(Undone(d, saved, undo[0]), saved, undo[1..])
  }

  lemma {:induction false} PlanUndoes(d: Disk, saved: Saved, undo: seq<Undo>)
    ensures Applied(d, Plan(saved, undo)) == UndoneAll(d, saved, undo)
    decreases |undo|
  {
    if undo != [] {
      var first := UndoOp(saved, undo[0]);
      AppliedConcat(d, if first.Some? then [first.value] else [], Plan(saved, undo[1..]));
      assert first.Some? ==> Applied(d, [first.value]) == Changed(d, first.value, Works);
      PlanUndoes(Undone(d, saved, undo[0]), saved, undo[1..]);
    }
  }

  /** What a backup taken at step `tick` knows of a file: a file that cannot be read passes for absent. */
  function Known(e: Env, d: Disk, p: Path, tick: nat): Option<string> {
    if e.files(tick).Works? then Look(d, p) else None
  }

  function SavedOne(p: Path, known: Option<string>): Saved {
    if known.Some? then map[p := known.value] else map[]
  }

  function SavedTwo(p: Path, known: Option<string>, q: Path, other: Option<string>): Saved {
    SavedOne(p, known) + SavedOne(q, other)
  }

  lemma SweepNothing(e: Env, saved: Saved)
    ensures forall v: World :: Sweep(e, v, [], saved) == Moment(v, Forward([], saved))
  {
  }

  lemma SaveSweep(e: Env, w: World, p: Path, rest: Script, saved: Saved)
    ensures Sweep(e, w, [Save(p)] + rest, saved) ==
            Sweep(e, w.(tick := w.tick + 1), rest, saved + SavedOne(p, Known(e, w.disk, p, w.tick)))
  {
    var s := [Save(p)] + rest;
    assert s[1..] == rest;
    SweepOne(e, w, s, saved);
    var known := Known(e, w.disk, p, w.tick);
    assert saved + SavedOne(p, known) == if known.Some? then saved[p := known.value] else saved;
  }

  lemma SaveTwoSweep(e: Env, w: World, p: Path, q: Path, rest: Script)
    ensures Sweep(e, w, [Save(p)] + ([Save(q)] + rest), map[]) ==
            Sweep(e, w.(tick := w.tick + 2), rest,
                  SavedTwo(p, Known(e, w.disk, p, w.tick), q, Known(e, w.disk, q, w.tick + 1)))
  {
    hide Sweep;
    var saved := SavedOne(p, Known(e, w.disk, p, w.tick));
    SaveSweep(e, w, p, [Save(q)] + rest, map[]);
    assert map[] + saved == saved;
    SaveSweep(e, w.(tick := w.tick + 1), q, rest, saved);
  }

  lemma {:induction false} UndoneConcat(d: Disk, saved: Saved, p: seq<Undo>, q: seq<Undo>)
    ensures UndoneAll(d, saved, p + q) == UndoneAll(UndoneAll(d, saved, p), saved, q)
    decreases |p|
  {
    if p == [] {
      assert p + q == q;
    } else {
      assert (p + q)[1..] == p[1..] + q;
      UndoneConcat(Undone(d, saved, p[0]), saved, p[1..], q);
    }
  }

  lemma UndoneTwo(d: Disk, saved: Saved, u: Undo, v: Undo)
    ensures UndoneAll(d, saved, [u, v]) == Undone(Undone(d, saved, u), saved, v)
    ensures UndoneAll(d, saved, [u]) == Undone(d, saved, u)
  {
    hide Undone;
    assert [u, v][1..] == [v] && [v][1..] == [] && [u][1..] == [];
    assert UndoneAll(d, saved, [u, v]) == UndoneAll(Undone(d, saved, u), saved, [v]);
  }

  lemma SameLook(d: Disk, c: Disk)
    requires forall p :: Look(d, p) == Look(c, p)
    ensures d == c
  {
    assert forall p :: (p in d <==> p in c) && (p in d ==> d[p] == c[p]) by {
      forall p
        ensures (p in d <==> p in c) && (p in d ==> d[p] == c[p])
      {
        assert Look(d, p) == Look(c, p);
      }
    }
  }

  /** The tests an operation ran. */
  function Tests(log: seq<Item>): seq<Disk> {
    if log == [] then []
    else Tests(log[..|log| - 1]) + if log[|log| - 1].Tested? then [log[|log| - 1].disk] else []
  }

  lemma TestsSnoc(log: seq<Item>, item: Item)
    ensures Tests(log + [item]) == Tests(log) + if item.Tested? then [item.disk] else []
  {
    assert (log + [item])[..|log|] == log;
  }

  lemma TouchedTests(log: seq<Item>, p: Path)
    ensures Tests(log + [Touched(p)]) == Tests(log)
  {
    TestsSnoc(log, Touched(p));
  }

  lemma {:induction false} BackwardTests(e: Env, w: World, plan: seq<FileOp>)
    ensures Tests(Complete(e, Moment(w, Backward(plan))).w.log) == Tests(w.log)
    decreases |plan|
  {
    if plan != [] {
      TestsSnoc(w.log, Touched(plan[0].p));
      BackwardTests(e, Perform(e, w, plan[0]), plan[1..]);
    }
  }

  /** A prepared operation is tested once, on what it prepared. */
  lemma TestedOnce(e: Env, w: World, op: Op)
    requires Prepared(e, w, op).task.Forward?
    ensures Tests(RunOp(e, w, op, false).w.log) == Tests(Prepared(e, w, op).w.log) + [Prepared(e, w, op).w.disk]
  {
    hide Prepared, Rollback, Plan, Tests, Complete, RunOp;
    RunOpEnds(e, w, op, false);
    var m := Prepared(e, w, op);
    var tested := RunTest(e, m.w);
    var rollback := Plan(m.task.saved, Rollback(op));
    TestsSnoc(m.w.log, Tested(m.w.disk, Passes(e, m.w)));
    if !e.nginx(tested.tick).Fails? {
      TestsSnoc(tested.log, Reloaded(m.w.disk));
    }
    BackwardTests(e, tested, rollback);
    BackwardTests(e, RunReload(e, tested), rollback);
  }

  lemma FilesDoNotTest(log: seq<Item>, a: Path, b: Path, c: Path, d: Path)
    ensures Tests(log + [Touched(a), Touched(b), Touched(c), Touched(d)]) == Tests(log)
  {
    hide Tests;
    TouchedTests(log, a);
    TouchedTests(log + [Touched(a)], b);
    TouchedTests(log + [Touched(a)] + [Touched(b)], c);
    TouchedTests(log + [Touched(a)] + [Touched(b)] + [Touched(c)], d);
    assert log + [Touched(a), Touched(b), Touched(c), Touched(d)]
        == log + [Touched(a)] + [Touched(b)] + [Touched(c)] + [Touched(d)];
  }

  lemma AppliedNothing(d: Disk)
    ensures Applied(d, []) == d
  {
  }

  lemma AppliedTwo(d: Disk, f: FileOp, g: FileOp)
    ensures Applied(d, [f, g]) == Changed(Changed(d, f, Works), g, Works)
  {
    hide Changed;
    assert [f, g][1..] == [g] && [g][1..] == [];
    assert Applied(d, [f, g]) == Applied(Changed(d, f, Works), [g]);
    assert Applied(Changed(d, f, Works), [g]) == Applied(Changed(Changed(d, f, Works), g, Works), []);
  }

  /** The rollback works if enough file operations after the preparation do. */
  lemma RefusedEnds(e: Env, w: World, op: Op, steps: nat)
    requires Refused(e, w, op)
    requires |Plan(Prepared(e, w, op).task.saved, Rollback(op))| + 2 <= steps
    requires FilesWork(e, Prepared(e, w, op).w.tick, Prepared(e, w, op).w.tick + steps)
    ensures RollbackWorks(e, w, op)
    ensures RunOp(e, w, op, false).w.disk ==
            Applied(Prepared(e, w, op).w.disk, Plan(Prepared(e, w, op).task.saved, Rollback(op)))
  {
    RunOpEnds(e, w, op, false);
    var m := Prepared(e, w, op);
    var tested := RunTest(e, m.w);
    var rollback := Plan(m.task.saved, Rollback(op));
    BackwardEnds(e, tested, rollback);
    BackwardEnds(e, RunReload(e, tested), rollback);
    RefusedRollsBack(e, w, op);
  }

  lemma PutSweep(e: Env, w: World, p: Path, c: string, undo: seq<Undo>, rest: Script, saved: Saved)
    ensures var after := Perform(e, w, Write(p, c));
            Sweep(e, w, [Put(p, c, undo)] + rest, saved) ==
            if e.files(w.tick).Works? then Sweep(e, after, rest, saved) else Moment(after, GiveUp(saved, undo))
  {
    var s := [Put(p, c, undo)] + rest;
    assert s[1..] == rest;
    SweepOne(e, w, s, saved);
  }

  lemma DropSweep(e: Env, w: World, p: Path, rest: Script, saved: Saved)
    ensures Sweep(e, w, [Drop(p)] + rest, saved) == Sweep(e, Perform(e, w, Remove(p)), rest, saved)
  {
    var s := [Drop(p)] + rest;
    assert s[1..] == rest;
    SweepOne(e, w, s, saved);
  }

  lemma {:induction false} SweepKeepsRunning(e: Env, w: World, script: Script, saved: Saved)
    requires forall s <- script :: !s.Reload?
    ensures Sweep(e, w, script, saved).w.running == w.running
    decreases |script|
  {
    if script != [] {
      var m := Advance(e, Moment(w, Forward(script, saved)));
      if m.task.Forward? {
        SweepKeepsRunning(e, m.w, script[1..], m.task.saved);
      }
    }
  }

  lemma PreparedKeepsRunning(e: Env, w: World, op: Op)
    ensures Prepared(e, w, op).w.running == w.running
  {
    SweepKeepsRunning(e, w, Preparation(op), map[]);
  }

  /** An operation without a rollback leaves the disk as it prepared it. */
  lemma NoRollback(e: Env, w: World, op: Op, skipTest: bool)
    requires Rollback(op) == []
    requires Prepared(e, w, op).task.Backward? ==> Prepared(e, w, op).task.plan == []
    ensures RunOp(e, w, op, skipTest).w.disk == Prepared(e, w, op).w.disk
  {
    RunOpEnds(e, w, op, skipTest);
  }
}
