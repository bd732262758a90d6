/** When an operation succeeds, and what a success leaves on the disk. */
module Successes {
  import opened Options
  import opened ScriptFacts
  import opened Scripts
  import opened Storage
  import opened TransactionSteps
  import opened Transactions

  /** An operation succeeds exactly if it is prepared, nginx accepts the disk and, if it is to reload, reloads. */
  lemma SucceedsIff(e: Env, w: World, op: Op)
    ensures var m := Prepared(e, w, op);
            RunOp(e, w, op, false).ok <==>
            && m.task.Forward?
            && e.nginx(m.w.tick).Works? && e.valid(m.w.disk)
            && (op.UpdateFilters? || op.TestOnly? || e.nginx(m.w.tick + 1).Works?)
  {
    hide Prepared, Rollback, Plan;
    RunOpEnds(e, w, op, false);
    var m := Prepared(e, w, op);
    if m.task.Backward? {
      BackwardEnds(e, m.w, m.task.plan);
    } else {
      var (tested, rollback) := (RunTest(e, m.w), Plan(m.task.saved, Rollback(op)));
      BackwardEnds(e, tested, rollback);
      BackwardEnds(e, RunReload(e, tested), rollback);
    }
  }

  /** A manager told to skip nginx neither tests nor reloads: what is prepared is final. */
  lemma SkippingNginx(e: Env, w: World, op: Op)
    ensures var (m, r) := (Prepared(e, w, op), RunOp(e, w, op, true));
            && r.w.running == w.running
            && (r.ok <==> m.task.Forward?)
            && (r.ok ==> r.w == m.w)
  {
    hide Prepared, Plan;
    RunOpEnds(e, w, op, true);
    PreparedKeepsRunning(e, w, op);
    var m := Prepared(e, w, op);
    if m.task.Backward? {
      BackwardEnds(e, m.w, m.task.plan);
    }
  }

  lemma {:induction false} WorkingSweep(e: Env, w: World, script: Script, saved: Saved)
    requires FilesWork(e, w.tick, w.tick + |script|)
    requires forall s <- script :: !s.Test? && !s.Reload?
    ensures Sweep(e, w, script, saved).task.Forward?
    decreases |script|
  {
    if script != [] {
      assert e.files(w.tick).Works?;
      assert !script[0].Test? && !script[0].Reload?;
      var m := Advance(e, Moment(w, Forward(script, saved)));
      WorkingSweep(e, m.w, script[1..], m.task.saved);
    }
  }

  /** Where file operations work, and nginx works and accepts what it is given, every operation succeeds. */
  lemma EverythingWorks(e: Env, w: World, op: Op, skipTest: bool)
    requires FilesWork(e, w.tick, w.tick + 5)
    requires (forall k: nat :: e.nginx(k).Works?) && forall d: Disk :: e.valid(d)
    ensures RunOp(e, w, op, skipTest).ok
  {
    hide Sweep;
    WorkingSweep(e, w, Preparation(op), map[]);
    SucceedsIff(e, w, op);
    SkippingNginx(e, w, op);
  }

  /** A success leaves the disk as it was prepared. */
  lemma SuccessIsPrepared(e: Env, w: World, op: Op, skipTest: bool)
    requires RunOp(e, w, op, skipTest).ok
    ensures Prepared(e, w, op).task.Forward? && RunOp(e, w, op, skipTest).w.disk == Prepared(e, w, op).w.disk
  {
    hide Prepared, Rollback, Plan;
    RunOpEnds(e, w, op, skipTest);
    var m := Prepared(e, w, op);
    if m.task.Backward? {
      BackwardEnds(e, m.w, m.task.plan);
    } else {
      var (tested, rollback) := (RunTest(e, m.w), Plan(m.task.saved, Rollback(op)));
      BackwardEnds(e, tested, rollback);
      BackwardEnds(e, RunReload(e, tested), rollback);
    }
  }

  /** The three files of a host after an update that succeeded. A removal that failed was only logged. */
  lemma UpdateLands(e: Env, w: World, h: Host, skipTest: bool)
    requires RunOp(e, w, Generate(h), skipTest).ok
    ensures var d := RunOp(e, w, Generate(h), skipTest).w.disk;
            && Look(d, Main(h.name)) == Some(h.main)
            && Look(d, Waf(h.id)) == (if h.wafEnabled then Some(h.waf)
                                      else if e.files(w.tick + 4).Works? then None else Look(w.disk, Waf(h.id)))
            && Look(d, Cloud(h.id)) == (if h.cloud.Some? then h.cloud
                                        else if e.files(w.tick + 2).Works? then None else Look(w.disk, Cloud(h.id)))
            && forall p :: p !in {Main(h.name), Waf(h.id), Cloud(h.id)} ==> Look(d, p) == Look(w.disk, p)
  {
    hide RunOp, Prepared, Written;
    SuccessIsPrepared(e, w, Generate(h), skipTest);
    GeneratePrepares(e, w, h);
    WrittenFiles(e, w.disk, h, w.tick + 2);
    forall p | p !in {Main(h.name), Waf(h.id), Cloud(h.id)}
      ensures Look(RunOp(e, w, Generate(h), skipTest).w.disk, p) == Look(w.disk, p)
    {
      OperationStaysWithin(e, w, Generate(h), skipTest, p);
    }
  }

  /** With an unchanged file name a change of name has no rollback: prepared, it stays whatever nginx says. */
  lemma SameNameIsFinal(e: Env, w: World, h: Host, oldName: string, skipTest: bool)
    requires oldName == "" || oldName == h.name
    requires Prepared(e, w, Rename(h, oldName)).task.Forward?
    ensures var d := RunOp(e, w, Rename(h, oldName), skipTest).w.disk;
            && Look(d, Main(h.name)) == Some(h.main)
            && Look(d, Waf(h.id)) == (if h.wafEnabled then Some(h.waf)
                                      else if e.files(w.tick + 2).Works? then None else Look(w.disk, Waf(h.id)))
            && Look(d, Cloud(h.id)) == (if h.cloud.Some? then h.cloud
                                        else if e.files(w.tick).Works? then None else Look(w.disk, Cloud(h.id)))
  {
    hide Sweep, RunOp, HostFiles, Written, HostWorld;
    var op := Rename(h, oldName);
    assert Preparation(op) == HostFiles(h) + [];
    HostFilesSweep(e, w, h, [], map[]);
    SweepNothing(e, map[]);
    HostWorldFacts(e, w, h);
    WrittenFiles(e, w.disk, h, w.tick);
    NoRollback(e, w, op, skipTest);
  }

  /** A firewall update that succeeded leaves the new text in the one file and every other file as it was. */
  lemma WafLands(e: Env, w: World, h: Host, skipTest: bool)
    requires RunOp(e, w, UpdateWaf(h), skipTest).ok
    ensures RunOp(e, w, UpdateWaf(h), skipTest).w.disk == w.disk[Waf(h.id) := h.waf]
  {
    hide Sweep, RunOp;
    SuccessIsPrepared(e, w, UpdateWaf(h), skipTest);
    var put := [Put(Waf(h.id), h.waf, [])];
    assert Preparation(UpdateWaf(h)) == [Save(Waf(h.id))] + put && put == put + [];
    SaveSweep(e, w, Waf(h.id), put, map[]);
    var saved := map[] + SavedOne(Waf(h.id), Known(e, w.disk, Waf(h.id), w.tick));
    PutSweep(e, w.(tick := w.tick + 1), Waf(h.id), h.waf, [], [], saved);
    SweepNothing(e, saved);
  }

  /** A filter update that succeeded leaves each new text in its own file. */
  lemma FiltersLand(e: Env, w: World, ips: string, uas: string, skipTest: bool)
    requires RunOp(e, w, UpdateFilters(ips, uas), skipTest).ok
    ensures RunOp(e, w, UpdateFilters(ips, uas), skipTest).w.disk == w.disk[FilterIps := ips][FilterUas := uas]
  {
    hide RunOp, Prepared, Plan;
    SuccessIsPrepared(e, w, UpdateFilters(ips, uas), skipTest);
    FiltersPrepare(e, w, ips, uas);
  }

  /** Tests and reloads on their own touch no file. */
  lemma TestsTouchNothing(e: Env, w: World, op: Op, skipTest: bool)
    requires op.TestOnly? || op.TestAndReload?
    ensures RunOp(e, w, op, skipTest).w.disk == w.disk
  {
    assert Preparation(op) == [];
    NoRollback(e, w, op, skipTest);
  }

  /** If the first placeholder is needed and cannot be written, startup stops before the second file. */
  lemma FirstPlaceholderFails(e: Env, w: World, ips: string, uas: string)
    requires FilterIps !in w.disk && !e.files(w.tick).Works?
    ensures var r := EnsureFilterFiles(e, w, ips, uas);
            !r.ok && forall p :: p != FilterIps ==> Look(r.w.disk, p) == Look(w.disk, p)
  {
  }

  /** At startup, with file operations that work, a filter file that is missing gets its own placeholder. */
  lemma PlaceholdersLand(e: Env, w: World, ips: string, uas: string)
    requires FilesWork(e, w.tick, w.tick + 2)
    ensures var r := EnsureFilterFiles(e, w, ips, uas);
            && r.ok && r.w.running == w.running
            && Look(r.w.disk, FilterIps) == (if FilterIps in w.disk then Look(w.disk, FilterIps) else Some(ips))
            && Look(r.w.disk, FilterUas) == (if FilterUas in w.disk then Look(w.disk, FilterUas) else Some(uas))
            && forall p :: p !in {FilterIps, FilterUas} ==> Look(r.w.disk, p) == Look(w.disk, p)
  {
    assert e.files(w.tick).Works? && e.files(w.tick + 1).Works?;
  }
}
