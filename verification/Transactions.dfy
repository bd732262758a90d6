/** What each operation leaves behind, on success and on failure. */
module Transactions {
  import opened Options
  import opened Outcomes
  import opened ScriptFacts
  import opened Scripts
  import opened Storage
  import opened TransactionSteps

  // ---- success ----

  /**
   When an operation on hosts, firewalls or banned addresses, or a plain reload, has succeeded, nginx runs
   exactly what is on the disk, and it passed the test.
   */
  lemma SuccessIsRunning(e: Env, w: World, op: Op)
    requires op.Generate? || op.Rename? || op.RemoveHost? || op.UpdateWaf? || op.UpdateBanned? || op.TestAndReload?
    requires RunOp(e, w, op, false).ok
    ensures var r := RunOp(e, w, op, false).w;
            r.running == r.disk && e.valid(r.disk) && r.disk == Prepared(e, w, op).w.disk
  {
    RunOpEnds(e, w, op, false);
    Tick(e, w, Preparation(op), map[]);
    var m := Prepared(e, w, op);
    if m.task.Backward? {
      BackwardEnds(e, m.w, m.task.plan);
    } else {
      var tested := RunTest(e, m.w);
      var rollback := Plan(m.task.saved, Rollback(op));
      BackwardEnds(e, tested, rollback);
      BackwardEnds(e, RunReload(e, tested), rollback);
    }
  }

  // ---- what runs after a refusal ----

  /**
   After a refused operation nginx runs what it ran before, unless the test passed and the reload took place
   although it was reported as failed: then it runs the refused files.
   */
  lemma RunningAfterRefusal(e: Env, w: World, op: Op)
    requires Refused(e, w, op)
    ensures var m := Prepared(e, w, op).w;
            RunOp(e, w, op, false).w.running ==
            if e.nginx(m.tick).Works? && e.valid(m.disk) && e.nginx(m.tick + 1).Halfway?
               && !op.UpdateFilters? && !op.TestOnly?
            then m.disk else w.running
  {
    hide Prepared, Rollback, Plan;
    RunOpEnds(e, w, op, false);
    PreparedKeepsRunning(e, w, op);
    var m := Prepared(e, w, op);
    var (tested, rollback) := (RunTest(e, m.w), Plan(m.task.saved, Rollback(op)));
    BackwardEnds(e, tested, rollback);
    BackwardEnds(e, RunReload(e, tested), rollback);
  }

  // ---- creating or updating a host ----

  function GenerateOps(h: Host): seq<FileOp> {
    [
      if h.cloud.Some? then Write(Cloud(h.id), h.cloud.value) else Remove(Cloud(h.id)),
      Write(Main(h.name), h.main),
      if h.wafEnabled then Write(Waf(h.id), h.waf) else Remove(Waf(h.id))
    ]
  }

  /** The host's files once written: a removal that failed was only logged. */
  function Written(e: Env, d: Disk, h: Host, tick: nat): Disk {
    var d1 := Changed(d, GenerateOps(h)[0], e.files(tick));
    var d2 := Changed(d1, GenerateOps(h)[1], Works);
    Changed(d2, GenerateOps(h)[2], e.files(tick + 2))
  }

  /** The three files written one after the other. */
  function HostWorld(e: Env, w: World, h: Host): World {
    Perform(e, Perform(e, Perform(e, w, GenerateOps(h)[0]), GenerateOps(h)[1]), GenerateOps(h)[2])
  }

  lemma HostWorldFacts(e: Env, w: World, h: Host)
    requires e.files(w.tick + 1).Works?
    ensures var v := HostWorld(e, w, h);
            && v.disk == Written(e, w.disk, h, w.tick) && v.tick == w.tick + 3 && v.running == w.running
            && v.log == w.log + [Touched(Cloud(h.id)), Touched(Main(h.name)), Touched(Waf(h.id))]
  {
    var items := [Touched(Cloud(h.id)), Touched(Main(h.name)), Touched(Waf(h.id))];
    assert HostWorld(e, w, h).log == w.log + [items[0]] + [items[1]] + [items[2]];
  }

  predicate HostFilesLand(e: Env, w: World, h: Host) {
    && (h.cloud.Some? ==> e.files(w.tick).Works?)
    && e.files(w.tick + 1).Works?
    && (h.wafEnabled ==> e.files(w.tick + 2).Works?)
  }

  lemma HostFilesSweep(e: Env, w: World, h: Host, rest: Script, saved: Saved)
    ensures var m := Sweep(e, w, HostFiles(h) + rest, saved);
            if HostFilesLand(e, w, h) then m == Sweep(e, HostWorld(e, w, h), rest, saved) else m.task.Backward?
  {
    hide Sweep, Plan, HostFiles;
    var (main, waf) := ([Put(Main(h.name), h.main, [])], [WafStep(h)]);
    HostFilesParts(h, rest);
    var w1 := Perform(e, w, GenerateOps(h)[0]);
    var w2 := Perform(e, w1, GenerateOps(h)[1]);
    if h.cloud.Some? {
      PutSweep(e, w, Cloud(h.id), h.cloud.value, [], main + (waf + rest), saved);
    } else {
      DropSweep(e, w, Cloud(h.id), main + (waf + rest), saved);
    }
    PutSweep(e, w1, Main(h.name), h.main, [], waf + rest, saved);
    if h.wafEnabled {
      PutSweep(e, w2, Waf(h.id), h.waf, [], rest, saved);
    } else {
      DropSweep(e, w2, Waf(h.id), rest, saved);
    }
  }

  lemma HostFilesParts(h: Host, rest: Script)
    ensures HostFiles(h) + rest == [CloudStep(h)] + ([Put(Main(h.name), h.main, [])] + ([WafStep(h)] + rest))
  {
  }

  function HostBackups(e: Env, w: World, h: Host): Saved {
    SavedTwo(Main(h.name), Known(e, w.disk, Main(h.name), w.tick),
             Waf(h.id), Known(e, w.disk, Waf(h.id), w.tick + 1))
  }

  lemma GeneratePrepares(e: Env, w: World, h: Host)
    requires Prepared(e, w, Generate(h)).task.Forward?
    ensures var m := Prepared(e, w, Generate(h));
            && m.task.saved == HostBackups(e, w, h)
            && m.w.disk == Written(e, w.disk, h, w.tick + 2)
            && (h.cloud.Some? ==> e.files(w.tick + 2).Works?)
            && (h.wafEnabled ==> e.files(w.tick + 4).Works?)
  {
    hide HostFiles, Written, Sweep, Plan;
    var (w2, saved) := (w.(tick := w.tick + 2), HostBackups(e, w, h));
    assert Preparation(Generate(h)) == [Save(Main(h.name))] + ([Save(Waf(h.id))] + HostFiles(h));
    SaveTwoSweep(e, w, Main(h.name), Waf(h.id), HostFiles(h));
    assert HostFiles(h) == HostFiles(h) + [];
    HostFilesSweep(e, w2, h, [], saved);
    SweepNothing(e, saved);
    HostWorldFacts(e, w2, h);
  }

  /** What each of the host's files holds after a refused update. */
  lemma AfterRefusal(e: Env, w: World, h: Host)
    requires Refused(e, w, Generate(h)) && RollbackWorks(e, w, Generate(h))
    ensures var d := RunOp(e, w, Generate(h), false).w.disk;
            var (main, waf, cloud) := (Main(h.name), Waf(h.id), Cloud(h.id));
            && Look(d, main) == RestoredMain(Known(e, w.disk, main, w.tick), h)
            && Look(d, waf) == RestoredWaf(Known(e, w.disk, waf, w.tick + 1), h, WafLeft(e, w.disk, h, w.tick + 2))
            && Look(d, cloud) == (if h.cloud.Some? || e.files(w.tick + 2).Works? then h.cloud
                                  else Look(w.disk, cloud))
            && (h.wafEnabled ==> e.files(w.tick + 4).Works?)
  {
    hide RunOp, Prepared, Written, UndoneAll, Plan, Applied, HostBackups, RestoredMain, RestoredWaf, WafLeft, Known;
    GeneratePrepares(e, w, h);
    RefusedRollsBack(e, w, Generate(h));
    PlanUndoes(Written(e, w.disk, h, w.tick + 2), HostBackups(e, w, h), GenerateUndo(h));
    GenerateUndone(e, w, h);
  }

  /**
   A refused update puts the host's two files back exactly when they were absent, or could be read and
   were not empty: an empty backup is mistaken for none, and an unreadable file for an absent one. Only
   the cloud include keeps what the update made of it.
   */
  lemma GenerateRollsBack(e: Env, w: World, h: Host)
    requires Refused(e, w, Generate(h)) && RollbackWorks(e, w, Generate(h))
    ensures var d := RunOp(e, w, Generate(h), false).w.disk;
            var (main, waf, cloud) := (Main(h.name), Waf(h.id), Cloud(h.id));
            var (mainRead, wafRead, wafDropped) :=
              (e.files(w.tick).Works?, e.files(w.tick + 1).Works?, e.files(w.tick + 4).Works?);
            && (Look(d, main) == Look(w.disk, main) <==>
                main !in w.disk || (mainRead && (w.disk[main] != "" || h.main == "")))
            && (Look(d, waf) == Look(w.disk, waf) <==>
                || waf !in w.disk || (wafRead && w.disk[waf] != "")
                || if h.wafEnabled then wafRead && h.waf == "" else !wafDropped)
            && Look(d, cloud) == (if h.cloud.Some? || e.files(w.tick + 2).Works? then h.cloud
                                  else Look(w.disk, cloud))
            && forall p :: p !in {main, waf, cloud} ==> Look(d, p) == Look(w.disk, p)
  {
    hide RunOp, Prepared;
    AfterRefusal(e, w, h);
    forall p | p !in {Main(h.name), Waf(h.id), Cloud(h.id)}
      ensures Look(RunOp(e, w, Generate(h), false).w.disk, p) == Look(w.disk, p)
    {
      OperationStaysWithin(e, w, Generate(h), false, p);
    }
  }

  function RestoredMain(known: Option<string>, h: Host): Option<string> {
    if known == Some("") then Some(h.main) else known
  }

  /** `left` is the file as the update left it. */
  function RestoredWaf(known: Option<string>, h: Host, left: Option<string>): Option<string> {
    if known !in {None, Some("")} then known
    else if known.None? && h.wafEnabled then None else left
  }

  /** The firewall file as the update leaves it: written, removed, or its removal failed. */
  function WafLeft(e: Env, d: Disk, h: Host, tick: nat): Option<string> {
    if !e.files(tick + 2).Works? then Look(d, Waf(h.id)) else if h.wafEnabled then Some(h.waf) else None
  }

  lemma GenerateUndone(e: Env, w: World, h: Host)
    requires h.cloud.Some? ==> e.files(w.tick + 2).Works?
    ensures var (main, waf, cloud) := (Main(h.name), Waf(h.id), Cloud(h.id));
            var r := UndoneAll(Written(e, w.disk, h, w.tick + 2), HostBackups(e, w, h), GenerateUndo(h));
            && Look(r, main) == RestoredMain(Known(e, w.disk, main, w.tick), h)
            && Look(r, waf) == RestoredWaf(Known(e, w.disk, waf, w.tick + 1), h, WafLeft(e, w.disk, h, w.tick + 2))
            && Look(r, cloud) == (if h.cloud.Some? || e.files(w.tick + 2).Works? then h.cloud else Look(w.disk, cloud))
  {
    hide Written, UndoneAll, RestoredMain, RestoredWaf, WafLeft, Known;
    var (main, waf) := (Main(h.name), Waf(h.id));
    var (saved, u, d0) := (HostBackups(e, w, h), GenerateUndo(h), Written(e, w.disk, h, w.tick + 2));
    assert u == [PutBack(main), Unmake(main)] + WafPart(h);
    UndoneConcat(d0, saved, [PutBack(main), Unmake(main)], WafPart(h));
    WrittenFiles(e, w.disk, h, w.tick + 2);
    var (known, wafKnown) := (Known(e, w.disk, main, w.tick), Known(e, w.disk, waf, w.tick + 1));
    assert Look(saved, main) == known && Look(saved, waf) == wafKnown;
    MainUndone(d0, saved, h, known);
    var d1 := UndoneAll(d0, saved, [PutBack(main), Unmake(main)]);
    WafUndone(d1, saved, h, wafKnown);
  }

  function WafPart(h: Host): seq<Undo> {
    [PutBack(Waf(h.id))] + if h.wafEnabled then [Unmake(Waf(h.id))] else []
  }

  lemma WrittenFiles(e: Env, d: Disk, h: Host, tick: nat)
    ensures var w := Written(e, d, h, tick);
            && Look(w, Main(h.name)) == Some(h.main)
            && Look(w, Waf(h.id)) == WafLeft(e, d, h, tick)
            && Look(w, Cloud(h.id)) == (if e.files(tick).Works? then h.cloud else Look(d, Cloud(h.id)))
  {
  }

  lemma MainUndone(d: Disk, saved: Saved, h: Host, known: Option<string>)
    requires Look(saved, Main(h.name)) == known && Look(d, Main(h.name)) == Some(h.main)
    ensures var r := UndoneAll(d, saved, [PutBack(Main(h.name)), Unmake(Main(h.name))]);
            && Look(r, Main(h.name)) == RestoredMain(known, h)
            && forall p :: p != Main(h.name) ==> Look(r, p) == Look(d, p)
  {
    UndoneTwo(d, saved, PutBack(Main(h.name)), Unmake(Main(h.name)));
  }

  lemma WafUndone(d: Disk, saved: Saved, h: Host, known: Option<string>)
    requires Look(saved, Waf(h.id)) == known
    ensures var r := UndoneAll(d, saved, WafPart(h));
            && Look(r, Waf(h.id)) == RestoredWaf(known, h, Look(d, Waf(h.id)))
            && forall p :: p != Waf(h.id) ==> Look(r, p) == Look(d, p)
  {
    UndoneTwo(d, saved, PutBack(Waf(h.id)), Unmake(Waf(h.id)));
    assert WafPart(h) == if h.wafEnabled then [PutBack(Waf(h.id)), Unmake(Waf(h.id))] else [PutBack(Waf(h.id))];
  }

  /** With backups that count and a cloud include that already matched, a refused update changes nothing at all. */
  lemma RefusedUpdateChangesNothing(e: Env, w: World, h: Host)
    requires Refused(e, w, Generate(h)) && RollbackWorks(e, w, Generate(h))
    requires e.files(w.tick).Works? && e.files(w.tick + 1).Works?
    requires Look(w.disk, Main(h.name)) != Some("") && Look(w.disk, Waf(h.id)) != Some("")
    requires Look(w.disk, Cloud(h.id)) == h.cloud
    ensures RunOp(e, w, Generate(h), false).w.disk == w.disk
  {
    GenerateRollsBack(e, w, h);
    SameLook(RunOp(e, w, Generate(h), false).w.disk, w.disk);
  }

  // ---- a host whose file name changes ----

  /** The preparation: with the host's files written, the old one is removed, or a failed removal is logged. */
  lemma RenamePrepares(e: Env, w: World, h: Host, oldName: string)
    requires Renames(h, oldName)
    ensures var (m, w1) := (Prepared(e, w, Rename(h, oldName)), w.(tick := w.tick + 1));
            m.task.Forward? <==> HostFilesLand(e, w1, h)
    ensures var (m, oldFile) := (Prepared(e, w, Rename(h, oldName)), Main(oldName));
            m.task.Forward? ==>
              && m.task == Forward([], SavedOne(oldFile, Known(e, w.disk, oldFile, w.tick)))
              && m.w.disk == Changed(Written(e, w.disk, h, w.tick + 1), Remove(oldFile), e.files(w.tick + 4))
              && m.w.tick == w.tick + 5
              && m.w.log == w.log + [Touched(Cloud(h.id)), Touched(Main(h.name)), Touched(Waf(h.id)), Touched(oldFile)]
  {
    hide Sweep, Plan, HostFiles, HostWorld, Written;
    var (op, rest) := (Rename(h, oldName), [Drop(Main(oldName))]);
    var saved := SavedOne(Main(oldName), Known(e, w.disk, Main(oldName), w.tick));
    assert Preparation(op) == [Save(Main(oldName))] + (HostFiles(h) + rest);
    SaveSweep(e, w, Main(oldName), HostFiles(h) + rest, map[]);
    assert map[] + saved == saved;
    var w1 := w.(tick := w.tick + 1);
    HostFilesSweep(e, w1, h, rest, saved);
    if HostFilesLand(e, w1, h) {
      HostWorldFacts(e, w1, h);
      var v := HostWorld(e, w1, h);
      assert rest == rest + [];
      DropSweep(e, v, Main(oldName), [], saved);
      SweepNothing(e, saved);
      assert Prepared(e, w, op).w.log == v.log + [Touched(Main(oldName))];
    }
  }

  predicate OnlyOneOf(d: Disk, present: Path, absent: Path) {
    present in d && absent !in d
  }

  /**
   A change of name that gets as far as the test is tested once, with the new file in place, and with
   the old one beside it exactly if that was there and could not be removed.
   */
  lemma RenameTested(e: Env, w: World, h: Host, oldName: string)
    requires oldName != "" && oldName != h.name && Prepared(e, w, Rename(h, oldName)).task.Forward?
    ensures var (r, ready) := (RunOp(e, w, Rename(h, oldName), false), Prepared(e, w, Rename(h, oldName)).w.disk);
            && Tests(r.w.log) == Tests(w.log) + [ready]
            && Look(ready, Main(h.name)) == Some(h.main)
            && (Main(oldName) in ready <==> Main(oldName) in w.disk && !e.files(w.tick + 4).Works?)
  {
    hide RunOp, Prepared, Tests;
    RenamePrepares(e, w, h, oldName);
    RenameWritten(e, w, h, oldName);
    TestedOnce(e, w, Rename(h, oldName));
    FilesDoNotTest(w.log, Cloud(h.id), Main(h.name), Waf(h.id), Main(oldName));
  }

  /** Whether a backup is one the rollback of a change of name goes by. */
  predicate Counts(known: Option<string>) {
    known !in {None, Some("")}
  }

  /**
   What a change of name that gets as far as the test leaves of the two files: refused with a backup that
   counts, the old file with its old text and not the new one; otherwise the new file, and the old one
   as well if it could not be removed.
   */
  lemma RenameLeaves(e: Env, w: World, h: Host, oldName: string)
    requires oldName != "" && oldName != h.name && Prepared(e, w, Rename(h, oldName)).task.Forward?
    requires !RunOp(e, w, Rename(h, oldName), false).ok ==> RollbackWorks(e, w, Rename(h, oldName))
    ensures var r := RunOp(e, w, Rename(h, oldName), false);
            var back := !r.ok && Counts(Known(e, w.disk, Main(oldName), w.tick));
            && Look(r.w.disk, Main(h.name)) == (if back then None else Some(h.main))
            && Look(r.w.disk, Main(oldName)) == (if !back && e.files(w.tick + 4).Works? then None
                                                 else Look(w.disk, Main(oldName)))
            && Look(r.w.disk, Waf(h.id)) == WafLeft(e, w.disk, h, w.tick + 1)
  {
    hide RunOp, Prepared, RollbackWorks, WafLeft;
    RenameWritten(e, w, h, oldName);
    if RunOp(e, w, Rename(h, oldName), false).ok {
      SuccessIsRunning(e, w, Rename(h, oldName));
    } else {
      RenameUndone(e, w, h, oldName);
    }
  }

  /**
   With file operations that work, nginx is never tested with the old file and the new one side by
   side, and exactly one of them is left: the new file if the test and the reload went well, otherwise
   the old one with its old text, if it had one. Without a backup that counts, the refused new file
   stays. The firewall file is not put back.
   */
  lemma RenameKeepsOne(e: Env, w: World, h: Host, oldName: string)
    requires oldName != "" && oldName != h.name
    requires FilesWork(e, w.tick, w.tick + 9)
    ensures var r := RunOp(e, w, Rename(h, oldName), false);
            var (oldFile, newFile) := (Main(oldName), Main(h.name));
            && (exists d :: Tests(r.w.log) == Tests(w.log) + [d] && OnlyOneOf(d, newFile, oldFile))
            && (if r.ok || Look(w.disk, oldFile) in {None, Some("")}
                then OnlyOneOf(r.w.disk, newFile, oldFile) && r.w.disk[newFile] == h.main
                else OnlyOneOf(r.w.disk, oldFile, newFile) && r.w.disk[oldFile] == w.disk[oldFile])
            && Look(r.w.disk, Waf(h.id)) == if h.wafEnabled then Some(h.waf) else None
  {
    hide RunOp, Prepared, Tests;
    var op := Rename(h, oldName);
    assert e.files(w.tick).Works? && e.files(w.tick + 1).Works? && e.files(w.tick + 2).Works?;
    assert e.files(w.tick + 3).Works? && e.files(w.tick + 4).Works?;
    RenamePrepares(e, w, h, oldName);
    RenamePlanned(h, oldName, Look(w.disk, Main(oldName)));
    if !RunOp(e, w, op, false).ok {
      RefusedEnds(e, w, op, 4);
    }
    RenameTested(e, w, h, oldName);
    RenameLeaves(e, w, h, oldName);
    assert OnlyOneOf(Prepared(e, w, op).w.disk, Main(h.name), Main(oldName));
  }

  lemma RenameWritten(e: Env, w: World, h: Host, oldName: string)
    requires Renames(h, oldName) && Prepared(e, w, Rename(h, oldName)).task.Forward?
    ensures var d := Prepared(e, w, Rename(h, oldName)).w.disk;
            && Look(d, Main(h.name)) == Some(h.main)
            && Look(d, Main(oldName)) == (if e.files(w.tick + 4).Works? then None else Look(w.disk, Main(oldName)))
            && Look(d, Waf(h.id)) == WafLeft(e, w.disk, h, w.tick + 1)
  {
    RenamePrepares(e, w, h, oldName);
  }

  function RenamePlan(h: Host, oldName: string, known: Option<string>): seq<FileOp> {
    if Counts(known) then [Write(Main(oldName), known.value), Remove(Main(h.name))] else []
  }

  lemma RenamePlanned(h: Host, oldName: string, known: Option<string>)
    ensures Plan(SavedOne(Main(oldName), known), RenameUndo(h, oldName)) == RenamePlan(h, oldName, known)
  {
    var (saved, u) := (SavedOne(Main(oldName), known), RenameUndo(h, oldName));
    PlanOne(saved, u);
    PlanOne(saved, u[1..]);
    assert u[1..] == [Displace(Main(h.name), Main(oldName))];
  }

  lemma RenameUndone(e: Env, w: World, h: Host, oldName: string)
    requires Renames(h, oldName)
    requires Refused(e, w, Rename(h, oldName)) && RollbackWorks(e, w, Rename(h, oldName))
    ensures var d := RunOp(e, w, Rename(h, oldName), false).w.disk;
            var (ready, known) := (Prepared(e, w, Rename(h, oldName)).w.disk, Known(e, w.disk, Main(oldName), w.tick));
            d == if Counts(known) then ready[Main(oldName) := known.value] - {Main(h.name)} else ready
  {
    hide Applied, Prepared, RunOp, Plan, Known;
    var (op, known) := (Rename(h, oldName), Known(e, w.disk, Main(oldName), w.tick));
    RenamePrepares(e, w, h, oldName);
    RenamePlanned(h, oldName, known);
    RefusedRollsBack(e, w, op);
    var d := Prepared(e, w, op).w.disk;
    if Counts(known) {
      AppliedTwo(d, Write(Main(oldName), known.value), Remove(Main(h.name)));
    } else {
      AppliedNothing(d);
    }
  }

  // ---- the other operations ----

  /** A refused firewall update restores the disk, unless the file was there and was empty or unreadable. */
  lemma WafRollsBack(e: Env, w: World, h: Host)
    requires Refused(e, w, UpdateWaf(h)) && RollbackWorks(e, w, UpdateWaf(h))
    ensures RunOp(e, w, UpdateWaf(h), false).w.disk == w.disk <==>
            Waf(h.id) !in w.disk || (e.files(w.tick).Works? && (w.disk[Waf(h.id)] != "" || h.waf == ""))
  {
    hide RunOp, Sweep, Plan, Applied;
    var (op, put) := (UpdateWaf(h), [Put(Waf(h.id), h.waf, [])]);
    var saved := SavedOne(Waf(h.id), Known(e, w.disk, Waf(h.id), w.tick));
    assert Preparation(op) == [Save(Waf(h.id))] + put && put == put + [];
    SaveSweep(e, w, Waf(h.id), put, map[]);
    assert map[] + saved == saved;
    PutSweep(e, w.(tick := w.tick + 1), Waf(h.id), h.waf, [], [], saved);
    SweepNothing(e, saved);
    RefusedRollsBack(e, w, op);
    WafFileUndone(w.disk, h, Known(e, w.disk, Waf(h.id), w.tick));
  }

  lemma WafFileUndone(d: Disk, h: Host, known: Option<string>)
    requires known == None || known == Look(d, Waf(h.id))
    ensures var waf := Waf(h.id);
            Applied(d[waf := h.waf], Plan(SavedOne(waf, known), WafUndo(h))) == d <==>
            waf !in d || (known.Some? && (d[waf] != "" || h.waf == ""))
  {
    var (waf, saved, d0) := (Waf(h.id), SavedOne(Waf(h.id), known), d[Waf(h.id) := h.waf]);
    PlanUndoes(d0, saved, WafUndo(h));
    UndoneTwo(d0, saved, PutBack(waf), Unmake(waf));
    var r := UndoneAll(d0, saved, WafUndo(h));
    assert Look(r, waf) == if known == Some("") then Some(h.waf) else known;
    assert forall p :: p != waf ==> Look(r, p) == Look(d, p);
    if Look(r, waf) == Look(d, waf) {
      SameLook(r, d);
    }
  }

  function FiltersWritten(d: Disk, ips: string, uas: string): Disk {
    d[FilterIps := ips][FilterUas := uas]
  }

  function FilterBackups(e: Env, w: World): Saved {
    SavedTwo(FilterIps, Known(e, w.disk, FilterIps, w.tick), FilterUas, Known(e, w.disk, FilterUas, w.tick + 1))
  }

  lemma FiltersPrepare(e: Env, w: World, ips: string, uas: string)
    ensures var (m, saved) := (Prepared(e, w, UpdateFilters(ips, uas)), FilterBackups(e, w));
            if !e.files(w.tick + 2).Works? then m.task == Backward([]) && m.w.disk == w.disk
            else if e.files(w.tick + 3).Works?
            then m.task == Forward([], saved) && m.w.disk == FiltersWritten(w.disk, ips, uas)
            else m.task == GiveUp(saved, [Revert(FilterIps)]) && m.w.disk == w.disk[FilterIps := ips]
                 && m.w.tick == w.tick + 4
  {
    hide Sweep, Plan, Known;
    var (first, second) := ([Put(FilterIps, ips, [])], [Put(FilterUas, uas, [Revert(FilterIps)])]);
    var (w2, saved) := (w.(tick := w.tick + 2), FilterBackups(e, w));
    assert Preparation(UpdateFilters(ips, uas)) == [Save(FilterIps)] + ([Save(FilterUas)] + (first + second));
    PlanNothing(saved);
    SaveTwoSweep(e, w, FilterIps, FilterUas, first + second);
    PutSweep(e, w2, FilterIps, ips, [], second, saved);
    assert second == second + [];
    PutSweep(e, Perform(e, w2, Write(FilterIps, ips)), FilterUas, uas, [Revert(FilterIps)], [], saved);
    SweepNothing(e, saved);
  }

  /**
   A refused filter update puts back every file that was there and could be read, empty ones too, and
   never removes one.
   */
  lemma FiltersRollBack(e: Env, w: World, ips: string, uas: string)
    requires Refused(e, w, UpdateFilters(ips, uas)) && RollbackWorks(e, w, UpdateFilters(ips, uas))
    ensures var d := RunOp(e, w, UpdateFilters(ips, uas), false).w.disk;
            && d == FiltersWritten(w.disk, ips, uas) + FilterBackups(e, w)
            && Look(d, FilterIps) == (if FilterIps in w.disk && e.files(w.tick).Works? then Look(w.disk, FilterIps)
                                      else Some(ips))
            && Look(d, FilterUas) == (if FilterUas in w.disk && e.files(w.tick + 1).Works? then Look(w.disk, FilterUas)
                                      else Some(uas))
            && forall p :: p !in {FilterIps, FilterUas} ==> Look(d, p) == Look(w.disk, p)
  {
    hide Prepared, RunOp, Applied, Plan;
    FiltersPrepare(e, w, ips, uas);
    RefusedRollsBack(e, w, UpdateFilters(ips, uas));
    FiltersUndone(e, w, ips, uas);
  }

  lemma FiltersUndone(e: Env, w: World, ips: string, uas: string)
    ensures Applied(FiltersWritten(w.disk, ips, uas), Plan(FilterBackups(e, w), FILTER_UNDO))
            == FiltersWritten(w.disk, ips, uas) + FilterBackups(e, w)
  {
    hide Known, Applied, Plan, Look, Undone, SavedTwo, UndoneAll;
    var (saved, d) := (FilterBackups(e, w), FiltersWritten(w.disk, ips, uas));
    PlanUndoes(d, saved, FILTER_UNDO);
    UndoneTwo(d, saved, Revert(FilterIps), Revert(FilterUas));
    BothReverted(d, Known(e, w.disk, FilterIps, w.tick), Known(e, w.disk, FilterUas, w.tick + 1));
  }

  lemma BothReverted(d: Disk, ips: Option<string>, uas: Option<string>)
    requires FilterIps in d && FilterUas in d
    ensures var saved := SavedTwo(FilterIps, ips, FilterUas, uas);
            Undone(Undone(d, saved, Revert(FilterIps)), saved, Revert(FilterUas)) == d + saved
  {
    var saved := SavedTwo(FilterIps, ips, FilterUas, uas);
    SameLook(Undone(Undone(d, saved, Revert(FilterIps)), saved, Revert(FilterUas)), d + saved);
  }

  /** The disk left by a filter update that fails before its test: the first file is put back as far as that works. */
  function HaltedFilters(e: Env, w: World, ips: string): Disk {
    var known := Known(e, w.disk, FilterIps, w.tick);
    if !e.files(w.tick + 2).Works? then w.disk
    else if known.None? then w.disk[FilterIps := ips]
    else Changed(w.disk[FilterIps := ips], Overwrite(FilterIps, known.value), e.files(w.tick + 4))
  }

  /** It changes nothing nginx runs, and leaves the second file alone. */
  lemma FiltersHalt(e: Env, w: World, ips: string, uas: string, skipTest: bool)
    requires Prepared(e, w, UpdateFilters(ips, uas)).task.Backward?
    ensures var r := RunOp(e, w, UpdateFilters(ips, uas), skipTest);
            !r.ok && r.w.running == w.running && r.w.disk == HaltedFilters(e, w, ips)
  {
    hide Prepared, Plan, Known;
    var (op, known) := (UpdateFilters(ips, uas), Known(e, w.disk, FilterIps, w.tick));
    FiltersPrepare(e, w, ips, uas);
    RunOpEnds(e, w, op, skipTest);
    PreparedKeepsRunning(e, w, op);
    var m := Prepared(e, w, op);
    if e.files(w.tick + 2).Works? {
      RevertPlanned(FilterBackups(e, w), known);
      assert m.task.plan != [] ==> m.task.plan[1..] == [];
    }
  }

  lemma RevertPlanned(saved: Saved, known: Option<string>)
    requires Look(saved, FilterIps) == known
    ensures Plan(saved, [Revert(FilterIps)]) == if known.Some? then [Overwrite(FilterIps, known.value)] else []
  {
    assert [Revert(FilterIps)][1..] == [];
  }

  /** If only the second of the two filter files cannot be written, the first is put back as well. */
  lemma FilterWriteFails(e: Env, w: World, ips: string, uas: string)
    requires e.files(w.tick + 2).Works? && !e.files(w.tick + 3).Works? && e.files(w.tick + 4).Works?
    ensures var r := RunOp(e, w, UpdateFilters(ips, uas), false);
            && !r.ok && r.w.running == w.running
            && r.w.disk == w.disk[FilterIps := ips] + SavedOne(FilterIps, Known(e, w.disk, FilterIps, w.tick))
  {
    hide Prepared, RunOp, Known, Plan;
    FiltersPrepare(e, w, ips, uas);
    FiltersHalt(e, w, ips, uas, false);
  }

  /** A filter update leaves nginx alone: what runs changes with the next reload. */
  lemma FiltersNeverReload(e: Env, w: World, ips: string, uas: string, skipTest: bool)
    ensures RunOp(e, w, UpdateFilters(ips, uas), skipTest).w.running == w.running
  {
    var op := UpdateFilters(ips, uas);
    RunOpEnds(e, w, op, skipTest);
    PreparedKeepsRunning(e, w, op);
    var m := Prepared(e, w, op);
    if m.task.Backward? {
      BackwardEnds(e, m.w, m.task.plan);
    } else {
      BackwardEnds(e, RunTest(e, m.w), Plan(m.task.saved, Rollback(op)));
    }
  }

  /** Banned addresses are never rolled back: the file stays as written whatever the test says. */
  lemma BannedIsFinal(e: Env, w: World, ips: string, skipTest: bool)
    ensures RunOp(e, w, UpdateBanned(ips), skipTest).w.disk ==
            if e.files(w.tick).Works? then w.disk[Banned := ips] else w.disk
  {
    var op := UpdateBanned(ips);
    assert Preparation(op) == [Put(Banned, ips, [])] + [];
    PutSweep(e, w, Banned, ips, [], [], map[]);
    NoRollback(e, w, op, skipTest);
  }

  /** What a removal leaves: nothing is touched if the main file cannot be removed, and the other two go if they can. */
  function Removed(e: Env, w: World, h: Host): Disk {
    if Main(h.name) in w.disk && !e.files(w.tick).Works? then w.disk
    else
      var d1 := Changed(w.disk, Remove(Main(h.name)), e.files(w.tick));
      Changed(Changed(d1, Remove(Waf(h.id)), e.files(w.tick + 1)), Remove(Cloud(h.id)), e.files(w.tick + 2))
  }

  /** Whether or not nginx then accepts the rest, a removal is not undone. */
  lemma RemovalLeaves(e: Env, w: World, h: Host, skipTest: bool)
    ensures RunOp(e, w, RemoveHost(h), skipTest).w.disk == Removed(e, w, h)
  {
    hide Sweep;
    var (op, rest) := (RemoveHost(h), [Drop(Waf(h.id))] + ([Drop(Cloud(h.id))] + []));
    var script := [Delete(Main(h.name))] + rest;
    assert Preparation(op) == script && script[1..] == rest;
    SweepOne(e, w, script, map[]);
    var w1 := Perform(e, w, Remove(Main(h.name)));
    DropSweep(e, w1, Waf(h.id), [Drop(Cloud(h.id))] + [], map[]);
    DropSweep(e, Perform(e, w1, Remove(Waf(h.id))), Cloud(h.id), [], map[]);
    SweepNothing(e, map[]);
    NoRollback(e, w, op, skipTest);
  }

  /** With file operations that work, the host's three files are gone. */
  lemma RemovalIsFinal(e: Env, w: World, h: Host, skipTest: bool)
    requires FilesWork(e, w.tick, w.tick + 3)
    ensures RunOp(e, w, RemoveHost(h), skipTest).w.disk == w.disk - {Main(h.name), Waf(h.id), Cloud(h.id)}
  {
    assert e.files(w.tick).Works? && e.files(w.tick + 1).Works? && e.files(w.tick + 2).Works?;
    RemovalLeaves(e, w, h, skipTest);
    assert w.disk - {Main(h.name)} - {Waf(h.id)} - {Cloud(h.id)} == w.disk - {Main(h.name), Waf(h.id), Cloud(h.id)};
  }

  // ---- updates that fail before the test ----

  /**
   The disk left by the host's writes when they stop early: untouched if the cloud include could not be
   written, with the cloud step done if the main file could not, and with both if the firewall file could not.
   */
  function Halted(e: Env, d: Disk, h: Host, tick: nat): Disk {
    if h.cloud.Some? && !e.files(tick).Works? then d
    else
      var d1 := Changed(d, GenerateOps(h)[0], e.files(tick));
      if e.files(tick + 1).Works? then Changed(d1, GenerateOps(h)[1], Works) else d1
  }

  lemma HostFilesHalt(e: Env, w: World, h: Host, rest: Script, saved: Saved)
    requires !HostFilesLand(e, w, h)
    ensures var m := Sweep(e, w, HostFiles(h) + rest, saved);
            && m.task == Backward([]) && m.w.running == w.running
            && m.w.disk == Halted(e, w.disk, h, w.tick) && Tests(m.w.log) == Tests(w.log)
  {
    hide Sweep, Tests, HostFiles;
    var (main, waf) := ([Put(Main(h.name), h.main, [])], [WafStep(h)]);
    HostFilesParts(h, rest);
    var w1 := Perform(e, w, GenerateOps(h)[0]);
    var w2 := Perform(e, w1, GenerateOps(h)[1]);
    if h.cloud.Some? {
      PutSweep(e, w, Cloud(h.id), h.cloud.value, [], main + (waf + rest), saved);
    } else {
      DropSweep(e, w, Cloud(h.id), main + (waf + rest), saved);
    }
    PutSweep(e, w1, Main(h.name), h.main, [], waf + rest, saved);
    PutSweep(e, w2, Waf(h.id), h.waf, [], rest, saved);
    TouchedTests(w.log, Cloud(h.id));
    TouchedTests(w1.log, Main(h.name));
    TouchedTests(w2.log, Waf(h.id));
  }

  predicate UpdatesHost(op: Op, h: Host) {
    op == Generate(h) || (op.Rename? && op.host == h)
  }

  /** How many backups come before the host's files. */
  function BackupSteps(op: Op): nat
    requires op.Generate? || op.Rename?
  {
    if op.Generate? then 2 else if Renames(op.host, op.oldName) then 1 else 0
  }

  lemma PreparationStops(e: Env, w: World, op: Op, h: Host)
    requires UpdatesHost(op, h) && Prepared(e, w, op).task.Backward?
    ensures var m := Prepared(e, w, op);
            && m.task == Backward([]) && m.w.running == w.running
            && m.w.disk == Halted(e, w.disk, h, w.tick + BackupSteps(op)) && Tests(m.w.log) == Tests(w.log)
  {
    hide Sweep, Tests, HostFiles, Halted, HostFilesLand, HostWorld;
    var v, saved, rest := StartOfHostFiles(e, w, op, h);
    HostFilesSweep(e, v, h, rest, saved);
    if HostFilesLand(e, v, h) {
      if rest != [] {
        assert rest == rest + [];
        DropSweep(e, HostWorld(e, v, h), Main(op.oldName), [], saved);
      }
      SweepNothing(e, saved);
    }
    HostFilesHalt(e, v, h, rest, saved);
  }

  /** Backups change nothing but the step count. */
  lemma StartOfHostFiles(e: Env, w: World, op: Op, h: Host) returns (v: World, saved: Saved, rest: Script)
    requires UpdatesHost(op, h)
    ensures Prepared(e, w, op) == Sweep(e, v, HostFiles(h) + rest, saved)
    ensures v == w.(tick := w.tick + BackupSteps(op))
    ensures rest == if op.Rename? && Renames(h, op.oldName) then [Drop(Main(op.oldName))] else []
  {
    hide Sweep, HostFiles;
    v, saved, rest := w.(tick := w.tick + BackupSteps(op)), map[], [];
    if op.Generate? {
      assert Preparation(op) == [Save(Main(h.name))] + ([Save(Waf(h.id))] + (HostFiles(h) + rest));
      SaveTwoSweep(e, w, Main(h.name), Waf(h.id), HostFiles(h) + rest);
      saved := HostBackups(e, w, h);
    } else if Renames(h, op.oldName) {
      rest := [Drop(Main(op.oldName))];
      assert Preparation(op) == [Save(Main(op.oldName))] + (HostFiles(h) + rest);
      SaveSweep(e, w, Main(op.oldName), HostFiles(h) + rest, map[]);
      saved := map[] + SavedOne(Main(op.oldName), Known(e, w.disk, Main(op.oldName), w.tick));
    } else {
      assert Preparation(op) == HostFiles(h) + rest;
    }
  }

  /**
   An update that fails before its test is reported as failed, runs no test, changes nothing nginx runs, and
   rolls nothing back. The main file is as before exactly if it was not reached, could not be written, or
   had the new text already; the firewall file always is.
   */
  lemma UpdateHalts(e: Env, w: World, op: Op, h: Host, skipTest: bool)
    requires UpdatesHost(op, h) && Prepared(e, w, op).task.Backward?
    ensures var (r, tick) := (RunOp(e, w, op, skipTest), w.tick + BackupSteps(op));
            var main := Main(h.name);
            && !r.ok && r.w.running == w.running && Tests(r.w.log) == Tests(w.log)
            && r.w.disk == Halted(e, w.disk, h, tick)
            && (Look(r.w.disk, main) == Look(w.disk, main) <==>
                || (h.cloud.Some? && !e.files(tick).Works?)
                || !e.files(tick + 1).Works?
                || Look(w.disk, main) == Some(h.main))
            && Look(r.w.disk, Waf(h.id)) == Look(w.disk, Waf(h.id))
  {
    hide Prepared, Tests;
    PreparationStops(e, w, op, h);
    RunOpEnds(e, w, op, skipTest);
  }

  /** Such an update leaves every file alone exactly if each write before the failing one changed nothing. */
  lemma HaltedChangesNothing(e: Env, d: Disk, h: Host, tick: nat)
    ensures Halted(e, d, h, tick) == d <==>
            || (h.cloud.Some? && !e.files(tick).Works?)
            || (&& (!e.files(tick).Works? || Look(d, Cloud(h.id)) == h.cloud)
                && (!e.files(tick + 1).Works? || Look(d, Main(h.name)) == Some(h.main)))
  {
    var r := Halted(e, d, h, tick);
    var (cloud, main) := (Cloud(h.id), Main(h.name));
    if Look(r, cloud) == Look(d, cloud) && Look(r, main) == Look(d, main) {
      SameLook(r, d);
    }
  }

  /** If the firewall file cannot be written, the new main file stays on the disk, untested and not rolled back. */
  lemma WafWriteFails(e: Env, w: World, h: Host)
    requires e.files(w.tick + 2).Works? && e.files(w.tick + 3).Works?
    requires h.wafEnabled && !e.files(w.tick + 4).Works?
    ensures var r := RunOp(e, w, Generate(h), false);
            && !r.ok && r.w.running == w.running
            && Look(r.w.disk, Main(h.name)) == Some(h.main)
            && Look(r.w.disk, Waf(h.id)) == Look(w.disk, Waf(h.id))
            && Tests(r.w.log) == Tests(w.log)
  {
    hide Prepared, RunOp, Tests, Sweep, HostFiles;
    var v, saved, rest := StartOfHostFiles(e, w, Generate(h), h);
    HostFilesSweep(e, v, h, rest, saved);
    UpdateHalts(e, w, Generate(h), h, false);
  }

  // ---- examples ----

  /** Every file operation works and nginx refuses everything. */
  const REFUSING := Env(_ => Works, _ => Fails, _ => true)

  /** An update refused over an empty main file: the refused text stays. */
  lemma EmptyBackupExample()
    ensures var (h, main) := (Host("1", "a.conf", "new", false, "", None), Main("a.conf"));
            var w := World(map[main := ""], map[], 0, []);
            && Refused(REFUSING, w, Generate(h)) && RollbackWorks(REFUSING, w, Generate(h))
            && Look(RunOp(REFUSING, w, Generate(h), false).w.disk, main) == Some("new")
  {
    var (h, main) := (Host("1", "a.conf", "new", false, "", None), Main("a.conf"));
    var w := World(map[main := ""], map[], 0, []);
    RefusedByNginx(REFUSING, w, h);
    AfterRefusal(REFUSING, w, h);
  }

  lemma RefusedByNginx(e: Env, w: World, h: Host)
    requires e == REFUSING
    ensures Refused(e, w, Generate(h)) && RollbackWorks(e, w, Generate(h))
  {
    hide Sweep, HostFiles, HostWorld;
    var op := Generate(h);
    var v, saved, rest := StartOfHostFiles(e, w, op, h);
    HostFilesSweep(e, v, h, rest, saved);
    assert rest == [];
    SweepNothing(e, saved);
    RunOpEnds(e, w, op, false);
    var m := Prepared(e, w, op);
    BackwardEnds(e, RunTest(e, m.w), Plan(m.task.saved, Rollback(op)));
  }

  /** When only the removal of the old file fails, the test sees both files. */
  lemma OldFileTested(e: Env, w: World, h: Host, oldName: string)
    requires oldName != "" && oldName != h.name && HostFilesLand(e, w.(tick := w.tick + 1), h)
    requires Main(oldName) in w.disk && !e.files(w.tick + 4).Works?
    ensures exists d :: Tests(RunOp(e, w, Rename(h, oldName), false).w.log) == Tests(w.log) + [d]
                        && Main(oldName) in d && Main(h.name) in d
  {
    hide RunOp, Prepared, Tests, Written, Known, Changed, SavedOne, HostFilesLand;
    RenamePrepares(e, w, h, oldName);
    RenameTested(e, w, h, oldName);
  }

  /** Such a test, with both files on the disk. */
  lemma BothFilesExample()
    ensures var e := Env((k: nat) => if k == 4 then Fails else Works, _ => Works, _ => true);
            var h := Host("1", "b.conf", "new", false, "", None);
            var w := World(map[Main("a.conf") := "old"], map[], 0, []);
            exists d :: Tests(RunOp(e, w, Rename(h, "a.conf"), false).w.log) == [d]
                        && Main("a.conf") in d && Main("b.conf") in d
  {
    var e := Env((k: nat) => if k == 4 then Fails else Works, _ => Works, _ => true);
    var (h, w) := (Host("1", "b.conf", "new", false, "", None), World(map[Main("a.conf") := "old"], map[], 0, []));
    NamesDiffer();
    hide RunOp, Tests;
    OldFileTested(e, w, h, "a.conf");
    NoTests();
  }

  lemma NamesDiffer()
    ensures "a.conf" != "b.conf" && "a.conf" != ""
  {
    assert "a.conf"[0] != "b.conf"[0];
  }

  lemma NoTests()
    ensures Tests([]) == []
  {
  }
}
