/**
 The configuration manager as it is written: a global lock, files changed in place, backups kept in
 local variables, and rollbacks spelled out at each point of failure. Every operation is proved to do
 what its script says, from start to end, whatever the environment does.
 */
module Manager {
  import opened Options
  import opened Scripts
  import opened Storage

  lemma UndoOne(e: Env, w: World, saved: Saved, u: Undo, rest: seq<Undo>)
    ensures var f := UndoOp(saved, u);
            Complete(e, Moment(w, Backward(Plan(saved, [u] + rest)))) ==
            Complete(e, Moment(if f.Some? then Perform(e, w, f.value) else w, Backward(Plan(saved, rest))))
  {
    var undo := [u] + rest;
    assert undo[1..] == rest;
    var f := UndoOp(saved, u);
    var plan := Plan(saved, undo);
    assert undo[0] == u;
    assert plan == (if f.Some? then [f.value] else []) + Plan(saved, rest);
    if f.Some? {
      assert plan[1..] == Plan(saved, rest);
    } else {
      assert plan == Plan(saved, rest);
    }
  }

  lemma Step(e: Env, w: World, s: Stmt, rest: Script, saved: Saved)
    ensures Complete(e, Moment(w, Forward([s] + rest, saved))) ==
            Complete(e, Advance(e, Moment(w, Forward([s] + rest, saved))))
    ensures ([s] + rest)[1..] == rest
  {
  }

  lemma NothingLeft(e: Env, w: World, saved: Saved)
    ensures Complete(e, Moment(w, Forward([], saved))) == Ending(w, true)
    ensures Complete(e, Moment(w, Backward(Plan(saved, [])))) == Ending(w, false)
  {
  }

  class Manager {
    const env: Env
    const skipTest: bool
    var disk: Disk
    var running: Disk
    var tick: nat
    var locked: bool
    ghost var log: seq<Item>

    constructor (env: Env, skipTest: bool, disk: Disk, running: Disk)
      ensures this.env == env && this.skipTest == skipTest
      ensures Now() == World(disk, running, 0, []) && !locked
    {
      this.env, this.skipTest := env, skipTest;
      this.disk, this.running, this.tick, this.locked, this.log := disk, running, 0, false, [];
    }

    ghost function Now(): World
      reads this
    {
      World(disk, running, tick, log)
    }

    /** How an operation will end that has this script before it. */
    ghost function Ahead(script: Script, saved: Saved): Ending
      reads this
    {
      Complete(env, Moment(Now(), Forward(script, saved)))
    }

    /** How it will end with only this rollback before it. */
    ghost function Back(undo: seq<Undo>, saved: Saved): Ending
      reads this
    {
      Complete(env, Moment(Now(), Backward(Plan(saved, undo))))
    }

    // ---- single file and process operations ----

    method ReadFile(p: Path) returns (content: Option<string>)
      modifies `tick
      ensures Now() == old(Now()).(tick := old(tick) + 1)
      ensures content == if env.files(old(tick)).Works? then Look(disk, p) else None
    {
      content := if env.files(tick).Works? && p in disk then Some(disk[p]) else None;
      tick := tick + 1;
    }

    method Apply(f: FileOp) returns (ok: bool)
      modifies `disk, `tick, `log
      ensures Now() == Perform(env, old(Now()), f)
      ensures ok == Performs(env, old(Now()), f)
    {
      var o := env.files(tick);
      ok := Succeeded(disk, f, o);
      disk := Changed(disk, f, o);
      tick := tick + 1;
      log := log + [Touched(f.p)];
    }

    method TestConfigInternal() returns (ok: bool)
      modifies `tick, `log
      ensures skipTest ==> ok && Now() == old(Now())
      ensures !skipTest ==> ok == Passes(env, old(Now())) && Now() == RunTest(env, old(Now()))
    {
      if skipTest {
        return true;
      }
      ok := env.nginx(tick).Works? && env.valid(disk);
      tick := tick + 1;
      log := log + [Tested(disk, ok)];
    }

    method ReloadNginxInternal() returns (ok: bool)
      modifies `running, `tick, `log
      ensures skipTest ==> ok && Now() == old(Now())
      ensures !skipTest ==> ok == env.nginx(old(tick)).Works? && Now() == RunReload(env, old(Now()))
    {
      if skipTest {
        return true;
      }
      var o := env.nginx(tick);
      tick := tick + 1;
      if !o.Fails? {
        running := disk;
        log := log + [Reloaded(disk)];
      }
      ok := o.Works?;
    }

    method TestAndReloadNginx(ghost undo: seq<Undo>, ghost saved: Saved) returns (ok: bool)
      modifies `running, `tick, `log
      ensures var steps := if skipTest then [] else [Test(undo), Reload(undo)];
              old(Ahead(steps, saved)) == if ok then Ending(Now(), true) else Back(undo, saved)
    {
      hide Plan;
      if skipTest {
        return true;
      }
      ghost var w := Now();
      assert [Test(undo), Reload(undo)] == [Test(undo)] + ([Reload(undo)] + []);
      Step(env, w, Test(undo), [Reload(undo)] + [], saved);
      ok := TestConfigInternal();
      if !ok {
        return;
      }
      Step(env, Now(), Reload(undo), [], saved);
      ok := ReloadNginxInternal();
      NothingLeft(env, Now(), saved);
    }

    // ---- the files of one host ----

    /** An absent file needs no removal; a removal that fails is only logged. */
    method DropFile(p: Path, ghost rest: Script, ghost saved: Saved)
      modifies `disk, `tick, `log
      ensures Ahead(rest, saved) == old(Ahead([Drop(p)] + rest, saved))
    {
      Step(env, Now(), Drop(p), rest, saved);
      var _ := Apply(Remove(p));
    }

    method PutFile(p: Path, c: string, ghost undo: seq<Undo>, ghost rest: Script, ghost saved: Saved) returns (ok: bool)
      modifies `disk, `tick, `log
      ensures old(Ahead([Put(p, c, undo)] + rest, saved)) == if ok then Ahead(rest, saved) else Back(undo, saved)
    {
      hide Plan;
      Step(env, Now(), Put(p, c, undo), rest, saved);
      ok := Apply(Write(p, c));
    }

    method GenerateConfigFull(h: Host, ghost rest: Script, ghost saved: Saved) returns (ok: bool)
      modifies `disk, `tick, `log
      ensures old(Ahead([CloudStep(h)] + ([Put(Main(h.name), h.main, [])] + rest), saved)) ==
              if ok then Ahead(rest, saved) else Back([], saved)
    {
      ghost var more := [Put(Main(h.name), h.main, [])] + rest;
      if h.cloud.Some? {
        ok := PutFile(Cloud(h.id), h.cloud.value, [], more, saved);
        if !ok {
          return;
        }
      } else {
        DropFile(Cloud(h.id), more, saved);
      }
      ok := PutFile(Main(h.name), h.main, [], rest, saved);
    }

    method HostWAFConfig(h: Host, ghost rest: Script, ghost saved: Saved) returns (ok: bool)
      modifies `disk, `tick, `log
      ensures old(Ahead([WafStep(h)] + rest, saved)) == if ok then Ahead(rest, saved) else Back([], saved)
    {
      if h.wafEnabled {
        ok := PutFile(Waf(h.id), h.waf, [], rest, saved);
      } else {
        DropFile(Waf(h.id), rest, saved);
        ok := true;
      }
    }

    method WriteHostFiles(h: Host, ghost rest: Script, ghost saved: Saved) returns (ok: bool)
      modifies `disk, `tick, `log
      ensures old(Ahead(HostFiles(h) + rest, saved)) == if ok then Ahead(rest, saved) else Ending(Now(), false)
    {
      ghost var more := [WafStep(h)] + rest;
      assert HostFiles(h) + rest == [CloudStep(h)] + ([Put(Main(h.name), h.main, [])] + more);
      ok := GenerateConfigFull(h, more, saved);
      if ok {
        ok := HostWAFConfig(h, rest, saved);
      }
      NothingLeft(env, Now(), saved);
    }

    // ---- backup and rollback ----

    method Backup(p: Path, ghost rest: Script, ghost saved: Saved) returns (content: Option<string>, ghost now: Saved)
      requires p !in saved
      modifies `tick
      ensures now.Keys <= saved.Keys + {p}
      ensures Look(now, p) == content && (forall q :: q != p ==> Look(now, q) == Look(saved, q))
      ensures Ahead(rest, now) == old(Ahead([Save(p)] + rest, saved))
    {
      Step(env, Now(), Save(p), rest, saved);
      now := if p in disk && env.files(tick).Works? then saved[p := disk[p]] else saved;
      content := ReadFile(p);
    }

    /** Write a backup back unless it is empty; if there was none, the file is new and may be removed. */
    method Restore(p: Path, backup: Option<string>, created: bool, ghost rest: seq<Undo>, ghost saved: Saved)
      requires backup == Look(saved, p)
      modifies `disk, `tick, `log
      ensures Back(rest, saved) ==
              old(Back([PutBack(p)] + ((if created then [Unmake(p)] else []) + rest), saved))
    {
      hide Plan, Complete;
      ghost var more := (if created then [Unmake(p)] else []) + rest;
      UndoOne(env, Now(), saved, PutBack(p), more);
      if backup.Some? && backup.value != "" {
        var _ := Apply(Write(p, backup.value));
      }
      if created {
        assert more == [Unmake(p)] + rest;
        UndoOne(env, Now(), saved, Unmake(p), rest);
        if backup.None? {
          var _ := Apply(Remove(p));
        }
      } else {
        assert more == rest;
      }
    }

    method RollbackFile(p: Path, backup: Option<string>, ghost rest: seq<Undo>, ghost saved: Saved)
      requires backup == Look(saved, p)
      modifies `disk, `tick, `log
      ensures Back(rest, saved) == old(Back([Revert(p)] + rest, saved))
    {
      hide Plan, Complete;
      UndoOne(env, Now(), saved, Revert(p), rest);
      if backup.Some? {
        var _ := Apply(Overwrite(p, backup.value));
      }
    }

    // ---- the operations ----

    method GenerateConfigAndReload(h: Host) returns (ok: bool)
      modifies `disk, `running, `tick, `log
      ensures Ending(Now(), ok) == old(RunOp(env, Now(), Generate(h), skipTest))
    {
      hide Complete, Plan, HostFiles;
      var (main, waf) := (Main(h.name), Waf(h.id));
      ghost var undo := GenerateUndo(h);
      ghost var rest := TestSteps(Generate(h), skipTest);
      assert rest == if skipTest then [] else [Test(undo), Reload(undo)];
      assert ScriptOf(Generate(h), skipTest) == [Save(main)] + ([Save(waf)] + (HostFiles(h) + rest));
      ghost var saved: Saved;
      var configBackup, wafBackup;
      configBackup, saved := Backup(main, [Save(waf)] + (HostFiles(h) + rest), map[]);
      wafBackup, saved := Backup(waf, HostFiles(h) + rest, saved);

      ok := WriteHostFiles(h, rest, saved);
      if !ok {
        return;
      }
      ok := TestAndReloadNginx(undo, saved);
      if !ok {
        ghost var wafUndo := [PutBack(waf)] + ((if h.wafEnabled then [Unmake(waf)] else []) + []);
        assert undo == [PutBack(main)] + ([Unmake(main)] + wafUndo);
        Restore(main, configBackup, true, wafUndo, saved);
        Restore(waf, wafBackup, h.wafEnabled, [], saved);
        NothingLeft(env, Now(), saved);
      }
    }

    method GenerateConfigAndReloadWithCleanup(h: Host, oldName: string) returns (ok: bool)
      modifies `disk, `running, `tick, `log
      ensures Ending(Now(), ok) == old(RunOp(env, Now(), Rename(h, oldName), skipTest))
    {
      hide Complete, Plan, HostFiles;
      var renames := oldName != "" && oldName != h.name;
      ghost var undo := Rollback(Rename(h, oldName));
      ghost var test := TestSteps(Rename(h, oldName), skipTest);
      assert test == if skipTest then [] else [Test(undo), Reload(undo)];
      ghost var rest := if renames then [Drop(Main(oldName))] + test else test;
      assert ScriptOf(Rename(h, oldName), skipTest) ==
             if renames then [Save(Main(oldName))] + (HostFiles(h) + rest) else HostFiles(h) + rest;
      ghost var saved: Saved := map[];
      var oldBackup: Option<string> := None;
      if renames {
        oldBackup, saved := Backup(Main(oldName), HostFiles(h) + rest, map[]);
      }

      ok := WriteHostFiles(h, rest, saved);
      if !ok {
        return;
      }
      // The old file goes before the test, so that the two never declare the same zones twice.
      if renames {
        DropFile(Main(oldName), test, saved);
      }
      ok := TestAndReloadNginx(undo, saved);
      if !ok {
        ghost var second := [Displace(Main(h.name), Main(oldName))];
        if renames {
          assert undo == [PutBack(Main(oldName))] + (second + []);
          UndoOne(env, Now(), saved, PutBack(Main(oldName)), second + []);
          assert oldBackup == Look(saved, Main(oldName));
        }
        if oldBackup.Some? && oldBackup.value != "" {
          var _ := Apply(Write(Main(oldName), oldBackup.value));
          UndoOne(env, Now(), saved, second[0], []);
          var _ := Apply(Remove(Main(h.name)));
        } else if renames {
          UndoOne(env, Now(), saved, second[0], []);
        }
        NothingLeft(env, Now(), saved);
      }
    }

    method RemoveConfigAndReload(h: Host) returns (ok: bool)
      modifies `disk, `running, `tick, `log
      ensures Ending(Now(), ok) == old(RunOp(env, Now(), RemoveHost(h), skipTest))
    {
      hide Complete, Plan;
      ghost var test := TestSteps(RemoveHost(h), skipTest);
      ghost var rest := [Drop(Waf(h.id))] + ([Drop(Cloud(h.id))] + test);
      assert ScriptOf(RemoveHost(h), skipTest) == [Delete(Main(h.name))] + rest;
      Step(env, Now(), Delete(Main(h.name)), rest, map[]);
      ok := Apply(Remove(Main(h.name)));
      if !ok {
        NothingLeft(env, Now(), map[]);
        return;
      }
      DropFile(Waf(h.id), [Drop(Cloud(h.id))] + test, map[]);
      DropFile(Cloud(h.id), test, map[]);
      assert test == if skipTest then [] else [Test([]), Reload([])];
      ok := TestAndReloadNginx([], map[]);
      NothingLeft(env, Now(), map[]);
    }

    method GenerateHostWAFConfigAndReload(h: Host) returns (ok: bool)
      modifies `disk, `running, `tick, `log
      ensures Ending(Now(), ok) == old(RunOp(env, Now(), UpdateWaf(h), skipTest))
    {
      hide Complete, Plan;
      var waf := Waf(h.id);
      ghost var undo := WafUndo(h);
      ghost var test := TestSteps(UpdateWaf(h), skipTest);
      assert test == if skipTest then [] else [Test(undo), Reload(undo)];
      assert ScriptOf(UpdateWaf(h), skipTest) == [Save(waf)] + ([Put(waf, h.waf, [])] + test);
      ghost var saved: Saved;
      var backup;
      backup, saved := Backup(waf, [Put(waf, h.waf, [])] + test, map[]);
      ok := PutFile(waf, h.waf, [], test, saved);
      if !ok {
        NothingLeft(env, Now(), saved);
        return;
      }
      ok := TestAndReloadNginx(undo, saved);
      if !ok {
        assert undo == [PutBack(waf)] + ([Unmake(waf)] + []);
        Restore(waf, backup, true, [], saved);
        NothingLeft(env, Now(), saved);
      }
    }

    method GenerateFilterSubscriptionConfigs(ips: string, uas: string) returns (ok: bool)
      modifies `disk, `running, `tick, `log
      ensures Ending(Now(), ok) == old(RunOp(env, Now(), UpdateFilters(ips, uas), skipTest))
    {
      hide Complete, Plan;
      ghost var test := TestSteps(UpdateFilters(ips, uas), skipTest);
      ghost var puts := [Put(FilterIps, ips, [])] + ([Put(FilterUas, uas, [Revert(FilterIps)])] + test);
      assert ScriptOf(UpdateFilters(ips, uas), skipTest) == [Save(FilterIps)] + ([Save(FilterUas)] + puts);
      ghost var saved: Saved;
      var ipsBackup, uasBackup;
      ipsBackup, saved := Backup(FilterIps, [Save(FilterUas)] + puts, map[]);
      uasBackup, saved := Backup(FilterUas, puts, saved);
      ok := PutFile(FilterIps, ips, [], [Put(FilterUas, uas, [Revert(FilterIps)])] + test, saved);
      if !ok {
        NothingLeft(env, Now(), saved);
        return;
      }
      ok := PutFile(FilterUas, uas, [Revert(FilterIps)], test, saved);
      if !ok {
        assert [Revert(FilterIps)] == [Revert(FilterIps)] + [];
        RollbackFile(FilterIps, ipsBackup, [], saved);
        NothingLeft(env, Now(), saved);
        return;
      }
      ghost var w := Now();
      if !skipTest {
        assert test == [Test(FILTER_UNDO)] + [];
        Step(env, w, Test(FILTER_UNDO), [], saved);
      }
      ok := TestConfigInternal();
      if !ok {
        assert FILTER_UNDO == [Revert(FilterIps)] + ([Revert(FilterUas)] + []);
        RollbackFile(FilterIps, ipsBackup, [Revert(FilterUas)] + [], saved);
        RollbackFile(FilterUas, uasBackup, [], saved);
      }
      NothingLeft(env, Now(), saved);
    }

    method WriteBannedIPs(ips: string) returns (ok: bool)
      modifies `disk, `running, `tick, `log
      ensures Ending(Now(), ok) == old(RunOp(env, Now(), UpdateBanned(ips), skipTest))
    {
      hide Complete, Plan;
      ghost var test := TestSteps(UpdateBanned(ips), skipTest);
      assert test == if skipTest then [] else [Test([]), Reload([])];
      assert ScriptOf(UpdateBanned(ips), skipTest) == [Put(Banned, ips, [])] + test;
      ok := PutFile(Banned, ips, [], test, map[]);
      if ok {
        ok := TestAndReloadNginx([], map[]);
      }
      NothingLeft(env, Now(), map[]);
    }

    /** Startup, before there are any clients: a missing filter file is created by a plain write. */
    method EnsureFilterSubscriptionFiles(ips: string, uas: string) returns (ok: bool)
      modifies `disk, `tick, `log
      ensures Ending(Now(), ok) == EnsureFilterFiles(env, old(Now()), ips, uas)
    {
      if FilterIps !in disk {
        ok := Apply(Overwrite(FilterIps, ips));
        if !ok {
          return;
        }
      }
      if FilterUas !in disk {
        ok := Apply(Overwrite(FilterUas, uas));
        if !ok {
          return;
        }
      }
      ok := true;
    }

    /** The body an operation runs under the lock. */
    method Body(op: Op) returns (ok: bool)
      modifies `disk, `running, `tick, `log
      ensures Ending(Now(), ok) == old(RunOp(env, Now(), op, skipTest))
    {
      hide Complete, Plan;
      match op
      case Generate(h) => ok := GenerateConfigAndReload(h);
      case Rename(h, oldName) => ok := GenerateConfigAndReloadWithCleanup(h, oldName);
      case RemoveHost(h) => ok := RemoveConfigAndReload(h);
      case UpdateWaf(h) => ok := GenerateHostWAFConfigAndReload(h);
      case UpdateFilters(ips, uas) => ok := GenerateFilterSubscriptionConfigs(ips, uas);
      case UpdateBanned(ips) => ok := WriteBannedIPs(ips);
      case TestOnly =>
        if !skipTest {
          assert ScriptOf(op, skipTest) == [Test([])] + [];
          Step(env, Now(), Test([]), [], map[]);
        } else {
          assert ScriptOf(op, skipTest) == [];
        }
        ok := TestConfigInternal();
        NothingLeft(env, Now(), map[]);
      case TestAndReload =>
        assert ScriptOf(op, skipTest) == if skipTest then [] else [Test([]), Reload([])];
        ok := TestAndReloadNginx([], map[]);
        NothingLeft(env, Now(), map[]);
    }

    /** Every operation goes through here: look at the context, take the lock, look again, run, unlock. */
    method ExecuteWithLock(op: Op, cancelledBefore: bool, cancelledAfter: bool) returns (ok: bool)
      requires !locked
      modifies this
      ensures !locked
      ensures Ending(Now(), ok) ==
              if cancelledBefore || cancelledAfter then Ending(old(Now()), false)
              else old(RunOp(env, Now(), op, skipTest))
    {
      if cancelledBefore {
        return false;
      }
      locked := true;
      if cancelledAfter {
        locked := false;
        return false;
      }
      ok := Body(op);
      locked := false;
    }
  }
}
