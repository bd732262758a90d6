/**
 The manager's operations as scripts of single steps. A step that fails either is merely logged or
 ends the operation, after the rollback its place in the script calls for.
 */
module Scripts {
  import opened Options
  import opened Storage

  /** A host as the operations see it: its file name, its rendered texts, and its cloud ranges if it has any. */
  datatype Host = Host(id: string, name: string, main: string, wafEnabled: bool, waf: string, cloud: Option<string>)

  datatype Op =
    | Generate(host: Host)
    | Rename(host: Host, oldName: string)
    | RemoveHost(host: Host)
    | UpdateWaf(host: Host)
    | UpdateFilters(ips: string, uas: string)
    | UpdateBanned(ips: string)
    | TestOnly
    | TestAndReload

  /**
   What a rollback does with the copies saved at the start. `PutBack` writes a copy back unless it is
   empty; `Unmake` removes a file that was not there; `Displace` removes one file where another is put
   back; `Revert` writes a copy back, empty or not, without the detour over a temporary file.
   */
  datatype Undo = PutBack(p: Path) | Unmake(p: Path) | Displace(p: Path, other: Path) | Revert(p: Path)

  datatype Stmt =
    | Save(p: Path)
    | Put(p: Path, c: string, undo: seq<Undo>)
    | Drop(p: Path)
    | Delete(p: Path)
    | Test(undo: seq<Undo>)
    | Reload(undo: seq<Undo>)

  type Script = seq<Stmt>

  type Saved = map<Path, string>

  function UndoOp(saved: Saved, u: Undo): Option<FileOp> {
    match u
    case PutBack(p) => if p in saved && saved[p] != "" then Some(Write(p, saved[p])) else None
    case Unmake(p) => if p !in saved then Some(Remove(p)) else None
    case Displace(p, other) => if other in saved && saved[other] != "" then Some(Remove(p)) else None
    case Revert(p) => if p in saved then Some(Overwrite(p, saved[p])) else None
  }

  function Plan(saved: Saved, undo: seq<Undo>): seq<FileOp> {
    if undo == [] then []
    else
      var first := UndoOp(saved, undo[0]);
      (if first.Some? then [first.value] else []) + Plan(saved, undo[1..])
  }

  /** What is left to do: the rest of the script, or the rest of a rollback. */
  datatype Task = Forward(script: Script, saved: Saved) | Backward(plan: seq<FileOp>)

  predicate Done(t: Task) {
    if t.Forward? then t.script == [] else t.plan == []
  }

  function GiveUp(saved: Saved, undo: seq<Undo>): Task {
    Backward(Plan(saved, undo))
  }

  datatype Moment = Moment(w: World, task: Task)

  /** One step. */
  function Advance(e: Env, m: Moment): Moment
    requires !Done(m.task)
  {
    var w := m.w;
    match m.task
    case Backward(plan) => Moment(Perform(e, w, plan[0]), Backward(plan[1..]))
    case Forward(script, saved) =>
      var next := Forward(script[1..], saved);
      match script[0]
      case Save(p) =>
        var copy := if p in w.disk && e.files(w.tick).Works? then saved[p := w.disk[p]] else saved;
        Moment(w.(tick := w.tick + 1), Forward(script[1..], copy))
      case Put(p, c, undo) =>
        Moment(Perform(e, w, Write(p, c)), if Performs(e, w, Write(p, c)) then next else GiveUp(saved, undo))
      case Drop(p) => Moment(Perform(e, w, Remove(p)), next)
      case Delete(p) =>
        Moment(Perform(e, w, Remove(p)), if Performs(e, w, Remove(p)) then next else GiveUp(saved, []))
      case Test(undo) => Moment(RunTest(e, w), if Passes(e, w) then next else GiveUp(saved, undo))
      case Reload(undo) =>
        Moment(RunReload(e, w), if e.nginx(w.tick).Works? then next else GiveUp(saved, undo))
  }

  function StepsLeft(t: Task): nat {
    if t.Forward? then |t.script| else |t.plan|
  }

  datatype Ending = Ending(w: World, ok: bool)

  /** All the steps that remain. */
  function Complete(e: Env, m: Moment): Ending
    decreases if m.task.Forward? then 1 else 0, StepsLeft(m.task)
  {
    if Done(m.task) then Ending(m.w, m.task.Forward?) else Complete(e, Advance(e, m))
  }

  // ---- the operations ----

  function CloudStep(h: Host): Stmt {
    if h.cloud.Some? then Put(Cloud(h.id), h.cloud.value, []) else Drop(Cloud(h.id))
  }

  function WafStep(h: Host): Stmt {
    if h.wafEnabled then Put(Waf(h.id), h.waf, []) else Drop(Waf(h.id))
  }

  /** The host's own files, as far as the test. */
  function HostFiles(h: Host): Script {
    [CloudStep(h), Put(Main(h.name), h.main, []), WafStep(h)]
  }

  function GenerateUndo(h: Host): seq<Undo> {
    [PutBack(Main(h.name)), Unmake(Main(h.name)), PutBack(Waf(h.id))]
    + if h.wafEnabled then [Unmake(Waf(h.id))] else []
  }

  predicate Renames(h: Host, oldName: string) {
    oldName != "" && oldName != h.name
  }

  function RenameUndo(h: Host, oldName: string): seq<Undo> {
    [PutBack(Main(oldName)), Displace(Main(h.name), Main(oldName))]
  }

  function WafUndo(h: Host): seq<Undo> {
    [PutBack(Waf(h.id)), Unmake(Waf(h.id))]
  }

  const FILTER_UNDO := [Revert(FilterIps), Revert(FilterUas)]

  /** What an operation does before it tests. */
  function Preparation(op: Op): Script {
    match op
    case Generate(h) => [Save(Main(h.name)), Save(Waf(h.id))] + HostFiles(h)
    case Rename(h, oldName) =>
      if Renames(h, oldName) then [Save(Main(oldName))] + HostFiles(h) + [Drop(Main(oldName))] else HostFiles(h)
    case RemoveHost(h) => [Delete(Main(h.name)), Drop(Waf(h.id)), Drop(Cloud(h.id))]
    case UpdateWaf(h) => [Save(Waf(h.id)), Put(Waf(h.id), h.waf, [])]
    case UpdateFilters(ips, uas) =>
      [Save(FilterIps), Save(FilterUas), Put(FilterIps, ips, []), Put(FilterUas, uas, [Revert(FilterIps)])]
    case UpdateBanned(ips) => [Put(Banned, ips, [])]
    case TestOnly => []
    case TestAndReload => []
  }

  /** What it undoes when the test or the reload fails. */
  function Rollback(op: Op): seq<Undo> {
    match op
    case Generate(h) => GenerateUndo(h)
    case Rename(h, oldName) => if Renames(h, oldName) then RenameUndo(h, oldName) else []
    case UpdateWaf(h) => WafUndo(h)
    case UpdateFilters(_, _) => FILTER_UNDO
    case _ => []
  }

  /** Filter updates are tested but left for a later reload. */
  predicate Reloads(op: Op) {
    !op.UpdateFilters? && !op.TestOnly?
  }

  function TestSteps(op: Op, skipTest: bool): Script {
    if skipTest then []
    else [Test(Rollback(op))] + if Reloads(op) then [Reload(Rollback(op))] else []
  }

  function ScriptOf(op: Op, skipTest: bool): Script {
    Preparation(op) + TestSteps(op, skipTest)
  }

  function Start(op: Op, skipTest: bool): Task {
    Forward(ScriptOf(op, skipTest), map[])
  }

  /** An operation run from beginning to end with nobody else about. */
  function RunOp(e: Env, w: World, op: Op, skipTest: bool): Ending {
    Complete(e, Moment(w, Start(op, skipTest)))
  }

  // ---- startup ----

  /** At startup each filter file that is missing is created as a placeholder, by a plain write. */
  function EnsureOne(e: Env, w: World, p: Path, placeholder: string): Ending {
    if p in w.disk then Ending(w, true)
    else Ending(Perform(e, w, Overwrite(p, placeholder)), Performs(e, w, Overwrite(p, placeholder)))
  }

  function EnsureFilterFiles(e: Env, w: World, ips: string, uas: string): Ending {
    var first := EnsureOne(e, w, FilterIps, ips);
    if first.ok then EnsureOne(e, first.w, FilterUas, uas) else first
  }
}
