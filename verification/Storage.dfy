/**
 The files the configuration manager owns, the configuration nginx is running, and the small steps
 that change them. Every step draws one outcome from an environment the model leaves open.
 */
module Storage {
  import opened Options
  import opened Outcomes

  /** `Main` is conf.d/<name>; `Waf` is modsec/host_<id>.conf; `Cloud` is conf.d/includes/cloud_ips_<id>.conf. */
  datatype Path = Main(name: string) | Waf(id: string) | Cloud(id: string) | FilterIps | FilterUas | Banned

  type Disk = map<Path, string>

  /** What an observer outside sees: files touched, tests run, configurations loaded. */
  datatype Item = Touched(p: Path) | Tested(disk: Disk, passed: bool) | Reloaded(disk: Disk)

  datatype World = World(disk: Disk, running: Disk, tick: nat, log: seq<Item>)

  /** Outcomes by step number, and which configurations `nginx -t` accepts. */
  datatype Env = Env(files: nat -> Outcome, nginx: nat -> Outcome, valid: Disk -> bool)

  function Look(d: Disk, p: Path): Option<string> {
    if p in d then Some(d[p]) else None
  }

  /** A change to one file: an atomic write, a removal, or a plain write into the emptied file. */
  datatype FileOp = Write(p: Path, c: string) | Remove(p: Path) | Overwrite(p: Path, c: string)

  function Changed(d: Disk, f: FileOp, o: Outcome): Disk {
    match f
    case Write(p, c) => if o.Works? then d[p := c] else d
    case Remove(p) => if o.Works? then d - {p} else d
    case Overwrite(p, c) => if o.Fails? then d else d[p := Landed(c, o)]
  }

  /** Removing a file that is not there is no failure. */
  predicate Succeeded(d: Disk, f: FileOp, o: Outcome) {
    o.Works? || (f.Remove? && f.p !in d)
  }

  function Perform(e: Env, w: World, f: FileOp): World {
    w.(disk := Changed(w.disk, f, e.files(w.tick)), tick := w.tick + 1, log := w.log + [Touched(f.p)])
  }

  predicate Performs(e: Env, w: World, f: FileOp) {
    Succeeded(w.disk, f, e.files(w.tick))
  }

  /** `nginx -t`: it may also fail for reasons of its own, such as a timeout. */
  predicate Passes(e: Env, w: World) {
    e.nginx(w.tick).Works? && e.valid(w.disk)
  }

  function RunTest(e: Env, w: World): World {
    w.(tick := w.tick + 1, log := w.log + [Tested(w.disk, Passes(e, w))])
  }

  /** `nginx -s reload`: a reload that timed out may still have taken place. */
  function RunReload(e: Env, w: World): World {
    if e.nginx(w.tick).Fails? then w.(tick := w.tick + 1)
    else w.(running := w.disk, tick := w.tick + 1, log := w.log + [Reloaded(w.disk)])
  }

  /** Every file operation drawn from step `from` up to step `to` worked. */
  ghost predicate FilesWork(e: Env, from: nat, to: nat) {
    forall k: nat :: from <= k < to ==> e.files(k).Works?
  }
}
