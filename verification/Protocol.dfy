/**
 Many clients, one lock. A run is any list of events: calls, lock acquisitions, cancellations and
 single steps of whoever is working, in any order. An event that is not enabled changes nothing, so
 quantifying over event lists quantifies over all interleavings.
 */
module Protocol {
  import opened Options
  import opened ScriptFacts
  import opened Scripts
  import opened Storage

  type Client = nat

  /** `Entered` is between taking the lock and the second look at the context. */
  datatype Phase = Idle | Waiting(op: Op) | Entered(op: Op) | Working(task: Task)

  datatype State = State(w: World, lock: Option<Client>, phases: map<Client, Phase>, history: seq<Op>)

  datatype Event =
    | Call(c: Client, op: Op, cancelled: bool)
    | Lock(c: Client)
    | Check(c: Client, cancelled: bool)
    | Work(c: Client)
    | Return(c: Client)

  /** What is fixed for a run: the environment, and whether the manager was told to skip nginx. */
  datatype Setup = Setup(env: Env, skipTest: bool)

  function PhaseOf(s: State, c: Client): Phase {
    if c in s.phases then s.phases[c] else Idle
  }

  function Initial(w: World): State {
    State(w, None, map[], [])
  }

  function Next(u: Setup, s: State, v: Event): State {
    var phase := PhaseOf(s, v.c);
    match v
    case Call(c, op, cancelled) =>
      if phase.Idle? && !cancelled then s.(phases := s.phases[c := Waiting(op)]) else s
    case Lock(c) =>
      if phase.Waiting? && s.lock.None?
      then s.(lock := Some(c), phases := s.phases[c := Entered(phase.op)]) else s
    case Check(c, cancelled) =>
      if !phase.Entered? then s
      else if cancelled then s.(lock := None, phases := s.phases[c := Idle])
      else s.(phases := s.phases[c := Working(Start(phase.op, u.skipTest))], history := s.history + [phase.op])
    case Work(c) =>
      if phase.Working? && !Done(phase.task) then
        var m := Advance(u.env, Moment(s.w, phase.task));
        s.(w := m.w, phases := s.phases[c := Working(m.task)])
      else s
    case Return(c) =>
      if phase.Working? && Done(phase.task) then s.(lock := None, phases := s.phases[c := Idle]) else s
  }

  function Run(u: Setup, s: State, events: seq<Event>): State
    decreases |events|
  {
    if events == [] then s else Run(u, Next(u, s, events[0]), events[1..])
  }

  // ---- mutual exclusion ----

  predicate Inside(phase: Phase) {
    phase.Entered? || phase.Working?
  }

  ghost predicate Exclusive(s: State) {
    forall c: Client :: Inside(PhaseOf(s, c)) <==> s.lock == Some(c)
  }

  lemma {:induction false} MutualExclusion(u: Setup, w: World, events: seq<Event>)
    ensures Exclusive(Run(u, Initial(w), events))
  {
    ExclusiveRun(u, Initial(w), events);
  }

  lemma {:induction false} ExclusiveRun(u: Setup, s: State, events: seq<Event>)
    requires Exclusive(s)
    ensures Exclusive(Run(u, s, events))
    decreases |events|
  {
    if events != [] {
      ExclusiveStep(u, s, events[0]);
      ExclusiveRun(u, Next(u, s, events[0]), events[1..]);
    }
  }

  lemma ExclusiveStep(u: Setup, s: State, v: Event)
    requires Exclusive(s)
    ensures Exclusive(Next(u, s, v))
  {
    hide Advance, Start;
    var t := Next(u, s, v);
    assert Inside(PhaseOf(s, v.c)) <==> s.lock == Some(v.c);
    forall c: Client
      ensures Inside(PhaseOf(t, c)) <==> t.lock == Some(c)
    {
      assert Inside(PhaseOf(s, c)) <==> s.lock == Some(c);
      assert c != v.c ==> PhaseOf(t, c) == PhaseOf(s, c);
    }
  }

  // ---- the running configuration ----

  ghost predicate Sound(u: Setup, s: State, first: Disk) {
    && Honest(u.env, s.w, first)
    && forall c: Client :: PhaseOf(s, c).Working? ==> Guarded(Moment(s.w, PhaseOf(s, c).task))
  }

  /**
   In every interleaving, what nginx runs is what was running at first or a snapshot of the disk that
   passed `nginx -t`, and the log shows nothing at all between that test and the reload.
   */
  lemma AlwaysTested(u: Setup, w: World, events: seq<Event>)
    requires w.log == []
    ensures var v := Run(u, Initial(w), events).w;
            && ReloadsAreTested(u.env, v.log)
            && v.running == LastLoaded(v.log, w.running)
            && (v.running == w.running || u.env.valid(v.running))
  {
    SoundRun(u, Initial(w), events, w.running);
    LastLoadedValid(u.env, Run(u, Initial(w), events).w.log, w.running);
  }

  lemma {:induction false} LastLoadedValid(e: Env, log: seq<Item>, first: Disk)
    requires ReloadsAreTested(e, log)
    ensures LastLoaded(log, first) == first || e.valid(LastLoaded(log, first))
  {
    if log != [] {
      if log[|log| - 1].Reloaded? {
        assert log[|log| - 2] == Tested(log[|log| - 1].disk, true);
      } else {
        LastLoadedValid(e, log[..|log| - 1], first);
      }
    }
  }

  lemma {:induction false} SoundRun(u: Setup, s: State, events: seq<Event>, first: Disk)
    requires Exclusive(s) && Sound(u, s, first)
    ensures Sound(u, Run(u, s, events), first)
    decreases |events|
  {
    if events != [] {
      ExclusiveStep(u, s, events[0]);
      SoundStep(u, s, events[0], first);
      SoundRun(u, Next(u, s, events[0]), events[1..], first);
    }
  }

  lemma SoundStep(u: Setup, s: State, v: Event, first: Disk)
    requires Exclusive(s) && Sound(u, s, first)
    ensures Sound(u, Next(u, s, v), first)
  {
    hide Advance, Start, Honest, Guarded;
    var t := Next(u, s, v);
    var phase := PhaseOf(s, v.c);
    assert Inside(phase) <==> s.lock == Some(v.c);
    if phase.Entered? {
      StartGuarded(s.w, phase.op, u.skipTest);
    }
    if v.Work? && phase.Working? && !Done(phase.task) {
      StepStaysHonest(u.env, Moment(s.w, phase.task), first);
    }
    forall c: Client | PhaseOf(t, c).Working?
      ensures Guarded(Moment(t.w, PhaseOf(t, c).task))
    {
      assert Inside(PhaseOf(s, c)) <==> s.lock == Some(c);
      assert c != v.c ==> PhaseOf(t, c) == PhaseOf(s, c);
      assert v.Work? && phase.Working? ==> c == v.c;
    }
  }

  // ---- cancellation ----

  /**
   A context that is over before the lock is asked for, or is found over right after it was taken,
   undoes no one's work and keeps no lock.
   */
  lemma CancelledCallsDoNothing(u: Setup, s: State, c: Client, op: Op)
    requires Exclusive(s) && PhaseOf(s, c).Idle?
    ensures Next(u, s, Call(c, op, true)) == s
    ensures s.lock.None? ==>
              var t := Run(u, s, [Call(c, op, false), Lock(c), Check(c, true)]);
              t.w == s.w && t.lock.None? && t.history == s.history && forall b: Client :: PhaseOf(t, b) == PhaseOf(s, b)
  {
    if s.lock.None? {
      var events := [Call(c, op, false), Lock(c), Check(c, true)];
      var s1 := Next(u, s, events[0]);
      var s2 := Next(u, s1, events[1]);
      assert events[1..] == [Lock(c), Check(c, true)] && events[1..][1..] == [Check(c, true)];
      assert Run(u, s, events) == Run(u, s1, events[1..]) == Run(u, s2, events[1..][1..]);
      assert Run(u, s2, [Check(c, true)]) == Run(u, Next(u, s2, Check(c, true)), []);
    }
  }

  /** From any point of a run: a late cancellation frees the lock and leaves files and nginx alone. */
  lemma LateCancelFreesLock(u: Setup, w: World, events: seq<Event>, c: Client)
    ensures var s := Run(u, Initial(w), events);
            PhaseOf(s, c).Entered? ==>
              var t := Next(u, s, Check(c, true));
              s.lock == Some(c) && t.lock.None? && t.w == s.w && t.history == s.history
  {
    MutualExclusion(u, w, events);
    var s := Run(u, Initial(w), events);
    assert Inside(PhaseOf(s, c)) <==> s.lock == Some(c);
  }

  // ---- progress ----

  function Times(v: Event, n: nat): seq<Event> {
    if n == 0 then [] else [v] + Times(v, n - 1)
  }

  /** Whoever holds the lock gives it back: a bounded number of its own steps completes the operation and unlocks. */
  lemma HolderFinishes(u: Setup, s: State, c: Client)
    requires PhaseOf(s, c).Working?
    ensures exists n: nat ::
      var t := Run(u, s, Times(Work(c), n) + [Return(c)]);
      && t.lock.None? && PhaseOf(t, c).Idle? && t.history == s.history
      && t.w == Complete(u.env, Moment(s.w, PhaseOf(s, c).task)).w
    decreases if PhaseOf(s, c).task.Forward? then 1 else 0, StepsLeft(PhaseOf(s, c).task)
  {
    var task := PhaseOf(s, c).task;
    if Done(task) {
      var events := Times(Work(c), 0) + [Return(c)];
      assert events == [Return(c)];
      assert Run(u, s, events) == Run(u, Next(u, s, Return(c)), []);
    } else {
      var t := Next(u, s, Work(c));
      HolderFinishes(u, t, c);
      var n: nat :|
        var z := Run(u, t, Times(Work(c), n) + [Return(c)]);
        && z.lock.None? && PhaseOf(z, c).Idle? && z.history == t.history
        && z.w == Complete(u.env, Moment(t.w, PhaseOf(t, c).task)).w;
      var events := Times(Work(c), n + 1) + [Return(c)];
      assert events == [Work(c)] + (Times(Work(c), n) + [Return(c)]);
      assert events[1..] == Times(Work(c), n) + [Return(c)];
      assert Run(u, s, events) == Run(u, t, events[1..]);
    }
  }

  // ---- serializability ----

  /** The operations one after another, each alone from its first step to its last. */
  function Replay(u: Setup, w: World, history: seq<Op>): World {
    if history == [] then w
    else RunOp(u.env, Replay(u, w, history[..|history| - 1]), history[|history| - 1], u.skipTest).w
  }

  /** Where the world is heading: what it will be when the one at work is done. */
  function Settled(u: Setup, s: State): World {
    if s.lock.Some? && PhaseOf(s, s.lock.value).Working?
    then Complete(u.env, Moment(s.w, PhaseOf(s, s.lock.value).task)).w
    else s.w
  }

  /**
   Every interleaving amounts to running the operations one at a time in the order in which they
   passed the lock: whenever no one is at work, files, running configuration and log are exactly those
   of the serial run.
   */
  lemma Serializable(u: Setup, w: World, events: seq<Event>)
    ensures var s := Run(u, Initial(w), events);
            && Settled(u, s) == Replay(u, w, s.history)
            && (s.lock.None? ==> s.w == Replay(u, w, s.history))
  {
    SerialRun(u, w, Initial(w), events);
  }

  lemma {:induction false} SerialRun(u: Setup, w: World, s: State, events: seq<Event>)
    requires Exclusive(s) && Settled(u, s) == Replay(u, w, s.history)
    ensures Settled(u, Run(u, s, events)) == Replay(u, w, Run(u, s, events).history)
    decreases |events|
  {
    if events != [] {
      ExclusiveStep(u, s, events[0]);
      SerialStep(u, w, s, events[0]);
      SerialRun(u, w, Next(u, s, events[0]), events[1..]);
    }
  }

  lemma SerialStep(u: Setup, w: World, s: State, v: Event)
    requires Exclusive(s) && Settled(u, s) == Replay(u, w, s.history)
    ensures Settled(u, Next(u, s, v)) == Replay(u, w, Next(u, s, v).history)
  {
    hide Advance, Start, Complete;
    var t := Next(u, s, v);
    var phase := PhaseOf(s, v.c);
    assert Inside(phase) <==> s.lock == Some(v.c);
    if s.lock.Some? && s.lock.value != v.c {
      assert PhaseOf(t, s.lock.value) == PhaseOf(s, s.lock.value);
    }
    if phase.Working? {
      Unfold(u.env, Moment(s.w, phase.task));
    }
    if v.Check? && phase.Entered? && !v.cancelled {
      assert t.history[..|s.history|] == s.history;
    }
  }

  lemma Unfold(e: Env, m: Moment)
    ensures if Done(m.task) then Complete(e, m).w == m.w else Complete(e, m) == Complete(e, Advance(e, m))
  {
  }

  // ---- files that hosts include ----

  const FILTERS := {FilterIps, FilterUas}

  /** A step never takes a filter file away. */
  ghost predicate Keeps(t: Task) {
    match t
    case Forward(script, _) => forall s <- script :: KeepsStmt(s)
    case Backward(plan) => forall f <- plan :: !(f.Remove? && f.p in FILTERS)
  }

  ghost predicate KeepsStmt(s: Stmt) {
    && !((s.Drop? || s.Delete?) && s.p in FILTERS)
    && forall u <- StmtUndo(s) :: KeepsUndo(u)
  }

  predicate KeepsUndo(u: Undo) {
    (u.Unmake? || u.Displace?) ==> u.p !in FILTERS
  }

  lemma StartKeeps(op: Op, skipTest: bool)
    ensures Keeps(Start(op, skipTest))
  {
    hide Preparation, Rollback;
    var script := ScriptOf(op, skipTest);
    RollbackKeeps(op);
    PreparationKeeps(op);
    assert forall s <- TestSteps(op, skipTest) :: KeepsStmt(s);
    assert forall s <- script :: s in Preparation(op) || s in TestSteps(op, skipTest);
  }

  lemma RollbackKeeps(op: Op)
    ensures forall u <- Rollback(op) :: KeepsUndo(u)
  {
  }

  lemma PreparationKeeps(op: Op)
    ensures forall s <- Preparation(op) :: KeepsStmt(s)
  {
    match op
    case Generate(h) => assert forall s <- HostFiles(h) :: KeepsStmt(s);
    case Rename(h, oldName) => assert forall s <- HostFiles(h) :: KeepsStmt(s);
    case _ =>
  }

  lemma {:induction false} PlanKeeps(saved: Saved, undo: seq<Undo>)
    requires forall u <- undo :: KeepsUndo(u)
    ensures Keeps(Backward(Plan(saved, undo)))
  {
    if undo != [] {
      PlanKeeps(saved, undo[1..]);
      assert KeepsUndo(undo[0]);
    }
  }

  lemma StepKeeps(e: Env, m: Moment)
    requires !Done(m.task) && Keeps(m.task)
    ensures Keeps(Advance(e, m).task)
    ensures FILTERS * m.w.disk.Keys <= Advance(e, m).w.disk.Keys
  {
    if m.task.Forward? {
      var s := m.task.script[0];
      assert KeepsStmt(s);
      assert s.Delete? ==> Plan(m.task.saved, []) == [];
      PlanKeeps(m.task.saved, StmtUndo(s));
    }
  }

  ghost predicate FiltersThere(s: State) {
    && FILTERS <= s.w.disk.Keys
    && forall c: Client :: PhaseOf(s, c).Working? ==> Keeps(PhaseOf(s, c).task)
  }

  /** Existing filter files are left as they are. */
  lemma EnsureKeepsExisting(e: Env, w: World, ips: string, uas: string, p: Path)
    requires p in w.disk
    ensures Look(EnsureFilterFiles(e, w, ips, uas).w.disk, p) == Look(w.disk, p)
  {
  }

  /** Once startup has made them, both filter files are there at every instant of every run. */
  lemma FilterFilesPersist(u: Setup, w: World, ips: string, uas: string, events: seq<Event>)
    requires EnsureFilterFiles(u.env, w, ips, uas).ok
    ensures FILTERS <= Run(u, Initial(EnsureFilterFiles(u.env, w, ips, uas).w), events).w.disk.Keys
  {
    FiltersRun(u, Initial(EnsureFilterFiles(u.env, w, ips, uas).w), events);
  }

  lemma {:induction false} FiltersRun(u: Setup, s: State, events: seq<Event>)
    requires FiltersThere(s)
    ensures FiltersThere(Run(u, s, events))
    decreases |events|
  {
    if events != [] {
      FiltersStep(u, s, events[0]);
      FiltersRun(u, Next(u, s, events[0]), events[1..]);
    }
  }

  lemma FiltersStep(u: Setup, s: State, v: Event)
    requires FiltersThere(s)
    ensures FiltersThere(Next(u, s, v))
  {
    hide Advance, Start, Keeps;
    var t := Next(u, s, v);
    var phase := PhaseOf(s, v.c);
    if phase.Entered? {
      StartKeeps(phase.op, u.skipTest);
    }
    if phase.Working? && !Done(phase.task) {
      StepKeeps(u.env, Moment(s.w, phase.task));
    }
    forall c: Client | PhaseOf(t, c).Working?
      ensures Keeps(PhaseOf(t, c).task)
    {
      assert c != v.c ==> PhaseOf(t, c) == PhaseOf(s, c);
    }
  }
}
