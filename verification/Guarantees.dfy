/**
 What the single-client results mean for many clients: every operation of every interleaving starts and
 ends as if it had been alone, so whatever holds of an operation run alone holds of it there.
 */
module Guarantees {
  import opened Options
  import opened Protocol
  import opened Scripts
  import opened Storage
  import opened TransactionSteps
  import opened Transactions

  /** The state of a run after its first `i` events. */
  function At(u: Setup, w: World, events: seq<Event>, i: nat): State
    requires i <= |events|
  {
    Run(u, Initial(w), events[..i])
  }

  lemma {:induction false} RunConcat(u: Setup, s: State, a: seq<Event>, b: seq<Event>)
    ensures Run(u, s, a + b) == Run(u, Run(u, s, a), b)
    decreases |a|
  {
    hide Next;
    if a == [] {
      assert a + b == b;
    } else {
      assert (a + b)[1..] == a[1..] + b;
      RunConcat(u, Next(u, s, a[0]), a[1..], b);
    }
  }

  lemma AtNext(u: Setup, w: World, events: seq<Event>, i: nat)
    requires i < |events|
    ensures At(u, w, events, i + 1) == Next(u, At(u, w, events, i), events[i])
  {
    hide Next;
    assert events[..i + 1] == events[..i] + [events[i]];
    RunConcat(u, Initial(w), events[..i], [events[i]]);
    var s := At(u, w, events, i);
    assert Run(u, s, [events[i]]) == Run(u, Next(u, s, events[i]), []);
  }

  /** No one is at work. */
  predicate Resting(s: State) {
    s.lock.Some? ==> !PhaseOf(s, s.lock.value).Working?
  }

  /** History grows only when someone starts to work, and then no one else is at work. */
  lemma HistoryStep(u: Setup, w: World, events: seq<Event>, i: nat)
    requires i < |events|
    ensures var (s, t) := (At(u, w, events, i), At(u, w, events, i + 1));
            || t.history == s.history
            || (&& (exists op :: t.history == s.history + [op])
                && Resting(s) && t.w == s.w == Replay(u, w, s.history))
  {
    hide Replay, Advance, Start;
    AtNext(u, w, events, i);
    MutualExclusion(u, w, events[..i]);
    Serializable(u, w, events[..i]);
    var (s, v) := (At(u, w, events, i), events[i]);
    assert Inside(PhaseOf(s, v.c)) <==> s.lock == Some(v.c);
  }

  /** The moment operation `k` of a run starts: the world is that of the operations before it. */
  lemma {:induction false} StartOf(u: Setup, w: World, events: seq<Event>, n: nat, k: nat) returns (i: nat)
    requires n <= |events| && k < |At(u, w, events, n).history|
    ensures i < n && |At(u, w, events, i).history| == k && Resting(At(u, w, events, i))
    ensures At(u, w, events, i + 1).history == At(u, w, events, n).history[..k + 1]
    ensures At(u, w, events, i).w == At(u, w, events, i + 1).w == Replay(u, w, At(u, w, events, n).history[..k])
  {
    hide Next, Run, Replay;
    if n == 0 {
      NothingRun(u, w, events);
    } else {
      HistoryStep(u, w, events, n - 1);
      var (s, t) := (At(u, w, events, n - 1), At(u, w, events, n));
      if k < |s.history| {
        i := StartOf(u, w, events, n - 1, k);
        assert s.history[..k + 1] == t.history[..k + 1] && s.history[..k] == t.history[..k];
      } else {
        i := n - 1;
        assert t.history[..k + 1] == t.history && t.history[..k] == s.history;
      }
    }
  }

  lemma NothingRun(u: Setup, w: World, events: seq<Event>)
    ensures At(u, w, events, 0) == Initial(w)
  {
    assert events[..0] == [];
  }

  /** Operation `k` of the run is over: another one has started, or no one holds the lock. */
  predicate Over(s: State, k: nat) {
    k + 1 < |s.history| || (k + 1 == |s.history| && s.lock.None?)
  }

  /** Operation `k` started with event `i`, and `j` events into the run it is over and no one is at work. */
  ghost predicate Spans(u: Setup, w: World, events: seq<Event>, k: nat, i: nat, j: nat) {
    && 0 < i <= j <= |events| && k < |At(u, w, events, |events|).history|
    && |At(u, w, events, i - 1).history| == k && Resting(At(u, w, events, j))
    && var op := At(u, w, events, |events|).history[k];
    && At(u, w, events, i).history == At(u, w, events, j).history == At(u, w, events, |events|).history[..k + 1]
    && At(u, w, events, j).w == RunOp(u.env, At(u, w, events, i).w, op, u.skipTest).w
  }

  /** Every operation of every interleaving that is over went from start to end as if alone. */
  lemma OperationSpan(u: Setup, w: World, events: seq<Event>, k: nat) returns (i: nat, j: nat)
    requires Over(At(u, w, events, |events|), k)
    ensures Spans(u, w, events, k, i, j)
  {
    hide Next, Run, At, Resting, RunOp, Replay;
    var n := |events|;
    var history := At(u, w, events, n).history;
    i := StartOf(u, w, events, n, k);
    i := i + 1;
    if k + 1 < |history| {
      j := StartOf(u, w, events, n, k + 1);
      HistoryOf(u, w, events, j, k);
      StartsInOrder(u, w, events, i, j);
    } else {
      j := n;
      assert history[..k + 1] == history;
      AllOver(u, w, events);
    }
    ReplayOneMore(u, w, history, k);
  }

  lemma AllOver(u: Setup, w: World, events: seq<Event>)
    requires At(u, w, events, |events|).lock.None?
    ensures var s := At(u, w, events, |events|); Resting(s) && s.w == Replay(u, w, s.history)
  {
    hide Replay;
    assert events[..|events|] == events;
    Serializable(u, w, events);
  }

  lemma ReplayOneMore(u: Setup, w: World, history: seq<Op>, k: nat)
    requires k < |history|
    ensures Replay(u, w, history[..k + 1]) == RunOp(u.env, Replay(u, w, history[..k]), history[k], u.skipTest).w
  {
    assert history[..k + 1][..k] == history[..k];
  }

  /** Just before operation `k + 1` starts, the history is that of the operations up to `k`. */
  lemma HistoryOf(u: Setup, w: World, events: seq<Event>, j: nat, k: nat)
    requires j < |events| && |At(u, w, events, j).history| == k + 1
    requires k + 1 < |At(u, w, events, |events|).history|
    requires At(u, w, events, j + 1).history == At(u, w, events, |events|).history[..k + 2]
    ensures At(u, w, events, j).history == At(u, w, events, |events|).history[..k + 1]
  {
    hide Next, Run, Replay;
    HistoryStep(u, w, events, j);
    var history := At(u, w, events, |events|).history;
    assert history[..k + 2][..k + 1] == history[..k + 1];
  }

  lemma {:induction false} HistoryGrows(u: Setup, w: World, events: seq<Event>, i: nat, j: nat)
    requires i <= j <= |events|
    ensures |At(u, w, events, i).history| <= |At(u, w, events, j).history|
    decreases j
  {
    hide Next, Run, Replay;
    if i < j {
      HistoryStep(u, w, events, j - 1);
      HistoryGrows(u, w, events, i, j - 1);
    }
  }

  lemma StartsInOrder(u: Setup, w: World, events: seq<Event>, i: nat, j: nat)
    requires 0 < i <= |events| && j < |events|
    requires |At(u, w, events, i - 1).history| < |At(u, w, events, i).history| == |At(u, w, events, j).history|
    ensures i <= j
  {
    if j < i {
      HistoryGrows(u, w, events, j, i - 1);
    }
  }

  /**
   Whatever holds between the start and the end of an operation run alone holds between the start and the
   end of every operation of every interleaving.
   */
  lemma HoldsOfEveryOperation(u: Setup, w: World, events: seq<Event>, k: nat, holds: (World, Op, World) -> bool)
    returns (i: nat, j: nat)
    requires forall v: World, op: Op :: holds(v, op, RunOp(u.env, v, op, u.skipTest).w)
    requires Over(At(u, w, events, |events|), k)
    ensures Spans(u, w, events, k, i, j)
    ensures holds(At(u, w, events, i).w, At(u, w, events, |events|).history[k], At(u, w, events, j).w)
  {
    hide At, Over, RunOp;
    i, j := OperationSpan(u, w, events, k);
  }

  /** A call that finds the lock free goes through: the client's own steps carry its operation out and free the lock. */
  lemma CallGoesThrough(u: Setup, s: State, c: Client, op: Op)
    requires s.lock.None? && PhaseOf(s, c).Idle?
    ensures exists n: nat ::
      var t := Run(u, s, [Call(c, op, false), Lock(c), Check(c, false)] + (Times(Work(c), n) + [Return(c)]));
      && t.lock.None? && PhaseOf(t, c).Idle? && t.history == s.history + [op]
      && t.w == RunOp(u.env, s.w, op, u.skipTest).w
  {
    hide Advance, Complete, ScriptOf;
    var first := [Call(c, op, false), Lock(c), Check(c, false)];
    var t := LockTaken(u, s, c, op);
    HolderFinishes(u, t, c);
    var n: nat :|
      var z := Run(u, t, Times(Work(c), n) + [Return(c)]);
      && z.lock.None? && PhaseOf(z, c).Idle? && z.history == t.history
      && z.w == Complete(u.env, Moment(t.w, PhaseOf(t, c).task)).w;
    RunConcat(u, s, first, Times(Work(c), n) + [Return(c)]);
  }

  lemma LockTaken(u: Setup, s: State, c: Client, op: Op) returns (t: State)
    requires s.lock.None? && PhaseOf(s, c).Idle?
    ensures t == Run(u, s, [Call(c, op, false), Lock(c), Check(c, false)])
    ensures t.lock == Some(c) && PhaseOf(t, c) == Working(Start(op, u.skipTest))
    ensures t.w == s.w && t.history == s.history + [op]
  {
    hide Start;
    var events := [Call(c, op, false), Lock(c), Check(c, false)];
    assert events[1..] == [Lock(c), Check(c, false)] && events[1..][1..] == [Check(c, false)];
    assert events[1..][1..][1..] == [];
    var s1 := Next(u, s, events[0]);
    var s2 := Next(u, s1, Lock(c));
    t := Next(u, s2, Check(c, false));
    assert Run(u, s2, events[1..][1..]) == Run(u, t, []);
  }

  /** In every interleaving, a refused host update leaves the disk as it found it. */
  lemma RefusedUpdateIsInvisible(u: Setup, w: World, events: seq<Event>, k: nat, i: nat, j: nat, h: Host)
    requires !u.skipTest && Spans(u, w, events, k, i, j) && At(u, w, events, |events|).history[k] == Generate(h)
    requires var b := At(u, w, events, i).w;
             && Refused(u.env, b, Generate(h)) && RollbackWorks(u.env, b, Generate(h))
             && u.env.files(b.tick).Works? && u.env.files(b.tick + 1).Works?
             && Look(b.disk, Main(h.name)) != Some("") && Look(b.disk, Waf(h.id)) != Some("")
             && Look(b.disk, Cloud(h.id)) == h.cloud
    ensures At(u, w, events, j).w.disk == At(u, w, events, i).w.disk
  {
    hide At, RunOp, Refused, RollbackWorks;
    RefusedUpdateChangesNothing(u.env, At(u, w, events, i).w, h);
  }

  /** In every interleaving, when an operation that reloads has succeeded, nginx runs exactly what is on the disk. */
  lemma SuccessIsLive(u: Setup, w: World, events: seq<Event>, k: nat, i: nat, j: nat)
    requires !u.skipTest && Spans(u, w, events, k, i, j)
    requires var op := At(u, w, events, |events|).history[k];
             && (op.Generate? || op.Rename? || op.RemoveHost? || op.UpdateWaf? || op.UpdateBanned? || op.TestAndReload?)
             && RunOp(u.env, At(u, w, events, i).w, op, false).ok
    ensures var v := At(u, w, events, j).w;
            v.running == v.disk && u.env.valid(v.running)
  {
    hide At, RunOp;
    SuccessIsRunning(u.env, At(u, w, events, i).w, At(u, w, events, |events|).history[k]);
  }
}
