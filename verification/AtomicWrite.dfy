/**
 `writeFileAtomic`: write a temporary file beside the target, flush it, and rename it over the target.
 The model follows the directory through every system call, so that a reader, or a crash, may come
 between any two of them.
 */
module AtomicWrite {
  import opened Options
  import opened Outcomes

  type Dir = map<string, string>

  /** The write of `data` to `target` through the temporary name `tmp`. */
  datatype Job = Job(target: string, tmp: string, data: string)

  /** A temporary name is new, and is never the name of a configuration file. */
  predicate FreshName(d: Dir, j: Job) {
    j.tmp !in d && j.tmp != j.target
  }

  function View(d: Dir, name: string): Option<string> {
    if name in d then Some(d[name]) else None
  }

  // The system calls, by the order in which they draw their outcomes.
  const MKDIR := 0
  const CREATE := 1
  const WRITE := 2
  const SYNC := 3
  const CLOSE := 4
  const CHMOD := 5
  const RENAME := 6
  const REMOVE := 7

  type Io = nat -> Outcome

  predicate Filled(io: Io) {
    io(WRITE).Works? && io(SYNC).Works? && io(CLOSE).Works?
  }

  predicate Succeeds(io: Io) {
    io(MKDIR).Works? && io(CREATE).Works? && Filled(io) && io(CHMOD).Works? && io(RENAME).Works?
  }

  /** While data is being written, the temporary file grows; a reader may come at any length. */
  function Growing(d: Dir, tmp: string, landed: string): (states: seq<Dir>)
    ensures |states| == |landed| + 1
    ensures forall k :: 0 <= k <= |landed| ==> states[k] == d[tmp := landed[..k]]
  {
    seq(|landed| + 1, k requires 0 <= k <= |landed| => d[tmp := landed[..k]])
  }

  /** Every state the directory goes through, from the one found to the one left. */
  function Trace(d: Dir, j: Job, io: Io): (states: seq<Dir>)
    ensures states != []
  {
    if !io(MKDIR).Works? || !io(CREATE).Works? then [d]
    else
      var landed := Landed(j.data, io(WRITE));
      [d] + Growing(d, j.tmp, landed) + Ending(d[j.tmp := landed], j, io)
  }

  function Ending(written: Dir, j: Job, io: Io): seq<Dir>
    requires j.tmp in written
  {
    if !Filled(io) then [if io(REMOVE).Works? then written - {j.tmp} else written]
    else if !io(CHMOD).Works? || !io(RENAME).Works? then [written]
    else [(written - {j.tmp})[j.target := written[j.tmp]]]
  }

  function Final(d: Dir, j: Job, io: Io): Dir {
    var trace := Trace(d, j, io);
    trace[|trace| - 1]
  }

  /**
   Whoever looks, whenever, finds the old target or the complete new one; once new, it stays new. No
   other file changes but the temporary one.
   */
  lemma NeverPartial(d: Dir, j: Job, io: Io, k: nat)
    requires FreshName(d, j) && k < |Trace(d, j, io)|
    ensures View(Trace(d, j, io)[k], j.target) ==
            if Succeeds(io) && k == |Trace(d, j, io)| - 1 then Some(j.data) else View(d, j.target)
    ensures forall name :: name !in {j.target, j.tmp} ==> View(Trace(d, j, io)[k], name) == View(d, name)
  {
  }

  /**
   Success puts the whole of the new text in place and leaves nothing else behind; failure changes no
   file but the temporary one.
   */
  lemma FinalDirectory(d: Dir, j: Job, io: Io)
    requires FreshName(d, j)
    ensures Succeeds(io) ==> Final(d, j, io) == d[j.target := j.data]
    ensures !Succeeds(io) ==> Final(d, j, io) - {j.tmp} == d
  {
  }

  /**
   The deferred cleanup is disarmed once the file is closed: after that a failure leaves the temporary
   file behind.
   */
  lemma TempLeftBehind(d: Dir, j: Job, io: Io)
    requires FreshName(d, j)
    ensures j.tmp in Final(d, j, io) <==>
            && io(MKDIR).Works? && io(CREATE).Works?
            && if Filled(io) then !io(CHMOD).Works? || !io(RENAME).Works? else !io(REMOVE).Works?
  {
  }

  /** A rename that fails leaves the complete new text under the temporary name. */
  lemma TempLeftExample()
    ensures var (j, io) := (Job("a.conf", ".tmp-1", "x"), (k: nat) => if k == RENAME then Fails else Works);
            Final(map["a.conf" := "old"], j, io) == map["a.conf" := "old", ".tmp-1" := "x"]
  {
  }

  /** The directory as the operating system keeps it, and, for the proofs, every state it went through. */
  class Directory {
    var files: Dir
    ghost var seen: seq<Dir>

    constructor (d: Dir)
      ensures files == d && seen == []
    {
      files, seen := d, [];
    }

    method WriteFileAtomic(j: Job, io: Io) returns (ok: bool)
      requires FreshName(files, j)
      modifies this
      ensures ok == Succeeds(io)
      ensures files == Final(old(files), j, io)
      ensures seen == old(seen) + Trace(old(files), j, io)
    {
      hide Ending, Growing, Landed;
      ok := false;
      Look();
      if !io(MKDIR).Works? || !io(CREATE).Works? {
        return;
      }
      ghost var d := files;
      files := files[j.tmp := ""];
      Look();
      FillTemp(j.tmp, Landed(j.data, io(WRITE)), d);
      ghost var growing := Growing(d, j.tmp, Landed(j.data, io(WRITE)));
      assert seen == old(seen) + ([d] + growing);
      ghost var written := files;
      ok := Finish(j, io);
      assert Trace(d, j, io) == [d] + growing + Ending(written, j, io);
      assert seen == old(seen) + ([d] + growing + Ending(written, j, io));
    }

    /** The bytes reach the file one after the other. */
    method FillTemp(tmp: string, landed: string, ghost d: Dir)
      requires files == d[tmp := ""]
      modifies this
      ensures files == d[tmp := landed]
      ensures seen == old(seen) + Growing(d, tmp, landed)[1..]
    {
      assert landed[..0] == "";
      for k := 0 to |landed|
        invariant files == d[tmp := landed[..k]]
        invariant seen == old(seen) + Growing(d, tmp, landed)[1..k + 1]
      {
        files := files[tmp := landed[..k + 1]];
        assert files == d[tmp := landed[..k + 1]];
        Look();
        assert Growing(d, tmp, landed)[1..k + 2] == Growing(d, tmp, landed)[1..k + 1] + [files];
      }
      assert landed[..|landed|] == landed;
      assert Growing(d, tmp, landed)[1..|landed| + 1] == Growing(d, tmp, landed)[1..];
    }

    /** From the write on: a failure up to the closing of the file removes it again, a later one does not. */
    method Finish(j: Job, io: Io) returns (ok: bool)
      requires j.tmp in files
      modifies this
      ensures ok == (Filled(io) && io(CHMOD).Works? && io(RENAME).Works?)
      ensures Ending(old(files), j, io) == [files]
      ensures seen == old(seen) + [files]
    {
      ok := false;
      if !io(WRITE).Works? || !io(SYNC).Works? || !io(CLOSE).Works? {
        if io(REMOVE).Works? {
          files := files - {j.tmp};
        }
      } else if io(CHMOD).Works? && io(RENAME).Works? {
        files := (files - {j.tmp})[j.target := files[j.tmp]];
        ok := true;
      }
      Look();
    }

    ghost method Look()
      modifies this`seen
      ensures seen == old(seen) + [files]
    {
      seen := seen + [files];
    }
  }
}
