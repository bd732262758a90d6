/** How a call to the operating system, to nginx or to Docker can turn out. The model leaves the choice open. */
module Outcomes {
  /**
   `Halfway` is a failure that took effect in part: a write that stopped after `n` characters, a
   reload that nginx carried out although the caller was told that it failed or timed out.
   */
  datatype Outcome = Works | Fails | Halfway(n: nat)

  /** What a plain write into an emptied file leaves in it. */
  function Landed(data: string, o: Outcome): string {
    match o
    case Works => data
    case Fails => ""
    case Halfway(n) => if n < |data| then data[..n] else data
  }
}
