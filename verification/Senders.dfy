/** Who reaches a provider, read off the traces of the calls that are not one transaction. */
module Senders {
  import opened World
  import opened Effects
  import opened DispatchService

  lemma {:induction false} OwnIsMine(trace: seq<Move>, k: nat)
    requires k < |trace| && trace[k].Own?
    ensures trace[k].event in Mine(trace)
  {
    var n := |trace| - 1;
    if k < n { OwnIsMine(trace[..n], k); }
  }

  /** Whatever happens around it, a call whose own steps only conclude operations, as every reconciliation is, reaches no
      provider: each call logged meanwhile was made by some other process. */
  lemma ReconcilersSendNothing(w: World, trace: seq<Move>, k: nat) returns (m: nat)
    requires Inv(w) && Concludings(Mine(trace)) && |w.sends| <= k < |Run(w, Events(trace)).sends|
    ensures Moment(w, Events(trace), Run(w, Events(trace)).sends, k, m)
    ensures m < |trace| && trace[m].Other?
  {
    m := FindMoment(w, Events(trace), k);
    if trace[m].Own? { OwnIsMine(trace, m); }
  }
}
