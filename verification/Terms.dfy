/** The terms in which the promises are stated: what a task was granted, which decisions let a call go on, who has to
    sign, and which attempts are live, each read off the rows alone. */
module Terms {
  import opened Domain
  import opened Execution
  import opened Leases
  import opened Staleness
  import opened Operations

  /** The attempt holds an active lease that has not run out. */
  ghost predicate Live(x: Exec, a: nat, now: int) {
    a < |x.attempts| && x.attempts[a].lease == Active && now < x.attempts[a].expires
  }

  /** The task was granted the provider's capability, and the provider enforces what the task asks for. */
  ghost predicate Covers(spec: TaskSpec, p: Provider) {
    p.capability in spec.authority && AtLeast(p.enforcement, spec.enforcement)
  }

  /** The decision is complete, and was made for a call that began at this instant. */
  ghost predicate Fresh(d: Decision, began: int) {
    d.id != "" && d.profile.Some? && d.at == began
  }

  /** Limits, denials and unknown outcomes stop a call. */
  ghost predicate Permitted(d: Decision) {
    d.outcome == Allow || d.outcome == RequireApproval
  }

  /** Everyone the caller named and, if the decision asks for approval, everyone it names. */
  ghost function Signers(d: Decision, caller: set<string>): set<string> {
    set p | p in caller + d.approvers && (p in caller || d.outcome == RequireApproval)
  }

  /** Somebody has to sign, whoever that is. */
  ghost predicate Asks(d: Decision, caller: set<string>) {
    d.outcome == RequireApproval || caller != {}
  }

  ghost function PrintOf(p: Provider, descriptor: string, canonical: string): Fingerprint {
    Fingerprint(p.name, descriptor, canonical, if p.semantic then Some(p.adapter) else None)
  }

  /** The code's own tests say the same. */
  lemma TermsMean(spec: TaskSpec, p: Provider, d: Decision, began: int, caller: set<string>, descriptor: string, canonical: string)
    ensures Authorised(spec, p) <==> Covers(spec, p)
    ensures Provenance(d, began) <==> Fresh(d, began)
    ensures Permits(d) <==> Permitted(d)
    ensures Permitted(d) ==> Required(d, caller) == Signers(d, caller)
    ensures NeedsApproval(d, caller) <==> Asks(d, caller)
    ensures FingerprintOf(p, descriptor, canonical) == PrintOf(p, descriptor, canonical)
  {
    RankOrder(spec.enforcement, p.enforcement);
  }

  lemma LiveMeans(x: Exec, a: nat, now: int)
    requires LeaseInv(x)
    ensures Guard(x, a, now).Ok? <==> Live(x, a, now)
    ensures Guard(x, a, now).Ok? ==> Guard(x, a, now).value == x.attempts[a].task < |x.tasks|
  {
    if a < |x.attempts| { StaleMeans(x, a, now); }
  }
}
