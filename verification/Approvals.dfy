/** Approval requests that several principals must all sign. */
module Approvals {
  import opened Domain
  import opened Strings

  datatype Subject = ExternalOperation(operation: nat) | OtherSubject(kind: string, id: string)

  datatype Requester = AttemptRequester(attempt: nat) | NamedRequester(name: string)

  /** What an approval is bound to. Operation digests stand as the material they are computed from. */
  datatype Digest =
    | OperationDigest(provider: string, descriptor: string, slot: nat, fingerprint: Fingerprint, revision: nat, canonical: string)
    | TextDigest(text: string)

  datatype Verdict = Approve | Reject

  datatype Approval = Approval(
    subject: Subject, digest: Digest, decision: string, required: set<string>, requester: Requester,
    state: ApprovalState, expires: int, verdicts: map<string, Verdict>)

  datatype ApprovalRequest = ApprovalRequest(
    subject: Subject, digest: Digest, decision: string, required: set<string>, requester: Requester, expires: int)

  predicate Complete(r: ApprovalRequest) {
    && (r.subject.OtherSubject? ==> r.subject.kind != "" && r.subject.id != "")
    && (r.digest.TextDigest? ==> r.digest.text != "")
    && (r.requester.NamedRequester? ==> r.requester.name != "")
    && r.required != {}
    && (r.subject.ExternalOperation? ==> r.decision != "")
  }

  /** The request that already holds this subject and digest, if any. */
  function FindSubject(rows: seq<Approval>, subject: Subject, digest: Digest): (r: Option<nat>)
    ensures r.Some? ==> r.value < |rows| && rows[r.value].subject == subject && rows[r.value].digest == digest
    ensures r.None? ==> forall i | 0 <= i < |rows| :: rows[i].subject != subject || rows[i].digest != digest
  {
    if rows == [] then None
    else if rows[|rows| - 1].subject == subject && rows[|rows| - 1].digest == digest then Some(|rows| - 1)
    else FindSubject(rows[..|rows| - 1], subject, digest)
  }

  function ApprovalId(rows: seq<Approval>, r: ApprovalRequest): nat {
    var existing := FindSubject(rows, r.subject, r.digest);
    if existing.Some? then existing.value else |rows|
  }

  predicate SameRequest(a: Approval, r: ApprovalRequest) {
    && a.subject == r.subject && a.digest == r.digest && a.decision == r.decision
    && a.requester == r.requester && a.expires == r.expires && a.required == r.required
  }

  function CreateApproval(rows: seq<Approval>, r: ApprovalRequest, now: int): Result<seq<Approval>> {
    var id := ApprovalId(rows, r);
    if !Complete(r) || r.expires <= now then Err(Malformed)
    else if id < |rows| then if SameRequest(rows[id], r) then Ok(rows) else Err(Conflict)
    else Ok(rows + [Approval(r.subject, r.digest, r.decision, r.required, r.requester, Pending, r.expires, map[])])
  }

  function Approvers(a: Approval): set<string> {
    set p | p in a.verdicts && a.verdicts[p] == Approve
  }

  /** One principal's decision. An overdue request answers with an error, which rolls back its EXPIRED mark. */
  function Decide(rows: seq<Approval>, id: nat, approver: string, digest: Digest, verdict: Verdict, now: int)
    : Result<seq<Approval>>
  {
    if id >= |rows| then Err(NotFound)
    else
      var a := rows[id];
      if a.digest != digest then Err(Conflict)
      else if a.state != Pending then Err(WrongState)
      else if a.expires <= now then Err(ApprovalExpired)
      else if approver !in a.required then Err(Exceeds)
      else if approver in a.verdicts then if a.verdicts[approver] == verdict then Ok(rows) else Err(Conflict)
      else
        var b := a.(verdicts := a.verdicts[approver := verdict]);
        if verdict == Reject then Ok(rows[id := b.(state := Rejected)])
        else if |Approvers(b)| < |b.required| then Ok(rows[id := b])
        else if |Approvers(b)| != |b.required| then Err(Exceeds)
        else Ok(rows[id := b.(state := Approved)])
  }

  function Consume(rows: seq<Approval>, id: nat, digest: Digest, now: int): Result<seq<Approval>> {
    if id >= |rows| then Err(NotFound)
    else if rows[id].digest != digest then Err(Conflict)
    else if rows[id].expires <= now then Err(ApprovalExpired)
    else if rows[id].state != Approved then Err(WrongState)
    else Ok(rows[id := rows[id].(state := Consumed)])
  }

  // ----- AND semantics -----

  ghost predicate ApprovalOk(a: Approval) {
    && a.required != {}
    && a.verdicts.Keys <= a.required
    && match a.state
       case Pending => a.verdicts.Values <= {Approve} && Approvers(a) != a.required
       case Approved => a.verdicts.Values <= {Approve} && Approvers(a) == a.required
       case Consumed => a.verdicts.Values <= {Approve} && Approvers(a) == a.required
       case Rejected => Reject in a.verdicts.Values
       case ApprovalLapsed => false
  }

  ghost predicate ApprovalInv(rows: seq<Approval>) {
    forall i | 0 <= i < |rows| :: ApprovalOk(rows[i])
  }

  /** What may happen to one request: its binding never changes, decisions only accumulate, verdicts are final. */
  ghost predicate ApprovalAdvances(a: Approval, b: Approval) {
    && a.subject == b.subject && a.digest == b.digest && a.required == b.required && a.expires == b.expires
    && a.decision == b.decision && a.requester == b.requester
    && (forall p | p in a.verdicts :: p in b.verdicts && b.verdicts[p] == a.verdicts[p])
    && (a.state == Consumed || a.state == Rejected ==> b == a)
    && (a.state == Approved ==> b.state == Approved || b.state == Consumed)
  }

  ghost predicate ApprovalsAdvance(rows: seq<Approval>, later: seq<Approval>) {
    |rows| <= |later| && forall i | 0 <= i < |rows| :: ApprovalAdvances(rows[i], later[i])
  }

  lemma ApprovalsAdvanceTransitive(a: seq<Approval>, b: seq<Approval>, c: seq<Approval>)
    requires ApprovalsAdvance(a, b) && ApprovalsAdvance(b, c)
    ensures ApprovalsAdvance(a, c)
  {
    forall i | 0 <= i < |a| ensures ApprovalAdvances(a[i], c[i]) {
      assert ApprovalAdvances(a[i], b[i]) && ApprovalAdvances(b[i], c[i]);
    }
  }

  /** Only required principals ever decide, so the number of approvals cannot exceed the number required: the
      branch that reports an excess is dead, and equality of the counts means equality of the sets. */
  lemma ExcessUnreachable(a: Approval, approver: string)
    requires ApprovalOk(a) && a.state == Pending && approver in a.required
    ensures
      var b := a.(verdicts := a.verdicts[approver := Approve]);
      && |Approvers(b)| <= |b.required|
      && (|Approvers(b)| == |b.required| <==> Approvers(b) == b.required)
  {
    var b := a.(verdicts := a.verdicts[approver := Approve]);
    SubsetCardinality(Approvers(b), b.required);
  }

  lemma CreateKeepsApprovals(rows: seq<Approval>, r: ApprovalRequest, now: int)
    requires ApprovalInv(rows) && CreateApproval(rows, r, now).Ok?
    ensures ApprovalInv(CreateApproval(rows, r, now).value)
    ensures rows <= CreateApproval(rows, r, now).value
  {
    var added := Approval(r.subject, r.digest, r.decision, r.required, r.requester, Pending, r.expires, map[]);
    assert Approvers(added) == {};
    assert ApprovalOk(added);
  }

  lemma DecideKeepsApproval(a: Approval, approver: string, verdict: Verdict)
    requires ApprovalOk(a) && a.state == Pending && approver in a.required && approver !in a.verdicts
    ensures
      var b := a.(verdicts := a.verdicts[approver := verdict]);
      && (verdict == Reject ==> ApprovalOk(b.(state := Rejected)))
      && (verdict == Approve && |Approvers(b)| < |b.required| ==> ApprovalOk(b))
      && (verdict == Approve && |Approvers(b)| == |b.required| ==> ApprovalOk(b.(state := Approved)))
  {
    var b := a.(verdicts := a.verdicts[approver := verdict]);
    if verdict == Reject {
      assert b.verdicts[approver] == Reject;
      assert Reject in b.verdicts.Values;
    } else {
      ExcessUnreachable(a, approver);
      forall v | v in b.verdicts.Values ensures v == Approve {
        var p :| p in b.verdicts && b.verdicts[p] == v;
        if p != approver { assert a.verdicts[p] in a.verdicts.Values; }
      }
      assert Approvers(b) == Approvers(b.(state := Approved));
    }
  }

  lemma DecideKeepsApprovals(rows: seq<Approval>, id: nat, approver: string, digest: Digest, verdict: Verdict, now: int)
    requires ApprovalInv(rows) && Decide(rows, id, approver, digest, verdict, now).Ok?
    ensures ApprovalInv(Decide(rows, id, approver, digest, verdict, now).value)
    ensures ApprovalsAdvance(rows, Decide(rows, id, approver, digest, verdict, now).value)
  {
    if approver !in rows[id].verdicts { DecideKeepsApproval(rows[id], approver, verdict); }
  }

  lemma ConsumeKeepsApprovals(rows: seq<Approval>, id: nat, digest: Digest, now: int)
    requires ApprovalInv(rows) && Consume(rows, id, digest, now).Ok?
    ensures ApprovalInv(Consume(rows, id, digest, now).value)
    ensures ApprovalsAdvance(rows, Consume(rows, id, digest, now).value)
  {
    var a := rows[id];
    var b := a.(state := Consumed);
    assert Approvers(b) == Approvers(a);
  }

  /** An accepted decision is on record under its principal and touches no other request; the request is approved
      with it exactly when every required principal has now approved, and rejected by any rejection. */
  lemma DecisionTakesEffect(rows: seq<Approval>, id: nat, approver: string, digest: Digest, verdict: Verdict, now: int)
    requires ApprovalInv(rows) && Decide(rows, id, approver, digest, verdict, now).Ok?
    ensures
      var later := Decide(rows, id, approver, digest, verdict, now).value;
      && |later| == |rows| && id < |rows|
      && (forall i | 0 <= i < |rows| && i != id :: later[i] == rows[i])
      && approver in later[id].verdicts && later[id].verdicts[approver] == verdict
      && (verdict == Reject <==> later[id].state == Rejected)
      && (later[id].state == Approved <==>
            verdict == Approve && forall p | p in later[id].required :: p in later[id].verdicts && later[id].verdicts[p] == Approve)
  {
    var a := rows[id];
    assert ApprovalOk(a);
    if approver in a.verdicts {
      assert a.verdicts[approver] in a.verdicts.Values;
      WaitingForOthers(a);
    } else if verdict == Approve {
      ExcessUnreachable(a, approver);
    }
  }

  /** A pending request lacks the approval of some required principal. */
  lemma WaitingForOthers(a: Approval)
    requires ApprovalOk(a) && a.state == Pending
    ensures exists p :: p in a.required && !(p in a.verdicts && a.verdicts[p] == Approve)
  {
    assert Approvers(a) <= a.required;
    assert Approvers(a) < a.required;
    var p :| p in a.required && p !in Approvers(a);
  }

  /** The error for an excess of decisions is only ever reported to principals who are not required. */
  lemma ExcessNeverReported(rows: seq<Approval>, id: nat, approver: string, digest: Digest, verdict: Verdict, now: int)
    requires ApprovalInv(rows) && Decide(rows, id, approver, digest, verdict, now) == Err(Exceeds)
    ensures id < |rows| && approver !in rows[id].required
  {
    if approver in rows[id].required && approver !in rows[id].verdicts && verdict == Approve {
      ExcessUnreachable(rows[id], approver);
    }
  }

  // ----- what each call needs, and what it leaves -----

  /** A decision is accepted exactly if it is given for the very material of the request, by a required principal, while
      the request is pending and has not run out, and does not contradict what the same principal decided before. */
  lemma DecideWhen(rows: seq<Approval>, id: nat, approver: string, digest: Digest, verdict: Verdict, now: int)
    requires ApprovalInv(rows)
    ensures Decide(rows, id, approver, digest, verdict, now).Ok? <==>
      && id < |rows| && rows[id].digest == digest && rows[id].state == Pending && now < rows[id].expires
      && approver in rows[id].required
      && (approver in rows[id].verdicts ==> rows[id].verdicts[approver] == verdict)
    ensures Decide(rows, id, approver, digest, verdict, now).Ok? ==>
      Decide(rows, id, approver, digest, verdict, now).value[id].verdicts == rows[id].verdicts[approver := verdict]
  {
    if id < |rows| && rows[id].state == Pending && approver in rows[id].required && approver !in rows[id].verdicts {
      ExcessUnreachable(rows[id], approver);
    }
  }

  /** Every part of the request is there; an external operation also names the decision behind it. */
  ghost predicate Whole(r: ApprovalRequest) {
    && r.required != {} && r.requester != NamedRequester("") && r.digest != TextDigest("")
    && match r.subject
       case ExternalOperation(_) => r.decision != ""
       case OtherSubject(kind, id) => kind != "" && id != ""
  }

  /** Filing needs a whole request that has not run out; a request already on record for the same subject and material
      answers for it if it is the same in every respect, and otherwise a pending one is added. */
  lemma CreateWhen(rows: seq<Approval>, r: ApprovalRequest, now: int)
    ensures
      var id := ApprovalId(rows, r);
      var taken := exists i :: 0 <= i < |rows| && rows[i].subject == r.subject && rows[i].digest == r.digest;
      match CreateApproval(rows, r, now)
      case Err(_) => !Whole(r) || r.expires <= now || (taken && id < |rows| && !OnRecordAs(rows[id], r))
      case Ok(later) =>
        && Whole(r) && now < r.expires
        && if taken then id < |rows| && later == rows && OnRecordAs(rows[id], r)
           else later == rows + [Approval(r.subject, r.digest, r.decision, r.required, r.requester, Pending, r.expires, map[])]
  {
    var found := FindSubject(rows, r.subject, r.digest);
  }

  ghost predicate OnRecordAs(a: Approval, r: ApprovalRequest) {
    ApprovalRequest(a.subject, a.digest, a.decision, a.required, a.requester, a.expires) == r
  }

  /** Only an approved request that has not run out is consumed, and only for its own material. */
  lemma ConsumeWhen(rows: seq<Approval>, id: nat, digest: Digest, now: int)
    ensures Consume(rows, id, digest, now).Ok? <==>
      id < |rows| && rows[id].digest == digest && rows[id].state == Approved && now < rows[id].expires
    ensures Consume(rows, id, digest, now).Ok? ==>
      Consume(rows, id, digest, now).value == rows[id := rows[id].(state := Consumed)]
  {
  }
}
