/** Filing, deciding and consuming approval requests in place. */
module ApprovalService {
  import opened Domain
  import opened Approvals
  import opened Box

  method CreateInTx(tx: Box, request: ApprovalRequest) returns (r: Result<nat>)
    modifies tx`approvals
    ensures match CreateApproval(old(tx.approvals), request, tx.now)
            case Ok(rows) => r == Ok(ApprovalId(old(tx.approvals), request)) && tx.approvals == rows
            case Err(e) => r == Err(e) && tx.approvals == old(tx.approvals)
  {
    if !Complete(request) || request.expires <= tx.now { return Err(Malformed); }
    var existing := FindSubject(tx.approvals, request.subject, request.digest);
    if existing.Some? {
      return if SameRequest(tx.approvals[existing.value], request) then Ok(existing.value) else Err(Conflict);
    }
    r := Ok(|tx.approvals|);
    tx.approvals := tx.approvals + [Approval(request.subject, request.digest, request.decision, request.required,
                                             request.requester, Pending, request.expires, map[])];
  }

  /** The body of a decision's transaction. When the request is overdue it is marked expired and the call fails, so
      the mark never outlives the transaction. */
  method DecideInTx(tx: Box, id: nat, approver: string, digest: Digest, verdict: Verdict) returns (r: Result<()>)
    modifies tx`approvals
    ensures match Decide(old(tx.approvals), id, approver, digest, verdict, tx.now)
            case Ok(rows) => r == Ok(()) && tx.approvals == rows
            case Err(e) => r == Err(e)
  {
    if id >= |tx.approvals| { return Err(NotFound); }
    var record := tx.approvals[id];
    if record.digest != digest { return Err(Conflict); }
    if record.state != Pending { return Err(WrongState); }
    if record.expires <= tx.now {
      tx.approvals := tx.approvals[id := record.(state := ApprovalLapsed)];
      return Err(ApprovalExpired);
    }
    if approver !in record.required { return Err(Exceeds); }
    if approver in record.verdicts {
      return if record.verdicts[approver] == verdict then Ok(()) else Err(Conflict);
    }
    tx.approvals := tx.approvals[id := record.(verdicts := record.verdicts[approver := verdict])];
    if verdict == Reject {
      tx.approvals := tx.approvals[id := tx.approvals[id].(state := Rejected)];
      return Ok(());
    }
    var approved := |Approvers(tx.approvals[id])|;
    if approved < |record.required| { return Ok(()); }
    if approved != |record.required| { return Err(Exceeds); }
    tx.approvals := tx.approvals[id := tx.approvals[id].(state := Approved)];
    return Ok(());
  }

  /** One principal's decision, committed or rolled back as a whole: after a failure, an overdue request is still
      pending. */
  method DecideOn(box: Box, id: nat, approver: string, digest: Digest, verdict: Verdict) returns (r: Result<()>)
    modifies box
    ensures box.State() == old(box.State()).(db := box.Data())
    ensures match Decide(old(box.approvals), id, approver, digest, verdict, old(box.now))
            case Ok(rows) => r == Ok(()) && box.Data() == old(box.Data()).(approvals := rows)
            case Err(e) => r == Err(e) && box.Data() == old(box.Data())
  {
    var saved := box.Data();
    r := DecideInTx(box, id, approver, digest, verdict);
    if r.Err? { box.Rollback(saved); }
  }

  method ConsumeInTx(tx: Box, id: nat, digest: Digest) returns (r: Result<()>)
    modifies tx`approvals
    ensures match Consume(old(tx.approvals), id, digest, tx.now)
            case Ok(rows) => r == Ok(()) && tx.approvals == rows
            case Err(e) => r == Err(e) && tx.approvals == old(tx.approvals)
  {
    if id >= |tx.approvals| { return Err(NotFound); }
    var record := tx.approvals[id];
    if record.digest != digest { return Err(Conflict); }
    if record.expires <= tx.now { return Err(ApprovalExpired); }
    if record.state != Approved { return Err(WrongState); }
    tx.approvals := tx.approvals[id := record.(state := Consumed)];
    return Ok(());
  }
}
