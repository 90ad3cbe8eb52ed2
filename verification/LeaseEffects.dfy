/** What each lease transaction does to the fence check: for whom, and for how long, it passes. */
module LeaseEffects {
  import opened Domain
  import opened Execution
  import opened Leases
  import opened Staleness

  /** The attempts for which the check passes at an instant. */
  ghost predicate Passes(x: Exec, a: nat, now: int) {
    Guard(x, a, now).Ok?
  }

  /** A new attempt passes until its lease runs out, every earlier attempt of the task is shut out for good, and
      nothing changes for other tasks. */
  lemma StartGrants(x: Exec, t: nat, kind: string, duration: int, began: int)
    requires LeaseInv(x) && StartAttempt(x, t, kind, duration, began).Ok?
    ensures
      var y, a := StartAttempt(x, t, kind, duration, began).value, |x.attempts|;
      && t < |x.tasks| && x.tasks[t].state == Eligible
      && (forall n :: Passes(y, a, n) <==> n < began + duration)
      && (forall b: nat, n | b < a :: Passes(y, b, n) <==> Passes(x, b, n) && x.attempts[b].task != t)
  {
    var y, a := StartAttempt(x, t, kind, duration, began).value, |x.attempts|;
    StartKeepsLeases(x, t, kind, duration, began);
    forall b: nat, n | b < a ensures Passes(y, b, n) <==> Passes(x, b, n) && x.attempts[b].task != t {
      StaleMeans(x, b, n);
      StaleMeans(y, b, n);
      assert AttemptOk(x, b) && TaskOk(x, x.attempts[b].task);
    }
    forall n ensures Passes(y, a, n) <==> n < began + duration { StaleMeans(y, a, n); }
  }

  /** A renewed attempt passes exactly until the renewed lease runs out; no other attempt is affected. */
  lemma RenewExtends(x: Exec, a: nat, duration: int, now: int)
    requires LeaseInv(x) && RenewLease(x, a, duration, now).Ok?
    ensures
      var y := RenewLease(x, a, duration, now).value;
      && Passes(x, a, now)
      && (forall n :: Passes(y, a, n) <==> n < now + duration)
      && (forall b: nat, n | b < |x.attempts| && b != a :: Passes(y, b, n) <==> Passes(x, b, n))
  {
    var y := RenewLease(x, a, duration, now).value;
    RenewKeepsLeases(x, a, now + duration);
    forall b: nat, n | b < |x.attempts| ensures Passes(y, b, n) <==> if b == a then n < now + duration else Passes(x, b, n) {
      StaleMeans(x, b, n);
      StaleMeans(y, b, n);
    }
  }

  /** The transactions that end an attempt. */
  predicate Ends(x: Exec, e: ExecEvent, a: nat) {
    match e
    case Revoke(b) => a == b
    case Fail(b, _) => a == b
    case Complete(b, _) => a == b
    case Challenge(t, _) => a < |x.attempts| && x.attempts[a].task == t
    case _ => false
  }

  /** An ended attempt never passes again, and no attempt of another task notices. */
  lemma EndingsShutOut(x: Exec, e: ExecEvent, now: int, a: nat, b: nat, n: int)
    requires LeaseInv(x) && Apply(x, e, now).Ok? && a < |x.attempts| && b < |x.attempts| && Ends(x, e, a)
    ensures !Passes(Apply(x, e, now).value, a, n)
    ensures x.attempts[b].task != x.attempts[a].task ==> (Passes(Apply(x, e, now).value, b, n) <==> Passes(x, b, n))
  {
    var y := Apply(x, e, now).value;
    ApplyKeepsLeases(x, e, now);
    assert AttemptOk(x, a) && TaskOk(x, x.attempts[a].task) && AttemptOk(x, b);
    RowsGrow(x, e, now);
    StaleMeans(x, b, n);
    StaleMeans(y, a, n);
    StaleMeans(y, b, n);
  }

  /** Recovery changes nothing that the fence check could see from then on: it only shuts out attempts that had
      already been shut out by time, and it leaves no task executing under an overdue lease. */
  lemma RecoveryIsInvisible(x: Exec, now: int, a: nat, n: int)
    requires LeaseInv(x) && a < |x.attempts| && now <= n
    ensures Passes(RecoverExpired(x, now), a, n) <==> Passes(x, a, n)
  {
    RecoverKeepsLeases(x, now);
    StaleMeans(x, a, n);
    StaleMeans(RecoverExpired(x, now), a, n);
  }

  lemma RecoveryFrees(x: Exec, now: int, t: nat)
    requires LeaseInv(x) && t < |x.tasks|
    ensures
      var y := RecoverExpired(x, now);
      && t < |y.tasks|
      && (y.tasks[t].state == Executing ==>
            y.tasks[t].current.Some? && y.tasks[t].current.value < |y.attempts| && now < y.attempts[y.tasks[t].current.value].expires)
      && (x.tasks[t].state == Executing && y.tasks[t].state != Executing ==> y.tasks[t].state == Eligible)
      && (x.tasks[t].state != Executing ==> y.tasks[t] == x.tasks[t])
  {
    RecoverKeepsLeases(x, now);
    assert TaskOk(x, t) && TaskOk(RecoverExpired(x, now), t);
  }
}
