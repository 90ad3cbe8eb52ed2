/** A prepared operation whose approval has run out. The approval ends with the lease held when the operation was
    prepared, and renewing the lease does not prolong it; but a repeated prepare call does not look at its expiry. */
module Stranded {
  import opened Domain
  import opened Execution
  import opened Staleness
  import opened Leases
  import opened Resources
  import opened Approvals
  import opened Operations
  import opened Lockstep
  import opened Transactions
  import opened World
  import opened Runs
  import opened Terms
  import opened Effects
  import opened Replay
  import opened Overtaking

  // ----- when a dispatch commit goes through -----

  /** The approval, if the operation has one, still lets it go out. */
  predicate Usable(x: Db, o: nat, now: int)
    requires o < |x.ops|
  {
    x.ops[o].approval.Some? ==>
      && x.ops[o].approval.value < |x.approvals|
      && var a := x.approvals[x.ops[o].approval.value];
      a.state == Approved && now < a.expires
  }

  /** The dispatch-time decision asks for exactly the approval the operation was prepared with. */
  ghost predicate SameApprovers(x: Db, o: nat, d: Decision)
    requires o < |x.ops|
  {
    if x.ops[o].approval.None? then !Asks(d, x.ops[o].caller)
    else
      x.ops[o].approval.value < |x.approvals|
      && x.approvals[x.ops[o].approval.value].required == Signers(d, x.ops[o].caller)
  }

  /** The exact condition for a dispatch commit. */
  lemma CommitWhen(reg: Registry, x: Db, o: nat, a: nat, d: Decision, began: int, now: int)
    requires DbInv(x)
    ensures CommitTx(reg, x, o, a, d, began, now).Ok? <==>
      && o < |x.ops| && x.ops[o].task < |x.exec.tasks|
      && x.ops[o].state == Prepared && x.ops[o].attempt == a && Live(x.exec, a, now)
      && x.ops[o].provider in reg && Covers(x.exec.tasks[x.ops[o].task].spec, reg[x.ops[o].provider])
      && Fresh(d, began) && Permitted(d) && d.profile == Some(x.profile)
      && SameApprovers(x, o, d) && Usable(x, o, now)
  {
    if o < |x.ops| {
      assert OpOk(x, o);
      LiveMeans(x.exec, a, now);
      if x.ops[o].provider in reg {
        TermsMean(x.exec.tasks[x.ops[o].task].spec, reg[x.ops[o].provider], d, began, x.ops[o].caller, "", "");
      }
      if x.ops[o].approval.Some? { assert ApprovalOk(x.approvals[x.ops[o].approval.value]); }
    }
  }

  // ----- what a repeated prepare call may be answered with -----

  /** The call is answered with the prepared operation o, and nothing changes. */
  ghost predicate AnsweredWith(reg: Registry, x: Db, r: PrepareRequest, d: Decision, began: int, now: int, o: nat) {
    && PrepareTx(reg, x, r, d, began, now) == Ok(x)
    && r.provider in reg && reg[r.provider].name == r.provider
    && r.attempt < |x.exec.attempts| && o < |x.ops| && x.ops[o].state == Prepared
    && Latest(x.ops, SlotId(x.slots, x.exec.attempts[r.attempt].task, r.key)) == Some(o)
  }

  lemma AnsweredMatches(reg: Registry, x: Db, r: PrepareRequest, d: Decision, began: int, now: int, o: nat)
    requires DbInv(x) && AnsweredWith(reg, x, r, d, began, now, o)
    ensures StillMatches(x, o, r, d) && x.ops[o].provider == r.provider && Guard(x.exec, r.attempt, now) == Ok(x.ops[o].task)
    ensures PrepareAdmitted(reg, r, d, began) && Authorised(x.exec.tasks[x.ops[o].task].spec, reg[r.provider])
  {
    assert OpOk(x, o);
  }

  /** The exact condition under which the operation a prepare call is answered with can still go out, under some
      decision made now: its approval is complete and has not run out. The call itself does not test for it. */
  lemma AnswerUsable(reg: Registry, x: Db, r: PrepareRequest, d: Decision, began: int, now: int, o: nat)
    requires DbInv(x) && AnsweredWith(reg, x, r, d, began, now, o)
    ensures (exists e, start :: CommitTx(reg, x, o, r.attempt, e, start, now).Ok?) <==> Usable(x, o, now)
  {
    AnsweredMatches(reg, x, r, d, began, now, o);
    var e := d.(profile := Some(x.profile));
    CommitWhen(reg, x, o, r.attempt, e, began, now);
    forall e, start | CommitTx(reg, x, o, r.attempt, e, start, now).Ok? ensures Usable(x, o, now) {
      CommitWhen(reg, x, o, r.attempt, e, start, now);
    }
  }

  // ----- from then on -----

  /** Operation o is prepared, and its approval has run out. */
  predicate RunOut(w: World, o: nat) {
    && o < |w.db.ops| && w.db.ops[o].state == Prepared && w.db.ops[o].approval.Some?
    && w.db.ops[o].approval.value < |w.db.approvals|
    && w.db.approvals[w.db.ops[o].approval.value].expires <= w.now
  }

  lemma CommitNeedsTime(w: World, e: Event)
    requires Inv(w) && e.Commits? && Tx(w, e).Ok?
    ensures e.operation < |w.db.ops| && w.db.ops[e.operation].state == Prepared && !RunOut(w, e.operation)
  {
    CommitWhen(e.registry, w.db, e.operation, e.attempt, e.decision, e.began, w.now);
  }

  lemma RunOutStays(w: World, v: World, o: nat)
    requires WorldAdvances(w, v) && RunOut(w, o) && v.db.ops[o].state == Prepared
    ensures RunOut(v, o)
  {
    assert OpAdvances(w.db.ops[o], v.db.ops[o]);
    var row := w.db.ops[o].approval.value;
    assert ApprovalAdvances(w.db.approvals[row], v.db.approvals[row]);
  }

  /** It never goes out, whatever happens: no renewal, signature or new decision helps. */
  lemma NeverOut(w: World, events: seq<Event>, o: nat)
    requires Inv(w) && RunOut(w, o)
    ensures o < |Run(w, events).db.ops| && Run(w, events).db.ops[o].dispatch.None?
  {
    RunKeepsInv(w, events);
    assert OpOk(w.db, o);
    if Run(w, events).db.ops[o].dispatch.Some? {
      var k := FindCommit(w, events, o);
      RunKeepsInv(w, events[..k]);
      CommitNeedsTime(Run(w, events[..k]), events[k]);
      RunOutStays(w, Run(w, events[..k]), o);
      assert false;
    }
  }

  lemma SignsLeave(w: World, e: Event, o: nat)
    requires Inv(w) && RunOut(w, o) && (e.Files? || e.Signs? || e.Uses?) && Tx(w, e).Ok?
    ensures
      var row := w.db.ops[o].approval.value;
      row < |Tx(w, e).value.approvals| && Tx(w, e).value.approvals[row] == w.db.approvals[row]
  {
    assert OpOk(w.db, o);
  }

  lemma PreparesLeave(reg: Registry, x: Db, r: PrepareRequest, d: Decision, began: int, now: int)
    requires PrepareTx(reg, x, r, d, began, now).Ok?
    ensures x.approvals <= PrepareTx(reg, x, r, d, began, now).value.approvals
  {
  }

  lemma ConsumesOne(x: Db, o: nat, d: Decision, now: int, row: nat)
    requires o < |x.ops| && x.ops[o].slot < |x.slots| && ConsumeFor(x, o, d, now).Ok?
    requires row < |x.approvals| && x.ops[o].approval != Some(row)
    ensures row < |ConsumeFor(x, o, d, now).value| && ConsumeFor(x, o, d, now).value[row] == x.approvals[row]
  {
  }

  lemma CommitConsumesOne(reg: Registry, x: Db, o: nat, a: nat, d: Decision, began: int, now: int, row: nat)
    requires CommitTx(reg, x, o, a, d, began, now).Ok? && row < |x.approvals| && x.ops[o].approval != Some(row)
    ensures
      var y := CommitTx(reg, x, o, a, d, began, now).value;
      row < |y.approvals| && y.approvals[row] == x.approvals[row]
  {
    ConsumesOne(x, o, d, now, row);
  }

  /** Another operation's commit uses another approval. */
  lemma CommitsLeave(w: World, e: Event, o: nat)
    requires Inv(w) && RunOut(w, o) && e.Commits? && Tx(w, e).Ok?
    ensures
      var row := w.db.ops[o].approval.value;
      row < |Tx(w, e).value.approvals| && Tx(w, e).value.approvals[row] == w.db.approvals[row]
  {
    CommitNeedsTime(w, e);
    assert OpOk(w.db, o) && OpOk(w.db, e.operation);
    CommitConsumesOne(e.registry, w.db, e.operation, e.attempt, e.decision, e.began, w.now, w.db.ops[o].approval.value);
  }

  lemma OthersLeave(w: World, e: Event)
    requires Tx(w, e).Ok? && !e.Files? && !e.Signs? && !e.Uses? && !e.Prepares? && !e.Commits?
    ensures Tx(w, e).value.approvals == w.db.approvals
  {
  }

  /** An approval that has run out stays as it is, while its operation waits. */
  lemma ApprovalFrozen(w: World, e: Event, o: nat)
    requires Inv(w) && RunOut(w, o)
    ensures
      var row := w.db.ops[o].approval.value;
      row < |Step(w, e).db.approvals| && Step(w, e).db.approvals[row] == w.db.approvals[row]
  {
    if Tx(w, e).Ok? {
      if e.Files? || e.Signs? || e.Uses? { SignsLeave(w, e, o); }
      else if e.Prepares? { PreparesLeave(e.registry, w.db, e.request, e.decision, e.began, w.now); }
      else if e.Commits? { CommitsLeave(w, e, o); }
      else { OthersLeave(w, e); }
    }
  }

  /** Between w and v operation o has waited, with its approval untouched. */
  ghost predicate Waited(w: World, v: World, o: nat)
    requires RunOut(w, o)
  {
    && RunOut(v, o) && SameIdentity(w.db.ops[o], v.db.ops[o])
    && v.db.approvals[w.db.ops[o].approval.value] == w.db.approvals[w.db.ops[o].approval.value]
  }

  lemma StepWaits(w: World, e: Event, o: nat)
    requires Inv(w) && RunOut(w, o) && o < |Step(w, e).db.ops| && Step(w, e).db.ops[o].state == Prepared
    ensures Waited(w, Step(w, e), o)
  {
    StepKeepsInv(w, e);
    RunOutStays(w, Step(w, e), o);
    ApprovalFrozen(w, e, o);
    assert OpAdvances(w.db.ops[o], Step(w, e).db.ops[o]);
  }

  lemma PreparedBefore(w: World, events: seq<Event>, k: nat, o: nat)
    requires Inv(w) && k <= |events| && o < |w.db.ops|
    requires o < |Run(w, events).db.ops| && Run(w, events).db.ops[o].state == Prepared
    ensures o < |Run(w, events[..k]).db.ops| && Run(w, events[..k]).db.ops[o].state == Prepared
  {
    RunPassesThrough(w, events, k);
    RunKeepsInv(w, events[..k]);
    assert OpAdvances(Run(w, events[..k]).db.ops[o], Run(w, events).db.ops[o]);
  }

  /** So it waits, with the same approval, until it is withdrawn. */
  lemma {:induction false} WaitsOn(w: World, events: seq<Event>, o: nat)
    requires Inv(w) && RunOut(w, o)
    requires o < |Run(w, events).db.ops| && Run(w, events).db.ops[o].state == Prepared
    ensures Waited(w, Run(w, events), o)
  {
    if events != [] {
      var n := |events| - 1;
      PreparedBefore(w, events, n, o);
      WaitsOn(w, events[..n], o);
      RunKeepsInv(w, events[..n]);
      StepWaits(Run(w, events[..n]), events[n], o);
    }
  }

  lemma PreparedIsLatest(db: Db, o: nat)
    requires DbInv(db) && o < |db.ops| && db.ops[o].state == Prepared
    ensures Latest(db.ops, db.ops[o].slot) == Some(o)
  {
    LatestIsNewest(db, db.ops[o].slot);
  }

  /** The call asks again for what operation o was prepared for. */
  predicate SameCall(w: World, o: nat, r: PrepareRequest, d: Decision) {
    && o < |w.db.ops| && StillMatches(w.db, o, r, d)
    && r.attempt < |w.db.exec.attempts|
    && HoldsKey(w.db.slots, w.db.ops[o].slot, w.db.exec.attempts[r.attempt].task, r.key)
  }

  lemma StillSame(w: World, v: World, o: nat, r: PrepareRequest, d: Decision)
    requires WorldAdvances(w, v) && RunOut(w, o) && Waited(w, v, o) && SameCall(w, o, r, d)
    ensures SameCall(v, o, r, d)
  {
    assert AttemptAdvances(w.db.exec.attempts[r.attempt], v.db.exec.attempts[r.attempt]);
  }

  lemma SameCallChangesNothing(w: World, o: nat, reg: Registry, r: PrepareRequest, d: Decision, began: int)
    requires Inv(w) && SameCall(w, o, r, d) && w.db.ops[o].state == Prepared
    ensures Step(w, Prepares(reg, r, d, began)) == w
  {
    SlotOfKey(w.db, w.db.ops[o].slot, w.db.exec.attempts[r.attempt].task, r.key);
    PreparedIsLatest(w.db, o);
    if Tx(w, Prepares(reg, r, d, began)).Ok? {
      var t := w.db.exec.attempts[r.attempt].task;
      assert ResolveSlot(w.db.slots, t, r, reg[r.provider]) == Ok(w.db.slots);
      PrepareInSlotShape(w.db, reg[r.provider], w.db.ops[o].slot, t, r, d, w.now);
    }
  }

  /** In every later world the operation has never gone out, and unless it has been withdrawn the same call is still
      answered with it and changes nothing. */
  lemma StrandedForGood(w: World, events: seq<Event>, o: nat, reg: Registry, r: PrepareRequest, d: Decision, began: int)
    requires Inv(w) && RunOut(w, o) && SameCall(w, o, r, d)
    ensures
      var v := Run(w, events);
      && o < |v.db.ops| && (v.db.ops[o].state == Prepared || v.db.ops[o].state == OperationCancelled)
      && (v.db.ops[o].state == Prepared ==>
            Latest(v.db.ops, v.db.ops[o].slot) == Some(o) && Step(v, Prepares(reg, r, d, began)) == v)
  {
    NeverOut(w, events, o);
    RunKeepsInv(w, events);
    var v := Run(w, events);
    assert OpOk(v.db, o);
    if v.db.ops[o].state == Prepared {
      PreparedIsLatest(v.db, o);
      WaitsOn(w, events, o);
      StillSame(w, v, o, r, d);
      SameCallChangesNothing(v, o, reg, r, d, began);
    }
  }

  // ----- a run that gets there -----

  /** The owner must approve; the lease, and with it the approval, lasts until 9. */
  const ASKED := REQUEST.(caller := {"p"})
  const MATERIAL := OperationDigest("p", "t", 0, PRINT, 1, "i")

  function Request(state: ApprovalState, verdicts: map<string, Verdict>): Approval {
    Approval(ExternalOperation(0), MATERIAL, "d", {"p"}, AttemptRequester(0), state, 9, verdicts)
  }

  function Working(until: int): Exec {
    Exec([Task(SPEC, Executing, Some(0), 1)], [Attempt(0, Leased, 1, Active, until, "e")], [], {})
  }

  function Tables(until: int, request: Approval): Db {
    var op := Op(0, Prepared).(approval := Some(0), caller := {"p"});
    Db(Working(until), Ledger([2], [Row(op)]), [request], [SLOT], [op], 0)
  }

  /** Prepared, signed in time, and then the lease is renewed past the end of the approval. */
  const STRAND: seq<Event> :=
    [Prepares(REGISTRY, ASKED, DECISION, 0), Signs(0, "p", MATERIAL, Approve), Executes(Renew(0, 20)), Tick(10)]

  const SIGNED := Request(Approved, map["p" := Approve])

  const STATIONS: seq<World> :=
    [World(EMPTIED, 0, [], []),
     World(Tables(9, Request(Pending, map[])), 0, [], []),
     World(Tables(9, SIGNED), 0, [], []),
     World(Tables(20, SIGNED), 0, [], []),
     World(Tables(20, SIGNED), 10, [], [])]

  lemma AskedInsertion()
    ensures InsertOperation(EMPTIED.(slots := [SLOT]), PROVIDER, 0, 0, ASKED, DECISION, 0) == Ok(Tables(9, Request(Pending, map[])))
  {
    var y := Tables(9, Request(Pending, map[]));
    FirstReservation();
    assert y.ledger.rows == [Reservation(0, Held, 1, None)];
    assert Required(DECISION, {"p"}) == {"p"};
    assert [] + y.approvals == y.approvals;
    assert [] + y.ops == y.ops;
  }

  lemma AskedPrepare()
    ensures PrepareTx(REGISTRY, EMPTIED, ASKED, DECISION, 0, 0) == Ok(Tables(9, Request(Pending, map[])))
  {
    assert Guard(EMPTIED.exec, 0, 0) == Ok(0);
    assert EMPTIED.slots + [SLOT] == [SLOT];
    assert ResolveSlot(EMPTIED.slots, 0, ASKED, PROVIDER) == Ok([SLOT]);
    AskedInsertion();
  }

  lemma Signed()
    ensures Decide([Request(Pending, map[])], 0, "p", MATERIAL, Approve, 0) == Ok([SIGNED])
  {
    assert Approvers(SIGNED) == {"p"};
    assert [Request(Pending, map[])][0 := SIGNED] == [SIGNED];
  }

  lemma Renewed()
    ensures RenewLease(Working(9), 0, 20, 0) == Ok(Working(20))
  {
    assert Guard(Working(9), 0, 0) == Ok(0);
    assert Working(9).attempts[0 := Working(20).attempts[0]] == Working(20).attempts;
  }

  lemma AskedStep()
    ensures Step(STATIONS[0], STRAND[0]) == STATIONS[1]
  {
    AskedPrepare();
  }

  lemma SignedStep()
    ensures Step(STATIONS[1], STRAND[1]) == STATIONS[2]
  {
    Signed();
  }

  lemma RenewedStep()
    ensures Step(STATIONS[2], STRAND[2]) == STATIONS[3]
  {
    Renewed();
  }

  lemma WaitedStep()
    ensures Step(STATIONS[3], STRAND[3]) == STATIONS[4]
  {
  }

  lemma StrandRuns()
    ensures Run(Boot(0), SETUP + STRAND) == STATIONS[4]
  {
    SetupRuns();
    AskedStep();
    SignedStep();
    RenewedStep();
    WaitedStep();
    Trace(STATIONS, STRAND);
    RunConcat(Boot(0), SETUP, STRAND);
  }

  /** The attempt is in good standing, its call is answered with the operation it prepared, and by what precedes that
      operation never goes out. */
  lemma StrandedRun()
    ensures
      var w := Run(Boot(0), SETUP + STRAND);
      && Guard(w.db.exec, 0, w.now) == Ok(0)
      && AnsweredWith(REGISTRY, w.db, ASKED, DECISION.(at := 10), 10, w.now, 0)
      && RunOut(w, 0) && SameCall(w, 0, ASKED, DECISION.(at := 10))
      && w.db.approvals[0].state == Approved
  {
    StrandRuns();
    var w := STATIONS[4];
    assert Guard(w.db.exec, 0, 10) == Ok(0);
    assert Latest(w.db.ops, 0) == Some(0) by { assert w.db.ops[..0] == []; }
    assert ResolveSlot(w.db.slots, 0, ASKED, PROVIDER) == Ok([SLOT]);
    assert Required(DECISION.(at := 10), {"p"}) == {"p"};
    assert StillMatches(w.db, 0, ASKED, DECISION.(at := 10));
  }
}
