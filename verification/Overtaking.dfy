/** A concrete run in which a stalled dispatcher is overtaken: a slot's second operation is at the provider, outcome
    unknown, when the first operation's provider call goes out too. */
module Overtaking {
  import opened Domain
  import opened Strings
  import opened Execution
  import opened Leases
  import opened Resources
  import opened Operations
  import opened Lockstep
  import opened World
  import opened Runs
  import opened Effects

  const SPEC := TaskSpec(None, Purpose("m", "1"), "c", "o", "{}", "", ["x"], {}, Unenforced, {"cap"}, 0, 0, None, None)
  const PROVIDER := Provider("p", "cap", Enforced, "v", false)
  const REGISTRY: Registry := map["p" := PROVIDER]
  const DECISION := Decision("d", Allow, {}, Some(0), 0)
  const CAPPED := Enforceability(TechnicallyCapped, false, "s")
  const REQUEST := PrepareRequest(0, "p", "k", "t", "i", 1, CAPPED, "", {})
  const PRINT := Fingerprint("p", "t", "i", None)
  const SLOT := EffectSlot(0, "k", "p", "t", PRINT, 1, "i", "v", false)
  const NO_EFFECT := Acknowledged(ProviderOutcome(ConfirmedNoEffect, "", 0))

  /** Attempt 0 runs task 0 under a lease until 9; envelope 0 has a limit of 2. */
  const WORKING := Exec([Task(SPEC, Executing, Some(0), 1)], [Attempt(0, Leased, 1, Active, 9, "e")], [], {})

  function Op(o: nat, state: OperationState): Operation {
    Operation(0, 0, 0, o + 1, state, PRINT, 1, "p", o, None, {}, "", DECISION,
              if state == Prepared then None else Some(DECISION),
              state == OutcomeUncertain, if state == ConfirmedNoEffect then Some(0) else None, "")
  }

  function Row(op: Operation): Reservation {
    Reservation(0, ReservationFor(op.state), 1, op.cost)
  }

  function Data(ops: seq<Operation>): Db {
    Db(WORKING, Ledger([2], seq(|ops|, o requires 0 <= o < |ops| => Row(ops[o]))), [], [SLOT], ops, 0)
  }

  /** The ways to a working attempt, common to every story about it. */
  const SETUP: seq<Event> := [Executes(Create(SPEC, true, true)), AddsEnvelope(2), Executes(Start(0, "e", 9, 0))]

  const PREPARE := Prepares(REGISTRY, REQUEST, DECISION, 0)

  /** The first dispatcher commits and stalls. A second process finds the operation dispatched, doubts it, asks the
      provider, and truthfully learns that there was no effect; so it may prepare and send anew. */
  const OVERTAKE: seq<Event> :=
    [PREPARE, Commits(REGISTRY, 0, 0, DECISION, 0), Concludes(0, Unacknowledged), Concludes(0, NO_EFFECT),
     PREPARE, Commits(REGISTRY, 1, 0, DECISION, 0), Sends(1, Unacknowledged)]

  /** The worlds passed on the way: each event leads from one to the next. */
  lemma {:induction false} Trace(worlds: seq<World>, events: seq<Event>)
    requires |worlds| == |events| + 1
    requires forall k | 0 <= k < |events| :: Step(worlds[k], events[k]) == worlds[k + 1]
    ensures Run(worlds[0], events) == worlds[|events|]
  {
    if events != [] { Trace(worlds[..|events|], events[..|events| - 1]); }
  }

  const EMPTIED: Db := Db(WORKING, Ledger([2], []), [], [], [], 0)

  lemma SetupRuns()
    ensures Run(Boot(0), SETUP) == World(EMPTIED, 0, [], [])
  {
    var w0 := Boot(0);
    var w1 := Step(w0, SETUP[0]);
    var w2 := Step(w1, SETUP[1]);
    var w3 := Step(w2, SETUP[2]);
    assert w1.db.exec.tasks == [Task(SPEC, Eligible, None, 0)];
    assert w3.db.exec.attempts == WORKING.attempts;
    assert w3.db.exec.tasks == WORKING.tasks;
    assert w3.db.exec == WORKING;
    Trace([w0, w1, w2, w3], SETUP);
  }

  lemma FirstReservation()
    ensures Reserve(Ledger([2], []), 0, 1, CAPPED) == Ok(Ledger([2], [Reservation(0, Held, 1, None)]))
  {
    assert Trim(CAPPED.source) == "s";
    assert Available(Ledger([2], []), 0) == 2;
    assert [] + [Reservation(0, Held, 1, None)] == [Reservation(0, Held, 1, None)];
  }

  lemma FirstInsertion()
    ensures InsertOperation(EMPTIED.(slots := [SLOT]), PROVIDER, 0, 0, REQUEST, DECISION, 0) == Ok(Data([Op(0, Prepared)]))
  {
    var y := Data([Op(0, Prepared)]);
    FirstReservation();
    assert y.ledger.rows == [Reservation(0, Held, 1, None)];
    assert [] + [Op(0, Prepared)] == y.ops;
  }

  lemma FirstPrepare()
    ensures PrepareTx(REGISTRY, EMPTIED, REQUEST, DECISION, 0, 0) == Ok(Data([Op(0, Prepared)]))
  {
    assert Guard(EMPTIED.exec, 0, 0) == Ok(0);
    assert EMPTIED.slots + [SLOT] == [SLOT];
    assert ResolveSlot(EMPTIED.slots, 0, REQUEST, PROVIDER) == Ok([SLOT]);
    FirstInsertion();
  }

  lemma FirstCommit()
    ensures CommitTx(REGISTRY, Data([Op(0, Prepared)]), 0, 0, DECISION, 0, 0) == Ok(Data([Op(0, Dispatched)]))
  {
    var x, y := Data([Op(0, Prepared)]), Data([Op(0, Dispatched)]);
    assert Guard(x.exec, 0, 0) == Ok(0);
    assert x.ledger.rows == y.ledger.rows;
    assert x.ops[0 := Op(0, Dispatched)] == y.ops;
  }

  lemma FirstDoubted()
    ensures RecordTx(Data([Op(0, Dispatched)]), 0, Unacknowledged) == Ok(Data([Op(0, OutcomeUncertain)]))
    ensures RecordTx(Data([Op(0, OutcomeUncertain)]), 0, NO_EFFECT) == Ok(Data([Op(0, ConfirmedNoEffect)]))
  {
    var x, y, z := Data([Op(0, Dispatched)]), Data([Op(0, OutcomeUncertain)]), Data([Op(0, ConfirmedNoEffect)]);
    assert x.ledger.rows[0 := Row(Op(0, OutcomeUncertain))] == y.ledger.rows;
    assert y.ledger.rows[0 := Row(Op(0, ConfirmedNoEffect))] == z.ledger.rows;
    assert x.ops[0 := Op(0, OutcomeUncertain)] == y.ops;
    assert y.ops[0 := Op(0, ConfirmedNoEffect)] == z.ops;
  }

  lemma SecondReservation()
    ensures Reserve(Data([Op(0, ConfirmedNoEffect)]).ledger, 0, 1, CAPPED)
         == Ok(Data([Op(0, ConfirmedNoEffect), Op(1, Prepared)]).ledger)
  {
    var x, y := Data([Op(0, ConfirmedNoEffect)]).ledger, Data([Op(0, ConfirmedNoEffect), Op(1, Prepared)]).ledger;
    assert Trim(CAPPED.source) == "s";
    assert x.rows == [Row(Op(0, ConfirmedNoEffect))];
    assert forall s :: Total(x.rows, 0, s) == 0 by { assert x.rows[..0] == []; }
    assert Available(x, 0) == 2;
    assert y.rows == x.rows + [Row(Op(1, Prepared))];
  }

  lemma FreedIsLatest()
    ensures Latest([Op(0, ConfirmedNoEffect)], 0) == Some(0)
  {
    assert [Op(0, ConfirmedNoEffect)][..0] == [];
  }

  lemma SecondInsertion()
    ensures InsertOperation(Data([Op(0, ConfirmedNoEffect)]), PROVIDER, 0, 0, REQUEST, DECISION, 0)
         == Ok(Data([Op(0, ConfirmedNoEffect), Op(1, Prepared)]))
  {
    FreedIsLatest();
    SecondReservation();
    assert |Data([Op(0, ConfirmedNoEffect)]).ledger.rows| == 1;
    assert [Op(0, ConfirmedNoEffect)] + [Op(1, Prepared)] == [Op(0, ConfirmedNoEffect), Op(1, Prepared)];
  }

  lemma SecondPrepare()
    ensures PrepareTx(REGISTRY, Data([Op(0, ConfirmedNoEffect)]), REQUEST, DECISION, 0, 0)
         == Ok(Data([Op(0, ConfirmedNoEffect), Op(1, Prepared)]))
  {
    assert Guard(WORKING, 0, 0) == Ok(0);
    assert ResolveSlot([SLOT], 0, REQUEST, PROVIDER) == Ok([SLOT]);
    FreedIsLatest();
    SecondInsertion();
  }

  lemma SecondCommit()
    ensures CommitTx(REGISTRY, Data([Op(0, ConfirmedNoEffect), Op(1, Prepared)]), 1, 0, DECISION, 0, 0)
         == Ok(Data([Op(0, ConfirmedNoEffect), Op(1, Dispatched)]))
  {
    var x, y := Data([Op(0, ConfirmedNoEffect), Op(1, Prepared)]), Data([Op(0, ConfirmedNoEffect), Op(1, Dispatched)]);
    assert Guard(x.exec, 0, 0) == Ok(0);
    assert x.ledger.rows == y.ledger.rows;
    assert x.ops[1 := Op(1, Dispatched)] == y.ops;
  }

  const STALLED := Call(0, Committed, false)

  /** The world in which the overtaken dispatcher wakes up. */
  const WAKING := World(Data([Op(0, ConfirmedNoEffect), Op(1, Dispatched)]), 0,
                        [STALLED, Call(1, Answered(Unacknowledged), true)], [1])

  const WORLDS: seq<World> :=
    [World(EMPTIED, 0, [], []),
     World(Data([Op(0, Prepared)]), 0, [], []),
     World(Data([Op(0, Dispatched)]), 0, [STALLED], []),
     World(Data([Op(0, OutcomeUncertain)]), 0, [STALLED], []),
     World(Data([Op(0, ConfirmedNoEffect)]), 0, [STALLED], []),
     World(Data([Op(0, ConfirmedNoEffect), Op(1, Prepared)]), 0, [STALLED], []),
     World(Data([Op(0, ConfirmedNoEffect), Op(1, Dispatched)]), 0, [STALLED, Call(1, Committed, false)], []),
     WAKING]

  lemma PrepareMoves(w: World, e: Event)
    requires e.Prepares? && Tx(w, e).Ok?
    ensures Step(w, e) == World(Tx(w, e).value, w.now, w.calls, w.sends)
  {
  }

  lemma PrepareStep()
    ensures Step(WORLDS[0], OVERTAKE[0]) == WORLDS[1]
  {
    FirstPrepare();
    PrepareMoves(WORLDS[0], OVERTAKE[0]);
  }

  lemma CommitStep()
    ensures Step(WORLDS[1], OVERTAKE[1]) == WORLDS[2]
  {
    FirstCommit();
    assert [] + [STALLED] == [STALLED];
  }

  lemma MiddleSteps()
    ensures forall k | 2 <= k < 4 :: Step(WORLDS[k], OVERTAKE[k]) == WORLDS[k + 1]
  {
    FirstDoubted();
    assert Step(WORLDS[2], OVERTAKE[2]) == WORLDS[3];
    assert Step(WORLDS[3], OVERTAKE[3]) == WORLDS[4];
  }

  lemma PrepareAgainStep()
    ensures Step(WORLDS[4], OVERTAKE[4]) == WORLDS[5]
  {
    SecondPrepare();
  }

  lemma CommitAgainStep()
    ensures Step(WORLDS[5], OVERTAKE[5]) == WORLDS[6]
  {
    SecondCommit();
  }

  lemma SendStep()
    ensures Step(WORLDS[6], OVERTAKE[6]) == WORLDS[7]
  {
  }

  lemma OvertakeRuns()
    ensures Run(Boot(0), SETUP + OVERTAKE) == WAKING
  {
    SetupRuns();
    PrepareStep();
    CommitStep();
    MiddleSteps();
    PrepareAgainStep();
    CommitAgainStep();
    SendStep();
    Trace(WORLDS, OVERTAKE);
    RunConcat(Boot(0), SETUP, OVERTAKE);
  }

  /** The slot's second provider call is not always preceded by a settlement without effect of the first: when
      operation 0 goes out here, operation 1 of the same slot is already out and its outcome is open. */
  lemma OvertakenDispatcherSends()
    ensures
      var before := Run(Boot(0), SETUP + OVERTAKE);
      var after := Step(before, Sends(0, Unacknowledged));
      && before.sends == [1] && after.sends == [1, 0]
      && |before.db.ops| == 2 && before.db.ops[0].slot == before.db.ops[1].slot
      && before.db.ops[1].state == Dispatched
      && Overtaken(before, 0) && !Justified(before, 0)
  {
    OvertakeRuns();
    var ops := WAKING.db.ops;
    assert Latest(ops, 0) == Some(1) by { assert ops[..1] == [ops[0]]; assert ops[..1][..0] == []; }
    assert 1 in WAKING.sends;
  }
}
