/** Recovery when the Box starts: every operation whose outcome may be open is reconciled. */
module Recovery {
  import opened Domain
  import opened Operations
  import opened Lockstep
  import opened World
  import opened Box
  import opened Origins
  import opened DispatchService
  import opened Undisturbed

  predicate Uncertain(op: Operation) {
    op.state == Dispatched || (op.state == OutcomeUncertain && op.reconcile)
  }

  ghost predicate AllClassified(w: World, ids: seq<nat>) {
    forall i | 0 <= i < |ids| :: Classified(w, ids[i])
  }

  lemma StayClassified(w: World, v: World, ids: seq<nat>)
    requires Inv(w) && Leads(w, v) && AllClassified(w, ids)
    ensures AllClassified(v, ids)
  {
    forall i | 0 <= i < |ids| ensures Classified(v, ids[i]) { StaysClassified(w, v, ids[i]); }
  }

  lemma OneMoreClassified(w: World, ids: seq<nat>, i: nat)
    requires i < |ids| && AllClassified(w, ids[..i]) && Classified(w, ids[i])
    ensures AllClassified(w, ids[..i + 1])
  {
    var more := ids[..i + 1];
    forall k | 0 <= k < |more| ensures Classified(w, more[k]) {
      if k < i { assert more[k] == ids[..i][k]; }
    }
  }

  // ----- undisturbed -----

  /** Reconciling the operation ends with an error other than that its outcome is unknown: nobody can be asked about it,
      or its provider states a cost below nothing. */
  ghost predicate Fails(op: Operation, reg: Registry, lookup: Answer) {
    op.provider !in reg || (Establishes(lookup) && lookup.outcome.cost < 0)
  }

  /** The operation has the outcome the lookup established, or is in doubt if it established none. */
  ghost predicate AsLookedUp(op: Operation, reg: Registry, lookup: Answer) {
    if Establishes(lookup) && !Fails(op, reg, lookup) then Shows(op, lookup.outcome) else op.state == OutcomeUncertain
  }

  /** Only operation o was reconciled, and nothing was sent. */
  ghost predicate NextAlone(w: World, v: World, reg: Registry, o: nat, lookup: Answer, r: Result<Operation>) {
    && v.sends == w.sends && OnlyOne(w.db, v.db, o) && o < |v.db.ops| && v.db.ops[o].provider == w.db.ops[o].provider
    && AsLookedUp(v.db.ops[o], reg, lookup)
    && (r.Err? && r.error != OutcomeUnknown <==> Fails(v.db.ops[o], reg, lookup))
  }

  /** The first i operations of the snapshot have been reconciled, without a failure, and no other operation has changed. */
  ghost predicate Progress(w: World, v: World, reg: Registry, pending: seq<nat>, i: nat, lookup: nat -> Answer)
    requires i <= |pending|
  {
    && v.sends == w.sends && |v.db.ops| == |w.db.ops|
    && (forall j | 0 <= j < i ::
          pending[j] < |v.db.ops| && v.db.ops[pending[j]].provider == w.db.ops[pending[j]].provider
          && AsLookedUp(v.db.ops[pending[j]], reg, lookup(pending[j])) && !Fails(v.db.ops[pending[j]], reg, lookup(pending[j])))
    && (forall p: nat | p < |w.db.ops| && p !in pending[..i] :: v.db.ops[p] == w.db.ops[p])
  }

  lemma ProgressOn(w: World, u: World, v: World, reg: Registry, pending: seq<nat>, i: nat, lookup: nat -> Answer, r: Result<Operation>)
    requires Ascends(pending) && i < |pending| && Progress(w, u, reg, pending, i, lookup) && pending[i] < |u.db.ops|
    requires NextAlone(u, v, reg, pending[i], lookup(pending[i]), r) && (r.Ok? || r == Err(OutcomeUnknown))
    ensures Progress(w, v, reg, pending, i + 1, lookup)
  {
    assert pending[..i + 1] == pending[..i] + [pending[i]];
    assert pending[i] !in pending[..i];
  }

  ghost predicate Ascends(ids: seq<nat>) {
    forall i, j | 0 <= i < j < |ids| :: ids[i] < ids[j]
  }

  /** The identifiers of the operations that are out, in order. */
  ghost predicate Lists(w: World, ids: seq<nat>) {
    Ascends(ids) && forall o: nat :: o in ids <==> o < |w.db.ops| && Uncertain(w.db.ops[o])
  }

  /** What the call comes to if nobody disturbs it: it fails exactly if one of the operations does; otherwise every
      operation that was out is as its provider's lookup said, every other is as it was, and nothing was sent. */
  ghost predicate Recovers(w: World, v: World, reg: Registry, lookup: nat -> Answer, r: Result<()>) {
    && v.sends == w.sends && |v.db.ops| == |w.db.ops|
    && (r.Err? <==> exists o: nat :: o < |w.db.ops| && Out(w.db.ops[o].state) && Fails(w.db.ops[o], reg, lookup(o)))
    && (r.Ok? ==> forall o: nat | o < |w.db.ops| ::
          if Out(w.db.ops[o].state) then AsLookedUp(v.db.ops[o], reg, lookup(o)) else v.db.ops[o] == w.db.ops[o])
  }

  lemma RecoversAll(w: World, v: World, reg: Registry, pending: seq<nat>, lookup: nat -> Answer)
    requires Inv(w) && Lists(w, pending) && Progress(w, v, reg, pending, |pending|, lookup)
    ensures Recovers(w, v, reg, lookup, Ok(()))
  {
    assert pending[..|pending|] == pending;
    forall o: nat | o < |w.db.ops| ensures Uncertain(w.db.ops[o]) <==> Out(w.db.ops[o].state) { assert OpOk(w.db, o); }
    forall o: nat | o < |w.db.ops| && Out(w.db.ops[o].state)
      ensures AsLookedUp(v.db.ops[o], reg, lookup(o)) && !Fails(w.db.ops[o], reg, lookup(o))
    {
      assert o in pending;
      var j :| 0 <= j < |pending| && pending[j] == o;
    }
  }

  lemma StillOut(w: World, u: World, reg: Registry, pending: seq<nat>, i: nat, lookup: nat -> Answer)
    requires Lists(w, pending) && i < |pending| && Progress(w, u, reg, pending, i, lookup)
    ensures pending[i] < |w.db.ops| == |u.db.ops| && u.db.ops[pending[i]] == w.db.ops[pending[i]] && Out(u.db.ops[pending[i]].state)
  {
    assert pending[i] in pending;
    assert pending[i] !in pending[..i];
  }

  lemma Reconciled(w: World, v: World, reg: Registry, o: nat, lookup: Answer, r: Result<Operation>)
    requires Inv(w) && Leads(w, v) && o < |w.db.ops| && Out(w.db.ops[o].state) && QuietlyReconciled(w, v, reg, o, lookup, r)
    ensures NextAlone(w, v, reg, o, lookup, r)
  {
    Reconciles(w, v, reg, o, lookup, r);
    assert OpAdvances(w.db.ops[o], v.db.ops[o]);
  }

  /** One more operation: either the progress goes on, or the whole call fails. */
  lemma NextDone(w: World, u: World, v: World, reg: Registry, pending: seq<nat>, i: nat, lookup: nat -> Answer, r: Result<Operation>)
    requires Lists(w, pending) && i < |pending| && Progress(w, u, reg, pending, i, lookup) && pending[i] < |u.db.ops|
    requires NextAlone(u, v, reg, pending[i], lookup(pending[i]), r)
    ensures if r.Ok? || r == Err(OutcomeUnknown) then Progress(w, v, reg, pending, i + 1, lookup)
            else Recovers(w, v, reg, lookup, Err(r.error))
  {
    StillOut(w, u, reg, pending, i, lookup);
    if r.Ok? || r == Err(OutcomeUnknown) {
      ProgressOn(w, u, v, reg, pending, i, lookup, r);
    } else {
      var o := pending[i];
      assert o < |w.db.ops| && Out(w.db.ops[o].state) && Fails(w.db.ops[o], reg, lookup(o));
    }
  }

  // ----- the loop -----

  /** Reconciles the next operation of the snapshot within a longer trace. */
  method ReconcileNext(box: Box, reg: Registry, pending: seq<nat>, i: nat, lookup: nat -> Answer, others: nat -> seq<Event>,
                       ghost start: World, ghost trace: seq<Move>)
    returns (r: Result<Operation>, ghost longer: seq<Move>)
    requires box.State() == Run(start, Events(trace)) && Concludings(Mine(trace)) && Inv(box.State())
    requires Lists(start, pending) && i < |pending| && AllClassified(box.State(), pending[..i])
    modifies box
    ensures box.State() == Run(start, Events(longer)) && Concludings(Mine(longer)) && Inv(box.State())
    ensures r.Ok? || r == Err(OutcomeUnknown) ==> AllClassified(box.State(), pending[..i + 1])
    ensures Quiet(others) && Progress(start, old(box.State()), reg, pending, i, lookup) ==>
      if r.Ok? || r == Err(OutcomeUnknown) then Progress(start, box.State(), reg, pending, i + 1, lookup)
      else Recovers(start, box.State(), reg, lookup, Err(r.error))
  {
    ghost var before := box.State();
    ghost var steps: seq<Move>;
    r, steps := ReconcileOne(box, reg, pending[i], lookup(pending[i]), others);
    TraceOn(start, trace, steps);
    longer := trace + steps;
    StayClassified(before, box.State(), pending[..i]);
    if r.Ok? || r == Err(OutcomeUnknown) { OneMoreClassified(box.State(), pending, i); }
    if Quiet(others) && Progress(start, before, reg, pending, i, lookup) {
      StillOut(start, before, reg, pending, i, lookup);
      NextDone(start, before, box.State(), reg, pending, i, lookup, r);
    }
  }

  method ReconcileOne(box: Box, reg: Registry, o: nat, lookup: Answer, others: nat -> seq<Event>)
    returns (r: Result<Operation>, ghost steps: seq<Move>)
    requires Inv(box.State())
    modifies box
    ensures box.State() == Run(old(box.State()), Events(steps)) && Concludings(Mine(steps))
    ensures Inv(box.State()) && Leads(old(box.State()), box.State())
    ensures r.Ok? || r == Err(OutcomeUnknown) ==> Classified(box.State(), o)
    ensures Quiet(others) && o < |old(box.operations)| && Out(old(box.operations)[o].state) ==>
      NextAlone(old(box.State()), box.State(), reg, o, lookup, r)
  {
    ghost var before := box.State();
    var shown;
    r, shown, steps := Reconcile(box, reg, o, lookup, others);
    if Quiet(others) && o < |before.db.ops| && Out(before.db.ops[o].state) { Reconciled(before, box.State(), reg, o, lookup, r); }
  }

  method Snapshot(box: Box) returns (pending: seq<nat>)
    ensures Lists(box.State(), pending)
  {
    pending := [];
    for o := 0 to |box.operations|
      invariant Ascends(pending)
      invariant forall p: nat :: p in pending <==> p < o && Uncertain(box.operations[p])
    {
      if Uncertain(box.operations[o]) {
        assert forall j | 0 <= j < |pending| :: pending[j] in pending;
        pending := pending + [o];
      }
    }
  }

  lemma SnapshotClassified(w: World, v: World, pending: seq<nat>)
    requires Lists(w, pending) && AllClassified(v, pending)
    ensures forall o: nat | o < |w.db.ops| && Uncertain(w.db.ops[o]) :: Classified(v, o)
  {
    forall o: nat | o < |w.db.ops| && Uncertain(w.db.ops[o]) ensures Classified(v, o) {
      assert o in pending;
      var j :| 0 <= j < |pending| && pending[j] == o;
    }
  }

  /** Takes a snapshot of the operations with an uncertain outcome and reconciles each in turn. A return without
      error means that every operation in the snapshot has been classified: none is DISPATCHED any more. The call
      itself sends nothing, whatever the others do meanwhile. */
  method ReconcilePending(box: Box, reg: Registry, lookup: nat -> Answer, others: nat -> nat -> seq<Event>)
    returns (r: Result<()>, ghost trace: seq<Move>)
    requires Inv(box.State())
    modifies box
    ensures box.State() == Run(old(box.State()), Events(trace))
    ensures Concludings(Mine(trace))
    ensures r.Ok? ==> forall o: nat | o < |old(box.operations)| && Uncertain(old(box.operations)[o]) :: Classified(box.State(), o)
    ensures (forall k :: Quiet(others(k))) ==> Recovers(old(box.State()), box.State(), reg, lookup, r)
  {
    ghost var start := box.State();
    trace := [];
    assert Events(trace) == [];
    var pending := Snapshot(box);
    for i := 0 to |pending|
      invariant box.State() == Run(start, Events(trace)) && Concludings(Mine(trace)) && Inv(box.State())
      invariant AllClassified(box.State(), pending[..i])
      invariant (forall k :: Quiet(others(k))) ==> Progress(start, box.State(), reg, pending, i, lookup)
    {
      var outcome: Result<Operation>;
      outcome, trace := ReconcileNext(box, reg, pending, i, lookup, others(i), start, trace);
      if outcome.Err? && outcome.error != OutcomeUnknown { return Err(outcome.error), trace; }
    }
    assert pending[..|pending|] == pending;
    SnapshotClassified(start, box.State(), pending);
    if forall k :: Quiet(others(k)) { RecoversAll(start, box.State(), reg, pending, lookup); }
    return Ok(()), trace;
  }
}
