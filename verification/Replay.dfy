/** Re-running the same work on later attempts of a task: the same keys lead to the same effect slots, an effect that
    is out is never prepared anew, and a changed intent is refused. */
module Replay {
  import opened Domain
  import opened Execution
  import opened Operations
  import opened Lockstep
  import opened Transactions
  import opened World
  import opened Runs

  predicate HoldsKey(slots: seq<EffectSlot>, s: nat, t: nat, key: string) {
    s < |slots| && slots[s].task == t && slots[s].key == key
  }

  lemma SlotOfKey(db: Db, s: nat, t: nat, key: string)
    requires SlotsInv(db) && HoldsKey(db.slots, s, t, key)
    ensures SlotId(db.slots, t, key) == s
  {
    var found := FindSlot(db.slots, t, key);
    assert found.Some?;
  }

  /** Once a task's key is bound to a slot it is bound to that slot, with that intent, in every later world. */
  lemma SlotIsForever(w: World, events: seq<Event>, s: nat, t: nat, key: string)
    requires Inv(w) && HoldsKey(w.db.slots, s, t, key)
    ensures s < |Run(w, events).db.slots| && Run(w, events).db.slots[s] == w.db.slots[s]
    ensures SlotId(Run(w, events).db.slots, t, key) == s
  {
    RunKeepsInv(w, events);
    SlotOfKey(Run(w, events).db, s, t, key);
  }

  /** The slot already bound to the request's key carries this provider, descriptor and intent. */
  predicate SameIntent(slot: EffectSlot, p: Provider, r: PrepareRequest) {
    slot.provider == p.name && slot.descriptor == r.descriptor && slot.fingerprint == FingerprintOf(p, r.descriptor, r.canonical)
  }

  /** Under an existing key a changed intent never gets anywhere, and if nothing else is wrong with the call the
      answer says why. */
  lemma ChangedIntentRefused(w: World, reg: Registry, r: PrepareRequest, d: Decision, began: int, s: nat)
    requires Inv(w) && r.attempt < |w.db.exec.attempts| && r.provider in reg
    requires HoldsKey(w.db.slots, s, w.db.exec.attempts[r.attempt].task, r.key) && !SameIntent(w.db.slots[s], reg[r.provider], r)
    ensures Tx(w, Prepares(reg, r, d, began)).Err? && Step(w, Prepares(reg, r, d, began)) == w
    ensures
      var t := w.db.exec.attempts[r.attempt].task;
      PrepareAdmitted(reg, r, d, began) && Guard(w.db.exec, r.attempt, w.now) == Ok(t)
        && Authorised(w.db.exec.tasks[t].spec, reg[r.provider])
      ==> Tx(w, Prepares(reg, r, d, began)) == Err(IntentConflict)
  {
    SlotOfKey(w.db, s, w.db.exec.attempts[r.attempt].task, r.key);
  }

  lemma PrepareBinds(reg: Registry, x: Db, r: PrepareRequest, d: Decision, began: int, now: int)
    requires DbInv(x) && PrepareTx(reg, x, r, d, began, now).Ok?
    ensures r.attempt < |x.exec.attempts| && r.provider in reg
    ensures
      var t, y := x.exec.attempts[r.attempt].task, PrepareTx(reg, x, r, d, began, now).value;
      var s := SlotId(x.slots, t, r.key);
      && HoldsKey(y.slots, s, t, r.key) && SameIntent(y.slots[s], reg[r.provider], r)
      && Latest(y.ops, s).Some?
  {
    var t := Guard(x.exec, r.attempt, now).value;
    var p := reg[r.provider];
    var resolved := x.(slots := ResolveSlot(x.slots, t, r, p).value);
    var s := SlotId(x.slots, t, r.key);
    PrepareInSlotShape(resolved, p, s, t, r, d, now);
    PrepareKeepsSlots(resolved, p, s, t, r, d, now);
  }

  lemma PrepareKeepsSlots(x: Db, p: Provider, s: nat, t: nat, r: PrepareRequest, d: Decision, now: int)
    requires s < |x.slots| && t < |x.exec.tasks| && r.attempt < |x.exec.attempts|
    requires PrepareInSlot(x, p, s, t, r, d, now).Ok?
    ensures PrepareInSlot(x, p, s, t, r, d, now).value.slots == x.slots
  {
  }

  /** Two successful prepare calls for one task and key, however far apart and through whatever attempts, use one
      slot and ask for one intent. */
  lemma ReplayFindsSlot(w: World, e: Event, events: seq<Event>, f: Event)
    requires Inv(w) && e.Prepares? && f.Prepares? && Tx(w, e).Ok? && Tx(Run(Step(w, e), events), f).Ok?
    requires e.request.key == f.request.key
    requires
      var v := Run(Step(w, e), events);
      && e.request.attempt < |w.db.exec.attempts| && f.request.attempt < |v.db.exec.attempts|
      && w.db.exec.attempts[e.request.attempt].task == v.db.exec.attempts[f.request.attempt].task
    ensures
      var t, v := w.db.exec.attempts[e.request.attempt].task, Run(Step(w, e), events);
      && SlotId(w.db.slots, t, e.request.key) == SlotId(v.db.slots, t, f.request.key)
      && e.request.provider in e.registry && f.request.provider in f.registry
      && FingerprintOf(e.registry[e.request.provider], e.request.descriptor, e.request.canonical)
         == FingerprintOf(f.registry[f.request.provider], f.request.descriptor, f.request.canonical)
  {
    var t, u, v := w.db.exec.attempts[e.request.attempt].task, Step(w, e), Run(Step(w, e), events);
    var s := SlotId(w.db.slots, t, e.request.key);
    BoundAfter(w, e);
    StepKeepsInv(w, e);
    SlotIsForever(u, events, s, t, e.request.key);
    RunKeepsInv(u, events);
    BoundBefore(v, f, s);
  }

  lemma BoundAfter(w: World, e: Event)
    requires Inv(w) && e.Prepares? && Tx(w, e).Ok?
    ensures e.request.attempt < |w.db.exec.attempts| && e.request.provider in e.registry
    ensures
      var t, slots := w.db.exec.attempts[e.request.attempt].task, Step(w, e).db.slots;
      var s := SlotId(w.db.slots, t, e.request.key);
      HoldsKey(slots, s, t, e.request.key) && SameIntent(slots[s], e.registry[e.request.provider], e.request)
  {
    PrepareBinds(e.registry, w.db, e.request, e.decision, e.began, w.now);
  }

  lemma BoundBefore(w: World, e: Event, s: nat)
    requires Inv(w) && e.Prepares? && Tx(w, e).Ok? && e.request.attempt < |w.db.exec.attempts|
    requires HoldsKey(w.db.slots, s, w.db.exec.attempts[e.request.attempt].task, e.request.key)
    ensures SlotId(w.db.slots, w.db.exec.attempts[e.request.attempt].task, e.request.key) == s
    ensures e.request.provider in e.registry && SameIntent(w.db.slots[s], e.registry[e.request.provider], e.request)
  {
    SlotOfKey(w.db, s, w.db.exec.attempts[e.request.attempt].task, e.request.key);
  }

  /** An operation of slot s has been committed for dispatch and is not known to be without effect. */
  ghost predicate EffectOpen(db: Db, s: nat, o: nat) {
    o < |db.ops| && db.ops[o].slot == s && db.ops[o].dispatch.Some? && db.ops[o].state != ConfirmedNoEffect
  }

  lemma OpenIsLatest(db: Db, s: nat, o: nat)
    requires DbInv(db) && EffectOpen(db, s, o)
    ensures Latest(db.ops, s) == Some(o)
    ensures db.ops[o].state == Dispatched || db.ops[o].state == OutcomeUncertain || db.ops[o].state == ConfirmedEffect
  {
    LatestIsNewest(db, s);
    assert OpOk(db, o);
  }

  lemma PrepareFindsOpen(reg: Registry, x: Db, r: PrepareRequest, d: Decision, began: int, now: int, o: nat)
    requires DbInv(x) && PrepareTx(reg, x, r, d, began, now).Ok? && r.attempt < |x.exec.attempts|
    requires EffectOpen(x, SlotId(x.slots, x.exec.attempts[r.attempt].task, r.key), o)
    ensures PrepareTx(reg, x, r, d, began, now) == Ok(x)
  {
    var t := Guard(x.exec, r.attempt, now).value;
    var p := reg[r.provider];
    var s := SlotId(x.slots, t, r.key);
    assert OpOk(x, o);
    OpenIsLatest(x, s, o);
    assert ResolveSlot(x.slots, t, r, p) == Ok(x.slots);
    PrepareInSlotShape(x, p, s, t, r, d, now);
  }

  lemma PrepareAddsInSlot(reg: Registry, x: Db, r: PrepareRequest, d: Decision, began: int, now: int, q: nat)
    requires DbInv(x) && PrepareTx(reg, x, r, d, began, now).Ok?
    requires |x.ops| <= q < |PrepareTx(reg, x, r, d, began, now).value.ops|
    ensures r.attempt < |x.exec.attempts|
    ensures PrepareTx(reg, x, r, d, began, now).value.ops[q].slot == SlotId(x.slots, x.exec.attempts[r.attempt].task, r.key)
  {
    var t := Guard(x.exec, r.attempt, now).value;
    var p := reg[r.provider];
    var s := SlotId(x.slots, t, r.key);
    PrepareInSlotShape(x.(slots := ResolveSlot(x.slots, t, r, p).value), p, s, t, r, d, now);
  }

  lemma OnlyPreparesAdd(w: World, e: Event)
    requires Tx(w, e).Ok? && !e.Prepares?
    ensures |Tx(w, e).value.ops| == |w.db.ops|
  {
  }

  /** While an effect of a slot is open, no event of any process adds an operation to that slot: a replayed prepare
      is answered with the open operation and the world stays as it is. */
  lemma NoSecondOperation(w: World, e: Event, s: nat, o: nat, q: nat)
    requires Inv(w) && EffectOpen(w.db, s, o)
    requires |w.db.ops| <= q < |Step(w, e).db.ops|
    ensures Step(w, e).db.ops[q].slot != s
  {
    if e.Prepares? && Tx(w, e).Ok? {
      PrepareAddsInSlot(e.registry, w.db, e.request, e.decision, e.began, w.now, q);
      if Step(w, e).db.ops[q].slot == s {
        PrepareFindsOpen(e.registry, w.db, e.request, e.decision, e.began, w.now, o);
        assert false;
      }
    } else if Tx(w, e).Ok? {
      OnlyPreparesAdd(w, e);
      assert false;
    } else {
      assert false;
    }
  }

  lemma ReplayAnswersWithOpen(w: World, reg: Registry, r: PrepareRequest, d: Decision, began: int, o: nat)
    requires Inv(w) && r.attempt < |w.db.exec.attempts|
    requires EffectOpen(w.db, SlotId(w.db.slots, w.db.exec.attempts[r.attempt].task, r.key), o)
    ensures Step(w, Prepares(reg, r, d, began)) == w
    ensures Latest(w.db.ops, SlotId(w.db.slots, w.db.exec.attempts[r.attempt].task, r.key)) == Some(o)
  {
    OpenIsLatest(w.db, SlotId(w.db.slots, w.db.exec.attempts[r.attempt].task, r.key), o);
    if Tx(w, Prepares(reg, r, d, began)).Ok? { PrepareFindsOpen(reg, w.db, r, d, began, w.now, o); }
  }
}
