/** Invariants of every run of the Box, whatever the interleaving. */
module Runs {
  import opened Domain
  import opened Execution
  import opened Operations
  import opened Lockstep
  import opened Transactions
  import opened World

  // ----- only a commit dispatches -----

  /** No operation becomes dispatched between x and y. */
  ghost predicate Undispatching(x: Db, y: Db) {
    forall o: nat | o < |y.ops| && y.ops[o].dispatch.Some? :: o < |x.ops| && x.ops[o].dispatch.Some?
  }

  lemma ClearedKeepsDispatch(ops: seq<Operation>, s: nat, o: nat)
    requires o < |ops|
    ensures |Cleared(ops, s)| == |ops| && Cleared(ops, s)[o].dispatch == ops[o].dispatch
  {
  }

  lemma AddedUndispatched(x: Db, y: Db, s: nat)
    requires |y.ops| == |x.ops| + 1 && y.ops[..|x.ops|] == Cleared(x.ops, s) && y.ops[|x.ops|].dispatch.None?
    ensures Undispatching(x, y)
  {
    forall o: nat | o < |y.ops| && y.ops[o].dispatch.Some? ensures o < |x.ops| && x.ops[o].dispatch.Some? {
      if o < |x.ops| {
        assert y.ops[o] == y.ops[..|x.ops|][o];
        ClearedKeepsDispatch(x.ops, s, o);
      }
    }
  }

  lemma PrepareUndispatching(reg: Registry, x: Db, r: PrepareRequest, d: Decision, began: int, now: int)
    requires DbInv(x) && PrepareTx(reg, x, r, d, began, now).Ok?
    ensures Undispatching(x, PrepareTx(reg, x, r, d, began, now).value)
  {
    var t := Guard(x.exec, r.attempt, now).value;
    var p := reg[r.provider];
    var resolved := x.(slots := ResolveSlot(x.slots, t, r, p).value);
    var s := SlotId(x.slots, t, r.key);
    var y := PrepareTx(reg, x, r, d, began, now).value;
    PrepareInSlotShape(resolved, p, s, t, r, d, now);
    if !Answerable(resolved, s, r, d) { AddedUndispatched(x, y, s); }
  }

  lemma RecordUndispatching(x: Db, o: nat, answer: Answer)
    requires RecordTx(x, o, answer).Ok?
    ensures Undispatching(x, RecordTx(x, o, answer).value)
    ensures |RecordTx(x, o, answer).value.ops| == |x.ops|
  {
  }

  lemma OnlyCommitsDispatch(w: World, e: Event)
    requires DbInv(w.db) && Tx(w, e).Ok? && !e.Commits?
    ensures Undispatching(w.db, Tx(w, e).value)
  {
    match e
    case Prepares(reg, r, d, began) => PrepareUndispatching(reg, w.db, r, d, began, w.now);
    case Records(i) =>
      if i < |w.calls| && w.calls[i].phase.Answered? {
        RecordUndispatching(w.db, w.calls[i].operation, w.calls[i].phase.answer);
      }
    case Concludes(o, answer) => RecordUndispatching(w.db, o, answer);
    case _ =>
  }

  lemma CommitDispatchesOne(reg: Registry, x: Db, o: nat, a: nat, d: Decision, began: int, now: int)
    requires CommitTx(reg, x, o, a, d, began, now).Ok?
    ensures o < |x.ops| && x.ops[o].dispatch.None?
    ensures CommitTx(reg, x, o, a, d, began, now).value.ops
         == x.ops[o := x.ops[o].(state := Dispatched, dispatch := Some(d))]
  {
  }

  // ----- the calls under way -----

  lemma StepDispatched(w: World, e: Event)
    requires DbInv(w.db)
    ensures DbAdvances(w.db, w.now, Step(w, e).db, w.now) ==>
      forall o: nat | o < |Step(w, e).db.ops| ::
        Step(w, e).db.ops[o].dispatch.Some? <==>
          (o < |w.db.ops| && w.db.ops[o].dispatch.Some?) || (e.Commits? && Tx(w, e).Ok? && o == e.operation)
  {
    var v := Step(w, e);
    if Tx(w, e).Ok? && DbAdvances(w.db, w.now, v.db, w.now) {
      if e.Commits? {
        CommitDispatchesOne(e.registry, w.db, e.operation, e.attempt, e.decision, e.began, w.now);
      } else {
        OnlyCommitsDispatch(w, e);
      }
      forall o: nat | o < |w.db.ops| && w.db.ops[o].dispatch.Some? ensures v.db.ops[o].dispatch.Some? {
        assert OpAdvances(w.db.ops[o], v.db.ops[o]);
      }
    }
  }

  /** What the calls invariant needs to know of a step. */
  ghost predicate Follows(w: World, v: World, e: Event) {
    && v.calls == Calls(w, e)
    && v.sends == (if e.Sends? && Ready(w, e.call) then w.sends + [w.calls[e.call].operation] else w.sends)
    && |w.db.ops| <= |v.db.ops|
    && (forall o: nat | o < |v.db.ops| ::
          v.db.ops[o].dispatch.Some? <==>
            (o < |w.db.ops| && w.db.ops[o].dispatch.Some?) || (e.Commits? && Tx(w, e).Ok? && o == e.operation))
    && (e.Commits? && Tx(w, e).Ok? ==> e.operation < |w.db.ops| && w.db.ops[e.operation].dispatch.None?)
  }

  lemma StepFollows(w: World, e: Event)
    requires DataInv(w.db)
    ensures Follows(w, Step(w, e), e)
  {
    if Tx(w, e).Ok? {
      TxKeepsData(w, e);
      if e.Commits? { CommitDispatchesOne(e.registry, w.db, e.operation, e.attempt, e.decision, e.began, w.now); }
    } else {
      StillAdvances(w.db, w.now, w.now);
    }
    StepDispatched(w, e);
  }

  lemma CallKept(w: World, v: World, e: Event, i: nat)
    requires CallsInv(w) && Follows(w, v, e) && i < |w.calls|
    ensures i < |v.calls| && v.calls[i].operation == w.calls[i].operation && CallOk(v, i)
  {
    assert CallOk(w, i);
    var o := w.calls[i].operation;
    if e.Sends? && Ready(w, e.call) {
      assert v.sends == w.sends + [w.calls[e.call].operation];
      assert o in v.sends <==> o in w.sends || o == w.calls[e.call].operation;
      assert o == w.calls[e.call].operation <==> i == e.call;
    }
  }

  /** A commit's own call has not been sent: its operation had not been dispatched. */
  lemma NewCallOk(w: World, v: World, e: Event, i: nat)
    requires CallsInv(w) && Follows(w, v, e) && |w.calls| <= i < |v.calls|
    ensures CallOk(v, i)
  {
    assert v.calls[i] == Call(e.operation, Committed, false);
    forall k | 0 <= k < |w.sends| ensures w.sends[k] != e.operation {}
  }

  lemma FollowsKeepsCalls(w: World, v: World, e: Event)
    requires CallsInv(w) && Follows(w, v, e)
    ensures forall i | 0 <= i < |v.calls| :: CallOk(v, i)
    ensures forall i, j | 0 <= i < j < |v.calls| :: v.calls[i].operation != v.calls[j].operation
  {
    forall i: nat | i < |v.calls| ensures CallOk(v, i) {
      if i < |w.calls| { CallKept(w, v, e, i); } else { NewCallOk(w, v, e, i); }
    }
    forall i, j | 0 <= i < j < |v.calls| ensures v.calls[i].operation != v.calls[j].operation {
      CallKept(w, v, e, i);
      assert CallOk(w, i);
      if j < |w.calls| { CallKept(w, v, e, j); }
    }
  }

  lemma FollowsKeepsSends(w: World, v: World, e: Event)
    requires CallsInv(w) && Follows(w, v, e)
    ensures forall k | 0 <= k < |v.sends| :: v.sends[k] < |v.db.ops| && v.db.ops[v.sends[k]].dispatch.Some?
    ensures forall j, k | 0 <= j < k < |v.sends| :: v.sends[j] != v.sends[k]
    ensures forall o: nat | o < |v.db.ops| && v.db.ops[o].dispatch.Some? :: HasCall(v, o)
  {
    if e.Sends? && Ready(w, e.call) { assert CallOk(w, e.call); }
    forall o: nat | o < |v.db.ops| && v.db.ops[o].dispatch.Some? ensures HasCall(v, o) {
      if o < |w.db.ops| && w.db.ops[o].dispatch.Some? {
        assert HasCall(w, o);
        var i :| MadeBy(w, o, i);
        assert MadeBy(v, o, i);
      } else {
        assert MadeBy(v, o, |w.calls|);
      }
    }
  }

  lemma StepKeepsData(w: World, e: Event)
    requires DataInv(w.db)
    ensures DataInv(Step(w, e).db) && DbAdvances(w.db, w.now, Step(w, e).db, Step(w, e).now)
    ensures w.db.ledger.limits <= Step(w, e).db.ledger.limits
  {
    var v := Step(w, e);
    if Tx(w, e).Ok? { TxKeepsData(w, e); } else { StillAdvances(w.db, w.now, w.now); }
    StillAdvances(v.db, w.now, v.now);
    DbAdvancesTransitive(w.db, w.now, v.db, w.now, v.db, v.now);
  }

  lemma StepKeepsCalls(w: World, e: Event)
    requires Inv(w)
    ensures CallsInv(Step(w, e)) && w.sends <= Step(w, e).sends && |w.calls| <= |Step(w, e).calls|
    ensures forall i | 0 <= i < |w.calls| :: Step(w, e).calls[i].operation == w.calls[i].operation
  {
    StepFollows(w, e);
    FollowsKeepsCalls(w, Step(w, e), e);
    FollowsKeepsSends(w, Step(w, e), e);
  }

  lemma StepKeepsInv(w: World, e: Event)
    requires Inv(w)
    ensures Inv(Step(w, e)) && WorldAdvances(w, Step(w, e))
  {
    StepKeepsData(w, e);
    StepKeepsCalls(w, e);
  }

  lemma WorldAdvancesTransitive(u: World, v: World, w: World)
    requires WorldAdvances(u, v) && WorldAdvances(v, w)
    ensures WorldAdvances(u, w)
  {
    DbAdvancesTransitive(u.db, u.now, v.db, v.now, w.db, w.now);
  }

  lemma StartInv(now: int)
    ensures Inv(Boot(now))
  {
  }

  /** Every reachable world satisfies the invariant, and lies ahead of every world before it. */
  lemma {:induction false} RunKeepsInv(w: World, events: seq<Event>)
    requires Inv(w)
    ensures Inv(Run(w, events)) && WorldAdvances(w, Run(w, events))
  {
    if events == [] {
      StillAdvances(w.db, w.now, w.now);
    } else {
      var before := events[..|events| - 1];
      RunKeepsInv(w, before);
      StepKeepsInv(Run(w, before), events[|events| - 1]);
      WorldAdvancesTransitive(w, Run(w, before), Run(w, events));
    }
  }

  lemma {:induction false} RunConcat(w: World, a: seq<Event>, b: seq<Event>)
    ensures Run(w, a + b) == Run(Run(w, a), b)
  {
    if b == [] {
      assert a + b == a;
    } else {
      var before := b[..|b| - 1];
      RunConcat(w, a, before);
      assert (a + b)[..|a + b| - 1] == a + before;
    }
  }

  lemma RunSplits(w: World, events: seq<Event>, k: nat)
    requires k <= |events|
    ensures Run(w, events) == Run(Run(w, events[..k]), events[k..])
  {
    assert events[..k] + events[k..] == events;
    RunConcat(w, events[..k], events[k..]);
  }

  lemma RunSteps(w: World, events: seq<Event>, k: nat)
    requires k < |events|
    ensures Run(w, events[..k + 1]) == Step(Run(w, events[..k]), events[k])
  {
    assert events[..k + 1][..k] == events[..k];
  }

  /** The world after k events of a run lies between its start and its end. */
  lemma RunPassesThrough(w: World, events: seq<Event>, k: nat)
    requires Inv(w) && k <= |events|
    ensures Inv(Run(w, events[..k])) && WorldAdvances(Run(w, events[..k]), Run(w, events))
  {
    var middle, rest := Run(w, events[..k]), events[k..];
    RunSplits(w, events, k);
    RunKeepsInv(w, events[..k]);
    RunKeepsInv(middle, rest);
  }
}
