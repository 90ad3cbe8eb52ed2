/** What the boundary promises about external effects, over every run: at most one provider call per operation, when
    a second call on the same slot is justified, who authorised each dispatch, and which outcome stands. */
module Effects {
  import opened Domain
  import opened Strings
  import opened Resources
  import opened Approvals
  import opened Operations
  import opened Lockstep
  import opened Transactions
  import opened World
  import opened Runs
  import opened Terms

  // ----- at most one call per operation -----

  lemma {:induction false} NoRepeats(s: seq<nat>, v: nat)
    requires forall j, k | 0 <= j < k < |s| :: s[j] != s[k]
    ensures multiset(s)[v] <= 1
  {
    if s != [] {
      var n := |s| - 1;
      NoRepeats(s[..n], v);
      assert s == s[..n] + [s[n]];
      if s[n] == v { assert v !in s[..n]; }
    }
  }

  /** Over any interleaving of any processes, crashes included, an operation reaches its provider at most once, and
      only after a transaction has committed it as dispatched. */
  lemma AtMostOnce(now: int, events: seq<Event>, o: nat)
    ensures
      var w := Run(Boot(now), events);
      && multiset(w.sends)[o] <= 1
      && (o in w.sends ==> o < |w.db.ops| && w.db.ops[o].dispatch.Some?)
  {
    StartInv(now);
    RunKeepsInv(Boot(now), events);
    NoRepeats(Run(Boot(now), events).sends, o);
  }

  // ----- one live operation per slot -----

  /** Of two operations of one slot the earlier is spent: cancelled if it was never dispatched, otherwise settled
      without effect. So a slot never holds two operations that have, or may yet have, an effect. */
  lemma EarlierSpent(w: World, p: nat, q: nat)
    requires Inv(w) && p < q < |w.db.ops| && w.db.ops[p].slot == w.db.ops[q].slot
    ensures w.db.ops[p].sequence < w.db.ops[q].sequence
    ensures w.db.ops[p].state == (if w.db.ops[p].dispatch.Some? then ConfirmedNoEffect else OperationCancelled)
  {
    assert Succession(w.db.ops[p], w.db.ops[q]);
    assert OpOk(w.db, p);
  }

  lemma OneEffectPerSlot(now: int, events: seq<Event>, p: nat, q: nat)
    requires
      var db := Run(Boot(now), events).db;
      && p < |db.ops| && q < |db.ops| && db.ops[p].slot == db.ops[q].slot
      && db.ops[p].state == ConfirmedEffect
    ensures
      var db := Run(Boot(now), events).db;
      q == p || (q < p && Spent(db.ops[q].state))
  {
    var w := Run(Boot(now), events);
    StartInv(now);
    RunKeepsInv(Boot(now), events);
    if p < q { EarlierSpent(w, p, q); } else if q < p { EarlierSpent(w, q, p); }
  }

  // ----- when a further call on a slot is justified -----

  /** Every other operation of this slot that reached the provider has settled without effect. */
  ghost predicate Justified(w: World, o: nat)
    requires o < |w.db.ops|
  {
    forall p: nat | p in w.sends && p != o && p < |w.db.ops| && w.db.ops[p].slot == w.db.ops[o].slot ::
      w.db.ops[p].state == ConfirmedNoEffect
  }

  /** A dispatcher that stalled between its commit and its provider call, while its slot's newest operation went out
      and is not known to be without effect. */
  ghost predicate Overtaken(w: World, o: nat)
    requires o < |w.db.ops|
  {
    var latest := Latest(w.db.ops, w.db.ops[o].slot);
    && latest.Some? && latest.value != o
    && latest.value in w.sends && w.db.ops[latest.value].state != ConfirmedNoEffect
  }

  /** The exact condition: a call about to be made is justified unless its dispatcher was overtaken. */
  lemma JustifiedUnlessOvertaken(w: World, i: nat)
    requires Inv(w) && Ready(w, i)
    ensures w.calls[i].operation < |w.db.ops|
    ensures Justified(w, w.calls[i].operation) <==> !Overtaken(w, w.calls[i].operation)
  {
    var o := w.calls[i].operation;
    assert CallOk(w, i);
    var s := w.db.ops[o].slot;
    LatestIsNewest(w.db, s);
    var n := Latest(w.db.ops, s).value;
    forall p: nat | p in w.sends && p != n && p < |w.db.ops| && w.db.ops[p].slot == s
      ensures w.db.ops[p].state == ConfirmedNoEffect
    {
      assert p < n;
      EarlierSpent(w, p, n);
    }
  }

  /** A dispatcher whose own operation is not settled without effect in the very instant of its provider call cannot have
      been overtaken. Looking earlier is not enough: it may stall again after that. */
  lemma RecheckSuffices(w: World, i: nat)
    requires Inv(w) && Ready(w, i)
    requires w.calls[i].operation < |w.db.ops| && w.db.ops[w.calls[i].operation].state != ConfirmedNoEffect
    ensures Justified(w, w.calls[i].operation)
  {
    var o := w.calls[i].operation;
    assert CallOk(w, i);
    JustifiedUnlessOvertaken(w, i);
    if Overtaken(w, o) {
      LatestIsNewest(w.db, w.db.ops[o].slot);
      EarlierSpent(w, o, Latest(w.db.ops, w.db.ops[o].slot).value);
    }
  }

  /** Event m of the run is the provider call that made entry k of the log. */
  ghost predicate Moment(w: World, events: seq<Event>, sends: seq<nat>, k: nat, m: nat) {
    && m < |events| && events[m].Sends? && k < |sends|
    && var before := Run(w, events[..m]);
    && Ready(before, events[m].call)
    && before.calls[events[m].call].operation == sends[k]
    && before.sends == sends[..k]
  }

  lemma {:induction false} FindMoment(w: World, events: seq<Event>, k: nat) returns (m: nat)
    requires Inv(w) && |w.sends| <= k < |Run(w, events).sends|
    ensures Moment(w, events, Run(w, events).sends, k, m)
  {
    var n := |events| - 1;
    var before, sends := Run(w, events[..n]), Run(w, events).sends;
    if k < |before.sends| {
      m := FindMoment(w, events[..n], k);
      MomentExtends(w, events, before.sends, sends, k, m);
    } else {
      m := n;
    }
  }

  lemma MomentExtends(w: World, events: seq<Event>, a: seq<nat>, b: seq<nat>, k: nat, m: nat)
    requires events != [] && Moment(w, events[..|events| - 1], a, k, m) && a <= b
    ensures Moment(w, events, b, k, m)
  {
    assert events[..|events| - 1][..m] == events[..m];
    assert a[..k] == b[..k];
  }

  /** Over every run: when a slot's provider is called again, each operation called before on that slot had settled
      without effect by then, or else the later caller's own operation had and its dispatcher was overtaken. */
  lemma RepeatedCallExplained(now: int, events: seq<Event>, j: nat, k: nat) returns (m: nat)
    requires
      var w := Run(Boot(now), events);
      && j < k < |w.sends| && w.sends[j] < |w.db.ops| && w.sends[k] < |w.db.ops|
      && w.db.ops[w.sends[j]].slot == w.db.ops[w.sends[k]].slot
    ensures Moment(Boot(now), events, Run(Boot(now), events).sends, k, m)
    ensures
      var sends, before := Run(Boot(now), events).sends, Run(Boot(now), events[..m]);
      && sends[j] < |before.db.ops| && sends[k] < |before.db.ops|
      && (before.db.ops[sends[j]].state == ConfirmedNoEffect
          || (before.db.ops[sends[k]].state == ConfirmedNoEffect && Overtaken(before, sends[k])))
  {
    var w := Run(Boot(now), events);
    StartInv(now);
    m := FindMoment(Boot(now), events, k);
    RunPassesThrough(Boot(now), events, m);
    RunKeepsInv(Boot(now), events);
    var before := Run(Boot(now), events[..m]);
    var o, p := w.sends[k], w.sends[j];
    assert CallOk(before, events[m].call);
    assert before.sends[j] == p;
    assert OpAdvances(before.db.ops[o], w.db.ops[o]) && OpAdvances(before.db.ops[p], w.db.ops[p]);
    JustifiedUnlessOvertaken(before, events[m].call);
    if before.db.ops[p].state != ConfirmedNoEffect {
      assert !Justified(before, o);
      if before.db.ops[o].state != ConfirmedNoEffect { RecheckSuffices(before, events[m].call); }
    }
  }

  // ----- who authorised a dispatch -----

  /** Every principal the caller named, and every one the dispatch-time policy named, signed the operation's own
      approval request. */
  ghost predicate SignedOff(db: Db, o: nat, d: Decision)
    requires o < |db.ops|
  {
    forall p | p in db.ops[o].caller || (d.outcome == RequireApproval && p in d.approvers) ::
      && db.ops[o].approval.Some? && db.ops[o].approval.value < |db.approvals|
      && var a := db.approvals[db.ops[o].approval.value];
      && a.subject == ExternalOperation(o) && p in a.verdicts && a.verdicts[p] == Approve
  }

  /** The state of the database in which attempt a may turn operation o into a dispatched one. */
  ghost predicate MayDispatch(reg: Registry, x: Db, o: nat, a: nat, d: Decision, began: int, now: int) {
    && o < |x.ops| && x.ops[o].state == Prepared && x.ops[o].attempt == a
    && a < |x.exec.attempts| && x.exec.attempts[a].lease == Active && now < x.exec.attempts[a].expires
    && x.exec.attempts[a].task == x.ops[o].task < |x.exec.tasks|
    && var task := x.exec.tasks[x.ops[o].task];
    && task.state == Executing && task.current == Some(a) && task.fence == x.exec.attempts[a].fence
    && x.ops[o].provider in reg && Covers(task.spec, reg[x.ops[o].provider])
    && Fresh(d, began) && Permitted(d) && d.profile == Some(x.profile)
    && SignedOff(x, o, d)
    && (x.ops[o].approval.Some? ==>
          x.ops[o].approval.value < |x.approvals| && x.approvals[x.ops[o].approval.value].state == Approved)
  }

  lemma CommitAuthorised(reg: Registry, x: Db, o: nat, a: nat, d: Decision, began: int, now: int)
    requires DbInv(x) && CommitTx(reg, x, o, a, d, began, now).Ok?
    ensures MayDispatch(reg, x, o, a, d, began, now)
  {
    assert OpOk(x, o);
    TermsMean(x.exec.tasks[x.ops[o].task].spec, reg[x.ops[o].provider], d, began, x.ops[o].caller, "", "");
    var approval := x.ops[o].approval;
    if approval.Some? {
      var row := x.approvals[approval.value];
      assert ApprovalOk(row);
      assert row.required == Required(d, x.ops[o].caller) == Approvers(row);
    }
  }

  /** Event k of the run is the commit that dispatched operation o. */
  ghost predicate DispatchedAt(w: World, events: seq<Event>, o: nat, k: nat) {
    && k < |events| && events[k].Commits? && events[k].operation == o
    && Tx(Run(w, events[..k]), events[k]).Ok?
  }

  lemma CommitRecords(w: World, e: Event)
    requires e.Commits? && Tx(w, e).Ok?
    ensures e.operation < |Step(w, e).db.ops| && Step(w, e).db.ops[e.operation].dispatch == Some(e.decision)
  {
    CommitDispatchesOne(e.registry, w.db, e.operation, e.attempt, e.decision, e.began, w.now);
  }

  lemma DispatchedExtends(w: World, events: seq<Event>, o: nat, k: nat)
    requires events != [] && DispatchedAt(w, events[..|events| - 1], o, k)
    ensures DispatchedAt(w, events, o, k) && events[..|events| - 1][k] == events[k]
  {
    assert events[..|events| - 1][..k] == events[..k];
  }

  lemma DispatchKept(w: World, e: Event, o: nat)
    requires Inv(w) && o < |w.db.ops| && w.db.ops[o].dispatch.Some?
    ensures o < |Step(w, e).db.ops| && Step(w, e).db.ops[o].dispatch == w.db.ops[o].dispatch
  {
    StepKeepsInv(w, e);
    assert OpAdvances(w.db.ops[o], Step(w, e).db.ops[o]);
  }

  lemma {:induction false} FindCommit(w: World, events: seq<Event>, o: nat) returns (k: nat)
    requires Inv(w) && (o < |w.db.ops| ==> w.db.ops[o].dispatch.None?)
    requires o < |Run(w, events).db.ops| && Run(w, events).db.ops[o].dispatch.Some?
    ensures DispatchedAt(w, events, o, k)
    ensures Run(w, events).db.ops[o].dispatch == Some(events[k].decision)
  {
    var n := |events| - 1;
    var before := Run(w, events[..n]);
    RunKeepsInv(w, events[..n]);
    StepFollows(before, events[n]);
    if o < |before.db.ops| && before.db.ops[o].dispatch.Some? {
      k := FindCommit(w, events[..n], o);
      DispatchedExtends(w, events, o, k);
      DispatchKept(before, events[n], o);
    } else {
      k := n;
      CommitRecords(before, events[n]);
    }
  }

  /** Two commits of one operation cannot both succeed. */
  lemma CommitsOnce(w: World, events: seq<Event>, o: nat, j: nat, k: nat)
    requires Inv(w) && DispatchedAt(w, events, o, j) && DispatchedAt(w, events, o, k)
    ensures j == k
  {
    if j < k { CommitPrecludes(w, events, o, j, k); }
    if k < j { CommitPrecludes(w, events, o, k, j); }
  }

  lemma DispatchSticks(w: World, events: seq<Event>, o: nat, j: nat)
    requires Inv(w) && DispatchedAt(w, events, o, j)
    ensures o < |Run(w, events).db.ops| && Run(w, events).db.ops[o].dispatch.Some?
  {
    var before, after := Run(w, events[..j]), Run(w, events[..j + 1]);
    RunSteps(w, events, j);
    RunPassesThrough(w, events, j);
    StepFollows(before, events[j]);
    RunPassesThrough(w, events, j + 1);
    assert OpAdvances(after.db.ops[o], Run(w, events).db.ops[o]);
  }

  lemma CommitPrecludes(w: World, events: seq<Event>, o: nat, j: nat, k: nat)
    requires Inv(w) && j < k && DispatchedAt(w, events, o, j)
    ensures !DispatchedAt(w, events, o, k)
  {
    if k <= |events| {
      assert events[..k][..j] == events[..j];
      DispatchSticks(w, events[..k], o, j);
    }
    if DispatchedAt(w, events, o, k) { CommitsUndispatched(Run(w, events[..k]), events[k]); }
  }

  lemma CommitsUndispatched(w: World, e: Event)
    requires e.Commits? && Tx(w, e).Ok?
    ensures e.operation < |w.db.ops| && w.db.ops[e.operation].dispatch.None?
  {
    CommitDispatchesOne(e.registry, w.db, e.operation, e.attempt, e.decision, e.began, w.now);
  }

  /** Every operation that ever became dispatched was committed exactly once, by its own attempt while that attempt
      held the task's current fence under an unexpired active lease, within the authority and enforcement the task was
      granted, under a complete decision of the active profile that lets it go on, with every required signature
      present; and the approval that carried the signatures is consumed from then on. */
  lemma DispatchAuthorised(now: int, events: seq<Event>, o: nat) returns (k: nat)
    requires
      var db := Run(Boot(now), events).db;
      o < |db.ops| && db.ops[o].dispatch.Some?
    ensures DispatchedAt(Boot(now), events, o, k)
    ensures forall j | DispatchedAt(Boot(now), events, o, j) :: j == k
    ensures
      var before := Run(Boot(now), events[..k]);
      MayDispatch(events[k].registry, before.db, o, events[k].attempt, events[k].decision, events[k].began, before.now)
    ensures
      var db := Run(Boot(now), events).db;
      && SignedOff(db, o, events[k].decision)
      && (db.ops[o].approval.Some? ==>
            db.ops[o].approval.value < |db.approvals| && db.approvals[db.ops[o].approval.value].state == Consumed)
  {
    StartInv(now);
    k := FindCommit(Boot(now), events, o);
    forall j | DispatchedAt(Boot(now), events, o, j) ensures j == k { CommitsOnce(Boot(now), events, o, j, k); }
    var before, e := Run(Boot(now), events[..k]), events[k];
    RunPassesThrough(Boot(now), events, k);
    CommitAuthorised(e.registry, before.db, o, e.attempt, e.decision, e.began, before.now);
    RunKeepsInv(Boot(now), events);
    SignaturesLast(before.db, before.now, Run(Boot(now), events).db, Run(Boot(now), events).now, o, e.decision);
  }

  lemma SignaturesLast(x: Db, n: int, y: Db, m: int, o: nat, d: Decision)
    requires DbInv(y) && DbAdvances(x, n, y, m) && o < |x.ops| && SignedOff(x, o, d) && y.ops[o].dispatch.Some?
    ensures SignedOff(y, o, d)
    ensures y.ops[o].approval.Some? ==>
      y.ops[o].approval.value < |y.approvals| && y.approvals[y.ops[o].approval.value].state == Consumed
  {
    assert OpOk(y, o);
    assert OpAdvances(x.ops[o], y.ops[o]);
    var approval := x.ops[o].approval;
    if approval.Some? && approval.value < |x.approvals| {
      assert ApprovalAdvances(x.approvals[approval.value], y.approvals[approval.value]);
    }
  }

  // ----- which outcome stands -----

  /** Once an operation is confirmed or cancelled, nothing about it changes again: state, cost and reference are
      those of the first settlement, whoever else reports later. Before that it only moves forward. */
  lemma FirstOutcomeStands(w: World, events: seq<Event>, o: nat)
    requires Inv(w) && o < |w.db.ops|
    ensures o < |Run(w, events).db.ops|
    ensures Stage(w.db.ops[o].state) <= Stage(Run(w, events).db.ops[o].state)
    ensures Stage(w.db.ops[o].state) == 3 ==> Run(w, events).db.ops[o] == w.db.ops[o]
  {
    RunKeepsInv(w, events);
    assert OpAdvances(w.db.ops[o], Run(w, events).db.ops[o]);
  }

  /** The loser of a settlement race is told so exactly when it reports something else. */
  lemma LateReport(db: Db, o: nat, outcome: ProviderOutcome)
    requires DbInv(db) && o < |db.ops| && Confirmed(db.ops[o].state)
    ensures SettleTx(db, o, outcome) == Ok(db) <==>
      outcome.state == db.ops[o].state && db.ops[o].cost == Some(outcome.cost) && Trim(outcome.reference) == db.ops[o].reference
    ensures SettleTx(db, o, outcome).Ok? ==> SettleTx(db, o, outcome) == Ok(db)
    ensures MarkUnknownTx(db, o) == Ok(db)
  {
    assert OpOk(db, o);
    assert RowOk(db.ledger, o);
  }

  /** A settlement that is accepted, first or repeated, leaves exactly its own outcome, cost and trimmed reference on
      record, for that operation alone. */
  lemma SettlementRecords(db: Db, o: nat, outcome: ProviderOutcome)
    requires DbInv(db) && SettleTx(db, o, outcome).Ok?
    ensures
      var later := SettleTx(db, o, outcome).value;
      && |later.ops| == |db.ops| && o < |db.ops|
      && later.ops[o].state == outcome.state && later.ops[o].cost == Some(outcome.cost) && later.ops[o].reference == Trim(outcome.reference)
      && (forall p | 0 <= p < |db.ops| && p != o :: later.ops[p] == db.ops[p])
      && later.exec == db.exec && later.approvals == db.approvals && later.slots == db.slots
  {
    assert OpOk(db, o);
  }
}
