/** What every event of the case ledger keeps, and so every run of it. */
module CaseRuns {
  import opened Domain
  import opened Cases

  lemma LedgerWaits(l: Ledger)
    ensures LedgerAdvances(l, l)
  {
  }

  lemma LedgerAdvancesTransitive(a: Ledger, b: Ledger, c: Ledger)
    requires LedgerInv(a) && LedgerAdvances(a, b) && LedgerAdvances(b, c)
    ensures LedgerAdvances(a, c)
  {
    forall id: nat | id < |a.cases| ensures CaseAdvances(a.cases[id], c.cases[id]) {
      assert CaseOk(a, id);
      assert CaseAdvances(a.cases[id], b.cases[id]) && CaseAdvances(b.cases[id], c.cases[id]);
    }
  }

  lemma EnsureKeepsLedger(l: Ledger, o: Observation, purpose: bool)
    requires LedgerInv(l) && Ensure(l, o, purpose).Ok?
    ensures LedgerInv(Ensure(l, o, purpose).value) && LedgerAdvances(l, Ensure(l, o, purpose).value)
  {
    EnsureOpens(l, o, purpose);
    if FindCase(l.cases, o).None? { OpenKeepsLedger(l, o); } else { LedgerWaits(l); }
  }

  lemma EnsureOpens(l: Ledger, o: Observation, purpose: bool)
    requires Ensure(l, o, purpose).Ok?
    ensures Complete(o)
    ensures Ensure(l, o, purpose).value ==
      if FindCase(l.cases, o).None? then l.(cases := l.cases + [Opened(o, l.works)], works := l.works + 1) else l
  {
  }

  lemma OpenKeepsCase(l: Ledger, o: Observation, id: nat)
    requires LedgerInv(l) && Complete(o) && id <= |l.cases|
    ensures CaseOk(l.(cases := l.cases + [Opened(o, l.works)], works := l.works + 1), id)
  {
    if id < |l.cases| {
      assert CaseOk(l, id);
    } else {
      forall k: nat | k < |l.assessments| ensures l.assessments[k].request.id != id { assert StoredOk(l, k); }
      NoSteps(l.assessments, id);
    }
  }

  lemma OpenKeepsApart(l: Ledger, o: Observation, i: nat, j: nat)
    requires LedgerInv(l) && i < j <= |l.cases| && forall id | 0 <= id < |l.cases| :: !SameObject(l.cases[id].request, o)
    ensures Apart(l.cases[i], if j < |l.cases| then l.cases[j] else Opened(o, l.works))
  {
    if j < |l.cases| { assert Apart(l.cases[i], l.cases[j]); } else { assert CaseOk(l, i); }
  }

  lemma OpenKeepsLedger(l: Ledger, o: Observation)
    requires LedgerInv(l) && Complete(o) && forall id | 0 <= id < |l.cases| :: !SameObject(l.cases[id].request, o)
    ensures
      var m := l.(cases := l.cases + [Opened(o, l.works)], works := l.works + 1);
      LedgerInv(m) && LedgerAdvances(l, m)
  {
    var m := l.(cases := l.cases + [Opened(o, l.works)], works := l.works + 1);
    forall id: nat | id < |m.cases| ensures CaseOk(m, id) { OpenKeepsCase(l, o, id); }
    forall i: nat, j: nat | i < j < |m.cases| ensures Apart(m.cases[i], m.cases[j]) { OpenKeepsApart(l, o, i, j); }
    forall k: nat | k < |m.assessments| ensures StoredOk(m, k) { assert StoredOk(l, k); }
    forall k: nat | k < |m.verdicts| ensures VerdictOk(m, k) { assert VerdictOk(l, k); }
    forall id: nat | id < |m.cases| && m.cases[id].state == CaseClosed ensures Judged(m, id) { assert Judged(l, id); }
  }

  lemma {:induction false} NoSteps(rows: seq<Stored>, id: nat)
    requires forall k | 0 <= k < |rows| :: rows[k].request.id != id
    ensures StepsOf(rows, id) == 0
  {
    if rows != [] { NoSteps(rows[..|rows| - 1], id); }
  }

  lemma StepsAppend(rows: seq<Stored>, r: Stored, id: nat)
    ensures StepsOf(rows + [r], id) == StepsOf(rows, id) + (if r.request.id == id then 1 else 0)
  {
    assert (rows + [r])[..|rows|] == rows;
  }

  /** An assessment that goes on has steps and budget left, and a proposal within the grant. */
  lemma DecisionBounds(i: Input)
    requires Decide(i).Ok? && Decide(i).value.outcome.GoOn?
    ensures i.steps < i.maxSteps && i.budget > 0 && Contained(Decide(i).value.outcome.next, i.grant)
  {
  }

  lemma AssessedCase(l: Ledger, r: AssessRequest, decision: Decision)
    requires LedgerInv(l) && r.id < |l.cases| && l.cases[r.id].state == CaseActive
    requires 0 <= r.budget <= l.cases[r.id].budget && Decide(InputOf(l.cases[r.id], r)) == Ok(decision)
    ensures
      var c, d := l.cases[r.id], After(l.cases[r.id], r, decision.outcome, l.works);
      && d.request == c.request && d.steps == c.steps + 1 <= c.request.maxSteps && 0 <= d.budget <= c.budget
      && (d.state == CaseActive ==>
            d.steps < d.request.maxSteps && d.budget > 0 && d.current == Some(l.works)
            && d.next.Some? && Contained(d.next.value, d.request.grant))
      && (d.state != CaseActive ==> d.current.None? && d.next.None?)
      && d.state != CaseClosed && Rank(c.state) <= Rank(d.state)
  {
    assert CaseOk(l, r.id);
    if decision.outcome.GoOn? { DecisionBounds(InputOf(l.cases[r.id], r)); }
  }

  lemma AssessKeepsLedger(l: Ledger, r: AssessRequest, purpose: bool)
    requires LedgerInv(l) && Assess(l, r, purpose).Ok?
    ensures LedgerInv(Assess(l, r, purpose).value) && LedgerAdvances(l, Assess(l, r, purpose).value)
  {
    var m := Assess(l, r, purpose).value;
    if FindStored(l.assessments, r.id, r.work).None? {
      var decision := Decide(InputOf(l.cases[r.id], r)).value;
      assert m == Assessed(l, r, decision);
      AssessKeepsCases(l, r, decision);
    }
  }

  /** The ledger after an assessment that was not a replay. */
  function Assessed(l: Ledger, r: AssessRequest, decision: Decision): Ledger
    requires r.id < |l.cases|
  {
    var d := After(l.cases[r.id], r, decision.outcome, l.works);
    l.(cases := l.cases[r.id := d], assessments := l.assessments + [Stored(r, Answer(decision, d))], works := l.works + 1)
  }

  ghost predicate Assessable(l: Ledger, r: AssessRequest, decision: Decision) {
    && r.id < |l.cases| && FindStored(l.assessments, r.id, r.work).None?
    && l.cases[r.id].state == CaseActive && l.cases[r.id].current == Some(r.work)
    && 0 <= r.budget <= l.cases[r.id].budget && Decide(InputOf(l.cases[r.id], r)) == Ok(decision)
  }

  lemma AssessKeepsCase(l: Ledger, r: AssessRequest, decision: Decision, id: nat)
    requires LedgerInv(l) && Assessable(l, r, decision) && id < |l.cases|
    ensures CaseOk(Assessed(l, r, decision), id)
    ensures CaseAdvances(l.cases[id], Assessed(l, r, decision).cases[id])
  {
    assert CaseOk(l, id) && CaseOk(l, r.id);
    AssessedCase(l, r, decision);
    StepsAppend(l.assessments, Assessed(l, r, decision).assessments[|l.assessments|], id);
  }

  lemma AssessKeepsApart(l: Ledger, r: AssessRequest, decision: Decision, i: nat, j: nat)
    requires LedgerInv(l) && Assessable(l, r, decision) && i < j < |l.cases|
    ensures Apart(Assessed(l, r, decision).cases[i], Assessed(l, r, decision).cases[j])
  {
    assert CaseOk(l, i) && CaseOk(l, j) && Apart(l.cases[i], l.cases[j]);
  }

  lemma AssessKeepsStored(l: Ledger, r: AssessRequest, decision: Decision, k: nat)
    requires LedgerInv(l) && Assessable(l, r, decision) && k <= |l.assessments|
    ensures StoredOk(Assessed(l, r, decision), k)
  {
    assert CaseOk(l, r.id);
    if k < |l.assessments| { assert StoredOk(l, k); }
  }

  lemma AssessKeepsCases(l: Ledger, r: AssessRequest, decision: Decision)
    requires LedgerInv(l) && Assessable(l, r, decision)
    ensures LedgerInv(Assessed(l, r, decision)) && LedgerAdvances(l, Assessed(l, r, decision))
  {
    var m := Assessed(l, r, decision);
    AssessedCase(l, r, decision);
    forall id: nat | id < |m.cases| ensures CaseOk(m, id) && CaseAdvances(l.cases[id], m.cases[id]) {
      AssessKeepsCase(l, r, decision, id);
    }
    forall i: nat, j: nat | i < j < |m.cases| ensures Apart(m.cases[i], m.cases[j]) { AssessKeepsApart(l, r, decision, i, j); }
    forall k: nat | k < |m.assessments| ensures StoredOk(m, k) { AssessKeepsStored(l, r, decision, k); }
    forall k: nat | k < |m.verdicts| ensures VerdictOk(m, k) { assert VerdictOk(l, k); }
    forall id: nat | id < |m.cases| && m.cases[id].state == CaseClosed ensures Judged(m, id) { assert Judged(l, id); }
  }

  /** Recording a verdict and ending its case together. */
  lemma EndKeepsLedger(l: Ledger, v: Verification, state: CaseState)
    requires LedgerInv(l) && v.id < |l.cases| && l.cases[v.id].state == CaseReady && Known(l, v.evidence)
    requires forall k | 0 <= k < |l.verdicts| :: l.verdicts[k].id != v.id
    requires state == if v.hash.NoHash? then CaseBlocked else CaseClosed
    ensures
      var m := l.(verdicts := l.verdicts + [v], cases := l.cases[v.id := Ended(l.cases[v.id], state)]);
      LedgerInv(m) && LedgerAdvances(l, m)
  {
    var m := l.(verdicts := l.verdicts + [v], cases := l.cases[v.id := Ended(l.cases[v.id], state)]);
    forall id: nat | id < |m.cases| ensures CaseOk(m, id) && CaseAdvances(l.cases[id], m.cases[id]) { assert CaseOk(l, id); }
    forall k: nat | k < |m.assessments| ensures StoredOk(m, k) { assert StoredOk(l, k); }
    forall k: nat | k < |m.verdicts| ensures VerdictOk(m, k) { if k < |l.verdicts| { assert VerdictOk(l, k); } }
    forall i: nat, j: nat | i < j < |m.cases| ensures Apart(m.cases[i], m.cases[j]) { assert Apart(l.cases[i], l.cases[j]); }
    forall id: nat | id < |m.cases| && m.cases[id].state == CaseClosed ensures Judged(m, id) {
      if id == v.id {
        assert m.verdicts[|l.verdicts|].id == id;
      } else {
        assert Judged(l, id);
        var k :| 0 <= k < |l.verdicts| && l.verdicts[k].id == id;
        assert m.verdicts[k].id == id;
      }
    }
  }

  lemma PutKeepsLedger(l: Ledger, e: Evidence)
    requires LedgerInv(l)
    ensures LedgerInv(l.(evidence := l.evidence + [e])) && LedgerAdvances(l, l.(evidence := l.evidence + [e]))
  {
    var m := l.(evidence := l.evidence + [e]);
    forall id: nat | id < |m.cases| ensures CaseOk(m, id) { assert CaseOk(l, id); }
    forall k: nat | k < |m.assessments| ensures StoredOk(m, k) { assert StoredOk(l, k); }
    forall k: nat | k < |m.verdicts| ensures VerdictOk(m, k) { assert VerdictOk(l, k); }
    forall id: nat | id < |m.cases| && m.cases[id].state == CaseClosed ensures Judged(m, id) { assert Judged(l, id); }
  }

  lemma CaseStepKeeps(l: Ledger, e: CaseEvent)
    requires LedgerInv(l)
    ensures LedgerInv(CaseStep(l, e)) && LedgerAdvances(l, CaseStep(l, e))
  {
    if CaseTx(l, e).Err? {
      LedgerWaits(l);
    } else {
      match e {
        case Ensures(o, purpose) => EnsureKeepsLedger(l, o, purpose);
        case Assesses(r, purpose) => AssessKeepsLedger(l, r, purpose);
        case Closes(v, purpose) => if FindVerdict(l.verdicts, v.id).None? { EndKeepsLedger(l, v, CaseClosed); }
        case Rejects(id, reason, cited, purpose) => EndKeepsLedger(l, Rejection(id, reason, cited), CaseBlocked);
        case Puts(evidence) => PutKeepsLedger(l, evidence);
      }
    }
  }

  lemma {:induction false} CaseRunConcat(l: Ledger, a: seq<CaseEvent>, b: seq<CaseEvent>)
    ensures CaseRun(l, a + b) == CaseRun(CaseRun(l, a), b)
  {
    if b == [] {
      assert a + b == a;
    } else {
      CaseRunConcat(l, a, b[..|b| - 1]);
      assert (a + b)[..|a + b| - 1] == a + b[..|b| - 1];
    }
  }

  lemma {:induction false} CaseRunKeeps(l: Ledger, events: seq<CaseEvent>)
    requires LedgerInv(l)
    ensures LedgerInv(CaseRun(l, events)) && LedgerAdvances(l, CaseRun(l, events))
  {
    if events == [] {
      LedgerWaits(l);
    } else {
      var before := events[..|events| - 1];
      CaseRunKeeps(l, before);
      CaseStepKeeps(CaseRun(l, before), events[|events| - 1]);
      LedgerAdvancesTransitive(l, CaseRun(l, before), CaseRun(l, events));
    }
  }

  lemma NoCasesInv()
    ensures LedgerInv(NO_CASES)
  {
  }

  // ----- what every run keeps -----

  /** Steps are exactly the stored assessments and stay within the maximum; the budget never rises and is positive
      while the case is active; an active case has a step left and a proposal within its grant. */
  lemma CaseBounds(events: seq<CaseEvent>, id: nat)
    requires id < |CaseRun(NO_CASES, events).cases|
    ensures
      var l := CaseRun(NO_CASES, events);
      var c := l.cases[id];
      && c.steps == StepsOf(l.assessments, id) && 0 <= c.steps <= c.request.maxSteps
      && 0 <= c.budget <= c.request.budget
      && (c.state == CaseActive ==>
            && c.steps < c.request.maxSteps && c.budget > 0 && c.next.Some?
            && Within(c.next.value.required, c.next.value.authority)
            && Within(c.next.value.authority, c.request.grant.capabilities)
            && Within(c.next.value.actions, c.request.grant.actions))
  {
    NoCasesInv();
    CaseRunKeeps(NO_CASES, events);
    assert CaseOk(CaseRun(NO_CASES, events), id);
  }

  lemma CasesMove(l: Ledger, events: seq<CaseEvent>, id: nat)
    requires LedgerInv(l) && id < |l.cases|
    ensures id < |CaseRun(l, events).cases|
    ensures CaseRun(l, events).cases[id].budget <= l.cases[id].budget
    ensures CaseRun(l, events).cases[id].steps >= l.cases[id].steps
    ensures l.cases[id].state == CaseBlocked || l.cases[id].state == CaseClosed ==> CaseRun(l, events).cases[id] == l.cases[id]
  {
    CaseRunKeeps(l, events);
    assert CaseAdvances(l.cases[id], CaseRun(l, events).cases[id]);
  }

  lemma AssessedOnce(l: Ledger, j: nat, k: nat)
    requires LedgerInv(l) && j < |l.assessments| && k < |l.assessments|
    requires !AssessedApart(l.assessments[j].request, l.assessments[k].request)
    ensures j == k
  {
  }

  lemma JudgedOnce(l: Ledger, j: nat, k: nat)
    requires LedgerInv(l) && j < |l.verdicts| && k < |l.verdicts| && l.verdicts[j].id == l.verdicts[k].id
    ensures j == k
  {
  }

  lemma StoredOnce(l: Ledger, k: nat)
    requires LedgerInv(l) && k < |l.assessments|
    ensures FindStored(l.assessments, l.assessments[k].request.id, l.assessments[k].request.work) == Some(k)
  {
    var found := FindStored(l.assessments, l.assessments[k].request.id, l.assessments[k].request.work);
    assert found.Some?;
    AssessedOnce(l, found.value, k);
  }

  /** Repeating an assessment, at any later time, returns the answer that was stored and changes nothing; a different
      request for the same work is refused. */
  lemma AssessmentReplays(l: Ledger, r: AssessRequest, purpose: bool, events: seq<CaseEvent>, again: AssessRequest, valid: bool)
    requires LedgerInv(l) && Assess(l, r, purpose).Ok?
    requires again.id == r.id && again.work == r.work
    ensures
      var first := Assess(l, r, purpose).value;
      var found := FindStored(first.assessments, r.id, r.work);
      var later := CaseRun(first, events);
      && found.Some? && first.assessments[found.value].request == r
      && FindStored(later.assessments, r.id, r.work) == found
      && found.value < |later.assessments| && later.assessments[found.value] == first.assessments[found.value]
      && Assess(later, again, valid) == if again == r then Ok(later) else Err(Conflict)
  {
    var first := Assess(l, r, purpose).value;
    AssessKeepsLedger(l, r, purpose);
    var found := FindStored(first.assessments, r.id, r.work);
    if FindStored(l.assessments, r.id, r.work).None? {
      StoredOnce(first, |l.assessments|);
    }
    CaseRunKeeps(first, events);
    StoredOnce(CaseRun(first, events), found.value);
  }

  /** A case gets at most one verdict: it is closed or rejected, never both, and the verdict is never replaced. */
  lemma OneVerdict(l: Ledger, events: seq<CaseEvent>, j: nat, k: nat)
    requires LedgerInv(l) && j < |l.verdicts| && k < |CaseRun(l, events).verdicts|
    requires l.verdicts[j].id == CaseRun(l, events).verdicts[k].id
    ensures k == j && CaseRun(l, events).verdicts[k] == l.verdicts[j]
    ensures
      var id := l.verdicts[j].id;
      id < |CaseRun(l, events).cases|
      && CaseRun(l, events).cases[id].state == (if l.verdicts[j].hash.NoHash? then CaseBlocked else CaseClosed)
  {
    CaseRunKeeps(l, events);
    var m := CaseRun(l, events);
    assert VerdictOk(m, j);
    JudgedOnce(m, j, k);
  }

  lemma FoundOnce(l: Ledger, id: nat, o: Observation)
    requires LedgerInv(l) && id < |l.cases| && SameObject(l.cases[id].request, o)
    ensures FindCase(l.cases, o) == Some(id)
  {
    var found := FindCase(l.cases, o);
    assert found.Some?;
    assert found.value < id ==> Apart(l.cases[found.value], l.cases[id]);
    assert id < found.value ==> Apart(l.cases[id], l.cases[found.value]);
  }

  /** Observing the same revision again, at any later time, leads to the same case and changes nothing, however far
      the case has come; an observation of it that differs in anything is refused. */
  lemma ObservationReplays(l: Ledger, o: Observation, purpose: bool, events: seq<CaseEvent>, again: Observation, valid: bool)
    requires LedgerInv(l) && Ensure(l, o, purpose).Ok? && SameObject(o, again)
    ensures
      var id, later := CaseId(l, o), CaseRun(Ensure(l, o, purpose).value, events);
      && CaseId(later, again) == id < |later.cases| && later.cases[id].request == o
      && (Ensure(later, again, valid).Ok? <==> Complete(again) && valid && again == o)
      && (Ensure(later, again, valid).Ok? ==> Ensure(later, again, valid) == Ok(later))
  {
    var first, id := Ensure(l, o, purpose).value, CaseId(l, o);
    EnsureOpens(l, o, purpose);
    EnsureKeepsLedger(l, o, purpose);
    CaseRunKeeps(first, events);
    var later := CaseRun(first, events);
    assert CaseAdvances(first.cases[id], later.cases[id]);
    FoundOnce(later, id, again);
  }
}
