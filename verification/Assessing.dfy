/** When the calls on the case ledger go through and what they leave behind, read off the rows alone, and what the state of
    a case therefore tells of its last assessment. */
module Assessing {
  import opened Domain
  import opened Strings
  import opened Cases
  import opened CaseRuns

  // ----- one assessment -----

  /** The assessment can be acted on: it cites evidence, none of it blank, says Ready without further work or Unknown, or
      says Continue with a kind of work that uses only what it may use and may use only what the case was granted. */
  ghost predicate Sensible(g: CaseGrant, a: Assessment) {
    && |a.evidence| > 0 && (forall k | 0 <= k < |a.evidence| :: Trim(a.evidence[k]) != "")
    && match a.opinion
       case Ready => a.next == None
       case Unknown => true
       case Continue =>
         && a.next.Some? && Trim(a.next.value.kind) != ""
         && (forall v | v in a.next.value.required :: v in a.next.value.authority)
         && (forall v | v in a.next.value.authority :: v in g.capabilities)
         && (forall v | v in a.next.value.actions :: v in g.actions)
       case OtherOpinion(_) => false
  }

  /** With this assessment the case has used its last step or its budget, or has made no progress since the last. */
  ghost predicate Worn(c: Case, r: AssessRequest) {
    c.steps + 1 >= c.request.maxSteps || r.budget <= 0 || (r.signature != "" && r.signature == c.signature)
  }

  ghost predicate IsStored(l: Ledger, id: nat, work: nat) {
    exists k :: 0 <= k < |l.assessments| && l.assessments[k].request.id == id && l.assessments[k].request.work == work
  }

  /** The state an opinion leaves the case in. */
  ghost function StateFor(c: Case, r: AssessRequest): CaseState {
    match r.assessment.opinion
    case Ready => CaseReady
    case Unknown => CaseBlocked
    case Continue => if Worn(c, r) then CaseBlocked else CaseActive
    case OtherOpinion(_) => c.state
  }

  /** Why the case stands as it does: in the assessor's words, or for want of steps, budget or progress. */
  ghost function ReasonFor(c: Case, r: AssessRequest): string {
    if r.assessment.opinion != Continue || !Worn(c, r) then r.assessment.reason
    else if c.steps + 1 >= c.request.maxSteps then "maximum steps exhausted"
    else if r.budget <= 0 then "remaining budget exhausted" else "no progress detected"
  }

  /** Between l and m the case was assessed, and nothing else happened. */
  ghost predicate AssessedTo(l: Ledger, m: Ledger, r: AssessRequest) {
    && r.id < |l.cases| && r.id < |m.cases| && |m.assessments| == |l.assessments| + 1
    && var c, d, answer := l.cases[r.id], m.cases[r.id], m.assessments[|l.assessments|].answer;
    && m == l.(cases := l.cases[r.id := d], assessments := l.assessments + [Stored(r, answer)], works := l.works + 1)
    && d == Case(c.request, StateFor(c, r),
                 if StateFor(c, r) == CaseActive then Some(l.works) else None,
                 if StateFor(c, r) == CaseActive then r.assessment.next else None, c.steps + 1, r.budget, r.signature)
    && answer.after == d && answer.decision.reason == ReasonFor(c, r)
    && (answer.decision.outcome == Verify <==> r.assessment.opinion == Ready)
    && (answer.decision.outcome == Stop <==> r.assessment.opinion == Unknown || (r.assessment.opinion == Continue && Worn(c, r)))
    && (answer.decision.outcome.GoOn? ==> Some(answer.decision.outcome.next) == r.assessment.next)
  }

  lemma DecidesAs(c: Case, r: AssessRequest, work: nat)
    requires c.state == CaseActive
    ensures Decide(InputOf(c, r)).Ok? <==> Sensible(c.request.grant, r.assessment)
    ensures Decide(InputOf(c, r)).Ok? ==>
      var decision := Decide(InputOf(c, r)).value;
      && After(c, r, decision.outcome, work) ==
           Case(c.request, StateFor(c, r), if StateFor(c, r) == CaseActive then Some(work) else None,
                if StateFor(c, r) == CaseActive then r.assessment.next else None, c.steps + 1, r.budget, r.signature)
      && decision.reason == ReasonFor(c, r)
      && (decision.outcome == Verify <==> r.assessment.opinion == Ready)
      && (decision.outcome == Stop <==> r.assessment.opinion == Unknown || (r.assessment.opinion == Continue && Worn(c, r)))
      && (decision.outcome.GoOn? ==> Some(decision.outcome.next) == r.assessment.next)
  {
    var e := r.assessment.evidence;
    assert forall k | 0 <= k < |e| :: e[k] in e;
  }

  /** The exact condition for an assessment, and its exact effect. Work assessed before takes only the very same request
      again. Otherwise the work has to be the case's current one, under a valid purpose, with a budget that has not grown
      and an assessment that can be acted on; then Ready leaves the case ready, Unknown blocks it, and Continue blocks it if
      it is worn and lets it go on if not. */
  lemma AssessWhen(l: Ledger, r: AssessRequest, purpose: bool)
    requires LedgerInv(l)
    ensures IsStored(l, r.id, r.work) ==>
      (Assess(l, r, purpose).Ok? <==> exists k :: 0 <= k < |l.assessments| && l.assessments[k].request == r)
    ensures IsStored(l, r.id, r.work) && Assess(l, r, purpose).Ok? ==> Assess(l, r, purpose).value == l
    ensures !IsStored(l, r.id, r.work) ==>
      (Assess(l, r, purpose).Ok? <==>
        && r.id < |l.cases| && l.cases[r.id].state == CaseActive && l.cases[r.id].current == Some(r.work)
        && purpose && 0 <= r.budget <= l.cases[r.id].budget && Sensible(l.cases[r.id].request.grant, r.assessment))
    ensures !IsStored(l, r.id, r.work) && Assess(l, r, purpose).Ok? ==> AssessedTo(l, Assess(l, r, purpose).value, r)
  {
    var found := FindStored(l.assessments, r.id, r.work);
    if found.Some? {
      forall k | 0 <= k < |l.assessments| && l.assessments[k].request == r ensures k == found.value { AssessedOnce(l, k, found.value); }
    } else if r.id < |l.cases| && l.cases[r.id].state == CaseActive {
      DecidesAs(l.cases[r.id], r, l.works);
    }
  }

  // ----- opening and ending a case -----

  /** The observation names what it saw and the evidence for it, and its first work is within its grant and its limits. */
  ghost predicate Reported(o: Observation) {
    && Trim(o.mission) != "" && Trim(o.source) != "" && Trim(o.item) != "" && Trim(o.revision) != "" && Trim(o.evidence) != ""
    && o.maxSteps > 0 && o.budget > 0 && Trim(o.first.kind) != ""
    && (forall v | v in o.first.required :: v in o.first.authority)
    && (forall v | v in o.first.authority :: v in o.grant.capabilities)
    && (forall v | v in o.first.actions :: v in o.grant.actions)
  }

  ghost predicate SameRevision(a: Observation, b: Observation) {
    (a.mission, a.source, a.item, a.revision) == (b.mission, b.source, b.item, b.revision)
  }

  /** A case is opened, active and with the whole budget, unless there is one for the same revision: that one answers if it
      was opened by the very same observation. */
  lemma EnsureWhen(l: Ledger, o: Observation, purpose: bool)
    requires LedgerInv(l)
    ensures
      var known := exists id :: 0 <= id < |l.cases| && SameRevision(l.cases[id].request, o);
      && (Ensure(l, o, purpose).Ok? <==>
            Reported(o) && purpose && (known ==> exists id :: 0 <= id < |l.cases| && l.cases[id].request == o))
      && (Ensure(l, o, purpose).Ok? ==>
            Ensure(l, o, purpose).value ==
              if known then l
              else l.(cases := l.cases + [Case(o, CaseActive, Some(l.works), Some(o.first), 0, o.budget, "")], works := l.works + 1))
  {
    var found := FindCase(l.cases, o);
    forall id | 0 <= id < |l.cases| ensures SameRevision(l.cases[id].request, o) <==> SameObject(l.cases[id].request, o) {}
    forall id | 0 <= id < |l.cases| && SameObject(l.cases[id].request, o) ensures found == Some(id) { FoundOnce(l, id, o); }
  }

  ghost predicate Cited(l: Ledger, evidence: set<nat>) {
    forall e | e in evidence :: e < |l.evidence|
  }

  ghost predicate VerdictAt(l: Ledger, id: nat, k: nat) {
    k < |l.verdicts| && l.verdicts[k].id == id
  }

  /** A ready case is closed with a snapshot and evidence on record; one that has its verdict takes only the same again. */
  lemma CloseWhen(l: Ledger, r: Verification, purpose: bool)
    requires LedgerInv(l)
    ensures
      var judged := exists k: nat :: VerdictAt(l, r.id, k);
      && (Close(l, r, purpose).Ok? <==>
            && r.verifier != "" && r.kind != "" && r.hash != NoHash && Trim(r.snapshot) != "" && r.id < |l.cases| && purpose
            && if judged then exists k: nat :: VerdictAt(l, r.id, k) && l.verdicts[k].hash == r.hash && l.verdicts[k].evidence == r.evidence
               else l.cases[r.id].state == CaseReady && Cited(l, r.evidence))
      && (Close(l, r, purpose).Ok? ==> r.id < |l.cases| && Close(l, r, purpose).value == if judged then l else Judge(l, r, CaseClosed))
  {
    var found := FindVerdict(l.verdicts, r.id);
    if found.Some? {
      assert VerdictAt(l, r.id, found.value);
      forall k: nat | VerdictAt(l, r.id, k) ensures k == found.value { JudgedOnce(l, k, found.value); }
    }
  }

  /** The ledger with this verdict added and its case ended in this state. */
  ghost function Judge(l: Ledger, v: Verification, state: CaseState): Ledger
    requires v.id < |l.cases|
  {
    var c := l.cases[v.id];
    l.(verdicts := l.verdicts + [v], cases := l.cases[v.id := Case(c.request, state, None, None, c.steps, c.budget, c.signature)])
  }

  /** A ready case is rejected for a reason, and is blocked with it. */
  lemma RejectWhen(l: Ledger, id: nat, reason: string, evidence: set<nat>, purpose: bool)
    requires LedgerInv(l)
    ensures Reject(l, id, reason, evidence, purpose).Ok? <==>
      reason != "" && id < |l.cases| && purpose && l.cases[id].state == CaseReady && Cited(l, evidence)
    ensures Reject(l, id, reason, evidence, purpose).Ok? ==>
      Reject(l, id, reason, evidence, purpose).value == Judge(l, Verification(id, "", "REJECT", NoHash, reason, evidence), CaseBlocked)
  {
    var found := FindVerdict(l.verdicts, id);
    if found.Some? && id < |l.cases| { assert VerdictOk(l, found.value); }
  }

  // ----- the state of a case and its last assessment -----

  /** What the last assessment of the case said, if it was assessed at all. */
  ghost function LastWord(rows: seq<Stored>, id: nat): Option<Opinion> {
    if rows == [] then None
    else if rows[|rows| - 1].request.id == id then Some(rows[|rows| - 1].request.assessment.opinion)
    else LastWord(rows[..|rows| - 1], id)
  }

  ghost predicate HasVerdict(l: Ledger, id: nat) {
    exists k: nat :: VerdictAt(l, id, k)
  }

  /** A case that nobody assessed is active; one last found ready is ready until it has its verdict; one whose assessor did
      not know is blocked; and one that was to continue is active or blocked. */
  ghost predicate StandsBy(l: Ledger, id: nat)
    requires id < |l.cases|
  {
    match LastWord(l.assessments, id)
    case None => l.cases[id].state == CaseActive && !HasVerdict(l, id)
    case Some(Ready) =>
      if HasVerdict(l, id) then l.cases[id].state == CaseClosed || l.cases[id].state == CaseBlocked
      else l.cases[id].state == CaseReady
    case Some(Unknown) => l.cases[id].state == CaseBlocked && !HasVerdict(l, id)
    case Some(Continue) => (l.cases[id].state == CaseActive || l.cases[id].state == CaseBlocked) && !HasVerdict(l, id)
    case Some(OtherOpinion(_)) => false
  }

  ghost predicate AllStand(l: Ledger) {
    forall id | 0 <= id < |l.cases| :: StandsBy(l, id)
  }

  lemma {:induction false} NeverAssessed(rows: seq<Stored>, id: nat)
    requires forall k | 0 <= k < |rows| :: rows[k].request.id != id
    ensures LastWord(rows, id) == None
  {
    if rows != [] { NeverAssessed(rows[..|rows| - 1], id); }
  }

  lemma OpenedStands(l: Ledger, m: Ledger, c: Case)
    requires LedgerInv(l) && AllStand(l) && c.state == CaseActive && m == l.(cases := l.cases + [c], works := m.works)
    ensures AllStand(m)
  {
    forall id | 0 <= id < |m.cases| ensures StandsBy(m, id) {
      if id < |l.cases| {
        assert StandsBy(l, id);
        if HasVerdict(m, id) { var k: nat :| VerdictAt(m, id, k); assert VerdictAt(l, id, k); }
        if HasVerdict(l, id) { var k: nat :| VerdictAt(l, id, k); assert VerdictAt(m, id, k); }
      } else {
        forall k | 0 <= k < |l.assessments| ensures l.assessments[k].request.id != id { assert StoredOk(l, k); }
        NeverAssessed(l.assessments, id);
        forall k: nat | k < |l.verdicts| ensures !VerdictAt(m, id, k) { assert VerdictOk(l, k); }
      }
    }
  }

  lemma AssessedStands(l: Ledger, m: Ledger, r: AssessRequest)
    requires LedgerInv(l) && AllStand(l) && AssessedTo(l, m, r) && l.cases[r.id].state == CaseActive
    requires !r.assessment.opinion.OtherOpinion?
    ensures AllStand(m)
  {
    assert m.assessments[..|l.assessments|] == l.assessments;
    forall id | 0 <= id < |m.cases| ensures StandsBy(m, id) {
      assert StandsBy(l, id);
      if HasVerdict(m, id) { var k: nat :| VerdictAt(m, id, k); assert VerdictAt(l, id, k); assert VerdictOk(l, k); }
      if HasVerdict(l, id) { var k: nat :| VerdictAt(l, id, k); assert VerdictAt(m, id, k); }
    }
  }

  lemma JudgedStands(l: Ledger, v: Verification, state: CaseState)
    requires LedgerInv(l) && AllStand(l) && v.id < |l.cases| && l.cases[v.id].state == CaseReady
    requires state == CaseClosed || state == CaseBlocked
    ensures AllStand(Judge(l, v, state))
  {
    var m := Judge(l, v, state);
    assert VerdictAt(m, v.id, |l.verdicts|);
    forall id | 0 <= id < |m.cases| ensures StandsBy(m, id) {
      assert StandsBy(l, id);
      if id != v.id && HasVerdict(m, id) { var k: nat :| VerdictAt(m, id, k); assert VerdictAt(l, id, k); }
      if HasVerdict(l, id) { var k: nat :| VerdictAt(l, id, k); assert VerdictAt(m, id, k); }
    }
  }

  lemma PutStands(l: Ledger, e: Evidence)
    requires AllStand(l)
    ensures AllStand(l.(evidence := l.evidence + [e]))
  {
    var m := l.(evidence := l.evidence + [e]);
    forall id | 0 <= id < |m.cases| ensures StandsBy(m, id) {
      assert StandsBy(l, id);
      assert forall k: nat :: VerdictAt(m, id, k) <==> VerdictAt(l, id, k);
    }
  }

  lemma StepStands(l: Ledger, e: CaseEvent)
    requires LedgerInv(l) && AllStand(l)
    ensures AllStand(CaseStep(l, e))
  {
    if CaseTx(l, e).Ok? {
      match e {
        case Ensures(o, purpose) =>
          EnsureWhen(l, o, purpose);
          if CaseStep(l, e) != l { OpenedStands(l, CaseStep(l, e), Case(o, CaseActive, Some(l.works), Some(o.first), 0, o.budget, "")); }
        case Assesses(r, purpose) =>
          AssessWhen(l, r, purpose);
          if !IsStored(l, r.id, r.work) { AssessedStands(l, CaseStep(l, e), r); }
        case Closes(v, purpose) =>
          CloseWhen(l, v, purpose);
          if CaseStep(l, e) != l { JudgedStands(l, v, CaseClosed); }
        case Rejects(id, reason, cited, purpose) =>
          RejectWhen(l, id, reason, cited, purpose);
          JudgedStands(l, Verification(id, "", "REJECT", NoHash, reason, cited), CaseBlocked);
        case Puts(evidence) => PutStands(l, evidence);
      }
    }
  }

  lemma {:induction false} RunStands(events: seq<CaseEvent>)
    ensures AllStand(CaseRun(NO_CASES, events))
  {
    if events != [] {
      RunStands(events[..|events| - 1]);
      NoCasesInv();
      CaseRunKeeps(NO_CASES, events[..|events| - 1]);
      StepStands(CaseRun(NO_CASES, events[..|events| - 1]), events[|events| - 1]);
    }
  }

  /** Over every run: a case is ready or closed, or has a verdict at all, only if the last word of its assessors was Ready;
      and a case whose last word was Ready is ready until it has its verdict. */
  lemma ReadyAsAssessed(events: seq<CaseEvent>, id: nat)
    requires id < |CaseRun(NO_CASES, events).cases|
    ensures
      var l := CaseRun(NO_CASES, events);
      && (LastWord(l.assessments, id) == Some(Ready) <==>
            l.cases[id].state == CaseReady || l.cases[id].state == CaseClosed || HasVerdict(l, id))
      && (l.cases[id].state == CaseReady <==> LastWord(l.assessments, id) == Some(Ready) && !HasVerdict(l, id))
      && (l.cases[id].state == CaseClosed ==> HasVerdict(l, id))
  {
    RunStands(events);
    NoCasesInv();
    CaseRunKeeps(NO_CASES, events);
    var l := CaseRun(NO_CASES, events);
    assert StandsBy(l, id);
    if l.cases[id].state == CaseClosed {
      assert Judged(l, id);
      var k :| 0 <= k < |l.verdicts| && l.verdicts[k].id == id;
      assert VerdictAt(l, id, k);
    }
  }
}
