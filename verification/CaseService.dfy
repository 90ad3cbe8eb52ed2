/** The workflow-case service, working in place on its tables. */
module CaseService {
  import opened Domain
  import opened Strings
  import opened Cases
  import opened CaseRuns

  method IsSubset(values: seq<string>, allowed: seq<string>) returns (ok: bool)
    ensures ok <==> Within(values, allowed)
  {
    var members: set<string> := {};
    for i := 0 to |allowed|
      invariant forall v :: v in members <==> v in allowed[..i]
    {
      members := members + {allowed[i]};
      assert allowed[..i + 1] == allowed[..i] + [allowed[i]];
    }
    assert allowed[..|allowed|] == allowed;
    for i := 0 to |values|
      invariant forall j | 0 <= j < i :: values[j] in allowed
    {
      if values[i] !in members { return false; }
    }
    return true;
  }

  method AllEvidenced(evidence: seq<string>) returns (ok: bool)
    ensures ok <==> Evidenced(evidence)
  {
    if evidence == [] { return false; }
    for i := 0 to |evidence|
      invariant forall j | 0 <= j < i :: Trim(evidence[j]) != ""
    {
      if Trim(evidence[i]) == "" { return false; }
    }
    return true;
  }

  method IsContained(p: Proposal, g: CaseGrant) returns (ok: bool)
    ensures ok <==> Contained(p, g)
  {
    if Trim(p.kind) == "" { return false; }
    ok := IsSubset(p.authority, g.capabilities);
    if !ok { return; }
    ok := IsSubset(p.required, p.authority);
    if !ok { return; }
    ok := IsSubset(p.actions, g.actions);
  }

  method DecideWork(i: Input) returns (r: Result<Decision>)
    ensures r == Decide(i)
  {
    var a := i.assessment;
    var evidenced := AllEvidenced(a.evidence);
    if !evidenced { return Err(Malformed); }
    match a.opinion
    case Ready => return if a.next.Some? then Err(Malformed) else Ok(Decision(Verify, a.reason));
    case Unknown => return Ok(Decision(Stop, a.reason));
    case OtherOpinion(_) => return Err(Malformed);
    case Continue =>
      if a.next.None? { return Err(Exceeds); }
      var contained := IsContained(a.next.value, i.grant);
      if !contained { return Err(Exceeds); }
      if i.steps >= i.maxSteps { return Ok(Decision(Stop, "maximum steps exhausted")); }
      if i.budget <= 0 { return Ok(Decision(Stop, "remaining budget exhausted")); }
      if i.signature != "" && i.signature == i.previous { return Ok(Decision(Stop, "no progress detected")); }
      return Ok(Decision(GoOn(a.next.value), a.reason));
  }

  class CaseStore {
    var cases: seq<Case>
    var assessments: seq<Stored>
    var verdicts: seq<Verification>
    var evidence: seq<Evidence>
    var works: nat

    constructor ()
      ensures State() == NO_CASES
    {
      cases, assessments, verdicts, evidence, works := [], [], [], [], 0;
    }

    function State(): Ledger
      reads this
    {
      Ledger(cases, assessments, verdicts, evidence, works)
    }

    /** Puts back what the tables held when a transaction began. */
    method Rollback(l: Ledger)
      modifies this
      ensures State() == l
    {
      cases, assessments, verdicts, evidence, works := l.cases, l.assessments, l.verdicts, l.evidence, l.works;
    }

    /** Other processes act on the ledger for a while. */
    method Others(events: seq<CaseEvent>)
      modifies this
      ensures State() == CaseRun(old(State()), events)
    {
      Rollback(CaseRun(State(), events));
    }

    method Put(e: Evidence) returns (id: nat)
      modifies this`evidence
      ensures id == old(|evidence|) && evidence == old(evidence) + [e]
    {
      id := |evidence|;
      evidence := evidence + [e];
    }

    /** Inserts the case unless its revision is known, then compares what is stored with what was asked. */
    method Observe(o: Observation, purpose: bool) returns (r: Result<nat>)
      modifies this`cases, this`works
      ensures match Ensure(old(State()), o, purpose)
              case Ok(l) => r == Ok(CaseId(old(State()), o)) && State() == l
              case Err(e) => r == Err(e) && State() == old(State())
    {
      if Trim(o.mission) == "" || Trim(o.source) == "" || Trim(o.item) == "" || Trim(o.revision) == ""
         || Trim(o.evidence) == "" || o.maxSteps <= 0 || o.budget <= 0 {
        return Err(Malformed);
      }
      var contained := IsContained(o.first, o.grant);
      if !contained { return Err(Malformed); }
      if !purpose { return Err(InvalidPurpose); }
      var found := FindCase(cases, o);
      if found.None? {
        r := Ok(|cases|);
        cases, works := cases + [Case(o, CaseActive, Some(works), Some(o.first), 0, o.budget, "")], works + 1;
        return;
      }
      return if cases[found.value].request == o then Ok(found.value) else Err(Conflict);
    }

    /** Replay, or decide and update the case and its assessments together. */
    method AssessWork(request: AssessRequest, purpose: bool) returns (r: Result<Answer>)
      modifies this`cases, this`assessments, this`works
      ensures match Assess(old(State()), request, purpose)
              case Err(e) => r == Err(e) && State() == old(State())
              case Ok(l) =>
                && State() == l && r.Ok?
                && exists k :: 0 <= k < |l.assessments| && l.assessments[k] == Stored(request, r.value)
    {
      var stored := FindStored(assessments, request.id, request.work);
      if stored.Some? {
        if assessments[stored.value].request != request { return Err(Conflict); }
        return Ok(assessments[stored.value].answer);
      }
      if request.id >= |cases| { return Err(NotFound); }
      var c := cases[request.id];
      if c.state != CaseActive || c.current != Some(request.work) { return Err(WrongState); }
      if !purpose { return Err(InvalidPurpose); }
      if request.budget < 0 || request.budget > c.budget { return Err(Malformed); }
      var decision := DecideWork(InputOf(c, request));
      if decision.Err? { return Err(decision.error); }
      c := c.(steps := c.steps + 1, budget := request.budget, signature := request.signature);
      match decision.value.outcome {
        case GoOn(next) => c := c.(state := CaseActive, current := Some(works), next := Some(next));
        case Stop => c := c.(state := CaseBlocked, current := None, next := None);
        case Verify => c := c.(state := CaseReady, current := None, next := None);
      }
      r := Ok(Answer(decision.value, c));
      cases := cases[request.id := c];
      assessments := assessments + [Stored(request, r.value)];
      works := works + 1;
      assert assessments[|assessments| - 1] == Stored(request, r.value);
    }

    method EvidenceKnown(ids: set<nat>) returns (ok: bool)
      ensures ok <==> Known(State(), ids)
    {
      var rest := ids;
      while rest != {}
        invariant rest <= ids
        invariant forall e | e in ids && e !in rest :: e < |evidence|
        decreases |rest|
      {
        var e :| e in rest;
        if e >= |evidence| { return false; }
        rest := rest - {e};
      }
      return true;
    }

    /** The closing transaction. */
    method CloseOnce(v: Verification, purpose: bool) returns (r: Result<Verification>)
      modifies this`cases, this`verdicts
      ensures match Close(old(State()), v, purpose)
              case Err(e) => r == Err(e) && State() == old(State())
              case Ok(l) =>
                && State() == l && r.Ok? && Agrees(r.value, v)
                && FindVerdict(l.verdicts, v.id).Some? && l.verdicts[FindVerdict(l.verdicts, v.id).value] == r.value
    {
      if !Stated(v) { return Err(Malformed); }
      if v.id >= |cases| { return Err(NotFound); }
      if !purpose { return Err(InvalidPurpose); }
      var existing := FindVerdict(verdicts, v.id);
      if existing.Some? {
        return if Agrees(verdicts[existing.value], v) then Ok(verdicts[existing.value]) else Err(IntentConflict);
      }
      if cases[v.id].state != CaseReady { return Err(WrongState); }
      var known := EvidenceKnown(v.evidence);
      if !known { return Err(NotFound); }
      verdicts := verdicts + [v];
      cases := cases[v.id := Ended(cases[v.id], CaseClosed)];
      return Ok(v);
    }

    /** Closing, with the retry loop for a busy database: an attempt that is aborted looks for a verdict that someone
        else recorded meanwhile, and otherwise tries again, at most twenty times. Apart from what others did before,
        the call comes to what its last attempt comes to; it gives up only after twenty aborted ones. */
    method CloseCase(v: Verification, purpose: bool, busy: nat -> bool, others: nat -> seq<CaseEvent>)
      returns (r: Result<Verification>, ghost before: seq<CaseEvent>, ghost aborted: bool)
      modifies this
      ensures Closure(State(), r) == Closed(CaseRun(old(State()), before), v, purpose, aborted)
      ensures r.Ok? ==>
        && Agrees(r.value, v) && FindVerdict(verdicts, v.id).Some? && verdicts[FindVerdict(verdicts, v.id).value] == r.value
      ensures r == Err(Busy) ==> forall i | 0 <= i < 20 :: busy(i)
    {
      ghost var start := State();
      before, aborted := [], false;
      if !Stated(v) { return Err(Malformed), before, aborted; }
      for i := 0 to 20
        invariant State() == CaseRun(start, before)
        invariant forall j | 0 <= j < i :: busy(j)
        invariant i > 0 ==> FindVerdict(verdicts, v.id).None?
      {
        CaseRunConcat(start, before, others(i));
        before := before + others(i);
        Others(others(i));
        if !busy(i) {
          CloseNeverBusy(State(), v, purpose);
          r := CloseOnce(v, purpose);
          return r, before, false;
        }
        var existing := FindVerdict(verdicts, v.id);
        if existing.Some? {
          r := if Agrees(verdicts[existing.value], v) then Ok(verdicts[existing.value]) else Err(IntentConflict);
          return r, before, true;
        }
      }
      return Err(Busy), before, true;
    }

    method RejectCase(id: nat, reason: string, cited: set<nat>, purpose: bool) returns (r: Result<Verification>)
      modifies this`cases, this`verdicts
      ensures match Reject(old(State()), id, reason, cited, purpose)
              case Err(e) => r == Err(e) && State() == old(State())
              case Ok(l) => State() == l && r == Ok(Rejection(id, reason, cited))
    {
      if reason == "" { return Err(Malformed); }
      if id >= |cases| { return Err(NotFound); }
      if !purpose { return Err(InvalidPurpose); }
      if cases[id].state != CaseReady { return Err(WrongState); }
      var known := EvidenceKnown(cited);
      if !known { return Err(NotFound); }
      if FindVerdict(verdicts, id).Some? { return Err(Conflict); }
      verdicts := verdicts + [Rejection(id, reason, cited)];
      cases := cases[id := Ended(cases[id], CaseBlocked)];
      return Ok(Rejection(id, reason, cited));
    }
  }

  lemma CloseNeverBusy(l: Ledger, v: Verification, purpose: bool)
    ensures Close(l, v, purpose) != Err(Busy)
  {
  }
}
