/** The workflow-case ledger: bounded steps, contained authority, idempotent assessment, and one verdict per case.
    A case's identifier is its row number; work identifiers are handed out from a counter and never reused. */
module Cases {
  import opened Domain
  import opened Strings

  datatype Proposal = Proposal(kind: string, required: seq<string>, authority: seq<string>, actions: seq<string>)

  datatype CaseGrant = CaseGrant(capabilities: seq<string>, actions: seq<string>)

  datatype Observation = Observation(
    mission: string, source: string, item: string, revision: string, evidence: string,
    first: Proposal, grant: CaseGrant, maxSteps: int, budget: int)

  datatype CaseState = CaseActive | CaseBlocked | CaseReady | CaseClosed

  /** The opening request keeps the case's identity, grant and limits; the rest is what assessments change. */
  datatype Case = Case(
    request: Observation, state: CaseState, current: Option<nat>, next: Option<Proposal>,
    steps: int, budget: int, signature: string)

  // ----- the decision on an assessment -----

  datatype Opinion = Ready | Continue | Unknown | OtherOpinion(text: string)

  datatype Assessment = Assessment(opinion: Opinion, reason: string, evidence: seq<string>, next: Option<Proposal>)

  datatype Outcome = GoOn(next: Proposal) | Stop | Verify

  datatype Decision = Decision(outcome: Outcome, reason: string)

  datatype Input = Input(
    assessment: Assessment, grant: CaseGrant, maxSteps: int, budget: int, steps: int, signature: string, previous: string)

  predicate Within(values: seq<string>, allowed: seq<string>) {
    forall v | v in values :: v in allowed
  }

  /** The proposal asks for no more than it may use, and may use no more than the grant gives. */
  predicate Contained(p: Proposal, g: CaseGrant) {
    && Trim(p.kind) != ""
    && Within(p.authority, g.capabilities) && Within(p.required, p.authority) && Within(p.actions, g.actions)
  }

  predicate Evidenced(evidence: seq<string>) {
    evidence != [] && forall e | e in evidence :: Trim(e) != ""
  }

  predicate Exhausted(i: Input) {
    i.steps >= i.maxSteps || i.budget <= 0 || (i.signature != "" && i.signature == i.previous)
  }

  function ExhaustionReason(i: Input): string {
    if i.steps >= i.maxSteps then "maximum steps exhausted"
    else if i.budget <= 0 then "remaining budget exhausted" else "no progress detected"
  }

  function Decide(i: Input): Result<Decision> {
    var a := i.assessment;
    if !Evidenced(a.evidence) then Err(Malformed)
    else match a.opinion
      case Ready => if a.next.Some? then Err(Malformed) else Ok(Decision(Verify, a.reason))
      case Unknown => Ok(Decision(Stop, a.reason))
      case Continue =>
        if a.next.None? || !Contained(a.next.value, i.grant) then Err(Exceeds)
        else if Exhausted(i) then Ok(Decision(Stop, ExhaustionReason(i)))
        else Ok(Decision(GoOn(a.next.value), a.reason))
      case OtherOpinion(_) => Err(Malformed)
  }

  // ----- the ledger -----

  datatype AssessRequest = AssessRequest(id: nat, work: nat, assessment: Assessment, budget: int, signature: string)

  datatype Answer = Answer(decision: Decision, after: Case)

  datatype Stored = Stored(request: AssessRequest, answer: Answer)

  /** A snapshot hash stands as the snapshot it is computed from; a rejection carries none. */
  datatype Hash = NoHash | HashOf(snapshot: string)

  datatype Verification = Verification(
    id: nat, verifier: string, kind: string, hash: Hash, snapshot: string, evidence: set<nat>)

  datatype Evidence = Evidence(kind: string, content: string)

  datatype Ledger = Ledger(
    cases: seq<Case>, assessments: seq<Stored>, verdicts: seq<Verification>, evidence: seq<Evidence>, works: nat)

  predicate SameObject(a: Observation, b: Observation) {
    a.mission == b.mission && a.source == b.source && a.item == b.item && a.revision == b.revision
  }

  predicate Complete(o: Observation) {
    && Trim(o.mission) != "" && Trim(o.source) != "" && Trim(o.item) != "" && Trim(o.revision) != ""
    && Trim(o.evidence) != "" && Contained(o.first, o.grant) && o.maxSteps > 0 && o.budget > 0
  }

  function FindCase(cases: seq<Case>, o: Observation): (r: Option<nat>)
    ensures r.Some? ==> r.value < |cases| && SameObject(cases[r.value].request, o)
    ensures r.None? ==> forall i | 0 <= i < |cases| :: !SameObject(cases[i].request, o)
  {
    if cases == [] then None
    else if SameObject(cases[|cases| - 1].request, o) then Some(|cases| - 1)
    else FindCase(cases[..|cases| - 1], o)
  }

  function CaseId(l: Ledger, o: Observation): nat {
    var found := FindCase(l.cases, o);
    if found.Some? then found.value else |l.cases|
  }

  function Opened(o: Observation, work: nat): Case {
    Case(o, CaseActive, Some(work), Some(o.first), 0, o.budget, "")
  }

  function Ensure(l: Ledger, o: Observation, purpose: bool): Result<Ledger> {
    if !Complete(o) then Err(Malformed)
    else if !purpose then Err(InvalidPurpose)
    else
      var id := CaseId(l, o);
      if id < |l.cases| then if l.cases[id].request == o then Ok(l) else Err(Conflict)
      else Ok(l.(cases := l.cases + [Opened(o, l.works)], works := l.works + 1))
  }

  function FindStored(rows: seq<Stored>, id: nat, work: nat): (r: Option<nat>)
    ensures r.Some? ==> r.value < |rows| && rows[r.value].request.id == id && rows[r.value].request.work == work
    ensures r.None? ==> forall i | 0 <= i < |rows| :: rows[i].request.id != id || rows[i].request.work != work
  {
    if rows == [] then None
    else if rows[|rows| - 1].request.id == id && rows[|rows| - 1].request.work == work then Some(|rows| - 1)
    else FindStored(rows[..|rows| - 1], id, work)
  }

  function InputOf(c: Case, r: AssessRequest): Input {
    Input(r.assessment, c.request.grant, c.request.maxSteps, r.budget, c.steps + 1, r.signature, c.signature)
  }

  function After(c: Case, r: AssessRequest, outcome: Outcome, work: nat): Case {
    var d := c.(steps := c.steps + 1, budget := r.budget, signature := r.signature);
    match outcome
    case GoOn(next) => d.(state := CaseActive, current := Some(work), next := Some(next))
    case Stop => d.(state := CaseBlocked, current := None, next := None)
    case Verify => d.(state := CaseReady, current := None, next := None)
  }

  /** One assessment: replayed if this work was assessed by the same request, otherwise decided and recorded. */
  function Assess(l: Ledger, r: AssessRequest, purpose: bool): Result<Ledger> {
    var stored := FindStored(l.assessments, r.id, r.work);
    if stored.Some? then if l.assessments[stored.value].request == r then Ok(l) else Err(Conflict)
    else if r.id >= |l.cases| then Err(NotFound)
    else
      var c := l.cases[r.id];
      if c.state != CaseActive || c.current != Some(r.work) then Err(WrongState)
      else if !purpose then Err(InvalidPurpose)
      else if r.budget < 0 || r.budget > c.budget then Err(Malformed)
      else match Decide(InputOf(c, r))
        case Err(e) => Err(e)
        case Ok(decision) =>
          var d := After(c, r, decision.outcome, l.works);
          Ok(l.(cases := l.cases[r.id := d], assessments := l.assessments + [Stored(r, Answer(decision, d))], works := l.works + 1))
  }

  function FindVerdict(rows: seq<Verification>, id: nat): (r: Option<nat>)
    ensures r.Some? ==> r.value < |rows| && rows[r.value].id == id
    ensures r.None? ==> forall i | 0 <= i < |rows| :: rows[i].id != id
  {
    if rows == [] then None
    else if rows[|rows| - 1].id == id then Some(|rows| - 1)
    else FindVerdict(rows[..|rows| - 1], id)
  }

  function Ended(c: Case, state: CaseState): Case {
    c.(state := state, current := None, next := None)
  }

  predicate Known(l: Ledger, evidence: set<nat>) {
    forall e | e in evidence :: e < |l.evidence|
  }

  predicate Agrees(v: Verification, r: Verification) {
    v.hash == r.hash && v.evidence == r.evidence
  }

  /** The request names its verifier and carries a snapshot. */
  predicate Stated(r: Verification) {
    r.verifier != "" && r.kind != "" && r.hash.HashOf? && Trim(r.snapshot) != ""
  }

  /** Closing replays a verdict with the same snapshot and evidence, and otherwise needs a case that is ready. */
  function Close(l: Ledger, r: Verification, purpose: bool): Result<Ledger> {
    if !Stated(r) then Err(Malformed)
    else if r.id >= |l.cases| then Err(NotFound)
    else if !purpose then Err(InvalidPurpose)
    else
      var existing := FindVerdict(l.verdicts, r.id);
      if existing.Some? then if Agrees(l.verdicts[existing.value], r) then Ok(l) else Err(IntentConflict)
      else if l.cases[r.id].state != CaseReady then Err(WrongState)
      else if !Known(l, r.evidence) then Err(NotFound)
      else Ok(l.(verdicts := l.verdicts + [r], cases := l.cases[r.id := Ended(l.cases[r.id], CaseClosed)]))
  }

  function VerdictOf(l: Ledger, id: nat): Result<Verification> {
    var found := FindVerdict(l.verdicts, id);
    if found.Some? then Ok(l.verdicts[found.value]) else Err(NotFound)
  }

  datatype Closure = Closure(after: Ledger, result: Result<Verification>)

  /** What a closing call comes to on its last attempt. If the database aborts it, a verdict that someone else has
      recorded meanwhile is looked up, and without one the call gives up. */
  function Closed(l: Ledger, r: Verification, purpose: bool, aborted: bool): Closure {
    if !Stated(r) then Closure(l, Err(Malformed))
    else if aborted then
      match VerdictOf(l, r.id)
      case Err(_) => Closure(l, Err(Busy))
      case Ok(v) => Closure(l, if Agrees(v, r) then Ok(v) else Err(IntentConflict))
    else
      match Close(l, r, purpose)
      case Err(e) => Closure(l, Err(e))
      case Ok(m) => Closure(m, VerdictOf(m, r.id))
  }

  function Rejection(id: nat, reason: string, evidence: set<nat>): Verification {
    Verification(id, "", "REJECT", NoHash, reason, evidence)
  }

  function Reject(l: Ledger, id: nat, reason: string, evidence: set<nat>, purpose: bool): Result<Ledger> {
    if reason == "" then Err(Malformed)
    else if id >= |l.cases| then Err(NotFound)
    else if !purpose then Err(InvalidPurpose)
    else if l.cases[id].state != CaseReady then Err(WrongState)
    else if !Known(l, evidence) then Err(NotFound)
    else if FindVerdict(l.verdicts, id).Some? then Err(Conflict)
    else Ok(l.(verdicts := l.verdicts + [Rejection(id, reason, evidence)],
               cases := l.cases[id := Ended(l.cases[id], CaseBlocked)]))
  }

  datatype CaseEvent =
    | Ensures(observation: Observation, purpose: bool)
    | Assesses(request: AssessRequest, purpose: bool)
    | Closes(verification: Verification, purpose: bool)
    | Rejects(id: nat, reason: string, cited: set<nat>, purpose: bool)
    | Puts(evidence: Evidence)

  function CaseTx(l: Ledger, e: CaseEvent): Result<Ledger> {
    match e
    case Ensures(o, purpose) => Ensure(l, o, purpose)
    case Assesses(r, purpose) => Assess(l, r, purpose)
    case Closes(v, purpose) => Close(l, v, purpose)
    case Rejects(id, reason, cited, purpose) => Reject(l, id, reason, cited, purpose)
    case Puts(evidence) => Ok(l.(evidence := l.evidence + [evidence]))
  }

  function CaseStep(l: Ledger, e: CaseEvent): Ledger {
    if CaseTx(l, e).Ok? then CaseTx(l, e).value else l
  }

  function CaseRun(l: Ledger, events: seq<CaseEvent>): Ledger {
    if events == [] then l else CaseStep(CaseRun(l, events[..|events| - 1]), events[|events| - 1])
  }

  const NO_CASES: Ledger := Ledger([], [], [], [], 0)

  // ----- the invariant -----

  function StepsOf(rows: seq<Stored>, id: nat): nat {
    if rows == [] then 0
    else StepsOf(rows[..|rows| - 1], id) + (if rows[|rows| - 1].request.id == id then 1 else 0)
  }

  ghost predicate CaseOk(l: Ledger, id: nat)
    requires id < |l.cases|
  {
    var c := l.cases[id];
    && c.steps == StepsOf(l.assessments, id) <= c.request.maxSteps
    && 0 <= c.budget <= c.request.budget
    && (c.state == CaseActive ==>
          && c.steps < c.request.maxSteps && c.budget > 0
          && c.current.Some? && c.current.value < l.works
          && c.next.Some? && Contained(c.next.value, c.request.grant))
    && (c.state != CaseActive ==> c.current.None? && c.next.None?)
  }

  ghost predicate StoredOk(l: Ledger, k: nat)
    requires k < |l.assessments|
  {
    var r := l.assessments[k].request;
    r.id < |l.cases| && r.work < l.works && l.cases[r.id].current != Some(r.work)
  }

  ghost predicate VerdictOk(l: Ledger, k: nat)
    requires k < |l.verdicts|
  {
    var v := l.verdicts[k];
    && v.id < |l.cases| && Known(l, v.evidence)
    && l.cases[v.id].state == (if v.hash.NoHash? then CaseBlocked else CaseClosed)
  }

  ghost predicate Judged(l: Ledger, id: nat) {
    exists k :: 0 <= k < |l.verdicts| && l.verdicts[k].id == id
  }

  /** Two cases observe different revisions and never share a work identifier. */
  predicate Apart(c: Case, d: Case) {
    !SameObject(c.request, d.request) && (c.current.Some? ==> c.current != d.current)
  }

  predicate AssessedApart(a: AssessRequest, b: AssessRequest) {
    a.id != b.id || a.work != b.work
  }

  ghost predicate LedgerInv(l: Ledger) {
    && (forall id | 0 <= id < |l.cases| :: CaseOk(l, id))
    && (forall i, j | 0 <= i < j < |l.cases| :: Apart(l.cases[i], l.cases[j]))
    && (forall k | 0 <= k < |l.assessments| :: StoredOk(l, k))
    && (forall j, k | 0 <= j < k < |l.assessments| ::
          AssessedApart(l.assessments[j].request, l.assessments[k].request))
    && (forall k | 0 <= k < |l.verdicts| :: VerdictOk(l, k))
    && (forall j, k | 0 <= j < k < |l.verdicts| :: l.verdicts[j].id != l.verdicts[k].id)
    && (forall id | 0 <= id < |l.cases| && l.cases[id].state == CaseClosed :: Judged(l, id))
  }

  function Rank(s: CaseState): nat {
    match s
    case CaseActive => 0
    case CaseReady => 1
    case CaseBlocked => 2
    case CaseClosed => 2
  }

  /** What an event may do to one case. */
  ghost predicate CaseAdvances(c: Case, d: Case) {
    && c.request == d.request
    && c.steps <= d.steps && d.budget <= c.budget
    && Rank(c.state) <= Rank(d.state)
    && (Rank(c.state) == 2 ==> d == c)
    && (c.current.Some? && d.current == c.current ==> d == c)
  }

  ghost predicate LedgerAdvances(l: Ledger, m: Ledger) {
    && |l.cases| <= |m.cases| && l.works <= m.works
    && (forall id | 0 <= id < |l.cases| :: CaseAdvances(l.cases[id], m.cases[id]))
    && (forall id | 0 <= id < |l.cases| && m.cases[id].current.Some? ::
          m.cases[id].current == l.cases[id].current || l.works <= m.cases[id].current.value)
    && l.assessments <= m.assessments && l.verdicts <= m.verdicts && l.evidence <= m.evidence
  }
}
