/** The calls that are deliberately not one transaction: dispatching an operation and reconciling its outcome. Between
    their steps any other processes may act on the same database. Each call is shown to be a run of the transition
    system, so everything proved of runs holds of it. */
module DispatchService {
  import opened Domain
  import opened Execution
  import opened Operations
  import opened Lockstep
  import opened World
  import opened Runs
  import opened Box
  import OperationService

  /** One event of a run, as the caller of a method sees it: taken by the call itself, or by some other process. */
  datatype Move = Own(event: Event) | Other(event: Event)

  function Events(trace: seq<Move>): seq<Event> {
    seq(|trace|, i requires 0 <= i < |trace| => trace[i].event)
  }

  function Mine(trace: seq<Move>): seq<Event> {
    if trace == [] then []
    else
      var last := trace[|trace| - 1];
      Mine(trace[..|trace| - 1]) + (if last.Own? then [last.event] else [])
  }

  function Foreign(events: seq<Event>): seq<Move> {
    seq(|events|, i requires 0 <= i < |events| => Other(events[i]))
  }

  lemma OwnStep(w: World, trace: seq<Move>, e: Event)
    ensures Run(w, Events(trace + [Own(e)])) == Step(Run(w, Events(trace)), e)
    ensures Mine(trace + [Own(e)]) == Mine(trace) + [e]
  {
    assert Events(trace + [Own(e)])[..|trace|] == Events(trace);
    assert (trace + [Own(e)])[..|trace|] == trace;
  }

  lemma {:induction false} ForeignNotMine(trace: seq<Move>, events: seq<Event>)
    ensures Mine(trace + Foreign(events)) == Mine(trace)
  {
    if events == [] {
      assert trace + Foreign(events) == trace;
    } else {
      var n := |events| - 1;
      ForeignNotMine(trace, events[..n]);
      assert (trace + Foreign(events))[..|trace| + n] == trace + Foreign(events[..n]);
    }
  }

  lemma OtherSteps(w: World, trace: seq<Move>, events: seq<Event>)
    ensures Run(w, Events(trace + Foreign(events))) == Run(Run(w, Events(trace)), events)
    ensures Mine(trace + Foreign(events)) == Mine(trace)
  {
    assert Events(trace + Foreign(events)) == Events(trace) + events;
    RunConcat(w, Events(trace), events);
    ForeignNotMine(trace, events);
  }

  lemma {:induction false} MineAppend(a: seq<Move>, b: seq<Move>)
    ensures Mine(a + b) == Mine(a) + Mine(b)
  {
    if b == [] {
      assert a + b == a;
    } else {
      var n := |b| - 1;
      MineAppend(a, b[..n]);
      assert (a + b)[..|a| + n] == a + b[..n];
    }
  }

  /** From w, some events may have led to v. */
  ghost predicate Leads(w: World, v: World) {
    Inv(w) ==> Inv(v) && WorldAdvances(w, v)
  }

  lemma StepLeads(w: World, e: Event)
    ensures Leads(w, Step(w, e))
  {
    if Inv(w) { StepKeepsInv(w, e); }
  }

  lemma RunLeads(w: World, events: seq<Event>)
    ensures Leads(w, Run(w, events))
  {
    if Inv(w) { RunKeepsInv(w, events); }
  }

  lemma LeadsOn(u: World, v: World, w: World)
    requires Leads(u, v) && Leads(v, w)
    ensures Leads(u, w)
  {
    if Inv(u) { WorldAdvancesTransitive(u, v, w); }
  }

  /** The operation a call shows its caller beside an error, if any, is the record as it stood at some moment of the
      call: no older than at its start in w, and no newer than at its end in v. */
  ghost predicate Glimpsed(w: World, v: World, o: nat, shown: Option<Operation>) {
    shown.Some? && Inv(w) ==>
      && o < |v.db.ops| && OpAdvances(shown.value, v.db.ops[o])
      && (o < |w.db.ops| ==> OpAdvances(w.db.ops[o], shown.value))
  }

  lemma GlimpsedNow(start: World, trace: seq<Move>, o: nat)
    requires o < |Run(start, Events(trace)).db.ops|
    ensures Glimpsed(start, Run(start, Events(trace)), o, Some(Run(start, Events(trace)).db.ops[o]))
  {
    var w := Run(start, Events(trace));
    RunLeads(start, Events(trace));
    RunLeads(w, []);
    if Inv(start) { assert OpAdvances(w.db.ops[o], w.db.ops[o]); }
  }

  lemma GlimpsedStill(u: World, v: World, w: World, o: nat, shown: Option<Operation>)
    requires Glimpsed(u, v, o, shown) && Leads(u, v) && Leads(v, w)
    ensures Glimpsed(u, w, o, shown)
  {
    if shown.Some? && Inv(u) { assert OpAdvances(v.db.ops[o], w.db.ops[o]); }
  }

  /** The operation has left PREPARED and DISPATCHED behind. */
  ghost predicate Classified(w: World, o: nat) {
    o < |w.db.ops| && Stage(w.db.ops[o].state) >= 2
  }

  lemma StaysClassified(w: World, v: World, o: nat)
    requires Inv(w) && Leads(w, v) && Classified(w, o)
    ensures Classified(v, o)
  {
    assert OpAdvances(w.db.ops[o], v.db.ops[o]);
  }

  /** Lets the others act and writes their events into the trace. */
  method Interleave(box: Box, ghost start: World, ghost trace: seq<Move>, events: seq<Event>) returns (ghost longer: seq<Move>)
    requires box.State() == Run(start, Events(trace))
    modifies box
    ensures box.State() == Run(start, Events(longer)) == Run(old(box.State()), events)
    ensures Mine(longer) == Mine(trace) && trace <= longer
    ensures Leads(old(box.State()), box.State())
    ensures events == [] ==> box.State() == old(box.State())
  {
    OtherSteps(start, trace, events);
    RunLeads(box.State(), events);
    longer := trace + Foreign(events);
    box.Others(events);
  }

  /** Nobody else does anything during the call. */
  ghost predicate Quiet(others: nat -> seq<Event>) {
    forall k: nat :: others(k) == []
  }

  // ----- reconciliation -----

  predicate Concluding(mine: seq<Event>, o: nat) {
    forall i | 0 <= i < |mine| :: mine[i].Concludes? && mine[i].operation == o
  }

  predicate Establishes(answer: Answer) {
    answer.Acknowledged? && (answer.outcome.state == ConfirmedEffect || answer.outcome.state == ConfirmedNoEffect)
  }

  /** What a dispatcher reports once the answer is written down: the operation as settled, or that its outcome is not
      known, if the answer was anything but a confirmed outcome. */
  function Report(x: Db, o: nat, answer: Answer): Result<Operation> {
    match RecordTx(x, o, answer)
    case Err(e) => Err(e)
    case Ok(y) => if Establishes(answer) && o < |y.ops| then Ok(y.ops[o]) else Err(OutcomeUnknown)
  }

  /** What is shown is the record as it stands at the end of the call, and it is shown whenever the outcome is reported
      unknown. */
  ghost predicate Current(w: World, o: nat, r: Result<Operation>, shown: Option<Operation>) {
    && (shown.Some? ==> o < |w.db.ops| && shown.value == w.db.ops[o])
    && (r == Err(OutcomeUnknown) ==> shown.Some?)
  }

  /** Conservatively classifies the operation, as one step of the run. */
  method Doubt(box: Box, o: nat, ghost start: World, ghost trace: seq<Move>)
    returns (r: Result<Operation>, ghost longer: seq<Move>)
    requires box.State() == Run(start, Events(trace))
    modifies box
    ensures box.State() == Run(start, Events(longer))
    ensures Mine(longer) == Mine(trace) + [Concludes(o, Unacknowledged)]
    ensures box.State() == Step(old(box.State()), Concludes(o, Unacknowledged))
    ensures match MarkUnknownTx(old(box.Data()), o) case Ok(_) => r.Ok? case Err(e) => r == Err(e)
    ensures r.Ok? ==> o < |box.operations| && r.value == box.operations[o] && Classified(box.State(), o)
    ensures r.Err? ==> r.error != OutcomeUnknown
    ensures Leads(old(box.State()), box.State())
  {
    OwnStep(start, trace, Concludes(o, Unacknowledged));
    StepLeads(box.State(), Concludes(o, Unacknowledged));
    longer := trace + [Own(Concludes(o, Unacknowledged))];
    r := OperationService.MarkUnknown(box, o);
  }

  method Conclude(box: Box, o: nat, outcome: ProviderOutcome, ghost start: World, ghost trace: seq<Move>)
    returns (r: Result<Operation>, ghost longer: seq<Move>)
    requires box.State() == Run(start, Events(trace)) && Confirmed(outcome.state)
    modifies box
    ensures box.State() == Run(start, Events(longer))
    ensures Mine(longer) == Mine(trace) + [Concludes(o, Acknowledged(outcome))]
    ensures box.State() == Step(old(box.State()), Concludes(o, Acknowledged(outcome)))
    ensures r == Report(old(box.Data()), o, Acknowledged(outcome))
    ensures r.Ok? ==> o < |box.operations| && r.value == box.operations[o] && r.value.state == outcome.state
    ensures r.Err? ==> r.error != OutcomeUnknown
    ensures Leads(old(box.State()), box.State())
  {
    OwnStep(start, trace, Concludes(o, Acknowledged(outcome)));
    StepLeads(box.State(), Concludes(o, Acknowledged(outcome)));
    longer := trace + [Own(Concludes(o, Acknowledged(outcome)))];
    r := OperationService.SettleOutcome(box, o, outcome);
  }

  /** The lookup did not establish an outcome. */
  method LeaveOpen(box: Box, o: nat, ghost start: World, ghost trace: seq<Move>)
    returns (r: Result<Operation>, shown: Option<Operation>, ghost longer: seq<Move>)
    requires box.State() == Run(start, Events(trace)) && Concluding(Mine(trace), o)
    modifies box
    ensures box.State() == Run(start, Events(longer)) && Concluding(Mine(longer), o)
    ensures r.Err? && Leads(old(box.State()), box.State()) && Glimpsed(start, box.State(), o, shown)
    ensures box.State() == Step(old(box.State()), Concludes(o, Unacknowledged))
    ensures r == Report(old(box.Data()), o, Unacknowledged) && Current(box.State(), o, r, shown)
  {
    r, longer := Doubt(box, o, start, trace);
    if r.Err? { return r, None, longer; }
    GlimpsedNow(start, longer, o);
    return Err(OutcomeUnknown), Some(r.value), longer;
  }

  /** The lookup established one. */
  method Establish(box: Box, o: nat, outcome: ProviderOutcome, ghost start: World, ghost trace: seq<Move>)
    returns (r: Result<Operation>, shown: Option<Operation>, ghost longer: seq<Move>)
    requires box.State() == Run(start, Events(trace)) && Concluding(Mine(trace), o) && Confirmed(outcome.state)
    modifies box
    ensures box.State() == Run(start, Events(longer)) && Concluding(Mine(longer), o)
    ensures r.Ok? ==> o < |box.operations| && r.value == box.operations[o] && Confirmed(r.value.state) && shown == Some(r.value)
    ensures Leads(old(box.State()), box.State()) && Glimpsed(start, box.State(), o, shown)
    ensures box.State() == Step(old(box.State()), Concludes(o, Acknowledged(outcome)))
    ensures r == Report(old(box.Data()), o, Acknowledged(outcome)) && Current(box.State(), o, r, shown)
  {
    r, longer := Conclude(box, o, outcome, start, trace);
    if r.Err? { return r, None, longer; }
    GlimpsedNow(start, longer, o);
    shown := Some(r.value);
  }

  /** Undisturbed, the lookup's answer decides: nothing is written if the provider is not there or its answer makes no
      sense, an answer that establishes nothing leaves the outcome open, and a confirmed outcome is settled. */
  ghost predicate LookedUp(w: World, v: World, known: bool, o: nat, lookup: Answer, r: Result<Operation>) {
    if !known then v == w && r == Err(NotFound)
    else if lookup.Unacknowledged? || lookup.outcome.state == OutcomeUncertain then
      v == Step(w, Concludes(o, Unacknowledged)) && r == Report(w.db, o, Unacknowledged)
    else if Establishes(lookup) then v == Step(w, Concludes(o, lookup)) && r == Report(w.db, o, lookup)
    else v == w && r == Err(OutcomeUnknown)
  }

  /** The second half of reconciliation: what the provider's lookup establishes about a classified operation. */
  method LookUp(box: Box, reg: Registry, op: Operation, o: nat, lookup: Answer, events: seq<Event>,
                ghost start: World, ghost before: seq<Move>)
    returns (r: Result<Operation>, shown: Option<Operation>, ghost trace: seq<Move>)
    requires box.State() == Run(start, Events(before)) && Concluding(Mine(before), o)
    requires Leads(start, box.State()) && Glimpsed(start, box.State(), o, Some(op))
    modifies box
    ensures box.State() == Run(start, Events(trace)) && Concluding(Mine(trace), o)
    ensures r.Ok? ==> o < |box.operations| && r.value == box.operations[o] && Confirmed(r.value.state) && shown == Some(r.value)
    ensures Leads(old(box.State()), box.State()) && Glimpsed(start, box.State(), o, shown)
    ensures events == [] ==> LookedUp(old(box.State()), box.State(), op.provider in reg, o, lookup, r)
    ensures events == [] && o < old(|box.operations|) && op == old(box.operations[o]) ==> Current(box.State(), o, r, shown)
  {
    trace := before;
    if op.provider !in reg {
      RunLeads(box.State(), []);
      return Err(NotFound), Some(op), trace;
    }
    trace := Interleave(box, start, trace, events);
    ghost var asked := box.State();
    GlimpsedStill(start, old(box.State()), asked, o, Some(op));
    if lookup.Unacknowledged? || lookup.outcome.state == OutcomeUncertain {
      r, shown, trace := LeaveOpen(box, o, start, trace);
    } else if !Confirmed(lookup.outcome.state) {
      return Err(OutcomeUnknown), Some(op), trace;
    } else {
      r, shown, trace := Establish(box, o, lookup.outcome, start, trace);
    }
    LeadsOn(old(box.State()), asked, box.State());
  }

  /** Undisturbed, a dispatched operation is taken to be in doubt, and one that already is stays as it is. */
  ghost predicate Doubted(w: World, v: World, o: nat, op: Operation, r: Result<Operation>) {
    if op.state == OutcomeUncertain then v == w && r == Ok(op)
    else
      && v == Step(w, Concludes(o, Unacknowledged))
      && match MarkUnknownTx(w.db, o) case Ok(y) => o < |y.ops| && r == Ok(y.ops[o]) case Err(e) => r == Err(e)
  }

  /** Undisturbed reconciliation of an operation that is out. */
  ghost predicate QuietlyReconciled(w: World, v: World, reg: Registry, o: nat, lookup: Answer, r: Result<Operation>)
    requires o < |w.db.ops|
  {
    exists u: World, doubted: Result<Operation> ::
      && Doubted(w, u, o, w.db.ops[o], doubted)
      && if doubted.Err? then v == u && r == doubted else LookedUp(u, v, doubted.value.provider in reg, o, lookup, r)
  }

  /** The first half: a dispatched operation is classified before anyone is asked about it. */
  method Classify(box: Box, o: nat, op: Operation, events: seq<Event>, ghost start: World)
    returns (r: Result<Operation>, ghost trace: seq<Move>)
    requires box.State() == start && o < |box.operations| && op == box.operations[o]
    requires op.state == Dispatched || op.state == OutcomeUncertain
    modifies box
    ensures box.State() == Run(start, Events(trace)) && Concluding(Mine(trace), o)
    ensures r.Ok? ==> o < |box.operations| && r.value == box.operations[o] && Classified(box.State(), o)
    ensures r.Err? ==> r.error != OutcomeUnknown
    ensures Leads(start, box.State())
    ensures events == [] || op.state == OutcomeUncertain ==> Doubted(start, box.State(), o, op, r)
  {
    trace := [];
    assert Events(trace) == [];
    RunLeads(start, []);
    if op.state == OutcomeUncertain { return Ok(op), trace; }
    trace := Interleave(box, start, trace, events);
    ghost var read := box.State();
    r, trace := Doubt(box, o, start, trace);
    LeadsOn(start, read, box.State());
  }

  predicate Out(s: OperationState) {
    s == Dispatched || s == OutcomeUncertain
  }

  /** Establishes the outcome of a dispatched operation by asking its provider; never sends anything. A confirmed
      answer is on record when the call returns it, and a call that ends with one, or with the outcome still
      unknown, leaves the operation no longer DISPATCHED. */
  method Reconcile(box: Box, reg: Registry, o: nat, lookup: Answer, others: nat -> seq<Event>)
    returns (r: Result<Operation>, shown: Option<Operation>, ghost trace: seq<Move>)
    modifies box
    ensures box.State() == Run(old(box.State()), Events(trace))
    ensures Concluding(Mine(trace), o)
    ensures r.Ok? ==> o < |box.operations| && r.value == box.operations[o] && Confirmed(r.value.state) && shown == Some(r.value)
    ensures old(Inv(box.State())) && (r.Ok? || r == Err(OutcomeUnknown)) ==> Classified(box.State(), o)
    ensures Leads(old(box.State()), box.State()) && Glimpsed(old(box.State()), box.State(), o, shown)
    ensures !(o < old(|box.operations|) && Out(old(box.operations[o].state))) ==>
      && box.State() == old(box.State())
      && if o < old(|box.operations|) && Confirmed(old(box.operations[o].state)) then r == Ok(old(box.operations[o])) else r.Err?
    ensures Quiet(others) && o < old(|box.operations|) && Out(old(box.operations[o].state)) ==>
      QuietlyReconciled(old(box.State()), box.State(), reg, o, lookup, r) && Current(box.State(), o, r, shown)
  {
    ghost var start := box.State();
    trace := [];
    assert Events(trace) == [];
    RunLeads(start, []);
    if o >= |box.operations| { return Err(NotFound), None, trace; }
    var op := box.operations[o];
    GlimpsedNow(start, trace, o);
    if Confirmed(op.state) { return Ok(op), Some(op), trace; }
    if op.state == OperationCancelled || op.state == Prepared { return Err(WrongState), Some(op), trace; }
    r, shown, trace := ReconcileOut(box, reg, o, op, lookup, others);
  }

  /** The operation was found to be out. */
  method ReconcileOut(box: Box, reg: Registry, o: nat, op: Operation, lookup: Answer, others: nat -> seq<Event>)
    returns (r: Result<Operation>, shown: Option<Operation>, ghost trace: seq<Move>)
    requires o < |box.operations| && op == box.operations[o] && Out(op.state)
    modifies box
    ensures box.State() == Run(old(box.State()), Events(trace))
    ensures Concluding(Mine(trace), o)
    ensures r.Ok? ==> o < |box.operations| && r.value == box.operations[o] && Confirmed(r.value.state) && shown == Some(r.value)
    ensures old(Inv(box.State())) && (r.Ok? || r == Err(OutcomeUnknown)) ==> Classified(box.State(), o)
    ensures Leads(old(box.State()), box.State()) && Glimpsed(old(box.State()), box.State(), o, shown)
    ensures Quiet(others) ==> QuietlyReconciled(old(box.State()), box.State(), reg, o, lookup, r) && Current(box.State(), o, r, shown)
  {
    ghost var start := box.State();
    r, trace := Classify(box, o, op, others(0), start);
    if r.Err? { return r, None, trace; }
    ghost var middle := box.State();
    GlimpsedNow(start, trace, o);
    r, shown, trace := LookUp(box, reg, r.value, o, lookup, others(1), start, trace);
    LeadsOn(start, middle, box.State());
    if Inv(middle) { StaysClassified(middle, box.State(), o); }
  }

  // ----- traces that go on -----

  lemma EventsAppend(a: seq<Move>, b: seq<Move>)
    ensures Events(a + b) == Events(a) + Events(b)
  {
  }

  lemma TraceOn(w: World, a: seq<Move>, b: seq<Move>)
    ensures Run(w, Events(a + b)) == Run(Run(w, Events(a)), Events(b))
    ensures Mine(a + b) == Mine(a) + Mine(b)
  {
    EventsAppend(a, b);
    RunConcat(w, Events(a), Events(b));
    MineAppend(a, b);
  }

  predicate Concludings(mine: seq<Event>) {
    forall i | 0 <= i < |mine| :: mine[i].Concludes?
  }

  // ----- dispatch -----

  /** The dispatch commit, which also puts the call under way on the books. */
  method CommitStep(box: Box, reg: Registry, o: nat, a: nat, d: Decision, began: int, ghost start: World, ghost trace: seq<Move>)
    returns (r: Result<nat>, ghost longer: seq<Move>)
    requires box.State() == Run(start, Events(trace))
    modifies box
    ensures box.State() == Run(start, Events(longer)) == Step(old(box.State()), Commits(reg, o, a, d, began))
    ensures Mine(longer) == Mine(trace) + [Commits(reg, o, a, d, began)]
    ensures match CommitTx(reg, old(box.Data()), o, a, d, began, old(box.now))
            case Ok(_) => r == Ok(old(|box.calls|)) && Ready(box.State(), r.value) && box.calls[r.value].operation == o
            case Err(e) => r == Err(e)
    ensures Leads(old(box.State()), box.State())
  {
    var e := Commits(reg, o, a, d, began);
    OwnStep(start, trace, e);
    StepLeads(box.State(), e);
    longer := trace + [Own(e)];
    ghost var next := Step(box.State(), e);
    var committed := OperationService.Commit(box, reg, o, a, d, began);
    if committed.Err? { return Err(committed.error), longer; }
    r := Ok(|box.calls|);
    box.calls := box.calls + [Call(o, Committed, false)];
    assert box.State() == next;
  }

  /** The provider call itself, outside any transaction. */
  method SendStep(box: Box, i: nat, answer: Answer, ghost start: World, ghost trace: seq<Move>) returns (ghost longer: seq<Move>)
    requires box.State() == Run(start, Events(trace)) && Ready(box.State(), i)
    modifies box
    ensures box.State() == Run(start, Events(longer)) == Step(old(box.State()), Sends(i, answer))
    ensures i < |box.calls| && box.calls[i] == Call(old(box.calls[i].operation), Answered(answer), true)
    ensures box.Data() == old(box.Data())
    ensures Mine(longer) == Mine(trace) + [Sends(i, answer)]
  {
    OwnStep(start, trace, Sends(i, answer));
    longer := trace + [Own(Sends(i, answer))];
    ghost var next := Step(box.State(), Sends(i, answer));
    box.sends := box.sends + [box.calls[i].operation];
    box.calls := box.calls[i := Call(box.calls[i].operation, Answered(answer), true)];
    assert box.State() == next;
  }

  /** Writes down what the provider answered. */
  method RecordStep(box: Box, i: nat, answer: Answer, ghost start: World, ghost trace: seq<Move>)
    returns (r: Result<Operation>, shown: Option<Operation>, ghost longer: seq<Move>)
    requires box.State() == Run(start, Events(trace)) && i < |box.calls| && box.calls[i].phase == Answered(answer)
    modifies box
    ensures box.State() == Run(start, Events(longer)) == Step(old(box.State()), Records(i))
    ensures Mine(longer) == Mine(trace) + [Records(i)]
    ensures shown.Some? ==> old(box.calls[i].operation) < |box.operations| && shown.value == box.operations[old(box.calls[i].operation)]
    ensures r.Ok? ==> shown == Some(r.value) && Confirmed(r.value.state)
    ensures r == Report(old(box.Data()), old(box.calls[i].operation), answer) && (r == Err(OutcomeUnknown) ==> shown.Some?)
  {
    OwnStep(start, trace, Records(i));
    longer := trace + [Own(Records(i))];
    ghost var next := Step(box.State(), Records(i));
    var o := box.calls[i].operation;
    if answer.Acknowledged? && Confirmed(answer.outcome.state) {
      r := OperationService.SettleOutcome(box, o, answer.outcome);
      shown := if r.Ok? then Some(r.value) else None;
    } else {
      r := OperationService.MarkUnknown(box, o);
      shown := if r.Ok? then Some(r.value) else None;
      if r.Ok? { r := Err(OutcomeUnknown); }
    }
    box.calls := box.calls[i := box.calls[i].(phase := Finished)];
    assert box.State() == next;
  }

  predicate Sending(mine: seq<Event>, o: nat, a: nat) {
    && 1 <= |mine| <= 3
    && mine[0].Commits? && mine[0].operation == o && mine[0].attempt == a
    && (|mine| >= 2 ==> mine[1].Sends?)
    && (|mine| >= 3 ==> mine[2] == Records(mine[1].call))
  }

  method CommitAfter(box: Box, reg: Registry, o: nat, a: nat, d: Decision, began: int, events: seq<Event>,
                     ghost start: World, ghost before: seq<Move>)
    returns (r: Result<nat>, ghost trace: seq<Move>)
    requires box.State() == Run(start, Events(before))
    modifies box
    ensures box.State() == Run(start, Events(trace))
    ensures Mine(before) == [] ==> Mine(trace) == [Commits(reg, o, a, d, began)] && Sending(Mine(trace), o, a)
    ensures box.State() == Step(Run(old(box.State()), events), Commits(reg, o, a, d, began))
    ensures r.Ok? ==> Ready(box.State(), r.value) && box.calls[r.value].operation == o
    ensures events == [] ==>
      match CommitTx(reg, old(box.Data()), o, a, d, began, old(box.now))
      case Ok(_) => r == Ok(old(|box.calls|))
      case Err(e) => r == Err(e)
    ensures Leads(old(box.State()), box.State())
  {
    trace := Interleave(box, start, before, events);
    ghost var read := box.State();
    r, trace := CommitStep(box, reg, o, a, d, began, start, trace);
    LeadsOn(old(box.State()), read, box.State());
  }

  /** Undisturbed, the call commits and then calls the provider and writes the answer down, or fails with the commit. */
  ghost predicate QuietlySent(w: World, v: World, reg: Registry, o: nat, a: nat, d: Decision, began: int, answer: Answer,
                              r: Result<Operation>)
  {
    var u := Step(w, Commits(reg, o, a, d, began));
    match CommitTx(reg, w.db, o, a, d, began, w.now)
    case Err(e) => v == u && r == Err(e)
    case Ok(_) => v == Step(Step(u, Sends(|w.calls|, answer)), Records(|w.calls|)) && r == Report(u.db, o, answer)
  }

  /** Commit, call, record: with others acting before each step, and the call possibly dead when they are done. */
  method SendOut(box: Box, reg: Registry, o: nat, a: nat, d: Decision, began: int, answer: Answer, others: nat -> seq<Event>,
                 op: Operation, ghost start: World, ghost before: seq<Move>)
    returns (r: Result<Operation>, shown: Option<Operation>, ghost trace: seq<Move>)
    requires box.State() == Run(start, Events(before)) && Mine(before) == []
    requires Leads(start, box.State()) && Glimpsed(start, box.State(), o, Some(op))
    modifies box
    ensures box.State() == Run(start, Events(trace))
    ensures Sending(Mine(trace), o, a) && Mine(trace)[0] == Commits(reg, o, a, d, began)
    ensures r.Ok? ==> o < |box.operations| && r.value == box.operations[o] && Confirmed(r.value.state) && shown == Some(r.value)
    ensures Glimpsed(start, box.State(), o, shown)
    ensures Quiet(others) ==> QuietlySent(old(box.State()), box.State(), reg, o, a, d, began, answer, r)
    ensures Quiet(others) && o < old(|box.operations|) && op == old(box.operations[o]) ==> Current(box.State(), o, r, shown)
  {
    var committed: Result<nat>;
    committed, trace := CommitAfter(box, reg, o, a, d, began, others(0), start, before);
    if committed.Err? {
      GlimpsedStill(start, old(box.State()), box.State(), o, Some(op));
      return Err(committed.error), Some(op), trace;
    }
    r, shown, trace := SendAndRecord(box, o, a, committed.value, answer, others(1), others(2), start, trace);
  }

  /** The half of a dispatch after its commit. */
  method SendAndRecord(box: Box, o: nat, a: nat, i: nat, answer: Answer, meanwhile: seq<Event>, afterwards: seq<Event>,
                       ghost start: World, ghost before: seq<Move>)
    returns (r: Result<Operation>, shown: Option<Operation>, ghost trace: seq<Move>)
    requires box.State() == Run(start, Events(before)) && Sending(Mine(before), o, a) && |Mine(before)| == 1
    modifies box
    ensures box.State() == Run(start, Events(trace))
    ensures Sending(Mine(trace), o, a) && Mine(trace)[0] == Mine(before)[0]
    ensures r.Ok? ==> o < |box.operations| && r.value == box.operations[o] && Confirmed(r.value.state) && shown == Some(r.value)
    ensures Glimpsed(start, box.State(), o, shown)
    ensures meanwhile == [] && afterwards == [] && old(Ready(box.State(), i)) && old(box.calls[i].operation) == o ==>
      && box.State() == Step(Step(old(box.State()), Sends(i, answer)), Records(i))
      && r == Report(old(box.Data()), o, answer) && Current(box.State(), o, r, shown)
  {
    trace := Interleave(box, start, before, meanwhile);
    if !Ready(box.State(), i) || box.calls[i].operation != o { return Err(OutcomeUnknown), None, trace; }
    trace := SendStep(box, i, answer, start, trace);
    r, shown, trace := RecordAfter(box, o, a, i, answer, afterwards, start, trace);
  }

  /** The answer is written down, unless the call has died meanwhile. */
  method RecordAfter(box: Box, o: nat, a: nat, i: nat, answer: Answer, events: seq<Event>, ghost start: World, ghost before: seq<Move>)
    returns (r: Result<Operation>, shown: Option<Operation>, ghost trace: seq<Move>)
    requires box.State() == Run(start, Events(before))
    requires Sending(Mine(before), o, a) && |Mine(before)| == 2 && Mine(before)[1].call == i
    modifies box
    ensures box.State() == Run(start, Events(trace))
    ensures Sending(Mine(trace), o, a) && Mine(trace)[0] == Mine(before)[0]
    ensures r.Ok? ==> o < |box.operations| && r.value == box.operations[o] && Confirmed(r.value.state) && shown == Some(r.value)
    ensures Glimpsed(start, box.State(), o, shown)
    ensures events == [] && i < old(|box.calls|) && old(box.calls[i].phase) == Answered(answer) && old(box.calls[i].operation) == o ==>
      && box.State() == Step(old(box.State()), Records(i))
      && r == Report(old(box.Data()), o, answer) && Current(box.State(), o, r, shown)
  {
    trace := Interleave(box, start, before, events);
    if i >= |box.calls| || box.calls[i].phase != Answered(answer) || box.calls[i].operation != o {
      return Err(OutcomeUnknown), None, trace;
    }
    r, shown, trace := RecordStep(box, i, answer, start, trace);
    if shown.Some? { GlimpsedNow(start, trace, o); }
  }

  method CancelStep(box: Box, o: nat, a: nat, events: seq<Event>, ghost start: World, ghost before: seq<Move>)
    returns (r: Result<()>, ghost trace: seq<Move>)
    requires box.State() == Run(start, Events(before))
    modifies box
    ensures box.State() == Run(start, Events(trace)) && Mine(trace) == Mine(before) + [Cancels(o, a)]
    ensures box.State() == Step(Run(old(box.State()), events), Cancels(o, a))
    ensures events == [] ==>
      match CancelTx(old(box.Data()), o, a, old(box.now))
      case Ok(_) => r == Ok(())
      case Err(e) => r == Err(e)
    ensures Leads(old(box.State()), box.State())
  {
    trace := Interleave(box, start, before, events);
    ghost var read := box.State();
    OwnStep(start, trace, Cancels(o, a));
    StepLeads(read, Cancels(o, a));
    trace := trace + [Own(Cancels(o, a))];
    r := OperationService.CancelPrepared(box, o, a);
    LeadsOn(old(box.State()), read, box.State());
  }

  /** Undisturbed, a refused call withdraws the operation and says why. */
  ghost predicate QuietlyWithdrawn(w: World, v: World, o: nat, a: nat, r: Result<Operation>) {
    && v == Step(w, Cancels(o, a))
    && match CancelTx(w.db, o, a, w.now)
       case Err(e) => r == Err(e)
       case Ok(_) => o < |v.db.ops| ==> r == Err(PolicyDenied)
  }

  /** The refusal path: the dispatch-time policy, its provenance or the authority check said no. */
  method Withdraw(box: Box, o: nat, a: nat, others: nat -> seq<Event>, op: Operation, ghost start: World, ghost before: seq<Move>)
    returns (r: Result<Operation>, shown: Option<Operation>, ghost trace: seq<Move>)
    requires box.State() == Run(start, Events(before)) && Mine(before) == []
    requires Leads(start, box.State()) && Glimpsed(start, box.State(), o, Some(op))
    modifies box
    ensures box.State() == Run(start, Events(trace)) && Mine(trace) == [Cancels(o, a)] && r.Err?
    ensures Glimpsed(start, box.State(), o, shown)
    ensures Quiet(others) ==> QuietlyWithdrawn(old(box.State()), box.State(), o, a, r)
    ensures Quiet(others) && o < old(|box.operations|) && op == old(box.operations[o]) ==> Current(box.State(), o, r, shown)
  {
    var cancelled: Result<()>;
    cancelled, trace := CancelStep(box, o, a, others(0), start, before);
    if cancelled.Err? {
      GlimpsedStill(start, old(box.State()), box.State(), o, Some(op));
      return Err(cancelled.error), Some(op), trace;
    }
    trace := Interleave(box, start, trace, others(1));
    if o >= |box.operations| { return Err(NotFound), None, trace; }
    GlimpsedNow(start, trace, o);
    return Err(PolicyDenied), Some(box.operations[o]), trace;
  }

  /** Undisturbed, an attempt of the task that passes the fence check has the operation reconciled, and any other is
      turned away. */
  ghost predicate QuietlyInquired(w: World, v: World, reg: Registry, o: nat, a: nat, lookup: Answer, r: Result<Operation>)
    requires o < |w.db.ops|
  {
    if Guard(w.db.exec, a, w.now) == Ok(w.db.ops[o].task) then QuietlyReconciled(w, v, reg, o, lookup, r)
    else v == w && r.Err?
  }

  /** A dispatch of an operation that is already out: a live attempt may ask how it went, but sends nothing. */
  method Inquire(box: Box, reg: Registry, o: nat, a: nat, op: Operation, lookup: Answer, others: nat -> seq<Event>)
    returns (r: Result<Operation>, shown: Option<Operation>, ghost trace: seq<Move>)
    requires o < |box.operations| && op == box.operations[o]
    modifies box
    ensures box.State() == Run(old(box.State()), Events(trace)) && Concluding(Mine(trace), o)
    ensures r.Ok? ==> o < |box.operations| && r.value == box.operations[o] && Confirmed(r.value.state) && shown == Some(r.value)
    ensures Glimpsed(old(box.State()), box.State(), o, shown)
    ensures Quiet(others) && Out(op.state) ==>
      QuietlyInquired(old(box.State()), box.State(), reg, o, a, lookup, r) && Current(box.State(), o, r, shown)
  {
    ghost var start := box.State();
    trace := [];
    assert Events(trace) == [];
    GlimpsedNow(start, trace, o);
    RunLeads(start, []);
    trace := Interleave(box, start, trace, others(0));
    ghost var asked := box.State();
    GlimpsedStill(start, start, asked, o, Some(op));
    var guarded := Guard(box.Work(), a, box.now);
    if guarded.Err? { return Err(guarded.error), Some(op), trace; }
    if guarded.value != op.task { return Err(StaleAttempt), Some(op), trace; }
    ghost var steps: seq<Move>;
    r, shown, steps := Reconcile(box, reg, o, lookup, (k: nat) => others(k + 1));
    TraceOn(start, trace, steps);
    trace := trace + steps;
    GlimpsedSince(start, asked, box.State(), o, shown);
  }

  lemma GlimpsedSince(u: World, v: World, w: World, o: nat, shown: Option<Operation>)
    requires Leads(u, v) && Glimpsed(v, w, o, shown)
    ensures Glimpsed(u, w, o, shown)
  {
    if shown.Some? && Inv(u) && o < |u.db.ops| { assert OpAdvances(u.db.ops[o], v.db.ops[o]); }
  }

  /** The operation waits for this very attempt, which belongs to its task, and its provider is there. */
  ghost predicate Awaits(w: World, reg: Registry, o: nat, a: nat) {
    && o < |w.db.ops| && w.db.ops[o].state == Prepared && w.db.ops[o].attempt == a && w.db.ops[o].provider in reg
    && a < |w.db.exec.attempts| && w.db.exec.attempts[a].task == w.db.ops[o].task < |w.db.exec.tasks|
  }

  /** The decision was made for this call, under some complete profile, and lets it go on; and what the task was granted
      covers the provider's capability at the enforcement the task asks for. */
  ghost predicate Cleared(w: World, reg: Registry, o: nat, a: nat, d: Decision)
    requires Awaits(w, reg, o, a)
  {
    var p, spec := reg[w.db.ops[o].provider], w.db.exec.tasks[w.db.ops[o].task].spec;
    && d.id != "" && d.profile.Some? && d.at == w.now && (d.outcome == Allow || d.outcome == RequireApproval)
    && p.capability in spec.authority && AtLeast(p.enforcement, spec.enforcement)
  }

  /** The call's own events, by what it finds: a cleared operation is committed first of all, a refused one is withdrawn,
      one that is already out is only asked about, and in any other case nothing is done. */
  ghost predicate OwnSteps(w: World, reg: Registry, o: nat, a: nat, policy: Result<Decision>, mine: seq<Event>) {
    if o < |w.db.ops| && Out(w.db.ops[o].state) then Concluding(mine, o)
    else if Awaits(w, reg, o, a) && policy.Ok? then
      if Cleared(w, reg, o, a, policy.value) then Sending(mine, o, a) && mine[0] == Commits(reg, o, a, policy.value, w.now)
      else mine == [Cancels(o, a)]
    else mine == []
  }

  /** Dispatch. It sends only an operation it found prepared, only after its own commit, and at most once; what it
      reports as a success is a confirmed outcome that is on record, and what it shows beside an error is the record
      as it stood during the call. */
  method Dispatch(box: Box, reg: Registry, o: nat, a: nat, policy: Result<Decision>, answer: Answer, lookup: Answer,
                  others: nat -> seq<Event>)
    returns (r: Result<Operation>, shown: Option<Operation>, ghost trace: seq<Move>)
    modifies box
    ensures box.State() == Run(old(box.State()), Events(trace))
    ensures Mine(trace) == [] || Mine(trace) == [Cancels(o, a)] || Concluding(Mine(trace), o) || Sending(Mine(trace), o, a)
    ensures OwnSteps(old(box.State()), reg, o, a, policy, Mine(trace))
    ensures Sending(Mine(trace), o, a) ==>
      o < old(|box.operations|) && old(box.operations)[o].state == Prepared && old(box.operations)[o].attempt == a && policy.Ok?
    ensures r.Ok? ==> o < |box.operations| && r.value == box.operations[o] && Confirmed(r.value.state) && shown == Some(r.value)
    ensures Glimpsed(old(box.State()), box.State(), o, shown)
    ensures !(o < old(|box.operations|) && Out(old(box.operations[o].state))) && !(Awaits(old(box.State()), reg, o, a) && policy.Ok?) ==>
      && box.State() == old(box.State())
      && if o < old(|box.operations|) && Confirmed(old(box.operations[o].state)) then r == Ok(old(box.operations[o])) else r.Err?
    ensures Quiet(others) && o < old(|box.operations|) ==> Current(box.State(), o, r, shown)
    ensures Quiet(others) && o < old(|box.operations|) && Out(old(box.operations[o].state)) ==>
      QuietlyInquired(old(box.State()), box.State(), reg, o, a, lookup, r)
    ensures Quiet(others) && Awaits(old(box.State()), reg, o, a) && policy.Ok? ==>
      if Cleared(old(box.State()), reg, o, a, policy.value)
      then QuietlySent(old(box.State()), box.State(), reg, o, a, policy.value, old(box.now), answer, r)
      else QuietlyWithdrawn(old(box.State()), box.State(), o, a, r)
  {
    ghost var start := box.State();
    trace, shown := [], None;
    assert Events(trace) == [];
    if o >= |box.operations| { return Err(NotFound), None, trace; }
    var op := box.operations[o];
    GlimpsedNow(start, trace, o);
    RunLeads(start, []);
    if Confirmed(op.state) { return Ok(op), Some(op), trace; }
    if op.state == OperationCancelled { return Err(WrongState), Some(op), trace; }
    if op.state == Dispatched || op.state == OutcomeUncertain {
      r, shown, trace := Inquire(box, reg, o, a, op, lookup, others);
      return r, shown, trace;
    }
    r, shown, trace := DispatchFound(box, reg, o, a, policy, answer, others);
  }

  /** The operation was found prepared. */
  method DispatchFound(box: Box, reg: Registry, o: nat, a: nat, policy: Result<Decision>, answer: Answer, others: nat -> seq<Event>)
    returns (r: Result<Operation>, shown: Option<Operation>, ghost trace: seq<Move>)
    requires o < |box.operations| && box.operations[o].state == Prepared
    modifies box
    ensures box.State() == Run(old(box.State()), Events(trace))
    ensures OwnSteps(old(box.State()), reg, o, a, policy, Mine(trace))
    ensures r.Ok? ==> o < |box.operations| && r.value == box.operations[o] && Confirmed(r.value.state) && shown == Some(r.value)
    ensures Glimpsed(old(box.State()), box.State(), o, shown)
    ensures !(Awaits(old(box.State()), reg, o, a) && policy.Ok?) ==> box.State() == old(box.State()) && r.Err?
    ensures Quiet(others) ==> Current(box.State(), o, r, shown)
    ensures Quiet(others) && Awaits(old(box.State()), reg, o, a) && policy.Ok? ==>
      if Cleared(old(box.State()), reg, o, a, policy.value)
      then QuietlySent(old(box.State()), box.State(), reg, o, a, policy.value, old(box.now), answer, r)
      else QuietlyWithdrawn(old(box.State()), box.State(), o, a, r)
  {
    ghost var start := box.State();
    trace, shown := [], None;
    assert Events(trace) == [];
    var op := box.operations[o];
    GlimpsedNow(start, trace, o);
    if op.attempt != a { return Err(StaleAttempt), Some(op), trace; }
    if op.provider !in reg { return Err(NotFound), Some(op), trace; }
    if a >= |box.attempts| || box.attempts[a].task >= |box.tasks| || box.attempts[a].task != op.task {
      return Err(StaleAttempt), Some(op), trace;
    }
    if policy.Err? { return Err(policy.error), Some(op), trace; }
    r, shown, trace := DispatchPrepared(box, reg, o, a, policy.value, answer, others);
  }

  lemma ClearedMeans(w: World, reg: Registry, o: nat, a: nat, d: Decision)
    requires Awaits(w, reg, o, a)
    ensures Cleared(w, reg, o, a, d) <==>
      Provenance(d, w.now) && Permits(d) && Authorised(w.db.exec.tasks[w.db.ops[o].task].spec, reg[w.db.ops[o].provider])
  {
    RankOrder(w.db.exec.tasks[w.db.ops[o].task].spec.enforcement, reg[w.db.ops[o].provider].enforcement);
  }

  /** The operation was found prepared for this attempt, and a decision has been made. */
  method DispatchPrepared(box: Box, reg: Registry, o: nat, a: nat, d: Decision, answer: Answer, others: nat -> seq<Event>)
    returns (r: Result<Operation>, shown: Option<Operation>, ghost trace: seq<Move>)
    requires Awaits(box.State(), reg, o, a)
    modifies box
    ensures box.State() == Run(old(box.State()), Events(trace))
    ensures if Cleared(old(box.State()), reg, o, a, d) then Sending(Mine(trace), o, a) && Mine(trace)[0] == Commits(reg, o, a, d, old(box.now))
            else Mine(trace) == [Cancels(o, a)]
    ensures r.Ok? ==> o < |box.operations| && r.value == box.operations[o] && Confirmed(r.value.state) && shown == Some(r.value)
    ensures Glimpsed(old(box.State()), box.State(), o, shown)
    ensures Quiet(others) ==> Current(box.State(), o, r, shown)
    ensures Quiet(others) ==>
      if Cleared(old(box.State()), reg, o, a, d)
      then QuietlySent(old(box.State()), box.State(), reg, o, a, d, old(box.now), answer, r)
      else QuietlyWithdrawn(old(box.State()), box.State(), o, a, r)
  {
    ghost var start := box.State();
    trace, shown := [], None;
    assert Events(trace) == [];
    GlimpsedNow(start, trace, o);
    RunLeads(start, []);
    ClearedMeans(start, reg, o, a, d);
    var op, began := box.operations[o], box.now;
    if !Provenance(d, began) || !Permits(d) || !Authorised(box.tasks[op.task].spec, reg[op.provider]) {
      r, shown, trace := Withdraw(box, o, a, others, op, start, trace);
    } else {
      r, shown, trace := SendOut(box, reg, o, a, d, began, answer, others, op, start, trace);
    }
  }
}
