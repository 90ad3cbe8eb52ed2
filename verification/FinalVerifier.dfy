/** One final verifier's own code: confirm every slot with its provider, finalise the task, and close the case, with
    other work on the same tables going on in between. */
module FinalVerifier {
  import opened Domain
  import opened Leases
  import opened World
  import opened Box
  import opened Cases
  import opened CaseRuns
  import opened CaseService
  import opened Verdicts
  import ExecutionService

  datatype Disposition = Waiting | Refused(slot: string, state: OperationState) | Closable

  /** The first slot whose effect is not confirmed. */
  predicate FirstOpen(slots: seq<string>, lookup: string -> Result<OperationState>, i: int) {
    && 0 <= i < |slots| && lookup(slots[i]) != Ok(ConfirmedEffect)
    && forall j | 0 <= j < i :: lookup(slots[j]) == Ok(ConfirmedEffect)
  }

  /** A provider that cannot be asked is an error, an unknown outcome is waited for, and any other refuses the case. */
  ghost predicate Means(slot: string, answer: Result<OperationState>, r: Result<Disposition>) {
    match r
    case Err(e) => answer == Err(e)
    case Ok(Waiting) => answer == Ok(OutcomeUncertain)
    case Ok(Refused(named, state)) => named == slot && answer == Ok(state) && state != OutcomeUncertain
    case Ok(Closable) => false
  }

  /** Asks about each slot in turn and stops at the first that is not confirmed: the case can be closed only when all
      are, waits when that one's outcome is unknown, and is refused when it is anything else. */
  method LookUpSlots(slots: seq<string>, lookup: string -> Result<OperationState>) returns (r: Result<Disposition>)
    ensures r == Ok(Closable) <==> forall s | s in slots :: lookup(s) == Ok(ConfirmedEffect)
    ensures r != Ok(Closable) ==> exists i :: FirstOpen(slots, lookup, i) && Means(slots[i], lookup(slots[i]), r)
  {
    for i := 0 to |slots|
      invariant forall j | 0 <= j < i :: lookup(slots[j]) == Ok(ConfirmedEffect)
    {
      var answer := lookup(slots[i]);
      if answer != Ok(ConfirmedEffect) {
        assert slots[i] in slots;
        assert FirstOpen(slots, lookup, i);
        match answer
        case Err(e) => return Err(e);
        case Ok(state) => return Ok(if state == OutcomeUncertain then Waiting else Refused(slots[i], state));
      }
    }
    return Ok(Closable);
  }

  /** Accepts the task unless it already succeeded; losing that race to another verifier is as good as winning it. */
  method FinaliseTask(box: Box, t: nat, evidence: bool, others: seq<Event>) returns (r: Result<bool>)
    requires t < |box.tasks|
    modifies box
    ensures r == Ok(true) ==> old(box.tasks)[t].state == Succeeded || (t < |box.tasks| && box.tasks[t].state == Succeeded)
    ensures old(box.tasks)[t].state != Succeeded && old(box.tasks)[t].state != AwaitingVerification ==>
      r == Ok(false) && box.State() == old(box.State())
    ensures old(box.tasks)[t].state == Succeeded ==> r == Ok(true) && box.State() == old(box.State())
    ensures old(box.tasks)[t].state == AwaitingVerification ==>
      var w := Run(old(box.State()), others);
      && box.State() == Step(w, Executes(Accept(t, evidence)))
      && match Tx(w, Executes(Accept(t, evidence)))
         case Ok(_) => r == Ok(true)
         case Err(e) => r == if t < |w.db.exec.tasks| && w.db.exec.tasks[t].state == Succeeded then Ok(true) else Err(e)
  {
    var seen := box.tasks[t].state;
    if seen == Succeeded { return Ok(true); }
    if seen != AwaitingVerification { return Ok(false); }
    box.Others(others);
    ghost var next := Step(box.State(), Executes(Accept(t, evidence)));
    var accepted := ExecutionService.Accept(box, t, evidence);
    assert box.State() == next;
    if accepted.Ok? { return Ok(true); }
    if t < |box.tasks| && box.tasks[t].state == Succeeded { return Ok(true); }
    return Err(accepted.error);
  }

  /** What precedes a step of the verifier: the work of others, and whether the database aborts the step if it is a
      close. */
  datatype Pause = Pause(work: seq<CaseEvent>, aborted: bool)

  /** The verifier's program, with the given pause before each of its steps. */
  function Program(l: Ledger, f: Final, pauses: seq<Pause>): Standing {
    if pauses == [] then Standing(l, Fresh)
    else
      var n := |pauses| - 1;
      var before := Program(l, f, pauses[..n]);
      Advance(CaseRun(before.ledger, pauses[n].work), f, before.stage, pauses[n].aborted)
  }

  lemma ProgramStep(l: Ledger, f: Final, pauses: seq<Pause>, p: Pause)
    ensures Program(l, f, pauses + [p])
         == Advance(CaseRun(Program(l, f, pauses).ledger, p.work), f, Program(l, f, pauses).stage, p.aborted)
  {
    assert (pauses + [p])[..|pauses|] == pauses;
  }

  // ----- the program within the race -----

  /** What a step of a verifier does to the ledger, as events of the ledger. */
  function EventsOf(f: Final, s: Stage, aborted: bool): seq<CaseEvent> {
    match s
    case Absent => [Puts(Evidence(VERIFICATION_KIND, f.body))]
    case Chosen(seal) => if aborted then [] else [Closes(RequestOf(f, seal), true)]
    case Replaying(seal) => if aborted then [] else [Closes(RequestOf(f, seal), true)]
    case _ => []
  }

  function TurnEvents(race: Race, f: Final, who: seq<Identity>, t: Turn): seq<CaseEvent> {
    match t
    case Verifier(i, aborted) =>
      if i < |race.stages| && i < |who| then EventsOf(As(f, who[i]), race.stages[i], aborted) else []
    case Elsewhere(e) => if ClosesNot(e, f.id) then [e] else []
  }

  lemma OneEvent(l: Ledger, e: CaseEvent)
    ensures CaseRun(l, [e]) == CaseStep(l, e)
  {
    assert [e][..0] == [];
    assert CaseRun(l, [e][..0]) == l;
  }

  lemma TurnRuns(race: Race, f: Final, who: seq<Identity>, t: Turn)
    ensures Take(race, f, who, t).ledger == CaseRun(race.ledger, TurnEvents(race, f, who, t))
  {
    var events := TurnEvents(race, f, who, t);
    if |events| == 1 { OneEvent(race.ledger, events[0]); }
  }

  predicate TurnOf(t: Turn, i: nat) {
    t.Verifier? && t.which == i
  }

  function TurnsOf(turns: seq<Turn>, i: nat): nat {
    if turns == [] then 0
    else TurnsOf(turns[..|turns| - 1], i) + (if TurnOf(turns[|turns| - 1], i) then 1 else 0)
  }

  /** In every race each verifier runs this very program, one step for each of its turns, with what the other verifiers
      and everyone else do in between as the work of others. */
  lemma {:induction false} RunsItsProgram(l: Ledger, f: Final, who: seq<Identity>, turns: seq<Turn>, i: nat)
    returns (pauses: seq<Pause>, since: seq<CaseEvent>)
    requires i < |who|
    ensures |Play(Entrants(l, who), f, who, turns).stages| == |who| && |pauses| == TurnsOf(turns, i)
    ensures
      var race, own := Play(Entrants(l, who), f, who, turns), Program(l, As(f, who[i]), pauses);
      own.stage == race.stages[i] && CaseRun(own.ledger, since) == race.ledger
  {
    if turns == [] {
      pauses, since := [], [];
    } else {
      var before, t := turns[..|turns| - 1], turns[|turns| - 1];
      var race := Play(Entrants(l, who), f, who, before);
      pauses, since := RunsItsProgram(l, f, who, before, i);
      if TurnOf(t, i) {
        ProgramStep(l, As(f, who[i]), pauses, Pause(since, t.aborted));
        pauses, since := pauses + [Pause(since, t.aborted)], [];
      } else {
        TurnRuns(race, f, who, t);
        CaseRunConcat(Program(l, As(f, who[i]), pauses).ledger, since, TurnEvents(race, f, who, t));
        since := since + TurnEvents(race, f, who, t);
      }
    }
  }

  // ----- the program itself -----

  /** Reads the verdict on record and the seal it was closed with. */
  method ReadRecord(store: CaseStore, f: Final) returns (r: Option<Result<nat>>)
    ensures
      var found := FindVerdict(store.verdicts, f.id);
      r == if found.None? then None else Some(SealOfRecord(store.State(), f, store.verdicts[found.value]))
  {
    var found := FindVerdict(store.verdicts, f.id);
    if found.None? { return None; }
    var record := store.verdicts[found.value];
    if record.hash != HashOf(f.body) || record.snapshot != f.body { return Some(Err(IntentConflict)); }
    var e := 0;
    while e < |store.evidence|
      invariant 0 <= e <= |store.evidence|
      invariant SealAmong(store.State(), record.evidence, f.body, e).None?
    {
      if e in record.evidence && store.evidence[e] == Evidence(VERIFICATION_KIND, f.body) {
        SealAmongFirst(store.State(), record.evidence, f.body, e, |store.evidence|);
        return Some(Ok(e));
      }
      e := e + 1;
    }
    return Some(Err(NotFound));
  }

  lemma {:induction false} SealAmongFirst(l: Ledger, ids: set<nat>, body: string, e: nat, n: nat)
    requires e < n <= |l.evidence| && SealAmong(l, ids, body, e).None? && e in ids && SealAt(l, e, body)
    ensures SealAmong(l, ids, body, n) == Some(e)
    decreases n
  {
    if e + 1 < n { SealAmongFirst(l, ids, body, e, n - 1); }
  }

  method FindByContent(store: CaseStore, body: string) returns (r: Option<nat>)
    ensures r == FindSeal(store.State(), body, |store.evidence|)
  {
    var e := 0;
    while e < |store.evidence|
      invariant 0 <= e <= |store.evidence|
      invariant FindSeal(store.State(), body, e).None?
    {
      if store.evidence[e] == Evidence(VERIFICATION_KIND, body) {
        assert SealAt(store.State(), e, body) && FindSeal(store.State(), body, |store.evidence|).Some?;
        return Some(e);
      }
      e := e + 1;
    }
    return None;
  }

  /** Picks the seal to close with: that of the record, an earlier one with the same content, or one of its own. It
      takes up to three steps of the program. */
  method ChooseSeal(store: CaseStore, f: Final, others: nat -> seq<CaseEvent>) returns (r: Result<nat>, ghost pauses: seq<Pause>)
    modifies store
    ensures |pauses| <= 3
    ensures Program(old(store.State()), f, pauses) ==
      Standing(store.State(), match r case Ok(seal) => Chosen(seal) case Err(e) => Done(Err(e)))
  {
    ghost var start := store.State();
    pauses := [];
    ProgramStep(start, f, pauses, Pause(others(0), false));
    store.Others(others(0));
    pauses := pauses + [Pause(others(0), false)];
    var record := ReadRecord(store, f);
    if record.Some? { return record.value, pauses; }
    ProgramStep(start, f, pauses, Pause(others(1), false));
    store.Others(others(1));
    pauses := pauses + [Pause(others(1), false)];
    var known := FindByContent(store, f.body);
    if known.Some? { return Ok(known.value), pauses; }
    ProgramStep(start, f, pauses, Pause(others(2), false));
    store.Others(others(2));
    pauses := pauses + [Pause(others(2), false)];
    var put := store.Put(Evidence(VERIFICATION_KIND, f.body));
    return Ok(put), pauses;
  }

  /** How the database and others behave during one closing call. */
  datatype Conditions = Conditions(busy: nat -> bool, others: nat -> seq<CaseEvent>)

  /** A closing call, retries included, is one step of the program: what counts is its last attempt. */
  method CloseWith(store: CaseStore, f: Final, seal: nat, c: Conditions) returns (r: Result<Verification>, ghost p: Pause)
    modifies store
    ensures Closure(store.State(), r) == Closing(CaseRun(old(store.State()), p.work), f, seal, p.aborted)
    ensures r == Err(Busy) ==> forall i | 0 <= i < 20 :: c.busy(i)
  {
    ghost var before: seq<CaseEvent>, aborted: bool;
    r, before, aborted := store.CloseCase(
      Verification(f.id, f.verifier, f.kind, HashOf(f.body), f.body, f.completion + {f.decision, seal}), true, c.busy, c.others);
    p := Pause(before, aborted);
  }

  /** After a conflict: reads the verdict that is in the way. */
  method Reread(store: CaseStore, f: Final, events: seq<CaseEvent>) returns (r: Result<nat>)
    modifies store
    ensures Advance(CaseRun(old(store.State()), events), f, Conflicted, false) ==
      Standing(store.State(), match r case Ok(seal) => Replaying(seal) case Err(e) => Done(Err(e)))
  {
    store.Others(events);
    var record := ReadRecord(store, f);
    return if record.None? then Err(IntentConflict) else record.value;
  }

  /** Then closes again with that verdict's seal. */
  method CloseAgain(store: CaseStore, f: Final, events: seq<CaseEvent>, c: Conditions, ghost start: Ledger, ghost before: seq<Pause>)
    returns (r: Result<Verification>, ghost pauses: seq<Pause>)
    requires Program(start, f, before) == Standing(store.State(), Conflicted)
    modifies store
    ensures |before| < |pauses| <= |before| + 2
    ensures Program(start, f, pauses) == Standing(store.State(), Done(r))
  {
    ProgramStep(start, f, before, Pause(events, false));
    var seal := Reread(store, f, events);
    pauses := before + [Pause(events, false)];
    if seal.Err? { return Err(seal.error), pauses; }
    ghost var p: Pause;
    r, p := CloseWith(store, f, seal.value, c);
    ProgramStep(start, f, pauses, p);
    pauses := pauses + [p];
  }

  /** The close: on a conflict with another verdict for the same snapshot it closes again with that verdict's seal. */
  method CloseFinal(store: CaseStore, f: Final, others: nat -> seq<CaseEvent>, first: Conditions, second: Conditions)
    returns (r: Result<Verification>, ghost pauses: seq<Pause>)
    modifies store
    ensures |pauses| <= 6
    ensures Program(old(store.State()), f, pauses) == Standing(store.State(), Done(r))
  {
    ghost var start := store.State();
    var seal: Result<nat>;
    seal, pauses := ChooseSeal(store, f, others);
    if seal.Err? { return Err(seal.error), pauses; }
    ghost var p: Pause;
    r, p := CloseWith(store, f, seal.value, first);
    ProgramStep(start, f, pauses, p);
    pauses := pauses + [p];
    if r == Err(IntentConflict) { r, pauses := CloseAgain(store, f, others(3), second, start, pauses); }
  }
}
