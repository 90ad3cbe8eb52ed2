/** The publisher at work on the Box: it prepares and dispatches its intents one after the other while other processes
    act, and whatever it writes as evidence holds of the records from then on. So publishing the same decision again
    on a later attempt leads back to the same effects. */
module Publishing {
  import opened Domain
  import opened Strings
  import opened Resources
  import opened Operations
  import opened Lockstep
  import opened Transactions
  import opened World
  import opened Runs
  import opened Replay
  import opened Box
  import opened DispatchService
  import opened Publisher
  import OperationService

  /** What the publisher is configured with: the providers, how they canonicalise an effect, the risk it declares, and
      the owners whose approval it asks for. */
  datatype Channel = Channel(registry: Registry, canonical: Effect -> string, risk: Effect -> string, owners: set<string>)

  /** What others do and answer while one intent is published. */
  datatype Circumstances = Circumstances(
    decision: Decision, policy: Result<Decision>, answer: Answer, lookup: Answer, others: nat -> seq<Event>)

  function RequestFor(ch: Channel, a: nat, i: Intent): (r: PrepareRequest)
    ensures r.attempt == a && r.key == Trim(i.slot)
  {
    if i.effect.VoteEffect? then
      PrepareRequest(a, "ado-pr-vote", Trim(i.slot), "ado.pr.approve", ch.canonical(i.effect), 1,
                     Enforceability(TechnicallyCapped, false, "ado pr vote"), ch.risk(i.effect), ch.owners)
    else
      PrepareRequest(a, "ado-pr-comment", Trim(i.slot), "ado.pr.comment", ch.canonical(i.effect), 1,
                     Enforceability(TechnicallyCapped, false, "ado pr comment"), ch.risk(i.effect), ch.owners)
  }

  function EntryFor(slot: string, o: nat, op: Operation): Entry {
    Entry(slot, Some(o), Some(op.state), op.reference, false, false)
  }

  // ----- what an entry says -----

  /** The task's newest operation under this key. */
  ghost predicate Answers(w: World, a: nat, key: string, o: nat) {
    && a < |w.db.exec.attempts| && o < |w.db.ops|
    && HoldsKey(w.db.slots, w.db.ops[o].slot, w.db.exec.attempts[a].task, key)
    && Latest(w.db.ops, w.db.ops[o].slot) == Some(o)
  }

  ghost predicate NoneLater(start: World, w: World, o: nat)
    requires o < |w.db.ops|
  {
    forall n: nat | n < |start.db.ops| && n < |w.db.ops| && w.db.ops[n].slot == w.db.ops[o].slot :: n <= o
  }

  /** An entry that names an operation: it is one of the effect slot that the intent's key has for the attempt's task,
      none older than what the slot held at the start; and its state and reference were on record at some moment
      since, hence for good once they are final. */
  ghost predicate Holds(start: World, w: World, a: nat, i: Intent, e: Entry) {
    e.operation.Some? ==>
      var o := e.operation.value;
      && a < |w.db.exec.attempts| && o < |w.db.ops| && e.state.Some? && !e.skipped && !e.recordedOnly
      && HoldsKey(w.db.slots, w.db.ops[o].slot, w.db.exec.attempts[a].task, Trim(i.slot))
      && NoneLater(start, w, o)
      && (o < |start.db.ops| ==> Stage(start.db.ops[o].state) <= Stage(e.state.value))
      && Stage(e.state.value) <= Stage(w.db.ops[o].state)
      && (Stage(e.state.value) == 3 ==> w.db.ops[o].state == e.state.value && w.db.ops[o].reference == e.reference)
  }

  lemma AnswersHolds(start: World, mid: World, w: World, a: nat, i: Intent, o: nat, op: Operation)
    requires Inv(start) && Leads(start, mid) && Leads(mid, w)
    requires Answers(mid, a, Trim(i.slot), o) && Glimpsed(mid, w, o, Some(op))
    ensures Holds(start, w, a, i, EntryFor(i.slot, o, op))
  {
    LatestIsNewest(mid.db, mid.db.ops[o].slot);
    assert OpAdvances(mid.db.ops[o], w.db.ops[o]);
    forall n: nat | n < |start.db.ops| && n < |w.db.ops| && w.db.ops[n].slot == w.db.ops[o].slot ensures n <= o {
      assert OpAdvances(mid.db.ops[n], w.db.ops[n]);
    }
    if o < |start.db.ops| { assert OpAdvances(start.db.ops[o], mid.db.ops[o]); }
  }

  /** What holds of an entry keeps holding, and holds as well since any earlier moment. */
  lemma HoldsStill(u: World, start: World, w: World, v: World, a: nat, i: Intent, e: Entry)
    requires Inv(u) && Leads(u, start) && Leads(start, w) && Leads(w, v) && Holds(start, w, a, i, e)
    ensures Holds(u, v, a, i, e)
  {
    if e.operation.Some? {
      var o := e.operation.value;
      assert OpAdvances(w.db.ops[o], v.db.ops[o]);
      forall n: nat | n < |u.db.ops| && n < |v.db.ops| && v.db.ops[n].slot == v.db.ops[o].slot ensures n <= o {
        assert OpAdvances(w.db.ops[n], v.db.ops[n]);
      }
      if o < |u.db.ops| { assert OpAdvances(u.db.ops[o], start.db.ops[o]); }
    }
  }

  // ----- publishing one intent -----

  method PrepareStep(box: Box, reg: Registry, r: PrepareRequest, d: Decision, began: int, ghost start: World, ghost trace: seq<Move>)
    returns (o: Result<nat>, ghost longer: seq<Move>)
    requires box.State() == Run(start, Events(trace)) && Inv(box.State())
    modifies box
    ensures box.State() == Run(start, Events(longer))
    ensures Mine(longer) == Mine(trace) + [Prepares(reg, r, d, began)]
    ensures box.State() == Step(old(box.State()), Prepares(reg, r, d, began))
    ensures match PrepareTx(reg, old(box.Data()), r, d, began, old(box.now)) case Ok(_) => o.Ok? case Err(e) => o == Err(e)
    ensures Leads(old(box.State()), box.State())
    ensures o.Ok? ==> Answers(box.State(), r.attempt, r.key, o.value)
  {
    ghost var e := Prepares(reg, r, d, began);
    ghost var x, next := box.Data(), Step(box.State(), e);
    OwnStep(start, trace, e);
    StepLeads(box.State(), e);
    longer := trace + [Own(e)];
    if PrepareTx(reg, x, r, d, began, box.now).Ok? { PrepareBinds(reg, x, r, d, began, box.now); }
    o := OperationService.Prepare(box, reg, r, d, began);
    assert box.State() == next;
  }

  /** How the publishing of one intent ends: settled, with an outcome that stays unknown, or with an error. */
  datatype Published = Through(entry: Entry) | Halted(entry: Entry) | Broken(error: Error)

  ghost predicate Reports(start: World, w: World, a: nat, i: Intent, p: Published) {
    match p
    case Through(e) => e.slot == i.slot && !e.skipped && !e.recordedOnly && Conclusive(e) && Holds(start, w, a, i, e)
    case Halted(e) =>
      e.slot == i.slot && !e.skipped && !e.recordedOnly && e.state == Some(OutcomeUncertain) && Holds(start, w, a, i, e)
    case Broken(_) => true
  }

  /** The publisher asks for this one effect, once and first of all, and for nothing else. */
  predicate AsksFor(mine: seq<Event>, r: PrepareRequest) {
    && mine != [] && mine[0].Prepares? && mine[0].request == r
    && forall k | 0 < k < |mine| :: !mine[k].Prepares?
  }

  lemma DispatchAsksNothing(mine: seq<Event>, steps: seq<Event>, o: nat, a: nat, r: PrepareRequest)
    requires steps == [] || steps == [Cancels(o, a)] || Concluding(steps, o) || Sending(steps, o, a)
    requires AsksFor(mine, r)
    ensures AsksFor(mine + steps, r)
  {
    forall e | e in steps ensures !e.Prepares? {}
  }

  /** What a dispatch comes to if nobody disturbs it. */
  ghost predicate DispatchedAlone(w: World, v: World, reg: Registry, o: nat, a: nat, c: Circumstances, r: Result<Operation>)
    requires o < |w.db.ops|
  {
    if Out(w.db.ops[o].state) then QuietlyInquired(w, v, reg, o, a, c.lookup, r)
    else if Awaits(w, reg, o, a) && c.policy.Ok? then
      if DispatchService.Cleared(w, reg, o, a, c.policy.value) then QuietlySent(w, v, reg, o, a, c.policy.value, w.now, c.answer, r)
      else QuietlyWithdrawn(w, v, o, a, r)
    else v == w && if Confirmed(w.db.ops[o].state) then r == Ok(w.db.ops[o]) else r.Err?
  }

  method DispatchStep(box: Box, reg: Registry, o: nat, a: nat, c: Circumstances, ghost r: PrepareRequest,
                      ghost start: World, ghost before: seq<Move>)
    returns (settled: Result<Operation>, shown: Option<Operation>, ghost trace: seq<Move>)
    requires box.State() == Run(start, Events(before)) && AsksFor(Mine(before), r)
    modifies box
    ensures box.State() == Run(start, Events(trace)) && AsksFor(Mine(trace), r)
    ensures Leads(old(box.State()), box.State()) && Glimpsed(old(box.State()), box.State(), o, shown)
    ensures settled.Ok? ==> shown == Some(settled.value) && Confirmed(settled.value.state)
    ensures Quiet(c.others) && o < |old(box.operations)| ==>
      DispatchedAlone(old(box.State()), box.State(), reg, o, a, c, settled) && Current(box.State(), o, settled, shown)
  {
    ghost var answered := box.State();
    trace := Interleave(box, start, before, c.others(1));
    ghost var asked := box.State();
    ghost var steps: seq<Move>;
    settled, shown, steps := Dispatch(box, reg, o, a, c.policy, c.answer, c.lookup, (k: nat) => c.others(k + 2));
    DispatchAsksNothing(Mine(trace), Mine(steps), o, a, r);
    TraceOn(start, trace, steps);
    trace := trace + steps;
    RunLeads(asked, Events(steps));
    LeadsOn(answered, asked, box.State());
    GlimpsedSince(answered, asked, box.State(), o, shown);
  }

  /** The publisher's reading of what a dispatch returned: an unknown outcome counts before any error, and a success
      is always a confirmed outcome. */
  function Reading(slot: string, o: nat, settled: Result<Operation>, shown: Option<Operation>): Published {
    if shown.Some? && shown.value.state == OutcomeUncertain then Halted(EntryFor(slot, o, shown.value))
    else if settled.Err? then Broken(settled.error)
    else Through(EntryFor(slot, o, settled.value))
  }

  lemma ReadingReports(start: World, mid: World, w: World, a: nat, i: Intent, o: nat, settled: Result<Operation>, shown: Option<Operation>)
    requires Inv(start) && Leads(start, mid) && Leads(mid, w)
    requires Answers(mid, a, Trim(i.slot), o) && Glimpsed(mid, w, o, shown)
    requires settled.Ok? ==> shown == Some(settled.value) && Confirmed(settled.value.state)
    ensures Reports(start, w, a, i, Reading(i.slot, o, settled, shown))
  {
    if shown.Some? { AnswersHolds(start, mid, w, a, i, o, shown.value); }
  }

  /** The first half: the effect is prepared, and is perhaps already out. */
  method PrepareOne(box: Box, ch: Channel, r: PrepareRequest, c: Circumstances) returns (o: Result<nat>, ghost trace: seq<Move>)
    requires Inv(box.State())
    modifies box
    ensures box.State() == Run(old(box.State()), Events(trace)) && AsksFor(Mine(trace), r)
    ensures Leads(old(box.State()), box.State())
    ensures o.Ok? ==> Answers(box.State(), r.attempt, r.key, o.value)
    ensures c.others(0) == [] ==>
      && box.State() == Step(old(box.State()), Prepares(ch.registry, r, c.decision, old(box.now)))
      && match PrepareTx(ch.registry, old(box.Data()), r, c.decision, old(box.now), old(box.now)) case Ok(_) => o.Ok? case Err(e) => o == Err(e)
  {
    ghost var start := box.State();
    trace := [];
    assert Events(trace) == [];
    var began := box.now;
    trace := Interleave(box, start, trace, c.others(0));
    ghost var read := box.State();
    o, trace := PrepareStep(box, ch.registry, r, c.decision, began, start, trace);
    LeadsOn(start, read, box.State());
  }

  lemma OutAlready(start: World, w: World, a: nat, i: Intent, o: nat)
    requires Inv(start) && Leads(start, w) && Answers(w, a, Trim(i.slot), o) && w.db.ops[o].state == OutcomeUncertain
    ensures Reports(start, w, a, i, Halted(EntryFor(i.slot, o, w.db.ops[o])))
  {
    RunLeads(w, []);
    GlimpsedNow(w, [], o);
    AnswersHolds(start, w, w, a, i, o, w.db.ops[o]);
  }

  /** What the dispatch of the prepared operation o comes to, as the publisher reads it. */
  ghost predicate ReadAlone(u: World, v: World, ch: Channel, a: nat, i: Intent, c: Circumstances, o: nat, p: Published)
    requires o < |u.db.ops|
  {
    exists settled, shown ::
      && DispatchedAlone(u, v, ch.registry, o, a, c, settled) && Current(v, o, settled, shown)
      && (settled.Ok? ==> shown == Some(settled.value)) && p == Reading(i.slot, o, settled, shown)
  }

  /** What publishing one intent comes to if nobody disturbs it: it is prepared, and if that leads to an operation whose
      outcome is not already open, dispatched. */
  ghost predicate PublishedAlone(w: World, v: World, ch: Channel, a: nat, i: Intent, r: PrepareRequest, c: Circumstances, p: Published) {
    var u := Step(w, Prepares(ch.registry, r, c.decision, w.now));
    match PrepareTx(ch.registry, w.db, r, c.decision, w.now, w.now)
    case Err(e) => v == u && p == Broken(e)
    case Ok(_) =>
      exists o: nat :: Answers(u, a, Trim(i.slot), o)
        && if u.db.ops[o].state == OutcomeUncertain then v == u && p == Halted(EntryFor(i.slot, o, u.db.ops[o]))
           else ReadAlone(u, v, ch, a, i, c, o, p)
  }

  /** Prepare, then dispatch; others act in between. */
  method PublishOne(box: Box, ch: Channel, a: nat, i: Intent, r: PrepareRequest, c: Circumstances)
    returns (p: Published, ghost trace: seq<Move>)
    requires Inv(box.State()) && r.attempt == a && r.key == Trim(i.slot)
    modifies box
    ensures box.State() == Run(old(box.State()), Events(trace)) && AsksFor(Mine(trace), r)
    ensures Leads(old(box.State()), box.State()) && Reports(old(box.State()), box.State(), a, i, p)
    ensures Quiet(c.others) ==> PublishedAlone(old(box.State()), box.State(), ch, a, i, r, c, p)
  {
    ghost var start := box.State();
    var prepared: Result<nat>;
    prepared, trace := PrepareOne(box, ch, r, c);
    if prepared.Err? { return Broken(prepared.error), trace; }
    var o := prepared.value;
    ghost var answered := box.State();
    if box.operations[o].state == OutcomeUncertain {
      OutAlready(start, answered, a, i, o);
      return Halted(EntryFor(i.slot, o, box.operations[o])), trace;
    }
    var settled: Result<Operation>, shown: Option<Operation>;
    settled, shown, trace := DispatchStep(box, ch.registry, o, a, c, r, start, trace);
    LeadsOn(start, answered, box.State());
    ReadingReports(start, answered, box.State(), a, i, o, settled, shown);
    p := Reading(i.slot, o, settled, shown);
  }

  // ----- publishing a decision -----

  ghost predicate AllHold(start: World, w: World, a: nat, intents: seq<Intent>, entries: seq<Entry>) {
    |entries| <= |intents| && forall i | 0 <= i < |entries| :: Holds(start, w, a, intents[i], entries[i])
  }

  lemma AllStillHold(start: World, w: World, v: World, a: nat, intents: seq<Intent>, entries: seq<Entry>)
    requires Inv(start) && Leads(start, w) && Leads(w, v) && AllHold(start, w, a, intents, entries)
    ensures AllHold(start, v, a, intents, entries)
  {
    RunLeads(start, []);
    forall i | 0 <= i < |entries| ensures Holds(start, v, a, intents[i], entries[i]) {
      HoldsStill(start, start, w, v, a, intents[i], entries[i]);
    }
  }

  lemma NextHolds(start: World, w: World, v: World, a: nat, intents: seq<Intent>, entries: seq<Entry>, e: Entry)
    requires Inv(start) && Leads(start, w) && Leads(w, v) && AllHold(start, w, a, intents, entries)
    requires |entries| < |intents| && Holds(w, v, a, intents[|entries|], e)
    ensures AllHold(start, v, a, intents, entries + [e])
  {
    AllStillHold(start, w, v, a, intents, entries);
    RunLeads(v, []);
    HoldsStill(start, w, v, v, a, intents[|entries|], e);
  }

  /** The request is for an intent that this mode publishes. */
  predicate Requested(ch: Channel, mode: Mode, a: nat, intents: seq<Intent>, k: nat, r: PrepareRequest) {
    && k < |intents| && r == RequestFor(ch, a, intents[k])
    && mode != PublishNone && (mode == PublishComments ==> intents[k].effect.CommentEffect?)
  }

  /** The run prepares nothing but its intents. */
  ghost predicate AsksOnly(mine: seq<Event>, ch: Channel, mode: Mode, a: nat, intents: seq<Intent>) {
    forall e | e in mine && e.Prepares? :: exists k :: Requested(ch, mode, a, intents, k, e.request)
  }

  lemma AsksOn(mine: seq<Event>, steps: seq<Event>, ch: Channel, mode: Mode, a: nat, intents: seq<Intent>, k: nat, r: PrepareRequest)
    requires AsksOnly(mine, ch, mode, a, intents) && AsksFor(steps, r) && Requested(ch, mode, a, intents, k, r)
    ensures AsksOnly(mine + steps, ch, mode, a, intents)
  {
  }

  /** A publishing run through attempt a, seen from outside: a run of the whole system whose own steps ask for nothing
      but the intents, and entries that are an in-order prefix of the intents and hold of the records. */
  ghost predicate PublishedBy(w: World, trace: seq<Move>, ch: Channel, mode: Mode, a: nat, intents: seq<Intent>, entries: seq<Entry>) {
    && InOrder(intents, entries)
    && AsksOnly(Mine(trace), ch, mode, a, intents)
    && AllHold(w, Run(w, Events(trace)), a, intents, entries)
  }

  /** A run grows by the steps for its next intent. */
  lemma StepsOn(w: World, trace: seq<Move>, steps: seq<Move>, ch: Channel, mode: Mode, a: nat, intents: seq<Intent>,
                entries: seq<Entry>)
    requires Inv(w) && PublishedBy(w, trace, ch, mode, a, intents, entries) && |entries| < |intents|
    requires mode != PublishNone && (mode == PublishComments ==> intents[|entries|].effect.CommentEffect?)
    requires AsksFor(Mine(steps), RequestFor(ch, a, intents[|entries|]))
    ensures PublishedBy(w, trace + steps, ch, mode, a, intents, entries)
  {
    var u, v := Run(w, Events(trace)), Run(Run(w, Events(trace)), Events(steps));
    RunLeads(w, Events(trace));
    RunLeads(u, Events(steps));
    TraceOn(w, trace, steps);
    AsksOn(Mine(trace), Mine(steps), ch, mode, a, intents, |entries|, RequestFor(ch, a, intents[|entries|]));
    AllStillHold(w, u, v, a, intents, entries);
  }

  lemma InOrderOn(intents: seq<Intent>, entries: seq<Entry>, e: Entry)
    requires InOrder(intents, entries) && |entries| < |intents| && e.slot == intents[|entries|].slot
    ensures InOrder(intents, entries + [e])
  {
  }

  /** One intent within a longer run. */
  method PublishNext(box: Box, ch: Channel, mode: Mode, a: nat, intents: seq<Intent>, k: nat, c: Circumstances,
                     ghost start: World, ghost before: seq<Move>, ghost entries: seq<Entry>)
    returns (p: Published, ghost trace: seq<Move>)
    requires Inv(start) && box.State() == Run(start, Events(before))
    requires k == |entries| < |intents| && PublishedBy(start, before, ch, mode, a, intents, entries)
    requires mode != PublishNone && (mode == PublishComments ==> intents[k].effect.CommentEffect?)
    modifies box
    ensures box.State() == Run(start, Events(trace))
    ensures PublishedBy(start, trace, ch, mode, a, intents, entries)
    ensures !p.Broken? ==> PublishedBy(start, trace, ch, mode, a, intents, entries + [p.entry])
    ensures Reports(old(box.State()), box.State(), a, intents[k], p)
    ensures Quiet(c.others) ==> NextEnds(old(box.State()), box.State(), ch, a, intents[k], c, p)
  {
    ghost var was := box.State();
    RunLeads(start, Events(before));
    ghost var steps: seq<Move>;
    p, steps := PublishOne(box, ch, a, intents[k], RequestFor(ch, a, intents[k]), c);
    StepsOn(start, before, steps, ch, mode, a, intents, entries);
    TraceOn(start, before, steps);
    trace := before + steps;
    if !p.Broken? {
      InOrderOn(intents, entries, p.entry);
      NextHolds(start, was, box.State(), a, intents, entries, p.entry);
    }
  }

  lemma PassedOn(w: World, trace: seq<Move>, ch: Channel, mode: Mode, a: nat, intents: seq<Intent>, entries: seq<Entry>, e: Entry)
    requires PublishedBy(w, trace, ch, mode, a, intents, entries) && |entries| < |intents|
    requires e.slot == intents[|entries|].slot && e.operation.None?
    ensures PublishedBy(w, trace, ch, mode, a, intents, entries + [e])
  {
  }

  /** So far every entry is settled or was passed over. */
  ghost predicate Done(mode: Mode, intents: seq<Intent>, entries: seq<Entry>) {
    |entries| <= |intents|
    && forall i | 0 <= i < |entries| ::
         PassedOver(mode, intents[i], entries[i]) || (!entries[i].skipped && !entries[i].recordedOnly && Conclusive(entries[i]))
  }

  lemma DoneNext(mode: Mode, intents: seq<Intent>, entries: seq<Entry>, e: Entry)
    requires Done(mode, intents, entries) && |entries| < |intents|
    requires PassedOver(mode, intents[|entries|], e) || (!e.skipped && !e.recordedOnly && Conclusive(e))
    ensures Done(mode, intents, entries + [e])
  {
  }

  lemma DoneWritten(mode: Mode, intents: seq<Intent>, entries: seq<Entry>)
    requires Done(mode, intents, entries) && InOrder(intents, entries)
    ensures |entries| == |intents| ==> Written(mode, intents, entries, None)
    ensures forall error: Error :: Written(mode, intents, entries, Some(error))
  {
  }

  lemma HaltedWritten(mode: Mode, intents: seq<Intent>, entries: seq<Entry>, e: Entry)
    requires Done(mode, intents, entries) && InOrder(intents, entries + [e])
    requires !e.skipped && !e.recordedOnly && e.state == Some(OutcomeUncertain)
    ensures Written(mode, intents, entries + [e], None)
  {
  }

  // ----- the loop, undisturbed -----

  ghost predicate AllAlone(cs: nat -> Circumstances) {
    forall k :: Quiet(cs(k).others)
  }

  /** This mode does not publish the intent: it records all of them, or leaves the vote out. */
  ghost predicate LeftOut(mode: Mode, i: Intent) {
    mode == PublishNone || (mode == PublishComments && i.effect.VoteEffect?)
  }

  /** One intent more: left out and said so, or published through. */
  ghost predicate OneMore(u: World, v: World, ch: Channel, mode: Mode, a: nat, i: Intent, c: Circumstances, e: Entry) {
    if LeftOut(mode, i) then v == u && e == Entry(i.slot, None, None, "", mode != PublishNone, mode == PublishNone)
    else PublishedAlone(u, v, ch, a, i, RequestFor(ch, a, i), c, Through(e))
  }

  /** The entries are those of the first intents, one after the other from w to v. */
  ghost predicate AllThrough(w: World, v: World, ch: Channel, mode: Mode, a: nat, intents: seq<Intent>, cs: nat -> Circumstances,
                             entries: seq<Entry>)
    decreases |entries|
  {
    |entries| <= |intents|
    && if entries == [] then v == w
       else
         var n := |entries| - 1;
         exists u :: AllThrough(w, u, ch, mode, a, intents, cs, entries[..n]) && OneMore(u, v, ch, mode, a, intents[n], cs(n), entries[n])
  }

  /** How a run that nobody disturbs ends: all the way through, with an outcome that stays unknown as its last entry, or
      with the error of the next intent that is to be published. */
  ghost predicate EndsAlone(w: World, v: World, ch: Channel, mode: Mode, a: nat, intents: seq<Intent>, cs: nat -> Circumstances,
                            entries: seq<Entry>, error: Option<Error>)
  {
    if error.Some? then EndsWith(w, v, ch, mode, a, intents, cs, entries, Broken(error.value))
    else
      || (|entries| == |intents| && AllThrough(w, v, ch, mode, a, intents, cs, entries))
      || (entries != [] && EndsWith(w, v, ch, mode, a, intents, cs, entries[..|entries| - 1], Halted(entries[|entries| - 1])))
  }

  /** After these entries the next intent is to be published, and that ends the run. */
  ghost predicate EndsWith(w: World, v: World, ch: Channel, mode: Mode, a: nat, intents: seq<Intent>, cs: nat -> Circumstances,
                           before: seq<Entry>, p: Published)
  {
    var n := |before|;
    n < |intents| && !LeftOut(mode, intents[n])
    && exists u :: AllThrough(w, u, ch, mode, a, intents, cs, before) && NextEnds(u, v, ch, a, intents[n], cs(n), p)
  }

  ghost predicate NextEnds(u: World, v: World, ch: Channel, a: nat, i: Intent, c: Circumstances, p: Published) {
    PublishedAlone(u, v, ch, a, i, RequestFor(ch, a, i), c, p)
  }

  lemma ThroughOn(w: World, u: World, v: World, ch: Channel, mode: Mode, a: nat, intents: seq<Intent>, cs: nat -> Circumstances,
                  entries: seq<Entry>, e: Entry)
    requires AllThrough(w, u, ch, mode, a, intents, cs, entries) && |entries| < |intents|
    requires OneMore(u, v, ch, mode, a, intents[|entries|], cs(|entries|), e)
    ensures AllThrough(w, v, ch, mode, a, intents, cs, entries + [e])
  {
    var longer := entries + [e];
    assert longer[..|longer| - 1] == entries && longer[|longer| - 1] == e;
    assert AllThrough(w, u, ch, mode, a, intents, cs, longer[..|longer| - 1]);
  }

  lemma HaltsAlone(w: World, u: World, v: World, ch: Channel, mode: Mode, a: nat, intents: seq<Intent>, cs: nat -> Circumstances,
                   entries: seq<Entry>, e: Entry)
    requires AllThrough(w, u, ch, mode, a, intents, cs, entries) && |entries| < |intents| && !LeftOut(mode, intents[|entries|])
    requires NextEnds(u, v, ch, a, intents[|entries|], cs(|entries|), Halted(e))
    ensures EndsAlone(w, v, ch, mode, a, intents, cs, entries + [e], None)
  {
    assert (entries + [e])[..|entries|] == entries;
  }

  lemma PassedAlone(w: World, v: World, trace: seq<Move>, ch: Channel, mode: Mode, a: nat, intents: seq<Intent>,
                    cs: nat -> Circumstances, entries: seq<Entry>, e: Entry)
    requires |entries| < |intents| && LeftOut(mode, intents[|entries|])
    requires e == Entry(intents[|entries|].slot, None, None, "", mode != PublishNone, mode == PublishNone)
    requires PublishedBy(w, trace, ch, mode, a, intents, entries) && Done(mode, intents, entries)
    ensures PublishedBy(w, trace, ch, mode, a, intents, entries + [e]) && Done(mode, intents, entries + [e])
    ensures AllThrough(w, v, ch, mode, a, intents, cs, entries) ==> AllThrough(w, v, ch, mode, a, intents, cs, entries + [e])
  {
    PassedOn(w, trace, ch, mode, a, intents, entries, e);
    DoneNext(mode, intents, entries, e);
    if AllThrough(w, v, ch, mode, a, intents, cs, entries) { ThroughOn(w, v, v, ch, mode, a, intents, cs, entries, e); }
  }

  /** What the publishing of the next intent makes of the run. */
  lemma NextPublished(w: World, u: World, v: World, ch: Channel, mode: Mode, a: nat, intents: seq<Intent>,
                      cs: nat -> Circumstances, entries: seq<Entry>, p: Published)
    requires |entries| < |intents| && !LeftOut(mode, intents[|entries|]) && Done(mode, intents, entries) && InOrder(intents, entries)
    requires Reports(u, v, a, intents[|entries|], p)
    ensures p.Broken? ==> Written(mode, intents, entries, Some(p.error))
    ensures p.Broken? && NextAlone(w, u, v, ch, mode, a, intents, cs, entries, p) ==>
      EndsAlone(w, v, ch, mode, a, intents, cs, entries, Some(p.error))
    ensures p.Halted? ==> Written(mode, intents, entries + [p.entry], None)
    ensures p.Halted? && NextAlone(w, u, v, ch, mode, a, intents, cs, entries, p) ==>
      EndsAlone(w, v, ch, mode, a, intents, cs, entries + [p.entry], None)
    ensures p.Through? ==> Done(mode, intents, entries + [p.entry])
    ensures p.Through? && NextAlone(w, u, v, ch, mode, a, intents, cs, entries, p) ==>
      AllThrough(w, v, ch, mode, a, intents, cs, entries + [p.entry])
  {
    match p {
      case Broken(_) => DoneWritten(mode, intents, entries);
      case Halted(e) =>
        InOrderOn(intents, entries, e);
        HaltedWritten(mode, intents, entries, e);
        if NextAlone(w, u, v, ch, mode, a, intents, cs, entries, p) { HaltsAlone(w, u, v, ch, mode, a, intents, cs, entries, e); }
      case Through(e) =>
        DoneNext(mode, intents, entries, e);
        if NextAlone(w, u, v, ch, mode, a, intents, cs, entries, p) { ThroughOn(w, u, v, ch, mode, a, intents, cs, entries, e); }
    }
  }

  ghost predicate NextAlone(w: World, u: World, v: World, ch: Channel, mode: Mode, a: nat, intents: seq<Intent>,
                            cs: nat -> Circumstances, entries: seq<Entry>, p: Published)
    requires |entries| < |intents|
  {
    AllThrough(w, u, ch, mode, a, intents, cs, entries) && NextEnds(u, v, ch, a, intents[|entries|], cs(|entries|), p)
  }

  /** A run on its way: nothing has ended it yet. */
  ghost predicate Going(w: World, v: World, trace: seq<Move>, ch: Channel, mode: Mode, a: nat, intents: seq<Intent>,
                        cs: nat -> Circumstances, entries: seq<Entry>)
  {
    && PublishedBy(w, trace, ch, mode, a, intents, entries) && Done(mode, intents, entries)
    && (mode == PublishNone ==> trace == [])
    && (AllAlone(cs) ==> AllThrough(w, v, ch, mode, a, intents, cs, entries))
  }

  ghost predicate Ended(w: World, v: World, trace: seq<Move>, ch: Channel, mode: Mode, a: nat, intents: seq<Intent>,
                        cs: nat -> Circumstances, entries: seq<Entry>, error: Option<Error>)
  {
    && PublishedBy(w, trace, ch, mode, a, intents, entries) && Written(mode, intents, entries, error)
    && (mode == PublishNone ==> trace == [])
    && (AllAlone(cs) ==> EndsAlone(w, v, ch, mode, a, intents, cs, entries, error))
  }

  lemma GoneThrough(w: World, v: World, trace: seq<Move>, ch: Channel, mode: Mode, a: nat, intents: seq<Intent>,
                    cs: nat -> Circumstances, entries: seq<Entry>)
    requires Going(w, v, trace, ch, mode, a, intents, cs, entries) && |entries| == |intents|
    ensures Ended(w, v, trace, ch, mode, a, intents, cs, entries, None)
  {
    DoneWritten(mode, intents, entries);
  }

  /** One turn of the loop: the next intent is left out, as the mode says, or published. */
  method PublishTurn(box: Box, ch: Channel, mode: Mode, a: nat, intents: seq<Intent>, k: nat, cs: nat -> Circumstances,
                     ghost start: World, ghost before: seq<Move>, ghost entries: seq<Entry>)
    returns (p: Published, ghost trace: seq<Move>)
    requires Inv(start) && box.State() == Run(start, Events(before)) && k == |entries| < |intents|
    requires Going(start, box.State(), before, ch, mode, a, intents, cs, entries)
    modifies box
    ensures box.State() == Run(start, Events(trace))
    ensures match p
            case Broken(e) => Ended(start, box.State(), trace, ch, mode, a, intents, cs, entries, Some(e))
            case Halted(e) => Ended(start, box.State(), trace, ch, mode, a, intents, cs, entries + [e], None)
            case Through(e) => Going(start, box.State(), trace, ch, mode, a, intents, cs, entries + [e])
  {
    ghost var was := box.State();
    var passed := Entry(intents[k].slot, None, None, "", false, true);
    if mode == PublishNone {
      PassedAlone(start, was, before, ch, mode, a, intents, cs, entries, passed);
      return Through(passed), before;
    }
    if intents[k].effect.VoteEffect? && mode == PublishComments {
      passed := passed.(skipped := true, recordedOnly := false);
      PassedAlone(start, was, before, ch, mode, a, intents, cs, entries, passed);
      return Through(passed), before;
    }
    p, trace := PublishNext(box, ch, mode, a, intents, k, cs(k), start, before, entries);
    NextPublished(start, was, box.State(), ch, mode, a, intents, cs, entries, p);
  }

  /** The publishing loop. */
  method Publish(box: Box, ch: Channel, mode: Mode, a: nat, intents: seq<Intent>, cs: nat -> Circumstances)
    returns (entries: seq<Entry>, error: Option<Error>, ghost trace: seq<Move>)
    requires Inv(box.State())
    modifies box
    ensures box.State() == Run(old(box.State()), Events(trace))
    ensures Ended(old(box.State()), box.State(), trace, ch, mode, a, intents, cs, entries, error)
  {
    ghost var start := box.State();
    trace, entries := [], [];
    assert Events(trace) == [];
    for k := 0 to |intents|
      invariant |entries| == k && box.State() == Run(start, Events(trace))
      invariant Going(start, box.State(), trace, ch, mode, a, intents, cs, entries)
    {
      var p: Published;
      p, trace := PublishTurn(box, ch, mode, a, intents, k, cs, start, trace, entries);
      match p
      case Broken(e) => return entries, Some(e), trace;
      case Halted(e) => return entries + [e], None, trace;
      case Through(e) => entries := entries + [e];
    }
    GoneThrough(start, box.State(), trace, ch, mode, a, intents, cs, entries);
    return entries, None, trace;
  }

  const HOLD_ENTRY := Entry("hold", None, None, "", false, true)

  /** The executor's entry point: a decision to hold publishes nothing and says so, an unknown action or an invalid
      comment fails before anything is prepared, and otherwise the intents are published in order. */
  method Start(box: Box, ch: Channel, mode: Mode, a: nat, p: Payload, r: Review, cs: nat -> Circumstances)
    returns (entries: seq<Entry>, error: Option<Error>, ghost trace: seq<Move>)
    requires Inv(box.State())
    modifies box
    ensures box.State() == Run(old(box.State()), Events(trace))
    ensures r.action == HoldAction ==> trace == [] && entries == [HOLD_ENTRY] && error.None?
    ensures r.action != HoldAction && !(DecisionOk(r) && forall c | c in r.comments :: CommentOk(c)) ==>
      trace == [] && entries == [] && error.Some?
    ensures r.action != HoldAction && DecisionOk(r) && (forall c | c in r.comments :: CommentOk(c)) ==>
      exists intents ::
        Intended(p, r, intents) && Ended(old(box.State()), box.State(), trace, ch, mode, a, intents, cs, entries, error)
  {
    trace := [];
    assert Events(trace) == [];
    if r.action == HoldAction { return [HOLD_ENTRY], None, trace; }
    if r.action != CommentAction && r.action != ApproveAction { return [], Some(Malformed), trace; }
    var intents := BuildIntents(p, r);
    if intents.Err? { return [], Some(intents.error), trace; }
    entries, error, trace := Publish(box, ch, mode, a, intents.value, cs);
  }

  method PublishEverything(box: Box, ch: Channel, a: nat, intents: seq<Intent>, cs: nat -> Circumstances)
    returns (entries: seq<Entry>, error: Option<Error>)
    requires Inv(box.State())
    modifies box
    ensures Written(PublishAll, intents, entries, error)
  {
    ghost var trace: seq<Move>;
    entries, error, trace := Publish(box, ch, PublishAll, a, intents, cs);
  }

  /** The whole way: a publish-all run in which nothing failed and no outcome stayed unknown binds to its intents. */
  method PublishAndBind(box: Box, ch: Channel, a: nat, p: Payload, r: Review, cs: nat -> Circumstances,
                        encode: Entry -> string, decode: string -> Result<Entry>)
    returns (entries: seq<Entry>, error: Option<Error>, bound: Option<Result<map<string, Entry>>>)
    requires Inv(box.State())
    requires PayloadOk(p) && DecisionOk(r) && (forall c | c in r.comments :: CommentOk(c)) && LineCodec(encode, decode)
    modifies box
    ensures error.None? && (forall e | e in entries :: Conclusive(e)) ==> bound.Some? && bound.value.Ok?
  {
    var intents := BuildIntents(p, r);
    entries, error := PublishEverything(box, ch, a, intents.value, cs);
    bound := None;
    if error.None? && |entries| == |intents.value| {
      var b := BindAll(p, r, intents.value, entries, encode, decode);
      bound := Some(b);
    } else if error.None? {
      assert entries[|entries| - 1] in entries;
    }
  }

  method BindAll(p: Payload, r: Review, intents: seq<Intent>, entries: seq<Entry>, encode: Entry -> string, decode: string -> Result<Entry>)
    returns (bound: Result<map<string, Entry>>)
    requires PayloadOk(p) && Intended(p, r, intents) && intents != [] && LineCodec(encode, decode)
    requires Written(PublishAll, intents, entries, None) && |entries| == |intents|
    ensures bound.Ok? && forall i | 0 <= i < |intents| :: intents[i].slot in bound.value && bound.value[intents[i].slot] == entries[i]
  {
    forall e | e in entries ensures !e.skipped && !e.recordedOnly {
      var i :| 0 <= i < |entries| && entries[i] == e;
      assert !PassedOver(PublishAll, intents[i], entries[i]);
    }
    bound := StoreAndBind(p, r, intents, entries, encode, decode);
  }

  // ----- publishing again -----

  /** Entries e and f of two runs for the same intent: they name operations of one slot, of which the earlier is spent
      if they differ; so at most one effect is reported, and final reports about one operation are the same word for
      word. */
  ghost predicate Concur(w: World, e: Entry, f: Entry) {
    e.operation.Some? && f.operation.Some? ==>
      var o, q := e.operation.value, f.operation.value;
      && o < |w.db.ops| && q < |w.db.ops| && w.db.ops[o].slot == w.db.ops[q].slot
      && (o < q ==> Spent(w.db.ops[o].state)) && (q < o ==> Spent(w.db.ops[q].state))
      && (o == q && Conclusive(e) && Conclusive(f) ==> e == f)
      && (e.state == Some(ConfirmedEffect) && f.state == Some(ConfirmedEffect) ==> e == f)
  }

  /** If moreover the operation of e was on the books when the run of f began, then as long as it has or may yet have
      its effect it is the slot's newest and f names it too; and if its effect was confirmed by then, f is e. */
  ghost predicate Repeats(start: World, w: World, e: Entry, f: Entry) {
    e.operation.Some? && f.operation.Some? ==>
      var o := e.operation.value;
      o < |start.db.ops| && o < |w.db.ops| ==>
        && (EffectOpen(w.db, w.db.ops[o].slot, o) ==> f.operation == e.operation && Latest(w.db.ops, w.db.ops[o].slot) == Some(o))
        && (start.db.ops[o].state == ConfirmedEffect && e.state == Some(ConfirmedEffect) ==> f == e)
  }

  lemma SameSlot(w: World, t: nat, key: string, o: nat, q: nat)
    requires Inv(w) && o < |w.db.ops| && q < |w.db.ops|
    requires HoldsKey(w.db.slots, w.db.ops[o].slot, t, key) && HoldsKey(w.db.slots, w.db.ops[q].slot, t, key)
    ensures w.db.ops[o].slot == w.db.ops[q].slot
  {
    SlotOfKey(w.db, w.db.ops[o].slot, t, key);
    SlotOfKey(w.db, w.db.ops[q].slot, t, key);
  }

  lemma EntriesConcur(u: World, v: World, w: World, a: nat, b: nat, i: Intent, e: Entry, f: Entry)
    requires Inv(w) && Holds(u, w, a, i, e) && Holds(v, w, b, i, f) && e.slot == f.slot
    requires a < |w.db.exec.attempts| && b < |w.db.exec.attempts| && w.db.exec.attempts[a].task == w.db.exec.attempts[b].task
    ensures Concur(w, e, f)
  {
    if e.operation.Some? && f.operation.Some? {
      var o, q := e.operation.value, f.operation.value;
      SameSlot(w, w.db.exec.attempts[a].task, Trim(i.slot), o, q);
      assert o < q ==> Succession(w.db.ops[o], w.db.ops[q]);
      assert q < o ==> Succession(w.db.ops[q], w.db.ops[o]);
    }
  }

  lemma EntryRepeats(u: World, v: World, w: World, a: nat, b: nat, i: Intent, e: Entry, f: Entry)
    requires Inv(v) && Leads(v, w) && Holds(u, w, a, i, e) && Holds(v, w, b, i, f) && e.slot == f.slot && Concur(w, e, f)
    ensures Repeats(v, w, e, f)
  {
    if e.operation.Some? && f.operation.Some? && e.operation.value < |v.db.ops| {
      var o := e.operation.value;
      assert OpOk(w.db, o);
      assert OpAdvances(v.db.ops[o], w.db.ops[o]);
      if EffectOpen(w.db, w.db.ops[o].slot, o) { OpenIsLatest(w.db, w.db.ops[o].slot, o); }
    }
  }

  lemma StretchRuns(w: World, before: seq<Event>, trace: seq<Move>, after: seq<Event>)
    ensures Run(w, before + Events(trace) + after) == Run(Run(Run(w, before), Events(trace)), after)
  {
    RunConcat(w, before + Events(trace), after);
    RunConcat(w, before, Events(trace));
  }

  /** At the end of the whole run the entries of a stretch of it still hold. */
  lemma HoldsAtEnd(w: World, before: seq<Event>, trace: seq<Move>, after: seq<Event>, ch: Channel, mode: Mode, a: nat,
                   intents: seq<Intent>, entries: seq<Entry>)
    requires Inv(w) && PublishedBy(Run(w, before), trace, ch, mode, a, intents, entries)
    ensures AllHold(Run(w, before), Run(w, before + Events(trace) + after), a, intents, entries)
    ensures Inv(Run(w, before)) && Leads(Run(w, before), Run(w, before + Events(trace) + after))
  {
    var start := Run(w, before);
    var end := Run(start, Events(trace));
    RunKeepsInv(w, before);
    RunLeads(start, Events(trace));
    RunLeads(end, after);
    StretchRuns(w, before, trace, after);
    AllStillHold(start, end, Run(end, after), a, intents, entries);
    LeadsOn(start, end, Run(end, after));
  }

  /** Publishing the same decision of the same payload on two attempts of one task, in whatever modes and with whatever
      providers, as two stretches of one run that may overlap: intent by intent the two agree, and the second leads
      back to what the first had put on the books before it began. */
  lemma Republished(w: World, events: seq<Event>, p: Payload, r: Review,
                    before: seq<Event>, first: seq<Move>, after: seq<Event>,
                    ch: Channel, mode: Mode, a: nat, intents: seq<Intent>, entries: seq<Entry>,
                    until: seq<Event>, second: seq<Move>, since: seq<Event>,
                    di: Channel, node: Mode, b: nat, again: seq<Intent>, others: seq<Entry>)
    requires Inv(w) && Intended(p, r, intents) && Intended(p, r, again)
    requires events == before + Events(first) + after == until + Events(second) + since
    requires PublishedBy(Run(w, before), first, ch, mode, a, intents, entries)
    requires PublishedBy(Run(w, until), second, di, node, b, again, others)
    requires
      var attempts := Run(w, events).db.exec.attempts;
      a < |attempts| && b < |attempts| && attempts[a].task == attempts[b].task
    ensures forall i | 0 <= i < |entries| && i < |others| ::
      Concur(Run(w, events), entries[i], others[i]) && Repeats(Run(w, until), Run(w, events), entries[i], others[i])
  {
    IntentsDetermined(p, r, intents, again);
    HoldsAtEnd(w, before, first, after, ch, mode, a, intents, entries);
    HoldsAtEnd(w, until, second, since, di, node, b, again, others);
    RunKeepsInv(w, events);
    var u, v, z := Run(w, before), Run(w, until), Run(w, events);
    forall i | 0 <= i < |entries| && i < |others| ensures Concur(z, entries[i], others[i]) && Repeats(v, z, entries[i], others[i]) {
      EntriesConcur(u, v, z, a, b, intents[i], entries[i], others[i]);
      EntryRepeats(u, v, z, a, b, intents[i], entries[i], others[i]);
    }
  }

  lemma RepeatsAfter(u: World, x: World, v: World, w: World, a: nat, i: Intent, e: Entry, f: Entry)
    requires Inv(x) && Leads(x, v) && Leads(v, w) && Holds(u, x, a, i, e) && Repeats(v, w, e, f)
    requires e.operation.Some? && f.operation.Some?
    ensures e.state == Some(ConfirmedEffect) ==> f == e
    ensures
      var o := e.operation.value;
      o < |w.db.ops|
      && (EffectOpen(w.db, w.db.ops[o].slot, o) ==> f.operation == Some(o) && Latest(w.db.ops, w.db.ops[o].slot) == Some(o))
  {
    assert OpAdvances(x.db.ops[e.operation.value], v.db.ops[e.operation.value]);
  }

  lemma EntryRepublished(w: World, x: World, v: World, z: World, a: nat, b: nat, i: Intent, e: Entry, f: Entry)
    requires Inv(w) && Leads(w, x) && Leads(x, v) && Leads(v, z)
    requires Holds(w, x, a, i, e) && Holds(v, z, b, i, f) && e.slot == f.slot && e.operation.Some? && f.operation.Some?
    requires a < |z.db.exec.attempts| && b < |z.db.exec.attempts| && z.db.exec.attempts[a].task == z.db.exec.attempts[b].task
    ensures e.state == Some(ConfirmedEffect) ==> f == e
    ensures
      var o := e.operation.value;
      o < |z.db.ops|
      && (EffectOpen(z.db, z.db.ops[o].slot, o) ==> f.operation == Some(o) && Latest(z.db.ops, z.db.ops[o].slot) == Some(o))
  {
    RunLeads(w, []);
    LeadsOn(x, v, z);
    HoldsStill(w, w, x, z, a, i, e);
    EntriesConcur(w, v, z, a, b, i, e, f);
    EntryRepeats(w, v, z, a, b, i, e, f);
    RepeatsAfter(w, x, v, z, a, i, e, f);
  }

  /** In particular, when the first run is over before the second begins, the second reports every confirmed effect
      again word for word, and gives an effect that is still open no second operation. */
  lemma RepublishedAfter(w: World, p: Payload, r: Review,
                         first: seq<Move>, ch: Channel, mode: Mode, a: nat, intents: seq<Intent>, entries: seq<Entry>,
                         between: seq<Event>,
                         second: seq<Move>, di: Channel, node: Mode, b: nat, again: seq<Intent>, others: seq<Entry>, i: nat)
    requires Inv(w) && Intended(p, r, intents) && Intended(p, r, again)
    requires PublishedBy(w, first, ch, mode, a, intents, entries)
    requires PublishedBy(Run(Run(w, Events(first)), between), second, di, node, b, again, others)
    requires
      var attempts := Run(Run(Run(w, Events(first)), between), Events(second)).db.exec.attempts;
      a < |attempts| && b < |attempts| && attempts[a].task == attempts[b].task
    requires i < |entries| && i < |others| && entries[i].operation.Some? && others[i].operation.Some?
    ensures entries[i].state == Some(ConfirmedEffect) ==> others[i] == entries[i]
    ensures
      var o, z := entries[i].operation.value, Run(Run(Run(w, Events(first)), between), Events(second));
      o < |z.db.ops|
      && (EffectOpen(z.db, z.db.ops[o].slot, o) ==> others[i].operation == Some(o) && Latest(z.db.ops, z.db.ops[o].slot) == Some(o))
  {
    var x := Run(w, Events(first));
    var v := Run(x, between);
    RunLeads(w, Events(first));
    RunLeads(x, between);
    RunLeads(v, Events(second));
    IntentsDetermined(p, r, intents, again);
    EntryRepublished(w, x, v, Run(v, Events(second)), a, b, intents[i], entries[i], others[i]);
  }
}
