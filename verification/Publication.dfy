/** What the publisher asks for and reports, from the payload, the decision, the records and the provider's answer alone. */
module Publication {
  import opened Domain
  import opened Strings
  import opened Decimals
  import opened Resources
  import opened Operations
  import opened World
  import opened Runs
  import opened Terms
  import opened DispatchService
  import opened Undisturbed
  import opened Publisher
  import opened Publishing

  // ----- what is to be published -----

  /** A decision that can be published either comments, with at least one comment and no vote, or approves, with the vote
      and no comment; and every comment says something about a place in a file. */
  lemma PublishableWhen(r: Review)
    ensures DecisionOk(r) && (forall c | c in r.comments :: CommentOk(c)) <==>
      && ((r.action == CommentAction && |r.comments| > 0 && r.vote == "") || (r.action == ApproveAction && r.comments == [] && r.vote == "approve"))
      && forall k | 0 <= k < |r.comments| :: Trim(r.comments[k].path) != "" && Trim(r.comments[k].body) != "" && r.comments[k].line >= 0
  {
    assert forall k | 0 <= k < |r.comments| :: r.comments[k] in r.comments;
  }

  /** The revision of the pull request that every slot names. */
  ghost function Revised(p: Payload): string {
    p.project + "/" + p.repo + "#" + Decimal(p.pr) + ":" + p.revision
  }

  /** One effect per comment, under a slot that names the revision and the comment's place in the decision, marked with the
      case, the work and that place; or the one vote for the revision. */
  lemma IntentsMean(p: Payload, r: Review, intents: seq<Intent>)
    requires DecisionOk(r) && Intended(p, r, intents)
    ensures r.action == ApproveAction ==> intents == [Intent("ado.pr.approve:" + Revised(p), VoteEffect(p.project, p.repo, p.pr))]
    ensures r.action != ApproveAction ==> |intents| == |r.comments| > 0 && forall k: nat | k < |intents| ::
      && r.comments[k].line >= 0
      && intents[k] == Intent("ado.pr.comment:" + Revised(p) + ":" + Decimal(k),
                              CommentEffect(p.project, p.repo, p.pr, Trim(r.comments[k].path), r.comments[k].line, Trim(r.comments[k].body),
                                            "[summa42:" + p.id + ":" + p.work + ":" + Decimal(k) + "]"))
  {
    forall k: nat | k < |r.comments| ensures intents[k] == IntentFor(p, r, k) && r.comments[k].line >= 0 {
      assert r.comments[k] in r.comments;
    }
  }

  /** The request for an effect goes to the provider of its kind, under the intent's own slot, for one unit of a technically
      capped exposure, and names the channel's owners as approvers. */
  lemma RequestMeans(ch: Channel, a: nat, i: Intent)
    ensures
      var r, vote := RequestFor(ch, a, i), i.effect.VoteEffect?;
      && r.attempt == a && r.key == Trim(i.slot) && r.caller == ch.owners
      && r.provider == (if vote then "ado-pr-vote" else "ado-pr-comment")
      && r.descriptor == (if vote then "ado.pr.approve" else "ado.pr.comment")
      && r.canonical == ch.canonical(i.effect) && r.risk == ch.risk(i.effect)
      && r.exposure == 1 && r.control.control == TechnicallyCapped && !r.control.requireHardCap && Trim(r.control.source) != ""
  {
    assert IsSpace(' ');
    PrintingEnds("ado pr vote");
    PrintingEnds("ado pr comment");
  }

  /** What the entries say, by mode: without publishing every effect is merely recorded; publishing comments, the vote is
      skipped; and whatever else is written is a confirmed outcome, or at the end of the run one that is unknown. */
  lemma WrittenMeans(mode: Mode, intents: seq<Intent>, entries: seq<Entry>, error: Option<Error>, k: nat)
    requires Written(mode, intents, entries, error) && k < |entries|
    ensures k < |intents| && entries[k].slot == intents[k].slot
    ensures mode == PublishNone && entries[k].state == None <==> entries[k].recordedOnly
    ensures entries[k].recordedOnly ==> !entries[k].skipped && entries[k].operation == None && entries[k].reference == ""
    ensures entries[k].skipped ==> mode == PublishComments && intents[k].effect.VoteEffect? && entries[k].operation == None
    ensures !entries[k].recordedOnly && !entries[k].skipped ==>
      || entries[k].state == Some(ConfirmedEffect) || entries[k].state == Some(ConfirmedNoEffect)
      || (entries[k].state == Some(OutcomeUncertain) && k == |entries| - 1)
    ensures mode == PublishAll ==> !entries[k].recordedOnly && !entries[k].skipped
    ensures error == None && |entries| < |intents| ==> entries[|entries| - 1].state == Some(OutcomeUncertain)
  {
  }

  // ----- one intent, undisturbed -----

  lemma AnsweredOnce(u: World, a: nat, key: string, o: nat, q: nat)
    requires Inv(u) && Answers(u, a, key, o) && Answers(u, a, key, q)
    ensures o == q
  {
    SameSlot(u, u.db.exec.attempts[a].task, key, o, q);
  }

  /** The entry an operation is reported with. */
  ghost function Told(i: Intent, o: nat, state: OperationState, reference: string): Entry {
    Entry(i.slot, Some(o), Some(state), reference, false, false)
  }

  /** How an operation that was out or over when it was found is reported: what has an outcome is through, what has none is
      asked about, and nothing is sent. */
  ghost predicate FoundOut(u: World, v: World, ch: Channel, a: nat, i: Intent, c: Circumstances, o: nat, p: Published)
    requires o < |u.db.ops|
  {
    var op := u.db.ops[o];
    && v.sends == u.sends
    && match op.state
       case ConfirmedEffect => v == u && p == Through(Told(i, o, op.state, op.reference))
       case ConfirmedNoEffect => v == u && p == Through(Told(i, o, op.state, op.reference))
       case OutcomeUncertain => v == u && p == Halted(Told(i, o, op.state, op.reference))
       case OperationCancelled => v == u && p.Broken?
       case Dispatched =>
         o < |v.db.ops|
         && if !(Live(u.db.exec, a, u.now) && u.db.exec.attempts[a].task == op.task) then v == u && p.Broken?
            else if v.db.ops[o].provider in ch.registry && Establishes(c.lookup) && c.lookup.outcome.cost >= 0
            then p == Through(Told(i, o, c.lookup.outcome.state, Trim(c.lookup.outcome.reference)))
            else
              || p == Halted(Told(i, o, OutcomeUncertain, v.db.ops[o].reference))
              || (p.Broken? && (v.db.ops[o].provider !in ch.registry || Establishes(c.lookup)))
       case Prepared => true
  }

  /** How an operation that was prepared is reported: if nothing stands in the way it goes out, once, and the report is what
      the provider said, or that this is not known; otherwise nothing is sent. */
  ghost predicate SentOut(u: World, v: World, ch: Channel, a: nat, i: Intent, c: Circumstances, o: nat, p: Published)
    requires o < |u.db.ops|
  {
    if Awaits(u, ch.registry, o, a) && c.policy.Ok? && Cleared(u, ch.registry, o, a, c.policy.value) && Clear(u, o, a, c.policy.value)
    then
      && v.sends == u.sends + [o] && o < |v.db.ops|
      && if Establishes(c.answer) && c.answer.outcome.cost >= 0
         then p == Through(Told(i, o, c.answer.outcome.state, Trim(c.answer.outcome.reference)))
         else if Establishes(c.answer) then p == Broken(Malformed)
         else p == Halted(Told(i, o, OutcomeUncertain, v.db.ops[o].reference))
    else v.sends == u.sends && p.Broken?
  }

  lemma ReadsFound(u: World, v: World, ch: Channel, a: nat, i: Intent, c: Circumstances, o: nat, p: Published,
                   settled: Result<Operation>, shown: Option<Operation>)
    requires Inv(u) && o < |u.db.ops| && u.db.ops[o].state != Prepared && u.db.ops[o].state != OutcomeUncertain
    requires DispatchedAlone(u, v, ch.registry, o, a, c, settled) && Current(v, o, settled, shown)
    requires (settled.Ok? ==> shown == Some(settled.value)) && p == Reading(i.slot, o, settled, shown)
    ensures FoundOut(u, v, ch, a, i, c, o, p)
  {
    if u.db.ops[o].state == Dispatched {
      LiveMeans(u.db.exec, a, u.now);
      if QuietlyReconciled(u, v, ch.registry, o, c.lookup, settled) { Reconciles(u, v, ch.registry, o, c.lookup, settled); }
    }
  }

  /** A delivered operation, as it is read. */
  lemma ReadsDelivered(v: World, i: Intent, o: nat, answer: Answer, p: Published, settled: Result<Operation>, shown: Option<Operation>)
    requires CameTo(v.db, o, answer, settled) && Current(v, o, settled, shown)
    requires (settled.Ok? ==> shown == Some(settled.value)) && p == Reading(i.slot, o, settled, shown)
    ensures
      if Establishes(answer) && answer.outcome.cost >= 0
      then p == Through(Told(i, o, answer.outcome.state, Trim(answer.outcome.reference)))
      else if Establishes(answer) then p == Broken(Malformed)
      else p == Halted(Told(i, o, OutcomeUncertain, v.db.ops[o].reference))
  {
  }

  lemma ReadsRefused(u: World, v: World, ch: Channel, a: nat, i: Intent, c: Circumstances, o: nat, settled: Result<Operation>)
    requires Inv(u) && o < |u.db.ops| && u.db.ops[o].state == Prepared && DispatchedAlone(u, v, ch.registry, o, a, c, settled)
    requires !(Awaits(u, ch.registry, o, a) && c.policy.Ok? && Cleared(u, ch.registry, o, a, c.policy.value))
    ensures v.sends == u.sends && settled.Err? && o < |v.db.ops| && v.db.ops[o].state != OutcomeUncertain
  {
    if Awaits(u, ch.registry, o, a) && c.policy.Ok? { Withdraws(u, v, ch.registry, o, a, settled); }
  }

  lemma ReadsSent(u: World, v: World, ch: Channel, a: nat, i: Intent, c: Circumstances, o: nat, p: Published,
                  settled: Result<Operation>, shown: Option<Operation>)
    requires Inv(u) && o < |u.db.ops| && u.db.ops[o].state == Prepared
    requires DispatchedAlone(u, v, ch.registry, o, a, c, settled) && Current(v, o, settled, shown)
    requires (settled.Ok? ==> shown == Some(settled.value)) && p == Reading(i.slot, o, settled, shown)
    ensures SentOut(u, v, ch, a, i, c, o, p)
  {
    if Awaits(u, ch.registry, o, a) && c.policy.Ok? && Cleared(u, ch.registry, o, a, c.policy.value) {
      Delivers(u, v, ch.registry, o, a, c.policy.value, c.answer, settled);
      if Clear(u, o, a, c.policy.value) { ReadsDelivered(v, i, o, c.answer, p, settled, shown); }
    } else {
      ReadsRefused(u, v, ch, a, i, c, o, settled);
    }
  }

  /** What publishing one intent comes to if nobody disturbs it: an effect that cannot be prepared is an error; otherwise
      the newest operation under its slot is sent out if it may be, or reported as it is found. */
  lemma PublishesAlone(w: World, v: World, ch: Channel, a: nat, i: Intent, r: PrepareRequest, c: Circumstances, p: Published, o: nat)
    requires Inv(w) && PublishedAlone(w, v, ch, a, i, r, c, p)
    requires PrepareTx(ch.registry, w.db, r, c.decision, w.now, w.now).Ok?
    requires Answers(Step(w, Prepares(ch.registry, r, c.decision, w.now)), a, Trim(i.slot), o)
    ensures
      var u := Step(w, Prepares(ch.registry, r, c.decision, w.now));
      u.sends == w.sends
      && if u.db.ops[o].state == Prepared then SentOut(u, v, ch, a, i, c, o, p) else FoundOut(u, v, ch, a, i, c, o, p)
  {
    var u := Step(w, Prepares(ch.registry, r, c.decision, w.now));
    StepKeepsInv(w, Prepares(ch.registry, r, c.decision, w.now));
    var q: nat :| Answers(u, a, Trim(i.slot), q)
      && if u.db.ops[q].state == OutcomeUncertain then v == u && p == Halted(EntryFor(i.slot, q, u.db.ops[q]))
         else ReadAlone(u, v, ch, a, i, c, q, p);
    AnsweredOnce(u, a, Trim(i.slot), o, q);
    if u.db.ops[o].state != OutcomeUncertain {
      var settled, shown :|
        && DispatchedAlone(u, v, ch.registry, o, a, c, settled) && Current(v, o, settled, shown)
        && (settled.Ok? ==> shown == Some(settled.value)) && p == Reading(i.slot, o, settled, shown);
      if u.db.ops[o].state == Prepared {
        ReadsSent(u, v, ch, a, i, c, o, p, settled, shown);
      } else {
        ReadsFound(u, v, ch, a, i, c, o, p, settled, shown);
      }
    }
  }
}
