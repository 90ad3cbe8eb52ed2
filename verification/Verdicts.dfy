/** Final verifiers racing to close one case. Each runs the same small program: look for a verdict, look for or store
    the evidence of its own snapshot, close, and if someone else's verdict is in the way, close again with that
    verdict's evidence. Any number of them may be interleaved with any other work on the ledger. */
module Verdicts {
  import opened Domain
  import opened Strings
  import opened Cases
  import opened CaseRuns

  const VERIFICATION_KIND := "ado.workflow.verification"

  /** Who closes the case, and what every verifier of it works out from the same immutable records. */
  datatype Final = Final(id: nat, verifier: string, kind: string, body: string, completion: set<nat>, decision: nat)

  /** What a verifier brings of its own. */
  datatype Identity = Identity(verifier: string, kind: string)

  function As(f: Final, who: Identity): Final {
    f.(verifier := who.verifier, kind := who.kind)
  }

  /** Where one verifier stands in its program. */
  datatype Stage =
    | Fresh | Missing | Absent | Chosen(seal: nat) | Conflicted | Replaying(seal: nat) | Done(result: Result<Verification>)

  datatype Standing = Standing(ledger: Ledger, stage: Stage)

  predicate SealAt(l: Ledger, e: nat, body: string) {
    e < |l.evidence| && l.evidence[e] == Evidence(VERIFICATION_KIND, body)
  }

  /** The first evidence object among ids that holds this snapshot. */
  function SealAmong(l: Ledger, ids: set<nat>, body: string, n: nat): (r: Option<nat>)
    requires n <= |l.evidence|
    ensures r.Some? ==> r.value in ids && SealAt(l, r.value, body)
    ensures r.None? ==> forall e: nat | e < n && e in ids :: !SealAt(l, e, body)
  {
    if n == 0 then None
    else
      var before := SealAmong(l, ids, body, n - 1);
      if before.Some? then before else if n - 1 in ids && SealAt(l, n - 1, body) then Some(n - 1) else None
  }

  /** The first evidence object of all that holds this snapshot. */
  function FindSeal(l: Ledger, body: string, n: nat): (r: Option<nat>)
    requires n <= |l.evidence|
    ensures r.Some? ==> r.value < n && SealAt(l, r.value, body) && forall e: nat | e < r.value :: !SealAt(l, e, body)
    ensures r.None? ==> forall e: nat | e < n :: !SealAt(l, e, body)
  {
    if n == 0 then None
    else
      var before := FindSeal(l, body, n - 1);
      if before.Some? then before else if SealAt(l, n - 1, body) then Some(n - 1) else None
  }

  function RequestOf(f: Final, seal: nat): Verification {
    Verification(f.id, f.verifier, f.kind, HashOf(f.body), f.body, f.completion + {f.decision, seal})
  }

  /** The verdict on record is for the same snapshot, and this is the evidence it was sealed with. */
  function SealOfRecord(l: Ledger, f: Final, v: Verification): Result<nat> {
    if v.hash != HashOf(f.body) || v.snapshot != f.body then Err(IntentConflict)
    else
      var seal := SealAmong(l, v.evidence, f.body, |l.evidence|);
      if seal.Some? then Ok(seal.value) else Err(NotFound)
  }

  function Closing(l: Ledger, f: Final, seal: nat, aborted: bool): Closure {
    Closed(l, RequestOf(f, seal), true, aborted)
  }

  /** One step of one verifier; if it is a close, the database may abort it. */
  function Advance(l: Ledger, f: Final, s: Stage, aborted: bool): Standing {
    match s
    case Fresh =>
      var found := FindVerdict(l.verdicts, f.id);
      if found.None? then Standing(l, Missing)
      else (match SealOfRecord(l, f, l.verdicts[found.value])
            case Ok(seal) => Standing(l, Chosen(seal))
            case Err(e) => Standing(l, Done(Err(e))))
    case Missing =>
      var seal := FindSeal(l, f.body, |l.evidence|);
      Standing(l, if seal.Some? then Chosen(seal.value) else Absent)
    case Absent =>
      Standing(l.(evidence := l.evidence + [Evidence(VERIFICATION_KIND, f.body)]), Chosen(|l.evidence|))
    case Chosen(seal) =>
      var closing := Closing(l, f, seal, aborted);
      Standing(closing.after, if closing.result == Err(IntentConflict) then Conflicted else Done(closing.result))
    case Conflicted =>
      var found := FindVerdict(l.verdicts, f.id);
      if found.None? then Standing(l, Done(Err(IntentConflict)))
      else (match SealOfRecord(l, f, l.verdicts[found.value])
            case Ok(seal) => Standing(l, Replaying(seal))
            case Err(e) => Standing(l, Done(Err(e))))
    case Replaying(seal) =>
      var closing := Closing(l, f, seal, aborted);
      Standing(closing.after, Done(closing.result))
    case Done(_) => Standing(l, s)
  }

  // ----- the race -----

  datatype Race = Race(ledger: Ledger, stages: seq<Stage>)

  /** Either some verifier takes its next step, or something else happens on the ledger. */
  datatype Turn = Verifier(which: nat, aborted: bool) | Elsewhere(event: CaseEvent)

  /** Other work may do anything but close this case: store evidence, open and assess any case, judge any other case,
      and reject this one. */
  predicate ClosesNot(e: CaseEvent, id: nat) {
    e.Closes? ==> e.verification.id != id
  }

  function Take(race: Race, f: Final, who: seq<Identity>, t: Turn): Race {
    match t
    case Verifier(i, aborted) =>
      if i >= |race.stages| || i >= |who| then race
      else
        var next := Advance(race.ledger, As(f, who[i]), race.stages[i], aborted);
        Race(next.ledger, race.stages[i := next.stage])
    case Elsewhere(e) => if ClosesNot(e, f.id) then race.(ledger := CaseStep(race.ledger, e)) else race
  }

  function Play(race: Race, f: Final, who: seq<Identity>, turns: seq<Turn>): Race {
    if turns == [] then race else Take(Play(race, f, who, turns[..|turns| - 1]), f, who, turns[|turns| - 1])
  }

  // ----- what the race keeps -----

  /** The verdict a verifier of this case records. */
  ghost predicate Sealed(l: Ledger, f: Final, v: Verification) {
    && v.id == f.id && v.hash == HashOf(f.body) && v.snapshot == f.body
    && exists seal :: SealAt(l, seal, f.body) && v.evidence == f.completion + {f.decision, seal}
  }

  /** The inputs are on record, are not themselves snapshots, and the case is ready, or already closed this way, or
      rejected. */
  ghost predicate Ready(l: Ledger, f: Final) {
    && LedgerInv(l) && f.id < |l.cases|
    && Trim(f.body) != ""
    && (forall e | e in f.completion + {f.decision} :: e < |l.evidence| && l.evidence[e].kind != VERIFICATION_KIND)
    && var found := FindVerdict(l.verdicts, f.id);
    if found.None? then l.cases[f.id].state == CaseReady
    else l.verdicts[found.value].hash.NoHash? || Sealed(l, f, l.verdicts[found.value])
  }

  predicate Named(who: Identity) {
    who.verifier != "" && who.kind != ""
  }

  predicate AllNamed(who: seq<Identity>) {
    forall c | c in who :: Named(c)
  }

  /** What a verdict on record means to a verifier: a rejection is in its way. */
  function Outcome(v: Verification): Result<Verification> {
    if v.hash.NoHash? then Err(IntentConflict) else Ok(v)
  }

  ghost predicate StageOk(l: Ledger, f: Final, s: Stage) {
    var found := FindVerdict(l.verdicts, f.id);
    match s
    case Chosen(seal) => SealAt(l, seal, f.body)
    case Conflicted => found.Some?
    case Replaying(seal) =>
      SealAt(l, seal, f.body) && found.Some? && l.verdicts[found.value].hash.HashOf?
      && l.verdicts[found.value].evidence == f.completion + {f.decision, seal}
    case Done(r) => r == Err(Busy) || (found.Some? && r == Outcome(l.verdicts[found.value]))
    case _ => true
  }

  ghost predicate RaceInv(race: Race, f: Final) {
    Ready(race.ledger, f) && forall i | 0 <= i < |race.stages| :: StageOk(race.ledger, f, race.stages[i])
  }

  lemma VerdictLasts(l: Ledger, m: Ledger, id: nat)
    requires LedgerInv(m) && LedgerAdvances(l, m)
    requires FindVerdict(l.verdicts, id).Some?
    ensures FindVerdict(m.verdicts, id) == FindVerdict(l.verdicts, id)
    ensures m.verdicts[FindVerdict(m.verdicts, id).value] == l.verdicts[FindVerdict(l.verdicts, id).value]
  {
    var k, found := FindVerdict(l.verdicts, id).value, FindVerdict(m.verdicts, id);
    assert m.verdicts[k] == l.verdicts[k];
    assert found.Some?;
    JudgedOnce(m, k, found.value);
  }

  /** Whatever moves the ledger forward without touching this case's verdict keeps every stage as it was. */
  lemma StageLasts(l: Ledger, m: Ledger, f: Final, s: Stage)
    requires LedgerInv(m) && LedgerAdvances(l, m) && StageOk(l, f, s)
    ensures StageOk(m, f, s)
  {
    if FindVerdict(l.verdicts, f.id).Some? { VerdictLasts(l, m, f.id); }
  }

  lemma ReadyLasts(l: Ledger, m: Ledger, f: Final)
    requires Ready(l, f) && LedgerInv(m) && LedgerAdvances(l, m)
    requires FindVerdict(l.verdicts, f.id).None? ==>
      var found := FindVerdict(m.verdicts, f.id);
      if found.None? then m.cases[f.id].state == CaseReady else m.verdicts[found.value].hash.NoHash?
    ensures Ready(m, f)
  {
    if FindVerdict(l.verdicts, f.id).Some? {
      VerdictLasts(l, m, f.id);
      var v := l.verdicts[FindVerdict(l.verdicts, f.id).value];
      if Sealed(l, f, v) {
        var seal :| SealAt(l, seal, f.body) && v.evidence == f.completion + {f.decision, seal};
        assert SealAt(m, seal, f.body);
      }
    }
  }

  lemma NoVerdictMeans(l: Ledger, id: nat)
    ensures FindVerdict(l.verdicts, id).None? <==> forall k | 0 <= k < |l.verdicts| :: l.verdicts[k].id != id
  {
    var found := FindVerdict(l.verdicts, id);
  }

  /** The only verdict others can put on this case is a rejection. */
  lemma OnlyRejections(l: Ledger, f: Final, e: CaseEvent)
    requires Ready(l, f) && ClosesNot(e, f.id) && FindVerdict(l.verdicts, f.id).None?
    ensures
      var m := CaseStep(l, e);
      var found := FindVerdict(m.verdicts, f.id);
      if found.None? then f.id < |m.cases| && m.cases[f.id].state == CaseReady else m.verdicts[found.value].hash.NoHash?
  {
    NoVerdictMeans(l, f.id);
    NoVerdictMeans(CaseStep(l, e), f.id);
  }

  lemma ElsewhereKeeps(l: Ledger, f: Final, e: CaseEvent)
    requires Ready(l, f) && ClosesNot(e, f.id)
    ensures Ready(CaseStep(l, e), f) && LedgerAdvances(l, CaseStep(l, e))
  {
    CaseStepKeeps(l, e);
    if FindVerdict(l.verdicts, f.id).None? { OnlyRejections(l, f, e); }
    ReadyLasts(l, CaseStep(l, e), f);
  }

  lemma FirstClose(l: Ledger, f: Final, seal: nat)
    requires Ready(l, f) && Named(Identity(f.verifier, f.kind)) && SealAt(l, seal, f.body)
    requires FindVerdict(l.verdicts, f.id).None?
    ensures
      var m := Closing(l, f, seal, false).after;
      && Ready(m, f) && LedgerAdvances(l, m) && Closing(l, f, seal, false).result == Ok(RequestOf(f, seal))
      && VerdictOf(m, f.id) == Ok(RequestOf(f, seal))
  {
    NoVerdictMeans(l, f.id);
    EndKeepsLedger(l, RequestOf(f, seal), CaseClosed);
    var m := Closing(l, f, seal, false).after;
    assert m.verdicts[|l.verdicts|] == RequestOf(f, seal);
    assert SealAt(m, seal, f.body);
    assert Sealed(m, f, RequestOf(f, seal));
  }

  /** Closing with a proper seal: it records the verdict, replays it, or runs into one with another seal or into a
      rejection; aborted, it may find that there is none. */
  lemma ClosingWithSeal(l: Ledger, f: Final, seal: nat, aborted: bool)
    requires Ready(l, f) && Named(Identity(f.verifier, f.kind)) && SealAt(l, seal, f.body)
    ensures
      var m := Closing(l, f, seal, aborted).after;
      && Ready(m, f) && LedgerAdvances(l, m)
      && Closing(l, f, seal, aborted).result ==
         match VerdictOf(m, f.id)
         case Err(_) => Err(Busy)
         case Ok(v) => if v.hash.HashOf? && v.evidence == f.completion + {f.decision, seal} then Ok(v) else Err(IntentConflict)
    ensures VerdictOf(Closing(l, f, seal, aborted).after, f.id).Err? ==> aborted
  {
    LedgerWaits(l);
    if FindVerdict(l.verdicts, f.id).None? && !aborted { FirstClose(l, f, seal); }
  }

  /** A closing verdict on record gives back the very seal it was closed with, and a rejection gives back nothing. */
  lemma SealRecovered(l: Ledger, f: Final)
    requires Ready(l, f) && FindVerdict(l.verdicts, f.id).Some?
    ensures
      var v := l.verdicts[FindVerdict(l.verdicts, f.id).value];
      if v.hash.NoHash? then SealOfRecord(l, f, v) == Err(IntentConflict)
      else
        SealOfRecord(l, f, v).Ok? && SealAt(l, SealOfRecord(l, f, v).value, f.body)
        && v.evidence == f.completion + {f.decision, SealOfRecord(l, f, v).value}
  {
    var v := l.verdicts[FindVerdict(l.verdicts, f.id).value];
    if v.hash.HashOf? {
      var seal :| SealAt(l, seal, f.body) && v.evidence == f.completion + {f.decision, seal};
      assert seal in v.evidence;
      var found := SealAmong(l, v.evidence, f.body, |l.evidence|);
      assert found.Some?;
      assert found.value in v.evidence;
    }
  }

  lemma AdvanceKeeps(l: Ledger, f: Final, s: Stage, aborted: bool)
    requires Ready(l, f) && Named(Identity(f.verifier, f.kind)) && StageOk(l, f, s)
    ensures
      var next := Advance(l, f, s, aborted);
      Ready(next.ledger, f) && StageOk(next.ledger, f, next.stage) && LedgerAdvances(l, next.ledger)
  {
    LedgerWaits(l);
    if FindVerdict(l.verdicts, f.id).Some? { SealRecovered(l, f); }
    match s {
      case Absent =>
        var e := Evidence(VERIFICATION_KIND, f.body);
        PutKeepsLedger(l, e);
        ReadyLasts(l, l.(evidence := l.evidence + [e]), f);
      case Chosen(seal) => ClosingWithSeal(l, f, seal, aborted);
      case Replaying(seal) => ClosingWithSeal(l, f, seal, aborted);
      case _ =>
    }
  }

  /** Who takes the step makes no difference to what is kept. */
  lemma AdvanceAsKeeps(l: Ledger, f: Final, who: Identity, s: Stage, aborted: bool)
    requires Ready(l, f) && Named(who) && StageOk(l, f, s)
    ensures
      var next := Advance(l, As(f, who), s, aborted);
      Ready(next.ledger, f) && StageOk(next.ledger, f, next.stage) && LedgerAdvances(l, next.ledger)
  {
    AdvanceKeeps(l, As(f, who), s, aborted);
  }

  lemma TakeKeeps(race: Race, f: Final, who: seq<Identity>, t: Turn)
    requires RaceInv(race, f) && AllNamed(who)
    ensures RaceInv(Take(race, f, who, t), f) && LedgerAdvances(race.ledger, Take(race, f, who, t).ledger)
  {
    var next := Take(race, f, who, t);
    LedgerWaits(race.ledger);
    match t {
      case Verifier(i, aborted) =>
        if i < |race.stages| && i < |who| { AdvanceAsKeeps(race.ledger, f, who[i], race.stages[i], aborted); }
      case Elsewhere(e) => if ClosesNot(e, f.id) { ElsewhereKeeps(race.ledger, f, e); }
    }
    forall i: nat | i < |race.stages| && !(t.Verifier? && t.which == i) ensures StageOk(next.ledger, f, race.stages[i]) {
      StageLasts(race.ledger, next.ledger, f, race.stages[i]);
    }
  }

  lemma {:induction false} PlayKeeps(race: Race, f: Final, who: seq<Identity>, turns: seq<Turn>)
    requires RaceInv(race, f) && AllNamed(who)
    ensures RaceInv(Play(race, f, who, turns), f) && LedgerAdvances(race.ledger, Play(race, f, who, turns).ledger)
    ensures |Play(race, f, who, turns).stages| == |race.stages|
  {
    if turns == [] {
      LedgerWaits(race.ledger);
    } else {
      var before := turns[..|turns| - 1];
      PlayKeeps(race, f, who, before);
      TakeKeeps(Play(race, f, who, before), f, who, turns[|turns| - 1]);
      LedgerAdvancesTransitive(race.ledger, Play(race, f, who, before).ledger, Play(race, f, who, turns).ledger);
    }
  }

  /** One verifier per identity, all at the beginning. */
  function Entrants(l: Ledger, who: seq<Identity>): Race {
    Race(l, seq(|who|, i => Fresh))
  }

  lemma OneRecord(l: Ledger, id: nat)
    requires LedgerInv(l) && FindVerdict(l.verdicts, id).Some?
    ensures
      var v := l.verdicts[FindVerdict(l.verdicts, id).value];
      && (forall k | 0 <= k < |l.verdicts| && l.verdicts[k].id == id :: l.verdicts[k] == v)
      && id < |l.cases| && l.cases[id].state == (if v.hash.NoHash? then CaseBlocked else CaseClosed)
  {
    var found := FindVerdict(l.verdicts, id).value;
    assert VerdictOk(l, found);
    forall k: nat | k < |l.verdicts| && l.verdicts[k].id == id ensures k == found { JudgedOnce(l, k, found); }
  }

  /** However many verifiers race, under whatever names, with rejecters among the others, and however they are
      interleaved: a verifier that has finished gave up on a busy database, or it holds what the one verdict on record
      for the case means. That is the verdict itself if the case was closed, sealed with a snapshot of this very body
      even where others had stored snapshots of their own, and an intent conflict exactly if the case was rejected. */
  lemma VerdictAgreement(l: Ledger, f: Final, who: seq<Identity>, turns: seq<Turn>, i: nat)
    requires Ready(l, f) && AllNamed(who) && i < |who|
    requires
      var stages := Play(Entrants(l, who), f, who, turns).stages;
      i < |stages| && stages[i].Done? && stages[i].result != Err(Busy)
    ensures
      var race := Play(Entrants(l, who), f, who, turns);
      && VerdictOf(race.ledger, f.id).Ok?
      && var v := VerdictOf(race.ledger, f.id).value;
      && race.stages[i].result == Outcome(v)
      && (forall k | 0 <= k < |race.ledger.verdicts| && race.ledger.verdicts[k].id == f.id :: race.ledger.verdicts[k] == v)
      && f.id < |race.ledger.cases|
      && race.ledger.cases[f.id].state == (if v.hash.NoHash? then CaseBlocked else CaseClosed)
      && (v.hash.NoHash? || Sealed(race.ledger, f, v))
  {
    PlayKeeps(Entrants(l, who), f, who, turns);
    var race := Play(Entrants(l, who), f, who, turns);
    assert StageOk(race.ledger, f, race.stages[i]);
    OneRecord(race.ledger, f.id);
  }

  /** A verifier gives up only if one of its own closes was aborted. */
  lemma {:induction false} NobodyGivesUp(l: Ledger, f: Final, who: seq<Identity>, turns: seq<Turn>, i: nat)
    requires Ready(l, f) && AllNamed(who) && i < |who| && Verifier(i, true) !in turns
    ensures
      var stages := Play(Entrants(l, who), f, who, turns).stages;
      i < |stages| && stages[i] != Done(Err(Busy))
  {
    PlayKeeps(Entrants(l, who), f, who, turns);
    if turns != [] {
      var before, t := turns[..|turns| - 1], turns[|turns| - 1];
      assert t in turns;
      NobodyGivesUp(l, f, who, before, i);
      var race := Play(Entrants(l, who), f, who, before);
      PlayKeeps(Entrants(l, who), f, who, before);
      if t == Verifier(i, false) { NotAborted(race.ledger, As(f, who[i]), race.stages[i]); }
    }
  }

  lemma NotAborted(l: Ledger, f: Final, s: Stage)
    requires Ready(l, f) && Named(Identity(f.verifier, f.kind)) && StageOk(l, f, s) && s != Done(Err(Busy))
    ensures Advance(l, f, s, false).stage != Done(Err(Busy))
  {
    match s {
      case Chosen(seal) => ClosingWithSeal(l, f, seal, false);
      case Replaying(seal) => ClosingWithSeal(l, f, seal, false);
      case _ =>
    }
  }

  function Distance(s: Stage): nat {
    match s
    case Fresh => 6
    case Missing => 5
    case Absent => 4
    case Chosen(_) => 3
    case Conflicted => 2
    case Replaying(_) => 1
    case Done(_) => 0
  }

  /** A verifier is finished after at most six steps of its own. */
  lemma AdvanceEnds(l: Ledger, f: Final, s: Stage, aborted: bool)
    ensures !s.Done? ==> Distance(Advance(l, f, s, aborted).stage) < Distance(s) <= 6
  {
  }
}
