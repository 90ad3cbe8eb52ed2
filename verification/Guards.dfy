/** What a dispatcher could check in the database just before its provider call, so that the call is justified: the
    weakest such check, and why no check of the database can do better. */
module Guards {
  import opened Domain
  import opened Operations
  import opened World
  import opened Runs
  import opened Effects

  /** The slot's newest operation is the caller's own, or has not been dispatched, or is settled without effect. */
  predicate Unpassed(db: Db, o: nat)
    requires o < |db.ops|
  {
    var latest := Latest(db.ops, db.ops[o].slot);
    latest.Some? ==>
      latest.value == o || db.ops[latest.value].dispatch.None? || db.ops[latest.value].state == ConfirmedNoEffect
  }

  /** Checked in the same instant as the provider is called, this is enough. */
  lemma UnpassedSuffices(w: World, i: nat)
    requires Inv(w) && Ready(w, i) && w.calls[i].operation < |w.db.ops| && Unpassed(w.db, w.calls[i].operation)
    ensures Justified(w, w.calls[i].operation)
  {
    JustifiedUnlessOvertaken(w, i);
  }

  // ----- no check of the database admits more -----

  /** Two worlds that differ in one dispatch call only: in w it has not reached the provider, in v it has and its
      process is gone. No process can tell them apart. */
  ghost predicate Shadows(w: World, v: World, c: nat, n: nat) {
    && w.db == v.db && w.now == v.now
    && |w.calls| == |v.calls| && c < |w.calls|
    && (forall i | 0 <= i < |w.calls| && i != c :: w.calls[i] == v.calls[i])
    && w.calls[c].operation == n && !w.calls[c].phase.Answered?
    && v.calls[c].phase == Finished && n in v.sends
  }

  lemma StepShadows(w: World, v: World, e: Event, c: nat, n: nat)
    requires Shadows(w, v, c, n) && n !in Step(w, e).sends
    ensures Shadows(Step(w, e), Step(v, e), c, n)
  {
    assert Tx(w, e) == Tx(v, e);
  }

  lemma {:induction false} RunShadows(w: World, v: World, events: seq<Event>, c: nat, n: nat)
    requires Shadows(w, v, c, n) && n !in Run(w, events).sends
    ensures Shadows(Run(w, events), Run(v, events), c, n)
  {
    if events != [] {
      var before, last := events[..|events| - 1], events[|events| - 1];
      assert Run(w, before).sends <= Run(w, events).sends;
      RunShadows(w, v, before, c, n);
      StepShadows(Run(w, before), Run(v, before), last, c, n);
    }
  }

  /** A dispatcher reaches the provider and crashes. */
  function Dying(c: nat): seq<Event> {
    [Sends(c, Unacknowledged), Crashes(c)]
  }

  lemma RunTwo(w: World, d: Event, e: Event)
    ensures Run(w, [d, e]) == Step(Step(w, d), e)
  {
    assert [d, e][..1] == [d] && [d][..0] == [];
    assert Run(w, [d, e][..1]) == Step(w, d);
  }

  lemma SentAndGone(w: World, c: nat, n: nat)
    requires Ready(w, c) && w.calls[c].operation == n
    ensures Shadows(w, Step(Step(w, Sends(c, Unacknowledged)), Crashes(c)), c, n)
  {
    assert n in (w.sends + [n]);
  }

  lemma SendThenCrash(w: World, c: nat, n: nat)
    requires Ready(w, c) && w.calls[c].operation == n
    ensures Shadows(w, Run(w, Dying(c)), c, n)
  {
    RunTwo(w, Sends(c, Unacknowledged), Crashes(c));
    SentAndGone(w, c, n);
  }

  /** A commit puts its call under way. */
  lemma CommitMakesCall(now: int, events: seq<Event>, k: nat, n: nat)
    requires DispatchedAt(Boot(now), events, n, k)
    ensures
      var before, after := Run(Boot(now), events[..k]), Run(Boot(now), events[..k + 1]);
      Ready(after, |before.calls|) && after.calls[|before.calls|].operation == n
  {
    RunSteps(Boot(now), events, k);
  }

  /** The same run, except that the dispatcher of n reaches the provider right after its commit and crashes. */
  function SentInstead(events: seq<Event>, k: nat, c: nat): seq<Event>
    requires k < |events|
  {
    events[..k + 1] + Dying(c) + events[k + 1..]
  }

  lemma SentInsteadShadows(now: int, events: seq<Event>, k: nat, n: nat) returns (c: nat)
    requires DispatchedAt(Boot(now), events, n, k) && n !in Run(Boot(now), events).sends
    ensures Shadows(Run(Boot(now), events), Run(Boot(now), SentInstead(events, k, c)), c, n)
  {
    var boot, rest := Boot(now), events[k + 1..];
    var after := Run(boot, events[..k + 1]);
    c := |Run(boot, events[..k]).calls|;
    CommitMakesCall(now, events, k, n);
    SendThenCrash(after, c, n);
    RunSplits(boot, events, k + 1);
    RunShadows(after, Run(after, Dying(c)), rest, c, n);
    RunConcat(boot, events[..k + 1], Dying(c));
    RunConcat(boot, events[..k + 1] + Dying(c), rest);
  }

  /** Whenever the check fails, some run leads to the same database and clock, with the same call about to be made,
      in which the call is not justified. */
  lemma PassedUnjustified(now: int, events: seq<Event>, i: nat) returns (others: seq<Event>)
    requires Ready(Run(Boot(now), events), i)
    requires
      var w := Run(Boot(now), events);
      w.calls[i].operation < |w.db.ops| && !Unpassed(w.db, w.calls[i].operation)
    ensures
      var w, v := Run(Boot(now), events), Run(Boot(now), others);
      && v.db == w.db && v.now == w.now && Ready(v, i) && v.calls[i] == w.calls[i]
      && !Justified(v, w.calls[i].operation)
  {
    var w := Run(Boot(now), events);
    var o := w.calls[i].operation;
    var n := Latest(w.db.ops, w.db.ops[o].slot).value;
    StartInv(now);
    RunKeepsInv(Boot(now), events);
    if n in w.sends {
      others := events;
    } else {
      var k := FindCommit(Boot(now), events, n);
      var c := SentInsteadShadows(now, events, k, n);
      others := SentInstead(events, k, c);
    }
  }

  /** A check of the database that lets only justified calls through, in every run. */
  ghost predicate Sound(guard: (Db, nat) -> bool) {
    forall now, events, i: nat | Ready(Run(Boot(now), events), i) ::
      var w := Run(Boot(now), events);
      w.calls[i].operation < |w.db.ops| && (guard(w.db, w.calls[i].operation) ==> Justified(w, w.calls[i].operation))
  }

  lemma UnpassedIsSound()
    ensures Sound((db: Db, o: nat) => o < |db.ops| && Unpassed(db, o))
  {
    forall now, events, i: nat | Ready(Run(Boot(now), events), i)
      ensures
        var w := Run(Boot(now), events);
        var o := w.calls[i].operation;
        o < |w.db.ops| && (Unpassed(w.db, o) ==> Justified(w, o))
    {
      StartInv(now);
      RunKeepsInv(Boot(now), events);
      JustifiedUnlessOvertaken(Run(Boot(now), events), i);
    }
  }

  /** Every sound check of the database is at least as strict as this one. */
  lemma UnpassedWeakest(guard: (Db, nat) -> bool, now: int, events: seq<Event>, i: nat)
    requires Sound(guard) && Ready(Run(Boot(now), events), i)
    ensures
      var w := Run(Boot(now), events);
      w.calls[i].operation < |w.db.ops| && (guard(w.db, w.calls[i].operation) ==> Unpassed(w.db, w.calls[i].operation))
  {
    var w := Run(Boot(now), events);
    assert w.calls[i].operation < |w.db.ops|;
    if !Unpassed(w.db, w.calls[i].operation) {
      var others := PassedUnjustified(now, events, i);
      assert Ready(Run(Boot(now), others), i);
    }
  }
}
