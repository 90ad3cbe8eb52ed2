/** Learned executor preferences: how verified outcomes are tallied, when a preference counts as a regression, and
    how the versions of its rule follow one another. */
module Evaluator {
  import opened Domain

  datatype Stat = Stat(samples: nat, accepted: nat, costSum: nat, costN: nat)

  const NOTHING: Stat := Stat(0, 0, 0, 0)

  /** The latest verified outcome of one task. */
  datatype TaskOutcome = TaskOutcome(executor: string, accepted: bool, cost: Option<nat>)

  function Merge(a: Stat, b: Stat): Stat {
    Stat(a.samples + b.samples, a.accepted + b.accepted, a.costSum + b.costSum, a.costN + b.costN)
  }

  // ----- tallying -----

  datatype Field = Samples | Accepted | CostSum | CostN

  function Share(o: TaskOutcome, f: Field): nat {
    match f
    case Samples => 1
    case Accepted => if o.accepted then 1 else 0
    case CostSum => if o.cost.Some? then o.cost.value else 0
    case CostN => if o.cost.Some? then 1 else 0
  }

  function StatOf(o: TaskOutcome): Stat {
    Stat(Share(o, Samples), Share(o, Accepted), Share(o, CostSum), Share(o, CostN))
  }

  /** One column of the outcomes of the executors in s, added up row by row. */
  function Total(rows: seq<TaskOutcome>, s: set<string>, f: Field): nat {
    if rows == [] then 0
    else Total(rows[..|rows| - 1], s, f) + (if rows[|rows| - 1].executor in s then Share(rows[|rows| - 1], f) else 0)
  }

  /** The outcomes of the executors in s, taken together. */
  function Tally(rows: seq<TaskOutcome>, s: set<string>): Stat {
    Stat(Total(rows, s, Samples), Total(rows, s, Accepted), Total(rows, s, CostSum), Total(rows, s, CostN))
  }

  lemma TotalAppend(rows: seq<TaskOutcome>, o: TaskOutcome, s: set<string>, f: Field)
    ensures Total(rows + [o], s, f) == Total(rows, s, f) + (if o.executor in s then Share(o, f) else 0)
  {
    assert (rows + [o])[..|rows|] == rows;
  }

  lemma TallyAppend(rows: seq<TaskOutcome>, o: TaskOutcome, s: set<string>)
    ensures Tally(rows + [o], s) == if o.executor in s then Merge(Tally(rows, s), StatOf(o)) else Tally(rows, s)
  {
    TotalAppend(rows, o, s, Samples);
    TotalAppend(rows, o, s, Accepted);
    TotalAppend(rows, o, s, CostSum);
    TotalAppend(rows, o, s, CostN);
  }

  /** Each row counts once towards the executors it is one of: as a sample, as accepted if it was, and with its cost if it
      has one. */
  lemma TallyMeans(rows: seq<TaskOutcome>, o: TaskOutcome, s: set<string>)
    ensures Tally([], s) == Stat(0, 0, 0, 0)
    ensures
      var t := Tally(rows, s);
      Tally(rows + [o], s) ==
        if o.executor !in s then t
        else Stat(t.samples + 1, if o.accepted then t.accepted + 1 else t.accepted,
                  if o.cost.Some? then t.costSum + o.cost.value else t.costSum, if o.cost.Some? then t.costN + 1 else t.costN)
  {
    TallyAppend(rows, o, s);
  }

  lemma {:induction false} TotalAdds(rows: seq<TaskOutcome>, s: set<string>, e: string, f: Field)
    requires e !in s
    ensures Total(rows, s + {e}, f) == Total(rows, s, f) + Total(rows, {e}, f)
  {
    if rows != [] { TotalAdds(rows[..|rows| - 1], s, e, f); }
  }

  lemma MergeOf(a: Stat, b: Stat, c: Stat)
    requires c.samples == a.samples + b.samples && c.accepted == a.accepted + b.accepted
    requires c.costSum == a.costSum + b.costSum && c.costN == a.costN + b.costN
    ensures c == Merge(a, b)
  {
  }

  lemma TallyAdds(rows: seq<TaskOutcome>, s: set<string>, e: string)
    requires e !in s
    ensures Tally(rows, s + {e}) == Merge(Tally(rows, s), Tally(rows, {e}))
  {
    forall f: Field ensures Total(rows, s + {e}, f) == Total(rows, s, f) + Total(rows, {e}, f) { TotalAdds(rows, s, e, f); }
    MergeOf(Tally(rows, s), Tally(rows, {e}), Tally(rows, s + {e}));
  }

  lemma {:induction false} TotalNothing(rows: seq<TaskOutcome>, s: set<string>, f: Field)
    requires forall o | o in rows :: o.executor !in s
    ensures Total(rows, s, f) == 0
  {
    if rows != [] { TotalNothing(rows[..|rows| - 1], s, f); }
  }

  lemma TallyNothing(rows: seq<TaskOutcome>, s: set<string>)
    requires forall o | o in rows :: o.executor !in s
    ensures Tally(rows, s) == NOTHING
  {
    TotalNothing(rows, s, Samples);
    TotalNothing(rows, s, Accepted);
    TotalNothing(rows, s, CostSum);
    TotalNothing(rows, s, CostN);
  }

  lemma {:induction false} TallyBounds(rows: seq<TaskOutcome>, s: set<string>)
    ensures Tally(rows, s).accepted <= Tally(rows, s).samples && Tally(rows, s).costN <= Tally(rows, s).samples
  {
    if rows != [] { TallyBounds(rows[..|rows| - 1], s); }
  }

  function Executors(rows: seq<TaskOutcome>): set<string> {
    set o | o in rows :: o.executor
  }

  ghost predicate Tallied(rows: seq<TaskOutcome>, stats: map<string, Stat>) {
    stats.Keys == Executors(rows) && forall e | e in stats :: stats[e] == Tally(rows, {e})
  }

  function Entry(stats: map<string, Stat>, e: string): Stat {
    if e in stats then stats[e] else NOTHING
  }

  lemma EntryTallies(rows: seq<TaskOutcome>, stats: map<string, Stat>, e: string)
    requires Tallied(rows, stats)
    ensures Entry(stats, e) == Tally(rows, {e})
  {
    if e !in stats { TallyNothing(rows, {e}); }
  }

  function Counted(stats: map<string, Stat>, o: TaskOutcome): map<string, Stat> {
    stats[o.executor := Merge(Entry(stats, o.executor), StatOf(o))]
  }

  lemma TallyOne(rows: seq<TaskOutcome>, stats: map<string, Stat>, o: TaskOutcome, e: string)
    requires Tallied(rows, stats) && e in Counted(stats, o)
    ensures Counted(stats, o)[e] == Tally(rows + [o], {e})
  {
    EntryTallies(rows, stats, e);
    TallyAppend(rows, o, {e});
  }

  lemma TallyRow(rows: seq<TaskOutcome>, stats: map<string, Stat>, o: TaskOutcome)
    requires Tallied(rows, stats)
    ensures Tallied(rows + [o], Counted(stats, o))
  {
    forall e | e in Counted(stats, o) ensures Counted(stats, o)[e] == Tally(rows + [o], {e}) { TallyOne(rows, stats, o, e); }
    assert Executors(rows + [o]) == Executors(rows) + {o.executor};
  }

  lemma NothingTallied()
    ensures Tallied([], map[])
  {
  }

  /** One entry per executor, filled row by row. */
  method OutcomeStats(rows: seq<TaskOutcome>) returns (stats: map<string, Stat>)
    ensures Tallied(rows, stats)
  {
    stats := map[];
    NothingTallied();
    ghost var read: seq<TaskOutcome> := [];
    for i := 0 to |rows|
      invariant |read| == i && forall k | 0 <= k < i :: read[k] == rows[k]
      invariant Tallied(read, stats)
    {
      TallyRow(read, stats, rows[i]);
      stats, read := Counted(stats, rows[i]), read + [rows[i]];
    }
    assert read == rows;
  }

  /** Merges every executor's entry but the preferred one's, in whatever order the map is walked: the result is the
      tally of all outcomes by other executors, so it does not depend on that order. */
  method Baseline(rows: seq<TaskOutcome>, stats: map<string, Stat>, preferred: string) returns (baseline: Stat)
    requires Tallied(rows, stats)
    ensures baseline == Tally(rows, Executors(rows) - {preferred})
  {
    baseline := NOTHING;
    var rest := stats.Keys;
    ghost var merged: set<string> := {};
    TallyNothing(rows, {});
    while rest != {}
      invariant rest <= stats.Keys
      invariant merged == (stats.Keys - rest) - {preferred}
      invariant baseline == Tally(rows, merged)
      decreases |rest|
    {
      var e :| e in rest;
      rest := rest - {e};
      if e != preferred {
        TallyAdds(rows, merged, e);
        baseline := Merge(baseline, stats[e]);
        merged := merged + {e};
      }
    }
    assert merged == Executors(rows) - {preferred};
  }

  method Tallies(rows: seq<TaskOutcome>, executor: string) returns (preferred: Stat, baseline: Stat)
    ensures preferred == Tally(rows, {executor}) && baseline == Tally(rows, Executors(rows) - {executor})
  {
    var stats := OutcomeStats(rows);
    EntryTallies(rows, stats, executor);
    preferred := Entry(stats, executor);
    baseline := Baseline(rows, stats, executor);
  }

  // ----- regression tests in integer basis points -----

  function RateBps(s: Stat): nat
    requires s.samples > 0
  {
    s.accepted * 10000 / s.samples
  }

  predicate AcceptanceRegressed(preferred: Stat, baseline: Stat, maxBps: nat) {
    if preferred.samples == 0 then false
    else if baseline.samples == 0 then RateBps(preferred) < 10000
    else RateBps(baseline) - RateBps(preferred) > maxBps
  }

  predicate CostRegressed(preferred: Stat, baseline: Stat, maxBps: nat) {
    if preferred.costN == 0 || baseline.costN == 0 then false
    else
      var prefAvg, baseAvg := preferred.costSum / preferred.costN, baseline.costSum / baseline.costN;
      if baseAvg <= 0 then prefAvg > 0
      else if prefAvg <= baseAvg then false
      else (prefAvg - baseAvg) * 10000 / baseAvg > maxBps
  }

  /** Rounding down loses less than one unit. */
  lemma Floor(x: nat, n: nat) returns (rest: nat)
    requires n > 0
    ensures x == x / n * n + rest && rest < n
  {
    rest := x % n;
  }

  lemma ScaleUp(a: int, b: int, k: nat)
    requires a <= b
    ensures a * k <= b * k
  {
  }

  lemma RestBounds(rest: nat, m: nat, n: nat)
    requires rest < m && n > 0
    ensures 0 <= rest * n < m * n
  {
    ScaleUp(rest, m - 1, n);
    assert (m - 1) * n == m * n - n;
  }

  lemma Expand(x: int, y: int, m: int, n: int, rb: int, rp: int)
    ensures (x * m + rb) * n - (y * n + rp) * m == (x - y) * (m * n) + rb * n - rp * m
  {
  }

  /** Cross-multiplied: how far the true gap between the acceptance rates lies from the gap of the rounded ones. */
  lemma GapBounds(p: Stat, b: Stat)
    requires p.samples > 0 && b.samples > 0
    ensures
      var gap := 10000 * (b.accepted * p.samples - p.accepted * b.samples);
      var unit := b.samples * p.samples;
      (RateBps(b) - RateBps(p) - 1) * unit < gap < (RateBps(b) - RateBps(p) + 1) * unit
  {
    var m, n := b.samples, p.samples;
    var rb := Floor(b.accepted * 10000, m);
    var rp := Floor(p.accepted * 10000, n);
    var d: int := RateBps(b) - RateBps(p);
    var gap: int := 10000 * (b.accepted * n - p.accepted * m);
    Distribute(b.accepted, p.accepted, m, n);
    Expand(RateBps(b), RateBps(p), m, n, rb, rp);
    RestBounds(rb, m, n);
    RestBounds(rp, n, m);
    Neighbours(d, m * n);
  }

  lemma Distribute(a: int, c: int, m: int, n: int)
    ensures 10000 * (a * n - c * m) == (a * 10000) * n - (c * 10000) * m
  {
  }

  lemma Neighbours(d: int, unit: int)
    ensures (d + 1) * unit == d * unit + unit && (d - 1) * unit == d * unit - unit
  {
  }

  /** With samples on both sides: not regressed means the true acceptance gap is below (maxBps + 1) / 10000, and
      regressed means it is above maxBps / 10000. */
  lemma AcceptanceGap(p: Stat, b: Stat, maxBps: nat)
    requires p.samples > 0 && b.samples > 0
    ensures
      var gap := 10000 * (b.accepted * p.samples - p.accepted * b.samples);
      && (!AcceptanceRegressed(p, b, maxBps) ==> gap < (maxBps + 1) * (b.samples * p.samples))
      && (AcceptanceRegressed(p, b, maxBps) ==> gap > maxBps * (b.samples * p.samples))
  {
    GapBounds(p, b);
    var unit := b.samples * p.samples;
    if AcceptanceRegressed(p, b, maxBps) {
      ScaleUp(maxBps, RateBps(b) - RateBps(p) - 1, unit);
    } else {
      ScaleUp(RateBps(b) - RateBps(p) + 1, maxBps + 1, unit);
    }
  }

  /** Without a baseline, anything short of full acceptance counts as a regression. */
  lemma WithoutBaseline(p: Stat, b: Stat, maxBps: nat)
    requires b.samples == 0 && p.accepted <= p.samples
    ensures AcceptanceRegressed(p, b, maxBps) <==> p.accepted < p.samples
  {
    if p.samples > 0 {
      var rest := Floor(p.accepted * 10000, p.samples);
      if p.accepted < p.samples {
        if RateBps(p) >= 10000 { ScaleUp(10000, RateBps(p), p.samples); }
      } else {
        assert RateBps(p) == 10000 by { if RateBps(p) < 10000 { ScaleUp(RateBps(p), 9999, p.samples); } }
      }
    }
  }

  lemma {:induction false} AcceptedAll(rows: seq<TaskOutcome>, s: set<string>)
    requires Executors(rows) <= s
    ensures Total(rows, s, Accepted) < Total(rows, s, Samples) <==> exists o :: o in rows && !o.accepted
  {
    if rows != [] {
      var n := |rows| - 1;
      assert rows == rows[..n] + [rows[n]];
      assert rows[n].executor in Executors(rows);
      forall e | e in Executors(rows[..n]) ensures e in s { assert e in Executors(rows); }
      AcceptedAll(rows[..n], s);
      TallyBounds(rows[..n], s);
    }
  }

  /** On the code's own tallies: where nobody else has an outcome on record, the preference counts as regressed exactly
      when some outcome was not accepted, whatever the tolerance. */
  lemma AloneRegressed(rows: seq<TaskOutcome>, executor: string, maxBps: nat)
    requires Executors(rows) <= {executor}
    ensures AcceptanceRegressed(Tally(rows, {executor}), Tally(rows, Executors(rows) - {executor}), maxBps) <==>
      exists o :: o in rows && !o.accepted
  {
    var others := Executors(rows) - {executor};
    assert others == {};
    TallyNothing(rows, others);
    TallyBounds(rows, {executor});
    WithoutBaseline(Tally(rows, {executor}), Tally(rows, others), maxBps);
    AcceptedAll(rows, {executor});
  }

  /** With costs on both sides and a positive rounded baseline: not regressed means the true mean cost is below the
      true baseline mean times 1 + (maxBps + 1) / 10000, plus one; regressed means it is above the true baseline mean
      less one, times the same factor. */
  lemma CostGap(p: Stat, b: Stat, maxBps: nat)
    requires p.costN > 0 && b.costN > 0 && b.costSum / b.costN > 0
    ensures !CostRegressed(p, b, maxBps) ==>
      10000 * (p.costSum * b.costN) < (10000 + maxBps + 1) * (b.costSum * p.costN) + 10000 * (p.costN * b.costN)
    ensures CostRegressed(p, b, maxBps) ==>
      10000 * (p.costSum * b.costN) > (10000 + maxBps + 1) * ((b.costSum - b.costN) * p.costN)
  {
    var x, y, m, n, k := p.costSum / p.costN, b.costSum / b.costN, b.costN, p.costN, 10000 + maxBps + 1;
    var rp := Floor(p.costSum, n);
    var rb := Floor(b.costSum, m);
    if CostRegressed(p, b, maxBps) {
      RegressedAverages(x, y, maxBps);
      CostAbove(x, y, m, n, rp, rb, k);
    } else {
      SoundAverages(x, y, maxBps);
      CostBelow(x, y, m, n, rp, rb, k);
    }
  }

  lemma SoundAverages(x: nat, y: nat, maxBps: nat)
    requires y > 0 && (x <= y || (x - y) * 10000 / y <= maxBps)
    ensures 10000 * x < (10000 + maxBps + 1) * y
  {
    if x > y {
      var rest := Floor((x - y) * 10000, y);
      ScaleUp((x - y) * 10000 / y, maxBps, y);
    } else {
      ScaleUp(1, maxBps + 1, y);
    }
  }

  lemma RegressedAverages(x: nat, y: nat, maxBps: nat)
    requires x > y > 0 && (x - y) * 10000 / y > maxBps
    ensures 10000 * x >= (10000 + maxBps + 1) * y
  {
    var rest := Floor((x - y) * 10000, y);
    ScaleUp(maxBps + 1, (x - y) * 10000 / y, y);
  }

  lemma Spread(k: int, x: int, n: int, r: int, m: int)
    ensures k * ((x * n + r) * m) == (k * x) * (n * m) + k * (r * m)
  {
  }

  lemma CostBelow(x: nat, y: nat, m: nat, n: nat, rp: nat, rb: nat, k: nat)
    requires m > 0 && n > 0 && rp < n && 10000 * x < k * y
    ensures 10000 * ((x * n + rp) * m) < k * ((y * m + rb) * n) + 10000 * (n * m)
  {
    Spread(10000, x, n, rp, m);
    Spread(k, y, m, rb, n);
    RestBounds(rp, n, m);
    ScaleUp(10000 * x, k * y, n * m);
    assert 0 <= k * (rb * n);
    assert m * n == n * m;
  }

  lemma CostAbove(x: nat, y: nat, m: nat, n: nat, rp: nat, rb: nat, k: nat)
    requires m > 0 && n > 0 && rb < m && k > 0 && 10000 * x >= k * y
    ensures 10000 * ((x * n + rp) * m) > k * ((y * m + rb - m) * n)
  {
    Spread(10000, x, n, rp, m);
    Spread(k, y, m, rb - m, n);
    ScaleUp(k * y, 10000 * x, n * m);
    ScaleUp(rb - m, -1, n);
    ScaleUp((rb - m) * n, -1, k);
    assert m * n == n * m;
    assert (rb - m) * n * k == k * ((rb - m) * n);
  }

  /** Where nothing was sampled nothing has regressed in acceptance, and where a side has no cost on record nothing has
      in cost. A baseline that costs less than one unit a task on average admits only preferences that do so too. */
  lemma WithoutGap(p: Stat, b: Stat, maxBps: nat)
    ensures p.samples == 0 ==> !AcceptanceRegressed(p, b, maxBps)
    ensures p.costN == 0 || b.costN == 0 ==> !CostRegressed(p, b, maxBps)
    ensures p.costN > 0 && b.costN > 0 && b.costSum < b.costN ==> (CostRegressed(p, b, maxBps) <==> p.costSum >= p.costN)
  {
    if p.costN > 0 && b.costN > 0 && b.costSum < b.costN {
      Averaged(b.costSum, b.costN);
      Averaged(p.costSum, p.costN);
    }
  }

  lemma Averaged(x: nat, n: nat)
    requires n > 0
    ensures x / n > 0 <==> x >= n
  {
    var rest := Floor(x, n);
    if x / n > 0 { ScaleUp(1, x / n, n); }
  }

  // ----- the versions of a rule -----

  datatype RuleState = Shadow | RuleActive | RolledBack

  datatype Rule = Rule(version: nat, state: RuleState, samples: nat)

  datatype Grant = Grant(expires: int, minSamples: nat, maxAcceptanceBps: nat, maxCostBps: nat)

  predicate Regressed(preferred: Stat, baseline: Stat, g: Grant) {
    AcceptanceRegressed(preferred, baseline, g.maxAcceptanceBps) || CostRegressed(preferred, baseline, g.maxCostBps)
  }

  /** The highest version among the rows. */
  function LatestRule(rules: seq<Rule>): (r: Option<Rule>)
    ensures r.None? <==> rules == []
    ensures r.Some? ==> r.value in rules && forall q | q in rules :: q.version <= r.value.version
  {
    if rules == [] then None
    else
      var last, before := rules[|rules| - 1], LatestRule(rules[..|rules| - 1]);
      if before.None? || before.value.version < last.version then Some(last) else before
  }

  function NextState(current: Option<Rule>, preferred: Stat, baseline: Stat, g: Grant, now: int): RuleState {
    var active := current.Some? && current.value.state == RuleActive;
    var expired := g.expires <= now;
    if active && (expired || Regressed(preferred, baseline, g)) then RolledBack
    else if !expired && preferred.samples >= g.minSamples && !Regressed(preferred, baseline, g) && preferred.accepted > 0
    then RuleActive
    else if active then RuleActive
    else Shadow
  }

  /** What an evaluation that read this latest rule wants to insert; nothing if the rule already says it. */
  function Wanted(current: Option<Rule>, preferred: Stat, baseline: Stat, g: Grant, now: int): Option<Rule> {
    if current.Some? && current.value.state == RolledBack then None
    else
      var next := NextState(current, preferred, baseline, g, now);
      if current.Some? && current.value.state == next && current.value.samples == preferred.samples then None
      else Some(Rule(if current.Some? then current.value.version + 1 else 1, next, preferred.samples))
  }

  /** The insertion, under the table's uniqueness of versions. */
  function InsertRule(rules: seq<Rule>, r: Rule): Result<seq<Rule>> {
    if exists q :: q in rules && q.version == r.version then Err(Conflict) else Ok(rules + [r])
  }

  /** How one version may follow another. */
  predicate Follows(a: RuleState, b: RuleState) {
    match a
    case Shadow => b != RolledBack
    case RuleActive => b != Shadow
    case RolledBack => false
  }

  ghost predicate History(rules: seq<Rule>) {
    && (forall i | 0 <= i < |rules| :: rules[i].version == i + 1)
    && (rules != [] ==> rules[0].state != RolledBack)
    && (forall i | 0 < i < |rules| :: Follows(rules[i - 1].state, rules[i].state))
  }

  lemma LatestIsLast(rules: seq<Rule>)
    requires History(rules) && rules != []
    ensures LatestRule(rules) == Some(rules[|rules| - 1])
  {
    var last := rules[|rules| - 1];
    assert last in rules;
  }

  /** One evaluation: how much of the table it had seen when it read the latest rule, and what it judged by. */
  datatype Evaluation = Evaluation(seen: nat, rows: seq<TaskOutcome>, executor: string, grant: Grant, now: int)

  function Desired(rules: seq<Rule>, e: Evaluation): Option<Rule> {
    Wanted(LatestRule(rules), Tally(e.rows, {e.executor}), Tally(e.rows, Executors(e.rows) - {e.executor}), e.grant, e.now)
  }

  function Inserted(rules: seq<Rule>, desired: Option<Rule>): seq<Rule> {
    if desired.Some? && InsertRule(rules, desired.value).Ok? then rules + [desired.value] else rules
  }

  /** The evaluation reads a table that may be behind by the time it writes. */
  function Evaluated(rules: seq<Rule>, e: Evaluation): seq<Rule> {
    if e.seen > |rules| then rules
    else Inserted(rules, Desired(rules[..e.seen], e))
  }

  function EvaluateAll(rules: seq<Rule>, run: seq<Evaluation>): seq<Rule> {
    if run == [] then rules else Evaluated(EvaluateAll(rules, run[..|run| - 1]), run[|run| - 1])
  }

  lemma HistoryPrefix(rules: seq<Rule>, others: seq<Rule>)
    requires History(rules + others)
    ensures History(rules)
  {
    forall i | 0 <= i < |rules| ensures rules[i] == (rules + others)[i] {}
  }

  lemma HistoryGrows(rules: seq<Rule>, r: Rule)
    requires History(rules) && r.version == |rules| + 1
    requires if rules == [] then r.state != RolledBack else Follows(rules[|rules| - 1].state, r.state)
    ensures History(rules + [r])
  {
  }

  lemma InsertWhenCurrent(rules: seq<Rule>, others: seq<Rule>, r: Rule)
    requires History(rules + others) && r.version == |rules| + 1
    ensures InsertRule(rules + others, r) == if others == [] then Ok(rules + others + [r]) else Err(Conflict)
  {
    if others == [] {
      assert rules + others == rules;
    } else {
      assert (rules + others)[|rules|] in rules + others;
    }
  }

  /** What is wanted after the rules before carries the next version; with no rule, something is always wanted. */
  lemma NextVersion(before: seq<Rule>, since: seq<Rule>, e: Evaluation)
    requires History(before + since)
    ensures Desired(before, e).Some? ==> Desired(before, e).value.version == |before| + 1
    ensures Desired(before, e).None? ==> before != [] && LatestRule(before) == Some(before[|before| - 1])
  {
    HistoryPrefix(before, since);
    if before != [] { LatestIsLast(before); }
  }

  lemma InsertedLate(before: seq<Rule>, since: seq<Rule>, rule: Rule)
    requires History(before + since) && rule.version == |before| + 1
    ensures InsertRule(before + since, rule) == (if since == [] then Ok(before + since + [rule]) else Err(Conflict))
    ensures Inserted(before + since, Some(rule)) == (if since == [] then before + [rule] else before + since)
  {
    InsertWhenCurrent(before, since, rule);
    assert since == [] ==> before + since == before;
  }

  /** What an evaluation comes to that read the rules before, while those since were added. */
  lemma EvaluatedLate(before: seq<Rule>, since: seq<Rule>, e: Evaluation)
    requires History(before + since) && e.seen == |before|
    ensures
      match Desired(before, e)
      case None => Evaluated(before + since, e) == before + since && before != [] && LatestRule(before) == Some(before[|before| - 1])
      case Some(rule) =>
        && InsertRule(before + since, rule) == (if since == [] then Ok(before + since + [rule]) else Err(Conflict))
        && Evaluated(before + since, e) == (if since == [] then before + [rule] else before + since)
  {
    var desired := Desired(before, e);
    assert (before + since)[..e.seen] == before;
    assert Evaluated(before + since, e) == Inserted(before + since, desired);
    NextVersion(before, since, e);
    if desired.Some? { InsertedLate(before, since, desired.value); }
  }

  /** What an evaluation wants to insert fits on to the rules it has read. */
  lemma DesiredFits(rules: seq<Rule>, e: Evaluation)
    requires History(rules) && Desired(rules, e).Some?
    ensures History(rules + [Desired(rules, e).value])
  {
    if rules != [] { LatestIsLast(rules); }
    HistoryGrows(rules, Desired(rules, e).value);
  }

  lemma EvaluatedKeeps(rules: seq<Rule>, e: Evaluation)
    requires History(rules)
    ensures History(Evaluated(rules, e)) && rules <= Evaluated(rules, e)
  {
    if e.seen <= |rules| {
      var seen, since := rules[..e.seen], rules[e.seen..];
      assert rules == seen + since;
      EvaluatedLate(seen, since, e);
      if since == [] && Desired(seen, e).Some? { DesiredFits(seen, e); }
    }
  }

  /** Every interleaving of evaluations, however stale what each has read, keeps the table a proper history. */
  lemma {:induction false} EvaluationsKeep(rules: seq<Rule>, run: seq<Evaluation>)
    requires History(rules)
    ensures History(EvaluateAll(rules, run)) && rules <= EvaluateAll(rules, run)
  {
    if run != [] {
      var before := run[..|run| - 1];
      EvaluationsKeep(rules, before);
      EvaluatedKeeps(EvaluateAll(rules, before), run[|run| - 1]);
    }
  }

  method Choose(current: Option<Rule>, preferred: Stat, baseline: Stat, g: Grant, now: int) returns (next: RuleState)
    ensures next == NextState(current, preferred, baseline, g, now)
  {
    next := Shadow;
    var expired := g.expires <= now;
    var regressed := Regressed(preferred, baseline, g);
    var active := current.Some? && current.value.state == RuleActive;
    if active && (expired || regressed) {
      next := RolledBack;
    } else if !expired && preferred.samples >= g.minSamples && !regressed && preferred.accepted > 0 {
      next := RuleActive;
    } else if active {
      next := RuleActive;
    }
  }

  /** The evaluation's verdict, before anything is written. */
  method Judge(current: Option<Rule>, rows: seq<TaskOutcome>, executor: string, g: Grant, now: int) returns (wanted: Option<Rule>)
    ensures wanted == Wanted(current, Tally(rows, {executor}), Tally(rows, Executors(rows) - {executor}), g, now)
  {
    if current.Some? && current.value.state == RolledBack { return None; }
    var preferred, baseline := Tallies(rows, executor);
    var next := Choose(current, preferred, baseline, g, now);
    if current.Some? && current.value.state == next && current.value.samples == preferred.samples { return None; }
    return Some(Rule(if current.Some? then current.value.version + 1 else 1, next, preferred.samples));
  }

  class RuleBook {
    var rules: seq<Rule>

    constructor ()
      ensures rules == []
    {
      rules := [];
    }

    /** Evaluates the proposal. The latest rule is read before the transaction, and other evaluations may insert
        versions in between; then the insertion fails on its version and nothing is written. */
    method Evaluate(rows: seq<TaskOutcome>, executor: string, g: Grant, now: int, others: seq<Evaluation>) returns (r: Result<Rule>)
      requires History(rules)
      modifies this
      ensures rules == EvaluateAll(old(rules), others + [Evaluation(old(|rules|), rows, executor, g, now)])
      ensures
        var meanwhile := EvaluateAll(old(rules), others);
        match Desired(old(rules), Evaluation(old(|rules|), rows, executor, g, now))
        case None => rules == meanwhile && old(rules) != [] && r == Ok(old(rules)[old(|rules|) - 1])
        case Some(rule) =>
          if meanwhile == old(rules) then rules == old(rules) + [rule] && r == Ok(rule)
          else rules == meanwhile && r == Err(Conflict)
    {
      ghost var own := Evaluation(|rules|, rows, executor, g, now);
      ghost var meanwhile := EvaluateAll(rules, others);
      EvaluationsKeep(rules, others);
      assert rules + meanwhile[|rules|..] == meanwhile;
      EvaluatedLate(rules, meanwhile[|rules|..], own);
      assert (others + [own])[..|others|] == others;
      var current := LatestRule(rules);
      rules := EvaluateAll(rules, others);
      var wanted := Judge(current, rows, executor, g, now);
      if wanted.None? { return Ok(current.value); }
      var inserted := InsertRule(rules, wanted.value);
      if inserted.Err? { return Err(inserted.error); }
      rules := inserted.value;
      return Ok(wanted.value);
    }
  }

  lemma {:induction false} HistoryAdvances(rules: seq<Rule>, i: nat, j: nat)
    requires History(rules) && i < j < |rules|
    ensures rules[i].state != RolledBack
    ensures rules[i].state == RuleActive ==> rules[j].state != Shadow
    ensures rules[j].state == RolledBack ==> rules[j - 1].state == RuleActive && j == |rules| - 1
    ensures rules[j].version == rules[i].version + (j - i)
    decreases j - i
  {
    assert Follows(rules[i].state, rules[i + 1].state);
    assert Follows(rules[j - 1].state, rules[j].state);
    if j + 1 < |rules| { assert Follows(rules[j].state, rules[j + 1].state); }
    if i + 1 < j { HistoryAdvances(rules, i + 1, j); }
  }

  /** Whatever evaluations run on an empty table, interleaved in any way: versions grow by one, ACTIVE never returns to
      SHADOW, and ROLLED_BACK is final and comes only after ACTIVE. */
  lemma StatesOnlyAdvance(run: seq<Evaluation>, i: nat, j: nat)
    requires i < j < |EvaluateAll([], run)|
    ensures
      var rules := EvaluateAll([], run);
      && rules[i].state != RolledBack
      && (rules[i].state == RuleActive ==> rules[j].state != Shadow)
      && (rules[j].state == RolledBack ==> rules[j - 1].state == RuleActive && j == |rules| - 1)
      && rules[j].version == rules[i].version + (j - i)
  {
    EvaluationsKeep([], run);
    HistoryAdvances(EvaluateAll([], run), i, j);
  }

  ghost predicate IsActive(current: Option<Rule>) {
    current.Some? && current.value.state == RuleActive
  }

  /** Enough verified samples, some of them accepted, under a live grant and without a regression. */
  ghost predicate Earned(p: Stat, b: Stat, g: Grant, now: int) {
    now < g.expires && g.minSamples <= p.samples && 0 < p.accepted && !Regressed(p, b, g)
  }

  /** The state an evaluation comes to: an active rule is rolled back as soon as its grant has run out or it regressed and
      stays active otherwise; any other becomes active once that is earned, and is in the shadow until then. */
  ghost predicate ComesTo(current: Option<Rule>, p: Stat, b: Stat, g: Grant, now: int, state: RuleState) {
    match state
    case RolledBack => IsActive(current) && (g.expires <= now || Regressed(p, b, g))
    case RuleActive => if IsActive(current) then now < g.expires && !Regressed(p, b, g) else Earned(p, b, g, now)
    case Shadow => !IsActive(current) && !Earned(p, b, g, now)
  }

  /** Nothing is written for a rule that was rolled back, or that already says what the evaluation comes to on as many
      samples; otherwise the next version says it. */
  lemma WantedWhen(current: Option<Rule>, p: Stat, b: Stat, g: Grant, now: int, state: RuleState)
    requires ComesTo(current, p, b, g, now, state)
    ensures Wanted(current, p, b, g, now) ==
      match current
      case None => Some(Rule(1, state, p.samples))
      case Some(rule) =>
        if rule.state == RolledBack || (rule.state, rule.samples) == (state, p.samples) then None
        else Some(Rule(rule.version + 1, state, p.samples))
  {
  }

  /** A rule becomes active only if it has earned it, and is rolled back exactly when it was active and its grant has run
      out or it regressed. */
  lemma ActivationEarned(current: Option<Rule>, p: Stat, b: Stat, g: Grant, now: int)
    requires Wanted(current, p, b, g, now).Some?
    ensures ComesTo(current, p, b, g, now, Wanted(current, p, b, g, now).value.state)
  {
    var state := Wanted(current, p, b, g, now).value.state;
    assert state == NextState(current, p, b, g, now);
  }

  /** So an activation against a baseline bounds both true gaps. */
  lemma ActivationBounds(current: Option<Rule>, p: Stat, b: Stat, g: Grant, now: int)
    requires Wanted(current, p, b, g, now).Some? && Wanted(current, p, b, g, now).value.state == RuleActive
    requires current.None? || current.value.state != RuleActive
    ensures p.samples > 0 && b.samples > 0 ==>
      10000 * (b.accepted * p.samples - p.accepted * b.samples) < (g.maxAcceptanceBps + 1) * (b.samples * p.samples)
    ensures p.costN > 0 && b.costN > 0 && b.costSum / b.costN > 0 ==>
      10000 * (p.costSum * b.costN) < (10000 + g.maxCostBps + 1) * (b.costSum * p.costN) + 10000 * (p.costN * b.costN)
  {
    ActivationEarned(current, p, b, g, now);
    if p.samples > 0 && b.samples > 0 { AcceptanceGap(p, b, g.maxAcceptanceBps); }
    if p.costN > 0 && b.costN > 0 && b.costSum / b.costN > 0 { CostGap(p, b, g.maxCostBps); }
  }
}
