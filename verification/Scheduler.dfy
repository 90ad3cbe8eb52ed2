/** Which task runs next, and on which executor. */
module Scheduler {
  import opened Domain
  import opened Strings
  import opened Execution

  datatype Capacity = Capacity(accessible: bool, enforcement: Enforcement)

  datatype PurposeCheck = PurposeValid | PurposeInvalid | PurposeUnreadable(error: Error)

  /** An eligible task as it is read, with what the other services answer when they are asked about it. */
  datatype Row = Row(
    id: string, spec: TaskSpec, created: int, purpose: PurposeCheck,
    ready: Result<bool>, available: Result<int>, unlocks: Result<nat>)

  datatype Candidate = Candidate(id: string, deadline: Option<int>, unlocks: nat, priority: int, budget: int, created: int)

  // ----- the order of candidates -----

  /** Earlier deadline first, none last; then more unlocked dependants, higher priority, larger budget, older, and
      finally the identifier. */
  predicate Before(a: Candidate, b: Candidate) {
    if a.deadline.Some? != b.deadline.Some? then a.deadline.Some?
    else if a.deadline != b.deadline then a.deadline.value < b.deadline.value
    else if a.unlocks != b.unlocks then a.unlocks > b.unlocks
    else if a.priority != b.priority then a.priority > b.priority
    else if a.budget != b.budget then a.budget > b.budget
    else if a.created != b.created then a.created < b.created
    else Less(a.id, b.id)
  }

  lemma BeforeIrreflexive(a: Candidate)
    ensures !Before(a, a)
  {
    LessIrreflexive(a.id);
  }

  lemma BeforeTransitive(a: Candidate, b: Candidate, c: Candidate)
    requires Before(a, b) && Before(b, c)
    ensures Before(a, c)
  {
    if Less(a.id, b.id) && Less(b.id, c.id) { LessTransitive(a.id, b.id, c.id); }
  }

  lemma BeforeTotal(a: Candidate, b: Candidate)
    requires a.id != b.id
    ensures Before(a, b) || Before(b, a)
  {
    LessTotal(a.id, b.id);
  }

  lemma BeforeAsymmetric(a: Candidate, b: Candidate)
    requires Before(a, b)
    ensures !Before(b, a)
  {
    if Before(b, a) {
      BeforeTransitive(a, b, a);
      BeforeIrreflexive(a);
    }
  }

  // ----- the filters -----

  predicate CapacityFits(spec: TaskSpec, capacity: map<string, Capacity>) {
    forall c | c in spec.required ::
      c in capacity && capacity[c].accessible && spec.enforcement.Rank() <= capacity[c].enforcement.Rank()
  }

  predicate Started(spec: TaskSpec, now: int) {
    spec.earliest.Some? ==> spec.earliest.value <= now
  }

  /** What one row contributes: a candidate, nothing, or a failure that ends the whole selection. Each question is
      put only if the row has passed the ones before it. */
  function Assess(row: Row, capacity: map<string, Capacity>, now: int): Result<Option<Candidate>> {
    if !Started(row.spec, now) then Ok(None)
    else match row.purpose
      case PurposeInvalid => Ok(None)
      case PurposeUnreadable(e) => Err(e)
      case PurposeValid =>
        match row.ready
        case Err(e) => Err(e)
        case Ok(ready) =>
          if !ready || !CapacityFits(row.spec, capacity) || !(row.spec.required <= row.spec.authority) then Ok(None)
          else match row.available
            case Err(e) => Err(e)
            case Ok(budget) =>
              if budget <= 0 then Ok(None)
              else match row.unlocks
                case Err(e) => Err(e)
                case Ok(unlocks) =>
                  Ok(Some(Candidate(row.id, row.spec.deadline, unlocks, row.spec.priority, budget, row.created)))
  }

  method CapacityEligible(required: seq<string>, spec: TaskSpec, capacity: map<string, Capacity>) returns (ok: bool)
    requires Members(required) == spec.required
    ensures ok <==> CapacityFits(spec, capacity)
  {
    for i := 0 to |required|
      invariant forall j | 0 <= j < i ::
        required[j] in capacity && capacity[required[j]].accessible
        && spec.enforcement.Rank() <= capacity[required[j]].enforcement.Rank()
    {
      var c := required[i];
      assert c in Members(required);
      if c !in capacity || !capacity[c].accessible || capacity[c].enforcement.Rank() < spec.enforcement.Rank() {
        return false;
      }
    }
    return true;
  }

  method AuthorityEligible(required: seq<string>, spec: TaskSpec) returns (ok: bool)
    requires Members(required) == spec.required
    ensures ok <==> spec.required <= spec.authority
  {
    for i := 0 to |required|
      invariant forall j | 0 <= j < i :: required[j] in spec.authority
    {
      if required[i] !in spec.authority {
        assert required[i] in Members(required);
        return false;
      }
    }
    return true;
  }

  method AssessRow(row: Row, required: seq<string>, capacity: map<string, Capacity>, now: int) returns (r: Result<Option<Candidate>>)
    requires Members(required) == row.spec.required
    ensures r == Assess(row, capacity, now)
  {
    if !Started(row.spec, now) { return Ok(None); }
    if row.purpose.PurposeInvalid? { return Ok(None); }
    if row.purpose.PurposeUnreadable? { return Err(row.purpose.error); }
    if row.ready.Err? { return Err(row.ready.error); }
    var capable := CapacityEligible(required, row.spec, capacity);
    var authorised := AuthorityEligible(required, row.spec);
    if !row.ready.value || !capable || !authorised { return Ok(None); }
    if row.available.Err? { return Err(row.available.error); }
    if row.available.value <= 0 { return Ok(None); }
    if row.unlocks.Err? { return Err(row.unlocks.error); }
    return Ok(Some(Candidate(row.id, row.spec.deadline, row.unlocks.value, row.spec.priority, row.available.value, row.created)));
  }

  // ----- sorting -----

  ghost predicate Ordered(s: seq<Candidate>) {
    forall i, j | 0 <= i < j < |s| :: !Before(s[j], s[i])
  }

  /** Where x goes: after every candidate that is not behind it, so that equals keep their order. */
  method Place(s: seq<Candidate>, x: Candidate) returns (r: seq<Candidate>)
    requires Ordered(s) && forall c | c in s :: c.id != x.id
    ensures Ordered(r) && multiset(r) == multiset(s) + multiset{x}
  {
    var k := |s|;
    while k > 0 && Before(x, s[k - 1])
      invariant 0 <= k <= |s|
      invariant forall j | k <= j < |s| :: Before(x, s[j])
    {
      k := k - 1;
    }
    r := s[..k] + [x] + s[k..];
    assert s == s[..k] + s[k..];
    PlacedInOrder(s, x, k);
  }

  lemma PlacedInOrder(s: seq<Candidate>, x: Candidate, k: nat)
    requires Ordered(s) && k <= |s| && forall c | c in s :: c.id != x.id
    requires forall j | k <= j < |s| :: Before(x, s[j])
    requires k > 0 ==> !Before(x, s[k - 1])
    ensures Ordered(s[..k] + [x] + s[k..])
  {
    forall j | k <= j < |s| ensures !Before(s[j], x) { BeforeAsymmetric(x, s[j]); }
    forall i | 0 <= i < k ensures !Before(x, s[i]) {
      if Before(x, s[i]) && i < k - 1 {
        assert s[k - 1] in s;
        BeforeTotal(x, s[k - 1]);
        BeforeTransitive(s[k - 1], x, s[i]);
        assert false;
      }
    }
  }

  ghost predicate DistinctIds(rows: seq<Row>) {
    forall i, j | 0 <= i < j < |rows| :: rows[i].id != rows[j].id
  }

  method SortStable(s: seq<Candidate>) returns (r: seq<Candidate>)
    requires forall i, j | 0 <= i < j < |s| :: s[i].id != s[j].id
    ensures Ordered(r) && multiset(r) == multiset(s)
  {
    r := [];
    for i := 0 to |s|
      invariant Ordered(r) && multiset(r) == multiset(s[..i])
    {
      assert s[..i + 1] == s[..i] + [s[i]];
      forall c | c in r ensures c.id != s[i].id {
        assert c in multiset(r);
        assert c in s[..i];
      }
      r := Place(r, s[i]);
    }
    assert s[..|s|] == s;
  }

  // ----- the choice -----

  /** The selection the rows stand for: any row's failure fails it; otherwise it is the candidate that comes before
      every other candidate, and nothing exactly when no row passes. */
  ghost predicate Chosen(rows: seq<Row>, capacity: map<string, Capacity>, now: int, r: Result<Option<Candidate>>) {
    match r
    case Err(e) => exists row :: row in rows && Assess(row, capacity, now) == Err(e)
    case Ok(None) => forall row | row in rows :: Assess(row, capacity, now) == Ok(None)
    case Ok(Some(c)) =>
      && (exists row :: row in rows && Assess(row, capacity, now) == Ok(Some(c)))
      && (forall row | row in rows :: Yields(row, capacity, now, c))
  }

  /** The row fails nothing and offers nothing better than c. */
  ghost predicate Yields(row: Row, capacity: map<string, Capacity>, now: int, c: Candidate) {
    match Assess(row, capacity, now)
    case Err(_) => false
    case Ok(None) => true
    case Ok(Some(d)) => d == c || Before(c, d)
  }

  ghost predicate Readable(rows: seq<Row>, capacity: map<string, Capacity>, now: int) {
    forall row | row in rows :: Assess(row, capacity, now).Ok?
  }

  /** The candidates of rows that can all be assessed, in reading order. */
  ghost function Candidates(rows: seq<Row>, capacity: map<string, Capacity>, now: int): seq<Candidate>
    requires Readable(rows, capacity, now)
  {
    if rows == [] then []
    else
      var found := Assess(rows[|rows| - 1], capacity, now).value;
      Candidates(rows[..|rows| - 1], capacity, now) + (if found.Some? then [found.value] else [])
  }

  lemma {:induction false} CandidateSource(rows: seq<Row>, capacity: map<string, Capacity>, now: int, c: Candidate)
    requires Readable(rows, capacity, now)
    ensures c in Candidates(rows, capacity, now) <==> exists row :: row in rows && Assess(row, capacity, now) == Ok(Some(c))
  {
    if rows != [] {
      var n := |rows| - 1;
      CandidateSource(rows[..n], capacity, now, c);
      assert rows == rows[..n] + [rows[n]];
    }
  }

  ghost predicate DistinctCandidates(s: seq<Candidate>) {
    forall i, j | 0 <= i < j < |s| :: s[i].id != s[j].id
  }

  lemma DistinctAppend(s: seq<Candidate>, c: Candidate)
    requires DistinctCandidates(s) && forall d | d in s :: d.id != c.id
    ensures DistinctCandidates(s + [c])
  {
    forall i, j | 0 <= i < j < |s + [c]| ensures (s + [c])[i].id != (s + [c])[j].id {
      if j == |s| { assert s[i] in s; }
    }
  }

  lemma {:induction false} CandidatesDistinct(rows: seq<Row>, capacity: map<string, Capacity>, now: int)
    requires Readable(rows, capacity, now) && DistinctIds(rows)
    ensures DistinctCandidates(Candidates(rows, capacity, now))
  {
    if rows != [] {
      var n := |rows| - 1;
      var before, found := Candidates(rows[..n], capacity, now), Assess(rows[n], capacity, now).value;
      CandidatesDistinct(rows[..n], capacity, now);
      if found.Some? {
        forall c | c in before ensures c.id != found.value.id {
          CandidateSource(rows[..n], capacity, now, c);
          var row :| row in rows[..n] && Assess(row, capacity, now) == Ok(Some(c));
          assert row.id != rows[n].id;
        }
        DistinctAppend(before, found.value);
      }
    }
  }

  method Collect(rows: seq<Row>, required: seq<seq<string>>, capacity: map<string, Capacity>, now: int)
    returns (r: Result<seq<Candidate>>)
    requires |required| == |rows|
    requires forall i | 0 <= i < |rows| :: Members(required[i]) == rows[i].spec.required
    ensures match r
            case Ok(out) => Readable(rows, capacity, now) && out == Candidates(rows, capacity, now)
            case Err(e) => exists row :: row in rows && Assess(row, capacity, now) == Err(e)
  {
    var out: seq<Candidate> := [];
    for n := 0 to |rows|
      invariant Readable(rows[..n], capacity, now)
      invariant out == Candidates(rows[..n], capacity, now)
    {
      var assessed := AssessRow(rows[n], required[n], capacity, now);
      if assessed.Err? { return Err(assessed.error); }
      assert rows[..n + 1] == rows[..n] + [rows[n]];
      assert rows[..n + 1][..n] == rows[..n];
      if assessed.value.Some? { out := out + [assessed.value.value]; }
    }
    assert rows[..|rows|] == rows;
    return Ok(out);
  }

  /** Reads the rows in whatever order they come, keeps the candidates, sorts them and takes the first. */
  method Next(rows: seq<Row>, required: seq<seq<string>>, capacity: map<string, Capacity>, now: int)
    returns (r: Result<Option<Candidate>>)
    requires DistinctIds(rows) && |required| == |rows|
    requires forall i | 0 <= i < |rows| :: Members(required[i]) == rows[i].spec.required
    ensures Chosen(rows, capacity, now, r)
  {
    var collected := Collect(rows, required, capacity, now);
    if collected.Err? { return Err(collected.error); }
    var out := collected.value;
    CandidatesDistinct(rows, capacity, now);
    forall c ensures c in out <==> exists row :: row in rows && Assess(row, capacity, now) == Ok(Some(c)) {
      CandidateSource(rows, capacity, now, c);
    }
    if out == [] { return Ok(None); }
    var sorted := SortStable(out);
    FirstIsLeast(out, sorted);
    forall row | row in rows ensures Yields(row, capacity, now, sorted[0]) {
      if Assess(row, capacity, now).value.Some? { assert Assess(row, capacity, now).value.value in out; }
    }
    return Ok(Some(sorted[0]));
  }

  lemma FirstIsLeast(out: seq<Candidate>, sorted: seq<Candidate>)
    requires out != [] && Ordered(sorted) && multiset(sorted) == multiset(out)
    requires forall j, k | 0 <= j < k < |out| :: out[j].id != out[k].id
    ensures |sorted| == |out| && sorted[0] in out
    ensures forall c | c in out :: c == sorted[0] || Before(sorted[0], c)
  {
    assert |sorted| == |multiset(sorted)| == |out|;
    assert sorted[0] in multiset(sorted);
    forall c | c in out ensures c == sorted[0] || Before(sorted[0], c) {
      assert c in multiset(out);
      assert c in sorted;
      if c != sorted[0] {
        var i, j :| 0 <= i < |out| && 0 <= j < |out| && out[i] == c && out[j] == sorted[0];
        BeforeTotal(c, sorted[0]);
      }
    }
  }

  /** The choice does not depend on the order in which the rows are read: two readings of the same rows choose the
      same candidate, or both fail. */
  lemma OrderIrrelevant(a: seq<Row>, b: seq<Row>, capacity: map<string, Capacity>, now: int,
                        r: Result<Option<Candidate>>, s: Result<Option<Candidate>>)
    requires multiset(a) == multiset(b)
    requires Chosen(a, capacity, now, r) && Chosen(b, capacity, now, s)
    ensures r == s || (r.Err? && s.Err?)
  {
    forall row ensures row in a <==> row in b {
      assert row in a <==> row in multiset(a);
      assert row in b <==> row in multiset(b);
    }
    if r.Ok? && s.Ok? && r.value.Some? && s.value.Some? && r != s {
      BeforeAsymmetric(r.value.value, s.value.value);
    }
  }

  // ----- which candidate wins -----

  /** The capability can be had, enforced at least as far as the task asks. */
  ghost predicate Provides(capacity: map<string, Capacity>, c: string, asked: Enforcement) {
    c in capacity && capacity[c].accessible && AtLeast(capacity[c].enforcement, asked)
  }

  /** The row may be chosen: its time has come, its purpose is valid, what it depends on is done, every capability it
      requires can be had and is within its authority, and there is something left on its envelope. */
  ghost predicate Passes(row: Row, capacity: map<string, Capacity>, now: int) {
    && (row.spec.earliest.Some? ==> row.spec.earliest.value <= now)
    && row.purpose == PurposeValid && row.ready == Ok(true)
    && (forall c | c in row.spec.required :: Provides(capacity, c, row.spec.enforcement) && c in row.spec.authority)
    && row.available.Ok? && row.available.value > 0 && row.unlocks.Ok?
  }

  lemma AssessMeans(row: Row, capacity: map<string, Capacity>, now: int, c: Candidate)
    ensures Assess(row, capacity, now) == Ok(Some(c)) <==>
      && Passes(row, capacity, now)
      && c == Candidate(row.id, row.spec.deadline, row.unlocks.value, row.spec.priority, row.available.value, row.created)
  {
    forall name | name in row.spec.required && name in capacity
      ensures row.spec.enforcement.Rank() <= capacity[name].enforcement.Rank() <==> AtLeast(capacity[name].enforcement, row.spec.enforcement)
    {
      RankOrder(row.spec.enforcement, capacity[name].enforcement);
    }
    assert (forall name | name in row.spec.required :: name in row.spec.authority) <==> row.spec.required <= row.spec.authority;
  }

  /** Whatever is chosen is one of the rows that may be, and no other of them is passed over unduly: its deadline is not
      earlier; with the same deadline it does not unlock more; alike in that too, it has no higher priority; then no more
      budget; then it is not older; and alike in everything its identifier is not smaller. */
  lemma NeverPassedOver(rows: seq<Row>, capacity: map<string, Capacity>, now: int, c: Candidate, row: Row) returns (winner: Row)
    requires Chosen(rows, capacity, now, Ok(Some(c))) && row in rows && Passes(row, capacity, now)
    ensures winner in rows && Passes(winner, capacity, now) && winner.id == c.id
    ensures
      var a, b, u, v := winner, row, winner.unlocks.value, row.unlocks.value;
      && (b.spec.deadline.Some? ==> a.spec.deadline.Some? && a.spec.deadline.value <= b.spec.deadline.value)
      && (a.spec.deadline == b.spec.deadline ==> u >= v)
      && (a.spec.deadline == b.spec.deadline && u == v ==> a.spec.priority >= b.spec.priority)
      && (a.spec.deadline == b.spec.deadline && u == v && a.spec.priority == b.spec.priority ==>
            a.available.value >= b.available.value
            && (a.available.value == b.available.value ==> a.created <= b.created)
            && (a.available.value == b.available.value && a.created == b.created ==> a.id == b.id || Less(a.id, b.id)))
  {
    winner :| winner in rows && Assess(winner, capacity, now) == Ok(Some(c));
    AssessMeans(winner, capacity, now, c);
    var d := Candidate(row.id, row.spec.deadline, row.unlocks.value, row.spec.priority, row.available.value, row.created);
    AssessMeans(row, capacity, now, d);
    assert Yields(row, capacity, now, c);
  }

  /** Nothing is chosen only if no row may be. */
  lemma NothingToDo(rows: seq<Row>, capacity: map<string, Capacity>, now: int, row: Row)
    requires Chosen(rows, capacity, now, Ok(None)) && row in rows
    ensures !Passes(row, capacity, now)
  {
    if Passes(row, capacity, now) {
      AssessMeans(row, capacity, now,
        Candidate(row.id, row.spec.deadline, row.unlocks.value, row.spec.priority, row.available.value, row.created));
      assert false;
    }
  }

  /** The question that could not be answered is one that was due: about the purpose of a row whose time has come, about
      what a row with a valid purpose depends on, about the envelope of one that is otherwise in order, or about what such a
      one unlocks if there is something left on its envelope. */
  lemma FailureMeans(row: Row, capacity: map<string, Capacity>, now: int, e: Error)
    ensures Assess(row, capacity, now) == Err(e) <==>
      && (row.spec.earliest.Some? ==> row.spec.earliest.value <= now)
      && (row.purpose == PurposeUnreadable(e)
          || (row.purpose == PurposeValid
              && (row.ready == Err(e)
                  || (row.ready == Ok(true)
                      && (forall c | c in row.spec.required :: Provides(capacity, c, row.spec.enforcement) && c in row.spec.authority)
                      && (row.available == Err(e)
                          || (row.available.Ok? && row.available.value > 0 && row.unlocks == Err(e)))))))
  {
    forall name | name in row.spec.required && name in capacity
      ensures row.spec.enforcement.Rank() <= capacity[name].enforcement.Rank() <==> AtLeast(capacity[name].enforcement, row.spec.enforcement)
    {
      RankOrder(row.spec.enforcement, capacity[name].enforcement);
    }
    assert (forall name | name in row.spec.required :: name in row.spec.authority) <==> row.spec.required <= row.spec.authority;
  }

  // ----- the executor -----

  /** The first eligible kind by name, unless a learned preference names another eligible one. A preference for an
      ineligible kind is an error, not a fallback. */
  method ChooseExecutor(kinds: seq<string>, preference: Option<seq<string> -> Result<Option<string>>>) returns (r: Result<string>)
    ensures r.Ok? ==> r.value in Cleaned(kinds)
    ensures Cleaned(kinds) == {} ==> r.Err?
    ensures preference.None? && r.Ok? ==> forall k | k in Cleaned(kinds) :: k == r.value || Less(r.value, k)
    ensures preference.None? && Cleaned(kinds) != {} ==> r.Ok?
    ensures preference.Some? && Cleaned(kinds) != {} ==>
      exists eligible :: Ascending(eligible) && Members(eligible) == Cleaned(kinds)
        && match preference.value(eligible)
           case Err(e) => r == Err(e)
           case Ok(None) => r == Ok(eligible[0])
           case Ok(Some(p)) => r == if Trim(p) in Cleaned(kinds) then Ok(Trim(p)) else Err(Exceeds)
  {
    var eligible := Normalise(kinds);
    if eligible == [] {
      assert Members(eligible) == {};
      return Err(Malformed);
    }
    var baseline := eligible[0];
    assert baseline in Members(eligible);
    if preference.None? {
      r := Ok(baseline);
      forall k | k in Cleaned(kinds) ensures k == baseline || Less(baseline, k) {
        assert k in Members(eligible);
      }
      return;
    }
    var preferred := preference.value(eligible);
    match preferred
    case Err(e) => return Err(e);
    case Ok(None) => return Ok(baseline);
    case Ok(Some(p)) => return if Trim(p) in Cleaned(kinds) then Ok(Trim(p)) else Err(Exceeds);
  }
}
