/** What a task request comes to once its defaults are filled in, column by column. */
module Requests {
  import opened Domain
  import opened Strings
  import opened Execution

  /** The criteria are the entries that are not blank, trimmed and in order. */
  lemma CriteriaInOrder(values: seq<string>, last: string)
    ensures Criteria([]) == []
    ensures Criteria(values + [last]) == if Trim(last) == "" then Criteria(values) else Criteria(values) + [Trim(last)]
  {
    assert (values + [last])[..|values|] == values;
  }

  lemma {:induction false} CriteriaLeft(values: seq<string>)
    ensures Criteria(values) != [] <==> exists k :: 0 <= k < |values| && Trim(values[k]) != ""
  {
    if values != [] {
      var n := |values| - 1;
      CriteriaLeft(values[..n]);
      assert forall k | 0 <= k < n :: values[..n][k] == values[k];
    }
  }

  /** The list names v, up to blanks around it. */
  ghost predicate Names(values: seq<string>, v: string) {
    v != "" && exists k :: 0 <= k < |values| && Trim(values[k]) == v
  }

  lemma CleanedNames(values: seq<string>)
    ensures forall v :: v in Cleaned(values) <==> Names(values, v)
  {
    forall v ensures v in Cleaned(values) <==> Names(values, v) {
      if v in Cleaned(values) {
        var u :| u in values && Trim(u) == v;
        var k :| 0 <= k < |values| && values[k] == u;
        assert Trim(values[k]) == v;
      }
    }
  }

  ghost predicate NamesNothing(values: seq<string>) {
    forall v :: !Names(values, v)
  }

  ghost predicate Recognised(e: Enforcement) {
    e == Enforced || e == Partial || e == Unenforced
  }

  /** The window does not end before it begins. */
  ghost predicate Opens(earliest: Option<int>, deadline: Option<int>) {
    earliest == None || deadline == None || earliest.value <= deadline.value
  }

  /** The columns a specification takes from its request as they stand, up to blanks. */
  ghost predicate TakenOver(r: TaskRequest, spec: TaskSpec) {
    && spec.objective == Trim(r.objective) && spec.key == Trim(r.key)
    && spec.payload == (if Trim(r.payload) == "" then "{}" else r.payload)
    && spec.criteria == Criteria(r.criteria)
    && (forall v :: v in spec.required <==> Names(r.required, v))
  }

  /** A root task needs a criterion, a known level of enforcement or none, an envelope, a window that opens, and authority
      for what it requires; naming no authority, it may use just what it requires. */
  lemma RootMeans(r: TaskRequest)
    ensures RootSpec(r).Ok? <==>
      && (exists k :: 0 <= k < |r.criteria| && Trim(r.criteria[k]) != "")
      && (r.enforcement == Unrecognised("") || Recognised(r.enforcement)) && r.envelope.Some?
      && Opens(r.earliest, r.deadline)
      && (NamesNothing(r.authority) || forall v | Names(r.required, v) :: Names(r.authority, v))
    ensures RootSpec(r).Ok? ==>
      var spec := RootSpec(r).value;
      && TakenOver(r, spec) && spec.parent == None && spec.purpose == r.purpose && spec.taskClass == Trim(r.taskClass)
      && spec.enforcement == (if r.enforcement == Unrecognised("") then Unenforced else r.enforcement)
      && (forall v :: v in spec.authority <==> if NamesNothing(r.authority) then Names(r.required, v) else Names(r.authority, v))
      && Some(spec.envelope) == r.envelope && spec.priority == r.priority
      && spec.earliest == r.earliest && spec.deadline == r.deadline
  {
    CriteriaLeft(r.criteria);
    CleanedNames(r.required);
    CleanedNames(r.authority);
    NothingCleaned(r.authority);
    assert Cleaned(r.required) <= Cleaned(r.authority) <==> forall v | Names(r.required, v) :: Names(r.authority, v);
  }

  lemma NothingCleaned(values: seq<string>)
    ensures Cleaned(values) == {} <==> NamesNothing(values)
  {
    CleanedNames(values);
    if NamesNothing(values) { assert forall v :: v !in Cleaned(values); }
  }

  // ----- children -----

  /** What the child may use: what its request lists, or all its parent may use if there is no list. */
  ghost predicate MayUse(parent: TaskSpec, r: TaskRequest, v: string) {
    if r.authority == [] then v in parent.authority else Names(r.authority, v)
  }

  /** The window of a child lies inside its parent's, and a bound it leaves open is its parent's. */
  ghost predicate Windowed(parent: TaskSpec, r: TaskRequest) {
    && (r.earliest.Some? && parent.earliest.Some? ==> parent.earliest.value <= r.earliest.value)
    && (r.deadline.Some? && parent.deadline.Some? ==> r.deadline.value <= parent.deadline.value)
    && Opens(if r.earliest.Some? then r.earliest else parent.earliest, if r.deadline.Some? then r.deadline else parent.deadline)
  }

  /** A child may name its parent's purpose and envelope again but no other, a level of enforcement no lower than its
      parent's, and authority that is its parent's; it needs a criterion of its own. */
  lemma ChildMeans(p: nat, parent: TaskSpec, r: TaskRequest)
    ensures ChildSpec(p, parent, r).Ok? <==>
      && (r.purpose == Purpose("", "") || r.purpose == parent.purpose)
      && (forall v | Names(r.required, v) :: v in parent.authority && MayUse(parent, r, v))
      && (forall v | MayUse(parent, r, v) :: v in parent.authority)
      && (r.envelope == None || r.envelope == Some(parent.envelope))
      && (r.enforcement == Unrecognised("") || (Recognised(r.enforcement) && AtLeast(r.enforcement, parent.enforcement)))
      && (exists k :: 0 <= k < |r.criteria| && Trim(r.criteria[k]) != "")
      && Windowed(parent, r)
  {
    CriteriaLeft(r.criteria);
    CleanedNames(r.required);
    CleanedNames(r.authority);
    RankOrder(parent.enforcement, r.enforcement);
    RankOrder(parent.enforcement, parent.enforcement);
    var spec := ChildDraft(p, parent, r);
    assert forall v :: v in spec.authority <==> MayUse(parent, r, v);
    assert spec.required <= parent.authority && spec.required <= spec.authority <==>
      forall v | Names(r.required, v) :: v in parent.authority && MayUse(parent, r, v);
    assert spec.authority <= parent.authority <==> forall v | MayUse(parent, r, v) :: v in parent.authority;
  }

  /** It has its parent's purpose and envelope, and inherits the class, the enforcement, the authority, the priority and
      the bounds of the window that its request leaves open. */
  lemma ChildInherits(p: nat, parent: TaskSpec, r: TaskRequest)
    requires ChildSpec(p, parent, r).Ok?
    ensures
      var spec := ChildSpec(p, parent, r).value;
      && TakenOver(r, spec) && spec.parent == Some(p) && spec.purpose == parent.purpose && spec.envelope == parent.envelope
      && spec.taskClass == (if Trim(r.taskClass) == "" then parent.taskClass else Trim(r.taskClass))
      && spec.enforcement == (if r.enforcement == Unrecognised("") then parent.enforcement else r.enforcement)
      && (forall v :: v in spec.authority <==> MayUse(parent, r, v))
      && spec.priority == (if r.priority == 0 then parent.priority else r.priority)
      && spec.earliest == (if r.earliest.Some? then r.earliest else parent.earliest)
      && spec.deadline == (if r.deadline.Some? then r.deadline else parent.deadline)
  {
    CleanedNames(r.required);
    CleanedNames(r.authority);
  }
}
