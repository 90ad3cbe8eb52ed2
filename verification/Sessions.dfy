/** Capability sessions: a token bound to one attempt's fence, usable only while that attempt passes the fence check,
    and never longer than the lease it was opened under. */
module Sessions {
  import opened Domain
  import opened Strings
  import opened Execution
  import opened Leases
  import opened Staleness
  import opened World
  import opened Runs
  import opened Terms
  import opened Box

  datatype Definition = Definition(provider: string, context: string, authority: set<string>, minimum: Enforcement)

  datatype Assessment = Assessment(provider: string, context: string, available: bool, healthy: bool, enforcement: Enforcement)

  /** The registry as a session sees it: the active definition per name, and the latest assessment per definition. */
  datatype Catalogue = Catalogue(
    active: map<string, nat>, definitions: seq<Definition>, latest: map<nat, Assessment>, providers: set<string>)

  datatype Session = Session(
    task: nat, attempt: nat, fence: nat, expires: int, visible: map<string, nat>, revoked: bool)

  /** The definition may be used for a task with this authority and required enforcement, as last observed. */
  predicate Usable(c: Catalogue, d: nat, spec: TaskSpec) {
    && d < |c.definitions| && d in c.latest
    && var definition, seen := c.definitions[d], c.latest[d];
    && definition.authority <= spec.authority
    && seen.provider == definition.provider && seen.context == definition.context
    && seen.available && seen.healthy
    && definition.minimum.Rank() <= seen.enforcement.Rank() && spec.enforcement.Rank() <= seen.enforcement.Rank()
    && definition.provider in c.providers
  }

  predicate Offered(c: Catalogue, name: string, spec: TaskSpec) {
    name in c.active && Usable(c, c.active[name], spec)
  }

  /** What a call through a session comes to: the definition to call, or a refusal. */
  function Admit(rows: seq<Session>, id: nat, name: string, c: Catalogue, x: Exec, now: int): Result<nat> {
    if name == "" then Err(Malformed)
    else if id >= |rows| then Err(NotFound)
    else if rows[id].revoked || rows[id].expires <= now then Err(LeaseInactive)
    else
      var t :- Guard(x, rows[id].attempt, now);
      if rows[id].task != t || rows[id].fence != x.attempts[rows[id].attempt].fence then Err(StaleAttempt)
      else if name !in rows[id].visible then Err(PolicyDenied)
      else if !Usable(c, rows[id].visible[name], x.tasks[t].spec) then Err(PolicyDenied)
      else Ok(rows[id].visible[name])
  }

  /** Resolves every requested name to its active definition, or none of them. */
  method Resolve(wanted: seq<string>, c: Catalogue, spec: TaskSpec) returns (r: Option<map<string, nat>>)
    ensures r.Some? <==> forall n | n in Members(wanted) :: Offered(c, n, spec)
    ensures r.Some? ==> r.value == map n | n in Members(wanted) && n in c.active :: c.active[n]
  {
    var visible: map<string, nat> := map[];
    for i := 0 to |wanted|
      invariant visible == map n | n in Members(wanted[..i]) && n in c.active :: c.active[n]
      invariant forall n | n in Members(wanted[..i]) :: Offered(c, n, spec)
    {
      assert wanted[..i + 1] == wanted[..i] + [wanted[i]];
      if !Offered(c, wanted[i], spec) {
        assert wanted[i] in Members(wanted);
        return None;
      }
      visible := visible[wanted[i] := c.active[wanted[i]]];
    }
    assert wanted[..|wanted|] == wanted;
    return Some(visible);
  }

  /** What others may do to the sessions meanwhile: revoke some, and open new ones. */
  function Meanwhile(rows: seq<Session>, revoked: set<nat>, added: seq<Session>): seq<Session> {
    seq(|rows|, i requires 0 <= i < |rows| => if i in revoked then rows[i].(revoked := true) else rows[i]) + added
  }

  class SessionStore {
    var rows: seq<Session>

    constructor ()
      ensures rows == []
    {
      rows := [];
    }

    /** Opens a session on everything asked for, or on nothing. */
    method OpenSession(box: Box, attempt: nat, names: seq<string>, c: Catalogue) returns (r: Result<nat>)
      modifies this
      ensures r.Err? ==> rows == old(rows)
      ensures r.Ok? <==>
        Cleaned(names) != {} && Guard(box.Work(), attempt, box.now).Ok?
        && forall n | n in Cleaned(names) :: Offered(c, n, box.tasks[box.attempts[attempt].task].spec)
      ensures r.Ok? ==>
        r.value == old(|rows|) && |rows| == old(|rows|) + 1 && rows[..r.value] == old(rows)
        && var s, a := rows[r.value], box.attempts[attempt];
        && s.task == a.task && s.attempt == attempt && s.fence == a.fence && s.expires == a.expires && !s.revoked
        && s.visible == map n | n in Cleaned(names) && n in c.active :: c.active[n]
    {
      var wanted := Normalise(names);
      if wanted == [] {
        assert Members(wanted) == {};
        return Err(Malformed);
      }
      assert wanted[0] in Members(wanted);
      var t :- Guard(box.Work(), attempt, box.now);
      var visible := Resolve(wanted, c, box.tasks[t].spec);
      if visible.None? { return Err(PolicyDenied); }
      r := Ok(|rows|);
      rows := rows + [Session(t, attempt, box.attempts[attempt].fence, box.attempts[attempt].expires, visible.value, false)];
    }

    method Revoke(id: nat) returns (r: Result<()>)
      modifies this
      ensures r.Ok? <==> id < old(|rows|)
      ensures r.Err? ==> rows == old(rows)
      ensures r.Ok? ==> rows == old(rows)[id := old(rows)[id].(revoked := true)]
    {
      if id >= |rows| { return Err(NotFound); }
      rows := rows[id := rows[id].(revoked := true)];
      return Ok(());
    }

    /** The check inside the transaction, on the session as it is read there. */
    method CallInTx(box: Box, id: nat, name: string, attempt: nat, c: Catalogue) returns (r: Result<nat>)
      requires name != "" && id < |rows| && rows[id].attempt == attempt
      ensures r.Ok? <==> Admit(rows, id, name, c, box.Work(), box.now).Ok?
      ensures r.Ok? ==> r == Admit(rows, id, name, c, box.Work(), box.now)
    {
      var t :- Guard(box.Work(), attempt, box.now);
      var current := rows[id];
      if current.revoked { return Err(LeaseInactive); }
      if current.task != t || current.attempt != attempt || current.fence != box.attempts[attempt].fence {
        return Err(StaleAttempt);
      }
      if current.expires <= box.now { return Err(LeaseInactive); }
      if name !in current.visible { return Err(PolicyDenied); }
      if !Usable(c, current.visible[name], box.tasks[t].spec) { return Err(PolicyDenied); }
      return Ok(current.visible[name]);
    }

    /** The check before a capability is called. The session is read twice, before and inside the transaction, and in
        between others may act on the Box, revoke sessions and open new ones. The call is admitted exactly when the
        session would be admitted at the second reading, and nothing a first reading refuses would be admitted. */
    method Call(box: Box, id: nat, name: string, c: Catalogue, others: seq<Event>, revoked: set<nat>, added: seq<Session>)
      returns (r: Result<nat>)
      modifies box, this
      ensures
        || (r.Err? && Admit(rows, id, Trim(name), c, box.Work(), box.now).Err? && box.State() == old(box.State()) && rows == old(rows))
        || (box.State() == Run(old(box.State()), others) && rows == Meanwhile(old(rows), revoked, added)
            && (r.Ok? <==> Admit(rows, id, Trim(name), c, box.Work(), box.now).Ok?))
      ensures r.Ok? ==> r == Admit(rows, id, Trim(name), c, box.Work(), box.now)
    {
      var wanted := Trim(name);
      if wanted == "" { return Err(Malformed); }
      if id >= |rows| { return Err(NotFound); }
      var initial := rows[id];
      if initial.revoked || initial.expires <= box.now { return Err(LeaseInactive); }
      box.Others(others);
      rows := Meanwhile(rows, revoked, added);
      r := CallInTx(box, id, wanted, initial.attempt, c);
    }
  }

  // ----- what a session can and cannot do -----

  /** A session names the task and fence its attempt was leased with. */
  ghost predicate SessionOk(x: Exec, s: Session) {
    s.attempt < |x.attempts| && x.attempts[s.attempt].task == s.task && x.attempts[s.attempt].fence == s.fence
  }

  lemma SessionsStayOk(w: World, events: seq<Event>, s: Session)
    requires Inv(w) && SessionOk(w.db.exec, s)
    ensures SessionOk(Run(w, events).db.exec, s)
  {
    RunKeepsInv(w, events);
    assert AttemptAdvances(w.db.exec.attempts[s.attempt], Run(w, events).db.exec.attempts[s.attempt]);
  }

  /** The definition serves the task: its provider is there, and its latest assessment, made of this very provider and
      context, found it available, healthy and enforced at least as far as the definition and the task ask; and the task
      has all the authority it needs. */
  ghost predicate Serves(c: Catalogue, d: nat, spec: TaskSpec) {
    && d < |c.definitions| && d in c.latest
    && var wanted, seen := c.definitions[d], c.latest[d];
    && wanted.provider in c.providers && (seen.provider, seen.context) == (wanted.provider, wanted.context)
    && seen.available && seen.healthy
    && AtLeast(seen.enforcement, wanted.minimum) && AtLeast(seen.enforcement, spec.enforcement)
    && (forall capability | capability in wanted.authority :: capability in spec.authority)
  }

  lemma UsableMeans(c: Catalogue, d: nat, spec: TaskSpec)
    ensures Usable(c, d, spec) <==> Serves(c, d, spec)
  {
    if d in c.latest {
      if d < |c.definitions| { RankOrder(c.definitions[d].minimum, c.latest[d].enforcement); }
      RankOrder(spec.enforcement, c.latest[d].enforcement);
    }
  }

  /** A name is offered to a task if it has an active definition that serves the task. */
  lemma OfferedMeans(c: Catalogue, name: string, spec: TaskSpec)
    ensures Offered(c, name, spec) <==> name in c.active && Serves(c, c.active[name], spec)
  {
    if name in c.active { UsableMeans(c, c.active[name], spec); }
  }

  /** A call is admitted exactly when the session is neither revoked nor past the lease it was opened under, names its
      attempt's own task and fence, its attempt is live, and the capability was made visible and still serves the task; it
      goes to the definition that was made visible then. */
  lemma AdmittedWhen(rows: seq<Session>, id: nat, name: string, c: Catalogue, x: Exec, now: int)
    requires LeaseInv(x)
    ensures Admit(rows, id, name, c, x, now).Ok? <==>
      && name != "" && id < |rows| && !rows[id].revoked && now < rows[id].expires
      && SessionOk(x, rows[id]) && Live(x, rows[id].attempt, now)
      && rows[id].task < |x.tasks|
      && name in rows[id].visible && Serves(c, rows[id].visible[name], x.tasks[rows[id].task].spec)
    ensures Admit(rows, id, name, c, x, now).Ok? ==> Admit(rows, id, name, c, x, now) == Ok(rows[id].visible[name])
  {
    if id < |rows| {
      LiveMeans(x, rows[id].attempt, now);
      if name in rows[id].visible && rows[id].task < |x.tasks| {
        UsableMeans(c, rows[id].visible[name], x.tasks[rows[id].task].spec);
      }
    }
  }

  /** Others only revoke sessions, for good, and open new ones: one that is revoked before or during the call admits none,
      and of any other nothing has changed. */
  lemma RevokedIsDead(rows: seq<Session>, revoked: set<nat>, added: seq<Session>, id: nat, name: string, c: Catalogue, x: Exec, now: int)
    requires id < |rows|
    ensures id < |Meanwhile(rows, revoked, added)|
    ensures if rows[id].revoked || id in revoked then Admit(Meanwhile(rows, revoked, added), id, name, c, x, now).Err?
            else Meanwhile(rows, revoked, added)[id] == rows[id]
  {
  }

  /** Once its attempt is stale a session is dead: no later call through it is admitted, in any later world, whatever
      the catalogue then says and even if other attempts of the task run. */
  lemma StaleSessionIsDead(w: World, events: seq<Event>, rows: seq<Session>, id: nat, name: string, c: Catalogue)
    requires Inv(w) && id < |rows| && Stale(w.db.exec, rows[id].attempt, w.now)
    ensures Admit(rows, id, name, c, Run(w, events).db.exec, Run(w, events).now).Err?
  {
    RunKeepsInv(w, events);
    AdmittedWhen(rows, id, name, c, Run(w, events).db.exec, Run(w, events).now);
    LiveMeans(Run(w, events).db.exec, rows[id].attempt, Run(w, events).now);
  }

  /** Renewing the lease does not prolong a session: it ends when the lease it was opened under would have. */
  lemma SessionEndsWithFirstLease(w: World, events: seq<Event>, rows: seq<Session>, id: nat, name: string, c: Catalogue)
    requires Inv(w) && id < |rows| && rows[id].expires <= w.now
    ensures Admit(rows, id, name, c, Run(w, events).db.exec, Run(w, events).now).Err?
  {
    RunKeepsInv(w, events);
    AdmittedWhen(rows, id, name, c, Run(w, events).db.exec, Run(w, events).now);
  }
}
