/** The budget ledger: envelopes with hard limits, and reservations that hold, settle or release exposure. */
module Resources {
  import opened Domain
  import opened Strings

  datatype CostControl =
    | TechnicallyCapped | PrepaidQuota | VerifiedStop | EstimatedOnly | PotentiallyUnbounded | UnknownControl

  datatype Enforceability = Enforceability(control: CostControl, requireHardCap: bool, source: string)

  datatype Reservation = Reservation(envelope: nat, state: ReservationState, amount: int, actual: Option<int>)

  datatype Ledger = Ledger(limits: seq<int>, rows: seq<Reservation>)

  predicate HardCeiling(c: CostControl) {
    c == TechnicallyCapped || c == PrepaidQuota || c == VerifiedStop
  }

  function Part(r: Reservation, e: nat, s: ReservationState): int {
    if r.envelope != e || r.state != s then 0
    else if s != Settled then r.amount
    else if r.actual.Some? then r.actual.value else 0
  }

  /** The amounts one envelope has in one state: reserved amounts, or actual amounts once settled. */
  function Total(rows: seq<Reservation>, e: nat, s: ReservationState): int {
    if rows == [] then 0 else Total(rows[..|rows| - 1], e, s) + Part(rows[|rows| - 1], e, s)
  }

  function Available(l: Ledger, e: nat): int
    requires e < |l.limits|
  {
    l.limits[e] - Total(l.rows, e, Settled) - Total(l.rows, e, Held) - Total(l.rows, e, Unresolved)
  }

  function Reserve(l: Ledger, e: nat, amount: int, control: Enforceability): Result<Ledger> {
    if amount <= 0 || control.control == UnknownControl || Trim(control.source) == "" then Err(Malformed)
    else if control.requireHardCap && !HardCeiling(control.control) then Err(HardCapUnavailable)
    else if e >= |l.limits| then Err(NotFound)
    else if amount > Available(l, e) then Err(BudgetExceeded)
    else Ok(l.(rows := l.rows + [Reservation(e, Held, amount, None)]))
  }

  function Settle(l: Ledger, r: nat, actual: int): Result<Ledger> {
    if actual < 0 then Err(Malformed)
    else if r >= |l.rows| then Err(NotFound)
    else
      match l.rows[r].state
      case Settled => if l.rows[r].actual == Some(actual) then Ok(l) else Err(Conflict)
      case Held => Ok(l.(rows := l.rows[r := l.rows[r].(state := Settled, actual := Some(actual))]))
      case Unresolved => Ok(l.(rows := l.rows[r := l.rows[r].(state := Settled, actual := Some(actual))]))
      case Released => Err(WrongState)
  }

  function MarkUnresolved(l: Ledger, r: nat): Result<Ledger> {
    if r >= |l.rows| then Err(NotFound)
    else
      match l.rows[r].state
      case Unresolved => Ok(l)
      case Held => Ok(l.(rows := l.rows[r := l.rows[r].(state := Unresolved)]))
      case _ => Err(WrongState)
  }

  function Release(l: Ledger, r: nat): Result<Ledger> {
    if r >= |l.rows| then Err(NotFound)
    else
      match l.rows[r].state
      case Released => Ok(l)
      case Settled => Err(WrongState)
      case _ => Ok(l.(rows := l.rows[r := l.rows[r].(state := Released)]))
  }

  // ----- the budget bound -----

  function Excess(r: Reservation, e: nat): int {
    if r.envelope == e && r.state == Settled && r.actual.Some? && r.actual.value > r.amount
    then r.actual.value - r.amount else 0
  }

  /** By how much settlements of this envelope went over their own reservations. */
  function Overrun(rows: seq<Reservation>, e: nat): int {
    if rows == [] then 0 else Overrun(rows[..|rows| - 1], e) + Excess(rows[|rows| - 1], e)
  }

  ghost predicate RowOk(l: Ledger, r: nat)
    requires r < |l.rows|
  {
    && l.rows[r].envelope < |l.limits|
    && l.rows[r].amount > 0
    && (l.rows[r].state == Settled <==> l.rows[r].actual.Some?)
  }

  ghost predicate WithinBudget(l: Ledger, e: nat)
    requires e < |l.limits|
  {
    -Overrun(l.rows, e) <= Available(l, e)
  }

  ghost predicate BudgetInv(l: Ledger) {
    && (forall r | 0 <= r < |l.rows| :: RowOk(l, r))
    && (forall e | 0 <= e < |l.limits| :: WithinBudget(l, e))
  }

  lemma TotalAppend(rows: seq<Reservation>, r: Reservation, e: nat, s: ReservationState)
    ensures Total(rows + [r], e, s) == Total(rows, e, s) + Part(r, e, s)
    ensures Overrun(rows + [r], e) == Overrun(rows, e) + Excess(r, e)
  {
    assert (rows + [r])[..|rows|] == rows;
  }

  lemma {:induction false} TotalUpdate(rows: seq<Reservation>, i: nat, r: Reservation, e: nat, s: ReservationState)
    requires i < |rows|
    ensures Total(rows[i := r], e, s) == Total(rows, e, s) - Part(rows[i], e, s) + Part(r, e, s)
    ensures Overrun(rows[i := r], e) == Overrun(rows, e) - Excess(rows[i], e) + Excess(r, e)
  {
    var last := |rows| - 1;
    if i == last {
      assert rows[i := r][..last] == rows[..last];
    } else {
      TotalUpdate(rows[..last], i, r, e, s);
      assert rows[i := r][..last] == rows[..last][i := r];
    }
  }

  lemma {:induction false} OtherEnvelope(rows: seq<Reservation>, e: nat)
    requires forall r | 0 <= r < |rows| :: rows[r].envelope != e
    ensures forall s :: Total(rows, e, s) == 0
    ensures Overrun(rows, e) == 0
  {
    if rows != [] { OtherEnvelope(rows[..|rows| - 1], e); }
  }

  lemma EnvelopeKeepsBudget(l: Ledger, limit: nat)
    requires BudgetInv(l)
    ensures BudgetInv(l.(limits := l.limits + [limit]))
  {
    var m := l.(limits := l.limits + [limit]);
    forall r: nat | r < |m.rows| ensures RowOk(m, r) && m.rows[r].envelope != |l.limits| { assert RowOk(l, r); }
    forall e: nat | e < |m.limits| ensures WithinBudget(m, e) {
      if e < |l.limits| { assert WithinBudget(l, e); } else { OtherEnvelope(m.rows, e); }
    }
  }

  lemma ReserveKeepsBudget(l: Ledger, e: nat, amount: int, control: Enforceability)
    requires BudgetInv(l) && Reserve(l, e, amount, control).Ok?
    ensures BudgetInv(Reserve(l, e, amount, control).value)
  {
    var m := Reserve(l, e, amount, control).value;
    var row := Reservation(e, Held, amount, None);
    forall r: nat | r < |m.rows| ensures RowOk(m, r) { if r < |l.rows| { assert RowOk(l, r); } }
    forall f: nat | f < |m.limits| ensures WithinBudget(m, f) {
      assert WithinBudget(l, f);
      TotalAppend(l.rows, row, f, Settled);
      TotalAppend(l.rows, row, f, Held);
      TotalAppend(l.rows, row, f, Unresolved);
      OverrunNonNegative(l.rows, f);
    }
  }

  lemma {:induction false} OverrunNonNegative(rows: seq<Reservation>, e: nat)
    ensures 0 <= Overrun(rows, e)
  {
    if rows != [] { OverrunNonNegative(rows[..|rows| - 1], e); }
  }

  /** Replacing one row in place: the bound survives if the row's exposure grows by no more than its own overrun. */
  lemma UpdateKeepsBudget(l: Ledger, i: nat, r: Reservation)
    requires BudgetInv(l) && i < |l.rows|
    requires r.envelope == l.rows[i].envelope && r.amount == l.rows[i].amount
    requires l.rows[i].state == Held || l.rows[i].state == Unresolved
    requires r.state == Settled <==> r.actual.Some?
    ensures BudgetInv(l.(rows := l.rows[i := r]))
  {
    var m := l.(rows := l.rows[i := r]);
    assert RowOk(l, i);
    forall j: nat | j < |m.rows| ensures RowOk(m, j) { assert RowOk(l, j); }
    forall e: nat | e < |m.limits| ensures WithinBudget(m, e) {
      assert WithinBudget(l, e);
      TotalUpdate(l.rows, i, r, e, Settled);
      TotalUpdate(l.rows, i, r, e, Held);
      TotalUpdate(l.rows, i, r, e, Unresolved);
    }
  }

  /** In every ledger the transactions can produce, exposure stays within the limit plus the overruns. */
  lemma ExposureBounded(l: Ledger, e: nat)
    requires BudgetInv(l) && e < |l.limits|
    ensures Total(l.rows, e, Settled) + Total(l.rows, e, Held) + Total(l.rows, e, Unresolved)
         <= l.limits[e] + Overrun(l.rows, e)
  {
    assert WithinBudget(l, e);
  }

  /** The provider charged no more than the exposure it had declared. */
  predicate WithinReservation(r: Reservation) {
    r.actual.Some? ==> r.actual.value <= r.amount
  }

  /** When no settlement of an envelope went over its reservation, its hard limit holds. */
  lemma LimitHolds(l: Ledger, e: nat)
    requires BudgetInv(l) && e < |l.limits|
    requires forall r | 0 <= r < |l.rows| && l.rows[r].envelope == e :: WithinReservation(l.rows[r])
    ensures Total(l.rows, e, Settled) + Total(l.rows, e, Held) + Total(l.rows, e, Unresolved) <= l.limits[e]
  {
    ExposureBounded(l, e);
    NoOverrun(l.rows, e);
  }

  lemma {:induction false} NoOverrun(rows: seq<Reservation>, e: nat)
    requires forall r | 0 <= r < |rows| && rows[r].envelope == e :: WithinReservation(rows[r])
    ensures Overrun(rows, e) == 0
  {
    if rows != [] { NoOverrun(rows[..|rows| - 1], e); }
  }

  // ----- conservation -----

  lemma ReserveAppends(l: Ledger, e: nat, amount: int, control: Enforceability)
    requires Reserve(l, e, amount, control).Ok?
    ensures e < |l.limits| && amount <= Available(l, e)
    ensures Reserve(l, e, amount, control).value == l.(rows := l.rows + [Reservation(e, Held, amount, None)])
  {
  }

  /** What one row still withholds from its envelope. */
  function Withheld(r: Reservation): int {
    match r.state
    case Held => r.amount
    case Unresolved => r.amount
    case Settled => if r.actual.Some? then r.actual.value else 0
    case Released => 0
  }

  lemma AppendTakes(l: Ledger, row: Reservation, f: nat)
    requires f < |l.limits|
    ensures Available(l.(rows := l.rows + [row]), f) == Available(l, f) - (if f == row.envelope then Withheld(row) else 0)
  {
    TotalAppend(l.rows, row, f, Settled);
    TotalAppend(l.rows, row, f, Held);
    TotalAppend(l.rows, row, f, Unresolved);
  }

  /** Reserving takes exactly the amount from what the envelope has available, and from no other envelope. */
  lemma ReserveTakes(l: Ledger, e: nat, amount: int, control: Enforceability, f: nat)
    requires Reserve(l, e, amount, control).Ok? && f < |l.limits|
    ensures |Reserve(l, e, amount, control).value.limits| == |l.limits|
    ensures Available(Reserve(l, e, amount, control).value, f) == Available(l, f) - (if f == e then amount else 0)
    ensures f == e ==> 0 <= Available(Reserve(l, e, amount, control).value, f)
  {
    ReserveAppends(l, e, amount, control);
    AppendTakes(l, Reservation(e, Held, amount, None), f);
  }

  lemma UpdateShifts(l: Ledger, i: nat, r: Reservation, f: nat)
    requires i < |l.rows| && r.envelope == l.rows[i].envelope && f < |l.limits|
    ensures
      var m := l.(rows := l.rows[i := r]);
      Available(m, f) == Available(l, f) + (if f == r.envelope then Withheld(l.rows[i]) - Withheld(r) else 0)
  {
    TotalUpdate(l.rows, i, r, f, Settled);
    TotalUpdate(l.rows, i, r, f, Held);
    TotalUpdate(l.rows, i, r, f, Unresolved);
  }

  /** A first settlement gives back the difference between what was reserved and what it cost; a repeated one, and a
      move to unresolved, give back nothing; a first release gives back the whole amount. */
  lemma SettlementsReturn(l: Ledger, i: nat, actual: int, f: nat)
    requires i < |l.rows| && f < |l.limits|
    ensures Settle(l, i, actual).Ok? ==>
      var m := Settle(l, i, actual).value;
      |m.limits| == |l.limits| && Available(m, f) == Available(l, f) +
        (if f == l.rows[i].envelope && l.rows[i].state != Settled then l.rows[i].amount - actual else 0)
    ensures MarkUnresolved(l, i).Ok? ==>
      |MarkUnresolved(l, i).value.limits| == |l.limits| && Available(MarkUnresolved(l, i).value, f) == Available(l, f)
    ensures Release(l, i).Ok? ==>
      var m := Release(l, i).value;
      |m.limits| == |l.limits| && Available(m, f) == Available(l, f) +
        (if f == l.rows[i].envelope && l.rows[i].state != Released then l.rows[i].amount else 0)
  {
    var row := l.rows[i];
    UpdateShifts(l, i, row.(state := Settled, actual := Some(actual)), f);
    UpdateShifts(l, i, row.(state := Unresolved), f);
    UpdateShifts(l, i, row.(state := Released), f);
  }

  /** What is withheld from one envelope by all its reservations: their amounts while they are held or unresolved, and their
      actual costs once they are settled. */
  ghost function WithheldFrom(rows: seq<Reservation>, e: nat): int {
    if rows == [] then 0
    else
      var r := rows[|rows| - 1];
      WithheldFrom(rows[..|rows| - 1], e) +
        if r.envelope != e || r.state == Released then 0
        else if r.state != Settled then r.amount
        else if r.actual == None then 0 else r.actual.value
  }

  lemma {:induction false} AvailableMeans(l: Ledger, e: nat)
    requires e < |l.limits|
    ensures Available(l, e) == l.limits[e] - WithheldFrom(l.rows, e)
    decreases |l.rows|
  {
    if l.rows != [] {
      var n := |l.rows| - 1;
      AvailableMeans(l.(rows := l.rows[..n]), e);
    }
  }

  // ----- what each call needs, and what it leaves -----

  /** A reservation needs a positive amount, a stated and known kind of control (a hard ceiling where one is asked for),
      and that much still available on the envelope. */
  lemma ReserveWhen(l: Ledger, e: nat, amount: int, control: Enforceability)
    ensures Reserve(l, e, amount, control).Ok? <==>
      && amount > 0 && control.control != UnknownControl && Trim(control.source) != ""
      && (control.requireHardCap ==> control.control != EstimatedOnly && control.control != PotentiallyUnbounded)
      && e < |l.limits| && amount <= Available(l, e)
    ensures Reserve(l, e, amount, control).Ok? ==>
      Reserve(l, e, amount, control).value == Ledger(l.limits, l.rows + [Reservation(e, Held, amount, None)])
  {
  }

  /** Settlement needs a cost that is not negative; a held or unresolved row takes it, and a settled one recognises it. */
  lemma SettleWhen(l: Ledger, r: nat, actual: int)
    ensures Settle(l, r, actual).Ok? <==>
      && actual >= 0 && r < |l.rows|
      && (l.rows[r].state == Held || l.rows[r].state == Unresolved
          || (l.rows[r].state == Settled && l.rows[r].actual == Some(actual)))
    ensures Settle(l, r, actual).Ok? ==>
      Settle(l, r, actual).value == Ledger(l.limits, l.rows[r := Reservation(l.rows[r].envelope, Settled, l.rows[r].amount, Some(actual))])
  {
    if Settle(l, r, actual).Ok? && l.rows[r].state == Settled {
      assert l.rows[r := l.rows[r]] == l.rows;
    }
  }

  lemma UnresolveWhen(l: Ledger, r: nat)
    ensures MarkUnresolved(l, r).Ok? <==> r < |l.rows| && (l.rows[r].state == Held || l.rows[r].state == Unresolved)
    ensures MarkUnresolved(l, r).Ok? ==>
      MarkUnresolved(l, r).value == Ledger(l.limits, l.rows[r := Reservation(l.rows[r].envelope, Unresolved, l.rows[r].amount, l.rows[r].actual)])
  {
    if MarkUnresolved(l, r).Ok? && l.rows[r].state == Unresolved {
      assert l.rows[r := l.rows[r]] == l.rows;
    }
  }

  /** Anything but a settled row can be released. */
  lemma ReleaseWhen(l: Ledger, r: nat)
    ensures Release(l, r).Ok? <==> r < |l.rows| && l.rows[r].state != Settled
    ensures Release(l, r).Ok? ==>
      Release(l, r).value == Ledger(l.limits, l.rows[r := Reservation(l.rows[r].envelope, Released, l.rows[r].amount, l.rows[r].actual)])
  {
    if Release(l, r).Ok? && l.rows[r].state == Released {
      assert l.rows[r := l.rows[r]] == l.rows;
    }
  }
}
