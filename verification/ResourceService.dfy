/** The budget ledger's operations, working in place inside a transaction that the caller opened. */
module ResourceService {
  import opened Domain
  import opened Strings
  import opened Resources
  import opened Box

  method AvailableIn(tx: Box, envelope: nat) returns (r: Result<int>)
    ensures r == if envelope < |tx.limits| then Ok(Available(tx.Budget(), envelope)) else Err(NotFound)
  {
    if envelope >= |tx.limits| { return Err(NotFound); }
    var settled, held, unresolved := 0, 0, 0;
    for i := 0 to |tx.reservations|
      invariant settled == Total(tx.reservations[..i], envelope, Settled)
      invariant held == Total(tx.reservations[..i], envelope, Held)
      invariant unresolved == Total(tx.reservations[..i], envelope, Unresolved)
    {
      var row := tx.reservations[i];
      TotalAppend(tx.reservations[..i], row, envelope, Settled);
      TotalAppend(tx.reservations[..i], row, envelope, Held);
      TotalAppend(tx.reservations[..i], row, envelope, Unresolved);
      assert tx.reservations[..i + 1] == tx.reservations[..i] + [row];
      if row.envelope == envelope {
        match row.state
        case Settled => settled := settled + if row.actual.Some? then row.actual.value else 0;
        case Held => held := held + row.amount;
        case Unresolved => unresolved := unresolved + row.amount;
        case Released =>
      }
    }
    assert tx.reservations[..|tx.reservations|] == tx.reservations;
    return Ok(tx.limits[envelope] - settled - held - unresolved);
  }

  method ReserveInTx(tx: Box, envelope: nat, amount: int, control: Enforceability) returns (r: Result<nat>)
    modifies tx`reservations
    ensures match Reserve(old(tx.Budget()), envelope, amount, control)
            case Ok(budget) => r == Ok(old(|tx.reservations|)) && tx.Budget() == budget
            case Err(e) => r == Err(e) && tx.reservations == old(tx.reservations)
  {
    if amount <= 0 || control.control == UnknownControl || Trim(control.source) == "" { return Err(Malformed); }
    if control.requireHardCap && !HardCeiling(control.control) { return Err(HardCapUnavailable); }
    var available := AvailableIn(tx, envelope);
    if available.Err? { return Err(available.error); }
    if amount > available.value { return Err(BudgetExceeded); }
    r := Ok(|tx.reservations|);
    tx.reservations := tx.reservations + [Reservation(envelope, Held, amount, None)];
  }

  method SettleInTx(tx: Box, reservation: nat, actual: int) returns (r: Result<()>)
    modifies tx`reservations
    ensures match Settle(old(tx.Budget()), reservation, actual)
            case Ok(budget) => r == Ok(()) && tx.Budget() == budget
            case Err(e) => r == Err(e) && tx.reservations == old(tx.reservations)
  {
    if actual < 0 { return Err(Malformed); }
    if reservation >= |tx.reservations| { return Err(NotFound); }
    var row := tx.reservations[reservation];
    match row.state
    case Settled => return if row.actual == Some(actual) then Ok(()) else Err(Conflict);
    case Released => return Err(WrongState);
    case _ =>
      tx.reservations := tx.reservations[reservation := row.(state := Settled, actual := Some(actual))];
      return Ok(());
  }

  method MarkUnresolvedInTx(tx: Box, reservation: nat) returns (r: Result<()>)
    modifies tx`reservations
    ensures match MarkUnresolved(old(tx.Budget()), reservation)
            case Ok(budget) => r == Ok(()) && tx.Budget() == budget
            case Err(e) => r == Err(e) && tx.reservations == old(tx.reservations)
  {
    if reservation >= |tx.reservations| { return Err(NotFound); }
    var row := tx.reservations[reservation];
    match row.state
    case Unresolved => return Ok(());
    case Held =>
      tx.reservations := tx.reservations[reservation := row.(state := Unresolved)];
      return Ok(());
    case _ => return Err(WrongState);
  }

  method ReleaseInTx(tx: Box, reservation: nat) returns (r: Result<()>)
    modifies tx`reservations
    ensures match Release(old(tx.Budget()), reservation)
            case Ok(budget) => r == Ok(()) && tx.Budget() == budget
            case Err(e) => r == Err(e) && tx.reservations == old(tx.reservations)
  {
    if reservation >= |tx.reservations| { return Err(NotFound); }
    var row := tx.reservations[reservation];
    match row.state
    case Released => return Ok(());
    case Settled => return Err(WrongState);
    case _ =>
      tx.reservations := tx.reservations[reservation := row.(state := Released)];
      return Ok(());
  }
}
