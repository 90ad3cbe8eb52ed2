/** The Box's database as the services see it: one object whose tables they read and rewrite in place, with the
    clock and the logs of the calls that are under way and of the calls that reached a provider. */
module Box {
  import opened Execution
  import opened Resources
  import opened Approvals
  import opened Operations
  import opened World

  class Box {
    var tasks: seq<Task>
    var attempts: seq<Attempt>
    var failures: seq<Failure>
    var completions: set<nat>
    var limits: seq<int>
    var reservations: seq<Reservation>
    var approvals: seq<Approval>
    var slots: seq<EffectSlot>
    var operations: seq<Operation>
    var profile: nat
    var now: int
    var calls: seq<Call>
    var sends: seq<nat>

    constructor (start: int)
      ensures State() == Boot(start)
    {
      tasks, attempts, failures, completions := [], [], [], {};
      limits, reservations, approvals, slots, operations, profile := [], [], [], [], [], 0;
      now, calls, sends := start, [], [];
    }

    function Work(): Exec
      reads this`tasks, this`attempts, this`failures, this`completions
    {
      Exec(tasks, attempts, failures, completions)
    }

    function Budget(): Ledger
      reads this`limits, this`reservations
    {
      Ledger(limits, reservations)
    }

    function Data(): Db
      reads this
    {
      Db(Work(), Budget(), approvals, slots, operations, profile)
    }

    function State(): World
      reads this
    {
      World(Data(), now, calls, sends)
    }

    /** Puts back what the tables held when a transaction began. */
    method Rollback(saved: Db)
      modifies this`tasks, this`attempts, this`failures, this`completions, this`limits, this`reservations,
               this`approvals, this`slots, this`operations, this`profile
      ensures Data() == saved
    {
      tasks, attempts, failures, completions :=
        saved.exec.tasks, saved.exec.attempts, saved.exec.failures, saved.exec.completions;
      limits, reservations, approvals := saved.ledger.limits, saved.ledger.rows, saved.approvals;
      slots, operations, profile := saved.slots, saved.ops, saved.profile;
    }

    /** Other processes act on the same database for a while. */
    method Others(events: seq<Event>)
      modifies this
      ensures State() == Run(old(State()), events)
    {
      var w := Run(State(), events);
      Rollback(w.db);
      now, calls, sends := w.now, w.calls, w.sends;
    }
  }
}
