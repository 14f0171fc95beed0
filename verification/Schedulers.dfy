/** One worker of the scheduler on the shared table (backend/autora/runtime/scheduler.py:93-163). */
module Schedulers {
  import opened Wrappers
  import opened Sequences
  import S = Schedules

  /** The table all workers share, and the slots committed so far. */
  class Table {
    var rows: map<S.Id, S.Row>
    ghost var fired: seq<S.Claim>
    ghost var known: set<S.Id>

    constructor ()
      ensures rows == map[] && fired == [] && known == {}
    {
      rows, fired, known := map[], [], {};
    }
  }

  class Scheduler {
    const id: S.Worker
    const config: S.Config
    const table: Table
    var claims: seq<S.Claim>
    var failing: Option<S.Id>

    /** What this worker sees: the table and its own claims. */
    ghost function Value(): S.World reads this, table {
      S.World(table.rows, map[id := S.Local(claims, failing)], table.fired, table.known)
    }

    constructor (id: S.Worker, config: S.Config, table: Table)
      ensures this.id == id && this.config == config && this.table == table && claims == [] && failing == None
    {
      this.id, this.config, this.table, claims, failing := id, config, table, [], None;
    }

    /** Lease the due schedules that the query found unlocked. */
    method ClaimDue(now: S.Time, ids: seq<S.Id>)
      requires S.CanClaim(Value(), id, now, ids)
      modifies this`claims, table`rows
      ensures Value() == S.Next(config, old(Value()), S.ClaimDue(id, now, ids))
    {
      ghost var before := table.rows;
      var i := 0;
      claims := [];
      while i < |ids|
        invariant 0 <= i <= |ids|
        invariant table.rows == S.Claimed(config, before, id, now, ids[..i])
        invariant claims == S.ClaimsOf(before, ids[..i])
        invariant failing == old(failing) && table.fired == old(table.fired) && table.known == old(table.known)
      {
        assert ids[i] in ids && ids[..i + 1][..i] == ids[..i];
        S.ClaimedRows(config, before, id, now, ids[..i], ids[i]);
        DistinctInit(ids, i);
        var row := table.rows[ids[i]];
        claims := claims + [S.Claim(ids[i], row.nextRunAt)];
        table.rows := table.rows[ids[i] := row.(leaseOwner := Some(id), leaseUntil := Some(now + config.lease))];
        i := i + 1;
      }
      assert ids[..|ids|] == ids;
    }

    /** Fire the next claim of the tick; `ok` says whether a handler is there and does its work. A
        failure rolls everything back and is recorded afterwards, in a transaction of its own. */
    method Fire(now: S.Time, ok: bool)
      requires claims != [] && failing.None?
      modifies this, table
      ensures Value() == S.Next(config, old(Value()), S.Fire(id, now, ok))
    {
      var claim := claims[0];
      claims := claims[1..];
      if claim.id !in table.rows || table.rows[claim.id].leaseOwner != Some(id) { return; }
      if !ok {
        failing := Some(claim.id);
        return;
      }
      var row := table.rows[claim.id];
      var after := if now <= claim.slot then claim.slot else now;
      table.rows := table.rows[claim.id := row.(lastRunAt := Some(now), nextRunAt := config.next(claim.id, after),
                                               leaseOwner := None, leaseUntil := None, failures := 0)];
      table.fired := table.fired + [claim];
    }

    method RecordFailure(now: S.Time)
      requires failing.Some?
      modifies this`failing, table`rows
      ensures Value() == S.Next(config, old(Value()), S.RecordFailure(id, now))
    {
      var failed := failing.value;
      failing := None;
      if failed !in table.rows || table.rows[failed].leaseOwner != Some(id) { return; }
      var row := table.rows[failed];
      table.rows := table.rows[failed := row.(leaseUntil := Some(now + config.backoff), failures := row.failures + 1)];
    }
  }
}
