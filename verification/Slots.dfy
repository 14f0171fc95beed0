/** What claiming, firing and failing write (backend/autora/runtime/scheduler.py:93-163), field by field,
    and that a due slot is fired by whoever gets to it. */
module Slots {
  import opened Wrappers
  import opened Sequences
  import opened Schedules

  /** Enabled, its slot has come, and no lease on it still runs. */
  ghost predicate Waits(s: World, id: Id, now: Time) {
    id in s.rows && s.rows[id].enabled && s.rows[id].nextRunAt <= now && (s.rows[id].leaseUntil.Some? ==> s.rows[id].leaseUntil.value < now)
  }

  /** A claim changes the world only for an idle worker and schedules that wait, each once. Then it leases
      them for as long as configured, notes the slots they wait for, in order, and touches nothing else. */
  lemma ClaimingLeases(c: Config, s: World, w: Worker, now: Time, ids: seq<Id>, id: Id)
    ensures var s' := Next(c, s, ClaimDue(w, now, ids));
            if w in s.workers && s.workers[w] == Local([], None) && Distinct(ids) && forall i :: 0 <= i < |ids| ==> Waits(s, ids[i], now)
            then
              && s'.fired == s.fired && s'.known == s.known && (id in s'.rows <==> id in s.rows)
              && (id in s.rows && id !in ids ==> s'.rows[id] == s.rows[id])
              && (id in ids ==> s'.rows[id].leaseOwner == Some(w) && s'.rows[id].leaseUntil == Some(now + c.lease)
                                && s'.rows[id].enabled && s'.rows[id].nextRunAt == s.rows[id].nextRunAt
                                && s'.rows[id].lastRunAt == s.rows[id].lastRunAt && s'.rows[id].failures == s.rows[id].failures)
              && s'.workers.Keys == s.workers.Keys && s'.workers - {w} == s.workers - {w}
              && s'.workers[w].failing.None? && |s'.workers[w].claims| == |ids|
              && forall i :: 0 <= i < |ids| ==> s'.workers[w].claims[i] == Claim(ids[i], s.rows[ids[i]].nextRunAt)
            else s' == s
  {
    if CanClaim(s, w, now, ids) {
      forall i | 0 <= i < |ids| ensures Waits(s, ids[i], now) { assert ids[i] in ids; }
    }
    if CanClaim(s, w, now, ids) {
      ClaimedRows(c, s.rows, w, now, ids, id);
      ClaimsAre(s.rows, ids);
    }
  }

  ghost predicate HasLease(s: World, id: Id, w: Worker) {
    id in s.rows && s.rows[id].leaseOwner == Some(w)
  }

  /** Firing takes the first claim off the worker's list. If the lease is still the worker's and the handler
      does its work, the slot is committed and the schedule waits for the first slot after both it and now,
      with the lease given back; if the handler fails the worker is to record it; and without the lease
      nothing else happens at all. */
  lemma FiringWrites(c: Config, s: World, w: Worker, now: Time, ok: bool)
    requires w in s.workers && s.workers[w].claims != [] && s.workers[w].failing.None?
    ensures var s', claim := Next(c, s, Fire(w, now, ok)), s.workers[w].claims[0];
            && s'.known == s.known && s'.workers.Keys == s.workers.Keys && s'.workers - {w} == s.workers - {w}
            && s'.workers[w].claims == s.workers[w].claims[1..]
            && s'.workers[w].failing == (if HasLease(s, claim.id, w) && !ok then Some(claim.id) else None)
            && s'.fired == s.fired + (if HasLease(s, claim.id, w) && ok then [claim] else [])
            && s'.rows.Keys == s.rows.Keys && s'.rows - {claim.id} == s.rows - {claim.id}
            && (claim.id in s.rows ==>
                  var row, row' := s.rows[claim.id], s'.rows[claim.id];
                  if HasLease(s, claim.id, w) && ok
                  then exists from :: from >= now && from >= claim.slot && (from == now || from == claim.slot)
                         && row' == Row(row.enabled, c.next(claim.id, from), Some(now), None, None, 0)
                  else row' == row)
  {
    var claim := s.workers[w].claims[0];
    assert c.next(claim.id, Max(now, claim.slot)) == c.next(claim.id, if now <= claim.slot then claim.slot else now);
  }

  /** A failure is recorded only under the lease: it pauses the schedule and is counted. */
  lemma FailingWrites(c: Config, s: World, w: Worker, now: Time)
    requires w in s.workers && s.workers[w].failing.Some?
    ensures var s', id := Next(c, s, RecordFailure(w, now)), s.workers[w].failing.value;
            && s'.fired == s.fired && s'.known == s.known && s'.workers - {w} == s.workers - {w} && w in s'.workers
            && s'.workers[w] == Local(s.workers[w].claims, None)
            && s'.rows.Keys == s.rows.Keys && s'.rows - {id} == s.rows - {id}
            && (id in s.rows ==>
                  var row, row' := s.rows[id], s'.rows[id];
                  if HasLease(s, id, w)
                  then row' == Row(row.enabled, row.nextRunAt, row.lastRunAt, Some(w), Some(now + c.backoff), row.failures + 1)
                  else row' == row)
  {
  }

  /** A new schedule is enabled and waits for its first slot after now; an id is used once. */
  lemma CreatingWrites(c: Config, s: World, id: Id, now: Time)
    ensures var s' := Next(c, s, Create(id, now));
            if id in s.known then s' == s
            else
              && s'.workers == s.workers && s'.fired == s.fired && s'.known == s.known + {id}
              && s'.rows - {id} == s.rows - {id} && id in s'.rows
              && s'.rows[id] == Row(true, c.next(id, now), None, None, None, 0)
  {
  }

  /** Enabling a schedule or not changes that alone, removing it takes its row away but keeps its id used, and
      a worker that crashes forgets its claims, and nothing more. */
  lemma OthersWrite(c: Config, s: World, id: Id, enabled: bool, w: Worker)
    ensures var s' := Next(c, s, Enable(id, enabled));
            && s'.workers == s.workers && s'.fired == s.fired && s'.known == s.known
            && s'.rows.Keys == s.rows.Keys && s'.rows - {id} == s.rows - {id}
            && (id in s.rows ==> var row := s.rows[id];
                  s'.rows[id] == Row(enabled, row.nextRunAt, row.lastRunAt, row.leaseOwner, row.leaseUntil, row.failures))
    ensures var s' := Next(c, s, Remove(id));
            s'.workers == s.workers && s'.fired == s.fired && s'.known == s.known && s'.rows == s.rows - {id}
    ensures var s' := Next(c, s, Crash(w));
            && s'.rows == s.rows && s'.fired == s.fired && s'.known == s.known && s'.workers - {w} == s.workers - {w}
            && w in s'.workers && s'.workers[w] == Local([], None)
  {
  }

  // ---- a slot is fired ---------------------------------------------------------------------------

  lemma RunSnoc(c: Config, steps: seq<Step>, step: Step)
    ensures Run(c, steps + [step]) == Next(c, Run(c, steps), step)
  {
    assert (steps + [step])[..|steps|] == steps;
  }

  /** In every reachable state: when a schedule waits, any worker that has restarted can claim it and commit
      its slot, and afterwards it does not wait any more until a later slot comes. */
  lemma WaitingIsFired(c: Config, steps: seq<Step>, w: Worker, now: Time, id: Id, later: Time)
    requires Forward(c) && Waits(Run(c, steps), id, now)
    ensures var s, s' := Run(c, steps), Run(c, steps + [Crash(w)] + [ClaimDue(w, now, [id])] + [Fire(w, later, true)]);
            && s'.fired == s.fired + [Claim(id, s.rows[id].nextRunAt)]
            && id in s'.rows && later < s'.rows[id].nextRunAt && s.rows[id].nextRunAt < s'.rows[id].nextRunAt
            && s'.rows[id].leaseUntil.None? && !Waits(s', id, later)
  {
    var s0 := Run(c, steps);
    RunSnoc(c, steps, Crash(w));
    var s1 := Run(c, steps + [Crash(w)]);
    RunSnoc(c, steps + [Crash(w)], ClaimDue(w, now, [id]));
    var s2 := Run(c, steps + [Crash(w)] + [ClaimDue(w, now, [id])]);
    ClaimingLeases(c, s1, w, now, [id], id);
    assert Waits(s1, id, now);
    RunSnoc(c, steps + [Crash(w)] + [ClaimDue(w, now, [id])], Fire(w, later, true));
    FiringWrites(c, s2, w, later, true);
    assert s2.workers[w].claims[0] == Claim(id, s0.rows[id].nextRunAt);
  }
}
