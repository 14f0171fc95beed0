/** Firing schedules from any number of workers (backend/autora/runtime/scheduler.py): leases that
    expire, handlers that fail, workers that crash. Every database transaction is one step. */
module Schedules {
  import opened Wrappers
  import opened Sequences

  type Time = int
  type Id = nat
  type Worker = nat

  datatype Row = Row(enabled: bool, nextRunAt: Time, lastRunAt: Option<Time>, leaseOwner: Option<Worker>, leaseUntil: Option<Time>, failures: nat)

  /** A schedule and the slot it is to be fired for. */
  datatype Claim = Claim(id: Id, slot: Time)

  /** What a worker holds in memory: the claims of its tick still to fire, and the schedule whose
      failure it is about to record. */
  datatype Local = Local(claims: seq<Claim>, failing: Option<Id>)

  const IDLE := Local([], None)

  /** The table, the workers, and the slots that were committed. `known` are the ids ever used. */
  datatype World = World(rows: map<Id, Row>, workers: map<Worker, Local>, fired: seq<Claim>, known: set<Id>)

  /** How long a lease and a failure's pause last, and the first slot of a schedule after a moment. */
  datatype Config = Config(lease: Time, backoff: Time, next: (Id, Time) -> Time)

  /** Slots lie strictly after the moment that is asked about. */
  ghost predicate Forward(c: Config) {
    forall id, t {:trigger c.next(id, t)} :: t < c.next(id, t)
  }

  predicate Due(row: Row, now: Time) {
    row.enabled && row.nextRunAt <= now && (row.leaseUntil.None? || row.leaseUntil.value < now)
  }

  function Leased(c: Config, row: Row, w: Worker, now: Time): Row {
    row.(leaseOwner := Some(w), leaseUntil := Some(now + c.lease))
  }

  /** The claimed rows get a lease (scheduler.py:93-114). */
  function Claimed(c: Config, rows: map<Id, Row>, w: Worker, now: Time, ids: seq<Id>): map<Id, Row> {
    if ids == [] then rows
    else
      var rest, id := Claimed(c, rows, w, now, ids[..|ids| - 1]), ids[|ids| - 1];
      if id in rest then rest[id := Leased(c, rest[id], w, now)] else rest
  }

  function ClaimsOf(rows: map<Id, Row>, ids: seq<Id>): seq<Claim> {
    if ids == [] then []
    else
      var id := ids[|ids| - 1];
      ClaimsOf(rows, ids[..|ids| - 1]) + if id in rows then [Claim(id, rows[id].nextRunAt)] else []
  }

  function Max(a: Time, b: Time): Time { if a <= b then b else a }

  /** The schedule advanced and the lease given back (scheduler.py:128-136). */
  function Advanced(c: Config, row: Row, claim: Claim, now: Time): Row {
    row.(lastRunAt := Some(now), nextRunAt := c.next(claim.id, Max(now, claim.slot)), leaseOwner := None, leaseUntil := None, failures := 0)
  }

  predicate Holds(rows: map<Id, Row>, id: Id, w: Worker) {
    id in rows && rows[id].leaseOwner == Some(w)
  }

  /** After a failure the lease is kept for a while (scheduler.py:155-163). */
  function Paused(c: Config, row: Row, now: Time): Row {
    row.(leaseUntil := Some(now + c.backoff), failures := row.failures + 1)
  }

  datatype Step =
    | ClaimDue(w: Worker, now: Time, ids: seq<Id>)
    | Fire(w: Worker, now: Time, ok: bool)
    | RecordFailure(w: Worker, now: Time)
    | Crash(w: Worker)
    | Create(id: Id, now: Time)
    | Enable(id: Id, enabled: bool)
    | Remove(id: Id)

  ghost predicate CanClaim(s: World, w: Worker, now: Time, ids: seq<Id>) {
    && w in s.workers && s.workers[w] == IDLE && Distinct(ids)
    && forall id {:trigger id in ids} :: id in ids ==> id in s.rows && Due(s.rows[id], now)
  }

  function Fired(c: Config, s: World, w: Worker, now: Time, ok: bool): World
    requires w in s.workers && s.workers[w].claims != []
  {
    var claim := s.workers[w].claims[0];
    var s1 := s.(workers := s.workers[w := s.workers[w].(claims := s.workers[w].claims[1..])]);
    if !Holds(s.rows, claim.id, w) then s1
    else if !ok then s1.(workers := s1.workers[w := s1.workers[w].(failing := Some(claim.id))])
    else s1.(rows := s.rows[claim.id := Advanced(c, s.rows[claim.id], claim, now)], fired := s.fired + [claim])
  }

  function Recorded(c: Config, s: World, w: Worker, now: Time): World
    requires w in s.workers && s.workers[w].failing.Some?
  {
    var id := s.workers[w].failing.value;
    var s1 := s.(workers := s.workers[w := s.workers[w].(failing := None)]);
    if Holds(s.rows, id, w) then s1.(rows := s.rows[id := Paused(c, s.rows[id], now)]) else s1
  }

  /** One step; what cannot be done changes nothing. A worker's tick is sequential: it claims when it has
      fired everything, and records a failure before it goes on. */
  ghost function Next(c: Config, s: World, step: Step): World {
    match step
    case ClaimDue(w, now, ids) =>
      if CanClaim(s, w, now, ids)
      then s.(rows := Claimed(c, s.rows, w, now, ids), workers := s.workers[w := Local(ClaimsOf(s.rows, ids), None)])
      else s
    case Fire(w, now, ok) =>
      if w in s.workers && s.workers[w].claims != [] && s.workers[w].failing.None? then Fired(c, s, w, now, ok) else s
    case RecordFailure(w, now) =>
      if w in s.workers && s.workers[w].failing.Some? then Recorded(c, s, w, now) else s
    case Crash(w) => s.(workers := s.workers[w := IDLE])
    case Create(id, now) =>
      if id in s.known then s
      else s.(rows := s.rows[id := Row(true, c.next(id, now), None, None, None, 0)], known := s.known + {id})
    case Enable(id, enabled) => if id in s.rows then s.(rows := s.rows[id := s.rows[id].(enabled := enabled)]) else s
    case Remove(id) => s.(rows := s.rows - {id})
  }

  ghost function Run(c: Config, steps: seq<Step>): World {
    if steps == [] then World(map[], map[], [], {}) else Next(c, Run(c, steps[..|steps| - 1]), steps[|steps| - 1])
  }

  // ---- what every step keeps ---------------------------------------------------------------------

  /** An unfired claim has lost its lease or still names the slot the schedule waits for. */
  ghost predicate ClaimOk(s: World, w: Worker, claim: Claim) {
    claim.id in s.known && (Holds(s.rows, claim.id, w) ==> s.rows[claim.id].nextRunAt == claim.slot)
  }

  ghost predicate ClaimsDiffer(claims: seq<Claim>, i: int, j: int) {
    0 <= i < j < |claims| ==> claims[i].id != claims[j].id
  }

  ghost predicate LocalOk(s: World, w: Worker) {
    w in s.workers ==>
      && (forall i {:trigger s.workers[w].claims[i]} :: 0 <= i < |s.workers[w].claims| ==> ClaimOk(s, w, s.workers[w].claims[i]))
      && (forall i, j {:trigger ClaimsDiffer(s.workers[w].claims, i, j)} :: ClaimsDiffer(s.workers[w].claims, i, j))
  }

  /** The slots committed for a schedule are before the one it waits for, and increase. */
  ghost predicate FiredOk(s: World, i: int) {
    0 <= i < |s.fired| ==> s.fired[i].id in s.known && (s.fired[i].id in s.rows ==> s.fired[i].slot < s.rows[s.fired[i].id].nextRunAt)
  }

  ghost predicate SlotsGrow(fired: seq<Claim>, i: int, j: int) {
    0 <= i < j < |fired| && fired[i].id == fired[j].id ==> fired[i].slot < fired[j].slot
  }

  ghost predicate Invariant(s: World) {
    && s.rows.Keys <= s.known
    && (forall w {:trigger LocalOk(s, w)} :: LocalOk(s, w))
    && (forall i {:trigger FiredOk(s, i)} :: FiredOk(s, i))
    && (forall i, j {:trigger SlotsGrow(s.fired, i, j)} :: SlotsGrow(s.fired, i, j))
  }

  lemma {:induction false} ClaimedRows(c: Config, rows: map<Id, Row>, w: Worker, now: Time, ids: seq<Id>, id: Id)
    ensures id in Claimed(c, rows, w, now, ids) <==> id in rows
    ensures id in rows ==> Claimed(c, rows, w, now, ids)[id] == if id in ids then Leased(c, rows[id], w, now) else rows[id]
  {
    if ids != [] {
      ClaimedRows(c, rows, w, now, ids[..|ids| - 1], id);
      InitAndLast(ids);
    }
  }

  lemma {:induction false} ClaimsAre(rows: map<Id, Row>, ids: seq<Id>)
    requires forall id :: id in ids ==> id in rows
    ensures |ClaimsOf(rows, ids)| == |ids|
    ensures forall i {:trigger ClaimsOf(rows, ids)[i]} :: 0 <= i < |ids| ==> ClaimsOf(rows, ids)[i] == Claim(ids[i], rows[ids[i]].nextRunAt)
  {
    if ids != [] { ClaimsAre(rows, ids[..|ids| - 1]); }
  }

  /** A claim of its own worker names the slot; the claims of others on the same rows have lost them. */
  lemma ClaimKeepsLocal(c: Config, s: World, w: Worker, now: Time, ids: seq<Id>, v: Worker)
    requires Invariant(s) && CanClaim(s, w, now, ids)
    ensures LocalOk(Next(c, s, ClaimDue(w, now, ids)), v)
  {
    var s' := Next(c, s, ClaimDue(w, now, ids));
    assert LocalOk(s, v);
    if v == w {
      ClaimsAre(s.rows, ids);
      var claims := ClaimsOf(s.rows, ids);
      forall i | 0 <= i < |claims| ensures ClaimOk(s', w, claims[i]) {
        assert claims[i] == Claim(ids[i], s.rows[ids[i]].nextRunAt);
        ClaimedRows(c, s.rows, w, now, ids, ids[i]);
      }
      forall i, j {:trigger ClaimsDiffer(claims, i, j)} ensures ClaimsDiffer(claims, i, j) { assert Differ(ids, i, j); }
    } else if v in s.workers {
      forall i | 0 <= i < |s.workers[v].claims| ensures ClaimOk(s', v, s.workers[v].claims[i]) {
        ClaimedRows(c, s.rows, w, now, ids, s.workers[v].claims[i].id);
      }
    }
  }

  lemma ClaimKeeps(c: Config, s: World, w: Worker, now: Time, ids: seq<Id>)
    requires Invariant(s) && CanClaim(s, w, now, ids)
    ensures Invariant(Next(c, s, ClaimDue(w, now, ids)))
  {
    var s' := Next(c, s, ClaimDue(w, now, ids));
    forall v ensures LocalOk(s', v) { ClaimKeepsLocal(c, s, w, now, ids, v); }
    forall i ensures FiredOk(s', i) {
      assert FiredOk(s, i);
      if 0 <= i < |s.fired| { ClaimedRows(c, s.rows, w, now, ids, s.fired[i].id); }
    }
    forall id | id in s'.rows ensures id in s.rows { ClaimedRows(c, s.rows, w, now, ids, id); }
  }

  /** Rows that change neither their slots nor get new owners keep every claim in order. */
  ghost predicate Milder(s: World, s': World) {
    && s'.known == s.known && s'.fired == s.fired
    && forall id {:trigger id in s'.rows} :: id in s'.rows ==>
         id in s.rows && s'.rows[id].nextRunAt == s.rows[id].nextRunAt && s'.rows[id].leaseOwner == s.rows[id].leaseOwner
  }

  ghost predicate FewerClaims(s: World, s': World) {
    forall w {:trigger w in s'.workers} :: w in s'.workers ==>
      s'.workers[w].claims == [] || (w in s.workers && s'.workers[w].claims == s.workers[w].claims)
      || (w in s.workers && s.workers[w].claims != [] && s'.workers[w].claims == s.workers[w].claims[1..])
  }

  lemma TailOk(s: World, s': World, w: Worker)
    requires LocalOk(s, w) && w in s.workers && w in s'.workers
    requires s'.workers[w].claims == s.workers[w].claims || (s.workers[w].claims != [] && s'.workers[w].claims == s.workers[w].claims[1..])
    requires forall i :: 0 <= i < |s'.workers[w].claims| ==> ClaimOk(s', w, s'.workers[w].claims[i])
    ensures LocalOk(s', w)
  {
    var claims, later := s.workers[w].claims, s'.workers[w].claims;
    forall i, j {:trigger ClaimsDiffer(later, i, j)} ensures ClaimsDiffer(later, i, j) {
      assert ClaimsDiffer(claims, i, j) && ClaimsDiffer(claims, i + 1, j + 1);
    }
  }

  lemma MilderKeepsLocal(s: World, s': World, w: Worker)
    requires LocalOk(s, w) && Milder(s, s') && FewerClaims(s, s')
    ensures LocalOk(s', w)
  {
    if w in s'.workers && s'.workers[w].claims != [] {
      var claims := s.workers[w].claims;
      forall i | 0 <= i < |s'.workers[w].claims| ensures ClaimOk(s', w, s'.workers[w].claims[i]) {
        var k := if s'.workers[w].claims == claims then i else i + 1;
        assert s'.workers[w].claims[i] == claims[k];
        assert ClaimOk(s, w, claims[k]);
      }
      TailOk(s, s', w);
    }
  }

  lemma MilderKeeps(s: World, s': World)
    requires Invariant(s) && Milder(s, s') && FewerClaims(s, s')
    ensures Invariant(s')
  {
    forall w ensures LocalOk(s', w) {
      assert LocalOk(s, w);
      MilderKeepsLocal(s, s', w);
    }
    forall i ensures FiredOk(s', i) { assert FiredOk(s, i); }
  }

  /** A commit: the slot is the one the schedule waited for, and later than all before. */
  lemma CommitKeeps(c: Config, s: World, w: Worker, now: Time)
    requires Forward(c) && Invariant(s) && w in s.workers && s.workers[w].claims != [] && Holds(s.rows, s.workers[w].claims[0].id, w)
    ensures Invariant(Fired(c, s, w, now, true))
  {
    var s' := Fired(c, s, w, now, true);
    var claim := s.workers[w].claims[0];
    assert LocalOk(s, w);
    assert ClaimOk(s, w, claim);
    assert c.next(claim.id, Max(now, claim.slot)) > claim.slot;
    forall v ensures LocalOk(s', v) {
      assert LocalOk(s, v);
      if v in s'.workers {
        forall i | 0 <= i < |s'.workers[v].claims| ensures ClaimOk(s', v, s'.workers[v].claims[i]) {
          var k := if v == w then i + 1 else i;
          assert s'.workers[v].claims[i] == s.workers[v].claims[k];
          assert ClaimOk(s, v, s.workers[v].claims[k]);
        }
        TailOk(s, s', v);
      }
    }
    forall i ensures FiredOk(s', i) { assert FiredOk(s, i); }
    forall i, j {:trigger SlotsGrow(s'.fired, i, j)} ensures SlotsGrow(s'.fired, i, j) {
      assert SlotsGrow(s.fired, i, j) && FiredOk(s, i);
    }
  }

  lemma CreateKeeps(c: Config, s: World, id: Id, now: Time)
    requires Invariant(s)
    ensures Invariant(Next(c, s, Create(id, now)))
  {
    var s' := Next(c, s, Create(id, now));
    if id !in s.known {
      forall w ensures LocalOk(s', w) {
        assert LocalOk(s, w);
        if w in s.workers {
          forall i | 0 <= i < |s.workers[w].claims| ensures ClaimOk(s', w, s.workers[w].claims[i]) { assert ClaimOk(s, w, s.workers[w].claims[i]); }
        }
      }
      forall i ensures FiredOk(s', i) { assert FiredOk(s, i); }
    }
  }

  lemma FireKeeps(c: Config, s: World, w: Worker, now: Time, ok: bool)
    requires Forward(c) && Invariant(s)
    ensures Invariant(Next(c, s, Fire(w, now, ok)))
  {
    if w in s.workers && s.workers[w].claims != [] && s.workers[w].failing.None? {
      if Holds(s.rows, s.workers[w].claims[0].id, w) && ok {
        CommitKeeps(c, s, w, now);
      } else {
        MilderKeeps(s, Fired(c, s, w, now, ok));
      }
    }
  }

  /** Whatever happens, an unfired claim has lost its lease or names the slot that is waited for. */
  lemma NextKeeps(c: Config, s: World, step: Step)
    requires Forward(c) && Invariant(s)
    ensures Invariant(Next(c, s, step))
  {
    match step
    case ClaimDue(w, now, ids) => if CanClaim(s, w, now, ids) { ClaimKeeps(c, s, w, now, ids); }
    case Fire(w, now, ok) => FireKeeps(c, s, w, now, ok);
    case RecordFailure(w, now) => MilderKeeps(s, Next(c, s, step));
    case Crash(w) => MilderKeeps(s, Next(c, s, step));
    case Create(id, now) => CreateKeeps(c, s, id, now);
    case Enable(id, enabled) => MilderKeeps(s, Next(c, s, step));
    case Remove(id) => MilderKeeps(s, Next(c, s, step));
  }

  lemma {:induction false} RunKeeps(c: Config, steps: seq<Step>)
    requires Forward(c)
    ensures Invariant(Run(c, steps))
  {
    if steps != [] {
      RunKeeps(c, steps[..|steps| - 1]);
      NextKeeps(c, Run(c, steps[..|steps| - 1]), steps[|steps| - 1]);
    }
  }

  // ---- results -----------------------------------------------------------------------------------

  /** Whatever the workers do and whenever they crash, no slot of a schedule is committed twice: the
      committed slots of each schedule increase. */
  lemma EachSlotOnce(c: Config, steps: seq<Step>, i: int, j: int)
    requires Forward(c)
    ensures var fired := Run(c, steps).fired;
            0 <= i < j < |fired| && fired[i].id == fired[j].id ==> fired[i].slot < fired[j].slot
  {
    RunKeeps(c, steps);
    assert SlotsGrow(Run(c, steps).fired, i, j);
  }

  /** Every commit is for the slot the schedule waited for, and leaves it waiting for one after that and
      after now: missed slots are not replayed. Nothing else moves what a schedule waits for. */
  lemma OnlyCommitsAdvance(c: Config, steps: seq<Step>, step: Step, id: Id)
    requires Forward(c)
    ensures var s, s' := Run(c, steps), Next(c, Run(c, steps), step);
            id in s.rows && id in s'.rows ==>
              if s'.fired != s.fired && s'.fired[|s'.fired| - 1].id == id
              then step.Fire? && s'.fired == s.fired + [Claim(id, s.rows[id].nextRunAt)]
                   && s.rows[id].nextRunAt < s'.rows[id].nextRunAt && step.now < s'.rows[id].nextRunAt
              else s'.rows[id].nextRunAt == s.rows[id].nextRunAt
  {
    RunKeeps(c, steps);
    var s := Run(c, steps);
    match step
    case ClaimDue(w, now, ids) => if CanClaim(s, w, now, ids) { ClaimedRows(c, s.rows, w, now, ids, id); }
    case Fire(w, now, ok) =>
      assert LocalOk(s, w);
      if w in s.workers && s.workers[w].claims != [] {
        var claim := s.workers[w].claims[0];
        assert ClaimOk(s, w, claim);
        assert c.next(claim.id, Max(now, claim.slot)) > Max(now, claim.slot);
      }
    case _ =>
  }

  // ---- what a failure pauses ---------------------------------------------------------------------

  /** Of the claims of the worker none is for the schedule. */
  ghost predicate NoClaim(s: World, w: Worker, id: Id) {
    w in s.workers ==> forall i {:trigger s.workers[w].claims[i]} :: 0 <= i < |s.workers[w].claims| ==> s.workers[w].claims[i].id != id
  }

  /** A worker that is about to record a failure has no further claim for the schedule. */
  ghost predicate FailingApart(s: World, w: Worker) {
    w in s.workers && s.workers[w].failing.Some? ==> NoClaim(s, w, s.workers[w].failing.value)
  }

  lemma FiredOthers(c: Config, s: World, w: Worker, now: Time, ok: bool)
    requires LocalOk(s, w) && w in s.workers && s.workers[w].claims != []
    ensures NoClaim(Fired(c, s, w, now, ok), w, s.workers[w].claims[0].id)
  {
    var claims := s.workers[w].claims;
    forall i | 0 <= i < |claims| - 1 ensures claims[1..][i].id != claims[0].id { assert ClaimsDiffer(claims, 0, i + 1); }
  }

  lemma {:induction false} RunFailsApart(c: Config, steps: seq<Step>, w: Worker)
    requires Forward(c)
    ensures FailingApart(Run(c, steps), w)
    decreases |steps|
  {
    if steps != [] {
      var s, step := Run(c, steps[..|steps| - 1]), steps[|steps| - 1];
      RunFailsApart(c, steps[..|steps| - 1], w);
      RunKeeps(c, steps[..|steps| - 1]);
      assert LocalOk(s, w);
      if step.Fire? && step.w == w && w in s.workers && s.workers[w].claims != [] { FiredOthers(c, s, w, step.now, step.ok); }
    }
  }

  /** The schedule waits for its slot, and until the moment nobody may claim or fire it. */
  ghost predicate Resting(s: World, id: Id, w: Worker, slot: Time, until: Time) {
    && id in s.known && NoClaim(s, w, id) && (w in s.workers ==> s.workers[w].failing != Some(id))
    && (id in s.rows ==> s.rows[id].leaseOwner == Some(w) && s.rows[id].leaseUntil == Some(until) && s.rows[id].nextRunAt == slot)
  }

  /** What a claim read off the clock is no later than the moment. */
  predicate ClaimsBy(step: Step, until: Time) {
    step.ClaimDue? ==> step.now <= until
  }

  lemma RestingClaims(c: Config, s: World, step: Step, id: Id, w: Worker, slot: Time, until: Time)
    requires Resting(s, id, w, slot, until) && step.ClaimDue? && ClaimsBy(step, until) && CanClaim(s, step.w, step.now, step.ids)
    ensures Resting(Next(c, s, step), id, w, slot, until)
  {
    assert id in step.ids ==> Due(s.rows[id], step.now);
    ClaimedRows(c, s.rows, step.w, step.now, step.ids, id);
    ClaimsAre(s.rows, step.ids);
    forall i | 0 <= i < |step.ids| ensures ClaimsOf(s.rows, step.ids)[i].id != id { assert step.ids[i] in step.ids; }
  }

  lemma RestingStays(c: Config, s: World, step: Step, id: Id, w: Worker, slot: Time, until: Time)
    requires Resting(s, id, w, slot, until) && ClaimsBy(step, until)
    ensures Resting(Next(c, s, step), id, w, slot, until)
    ensures var s' := Next(c, s, step); s'.fired == s.fired || (s'.fired != [] && s'.fired == s.fired + [s'.fired[|s'.fired| - 1]] && s'.fired[|s'.fired| - 1].id != id)
  {
    match step
    case ClaimDue(_, _, _) => if CanClaim(s, step.w, step.now, step.ids) { RestingClaims(c, s, step, id, w, slot, until); }
    case Fire(v, now, ok) =>
      if v in s.workers && s.workers[v].claims != [] && s.workers[v].failing.None? {
        var claims := s.workers[v].claims;
        if v == w { assert claims[0].id != id; }
        forall i | 0 <= i < |claims| - 1 && v == w ensures claims[1..][i].id != id { assert claims[i + 1].id != id; }
      }
    case _ =>
  }

  lemma {:induction false} RestingOn(c: Config, steps: seq<Step>, more: seq<Step>, id: Id, w: Worker, slot: Time, until: Time)
    requires Resting(Run(c, steps), id, w, slot, until) && forall step :: step in more ==> ClaimsBy(step, until)
    ensures Resting(Run(c, steps + more), id, w, slot, until)
    ensures Run(c, steps).fired <= Run(c, steps + more).fired
    ensures forall i :: |Run(c, steps).fired| <= i < |Run(c, steps + more).fired| ==> Run(c, steps + more).fired[i].id != id
    decreases |more|
  {
    if more == [] {
      assert steps + more == steps;
    } else {
      var n := |more| - 1;
      assert (steps + more)[..|steps + more| - 1] == steps + more[..n];
      RestingOn(c, steps, more[..n], id, w, slot, until);
      assert more[n] in more;
      RestingStays(c, Run(c, steps + more[..n]), more[n], id, w, slot, until);
    }
  }

  /** After a handler failed its slot is still waited for: whatever the workers do, as long as nobody
      claims after the pause it is neither fired nor given to anybody, and from then on to whoever comes
      first. */
  lemma FailurePauses(c: Config, steps: seq<Step>, w: Worker, now: Time, id: Id, more: seq<Step>, later: Time)
    requires Forward(c) && w in Run(c, steps).workers && Run(c, steps).workers[w].failing == Some(id) && Holds(Run(c, steps).rows, id, w)
    requires forall step :: step in more ==> ClaimsBy(step, now + c.backoff)
    ensures var s, s' := Run(c, steps), Run(c, steps + [RecordFailure(w, now)] + more);
            && s.fired <= s'.fired && (forall i :: |s.fired| <= i < |s'.fired| ==> s'.fired[i].id != id)
            && (id in s'.rows ==>
                  && s'.rows[id].nextRunAt == s.rows[id].nextRunAt
                  && (Due(s'.rows[id], later) <==> s'.rows[id].enabled && s.rows[id].nextRunAt <= later && now + c.backoff < later))
  {
    var s, recorded := Run(c, steps), steps + [RecordFailure(w, now)];
    RunKeeps(c, steps);
    RunFailsApart(c, steps, w);
    assert recorded[..|recorded| - 1] == steps;
    assert Run(c, recorded) == Recorded(c, s, w, now);
    RestingOn(c, recorded, more, id, w, s.rows[id].nextRunAt, now + c.backoff);
  }
}
