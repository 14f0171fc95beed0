/** The company's operating loop (backend/autora/company/cycle.py): one cycle at a time, five stages
    in order, each left when its work is done or its deadline has passed. */
module Cycles {
  import opened Wrappers
  import opened Tasks

  datatype Stage = Planning | Executing | Measuring | Reviewing | Done

  datatype Cycle = Cycle(number: nat, stage: Stage, startedAt: Time, deadline: Option<Time>, endedAt: Option<Time>)

  /** How long each stage may take: the source's minutes, as durations. */
  type Minutes = Stage -> int

  function Place(s: Stage): nat {
    match s case Planning => 0 case Executing => 1 case Measuring => 2 case Reviewing => 3 case Done => 4
  }

  /** The one stage that may follow: strictly forward, no branches. */
  function Following(s: Stage): Stage {
    match s case Planning => Executing case Executing => Measuring case Measuring => Reviewing case _ => Done
  }

  function NewCycle(number: nat, now: Time, minutes: Minutes): Cycle {
    Cycle(number, Planning, now, Some(now + minutes(Planning)), None)
  }

  /** Into the next stage (cycle.py:261-279). */
  function Advance(c: Cycle, now: Time, minutes: Minutes): Cycle {
    var next := Following(c.stage);
    c.(stage := next,
       deadline := if next.Done? then None else Some(now + minutes(next)),
       endedAt := if next.Done? then Some(now) else c.endedAt)
  }

  predicate Overdue(c: Cycle, now: Time) { c.deadline.Some? && now >= c.deadline.value }

  /** What the clock shows, reading by reading. */
  type Clock = nat -> Time

  /** Whether a tick stays in the stage the cycle is in, if its next reading of the clock is the `k`-th. */
  predicate Rests(c: Cycle, clock: Clock, k: nat, finished: Stage -> bool) {
    c.stage.Done? || !(Overdue(c, clock(k)) || finished(c.stage))
  }

  /** One stage after the other until the cycle rests (cycle.py:253-258). The clock is read for each
      look at a deadline and again for each move. */
  function Ticked(c: Cycle, clock: Clock, k: nat, minutes: Minutes, finished: Stage -> bool): Cycle
    decreases 4 - Place(c.stage)
  {
    if Rests(c, clock, k, finished) then c
    else Ticked(Advance(c, clock(k + 1), minutes), clock, k + 2, minutes, finished)
  }

  /** What the database enforces of a cycle, and that an open one has a deadline. */
  ghost predicate CycleOk(c: Cycle) {
    (c.stage.Done? <==> c.endedAt.Some?) && (c.stage.Done? <==> c.deadline.None?)
  }

  /** All cycles of a company, oldest first: consecutive numbers, only the last one may be open. */
  ghost predicate CyclesOk(cycles: seq<Cycle>) {
    forall k :: 0 <= k < |cycles| ==>
      cycles[k].number == k + 1 && CycleOk(cycles[k]) && (k < |cycles| - 1 ==> cycles[k].stage.Done?)
  }

  /** The stages a tick goes through, in order. */
  function Visited(c: Cycle, clock: Clock, k: nat, minutes: Minutes, finished: Stage -> bool): seq<Stage>
    decreases 4 - Place(c.stage)
  {
    if Rests(c, clock, k, finished) then []
    else [Following(c.stage)] + Visited(Advance(c, clock(k + 1), minutes), clock, k + 2, minutes, finished)
  }

  /** A tick ends with no stage overdue and none finished but the last one; it goes through the
      following stages one by one, skipping none and repeating none, and keeps the row in order. */
  lemma {:induction false} TickGoesAsFarAsItCan(c: Cycle, clock: Clock, k: nat, minutes: Minutes, finished: Stage -> bool)
    requires CycleOk(c)
    ensures var c', stages := Ticked(c, clock, k, minutes, finished), Visited(c, clock, k, minutes, finished);
            && CycleOk(c') && c'.number == c.number && c'.startedAt == c.startedAt
            && (c'.stage.Done? || (!Overdue(c', clock(k + 2 * |stages|)) && !finished(c'.stage)))
            && Place(c'.stage) == Place(c.stage) + |stages|
            && forall m :: 0 <= m < |stages| ==> Place(stages[m]) == Place(c.stage) + m + 1
    decreases 4 - Place(c.stage)
  {
    if !Rests(c, clock, k, finished) {
      var next := Advance(c, clock(k + 1), minutes);
      TickGoesAsFarAsItCan(next, clock, k + 2, minutes, finished);
      var rest := Visited(next, clock, k + 2, minutes, finished);
      forall m | 0 <= m < |rest| + 1 ensures Place(([Following(c.stage)] + rest)[m]) == Place(c.stage) + m + 1 {
        if m > 0 { assert ([Following(c.stage)] + rest)[m] == rest[m - 1]; }
      }
    }
  }

  // ---- no stage is left early ----------------------------------------------------------------

  /** A stage is left for a reason: its work is done, or a reading of the clock has come to its deadline. */
  ghost predicate MayLeave(c: Cycle, reading: Time, finished: Stage -> bool) {
    !c.stage.Done? && (finished(c.stage) || (c.deadline.Some? && c.deadline.value <= reading))
  }

  /** The row as the stage after it is entered: with what that stage may take as its deadline, or with
      its end. */
  ghost predicate EntersNext(c: Cycle, next: Cycle, reading: Time, minutes: Minutes) {
    && Place(next.stage) == Place(c.stage) + 1 && next.number == c.number && next.startedAt == c.startedAt
    && if next.stage.Done? then next.deadline == None && next.endedAt == Some(reading)
       else next.deadline == Some(reading + minutes(next.stage)) && next.endedAt == c.endedAt
  }

  /** One look at the clock before each move, one with it. */
  ghost predicate LeavesAt(path: seq<Cycle>, clock: Clock, minutes: Minutes, finished: Stage -> bool, m: nat) {
    m + 1 < |path| && MayLeave(path[m], clock(2 * m), finished) && EntersNext(path[m], path[m + 1], clock(2 * m + 1), minutes)
  }

  /** The rows of a tick, from the first to the last: each leaves its stage for a reason, and the last one
      has none. */
  ghost predicate IsTick(path: seq<Cycle>, clock: Clock, minutes: Minutes, finished: Stage -> bool) {
    && path != []
    && (forall m: nat {:trigger LeavesAt(path, clock, minutes, finished, m)} :: m + 1 < |path| ==> LeavesAt(path, clock, minutes, finished, m))
    && !MayLeave(path[|path| - 1], clock(2 * (|path| - 1)), finished)
  }

  function After2(clock: Clock): Clock { (n: nat) => clock(n + 2) }

  lemma {:induction false} TickedFrom(c: Cycle, clock: Clock, k: nat, minutes: Minutes, finished: Stage -> bool)
    ensures Ticked(c, clock, k + 2, minutes, finished) == Ticked(c, After2(clock), k, minutes, finished)
    ensures Visited(c, clock, k + 2, minutes, finished) == Visited(c, After2(clock), k, minutes, finished)
    decreases 4 - Place(c.stage)
  {
    if !Rests(c, clock, k + 2, finished) { TickedFrom(Advance(c, clock(k + 3), minutes), clock, k + 2, minutes, finished); }
  }

  lemma TickStarts(c: Cycle, next: Cycle, rest: seq<Cycle>, clock: Clock, minutes: Minutes, finished: Stage -> bool)
    requires IsTick(rest, After2(clock), minutes, finished) && rest[0] == next
    requires MayLeave(c, clock(0), finished) && EntersNext(c, next, clock(1), minutes)
    ensures IsTick([c] + rest, clock, minutes, finished)
  {
    var path := [c] + rest;
    forall m: nat {:trigger LeavesAt(path, clock, minutes, finished, m)} | m + 1 < |path| ensures LeavesAt(path, clock, minutes, finished, m) {
      if m > 0 { assert LeavesAt(rest, After2(clock), minutes, finished, m - 1); }
    }
    assert After2(clock)(2 * (|rest| - 1)) == clock(2 * (|path| - 1));
  }

  /** A tick takes the open cycle from stage to stage, each left only when its work was done or a reading
      of the clock was at or past its deadline, to a stage of which neither is so. */
  lemma {:induction false} TickHasReasons(c: Cycle, clock: Clock, minutes: Minutes, finished: Stage -> bool) returns (path: seq<Cycle>)
    requires CycleOk(c)
    ensures IsTick(path, clock, minutes, finished) && path[0] == c && path[|path| - 1] == Ticked(c, clock, 0, minutes, finished)
    decreases 4 - Place(c.stage)
  {
    if Rests(c, clock, 0, finished) {
      path := [c];
    } else {
      var next := Advance(c, clock(1), minutes);
      TickedFrom(next, clock, 0, minutes, finished);
      var rest := TickHasReasons(next, After2(clock), minutes, finished);
      TickStarts(c, next, rest, clock, minutes, finished);
      path := [c] + rest;
    }
  }

  /** What the stages up to `s` take together. */
  function Together(minutes: Minutes, s: Stage): int {
    match s
    case Planning => minutes(Planning)
    case Executing => minutes(Planning) + minutes(Executing)
    case Measuring => minutes(Planning) + minutes(Executing) + minutes(Measuring)
    case _ => minutes(Planning) + minutes(Executing) + minutes(Measuring) + minutes(Reviewing)
  }

  /** Neither is the current stage due, nor has the cycle ended, before the stages so far had their time. */
  ghost predicate NotEarly(c: Cycle, start: Time, minutes: Minutes) {
    && CycleOk(c)
    && (c.deadline.Some? ==> c.deadline.value >= start + Together(minutes, c.stage))
    && (c.endedAt.Some? ==> c.endedAt.value >= start + Together(minutes, Reviewing))
  }

  /** The clock does not go back between a reading and the next one. */
  predicate NotBack(clock: Clock, k: nat) { clock(k) <= clock(k + 1) }

  ghost predicate GoesForward(clock: Clock) {
    forall k: nat {:trigger NotBack(clock, k)} :: NotBack(clock, k)
  }

  lemma AdvanceIsNotEarly(c: Cycle, start: Time, reading: Time, minutes: Minutes)
    requires NotEarly(c, start, minutes) && !c.stage.Done? && c.deadline.value <= reading
    ensures NotEarly(Advance(c, reading, minutes), start, minutes)
  {
  }

  lemma {:induction false} TickIsNotEarly(c: Cycle, start: Time, clock: Clock, k: nat, minutes: Minutes, finished: Stage -> bool)
    requires NotEarly(c, start, minutes) && GoesForward(clock) && forall s :: !finished(s)
    ensures NotEarly(Ticked(c, clock, k, minutes, finished), start, minutes)
    decreases 4 - Place(c.stage)
  {
    if !Rests(c, clock, k, finished) {
      assert NotBack(clock, k) && !finished(c.stage);
      AdvanceIsNotEarly(c, start, clock(k + 1), minutes);
      TickIsNotEarly(Advance(c, clock(k + 1), minutes), start, clock, k + 2, minutes, finished);
    }
  }

  lemma {:induction false} TicksAreNotEarly(start: Time, ticks: seq<Clock>, minutes: Minutes, finished: nat -> Stage -> bool, number: nat)
    requires forall clock :: clock in ticks ==> GoesForward(clock)
    requires forall n, s :: !finished(n)(s)
    ensures NotEarly(AfterTicks(NewCycle(number, start, minutes), ticks, minutes, finished), start, minutes)
    decreases |ticks|
  {
    if ticks != [] {
      var k := |ticks| - 1;
      assert ticks[k] in ticks;
      TicksAreNotEarly(start, ticks[..k], minutes, finished, number);
      TickIsNotEarly(AfterTicks(NewCycle(number, start, minutes), ticks[..k], minutes, finished), start, ticks[k], 0, minutes, finished(k));
    }
  }

  /** As long as nothing is finished, however often the cycle is ticked, it is in no stage past its
      start before the stages before that one had their minutes, and not DONE before all four had. */
  lemma CycleIsNotDoneEarly(start: Time, ticks: seq<Clock>, minutes: Minutes, finished: nat -> Stage -> bool, number: nat)
    requires forall clock :: clock in ticks ==> GoesForward(clock)
    requires forall n, s :: !finished(n)(s)
    ensures var c := AfterTicks(NewCycle(number, start, minutes), ticks, minutes, finished);
            && (c.stage.Done? ==> c.endedAt.Some? && c.endedAt.value >= start + minutes(Planning) + minutes(Executing) + minutes(Measuring) + minutes(Reviewing))
            && (!c.stage.Done? ==> c.deadline.Some? && c.deadline.value >= start + Together(minutes, c.stage))
  {
    TicksAreNotEarly(start, ticks, minutes, finished, number);
  }

  // ---- a cycle is done in time ---------------------------------------------------------------

  function AtLeast0(m: int): nat { if m < 0 then 0 else m }

  /** The minutes of the stages up to `s`. */
  function SumUpTo(minutes: Minutes, s: Stage): nat {
    match s
    case Planning => AtLeast0(minutes(Planning))
    case Executing => AtLeast0(minutes(Planning)) + AtLeast0(minutes(Executing))
    case Measuring => AtLeast0(minutes(Planning)) + AtLeast0(minutes(Executing)) + AtLeast0(minutes(Measuring))
    case _ => AtLeast0(minutes(Planning)) + AtLeast0(minutes(Executing)) + AtLeast0(minutes(Measuring)) + AtLeast0(minutes(Reviewing))
  }

  /** The current stage's deadline is at most the time its predecessors and it may take, plus one
      tick's delay for each stage that was left. */
  ghost predicate OnTime(c: Cycle, start: Time, minutes: Minutes, delta: nat) {
    c.deadline.Some? ==> c.deadline.value <= start + SumUpTo(minutes, c.stage) + Place(c.stage) * delta
  }

  ghost predicate ReadsWithin(clock: Clock, from: Time, to: Time) {
    forall k {:trigger clock(k)} :: from <= clock(k) <= to
  }

  lemma {:induction false} TickStaysOnTime(c: Cycle, start: Time, clock: Clock, k: nat, minutes: Minutes, finished: Stage -> bool,
                                           delta: nat, from: Time, to: Time)
    requires CycleOk(c) && OnTime(c, start, minutes, delta) && ReadsWithin(clock, from, to)
    requires c.stage.Done? || to <= start + SumUpTo(minutes, c.stage) + Place(c.stage) * delta + delta
    ensures OnTime(Ticked(c, clock, k, minutes, finished), start, minutes, delta)
    decreases 4 - Place(c.stage)
  {
    if !Rests(c, clock, k, finished) {
      var next := Advance(c, clock(k + 1), minutes);
      assert Place(next.stage) * delta == Place(c.stage) * delta + delta;
      TickStaysOnTime(next, start, clock, k + 2, minutes, finished, delta, from, to);
    }
  }

  /** The cycle after some ticks; what is finished at each of them is up to the world. */
  function AfterTicks(c: Cycle, ticks: seq<Clock>, minutes: Minutes, finished: nat -> Stage -> bool): Cycle {
    if ticks == [] then c
    else Ticked(AfterTicks(c, ticks[..|ticks| - 1], minutes, finished), ticks[|ticks| - 1], 0, minutes, finished(|ticks| - 1))
  }

  /** From the beginning of each tick, or of the cycle, to the end of the next tick it is at most `delta`. */
  ghost predicate Regular(start: Time, ticks: seq<Clock>, delta: nat) {
    forall k {:trigger NextInTime(start, ticks, delta, k)} :: 0 <= k < |ticks| ==> NextInTime(start, ticks, delta, k)
  }

  ghost predicate NextInTime(start: Time, ticks: seq<Clock>, delta: nat, k: int) {
    && 0 <= k < |ticks|
    && var before := if k == 0 then start else ticks[k - 1](0);
       before <= ticks[k](0) && ReadsWithin(ticks[k], ticks[k](0), before + delta)
  }

  lemma RegularPrefix(start: Time, ticks: seq<Clock>, delta: nat, k: nat)
    requires Regular(start, ticks, delta) && k <= |ticks|
    ensures Regular(start, ticks[..k], delta)
  {
    forall i {:trigger NextInTime(start, ticks[..k], delta, i)} | 0 <= i < k ensures NextInTime(start, ticks[..k], delta, i) {
      assert NextInTime(start, ticks, delta, i);
    }
  }

  /** One more tick, over within `delta` of a moment at which the cycle was on time. */
  lemma OneTickStaysOnTime(c: Cycle, start: Time, clock: Clock, minutes: Minutes, finished: Stage -> bool, delta: nat, before: Time)
    requires CycleOk(c) && OnTime(c, start, minutes, delta) && ReadsWithin(clock, clock(0), before + delta)
    requires c.stage.Done? || before <= start + SumUpTo(minutes, c.stage) + Place(c.stage) * delta
    ensures var c' := Ticked(c, clock, 0, minutes, finished);
            && CycleOk(c') && OnTime(c', start, minutes, delta) && (c'.stage.Done? || clock(0) < c'.deadline.value)
  {
    TickStaysOnTime(c, start, clock, 0, minutes, finished, delta, clock(0), before + delta);
    TickGoesAsFarAsItCan(c, clock, 0, minutes, finished);
    assert clock(0) <= clock(0 + 2 * |Visited(c, clock, 0, minutes, finished)|);
  }

  lemma {:induction false} TicksStayOnTime(start: Time, ticks: seq<Clock>, minutes: Minutes, finished: nat -> Stage -> bool, delta: nat, number: nat)
    requires Regular(start, ticks, delta)
    ensures var c := AfterTicks(NewCycle(number, start, minutes), ticks, minutes, finished);
            && CycleOk(c) && OnTime(c, start, minutes, delta)
            && (c.stage.Done? || ticks == [] || ticks[|ticks| - 1](0) < c.deadline.value)
  {
    if ticks != [] {
      var k := |ticks| - 1;
      RegularPrefix(start, ticks, delta, k);
      assert NextInTime(start, ticks, delta, k);
      TicksStayOnTime(start, ticks[..k], minutes, finished, delta, number);
      var c := AfterTicks(NewCycle(number, start, minutes), ticks[..k], minutes, finished);
      assert k > 0 ==> ticks[..k][k - 1] == ticks[k - 1];
      OneTickStaysOnTime(c, start, ticks[k], minutes, finished(k), delta, if k == 0 then start else ticks[k - 1](0));
    }
  }

  /** With ticks at most `delta` apart, their own length included, that go on that long, whatever
      hangs, a cycle is DONE within the minutes of its four stages plus four times `delta` of its start. */
  lemma CycleIsDoneInTime(start: Time, ticks: seq<Clock>, minutes: Minutes, finished: nat -> Stage -> bool, delta: nat, number: nat)
    requires Regular(start, ticks, delta)
    requires ticks != [] && ticks[|ticks| - 1](0) >= start + SumUpTo(minutes, Reviewing) + 3 * delta
    ensures exists k :: 0 < k <= |ticks| && ReadsWithin(ticks[k - 1], start, start + SumUpTo(minutes, Reviewing) + 4 * delta)
              && AfterTicks(NewCycle(number, start, minutes), ticks[..k], minutes, finished).stage.Done?
  {
    var bound := start + SumUpTo(minutes, Reviewing) + 3 * delta;
    var k := FirstAtLeast(ticks, bound, |ticks|);
    RegularPrefix(start, ticks, delta, k);
    TicksComeLater(start, ticks, delta, k - 1);
    TicksStayOnTime(start, ticks[..k], minutes, finished, delta, number);
    var c := AfterTicks(NewCycle(number, start, minutes), ticks[..k], minutes, finished);
    StageBounds(minutes, c.stage, delta);
  }

  lemma {:induction false} TicksComeLater(start: Time, ticks: seq<Clock>, delta: nat, k: nat)
    requires Regular(start, ticks, delta) && k < |ticks|
    ensures start <= ticks[k](0) && ReadsWithin(ticks[k], start, (if k == 0 then start else ticks[k - 1](0)) + delta)
  {
    assert NextInTime(start, ticks, delta, k);
    if k > 0 { TicksComeLater(start, ticks, delta, k - 1); }
  }

  lemma StageBounds(minutes: Minutes, s: Stage, delta: nat)
    ensures SumUpTo(minutes, s) <= SumUpTo(minutes, Reviewing)
    ensures !s.Done? ==> Place(s) * delta <= 3 * delta
  {
  }

  lemma {:induction false} FirstAtLeast(ticks: seq<Clock>, bound: int, n: nat) returns (k: nat)
    requires 0 < n <= |ticks| && ticks[n - 1](0) >= bound
    ensures 0 < k <= n && ticks[k - 1](0) >= bound && (k > 1 ==> ticks[k - 2](0) < bound)
  {
    if n > 1 && ticks[n - 2](0) >= bound { k := FirstAtLeast(ticks, bound, n - 1); } else { k := n; }
  }

  /** On its way from `first`, through the stages `seen`, a tick has come to `cycle`. */
  ghost predicate Came(first: Cycle, cycle: Cycle, clock: Clock, k: nat, minutes: Minutes, finished: Stage -> bool, seen: seq<Stage>) {
    && CycleOk(cycle) && cycle.number == first.number && Place(cycle.stage) == Place(first.stage) + |seen|
    && Ticked(cycle, clock, k, minutes, finished) == Ticked(first, clock, 0, minutes, finished)
    && Visited(first, clock, 0, minutes, finished) == seen + Visited(cycle, clock, k, minutes, finished)
  }

  lemma CameFurther(first: Cycle, cycle: Cycle, clock: Clock, k: nat, minutes: Minutes, finished: Stage -> bool, seen: seq<Stage>)
    requires Came(first, cycle, clock, k, minutes, finished, seen) && !Rests(cycle, clock, k, finished)
    ensures Came(first, Advance(cycle, clock(k + 1), minutes), clock, k + 2, minutes, finished, seen + [Following(cycle.stage)])
    ensures Following(cycle.stage) in Visited(first, clock, 0, minutes, finished)
  {
    var entered, rest := Following(cycle.stage), Visited(Advance(cycle, clock(k + 1), minutes), clock, k + 2, minutes, finished);
    assert seen + ([entered] + rest) == (seen + [entered]) + rest;
    assert (seen + ([entered] + rest))[|seen|] == entered;
  }

  // ---- the runner ----------------------------------------------------------------------------

  /** One company's cycle rows. A tick whose stage hook fails is rolled back as a whole. */
  class CycleRunner {
    var cycles: seq<Cycle>

    ghost predicate Valid()
      reads this
    {
      CyclesOk(cycles)
    }

    constructor ()
      ensures Valid() && cycles == []
    {
      cycles := [];
    }

    /** The open cycle of largest number (cycle.py:336-347). */
    method OpenCycle() returns (k: Option<nat>)
      requires Valid()
      ensures k == if cycles != [] && !cycles[|cycles| - 1].stage.Done? then Some(|cycles| - 1) else None
    {
      var i: int := |cycles|;
      while i > 0
        invariant 0 <= i <= |cycles|
        invariant forall j :: i <= j < |cycles| ==> cycles[j].stage.Done?
      {
        i := i - 1;
        if !cycles[i].stage.Done? { return Some(i); }
      }
      k := None;
    }

    /** Open the next cycle, unless one is open; nothing is opened when the hook on PLANNING fails
        (cycle.py:186-223). */
    method Start(now: Time, minutes: Minutes, hookFails: bool) returns (started: Option<bool>)
      requires Valid()
      modifies this
      ensures Valid()
      ensures started == if old(cycles) != [] && !old(cycles)[|old(cycles)| - 1].stage.Done? then Some(false)
                         else if hookFails then None else Some(true)
      ensures cycles == if started == Some(true) then old(cycles) + [NewCycle(|old(cycles)| + 1, now, minutes)] else old(cycles)
    {
      var open := OpenCycle();
      if open.Some? { return Some(false); }
      if hookFails { return None; }
      cycles := cycles + [NewCycle(|cycles| + 1, now, minutes)];
      started := Some(true);
    }

    /** Take the open cycle through every stage that is over (cycle.py:243-259). */
    method Tick(clock: Clock, minutes: Minutes, finished: Stage -> bool, hookFails: Stage -> bool) returns (moved: Option<bool>)
      requires Valid()
      modifies this
      ensures Valid() && |cycles| == |old(cycles)|
      ensures moved.None? ==> cycles == old(cycles)
      ensures moved.None? ==> cycles != [] && exists s :: s in Visited(cycles[|cycles| - 1], clock, 0, minutes, finished) && hookFails(s)
      ensures moved == Some(false) ==> cycles == old(cycles)
      ensures moved.Some? && cycles != [] && !old(cycles)[|cycles| - 1].stage.Done? ==>
                && cycles == old(cycles)[|cycles| - 1 := Ticked(old(cycles)[|cycles| - 1], clock, 0, minutes, finished)]
                && forall s :: s in Visited(old(cycles)[|cycles| - 1], clock, 0, minutes, finished) ==> !hookFails(s)
      ensures moved == Some(true) <==> moved.Some? && cycles != old(cycles)
      ensures old(cycles) != [] ==>
                var c := old(cycles)[|old(cycles)| - 1];
                (!finished(c.stage) && c.deadline.Some? && clock(0) < c.deadline.value ==> moved == Some(false))
    {
      var open := OpenCycle();
      if open.None? { return Some(false); }
      ghost var first := cycles[open.value];
      var cycle, any, k := cycles[open.value], false, 0;
      ghost var seen: seq<Stage> := [];
      while !cycle.stage.Done? && (Overdue(cycle, clock(k)) || finished(cycle.stage))
        invariant cycles == old(cycles) && k >= 0 && Came(first, cycle, clock, k, minutes, finished, seen)
        invariant any <==> seen != []
        invariant forall s :: s in seen ==> !hookFails(s)
        decreases 4 - Place(cycle.stage)
      {
        var entered := Following(cycle.stage);
        CameFurther(first, cycle, clock, k, minutes, finished, seen);
        if hookFails(entered) { return None; }
        cycle, any, k := Advance(cycle, clock(k + 1), minutes), true, k + 2;
        seen := seen + [entered];
      }
      assert seen == Visited(first, clock, 0, minutes, finished);
      cycles := cycles[open.value := cycle];
      moved := Some(any);
    }
  }
}
