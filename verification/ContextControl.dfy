/**
 Context control: before a turn starts, the provider's context is compacted, the batch shrunk or the session rolled
 over until the projection is at most half the window. Every control is bounded per planning key.
 */
module ContextControl {
  import opened Prelude
  import opened Planner

  type Key = string

  const OUTPUT_RESERVE: nat := 4_096
  const MAX_DECISIONS: nat := 12

  datatype Snapshot = Snapshot(used: nat, window: nat)

  datatype Candidate = Candidate(key: Key, batch: int, wrapper: int, reserve: int, minimum: int)

  datatype Outcome = Admit | Replan | Shrink | Rollover | Degraded

  datatype Decision = Decision(outcome: Outcome, candidate: Candidate, snapshot: Snapshot, projected: int)

  /** A control operation asked of the provider, and whether it completed. */
  datatype Action = Compaction(key: Key, ok: bool) | SessionRollover(key: Key, ok: bool)

  function Projection(s: Snapshot, c: Candidate): int {
    s.used + c.batch + c.wrapper + c.reserve
  }

  function SoftTarget(s: Snapshot): nat {
    s.window / 2
  }

  /** The smallest the projection can get by giving messages back. */
  function Floor(s: Snapshot, c: Candidate): int {
    s.used + c.wrapper + c.reserve + if c.minimum > 0 then c.minimum else 0
  }

  function Compactions(log: seq<Action>, key: Key): nat {
    if log == [] then 0
    else
      var last := log[|log| - 1];
      Compactions(log[..|log| - 1], key) + if last.Compaction? && last.key == key then 1 else 0
  }

  function Rollovers(log: seq<Action>, key: Key): nat {
    if log == [] then 0
    else
      var last := log[|log| - 1];
      Rollovers(log[..|log| - 1], key) + if last.SessionRollover? && last.key == key then 1 else 0
  }

  lemma CountAppended(log: seq<Action>, action: Action)
    ensures forall key :: Compactions(log + [action], key) ==
                          Compactions(log, key) + if action.Compaction? && action.key == key then 1 else 0
    ensures forall key :: Rollovers(log + [action], key) ==
                          Rollovers(log, key) + if action.SessionRollover? && action.key == key then 1 else 0
  {
    assert (log + [action])[..|log|] == log;
  }

  function Failures(failed: map<Key, nat>, key: Key): nat {
    if key in failed then failed[key] else 0
  }

  /** The controller's three tables account for exactly the operations in the log under this key. */
  ghost predicate Account(log: seq<Action>, succeeded: set<Key>, failed: map<Key, nat>, rolled: set<Key>, key: Key) {
    && Compactions(log, key) == Failures(failed, key) + (if key in succeeded then 1 else 0)
    && Failures(failed, key) <= (if key in succeeded then 1 else 2)
    && Rollovers(log, key) == if key in rolled then 1 else 0
  }

  ghost predicate Accounts(log: seq<Action>, succeeded: set<Key>, failed: map<Key, nat>, rolled: set<Key>) {
    forall key :: Account(log, succeeded, failed, rolled, key)
  }

  /** At most two compactions and one rollover were asked for, per planning key, over the whole log. */
  ghost predicate Bounded(log: seq<Action>) {
    forall key :: Compactions(log, key) <= 2 && Rollovers(log, key) <= 1
  }

  lemma AccountsAreBounded(log: seq<Action>, succeeded: set<Key>, failed: map<Key, nat>, rolled: set<Key>)
    requires Accounts(log, succeeded, failed, rolled)
    ensures Bounded(log)
  {
    forall key ensures Compactions(log, key) <= 2 && Rollovers(log, key) <= 1 {
      assert Account(log, succeeded, failed, rolled, key);
    }
  }

  lemma CompactionKeepsAccounts(log: seq<Action>, succeeded: set<Key>, failed: map<Key, nat>, rolled: set<Key>,
      key: Key)
    requires Accounts(log, succeeded, failed, rolled) && key !in succeeded && Failures(failed, key) < 2
    ensures Accounts(log + [Compaction(key, true)], succeeded + {key}, failed, rolled)
    ensures Accounts(log + [Compaction(key, false)], succeeded, failed[key := Failures(failed, key) + 1], rolled)
  {
    CountAppended(log, Compaction(key, true));
    CountAppended(log, Compaction(key, false));
    forall k ensures Account(log + [Compaction(key, true)], succeeded + {key}, failed, rolled, k) {
      assert Account(log, succeeded, failed, rolled, k);
    }
    var failed' := failed[key := Failures(failed, key) + 1];
    forall k ensures Account(log + [Compaction(key, false)], succeeded, failed', rolled, k) {
      assert Account(log, succeeded, failed, rolled, k);
    }
  }

  lemma RolloverKeepsAccounts(log: seq<Action>, succeeded: set<Key>, failed: map<Key, nat>, rolled: set<Key>, key: Key,
      ok: bool)
    requires Accounts(log, succeeded, failed, rolled) && key !in rolled
    ensures Accounts(log + [SessionRollover(key, ok)], succeeded, failed, rolled + {key})
  {
    CountAppended(log, SessionRollover(key, ok));
    forall k ensures Account(log + [SessionRollover(key, ok)], succeeded, failed, rolled + {key}, k) {
      assert Account(log, succeeded, failed, rolled, k);
    }
  }

  /** Only operations under this key were added. */
  ghost predicate Extends(was: seq<Action>, now: seq<Action>, key: Key) {
    was <= now && forall i :: |was| <= i < |now| ==> now[i].key == key
  }

  class ContextController {
    var succeeded: set<Key>
    var failed: map<Key, nat>
    var rolled: set<Key>
    /** Every control operation the provider was ever asked for. */
    ghost var log: seq<Action>

    ghost predicate Valid()
      reads this
    {
      Accounts(log, succeeded, failed, rolled)
    }

    constructor ()
      ensures Valid() && succeeded == {} && failed == map[] && rolled == {} && log == []
    {
      succeeded, failed, rolled, log := {}, map[], {}, [];
    }

    ghost predicate CanCompact(key: Key)
      reads this
    {
      key !in succeeded && Failures(failed, key) < 2
    }

    /** The compaction loop: ask until one completes or two have failed. */
    method Compact(key: Key, able: bool) returns (compacted: bool)
      requires Valid()
      modifies this
      ensures Valid() && rolled == old(rolled)
      ensures compacted ==> able && old(CanCompact(key)) && succeeded == old(succeeded) + {key}
      ensures !compacted ==> succeeded == old(succeeded) && (able ==> !CanCompact(key))
      ensures !able || !old(CanCompact(key)) ==> log == old(log)
      ensures Extends(old(log), log, key)
    {
      compacted := false;
      while able && key !in succeeded && Failures(failed, key) < 2
        invariant Valid() && rolled == old(rolled) && succeeded == old(succeeded)
        invariant Failures(failed, key) >= Failures(old(failed), key)
        invariant !able || !old(CanCompact(key)) ==> log == old(log)
        invariant Extends(old(log), log, key)
        decreases 2 - Failures(failed, key)
      {
        var completed: bool := *;
        CompactionKeepsAccounts(log, succeeded, failed, rolled, key);
        log := log + [Compaction(key, completed)];
        if completed {
          succeeded := succeeded + {key};
          return true;
        }
        failed := failed[key := Failures(failed, key) + 1];
      }
    }

    /**
     One decision. `snapshot` is what the provider reports first, `replacement` what replanning would give, and the
     refreshed snapshots are arbitrary.
     */
    method Decide(candidate: Candidate, snapshot: Snapshot, canCompact: bool, canRoll: bool, replacement: Candidate)
      returns (d: Decision)
      requires Valid()
      modifies this
      ensures Valid() && Bounded(log)
      ensures Extends(old(log), log, candidate.key)
      ensures d.projected == Projection(d.snapshot, d.candidate)
      ensures d.outcome == Admit <==> Projection(snapshot, candidate) <= SoftTarget(snapshot)
      ensures d.outcome == Admit ==> d.candidate == candidate && d.snapshot == snapshot && log == old(log)
      ensures d.outcome == Replan <==> succeeded != old(succeeded)
      ensures d.outcome == Replan ==> d.candidate == replacement && canCompact && candidate.key !in old(succeeded)
      ensures d.outcome == Replan ==> succeeded == old(succeeded) + {candidate.key}
      ensures d.outcome == Shrink ==>
                && Projection(d.snapshot, d.candidate) <= SoftTarget(d.snapshot) && d.snapshot == snapshot
                && d.candidate.batch < candidate.batch && d.candidate == candidate.(batch := d.candidate.batch)
      ensures d.outcome == Shrink ==> Floor(snapshot, candidate) <= SoftTarget(snapshot)
      ensures d.outcome == Rollover ==>
                && d.candidate == candidate && canRoll && candidate.key !in old(rolled)
                && Floor(snapshot, candidate) > SoftTarget(snapshot)
      ensures rolled == old(rolled) || (d.outcome in {Rollover, Degraded} && rolled == old(rolled) + {candidate.key})
      ensures d.outcome == Rollover ==> candidate.key in rolled
      ensures d.outcome in {Shrink, Rollover, Degraded} ==> canCompact ==> !CanCompact(candidate.key)
      ensures d.outcome == Degraded ==>
                && Floor(snapshot, candidate) > SoftTarget(snapshot) && (canRoll ==> candidate.key in rolled)
                && d.candidate == candidate && d.snapshot == snapshot
    {
      AccountsAreBounded(log, succeeded, failed, rolled);
      var projected := Projection(snapshot, candidate);
      if projected <= SoftTarget(snapshot) {
        return Decision(Admit, candidate, snapshot, projected);
      }
      var key := candidate.key;
      var compacted := Compact(key, canCompact);
      AccountsAreBounded(log, succeeded, failed, rolled);
      if compacted {
        var refreshed: Snapshot := *;
        return Decision(Replan, replacement, refreshed, Projection(refreshed, replacement));
      }
      var target := SoftTarget(snapshot);
      var fixed := snapshot.used + candidate.wrapper + candidate.reserve;
      var minimum := if candidate.minimum > 0 then candidate.minimum else 0;
      if fixed + minimum <= target && candidate.batch > minimum {
        var shrunk := candidate.(batch := minimum);
        return Decision(Shrink, shrunk, snapshot, Projection(snapshot, shrunk));
      }
      if canRoll && key !in rolled && fixed + minimum > target {
        var completed: bool := *;
        RolloverKeepsAccounts(log, succeeded, failed, rolled, key, completed);
        rolled, log := rolled + {key}, log + [SessionRollover(key, completed)];
        AccountsAreBounded(log, succeeded, failed, rolled);
        if completed {
          var refreshed: Snapshot := *;
          return Decision(Rollover, candidate, refreshed, Projection(refreshed, candidate));
        }
      }
      return Decision(Degraded, candidate, snapshot, projected);
    }
  }

  // ------------------------------------------------------------ the decision loop

  /** A planned turn; a notice turn carries no items. */
  datatype Turn = Turn(key: Key, items: seq<Item>, tokens: int, wrapper: int)

  function CandidateOf(t: Turn, cost: Costing): Candidate {
    Candidate(t.key, t.tokens, t.wrapper, OUTPUT_RESERVE, if t.items == [] then 0 else cost(t.items[0]).bytes)
  }

  /** What may still happen under this key: one compaction, one rollover, one message given back at a time. */
  function Left(succeeded: set<Key>, rolled: set<Key>, key: Key, items: nat): nat {
    (if key in succeeded then 0 else 1) + (if key in rolled then 0 else 1) + items
  }

  /** The turn's oldest message fits alone, as it does in every batch the planner makes. */
  predicate HeadFits(items: seq<Item>, cost: Costing) {
    items == [] || Fits([items[0]], cost)
  }

  /** From a planned batch the loop only ever moves to shorter prefixes of it. */
  ghost predicate Tame(planned: seq<Item>, now: seq<Item>, cost: Costing) {
    HeadFits(planned, cost) ==> HeadFits(now, cost) && (Distinct(Ids(planned)) ==> now <= planned)
  }

  /** Give back the newest message and plan again under the same key. */
  method ShrinkTurn(t: Turn, durable: seq<Item>, cost: Costing, wrap: Wrapping)
    returns (r: Option<Turn>, durable': seq<Item>)
    requires t.items != []
    ensures (durable' == durable || |durable'| < |durable|) && (HeadFits(t.items, cost) ==> durable' == durable)
    ensures r.Some? ==> r.value.key == t.key && HeadFits(r.value.items, cost)
    ensures r.Some? && durable' == durable ==>
        r.value.items <= Unique(t.items[..|t.items| - 1]) && |r.value.items| < |t.items|
  {
    var fewer := t.items[..|t.items| - 1];
    var plan, rows, gone, universe, kept := PlanBoundedBatch(fewer, None, durable, cost, wrap);
    durable' := rows;
    NothingGone(durable);
    if !plan.Planned? {
      return None, durable';
    }
    var batch := plan.batch;
    var around := wrap(batch.items, batch.pendingTargets, batch.more);
    assert HeadFits(batch.items, cost) by {
      PrefixFits(batch.items, cost, 1, |batch.items|);
      assert batch.items[..|batch.items|] == batch.items && batch.items[..1] == [batch.items[0]];
    }
    UniqueIsShorter(fewer);
    return Some(Turn(t.key, batch.items, batch.tokens, around.tokens)), durable';
  }

  /** How one pass of the decision loop ends. */
  datatype Resolution = Settled(turn: Turn) | GivenUp | Again(turn: Turn)

  /** The turn stays, becomes a notice, or gives messages back. */
  ghost predicate Moves(was: Turn, now: Turn) {
    && now.key == was.key
    && (now.items == was.items || now.items == []
        || (was.items != [] && now.items <= Unique(was.items[..|was.items| - 1]) && |now.items| < |was.items|))
  }

  /** One decision and what the runtime makes of it. Going on always uses something up. */
  method DecideOnce(
    controller: ContextController, turn: Turn, durable: seq<Item>, cost: Costing, wrap: Wrapping, rolloverSeen: bool)
    returns (r: Resolution, durable': seq<Item>, rolloverSeen': bool, ghost snapshot: Snapshot)
    requires controller.Valid() && (rolloverSeen ==> turn.key in controller.rolled)
    modifies controller
    ensures controller.Valid() && Bounded(controller.log) && (rolloverSeen' ==> turn.key in controller.rolled)
    ensures old(controller.succeeded) <= controller.succeeded && old(controller.rolled) <= controller.rolled
    ensures r.Settled? ==> r.turn == turn && Projection(snapshot, CandidateOf(turn, cost)) <= SoftTarget(snapshot)
    ensures HeadFits(turn.items, cost) ==> durable' == durable && (r.Again? ==> HeadFits(r.turn.items, cost))
    ensures r.Again? ==> r.turn.key == turn.key && (durable' == durable ==> Moves(turn, r.turn))
    ensures r.Again? ==>
              || (turn.key !in old(controller.succeeded) && turn.key in controller.succeeded)
              || (turn.key !in old(controller.rolled) && turn.key in controller.rolled && r.turn == turn)
              || |durable'| < |durable|
              || (durable' == durable && |r.turn.items| < |turn.items|)
    ensures durable' == durable || |durable'| < |durable|
  {
    durable', rolloverSeen' := durable, rolloverSeen;
    var measured: Snapshot := *;
    snapshot := measured;
    var canCompact: bool, canRoll: bool, notice: Option<int> := *, *, *;
    var replacement := if notice.Some? then Turn(turn.key, [], 0, notice.value) else turn;
    var asked, instead := CandidateOf(turn, cost), CandidateOf(replacement, cost);
    var d := controller.Decide(asked, measured, canCompact, canRoll, instead);
    match d.outcome {
      case Admit =>
        r := Settled(turn);
      case Replan =>
        r := Again(replacement);
      case Shrink =>
        if |turn.items| <= 1 {
          r := GivenUp;
        } else {
          var fewer, rows := ShrinkTurn(turn, durable, cost, wrap);
          durable' := rows;
          r := if fewer.Some? then Again(fewer.value) else GivenUp;
        }
      case Rollover =>
        if rolloverSeen {
          // A second rollover under one key never completes.
          assert false;
        }
        rolloverSeen' := true;
        r := Again(turn);
      case Degraded =>
        r := GivenUp;
    }
  }

  lemma MovesLeaveLess(
    planned: seq<Item>, was: Turn, now: Turn, cost: Costing,
    succeeded: set<Key>, succeeded': set<Key>, rolled: set<Key>, rolled': set<Key>)
    requires Moves(was, now) && Tame(planned, was.items, cost)
        && (HeadFits(was.items, cost) ==> HeadFits(now.items, cost))
    requires succeeded <= succeeded' && rolled <= rolled'
    requires || (was.key !in succeeded && was.key in succeeded')
             || (was.key !in rolled && was.key in rolled')
             || |now.items| < |was.items|
    ensures Tame(planned, now.items, cost)
    ensures Left(succeeded', rolled', now.key, |now.items|) < Left(succeeded, rolled, was.key, |was.items|)
  {
    if now.items != was.items && now.items != [] && HeadFits(planned, cost) {
      ShrunkIsTame(planned, was.items, now.items, cost);
    }
  }

  /**
   Decide until the turn is admitted or given up. The loop ends without any budget: each pass uses up the key's
   compaction or its rollover, quarantines a row, or gives a message back. With a budget it gives up no later.
   */
  method ResolveContextPlan(
    controller: ContextController, planned: Turn, durable: seq<Item>, cost: Costing, wrap: Wrapping,
        budget: Option<nat>)
    returns (r: Option<Turn>, durable': seq<Item>, decisions: nat, exhausted: bool, ghost last: Snapshot)
    requires controller.Valid()
    modifies controller
    ensures controller.Valid() && Bounded(controller.log)
    ensures r.Some? ==> Projection(last, CandidateOf(r.value, cost)) <= SoftTarget(last) && r.value.key == planned.key
    ensures exhausted ==> r.None? && budget == Some(decisions)
    ensures HeadFits(planned.items, cost) ==>
              && decisions <= old(Left(controller.succeeded, controller.rolled, planned.key, |planned.items|)) + 1
              && (exhausted ==> budget.value <= |planned.items| + 2)
              && (budget == Some(MAX_DECISIONS) && |planned.items| + 2 < MAX_DECISIONS ==> !exhausted)
              && durable' == durable
    ensures HeadFits(planned.items, cost) && Distinct(Ids(planned.items)) && r.Some? ==> r.value.items <= planned.items
  {
    var turn, rolloverSeen := planned, false;
    durable', decisions, exhausted, last := durable, 0, false, Snapshot(0, 0);
    ghost var whole := Left(controller.succeeded, controller.rolled, planned.key, |planned.items|);
    while budget.None? || decisions < budget.value
      invariant controller.Valid() && turn.key == planned.key && (budget.Some? ==> decisions <= budget.value)
      invariant rolloverSeen ==> turn.key in controller.rolled
      invariant Tame(planned.items, turn.items, cost)
      invariant HeadFits(planned.items, cost) ==>
          && durable' == durable
          && decisions + Left(controller.succeeded, controller.rolled, turn.key, |turn.items|) <= whole
      decreases
        turn.key !in controller.succeeded, turn.key !in controller.rolled, |durable'|, |turn.items|
    {
      ghost var succeeded, rolled := controller.succeeded, controller.rolled;
      var resolution, rows, seen, snapshot := DecideOnce(controller, turn, durable', cost, wrap, rolloverSeen);
      decisions := decisions + 1;
      if !resolution.Again? {
        r := if resolution.Settled? then Some(turn) else None;
        return r, rows, decisions, false, snapshot;
      }
      if rows == durable' {
        MovesLeaveLess(planned.items, turn, resolution.turn, cost,
            succeeded, controller.succeeded, rolled, controller.rolled);
      }
      turn, durable', rolloverSeen := resolution.turn, rows, seen;
    }
    AccountsAreBounded(controller.log, controller.succeeded, controller.failed, controller.rolled);
    r, exhausted := None, true;
  }

  lemma ShrunkIsTame(planned: seq<Item>, was: seq<Item>, now: seq<Item>, cost: Costing)
    requires was != [] && Tame(planned, was, cost) && HeadFits(now, cost)
    ensures now <= Unique(was[..|was| - 1]) ==> Tame(planned, now, cost)
  {
    if HeadFits(planned, cost) && Distinct(Ids(planned)) {
      var fewer := was[..|was| - 1];
      assert fewer == planned[..|fewer|];
      PrefixDistinct(planned, |fewer|);
      DistinctIsUnique(fewer);
    }
  }
}
