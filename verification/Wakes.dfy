/**
 Wakes: the deadline coalescer that decides when the Inbox is looked at next, and the timed gates that refuse to
 look yet. Time is an integer clock in milliseconds that never runs backwards.
 */
module Wakes {
  import opened Prelude

  const COALESCE_MS: nat := 3_000
  const DEGRADED_BASE_MS: nat := 5_000
  const DEGRADED_MAX_MS: nat := 300_000
  const BUDGET_BASE_MS: nat := 300_000
  const BUDGET_MAX_MS: nat := 1_800_000
  const REARM_BASE_MS: nat := 5_000
  const REARM_MAX_MS: nat := 300_000

  ghost predicate Sorted(s: seq<int>) {
    forall i, j :: 0 <= i <= j < |s| ==> s[i] <= s[j]
  }

  /** The delay a request asks for: the fixed window, or its own delay but never a negative one. */
  function Requested(window: nat, delay: Option<int>): nat {
    if delay.None? then window else if delay.value < 0 then 0 else delay.value
  }

  // ------------------------------------------------------------ deadlines over every run

  /** The deadline queue after a request for a wake `delay` after `now`. */
  function Notified(deadlines: seq<int>, now: int, delay: nat): seq<int> {
    if deadlines == [] then [now + delay]
    else if delay > 0 && now >= deadlines[|deadlines| - 1] then deadlines + [now + delay]
    else if now + delay < deadlines[0] then deadlines[0 := now + delay]
    else deadlines
  }

  datatype Request = Request(now: int, delay: nat)

  function AfterRequests(deadlines: seq<int>, requests: seq<Request>): seq<int>
    decreases |requests|
  {
    if requests == [] then deadlines
    else
      var last := requests[|requests| - 1];
      Notified(AfterRequests(deadlines, requests[..|requests| - 1]), last.now, last.delay)
  }

  /** A request keeps the queue sorted, is served in time, and never postpones an earlier request. */
  lemma NotifiedLaws(deadlines: seq<int>, now: int, delay: nat)
    requires Sorted(deadlines)
    ensures Sorted(Notified(deadlines, now, delay)) && Notified(deadlines, now, delay) != []
    ensures Notified(deadlines, now, delay)[0] <= now + delay
    ensures deadlines != [] ==> Notified(deadlines, now, delay)[0] <= deadlines[0]
    ensures deadlines != [] && now <= deadlines[0] ==> now <= Notified(deadlines, now, delay)[0]
  {
  }

  /** Until a burst is released, every request made so far has a wake no later than it asked for. */
  lemma {:induction false} RequestsAreServed(deadlines: seq<int>, requests: seq<Request>)
    requires Sorted(deadlines)
    ensures var after := AfterRequests(deadlines, requests);
            && Sorted(after) && (requests != [] || deadlines != [] ==> after != [])
            && (deadlines != [] ==> after[0] <= deadlines[0])
            && forall i :: 0 <= i < |requests| ==> after[0] <= requests[i].now + requests[i].delay
  {
    if requests != [] {
      var front, last := requests[..|requests| - 1], requests[|requests| - 1];
      RequestsAreServed(deadlines, front);
      NotifiedLaws(AfterRequests(deadlines, front), last.now, last.delay);
      assert forall i :: 0 <= i < |front| ==> requests[i] == front[i];
    }
  }

  // ------------------------------------------------------------ the coalescer

  class InboxCoalescer {
    const window: nat
    var deadlines: seq<int>
    var wake: bool
    var pulled: bool

    ghost predicate Valid()
      reads this
    {
      Sorted(deadlines) && wake == (deadlines != [])
    }

    constructor (window: nat := COALESCE_MS)
      ensures Valid() && deadlines == [] && !pulled && this.window == window
    {
      this.window := window;
      deadlines, wake, pulled := [], false, false;
    }

    method Notify(now: int, delay: Option<int>)
      requires Valid()
      modifies this
      ensures Valid() && wake && deadlines[0] <= now + Requested(window, delay)
      ensures deadlines == Notified(old(deadlines), now, Requested(window, delay))
      ensures pulled == (old(pulled) || (old(deadlines) != [] && deadlines[0] < old(deadlines[0])))
    {
      NotifiedLaws(deadlines, now, Requested(window, delay));
      var wait := if delay.None? then window else if delay.value > 0 then delay.value else 0;
      var candidate := now + wait;
      if deadlines == [] {
        deadlines := deadlines + [candidate];
      } else if wait == 0 {
        if candidate < deadlines[0] {
          deadlines := deadlines[0 := candidate];
          pulled := true;
        }
      } else if now >= deadlines[|deadlines| - 1] {
        deadlines := deadlines + [candidate];
      } else if candidate < deadlines[0] {
        deadlines := deadlines[0 := candidate];
        pulled := true;
      }
      wake := true;
    }

    /** Sleep while anything may notify. The sleep ends after `remaining`, or earlier only because of a pull. */
    method SleepOrPull(started: int, remaining: nat) returns (now: int, cut: bool)
      requires Valid() && deadlines != [] && !pulled
      modifies this
      ensures Valid() && deadlines != [] && now >= started
      ensures pulled <==> deadlines[0] < old(deadlines[0])
      ensures deadlines[0] <= old(deadlines[0])
      ensures deadlines[0] >= started || deadlines[0] == old(deadlines[0])
      ensures cut ==> pulled
      ensures !cut ==> now >= started + remaining
    {
      now := started;
      var calls :| calls >= 0;
      for i := 0 to calls
        invariant Valid() && deadlines != [] && now >= started
        invariant pulled <==> deadlines[0] < old(deadlines[0])
        invariant deadlines[0] <= old(deadlines[0])
        invariant deadlines[0] >= started || deadlines[0] == old(deadlines[0])
      {
        var moment :| moment >= now;
        var delay: Option<int> := *;
        now := moment;
        Notify(now, delay);
      }
      cut := *;
      cut := cut && pulled;
      if !cut && now < started + remaining {
        now := started + remaining;
      }
    }

    /**
     Wait until a burst is due and consume its deadline. The burst is never released before the deadline it
     consumes, that deadline is no later than the one first waited for, and the wake stays set exactly when
     deadlines remain. Each pull moves the head earlier but not before the start, so the loop ends.
     */
    method WaitForBurst(started: int) returns (now: int, consumed: int)
      requires Valid() && wake
      modifies this
      ensures Valid() && now >= started
      ensures consumed <= now && consumed <= old(deadlines[0])
      ensures wake == (deadlines != []) && forall d :: d in deadlines ==> consumed <= d
    {
      now := started;
      while true
        invariant Valid() && deadlines != [] && now >= started
        invariant deadlines[0] <= old(deadlines[0])
        invariant deadlines[0] >= started || deadlines[0] == old(deadlines[0])
        decreases if deadlines[0] < started then 0 else deadlines[0] - started
      {
        pulled := false;
        var deadline := deadlines[0];
        var remaining := if deadline > now then deadline - now else 0;
        var cut;
        now, cut := SleepOrPull(now, remaining);
        if !cut {
          break;
        }
        if deadlines[0] >= deadline {
          break;
        }
      }
      consumed := deadlines[0];
      deadlines := deadlines[1..];
      wake := deadlines != [];
    }
  }

  // ------------------------------------------------------------ backoffs

  function Pow2(n: nat): (r: nat)
    ensures r >= 1
  {
    if n == 0 then 1 else 2 * Pow2(n - 1)
  }

  lemma {:induction false} Pow2Grows(m: nat, n: nat)
    requires m <= n
    ensures Pow2(m) <= Pow2(n)
    decreases n
  {
    if m < n {
      Pow2Grows(m, n - 1);
    }
  }

  /** The doubling backoff of the n-th consecutive failure. */
  function Backoff(base: nat, cap: nat, n: nat): nat
    requires n >= 1
  {
    Min(base * Pow2(n - 1), cap)
  }

  lemma {:induction false} BackoffLaws(base: nat, cap: nat, m: nat, n: nat)
    requires 1 <= m <= n && base <= cap
    ensures base <= Backoff(base, cap, m) <= Backoff(base, cap, n) <= cap
  {
    Pow2Grows(m - 1, n - 1);
    assert base * Pow2(m - 1) <= base * Pow2(n - 1);
    assert base <= base * Pow2(m - 1);
  }

  /** `next_no_progress_rearm_delay`: the exponent is capped before the power is taken. */
  function RearmDelay(attempts: nat): nat {
    if attempts <= 1 then 0 else Min(REARM_BASE_MS * Pow2(Min(attempts - 2, 6)), REARM_MAX_MS)
  }

  /** Capping the exponent loses nothing: the delay is the doubling backoff for every number of attempts. */
  lemma {:induction false} RearmDelayIsBackoff(attempts: nat)
    ensures attempts <= 1 ==> RearmDelay(attempts) == 0
    ensures attempts >= 2 ==> RearmDelay(attempts) == Backoff(REARM_BASE_MS, REARM_MAX_MS, attempts - 1)
  {
    if attempts > 8 {
      Pow2Grows(6, attempts - 2);
      assert Pow2(6) == 64;
    }
  }

  // ------------------------------------------------------------ timed gates

  /** The failure gates of the runtime. `process_once` runs only when both let it through. */
  class RecoveryGates {
    const coalescer: InboxCoalescer
    var degraded: bool
    var degradedUntil: Option<int>
    var degradedAttempts: nat
    var parked: bool
    var parkedUntil: Option<int>
    var budgetAttempts: nat
    var noProgress: nat

    ghost predicate Valid()
      reads this, coalescer
    {
      && coalescer.Valid()
      && (degraded ==> degradedUntil.Some?)
      && (parkedUntil.Some? ==> parked)
    }

    constructor (coalescer: InboxCoalescer)
      requires coalescer.Valid()
      ensures Valid() && this.coalescer == coalescer && !degraded && !parked
    {
      this.coalescer := coalescer;
      degraded, degradedUntil, degradedAttempts := false, None, 0;
      parked, parkedUntil, budgetAttempts, noProgress := false, None, 0, 0;
    }

    /** The clock is read twice: once for the expiry and once, later, inside the notify. */
    method Degrade(now: int, later: int)
      requires Valid() && now <= later
      modifies this, coalescer
      ensures Valid() && degraded && degradedAttempts == old(degradedAttempts) + 1
      ensures degradedUntil == Some(now + Backoff(DEGRADED_BASE_MS, DEGRADED_MAX_MS, degradedAttempts))
      ensures now + DEGRADED_BASE_MS <= degradedUntil.value <= now + DEGRADED_MAX_MS
      ensures coalescer.wake && coalescer.deadlines[0] <= degradedUntil.value + (later - now)
      ensures parked == old(parked) && parkedUntil == old(parkedUntil)
    {
      degraded := true;
      degradedAttempts := degradedAttempts + 1;
      var backoff := Min(DEGRADED_BASE_MS * Pow2(degradedAttempts - 1), DEGRADED_MAX_MS);
      BackoffLaws(DEGRADED_BASE_MS, DEGRADED_MAX_MS, degradedAttempts, degradedAttempts);
      degradedUntil := Some(now + backoff);
      coalescer.Notify(later, Some(backoff));
    }

    method ClearDegradedBackoff()
      requires Valid()
      modifies this`degraded, this`degradedUntil, this`degradedAttempts
      ensures Valid() && !degraded && degradedUntil == None && degradedAttempts == 0
    {
      degraded, degradedUntil, degradedAttempts := false, None, 0;
    }

    method NextBudgetParkHold() returns (hold: nat)
      requires Valid()
      modifies this`budgetAttempts
      ensures Valid() && budgetAttempts == old(budgetAttempts) + 1
      ensures hold == Backoff(BUDGET_BASE_MS, BUDGET_MAX_MS, budgetAttempts) && BUDGET_BASE_MS <= hold <= BUDGET_MAX_MS
    {
      budgetAttempts := budgetAttempts + 1;
      hold := Min(BUDGET_BASE_MS * Pow2(budgetAttempts - 1), BUDGET_MAX_MS);
      BackoffLaws(BUDGET_BASE_MS, BUDGET_MAX_MS, budgetAttempts, budgetAttempts);
    }

    method ParkDrained(now: int, later: int, hold: Option<nat>)
      requires Valid() && now <= later
      modifies this, coalescer
      ensures Valid() && parked
      ensures hold.None? ==> parkedUntil == None && coalescer.deadlines == old(coalescer.deadlines)
      ensures hold.Some? ==> parkedUntil == Some(now + hold.value)
      ensures hold.Some? ==> coalescer.wake && coalescer.deadlines[0] <= parkedUntil.value + (later - now)
      ensures degraded == old(degraded) && degradedUntil == old(degradedUntil)
    {
      parked := true;
      if hold.Some? {
        parkedUntil := Some(now + hold.value);
        coalescer.Notify(later, Some(hold.value));
      } else {
        parkedUntil := None;
      }
    }

    /** The park gate. `drained` is what the usage check says, when there is one. */
    method DrainedParkAllowsProcessing(now: int, later: int, drained: Option<bool>) returns (open: bool)
      requires Valid() && now <= later
      modifies this, coalescer
      ensures Valid()
      ensures open <==>
          !old(parked) || (if old(parkedUntil).Some? then old(parkedUntil).value <= now else drained != Some(true))
      ensures open ==> !parked && parkedUntil == None && coalescer.deadlines == old(coalescer.deadlines)
      ensures !open ==> parked && parkedUntil == old(parkedUntil)
      ensures !open && parkedUntil.Some? ==>
                coalescer.wake && coalescer.deadlines[0] <= parkedUntil.value + (later - now)
      ensures degraded == old(degraded) && degradedUntil == old(degradedUntil)
          && degradedAttempts == old(degradedAttempts)
    {
      if parked {
        if parkedUntil.Some? {
          var remaining := parkedUntil.value - now;
          if remaining > 0 {
            coalescer.Notify(later, Some(remaining));
            return false;
          }
          parkedUntil, parked := None, false;
          return true;
        }
        if drained == Some(true) {
          return false;
        }
        parked := false;
      }
      open := true;
    }

    method TryDegradedRecovery(now: int, later: int) returns (open: bool)
      requires Valid() && now <= later
      modifies this, coalescer
      ensures Valid()
      ensures open <==> !old(degraded) || old(degradedUntil).value <= now
      ensures open ==> !degraded && coalescer.deadlines == old(coalescer.deadlines)
      ensures !open ==> degraded && degradedUntil == old(degradedUntil)
      ensures !open ==> coalescer.wake && coalescer.deadlines[0] <= degradedUntil.value + (later - now)
      ensures parked == old(parked) && parkedUntil == old(parkedUntil) && degradedAttempts == old(degradedAttempts)
    {
      if !degraded {
        return true;
      }
      var remaining := if degradedUntil.None? then 0 else degradedUntil.value - now;
      if remaining > 0 {
        coalescer.Notify(later, Some(remaining));
        return false;
      }
      degraded, degradedUntil := false, None;
      open := true;
    }

    /** The expiry of the timed gate that holds processing back, park before degraded. */
    function Expiry(): Option<int>
      reads this
    {
      if parked && parkedUntil.Some? then parkedUntil else if degraded && !parked then degradedUntil else None
    }

    /**
     The gates at the head of `process_once`. A refusal by a timed gate leaves a wake no later than the expiry of
     that gate (up to the clock's movement between its two readings), and at the expiry the gate opens.
     */
    method MayProcess(now: int, later: int, drained: Option<bool>) returns (open: bool)
      requires Valid() && now <= later
      modifies this, coalescer
      ensures Valid()
      ensures open ==> !parked && !degraded && coalescer.deadlines == old(coalescer.deadlines)
      ensures !open && Expiry().Some? ==>
                now < Expiry().value && coalescer.wake && coalescer.deadlines[0] <= Expiry().value + (later - now)
      ensures !open && Expiry().None? ==> parked && drained == Some(true)
      ensures open <==>
              && (old(degraded) ==> old(degradedUntil).value <= now)
              && (old(parked) ==>
                  if old(parkedUntil).Some? then old(parkedUntil).value <= now else drained != Some(true))
    {
      open := DrainedParkAllowsProcessing(now, later, drained);
      if open {
        open := TryDegradedRecovery(now, later);
      }
    }

    /** A turn admitted none of its announced batch. */
    method NoteNoProgressTurn()
      requires Valid()
      modifies this`noProgress
      ensures Valid() && noProgress == old(noProgress) + 1
    {
      noProgress := noProgress + 1;
    }

    /** A turn admitted its batch: the next re-arm is immediate again. */
    method ClearNoProgressBackoff()
      requires Valid()
      modifies this`noProgress
      ensures Valid() && noProgress == 0
    {
      noProgress := 0;
    }

    /** A completed turn ends the series of budget parks. */
    method ClearBudgetBackoff()
      requires Valid()
      modifies this`budgetAttempts
      ensures Valid() && budgetAttempts == 0
    {
      budgetAttempts := 0;
    }

    /** New work arrived: the degraded gate opens and a wake follows, at once unless a turn is busy. */
    method NotifyWork(now: int, busy: Option<nat>)
      requires Valid()
      modifies this`degraded, this`degradedUntil, this`degradedAttempts, coalescer
      ensures Valid() && !degraded
      ensures coalescer.wake && coalescer.deadlines[0] <= now + if busy.Some? then busy.value else 0
    {
      ClearDegradedBackoff();
      coalescer.Notify(now, Some(if busy.Some? then busy.value else 0));
    }

    /** What the health of a completed turn does to the backoffs. */
    method NoteTurnOutcome(succeeded: bool, progressed: bool)
      requires Valid()
      modifies this`budgetAttempts, this`noProgress
      ensures Valid()
      ensures succeeded ==> budgetAttempts == 0 && noProgress == 0
      ensures !succeeded && !progressed ==> noProgress == old(noProgress) + 1 && budgetAttempts == old(budgetAttempts)
      ensures !succeeded && progressed ==> noProgress == old(noProgress) && budgetAttempts == old(budgetAttempts)
    {
      if succeeded {
        ClearBudgetBackoff();
        ClearNoProgressBackoff();
      } else if !progressed {
        NoteNoProgressTurn();
      }
    }

    /**
     `_wake_remaining_pending`: unless degraded, rows the session was not told about get a wake, no later than the
     re-arm delay; a degraded runtime keeps the wake its own backoff asked for.
     */
    method WakeRemainingPending(now: int, untold: bool, busy: Option<nat>)
      requires Valid()
      modifies this`degraded, this`degradedUntil, this`degradedAttempts, coalescer
      ensures Valid() && degraded == old(degraded)
      ensures degraded || !untold ==> coalescer.deadlines == old(coalescer.deadlines)
      ensures !degraded && untold ==>
                && coalescer.wake
                && coalescer.deadlines[0] <=
                     now + (if noProgress <= 1 then (if busy.Some? then busy.value else 0) else RearmDelay(noProgress))
    {
      if degraded || !untold {
        return;
      }
      var delay := NextNoProgressRearmDelay();
      if delay == 0 {
        NotifyWork(now, busy);
        return;
      }
      RearmDelayIsBackoff(noProgress);
      coalescer.Notify(now, Some(delay));
    }

    method NextNoProgressRearmDelay() returns (delay: nat)
      ensures delay == if noProgress <= 1 then 0 else Backoff(REARM_BASE_MS, REARM_MAX_MS, noProgress - 1)
    {
      RearmDelayIsBackoff(noProgress);
      if noProgress <= 1 {
        return 0;
      }
      var exponent := Min(noProgress - 2, 6);
      delay := Min(REARM_BASE_MS * Pow2(exponent), REARM_MAX_MS);
    }
  }
}
