/** The runtime object: its mutable binding over one store, each locked section a method. */
module GlobalInbox {
  import opened Prelude
  import opened InboxModel
  import opened InboxStore
  import opened TurnRuntime
  import RuntimeLaws
  import TurnLaws

  /** Without an active turn no row is in a turn. */
  lemma NothingInTurn(db: Inbox)
    requires TurnLaws.Sound(db) && forall t :: !IsActive(db, t)
    ensures forall id :: id in db.messages ==> db.messages[id].phase != InTurn
  {
    forall id | id in db.messages ensures db.messages[id].phase != InTurn {
      var turn := db.messages[id].turn;
      assert turn.Some? ==> !OwnedBy(db, id, turn.value);
    }
  }

  /** The rows a visible read can still admit. */
  function Unread(messages: map<Id, Row>): set<Id> {
    set id | id in messages && messages[id].phase == Pending && messages[id].disposition in {Eligible, LocalRuntime}
  }

  class GlobalInboxRuntime {
    const store: Store
    var active: Union
    var adopted: TurnId
    var settlePending: bool
    var deferred: bool
    var daemon: Daemon

    function View(): Runtime
      reads this, store
    {
      Runtime(store.Tables(), active, adopted, settlePending, deferred, daemon)
    }

    ghost predicate Valid()
      reads this, store
    {
      store.Valid() && RuntimeLaws.Inv(View())
    }

    /** A runtime over a freshly opened store. */
    constructor ()
      ensures Valid() && View() == Runtime(EMPTY, UNBOUND, "", false, false, Resting) && fresh(store)
    {
      store := new Store();
      active, adopted, settlePending, deferred, daemon := UNBOUND, "", false, false, Resting;
      new;
      RuntimeLaws.RecoveredStart(EMPTY, false);
    }

    /** A runtime over the store a crashed process left behind; it is usable once recovery has run. */
    constructor Over(left: Store)
      requires left.Valid()
      ensures store == left && View() == Runtime(left.Tables(), UNBOUND, "", false, false, Resting)
    {
      store := left;
      active, adopted, settlePending, deferred, daemon := UNBOUND, "", false, false, Resting;
    }

    /** `recover_orphaned_turns`: every durable turn no process owns any more is closed and hands its rows back. */
    method RecoverOrphanedTurns(now: int) returns (recovered: nat)
      requires store.Valid() && View() == Runtime(store.Tables(), UNBOUND, "", false, deferred, Resting)
      modifies store
      ensures Valid() && recovered == |set t | t in old(store.turns) && old(store.turns)[t].state == Active|
      ensures forall id :: id in store.messages ==> store.messages[id].phase != InTurn
    {
      var runs := set t | t in store.turns && store.turns[t].state == Active;
      recovered := 0;
      ghost var all := runs;
      while runs != {}
        invariant store.Valid() && recovered + |runs| == |all|
        invariant forall t :: IsActive(store.Tables(), t) <==> t in runs
        decreases |runs|
      {
        var t :| t in runs;
        RecoverOrphanedTurn(t, now);
        runs := runs - {t};
        recovered := recovered + 1;
      }
      RuntimeLaws.RecoveredStart(store.Tables(), deferred);
      NothingInTurn(store.Tables());
    }

    /** One run of `recover_orphaned_turns`; it cannot conflict. */
    method RecoverOrphanedTurn(t: TurnId, now: int)
      requires store.Valid() && IsActive(store.Tables(), t)
      modifies store
      ensures store.Valid()
      ensures forall u :: IsActive(store.Tables(), u) <==> u != t && IsActive(old(store.Tables()), u)
    {
      var db := store.Tables();
      var run := db.turns[t];
      var ids := MemberIds(Entries(db, t));
      var union := Union(t, ids, None);
      RuntimeLaws.RequeuedAccepted(db, union, now);
      RuntimeLaws.RequeuedCloses(db, union, now);
      if ids != [] {
        var _ := store.RequeueMessages(ids, t, now);
      } else {
        var _ := store.FinalizeEmptyTurn(t, true);
      }
      assert RuntimeLaws.Closed(db, store.Tables(), t);
      RuntimeLaws.ReleaseSound(store.Tables(), run.session, None);
      var _ := store.ReleaseNoticeDelivery(run.session, None);
    }

    method AdoptAutonomousTurn(t: TurnId, session: Option<Session>) returns (bound: bool)
      requires Valid()
      modifies this, store
      ensures Valid() && View() == Adopt(old(View()), t, session)
      ensures bound <==> View().adopted != old(adopted)
    {
      RuntimeLaws.AdoptKeeps(View(), t, session);
      if active.turn != "" {
        deferred := true;
        return false;
      }
      var started := store.StartTurn(t, session, None);
      if !started {
        deferred := true;
        return false;
      }
      active := Union(t, [], session);
      adopted := t;
      deferred := false;
      return true;
    }

    method StartNoticeUnlessAutonomous(
      t: TurnId, ids: seq<Id>, session: Option<Session>, claim: Option<(nat, seq<Id>)>, now: int)
      returns (started: bool)
      requires Valid() && daemon == Resolving
      modifies this, store
      ensures Valid() && View() == React(old(View()), StartLocal(t, ids, session, claim, now))
      ensures started <==> daemon == Running
      ensures started ==> active.turn == t
    {
      RuntimeLaws.StartKeeps(View(), t, ids, session, claim, now);
      started := StartLocalTurn(t, ids, session, claim, now);
    }

    method StartLocalTurn(t: TurnId, ids: seq<Id>, session: Option<Session>, claim: Option<(nat, seq<Id>)>, now: int)
      returns (started: bool)
      requires store.Valid()
      modifies this, store
      ensures store.Valid() && View() == StartDaemonTurn(old(View()), t, ids, session, claim, now)
      ensures started <==> daemon == Running
      ensures started ==> active.turn == t
    {
      if adopted != "" {
        daemon := Resting;
        return false;
      }
      started := StartDurably(t, ids, session, claim, now);
      daemon := Resting;
      if started {
        active := Union(t, MemberIds(Entries(store.Tables(), t)), session);
        daemon := Running;
      }
    }

    method StartDurably(t: TurnId, ids: seq<Id>, session: Option<Session>, claim: Option<(nat, seq<Id>)>, now: int)
      returns (ok: bool)
      requires store.Valid()
      modifies store
      ensures store.Valid()
      ensures Concluded(old(store.Tables()), StartDurable(old(store.Tables()), t, ids, session, claim, now), ok,
          store.Tables())
    {
      if ids != [] {
        ok := store.AdmitMessages(ids, t, session, now);
      } else {
        ok := store.StartTurn(t, session, claim);
      }
    }

    method BindProviderAdmission(t: TurnId, session: Option<Session>, generation: nat, notice: seq<Id>)
      returns (ok: bool)
      requires Valid() && daemon == Running
      modifies this, store
      ensures Valid() && View() == React(old(View()), BindProvider(t, session, generation, notice))
      ensures ok ==> active.turn == t && active.session == store.turns[t].session
    {
      RuntimeLaws.ReactKeeps(View(), BindProvider(t, session, generation, notice));
      ReactBranch(View(), BindProvider(t, session, generation, notice));
      if active.turn != t {
        return false;
      }
      ok := BindSession(session, generation, notice);
    }

    method BindSession(session: Option<Session>, generation: nat, notice: seq<Id>) returns (ok: bool)
      requires store.Valid()
      modifies this, store
      ensures store.Valid() && View() == Bind(old(View()), session, generation, notice)
      ensures active.turn == old(active.turn) && daemon == old(daemon)
    {
      var bound := if session.Some? && session.value != "" then session else active.session;
      if bound != active.session {
        var moved := store.TransferTurnSession(active.turn, active.session, bound.value);
        if !moved {
          return false;
        }
      }
      if notice != [] && bound.Some? {
        var _ := store.MarkNamed(generation, bound.value, notice, Some(active.turn));
      }
      active := active.(session := bound);
      return true;
    }

    /** The binding is no longer the one the caller read for. `sameRun` says whether the provider's turn still fits. */
    predicate Crossed(t: TurnId, session: Option<Session>, sameRun: bool)
      reads this
    {
      active.turn != t || (session.Some? && active.session != session) || !sameRun
    }

    /** A returned page joins the turn it was read for, unless another turn or session took the binding meanwhile. */
    method AdmitInboxPage(t: TurnId, session: Option<Session>, sameRun: bool, ids: seq<Id>, now: int) returns (ok: bool)
      requires Valid()
      modifies this, store
      ensures Valid()
      ensures View() == if old(Crossed(t, session, sameRun)) then old(View())
          else React(old(View()), AdmitPage(ids, now))
      ensures ok ==> !old(Crossed(t, session, sameRun)) && active.turn == t
    {
      if active.turn != t || (session.Some? && active.session != session) || !sameRun {
        return false;
      }
      ok := AdmitPageIntoBound(ids, now);
    }

    method AdmitPageIntoBound(ids: seq<Id>, now: int) returns (ok: bool)
      requires Valid()
      modifies this, store
      ensures Valid() && View() == React(old(View()), AdmitPage(ids, now)) && active.turn == old(active.turn)
    {
      RuntimeLaws.ReactKeeps(View(), AdmitPage(ids, now));
      ReactBranch(View(), AdmitPage(ids, now));
      if active.turn == "" {
        return false;
      }
      ok := AdmitPageRows(ids, now);
    }

    method AdmitPageRows(ids: seq<Id>, now: int) returns (ok: bool)
      requires store.Valid()
      modifies this, store
      ensures store.Valid() && View() == AdmitListed(old(View()), ids, now) && active.turn == old(active.turn)
    {
      ok := store.AdmitMessages(ids, active.turn, active.session, now);
      if ok {
        active := active.(ids := MemberIds(Entries(store.Tables(), active.turn)));
      }
    }

    /** Of the rows a read made visible, those still pending and listed are admitted; the others need nothing. */
    method AdmitVisibleRead(t: TurnId, session: Option<Session>, sameSession: bool, visible: seq<Id>, now: int)
      returns (ok: bool)
      requires Valid()
      modifies this, store
      ensures Valid()
      ensures View() ==
                if old(active.turn) != t || old(active.session) != session || !sameSession then old(View())
                else React(old(View()), AdmitVisible(Keep(visible, Unread(old(store.messages))), now))
      ensures ok ==> old(active.turn) == t && old(active.session) == session
    {
      if active.turn != t || active.session != session || !sameSession {
        return false;
      }
      var ids := Keep(visible, Unread(store.messages));
      ok := AdmitVisibleIntoBound(ids, now);
    }

    method AdmitVisibleIntoBound(ids: seq<Id>, now: int) returns (ok: bool)
      requires Valid()
      modifies this, store
      ensures Valid() && View() == React(old(View()), AdmitVisible(ids, now))
    {
      RuntimeLaws.ReactKeeps(View(), AdmitVisible(ids, now));
      ReactBranch(View(), AdmitVisible(ids, now));
      if active.turn == "" || active.session.None? {
        return false;
      }
      ok := AdmitVisibleRows(ids, now);
    }

    method AdmitVisibleRows(ids: seq<Id>, now: int) returns (ok: bool)
      requires store.Valid()
      modifies this, store
      ensures store.Valid() && View() == AdmitShown(old(View()), ids, now)
    {
      ok := store.AdmitMessages(ids, active.turn, active.session, now);
      if ok {
        active := active.(ids := InTurnMessages(store.Tables(), active.turn, active.session));
      }
    }

    /** Reconcile covers and complete the bound turn's rows. */
    method FinalizeActiveMessages(renotice: bool, reading: Reading, now: int) returns (ok: bool)
      requires store.Valid()
      modifies store
      ensures store.Valid()
      ensures Concluded(old(store.Tables()), FinalizeActive(old(store.Tables()), active, renotice, reading, now), ok,
          store.Tables())
    {
      if renotice && reading.Failed? && !reading.fallbackFails {
        var redelivered;
        ok, redelivered := store.CompleteTurnRenoticeUnrenotified(active.turn, active.session, now);
        if ok {
          return;
        }
      }
      if renotice && reading.Covered? {
        var back := ToRenotice(store.Tables(), active, reading.covered, reading.exempt);
        if back != [] {
          var rest := Keep(active.ids, Elements(active.ids) - Elements(back));
          ok := store.CompleteTurnWithRenotice(rest, back, active.turn, active.session, now);
          return;
        }
      }
      ok := store.MarkProcessed(active.ids, active.turn, active.session, now);
    }

    /** A daemon turn that ran to its end. It never conflicts with the store. */
    method MarkActiveProcessed(renotice: bool, reading: Reading, notice: seq<Id>, now: int)
      requires Valid() && daemon == Running
      modifies this, store
      ensures Valid() && View() == React(old(View()), Succeed(renotice, reading, notice, now))
      ensures daemon == Finishing && active == old(active)
    {
      RuntimeLaws.SucceedKeeps(View(), renotice, reading, notice, now);
      RuntimeLaws.SucceedEnds(View(), renotice, reading, notice, now);
      ReactBranch(View(), Succeed(renotice, reading, notice, now));
      EndAsProcessed(renotice, reading, notice, now);
    }

    method EndAsProcessed(renotice: bool, reading: Reading, notice: seq<Id>, now: int)
      requires store.Valid() && daemon == Running
      modifies this, store
      ensures store.Valid() && active == old(active)
      ensures View() == EndProcessed(old(View()), renotice, reading, notice, now)
    {
      ghost var was := View();
      ghost var settled := SettleProcessed(store.Tables(), active, renotice, reading, now);
      var ok := CompleteRows(renotice, reading, now);
      LeaveTurn(was, settled, ok, active.ids != [], notice);
    }

    /** The turn's rows are settled, or the transition conflicted: clean up where due and leave. */
    method LeaveTurn(ghost was: Runtime, ghost settled: Result<Inbox>, ok: bool, cleanup: bool, notice: seq<Id>)
      requires store.Valid() && Concluded(was.db, settled, ok, store.Tables()) && View() == was.(db := store.Tables())
      modifies this`daemon, store
      ensures store.Valid() && View() == Exit(was, settled, cleanup, notice)
    {
      if ok {
        if cleanup {
          var _ := store.ReleaseNoticeDelivery(active.session, Some(notice));
        }
        daemon := Finishing;
      }
    }

    /** Complete the bound turn's rows, or close it when it has none. */
    method CompleteRows(renotice: bool, reading: Reading, now: int) returns (ok: bool)
      requires store.Valid()
      modifies store
      ensures store.Valid()
      ensures Concluded(old(store.Tables()), SettleProcessed(old(store.Tables()), active, renotice, reading, now), ok,
          store.Tables())
    {
      if active.ids == [] {
        ok := store.FinalizeEmptyTurn(active.turn, false);
      } else {
        ok := FinalizeActiveMessages(renotice, reading, now);
      }
    }

    /** Hand the bound turn's rows back, or close it when it has none. */
    method HandBackRows(now: int) returns (ok: bool)
      requires store.Valid()
      modifies store
      ensures store.Valid()
          && Concluded(old(store.Tables()), SettleRequeued(old(store.Tables()), active, now), ok, store.Tables())
    {
      if active.ids == [] {
        ok := store.FinalizeEmptyTurn(active.turn, true);
      } else {
        ok := store.RequeueMessages(active.ids, active.turn, now);
      }
    }

    /** A failed or cancelled daemon turn. It never conflicts with the store. */
    method RequeueActiveTurn(notice: seq<Id>, now: int)
      requires Valid() && daemon == Running
      modifies this, store
      ensures Valid() && View() == React(old(View()), Fail(notice, now))
      ensures daemon == Finishing && active == old(active)
    {
      RuntimeLaws.FailKeeps(View(), notice, now);
      RuntimeLaws.FailEnds(View(), notice, now);
      ReactBranch(View(), Fail(notice, now));
      EndAsRequeued(notice, now);
    }

    method EndAsRequeued(notice: seq<Id>, now: int)
      requires store.Valid() && daemon == Running
      modifies this, store
      ensures store.Valid() && active == old(active)
      ensures View() == EndRequeued(old(View()), notice, now)
    {
      ghost var was := View();
      ghost var settled := SettleRequeued(store.Tables(), active, now);
      var ok := HandBackRows(now);
      LeaveTurn(was, settled, ok, true, notice);
    }

    method FinishProcess()
      requires Valid() && daemon == Finishing
      modifies this
      ensures Valid() && View() == React(old(View()), FinalizeProcess)
      ensures active == UNBOUND && daemon == Resting
    {
      RuntimeLaws.ReactKeeps(View(), FinalizeProcess);
      active, daemon := UNBOUND, Resting;
    }

    /** The row transition that ends the bound turn with the provider's outcome. */
    method SettleBoundRows(e: Ending) returns (ok: bool)
      requires store.Valid()
      modifies store
      ensures store.Valid()
          && Concluded(old(store.Tables()), SettleRows(old(store.Tables()), active, e), ok, store.Tables())
    {
      if !e.succeeded {
        ok := HandBackRows(e.now);
      } else {
        ok := CompleteRows(e.renotice, e.reading, e.now);
      }
    }

    /** Settle and release the turn opened for a provider-started run; any failure keeps it named. */
    method FinishAutonomousTurn(e: Ending) returns (released: bool)
      requires Valid()
      modifies this, store
      ensures Valid() && View() == FinishAutonomous(old(View()), e)
      ensures released <==> old(adopted) != "" && adopted == ""
    {
      RuntimeLaws.FinishKeeps(View(), e);
      if adopted == "" {
        return false;
      }
      released := SettleBinding(e);
    }

    method SettleBinding(e: Ending) returns (released: bool)
      requires store.Valid() && adopted != "" && adopted == active.turn && adopted in store.turns
      modifies this, store
      ensures store.Valid() && View() == SettleAdopted(old(View()), e)
      ensures released <==> adopted == ""
    {
      ghost var was := View();
      if e.fault == BeforeCommit {
        settlePending := true;
        return false;
      }
      if store.turns[adopted].state == Active {
        ghost var settled := SettleRows(store.Tables(), active, e);
        var ok := SettleBoundRows(e);
        released := LeaveAdopted(was, settled, ok, e.fault, e.notice);
      } else {
        var same := store.turns[adopted].state == if e.succeeded then Done else Requeued;
        released := LeaveAdopted(was, if same then Ok(was.db) else Conflict, same, e.fault, e.notice);
      }
    }

    /** The adopted turn's rows are settled, or not: free the binding, or keep the turn named for a retry. */
    method LeaveAdopted(ghost was: Runtime, ghost settled: Result<Inbox>, ok: bool, fault: Fault, notice: seq<Id>)
      returns (released: bool)
      requires store.Valid() && Concluded(was.db, settled, ok, store.Tables()) && View() == was.(db := store.Tables())
      requires fault != BeforeCommit && adopted != ""
      modifies this, store
      ensures store.Valid() && View() == AfterSettle(was, settled, fault, notice)
      ensures released <==> adopted == ""
    {
      if !ok || fault != NoFault {
        settlePending := true;
        return false;
      }
      var _ := store.ReleaseNoticeDelivery(active.session, Some(notice));
      active, adopted, settlePending := UNBOUND, "", false;
      return true;
    }

    // -------------------------------------------------------- the daemon's own sections

    /** `process_once` passed its gates and begins to plan. */
    method BeginPlanning()
      requires Valid() && daemon == Resting
      modifies this`daemon
      ensures Valid() && View() == React(old(View()), Plan) && daemon == Resolving
    {
      RuntimeLaws.ReactKeeps(View(), Plan);
      daemon := Resolving;
    }

    /** A context rollover rebinds the provider session without taking the lock. */
    method RollOverSession(session: Option<Session>)
      requires Valid() && daemon == Resolving
      modifies this`active
      ensures Valid() && View() == React(old(View()), Rollover(session))
    {
      RuntimeLaws.ReactKeeps(View(), Rollover(session));
      active := active.(session := session);
    }

    method GiveUpPlanning()
      requires Valid() && daemon == Resolving
      modifies this`daemon
      ensures Valid() && View() == React(old(View()), GiveUp) && daemon == Resting
    {
      RuntimeLaws.ReactKeeps(View(), GiveUp);
      daemon := Resting;
    }

    // ------------------------------------------------------------- provider events

    /** `_replay_deferred_autonomous_start`: a held announcement is adopted once nothing is bound. */
    method ReplayDeferredStart(t: TurnId, session: Option<Session>)
      requires Valid()
      modifies this, store
      ensures Valid() && View() == React(old(View()), Replay(t, session))
    {
      if deferred && active.turn == "" {
        var _ := AdoptAutonomousTurn(t, session);
      }
    }

    /** The provider reports the end of a run: dropped when it names another session or turn than the adopted one. */
    method HandleTerminal(session: Session, sameTurn: bool, fitsDeferred: bool, e: Ending)
      requires Valid()
      modifies this, store
      ensures Valid() && View() == React(old(View()), Event.Terminal(session, sameTurn, fitsDeferred, e))
    {
      RuntimeLaws.ReactKeeps(View(), Event.Terminal(session, sameTurn, fitsDeferred, e));
      if adopted != "" && ((session != "" && active.session != Some(session)) || !sameTurn) {
        return;
      }
      if deferred {
        deferred := !fitsDeferred;
        return;
      }
      var _ := FinishAutonomousTurn(e);
    }

    /** A later wake retries a settlement that failed. */
    method RetrySettlement(e: Ending) returns (released: bool)
      requires Valid()
      modifies this, store
      ensures Valid() && View() == React(old(View()), RetrySettle(e))
      ensures released ==> adopted == ""
    {
      ReactBranch(View(), RetrySettle(e));
      released := false;
      if settlePending {
        released := FinishAutonomousTurn(e);
      }
    }

    /** Ingestion, covers, notices and the like reach the store on their own. */
    method CommitBackground(step: Step)
      requires Valid() && IsBackground(step)
      modifies store
      ensures Valid() && View() == React(old(View()), Background(step))
    {
      RuntimeLaws.ReactKeeps(View(), Background(step));
      store.CommitBackground(step);
    }

    /** Whatever somebody else does at this moment. */
    method Observe(e: Event)
      requires Valid() && RuntimeLaws.Foreign(e)
      modifies this, store
      ensures Valid() && View() == React(old(View()), e)
    {
      match e {
        case Background(step) =>
          if IsBackground(step) {
            CommitBackground(step);
          }
        case BindProvider(t, session, generation, notice) =>
          if daemon == Running {
            var _ := BindProviderAdmission(t, session, generation, notice);
          }
        case AdmitPage(ids, now) => var _ := AdmitPageIntoBound(ids, now);
        case AdmitVisible(ids, now) => var _ := AdmitVisibleIntoBound(ids, now);
        case Announce(t, session) => var _ := AdoptAutonomousTurn(t, session);
        case Replay(t, session) => ReplayDeferredStart(t, session);
        case Terminal(session, sameTurn, fitsDeferred, ending) =>
          HandleTerminal(session, sameTurn, fitsDeferred, ending);
        case RetrySettle(ending) => var _ := RetrySettlement(ending);
      }
    }

    /** Any number of such events, in any order. */
    method Meanwhile()
      requires Valid()
      modifies this, store
      ensures Valid() && daemon == old(daemon)
      ensures old(daemon) in {Running, Finishing} ==> active.turn == old(active.turn)
    {
      var n :| n >= 0;
      for i := 0 to n
        invariant Valid() && daemon == old(daemon)
        invariant old(daemon) in {Running, Finishing} ==> active.turn == old(active.turn)
      {
        var e: Event := *;
        if RuntimeLaws.Foreign(e) {
          RuntimeLaws.ForeignKeepsDaemon(View(), e);
          Observe(e);
        }
      }
    }

    // ------------------------------------------------------------------ process_once

    /** Resolve the plan against the context: any rollovers, any interference, and a verdict. */
    method ResolvePlan() returns (go: bool)
      requires Valid() && daemon == Resolving
      modifies this, store
      ensures Valid() && daemon == Resolving
    {
      var n :| n >= 0;
      for i := 0 to n
        invariant Valid() && daemon == Resolving
      {
        var session: Option<Session> := *;
        RollOverSession(session);
        Meanwhile();
      }
      go := *;
    }

    /** Run a started turn to one of its ends: done, failed or cancelled. Nothing stays behind in it. */
    method RunStartedTurn()
      requires Valid() && daemon == Running
      modifies this, store
      ensures Valid() && daemon == Resting && active == UNBOUND
      ensures old(active.turn) in store.turns && forall t :: !IsActive(store.Tables(), t)
    {
      Meanwhile();
      EndTurn();
      Meanwhile();
      assert active.turn in store.turns;
      FinishProcess();
      RuntimeLaws.UnboundMeansIdle(View());
    }

    /** The provider returned, or the run failed or was cancelled. */
    method EndTurn()
      requires Valid() && daemon == Running
      modifies this, store
      ensures Valid() && daemon == Finishing && active.turn == old(active.turn)
    {
      var succeeded: bool, renotice: bool, reading: Reading, notice: seq<Id>, now: int := *, *, *, *, *;
      if succeeded {
        MarkActiveProcessed(renotice, reading, notice, now);
      } else {
        RequeueActiveTurn(notice, now);
      }
    }

    /**
     `process_once`, under arbitrary interference: retry an owed settlement, replay a held start, plan, perhaps roll
     over or give up, start unless a run was adopted, run, settle, finish. Whenever it started a turn, that turn is
     closed at the exit and no row is in it.
     */
    method ProcessOnce() returns (started: bool, t: TurnId)
      requires Valid() && daemon == Resting
      modifies this, store
      ensures Valid() && daemon == Resting
      ensures started ==> t in store.turns && !IsActive(store.Tables(), t)
      ensures started ==> forall id :: id in store.messages ==> !OwnedBy(store.Tables(), id, t)
      ensures old(adopted) != "" && !old(settlePending) ==> !started && View() == old(View())
    {
      started, t := false, "";
      var go := ReadyToPlan();
      if go {
        started, t := PlanAndRun();
      }
    }

    /** Plan, and run what was planned to its end. */
    method PlanAndRun() returns (started: bool, t: TurnId)
      requires Valid() && daemon == Resting
      modifies this, store
      ensures Valid() && daemon == Resting
      ensures started ==> t in store.turns && !IsActive(store.Tables(), t)
      ensures started ==> forall id :: id in store.messages ==> !OwnedBy(store.Tables(), id, t)
    {
      BeginPlanning();
      var go := ResolvePlan();
      if !go {
        GiveUpPlanning();
        return false, "";
      }
      var ids: seq<Id>, session: Option<Session>, claim: Option<(nat, seq<Id>)>, now: int := *, *, *, *;
      t := *;
      started := StartNoticeUnlessAutonomous(t, ids, session, claim, now);
      if started {
        RunStartedTurn();
        FinishWithReplay(t);
      }
    }

    /** The two things an earlier run may have left to do, and the look at the adopted turn. */
    method ReadyToPlan() returns (go: bool)
      requires Valid() && daemon == Resting
      modifies this, store
      ensures Valid() && daemon == Resting && (go ==> adopted == "")
      ensures old(adopted) != "" && !old(settlePending) ==> !go && View() == old(View())
    {
      var retry: Ending, t: TurnId, session: Option<Session> := *, *, *;
      RuntimeLaws.ForeignKeepsDaemon(View(), RetrySettle(retry));
      if settlePending {
        var released := RetrySettlement(retry);
        if !released {
          return false;
        }
      }
      RuntimeLaws.ForeignKeepsDaemon(View(), Replay(t, session));
      ReplayDeferredStart(t, session);
      return adopted == "";
    }

    /** After the exit a held start may be adopted at last; the finished turn stays closed. */
    method FinishWithReplay(t: TurnId)
      requires Valid() && daemon == Resting && t in store.turns && !IsActive(store.Tables(), t)
      modifies this, store
      ensures Valid() && daemon == Resting && t in store.turns && !IsActive(store.Tables(), t)
      ensures forall id :: id in store.messages ==> !OwnedBy(store.Tables(), id, t)
    {
      var next: TurnId, session: Option<Session> := *, *;
      RuntimeLaws.ForeignKeepsDaemon(View(), Replay(next, session));
      RuntimeLaws.TurnsOnlyGrow(View(), Replay(next, session), t);
      ReplayDeferredStart(next, session);
    }
  }
}
