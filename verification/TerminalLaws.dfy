/**
 When the provider's report on its own run reaches the settlement of the turn adopted for it, and when it never does.
 */
module TerminalLaws {
  import opened Prelude
  import opened InboxModel
  import opened TurnRuntime
  import opened RuntimeLaws
  import TurnLaws

  /** The session a run's own report names: that of its durable turn, or none. */
  function OwnSession(owner: Option<Session>): Session {
    if owner.Some? then owner.value else ""
  }

  /** The turn is closed and the binding free. */
  ghost predicate Released(p: Runtime, t: TurnId) {
    p.adopted == "" && p.active == UNBOUND && t in p.db.turns && !IsActive(p.db, t)
  }

  lemma SettlementReleases(p: Runtime, e: Ending)
    requires Inv(p) && p.adopted != "" && IsActive(p.db, p.adopted) && e.fault == NoFault
    requires SettleRows(p.db, p.active, e).Ok?
    ensures Released(FinishAutonomous(p, e), p.adopted)
  {
    SettleRowsCloses(p.db, p.active, e);
    FinishIs(p, e);
    CleanedUp(p, SettleRows(p.db, p.active, e).value, e.notice);
  }

  lemma CleanedUp(p: Runtime, db: Inbox, notice: seq<Id>)
    requires Closed(p.db, db, p.adopted)
    ensures Released(AfterSettle(p, Ok(db), NoFault, notice), p.adopted)
  {
    ReleaseSound(db, p.active.session, Some(notice));
  }

  lemma FinishIs(p: Runtime, e: Ending)
    requires p.adopted != "" && p.active.turn == p.adopted && IsActive(p.db, p.adopted)
    ensures FinishAutonomous(p, e) == AfterSettle(p, SettleRows(p.db, p.active, e), e.fault, e.notice)
  {
  }

  /** While the adopted turn holds its owner's session, its own report settles it exactly when no other start is held. */
  lemma OwnReportSettlesIffNothingHeld(p: Runtime, fitsDeferred: bool, e: Ending)
    requires Inv(p) && SessionHeld(p) && p.adopted != "" && IsActive(p.db, p.adopted) && e.fault == NoFault
    ensures var p' := React(p, Event.Terminal(OwnSession(p.db.turns[p.adopted].session), true, fitsDeferred, e));
            if p.deferred then p' == p.(deferred := !fitsDeferred) else Released(p', p.adopted)
  {
    OwnReportIsFinish(p, fitsDeferred, e);
    if !p.deferred {
      BoundIsExact(p);
      BoundSettles(p, e);
      SettlementReleases(p, e);
    }
  }

  lemma OwnReportIsFinish(p: Runtime, fitsDeferred: bool, e: Ending)
    requires SessionHeld(p) && p.adopted != "" && IsActive(p.db, p.adopted)
    ensures React(p, Event.Terminal(OwnSession(p.db.turns[p.adopted].session), true, fitsDeferred, e)) ==
              if p.deferred then p.(deferred := !fitsDeferred) else FinishAutonomous(p, e)
  {
  }

  // ------------------------------------------------------- runs on which it settles

  /** The provider announces a run while another is still adopted. */
  ghost predicate Overlaps(r: Runtime, e: Event) {
    e.Announce? && r.adopted != ""
  }

  ghost predicate NeverOverlaps(r: Runtime, events: seq<Event>) {
    forall k :: 0 <= k < |events| ==> !Overlaps(Play(r, events[..k]), events[k])
  }

  /** No start is held while a turn is adopted. */
  ghost predicate AdoptedAlone(r: Runtime) {
    r.adopted != "" ==> !r.deferred
  }

  lemma StaysAlone(r: Runtime, e: Event)
    requires Inv(r) && AdoptedAlone(r) && !Overlaps(r, e)
    ensures AdoptedAlone(React(r, e))
  {
  }

  lemma {:induction false} AloneAlongRun(r: Runtime, events: seq<Event>)
    requires Inv(r) && AdoptedAlone(r) && NeverOverlaps(r, events)
    ensures AdoptedAlone(Play(r, events))
  {
    if events != [] {
      var front := events[..|events| - 1];
      forall k | 0 <= k < |front| ensures !Overlaps(Play(r, front[..k]), front[k]) {
        assert front[..k] == events[..k];
      }
      AloneAlongRun(r, front);
      EveryInterleavingKeeps(r, front);
      StaysAlone(Play(r, front), events[|events| - 1]);
    }
  }

  /**
   Along every interleaving without a rollover or an announcement while a turn is adopted, the provider's report on
   that turn closes it and frees the binding, whatever its outcome and however cover reading went.
   */
  lemma OwnReportReaches(r: Runtime, events: seq<Event>, fitsDeferred: bool, e: Ending)
    requires Inv(r) && SessionHeld(r) && AdoptedAlone(r) && NeverCutOff(r, events) && NeverOverlaps(r, events)
    requires var p := Play(r, events); p.adopted != "" && IsActive(p.db, p.adopted)
    requires e.fault == NoFault
    ensures var p := Play(r, events);
            var own := OwnSession(p.db.turns[p.adopted].session);
            Released(React(p, Event.Terminal(own, true, fitsDeferred, e)), p.adopted)
  {
    SessionHeldAlongRun(r, events);
    AloneAlongRun(r, events);
    EveryInterleavingKeeps(r, events);
    OwnReportSettlesIffNothingHeld(Play(r, events), fitsDeferred, e);
  }

  // ---------------------------------------------------- runs on which it never does

  /** The adopted turn runs, bound to a session that is not its owner's, and no settlement was ever tried. */
  ghost predicate Stranded(r: Runtime, t: TurnId, owner: Session, bound: Session) {
    && r.adopted == t && IsActive(r.db, t) && !r.settlePending
    && r.active.session == Some(bound) && r.db.turns[t].session == Some(owner)
  }

  /** Anything may happen but another rollover, and reports on runs come from the owner's session. */
  predicate FromOwner(e: Event, owner: Session) {
    !e.Rollover? && (e.Terminal? ==> e.named == owner)
  }

  lemma StaysStranded(r: Runtime, e: Event, t: TurnId, owner: Session, bound: Session)
    requires Inv(r) && t != "" && owner != "" && owner != bound
    requires Stranded(r, t, owner, bound) && FromOwner(e, owner)
    ensures Stranded(React(r, e), t, owner, bound)
  {
    match e
    case Background(step) => if IsBackground(step) { TurnLaws.BackgroundKeepsTurns(r.db, step); }
    case AdmitPage(ids, now) => assert Admit(r.db, ids, t, Some(bound), now).Conflict?;
    case AdmitVisible(ids, now) => assert Admit(r.db, ids, t, Some(bound), now).Conflict?;
    case _ =>
  }

  /**
   Once stranded, the turn stays adopted, active and unsettled through every run without another rollover: the
   reports of its own session are not for the binding, and nothing else tries to settle it.
   */
  lemma {:induction false} StrandedForever(
    r: Runtime, events: seq<Event>, t: TurnId, owner: Session, bound: Session)
    requires Inv(r) && t != "" && owner != "" && owner != bound && Stranded(r, t, owner, bound)
    requires forall k :: 0 <= k < |events| ==> FromOwner(events[k], owner)
    ensures Stranded(Play(r, events), t, owner, bound)
  {
    if events != [] {
      var front := events[..|events| - 1];
      StrandedForever(r, front, t, owner, bound);
      EveryInterleavingKeeps(r, front);
      StaysStranded(Play(r, front), events[|events| - 1], t, owner, bound);
    }
  }

  /** The run that rolls over while a turn is adopted ends stranded, so its own report is ignored from then on. */
  lemma CutOffTurnIsStranded(later: seq<Event>)
    requires forall k :: 0 <= k < |later| ==> FromOwner(later[k], "one")
    ensures var cut := Play(FRESH_START, ADOPTED_WHILE_PLANNING + [Rollover(Some("two"))]);
            Stranded(cut, "t", "one", "two") && Stranded(Play(cut, later), "t", "one", "two")
  {
    CutOffIsReachable();
    FreshStartHolds();
    EveryInterleavingKeeps(FRESH_START, ADOPTED_WHILE_PLANNING + [Rollover(Some("two"))]);
    PlayNext(FRESH_START, ADOPTED_WHILE_PLANNING, Rollover(Some("two")));
    var cut := Play(FRESH_START, ADOPTED_WHILE_PLANNING + [Rollover(Some("two"))]);
    StrandedForever(cut, later, "t", "one", "two");
  }

  lemma HeldStartHides(p: Runtime, u: TurnId, session: Option<Session>, own: Session, e: Ending)
    requires p.adopted != "" && p.active.turn == p.adopted && p.active.session == Some(own)
    ensures var held := React(p, Announce(u, session));
            held == p.(deferred := true) && React(held, Event.Terminal(own, true, false, e)) == held
  {
  }

  /** An announcement while a turn is adopted swallows that turn's report: the turn stays adopted and active. */
  lemma HeldStartSwallowsReport(e: Ending)
    ensures var p := Play(FRESH_START, ADOPTED_WHILE_PLANNING + [Announce("u", Some("one"))]);
            && p.adopted == "t" && IsActive(p.db, "t") && p.db.turns["t"].session == Some("one")
            && React(p, Event.Terminal("one", true, false, e)) == p
  {
    CutOffIsReachable();
    PlayNext(FRESH_START, ADOPTED_WHILE_PLANNING, Announce("u", Some("one")));
    FreshStartHolds();
    AdoptedKeepsBinding(FRESH_START, ADOPTED_WHILE_PLANNING);
    HeldStartHides(Play(FRESH_START, ADOPTED_WHILE_PLANNING), "u", Some("one"), "one", e);
  }
}
