/**
 The cached notice record (generation, pending count, last delivered generation and session,
 contributions) agrees with the sets it summarises, in every state a run can reach.
 */
module NoticeLaws {
  import opened Prelude
  import opened InboxModel

  ghost predicate NoticeAgrees(s: Inbox) {
    var pending := PendingIds(s.messages);
    var n := s.notice;
    && n.pendingCount == |pending|
    && (n.deadline.Some? <==> pending != {})
    && s.contributions.Keys <= pending
    && (forall id :: id in s.contributions ==>
        n.deliveredSession == Some(s.contributions[id]) && s.contributions[id] != "")
    && n.deliveredGeneration <= n.generation
    && (pending != {} ==> n.generation > 0)
    && (pending != {} ==> (n.deliveredGeneration == n.generation <==> s.contributions.Keys == pending))
  }

  /** Re-deriving the cache is sound whenever one transaction only adds or only removes pending rows. */
  lemma RefreshAgrees(was: Inbox, mid: Inbox, now: int)
    requires NoticeAgrees(was)
    requires mid.notice == was.notice && mid.contributions == was.contributions
    requires PendingIds(mid.messages) <= PendingIds(was.messages)
        || PendingIds(was.messages) <= PendingIds(mid.messages)
    ensures NoticeAgrees(Refresh(mid, now))
  {
    var s := Refresh(mid, now);
    var before, after := PendingIds(was.messages), PendingIds(mid.messages);
    if after <= before { SubsetSize(after, before); } else { SubsetSize(before, after); }
    SubsetSize(s.contributions.Keys, after);
    if mid.notice.deliveredSession.Some? {
      assert ToldTo(s.contributions, mid.notice.deliveredSession.value) == s.contributions.Keys;
    } else {
      assert s.contributions.Keys == {};
    }
  }

  lemma DeliverAgrees(s: Inbox, generation: nat, session: Session, ids: seq<Id>, turn: Option<TurnId>)
    requires NoticeAgrees(s) && session != ""
    ensures NoticeAgrees(Deliver(s, generation, session, ids, turn).0)
  {
    var s' := Deliver(s, generation, session, ids, turn).0;
    if s' != s {
      var pending := PendingIds(s.messages);
      assert forall id :: id in s'.contributions ==> s'.contributions[id] == session;
      assert ToldTo(s'.contributions, session) == s'.contributions.Keys;
      SubsetSize(s'.contributions.Keys, pending);
      assert pending != {};
    }
  }

  lemma ReleaseAgrees(s: Inbox, session: Option<Session>, ids: Option<seq<Id>>)
    requires NoticeAgrees(s)
    ensures NoticeAgrees(Release(s, session, ids))
  {
    var s' := Release(s, session, ids);
    if s' != s {
      var x :| x in s.contributions && x !in s'.contributions;
      assert x in PendingIds(s.messages);
    }
  }

  /** No transaction breaks the agreement, whether it commits or rolls back. */
  lemma StepAgrees(s: Inbox, step: Step)
    requires NoticeAgrees(s)
    ensures NoticeAgrees(Apply(s, step))
  {
    if IsBackground(step) { BackgroundStepAgrees(s, step); } else { TurnStepAgrees(s, step); }
  }

  lemma TurnStepAgrees(s: Inbox, step: Step)
    requires NoticeAgrees(s) && !IsBackground(step)
    ensures NoticeAgrees(Apply(s, step))
  {
    match step
    case AdmitStep(ids, t, session, now) => AdmitAgrees(s, ids, t, session, now);
    case StartStep(t, session, claim) => StartAgrees(s, t, session, claim);
    case CompleteStep(processed, renotice, t, owner, now) => CompleteAgrees(s, processed, renotice, t, owner, now);
    case RequeueStep(ids, t, now) => RequeueAgrees(s, ids, t, now);
    case _ => HeaderAgrees(s, step);
  }

  lemma HeaderAgrees(s: Inbox, step: Step)
    requires NoticeAgrees(s) && (step.FinalizeEmptyStep? || step.TransferStep?)
    ensures NoticeAgrees(Apply(s, step))
  {
  }

  lemma BackgroundStepAgrees(s: Inbox, step: Step)
    requires NoticeAgrees(s) && IsBackground(step)
    ensures NoticeAgrees(Apply(s, step))
  {
    match step
    case IngestStep(id, row, now) => IngestAgrees(s, id, row, now);
    case PromoteStep(id, ordinal, after, now) => PromoteAgrees(s, id, ordinal, after, now);
    case CoverStep(covered, now) => CoverAgrees(s, covered, now);
    case DeliverStep(generation, told, ids, turn) =>
      if told != "" { DeliverAgrees(s, generation, told, ids, turn); }
    case ReleaseStep(session, dropped) => ReleaseAgrees(s, session, dropped);
    case TombstoneStep(id) => TombstoneAgrees(s, id);
    case QuarantineStep(id, now) => QuarantineAgrees(s, id, now);
    case BaselineStep(space, channel, seqNo) =>
  }

  lemma IngestAgrees(s: Inbox, id: Id, row: Row, now: int)
    requires NoticeAgrees(s)
    ensures Ingest(s, id, row, now).Ok? ==> NoticeAgrees(Ingest(s, id, row, now).value)
  {
    if Ingest(s, id, row, now).Ok? {
      var stored := s.(messages := s.messages[id := row]);
      if row.phase == Pending {
        RefreshAgrees(s, stored, now);
      } else {
        assert PendingIds(stored.messages) == PendingIds(s.messages);
      }
    }
  }

  lemma StartAgrees(s: Inbox, t: TurnId, session: Option<Session>, claim: Option<(nat, seq<Id>)>)
    requires NoticeAgrees(s)
    ensures StartTurn(s, t, session, claim).Ok? ==> NoticeAgrees(StartTurn(s, t, session, claim).value)
  {
    if claim.Some? && session.Some? && session.value != "" {
      DeliverAgrees(s, claim.value.0, session.value, claim.value.1, None);
    }
  }

  lemma TombstoneAgrees(s: Inbox, id: Id)
    requires NoticeAgrees(s)
    ensures Tombstone(s, id).Ok? ==> NoticeAgrees(Tombstone(s, id).value)
  {
    if Tombstone(s, id).Ok? {
      assert PendingIds(Tombstone(s, id).value.messages) == PendingIds(s.messages);
    }
  }

  lemma PromoteAgrees(s: Inbox, id: Id, ordinal: nat, after: Option<nat>, now: int)
    requires NoticeAgrees(s)
    ensures Promote(s, id, ordinal, after, now).Ok? ==> NoticeAgrees(Promote(s, id, ordinal, after, now).value)
  {
    if Promote(s, id, ordinal, after, now).Ok? {
      var messages := Promote(s, id, ordinal, after, now).value.messages;
      RefreshAgrees(s, s.(messages := messages), now);
    }
  }

  lemma AdmitAgrees(s: Inbox, ids: seq<Id>, t: TurnId, session: Option<Session>, now: int)
    requires NoticeAgrees(s)
    ensures Admit(s, ids, t, session, now).Ok? ==> NoticeAgrees(Admit(s, ids, t, session, now).value)
  {
    if Admit(s, ids, t, session, now).Ok? {
      RefreshAgrees(s, AdmitTables(s, ids, t, session, now), now);
    }
  }

  lemma CompleteAgrees(s: Inbox, processed: seq<Id>, renotice: seq<Id>, t: TurnId, owner: Option<Session>, now: int)
    requires NoticeAgrees(s)
    ensures Complete(s, processed, renotice, t, owner, now).Ok? ==>
              NoticeAgrees(Complete(s, processed, renotice, t, owner, now).value)
  {
    if Complete(s, processed, renotice, t, owner, now).Ok? {
      var mid := CompleteTables(s, processed, renotice, t, now);
      ReturningIsNews(s, processed, renotice, t, owner, now);
      RefreshAgrees(s, mid, now);
    }
  }

  /** A returning row was in a turn, so it is not pending and no session holds evidence for it. */
  lemma ReturningIsNews(s: Inbox, processed: seq<Id>, renotice: seq<Id>, t: TurnId, owner: Option<Session>, now: int)
    requires !CompleteConflicts(s, processed, renotice, t, owner) && s.contributions.Keys <= PendingIds(s.messages)
    ensures var mid := CompleteTables(s, processed, renotice, t, now);
            mid.contributions == s.contributions && PendingIds(s.messages) <= PendingIds(mid.messages)
  {
    assert forall id :: id in processed + renotice ==> OwnedBy(s, id, t);
    assert forall id :: id in Elements(renotice) ==> id in processed + renotice;
    assert forall id :: id in Elements(processed) ==> id in processed + renotice;
  }

  lemma RequeueAgrees(s: Inbox, ids: seq<Id>, t: TurnId, now: int)
    requires NoticeAgrees(s)
    ensures Requeue(s, ids, t, now).Ok? ==> NoticeAgrees(Requeue(s, ids, t, now).value)
  {
    if Requeue(s, ids, t, now).Ok? {
      var mid := RequeueTables(s, ids, t, now);
      assert forall id :: id in ids ==> OwnedBy(s, id, t);
      assert PendingIds(s.messages) <= PendingIds(mid.messages);
      RefreshAgrees(s, mid, now);
    }
  }

  lemma CoverAgrees(s: Inbox, covered: set<Id>, now: int)
    requires NoticeAgrees(s)
    ensures NoticeAgrees(Cover(s, covered, now))
  {
    var s' := Cover(s, covered, now);
    if covered * s.messages.Keys != {} {
      RefreshAgrees(s, s.(messages := s'.messages, covers := s'.covers), now);
    }
  }

  lemma QuarantineAgrees(s: Inbox, id: Id, now: int)
    requires NoticeAgrees(s)
    ensures NoticeAgrees(Quarantine(s, id, now))
  {
    var s' := Quarantine(s, id, now);
    if id in s.messages && s.messages[id].phase == Pending {
      RefreshAgrees(s, s.(messages := s'.messages), now);
    }
  }

  /** In every state reachable from an empty store the cache is the summary it claims to be. */
  lemma {:induction false} NoticeCacheAgrees(steps: seq<Step>)
    ensures NoticeAgrees(Run(EMPTY, steps))
  {
    if steps == [] {
      assert PendingIds(EMPTY.messages) == {};
    } else {
      NoticeCacheAgrees(steps[..|steps| - 1]);
      StepAgrees(Run(EMPTY, steps[..|steps| - 1]), steps[|steps| - 1]);
    }
  }

  /** The two generations tell exactly whether the last accepting session still misses a pending row. */
  lemma GenerationsMeanCaughtUp(steps: seq<Step>)
    requires PendingIds(Run(EMPTY, steps).messages) != {}
    ensures var s := Run(EMPTY, steps);
            s.notice.deliveredGeneration == s.notice.generation <==>
                NoticeCandidates(s, s.notice.deliveredSession) == {}
  {
    NoticeCacheAgrees(steps);
    CaughtUp(Run(EMPTY, steps));
  }

  lemma CaughtUp(s: Inbox)
    requires NoticeAgrees(s) && PendingIds(s.messages) != {}
    ensures s.notice.deliveredGeneration == s.notice.generation <==>
        NoticeCandidates(s, s.notice.deliveredSession) == {}
  {
    var session := s.notice.deliveredSession;
    if session.Some? && session.value != "" {
      assert ToldTo(s.contributions, session.value) == s.contributions.Keys;
      var pending := PendingIds(s.messages);
      assert NoticeCandidates(s, session) == pending - s.contributions.Keys;
      assert pending == (pending - s.contributions.Keys) + s.contributions.Keys;
    } else {
      assert s.contributions.Keys == {};
    }
  }

  // ------------------------------------------------- redelivery is never starved

  /** A row that goes back from a turn to the Inbox is news again, for every session. */
  lemma ReturnedRowIsCandidate(s: Inbox, step: Step, id: Id, session: Option<Session>)
    requires NoticeAgrees(s)
    requires id in s.messages && s.messages[id].phase == InTurn
    requires id in Apply(s, step).messages && Apply(s, step).messages[id].phase == Pending
    ensures id !in Apply(s, step).contributions
    ensures id in NoticeCandidates(Apply(s, step), session)
  {
    assert id !in PendingIds(s.messages);
    UntoldStaysUntold(s, step, id);
  }

  /** The step is an accepted-notice step that names the row. */
  predicate Names(step: Step, id: Id) {
    || (step.DeliverStep? && id in step.ids)
    || (step.StartStep? && step.claim.Some? && id in step.claim.value.1)
  }

  lemma UntoldStaysUntold(s: Inbox, step: Step, id: Id)
    requires id !in s.contributions && !Names(step, id)
    ensures id !in Apply(s, step).contributions
  {
  }

  /** Once untold, a row stays a candidate for every session until a delivery names it or it leaves the Inbox. */
  lemma {:induction false} CandidateUntilNamed(s: Inbox, steps: seq<Step>, id: Id, session: Option<Session>)
    requires id !in s.contributions
    requires forall i :: 0 <= i < |steps| ==> !Names(steps[i], id)
    requires id in PendingIds(Run(s, steps).messages)
    ensures id in NoticeCandidates(Run(s, steps), session)
  {
    UntoldAlongRun(s, steps, id);
  }

  lemma {:induction false} UntoldAlongRun(s: Inbox, steps: seq<Step>, id: Id)
    requires id !in s.contributions
    requires forall i :: 0 <= i < |steps| ==> !Names(steps[i], id)
    ensures id !in Run(s, steps).contributions
  {
    if steps != [] {
      UntoldAlongRun(s, steps[..|steps| - 1], id);
      UntoldStaysUntold(Run(s, steps[..|steps| - 1]), steps[|steps| - 1], id);
    }
  }
}
