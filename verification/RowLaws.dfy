/** What any transaction may do to a row's identity and its place in the Inbox. */
module RowLaws {
  import opened Prelude
  import opened InboxModel

  /** A row still waiting for the operator: the only kind whose position a transaction can change. */
  predicate Promotable(row: Row) {
    row.disposition == Gated && row.phase == Settled
  }

  predicate SamePosition(a: Row, b: Row) {
    a.seqNo == b.seqNo && a.after == b.after && a.ordinal == b.ordinal
  }

  /** The row kept its place and sequence, and its position unless it was promoted. */
  ghost predicate Moved(row: Row, row': Row, step: Step, id: Id) {
    && row'.place == row.place && row'.seqNo == row.seqNo
    && (Promotable(row') ==> Promotable(row))
    && (SamePosition(row, row') || Promotable(row))
    && (row'.phase != Settled && row.phase == Settled ==>
          Promotable(row) && step.PromoteStep? && step.id == id && row' == Released(row, step.ordinal, step.after))
  }

  ghost predicate RowMoves(s: Inbox, step: Step, id: Id)
    requires id in s.messages
  {
    id in Apply(s, step).messages && Moved(s.messages[id], Apply(s, step).messages[id], step, id)
  }

  lemma CacheKeepsRows(s: Inbox, now: int)
    ensures Refresh(s, now).messages == s.messages
  {
  }

  lemma CompletionMoves(s: Inbox, step: Step, id: Id)
    requires id in s.messages && step.CompleteStep?
    ensures RowMoves(s, step, id)
  {
    if !CompleteConflicts(s, step.processed, step.renotice, step.t, step.owner) {
      var s' := CompleteTables(s, step.processed, step.renotice, step.t, step.now);
      CacheKeepsRows(s', step.now);
      CompletedRow(s, step.processed, step.renotice, step.t, step.owner, step.now, id);
    }
  }

  /** Only rows that are in the turn change, and only in what settling or returning them says. */
  lemma CompletedRow(
    s: Inbox, processed: seq<Id>, renotice: seq<Id>, t: TurnId, owner: Option<Session>, now: int, id: Id)
    requires !CompleteConflicts(s, processed, renotice, t, owner) && id in s.messages
    ensures id in CompleteTables(s, processed, renotice, t, now).messages
    ensures var row, row' := s.messages[id], CompleteTables(s, processed, renotice, t, now).messages[id];
            && (row' == row || (row.phase == InTurn && row'.phase != Settled))
            && row' == row.(phase := row'.phase, turn := row'.turn, processedAt := row'.processedAt, renotified :=
                row'.renotified)
  {
    assert id in processed || id in renotice ==> id in processed + renotice;
    assert id in processed + renotice ==> OwnedBy(s, id, t);
  }

  lemma RequeueMoves(s: Inbox, step: Step, id: Id)
    requires id in s.messages && step.RequeueStep?
    ensures RowMoves(s, step, id)
  {
    if !RequeueConflicts(s, step.ids, step.t) {
      CacheKeepsRows(RequeueTables(s, step.ids, step.t, step.now), step.now);
      RequeuedRow(s, step.ids, step.t, step.now, id);
    }
  }

  lemma RequeuedRow(s: Inbox, ids: seq<Id>, t: TurnId, now: int, id: Id)
    requires !RequeueConflicts(s, ids, t) && id in s.messages
    ensures id in RequeueTables(s, ids, t, now).messages
    ensures var row, row' := s.messages[id], RequeueTables(s, ids, t, now).messages[id];
            && (row' == row || (row.phase == InTurn && row'.phase != Settled))
            && row' == row.(phase := row'.phase, turn := row'.turn, visibleAt := row'.visibleAt, processedAt :=
                row'.processedAt)
  {
    assert id in ids ==> OwnedBy(s, id, t);
  }

  lemma AdmitMoves(s: Inbox, step: Step, id: Id)
    requires id in s.messages && step.AdmitStep?
    ensures RowMoves(s, step, id)
  {
    if !AdmitConflicts(s, step.ids, step.t, step.session) {
      CacheKeepsRows(AdmitTables(s, step.ids, step.t, step.session, step.now), step.now);
      AdmittedRow(s, step.ids, step.t, step.session, step.now, id);
    }
  }

  lemma AdmittedRow(s: Inbox, ids: seq<Id>, t: TurnId, session: Option<Session>, now: int, id: Id)
    requires !AdmitConflicts(s, ids, t, session) && id in s.messages
    ensures id in AdmitTables(s, ids, t, session, now).messages
    ensures var row, row' := s.messages[id], AdmitTables(s, ids, t, session, now).messages[id];
            && (row' == row || row.phase == Pending)
            && row' == row.(phase := row'.phase, turn := row'.turn, visibleAt := row'.visibleAt)
  {
    assert id in ids ==> s.messages[id].phase == Pending;
  }

  lemma IngestMoves(s: Inbox, step: Step, id: Id)
    requires id in s.messages && step.IngestStep?
    ensures RowMoves(s, step, id)
  {
    CacheKeepsRows(s.(messages := s.messages[step.id := step.row]), step.now);
    assert Apply(s, step).messages[id] == s.messages[id];
  }

  lemma PromoteMoves(s: Inbox, step: Step, id: Id)
    requires id in s.messages && step.PromoteStep?
    ensures RowMoves(s, step, id)
  {
    if step.id in s.messages {
      var released := Released(s.messages[step.id], step.ordinal, step.after);
      CacheKeepsRows(s.(messages := s.messages[step.id := released]), step.now);
    }
  }

  lemma QuarantineMoves(s: Inbox, step: Step, id: Id)
    requires id in s.messages && step.QuarantineStep?
    ensures RowMoves(s, step, id)
  {
    if step.id in s.messages {
      var removed := s.messages[step.id].(disposition := Terminal, phase := Settled, turn := None, visibleAt := None);
      CacheKeepsRows(s.(messages := s.messages[step.id := removed]), step.now);
    }
  }

  lemma TombstoneMoves(s: Inbox, step: Step, id: Id)
    requires id in s.messages && step.TombstoneStep?
    ensures RowMoves(s, step, id)
  {
  }

  lemma CoverMoves(s: Inbox, step: Step, id: Id)
    requires id in s.messages && step.CoverStep?
    ensures RowMoves(s, step, id)
  {
    CoveredRow(s, step.covered, step.now, id);
  }

  lemma CoveredRow(s: Inbox, covered: set<Id>, now: int, id: Id)
    requires id in s.messages
    ensures id in Cover(s, covered, now).messages
    ensures var row, row' := s.messages[id], Cover(s, covered, now).messages[id];
            && (row' == row || (row.phase == Pending && row'.phase == Processed))
            && row' == row.(phase := row'.phase, turn := row'.turn, visibleAt := row'.visibleAt, processedAt :=
                row'.processedAt)
  {
  }

  /** Turn headers, notices and baselines are no rows. */
  lemma RowsUntouched(s: Inbox, step: Step)
    requires step.StartStep? || step.FinalizeEmptyStep? || step.TransferStep?
             || step.DeliverStep? || step.ReleaseStep? || step.BaselineStep?
    ensures Apply(s, step).messages == s.messages
  {
    match step
    case StartStep(t, session, claim) => StartKeepsRows(s, t, session, claim);
    case DeliverStep(generation, told, ids, turn) => DeliverKeepsRows(s, generation, told, ids, turn);
    case ReleaseStep(session, dropped) => assert Release(s, session, dropped).messages == s.messages;
    case _ =>
  }

  lemma DeliverKeepsRows(s: Inbox, generation: nat, session: Session, ids: seq<Id>, turn: Option<TurnId>)
    ensures Deliver(s, generation, session, ids, turn).0.messages == s.messages
  {
  }

  lemma StartKeepsRows(s: Inbox, t: TurnId, session: Option<Session>, claim: Option<(nat, seq<Id>)>)
    ensures StartTurn(s, t, session, claim).Ok? ==> StartTurn(s, t, session, claim).value.messages == s.messages
  {
    if claim.Some? && session.Some? {
      DeliverKeepsRows(s, claim.value.0, session.value, claim.value.1, None);
    }
  }

  /** Every transaction keeps a known row, in its place. */
  lemma KnownRowMoves(s: Inbox, step: Step, id: Id)
    requires id in s.messages
    ensures RowMoves(s, step, id)
  {
    match step
    case CompleteStep(_, _, _, _, _) => CompletionMoves(s, step, id);
    case RequeueStep(_, _, _) => RequeueMoves(s, step, id);
    case AdmitStep(_, _, _, _) => AdmitMoves(s, step, id);
    case IngestStep(_, _, _) => IngestMoves(s, step, id);
    case PromoteStep(_, _, _, _) => PromoteMoves(s, step, id);
    case QuarantineStep(_, _) => QuarantineMoves(s, step, id);
    case TombstoneStep(_) => TombstoneMoves(s, step, id);
    case CoverStep(_, _) => CoverMoves(s, step, id);
    case _ => RowsUntouched(s, step);
  }

  /** Only ingestion adds a row. */
  lemma NewRowIngested(s: Inbox, step: Step, id: Id)
    requires id !in s.messages && id in Apply(s, step).messages
    ensures step.IngestStep? && step.id == id && Apply(s, step).messages[id] == step.row && Outcome(s, step).Ok?
  {
    if !step.IngestStep? { OthersAddNoRow(s, step); }
  }

  lemma OthersAddNoRow(s: Inbox, step: Step)
    requires !step.IngestStep?
    ensures Apply(s, step).messages.Keys == s.messages.Keys
  {
    match step
    case CoverStep(covered, now) => CoverAddsNoRow(s, covered, now);
    case StartStep(_, _, _) => RowsUntouched(s, step);
    case DeliverStep(_, _, _, _) => RowsUntouched(s, step);
    case ReleaseStep(_, _) => RowsUntouched(s, step);
    case _ =>
  }

  lemma CoverAddsNoRow(s: Inbox, covered: set<Id>, now: int)
    ensures Cover(s, covered, now).messages.Keys == s.messages.Keys
  {
  }
}
