/**
 Turn ownership and settlement: who owns a row, in what order, and why nothing is settled unread.
 */
module TurnLaws {
  import opened Prelude
  import opened InboxModel

  /** Ordinals are 0, 1, 2, ... in admission order and no row is listed twice. */
  ghost predicate InAdmissionOrder(entries: seq<Member>) {
    && (forall i :: 0 <= i < |entries| ==> entries[i].ordinal == i)
    && Distinct(MemberIds(entries))
  }

  /** A row is in a turn exactly when it is a member of the one active turn it names. */
  ghost predicate TurnsOwn(s: Inbox) {
    && (forall t :: t in s.members ==> t in s.turns && InAdmissionOrder(s.members[t]))
    && (forall t, id :: IsActive(s, t) && id in MemberIds(Entries(s, t)) ==> OwnedBy(s, id, t))
    && (forall id, t :: OwnedBy(s, id, t) ==> IsActive(s, t) && id in MemberIds(Entries(s, t)))
    && (forall id :: id in s.messages && s.messages[id].phase == InTurn ==> s.messages[id].turn.Some?)
    && (forall id :: id in s.messages && s.messages[id].phase in {Settled, Pending} ==> s.messages[id].turn.None?)
  }

  /** Everything in or past a turn was shown to a model and is on record as admitted. */
  ghost predicate ReadBeforeSettled(s: Inbox) {
    forall id :: id in s.messages ==> RowHistory(s, id)
  }

  ghost predicate RowHistory(s: Inbox, id: Id)
    requires id in s.messages
  {
    var r := s.messages[id];
    && (r.phase in {InTurn, Processed} ==> r.visibleAt.Some?)
    && (r.phase == Processed || r.renotified ==> HasHistory(s, id))
    && (r.phase != Settled ==> Listed(r))
  }

  ghost predicate Sound(s: Inbox) {
    TurnsOwn(s) && ReadBeforeSettled(s)
  }

  lemma MaxOrdinalInOrder(entries: seq<Member>)
    requires InAdmissionOrder(entries)
    ensures MaxOrdinal(entries) == |entries| - 1
  {
    if entries != [] {
      assert entries[|entries| - 1] in entries;
      MaxOrdinalIsTaken(entries);
    }
  }

  lemma {:induction false} MaxOrdinalIsTaken(entries: seq<Member>)
    requires entries != []
    ensures exists i :: 0 <= i < |entries| && entries[i].ordinal == MaxOrdinal(entries)
  {
    var front := entries[..|entries| - 1];
    if front == [] {
      assert MaxOrdinal(front) == -1;
      assert entries[0].ordinal == MaxOrdinal(entries);
    } else {
      MaxOrdinalIsTaken(front);
      var i :| 0 <= i < |front| && front[i].ordinal == MaxOrdinal(front);
      assert entries[i] == front[i];
      assert entries[|entries| - 1].ordinal == MaxOrdinal(entries) || entries[i].ordinal == MaxOrdinal(entries);
    }
  }

  lemma HistoryGrows(s: Inbox, s': Inbox, id: Id)
    requires HasHistory(s, id)
    requires forall t :: t in s.members ==> t in s'.members && s.members[t] <= s'.members[t]
    ensures HasHistory(s', id)
  {
    var t :| t in s.members && id in MemberIds(s.members[t]);
    var i :| 0 <= i < |s.members[t]| && MemberIds(s.members[t])[i] == id;
    assert MemberIds(s'.members[t])[i] == id;
  }

  lemma CacheIsSeparate(s: Inbox, now: int)
    ensures Sound(s) ==> Sound(Refresh(s, now))
  {
    var s' := Refresh(s, now);
    assert forall t :: Entries(s', t) == Entries(s, t) && IsActive(s', t) == IsActive(s, t);
    assert forall id, t :: OwnedBy(s', id, t) == OwnedBy(s, id, t);
    assert forall id :: HasHistory(s', id) == HasHistory(s, id);
    assert ReadBeforeSettled(s) ==> forall id :: id in s.messages ==> RowHistory(s, id);
  }

  /** The table changes of a committed admission, without the notice cache. */
  ghost predicate Admitted(s: Inbox, s': Inbox, ids: seq<Id>, t: TurnId) {
    && Distinct(ids)
    && (t in s.turns ==> IsActive(s, t))
    && IsActive(s', t) && s'.turns.Keys == s.turns.Keys + {t}
    && (forall u :: u != t ==> IsActive(s', u) == IsActive(s, u))
    && t in s'.members && s'.members == s.members[t := s'.members[t]]
    && Entries(s, t) <= s'.members[t]
    && MemberIds(s'.members[t]) == MemberIds(Entries(s, t)) + ids
    && (forall i :: |Entries(s, t)| <= i < |s'.members[t]| ==> s'.members[t][i].ordinal == i)
    && s'.messages.Keys == s.messages.Keys
    && (forall x :: x in s.messages && x !in ids ==> s'.messages[x] == s.messages[x])
    && (forall x :: x in ids ==> x in s.messages && RowAdmitted(s.messages[x], s'.messages[x], t))
  }

  ghost predicate RowAdmitted(r: Row, r': Row, t: TurnId) {
    && r.phase == Pending && r'.visibleAt.Some?
    && r' == r.(phase := InTurn, turn := Some(t), visibleAt := r'.visibleAt)
  }

  lemma AppendedInOrder(was: seq<Member>, now: seq<Member>, ids: seq<Id>)
    requires InAdmissionOrder(was) && was <= now && MemberIds(now) == MemberIds(was) + ids
    requires Distinct(ids) && forall x :: x in ids ==> x !in MemberIds(was)
    requires forall i :: |was| <= i < |now| ==> now[i].ordinal == i
    ensures InAdmissionOrder(now)
  {
    forall i, j | 0 <= i < j < |now| ensures MemberIds(now)[i] != MemberIds(now)[j] {
      if i < |was| <= j {
        assert MemberIds(now)[i] == MemberIds(was)[i] && MemberIds(was)[i] in MemberIds(was);
        assert MemberIds(now)[j] == ids[j - |was|] && ids[j - |was|] in ids;
      } else if |was| <= i {
        assert MemberIds(now)[i] == ids[i - |was|] && MemberIds(now)[j] == ids[j - |was|];
      } else {
        assert MemberIds(now)[i] == MemberIds(was)[i] && MemberIds(now)[j] == MemberIds(was)[j];
      }
    }
  }

  lemma AdmittedOwn(s: Inbox, s': Inbox, ids: seq<Id>, t: TurnId)
    requires TurnsOwn(s) && Admitted(s, s', ids, t)
    ensures TurnsOwn(s')
  {
    var was, now := Entries(s, t), s'.members[t];
    assert forall x :: x in ids ==> !OwnedBy(s, x, t);
    assert t in s.members ==> InAdmissionOrder(s.members[t]);
    AppendedInOrder(was, now, ids);
    forall u, x | IsActive(s', u) && x in MemberIds(Entries(s', u)) ensures OwnedBy(s', x, u) {
      if u != t || x in MemberIds(was) { assert OwnedBy(s, x, u); } else { assert x in ids; }
    }
    forall x, u | OwnedBy(s', x, u) ensures IsActive(s', u) && x in MemberIds(Entries(s', u)) {
      if x !in ids { assert OwnedBy(s, x, u); } else { assert u == t; }
    }
  }

  lemma AdmittedRead(s: Inbox, s': Inbox, ids: seq<Id>, t: TurnId)
    requires ReadBeforeSettled(s) && Admitted(s, s', ids, t)
    ensures ReadBeforeSettled(s')
  {
    forall x | x in s'.messages ensures RowHistory(s', x) {
      assert RowHistory(s, x);
      if x in ids {
        assert x in MemberIds(s'.members[t]);
      } else if HasHistory(s, x) {
        HistoryGrows(s, s', x);
      }
    }
  }

  lemma AdmitIsAdmitted(s: Inbox, ids: seq<Id>, t: TurnId, session: Option<Session>, now: int)
    requires TurnsOwn(s)
    requires !AdmitConflicts(s, ids, t, session)
    ensures Admitted(s, AdmitTables(s, ids, t, session, now), ids, t)
  {
    DistinctIffSize(ids);
    AddedInOrder(s, ids, t);
  }

  lemma AddedInOrder(s: Inbox, ids: seq<Id>, t: TurnId)
    requires TurnsOwn(s)
    ensures var now := Entries(s, t) + AddedMembers(s, ids, t);
            && MemberIds(now) == MemberIds(Entries(s, t)) + ids
            && forall i :: |Entries(s, t)| <= i < |now| ==> now[i].ordinal == i
  {
    if t in s.members { MaxOrdinalInOrder(Entries(s, t)); }
  }

  lemma AdmitSound(s: Inbox, ids: seq<Id>, t: TurnId, session: Option<Session>, now: int)
    requires Sound(s)
    requires Admit(s, ids, t, session, now).Ok?
    ensures Sound(Admit(s, ids, t, session, now).value)
  {
    AdmitIsAdmitted(s, ids, t, session, now);
    var s' := AdmitTables(s, ids, t, session, now);
    CacheIsSeparate(s', now);
    AdmittedOwn(s, s', ids, t);
    AdmittedRead(s, s', ids, t);
  }

  /** The table changes of a step that ends turn `t`: all its members leave it, nothing else moves. */
  ghost predicate Ended(s: Inbox, s': Inbox, t: TurnId) {
    && s'.members == s.members && s'.turns.Keys == s.turns.Keys
    && IsActive(s, t) && !IsActive(s', t) && (forall u :: u != t ==> IsActive(s', u) == IsActive(s, u))
    && s'.messages.Keys == s.messages.Keys
    && (forall x :: x in s.messages && x !in MemberIds(Entries(s, t)) ==> s'.messages[x] == s.messages[x])
    && (forall x :: x in s.messages && x in MemberIds(Entries(s, t)) ==> RowEnded(s.messages[x], s'.messages[x]))
  }

  ghost predicate RowEnded(r: Row, r': Row) {
    && r == r'.(phase := r.phase, turn := r.turn, visibleAt := r.visibleAt,
                processedAt := r.processedAt, renotified := r.renotified)
    && r.phase == InTurn
    && (r'.phase == Pending ==> r'.turn.None?)
    && (r'.phase == Processed ==> r'.visibleAt == r.visibleAt)
    && r'.phase in {Pending, Processed}
  }

  lemma EndedOwn(s: Inbox, s': Inbox, t: TurnId)
    requires TurnsOwn(s) && Ended(s, s', t)
    ensures TurnsOwn(s')
  {
    forall u, x | IsActive(s', u) && x in MemberIds(Entries(s', u)) ensures OwnedBy(s', x, u) {
      assert OwnedBy(s, x, u);
      assert IsActive(s, t) && x in MemberIds(Entries(s, t)) ==> OwnedBy(s, x, t);
      assert x !in MemberIds(Entries(s, t)) by { StillForeign(s, s', t, u, x); }
    }
    forall x, u | OwnedBy(s', x, u) ensures IsActive(s', u) && x in MemberIds(Entries(s', u)) {
      assert s'.messages[x] == s.messages[x] && OwnedBy(s, x, u);
    }
  }

  lemma StillForeign(s: Inbox, s': Inbox, t: TurnId, u: TurnId, x: Id)
    requires TurnsOwn(s) && Ended(s, s', t) && u != t && OwnedBy(s, x, u)
    requires IsActive(s, t)
    ensures x !in MemberIds(Entries(s, t))
  {
    assert x in MemberIds(Entries(s, t)) ==> OwnedBy(s, x, t);
  }

  lemma EndedRead(s: Inbox, s': Inbox, t: TurnId)
    requires Sound(s) && Ended(s, s', t)
    ensures ReadBeforeSettled(s')
  {
    forall x | x in s'.messages ensures RowHistory(s', x) {
      assert RowHistory(s, x);
      if x in MemberIds(Entries(s, t)) {
        assert t in s.members && x in MemberIds(s'.members[t]);
      } else if HasHistory(s, x) {
        HistoryGrows(s, s', x);
      }
    }
  }

  lemma CompleteEnds(s: Inbox, processed: seq<Id>, renotice: seq<Id>, t: TurnId, owner: Option<Session>, now: int)
    requires !CompleteConflicts(s, processed, renotice, t, owner)
    ensures Ended(s, CompleteTables(s, processed, renotice, t, now), t)
  {
    var members := Elements(MemberIds(Entries(s, t)));
    assert members == Elements(processed + renotice);
    assert forall x :: x in processed + renotice ==> OwnedBy(s, x, t);
    assert forall x :: x in members <==> x in processed || x in renotice;
  }

  /** A covered member is settled as read; any other goes back pending, as if never shown. */
  ghost predicate RowHandedBack(r: Row, r': Row, covered: bool) {
    if covered then r'.phase == Processed && r'.turn.None? && r'.visibleAt == r.visibleAt
    else r'.phase == Pending && r'.turn.None? && r'.visibleAt.None?
  }

  lemma RequeueEnds(s: Inbox, ids: seq<Id>, t: TurnId, now: int)
    requires !RequeueConflicts(s, ids, t)
    ensures Ended(s, RequeueTables(s, ids, t, now), t)
    ensures forall x :: x in MemberIds(Entries(s, t)) && x in s.messages ==>
              RowHandedBack(s.messages[x], RequeueTables(s, ids, t, now).messages[x], x in s.covers)
  {
    var members := Elements(MemberIds(Entries(s, t)));
    assert members == Elements(ids);
    assert forall x :: x in ids ==> OwnedBy(s, x, t);
    assert forall x :: x in members <==> x in ids;
  }

  /** The table changes of a cover: some pending rows with history become processed. */
  ghost predicate Settles(s: Inbox, s': Inbox) {
    && s'.members == s.members && s'.turns == s.turns && s'.messages.Keys == s.messages.Keys
    && forall x :: x in s.messages ==>
        s'.messages[x] == s.messages[x] || RowSettled(s, s.messages[x], s'.messages[x], x)
  }

  ghost predicate RowSettled(s: Inbox, r: Row, r': Row, id: Id) {
    && r.phase == Pending && (r.renotified || HasHistory(s, id))
    && r'.visibleAt.Some?
    && r' == r.(phase := Processed, turn := None, visibleAt := r'.visibleAt, processedAt := r'.processedAt)
  }

  lemma SettlesSound(s: Inbox, s': Inbox)
    requires Sound(s) && Settles(s, s')
    ensures Sound(s')
  {
    forall u, id | IsActive(s', u) && id in MemberIds(Entries(s', u)) ensures OwnedBy(s', id, u) {
      assert OwnedBy(s, id, u);
    }
    forall id, u | OwnedBy(s', id, u) ensures IsActive(s', u) && id in MemberIds(Entries(s', u)) {
      assert OwnedBy(s, id, u);
    }
    forall id | id in s'.messages ensures RowHistory(s', id) {
      assert RowHistory(s, id);
      if HasHistory(s, id) { HistoryGrows(s, s', id); }
    }
  }

  /** A cover settles exactly the pending rows among its ids that were presented before, and changes no other row. */
  lemma CoverSettlesPresented(s: Inbox, covered: set<Id>, now: int, id: Id)
    requires id in s.messages
    ensures id in Cover(s, covered, now).messages
    ensures var r, r' := s.messages[id], Cover(s, covered, now).messages[id];
            if id in covered && r.phase == Pending && (r.renotified || HasHistory(s, id))
            then r'.phase == Processed && r'.turn.None? && r'.visibleAt.Some?
            else r' == r
  {
    assert id in covered ==> id in covered * s.messages.Keys;
  }

  lemma CoverSound(s: Inbox, covered: set<Id>, now: int)
    requires Sound(s)
    ensures Sound(Cover(s, covered, now))
  {
    var recorded := covered * s.messages.Keys;
    if recorded != {} {
      var s' := s.(messages := Cover(s, covered, now).messages, covers := s.covers + recorded);
      SettlesSound(s, s');
      CacheIsSeparate(s', now);
    }
  }

  /** A transaction that leaves membership alone and rewrites at most one row outside any turn. */
  lemma FramedSound(s: Inbox, s': Inbox, id: Id)
    requires Sound(s)
    requires s'.members == s.members
    requires forall t :: IsActive(s', t) == IsActive(s, t) || Entries(s, t) == []
    requires forall t :: t in s.turns ==> t in s'.turns
    requires s'.messages.Keys <= s.messages.Keys + {id} && s.messages.Keys <= s'.messages.Keys
    requires forall x :: x in s.messages && x != id ==> s'.messages[x] == s.messages[x]
    requires id in s'.messages ==>
               || (id in s.messages && s'.messages[id] == s.messages[id])
               || (&& (id in s.messages ==> s.messages[id].phase in {Settled, Pending})
                   && s'.messages[id].phase in {Settled, Pending} && s'.messages[id].turn.None?
                   && (s'.messages[id].phase == Pending ==> Listed(s'.messages[id]))
                   && (s'.messages[id].renotified ==> id in s.messages && s.messages[id].renotified))
    ensures Sound(s')
  {
    forall u, x | IsActive(s', u) && x in MemberIds(Entries(s', u)) ensures OwnedBy(s', x, u) {
      assert OwnedBy(s, x, u);
    }
    forall x, u | OwnedBy(s', x, u) ensures IsActive(s', u) && x in MemberIds(Entries(s', u)) {
      assert OwnedBy(s, x, u);
    }
    forall x | x in s'.messages ensures RowHistory(s', x) {
      if x in s.messages {
        assert RowHistory(s, x);
        if HasHistory(s, x) { HistoryGrows(s, s', x); }
      }
    }
  }

  lemma EndedSound(s: Inbox, s': Inbox, t: TurnId, now: int)
    requires Sound(s) && Ended(s, s', t)
    ensures Sound(Refresh(s', now))
  {
    EndedOwn(s, s', t);
    EndedRead(s, s', t);
    CacheIsSeparate(s', now);
  }

  lemma IngestSound(s: Inbox, id: Id, row: Row, now: int)
    requires Sound(s) && Ingest(s, id, row, now).Ok?
    ensures Sound(Ingest(s, id, row, now).value)
  {
    var stored := s.(messages := s.messages[id := row]);
    FramedSound(s, stored, id);
    CacheIsSeparate(stored, now);
  }

  lemma PromoteSound(s: Inbox, id: Id, ordinal: nat, after: Option<nat>, now: int)
    requires Sound(s) && Promote(s, id, ordinal, after, now).Ok?
    ensures Sound(Promote(s, id, ordinal, after, now).value)
  {
    var released := s.(messages := Promote(s, id, ordinal, after, now).value.messages);
    FramedSound(s, released, id);
    CacheIsSeparate(released, now);
  }

  lemma QuarantineSound(s: Inbox, id: Id, now: int)
    requires Sound(s)
    ensures Sound(Quarantine(s, id, now))
  {
    var removed := s.(messages := Quarantine(s, id, now).messages);
    FramedSound(s, removed, id);
    CacheIsSeparate(removed, now);
  }

  lemma TombstoneSound(s: Inbox, id: Id)
    requires Sound(s)
    ensures Tombstone(s, id).Ok? ==> Sound(Tombstone(s, id).value)
  {
    if Tombstone(s, id).Ok? { FramedSound(s, Tombstone(s, id).value, id); }
  }

  lemma NoticeStepSound(s: Inbox, step: Step)
    requires step.DeliverStep? || step.ReleaseStep? || step.BaselineStep?
    requires Sound(s)
    ensures Sound(Apply(s, step))
  {
    FramedSound(s, Apply(s, step), "");
  }

  lemma StartSound(s: Inbox, t: TurnId, session: Option<Session>, claim: Option<(nat, seq<Id>)>)
    requires Sound(s) && StartTurn(s, t, session, claim).Ok?
    ensures Sound(StartTurn(s, t, session, claim).value)
  {
    FramedSound(s, StartTurn(s, t, session, claim).value, "");
  }

  lemma CompleteSound(
    s: Inbox, processed: seq<Id>, renotice: seq<Id>, t: TurnId, owner: Option<Session>, now: int)
    requires Sound(s)
    ensures Complete(s, processed, renotice, t, owner, now).Ok? ==>
              Sound(Complete(s, processed, renotice, t, owner, now).value)
  {
    if !CompleteConflicts(s, processed, renotice, t, owner) {
      CompleteEnds(s, processed, renotice, t, owner, now);
      EndedSound(s, CompleteTables(s, processed, renotice, t, now), t, now);
    }
  }

  lemma RequeueSound(s: Inbox, ids: seq<Id>, t: TurnId, now: int)
    requires Sound(s)
    ensures Requeue(s, ids, t, now).Ok? ==> Sound(Requeue(s, ids, t, now).value)
  {
    if !RequeueConflicts(s, ids, t) {
      RequeueEnds(s, ids, t, now);
      EndedSound(s, RequeueTables(s, ids, t, now), t, now);
    }
  }

  lemma HeaderSound(s: Inbox, step: Step)
    requires Sound(s) && (step.FinalizeEmptyStep? || step.TransferStep?)
    ensures Sound(Apply(s, step))
  {
    FramedSound(s, Apply(s, step), "");
  }

  /** Transactions that start, grow, move or end a turn keep the invariant. */
  lemma TurnStepSound(s: Inbox, step: Step)
    requires Sound(s) && !IsBackground(step)
    ensures Sound(Apply(s, step))
  {
    match step
    case AdmitStep(ids, t, session, now) =>
      if Admit(s, ids, t, session, now).Ok? { AdmitSound(s, ids, t, session, now); }
    case CompleteStep(processed, renotice, t, owner, now) => CompleteSound(s, processed, renotice, t, owner, now);
    case RequeueStep(ids, t, now) => RequeueSound(s, ids, t, now);
    case StartStep(t, session, claim) =>
      if StartTurn(s, t, session, claim).Ok? { StartSound(s, t, session, claim); }
    case FinalizeEmptyStep(_, _) => HeaderSound(s, step);
    case TransferStep(_, _, _) => HeaderSound(s, step);
  }

  /** So do all others. */
  lemma BackgroundStepSound(s: Inbox, step: Step)
    requires Sound(s) && IsBackground(step)
    ensures Sound(Apply(s, step))
  {
    match step
    case CoverStep(covered, now) => CoverSound(s, covered, now);
    case IngestStep(id, row, now) => if Ingest(s, id, row, now).Ok? { IngestSound(s, id, row, now); }
    case PromoteStep(id, ordinal, after, now) =>
      if Promote(s, id, ordinal, after, now).Ok? { PromoteSound(s, id, ordinal, after, now); }
    case QuarantineStep(id, now) => QuarantineSound(s, id, now);
    case TombstoneStep(id) => TombstoneSound(s, id);
    case DeliverStep(_, _, _, _) => NoticeStepSound(s, step);
    case ReleaseStep(_, _) => NoticeStepSound(s, step);
    case BaselineStep(_, _, _) => NoticeStepSound(s, step);
  }

  lemma StepSound(s: Inbox, step: Step)
    requires Sound(s)
    ensures Sound(Apply(s, step))
  {
    if IsBackground(step) { BackgroundStepSound(s, step); } else { TurnStepSound(s, step); }
  }

  /** Ownership and read-before-settle hold in every state reachable from an empty store. */
  lemma {:induction false} OwnershipHolds(steps: seq<Step>)
    ensures Sound(Run(EMPTY, steps))
  {
    if steps != [] {
      OwnershipHolds(steps[..|steps| - 1]);
      StepSound(Run(EMPTY, steps[..|steps| - 1]), steps[|steps| - 1]);
    }
  }

  /** No row and no turn ever goes by the empty name. */
  lemma NoEmptyId(s: Inbox, step: Step)
    requires "" !in s.messages
    ensures "" !in Apply(s, step).messages
  {
  }

  lemma NoEmptyTurn(s: Inbox, step: Step)
    requires "" !in s.turns
    ensures "" !in Apply(s, step).turns
  {
  }

  /** Ending a turn empties it in the same step: every member is pending or processed afterwards. */
  lemma EndingEmptiesTurn(s: Inbox, step: Step, t: TurnId, id: Id)
    requires Sound(s) && IsActive(s, t) && !IsActive(Apply(s, step), t)
    requires id in MemberIds(Entries(s, t))
    ensures id in Apply(s, step).messages && Apply(s, step).messages[id].phase in {Pending, Processed}
  {
    assert OwnedBy(s, id, t);
    OnlyEndingsDeactivate(s, step, t);
    if step.CompleteStep? {
      CompleteEnds(s, step.processed, step.renotice, t, step.owner, step.now);
    } else {
      RequeueEnds(s, step.ids, t, step.now);
    }
  }

  lemma OnlyEndingsDeactivate(s: Inbox, step: Step, t: TurnId)
    requires IsActive(s, t) && !IsActive(Apply(s, step), t)
    ensures (step.CompleteStep? || step.RequeueStep? || step.FinalizeEmptyStep?) && step.t == t && Outcome(s, step).Ok?
    ensures step.FinalizeEmptyStep? ==> Entries(s, t) == []
  {
  }

  /** Once processed, a row is never touched by any later transaction's phase change. */
  lemma ProcessedIsAbsorbing(s: Inbox, step: Step, id: Id)
    requires id in s.messages && s.messages[id].phase == Processed
    ensures id in Apply(s, step).messages && Apply(s, step).messages[id].phase == Processed
    ensures s.messages[id].visibleAt.Some? ==> Apply(s, step).messages[id].visibleAt.Some?
  {
    if step.CompleteStep? {
      CompletionKeepsProcessed(s, step, id);
    } else if step.RequeueStep? {
      assert Outcome(s, step).Ok? ==> forall x :: x in step.ids ==> OwnedBy(s, x, step.t);
    } else {
      OthersKeepProcessed(s, step, id);
    }
  }

  lemma CompletionKeepsProcessed(s: Inbox, step: Step, id: Id)
    requires id in s.messages && s.messages[id].phase == Processed && step.CompleteStep?
    ensures id in Apply(s, step).messages && Apply(s, step).messages[id] == s.messages[id]
  {
    var all := step.processed + step.renotice;
    assert !CompleteConflicts(s, step.processed, step.renotice, step.t, step.owner) ==> id in all ==>
        OwnedBy(s, id, step.t);
    assert id in step.processed || id in step.renotice ==> id in all;
  }

  lemma OthersKeepProcessed(s: Inbox, step: Step, id: Id)
    requires id in s.messages && s.messages[id].phase == Processed && !step.CompleteStep? && !step.RequeueStep?
    ensures id in Apply(s, step).messages && Apply(s, step).messages[id] == s.messages[id]
  {
  }

  /** The step is a committed admission of the row. */
  predicate Admits(s: Inbox, step: Step, id: Id) {
    step.AdmitStep? && id in step.ids && Outcome(s, step).Ok?
  }

  lemma OnlyAdmissionAddsMembers(s: Inbox, step: Step)
    ensures Apply(s, step).members ==
              if step.AdmitStep? && Outcome(s, step).Ok?
              then s.members[step.t := Entries(s, step.t) + AddedMembers(s, step.ids, step.t)]
              else s.members
  {
    if !step.AdmitStep? { OthersKeepMembers(s, step); }
  }

  lemma OthersKeepMembers(s: Inbox, step: Step)
    requires !step.AdmitStep?
    ensures Apply(s, step).members == s.members
  {
    if IsBackground(step) {
      BackgroundKeepsTurns(s, step);
    } else {
      match step
      case StartStep(t, session, claim) => StartKeepsMembers(s, t, session, claim);
      case CompleteStep(processed, renotice, t, owner, now) =>
        if t in s.turns { CompleteKeepsMembers(s, processed, renotice, t, now); }
      case RequeueStep(ids, t, now) => if t in s.turns { RequeueKeepsMembers(s, ids, t, now); }
      case _ =>
    }
  }

  /** Two table states with the same turns and members. */
  ghost predicate SameTurns(a: Inbox, b: Inbox) {
    a.turns == b.turns && a.members == b.members
  }

  /** Background transactions leave turns and members alone. */
  lemma BackgroundKeepsTurns(s: Inbox, step: Step)
    requires IsBackground(step)
    ensures SameTurns(s, Apply(s, step))
  {
    match step
    case IngestStep(id, row, now) => IngestKeepsTurns(s, id, row, now);
    case PromoteStep(id, ordinal, after, now) => PromoteKeepsTurns(s, id, ordinal, after, now);
    case CoverStep(covered, now) => CoverKeepsTurns(s, covered, now);
    case DeliverStep(generation, told, ids, turn) => DeliverKeepsTurns(s, generation, told, ids, turn);
    case ReleaseStep(session, dropped) => ReleaseKeepsTurns(s, session, dropped);
    case QuarantineStep(id, now) => QuarantineKeepsTurns(s, id, now);
    case _ =>
  }

  lemma IngestKeepsTurns(s: Inbox, id: Id, row: Row, now: int)
    ensures Ingest(s, id, row, now).Ok? ==> SameTurns(s, Ingest(s, id, row, now).value)
  {
  }

  lemma PromoteKeepsTurns(s: Inbox, id: Id, ordinal: nat, after: Option<nat>, now: int)
    ensures Promote(s, id, ordinal, after, now).Ok? ==> SameTurns(s, Promote(s, id, ordinal, after, now).value)
  {
  }

  lemma StartKeepsMembers(s: Inbox, t: TurnId, session: Option<Session>, claim: Option<(nat, seq<Id>)>)
    ensures StartTurn(s, t, session, claim).Ok? ==> StartTurn(s, t, session, claim).value.members == s.members
  {
    if claim.Some? && session.Some? {
      DeliverKeepsTurns(s, claim.value.0, session.value, claim.value.1, None);
    }
  }

  lemma CompleteKeepsMembers(s: Inbox, processed: seq<Id>, renotice: seq<Id>, t: TurnId, now: int)
    requires t in s.turns
    ensures Refresh(CompleteTables(s, processed, renotice, t, now), now).members == s.members
  {
  }

  lemma RequeueKeepsMembers(s: Inbox, ids: seq<Id>, t: TurnId, now: int)
    requires t in s.turns
    ensures Refresh(RequeueTables(s, ids, t, now), now).members == s.members
  {
  }

  lemma CoverKeepsTurns(s: Inbox, covered: set<Id>, now: int)
    ensures SameTurns(s, Cover(s, covered, now))
  {
  }

  lemma DeliverKeepsTurns(s: Inbox, generation: nat, session: Session, ids: seq<Id>, turn: Option<TurnId>)
    ensures SameTurns(s, Deliver(s, generation, session, ids, turn).0)
  {
  }

  lemma ReleaseKeepsTurns(s: Inbox, session: Option<Session>, dropped: Option<seq<Id>>)
    ensures SameTurns(s, Release(s, session, dropped))
  {
  }

  lemma QuarantineKeepsTurns(s: Inbox, id: Id, now: int)
    ensures SameTurns(s, Quarantine(s, id, now))
  {
  }

  lemma NewHistoryIsAdmission(s: Inbox, step: Step, id: Id)
    requires HasHistory(Apply(s, step), id) && !HasHistory(s, id)
    ensures Admits(s, step, id)
  {
    OnlyAdmissionAddsMembers(s, step);
    AddedHistory(s, Apply(s, step), step, id);
  }

  lemma AddedHistory(s: Inbox, s': Inbox, step: Step, id: Id)
    requires HasHistory(s', id) && !HasHistory(s, id)
    requires (step.AdmitStep? && Outcome(s, step).Ok?) || s'.members == s.members
    requires step.AdmitStep? && Outcome(s, step).Ok? ==>
               s'.members == s.members[step.t := Entries(s, step.t) + AddedMembers(s, step.ids, step.t)]
    ensures Admits(s, step, id)
  {
    var t :| t in s'.members && id in MemberIds(s'.members[t]);
    assert t in s.members ==> id !in MemberIds(s.members[t]);
    var i :| 0 <= i < |s'.members[t]| && MemberIds(s'.members[t])[i] == id;
    var was := Entries(s, t);
    assert forall j :: 0 <= j < |was| ==> s'.members[t][j].id == MemberIds(was)[j];
    assert s'.members[t][i] in AddedMembers(s, step.ids, t);
  }

  lemma {:induction false} HistoryHasAdmission(steps: seq<Step>, id: Id)
    requires HasHistory(Run(EMPTY, steps), id)
    ensures exists i :: 0 <= i < |steps| && Admits(Run(EMPTY, steps[..i]), steps[i], id)
  {
    assert steps != [];
    var front := steps[..|steps| - 1];
    if HasHistory(Run(EMPTY, front), id) {
      HistoryHasAdmission(front, id);
      var i :| 0 <= i < |front| && Admits(Run(EMPTY, front[..i]), front[i], id);
      assert front[..i] == steps[..i];
      assert Admits(Run(EMPTY, steps[..i]), steps[i], id);
    } else {
      NewHistoryIsAdmission(Run(EMPTY, front), steps[|steps| - 1], id);
      assert Admits(Run(EMPTY, steps[..|steps| - 1]), steps[|steps| - 1], id);
    }
  }

  /** Over every run: a row is settled as processed only after a committed admission, and was shown. */
  lemma NoUnreadMessageSettled(steps: seq<Step>, id: Id)
    requires id in Run(EMPTY, steps).messages && Run(EMPTY, steps).messages[id].phase == Processed
    ensures exists i :: 0 <= i < |steps| && Admits(Run(EMPTY, steps[..i]), steps[i], id)
    ensures Run(EMPTY, steps).messages[id].visibleAt.Some?
  {
    OwnershipHolds(steps);
    assert RowHistory(Run(EMPTY, steps), id);
    HistoryHasAdmission(steps, id);
  }
}
