/** The store itself: its tables as mutable fields, each transaction a method that commits or rolls back. */
module InboxStore {
  import opened Prelude
  import opened InboxModel
  import opened InboxOrder
  import opened Pagination
  import NoticeLaws
  import TurnLaws
  import Freshness

  /** What every committed state satisfies. */
  ghost predicate Consistent(s: Inbox) {
    && NoticeLaws.NoticeAgrees(s) && TurnLaws.Sound(s) && Freshness.SeqsUnique(s.messages)
    && "" !in s.messages && "" !in s.turns
  }

  lemma StepConsistent(s: Inbox, step: Step)
    requires Consistent(s)
    ensures Consistent(Apply(s, step))
  {
    NoticeLaws.StepAgrees(s, step);
    TurnLaws.StepSound(s, step);
    Freshness.StepKeepsSeqsUnique(s, step);
    TurnLaws.NoEmptyId(s, step);
    TurnLaws.NoEmptyTurn(s, step);
  }

  lemma OutcomeConsistent(s: Inbox, step: Step, outcome: Result<Inbox>)
    requires Consistent(s) && outcome == Outcome(s, step)
    ensures outcome.Ok? ==> Consistent(outcome.value)
  {
    StepConsistent(s, step);
  }

  /** A transaction concluded: it committed its outcome, or rolled everything back. */
  predicate Concluded(was: Inbox, outcome: Result<Inbox>, ok: bool, now: Inbox) {
    ok == outcome.Ok? && now == if outcome.Ok? then outcome.value else was
  }

  datatype WriteStatus = Committed | Idempotent | Refused

  /** How promoting a row is answered, from the row alone. */
  function PromoteStatus(messages: map<Id, Row>, id: Id, expected: Option<nat>): WriteStatus {
    if id !in messages || messages[id].seqNo != expected then Refused
    else if messages[id].phase == Pending
        && messages[id].disposition == (if expected.Some? then Eligible else LocalRuntime)
    then Idempotent
    else if messages[id].phase == Settled && messages[id].disposition == Gated then Committed
    else Refused
  }

  class Store {
    var messages: map<Id, Row>
    var turns: map<TurnId, Turn>
    var members: map<TurnId, seq<Member>>
    var notice: Notice
    var contributions: map<Id, Session>
    var covers: set<Id>
    var baselines: map<(string, string), nat>

    function Tables(): Inbox
      reads this
    {
      Inbox(messages, turns, members, notice, contributions, covers, baselines)
    }

    ghost predicate Valid()
      reads this
    {
      Consistent(Tables())
    }

    constructor ()
      ensures Valid() && Tables() == EMPTY
    {
      messages, turns, members, contributions, covers, baselines := map[], map[], map[], map[], {}, map[];
      notice := Notice(0, 0, None, 0, None);
      new;
      NoticeLaws.NoticeCacheAgrees([]);
      TurnLaws.OwnershipHolds([]);
    }

    method RefreshNoticeState(now: int)
      modifies this`notice, this`contributions
      ensures Tables() == Refresh(old(Tables()), now)
    {
      var pending := PendingIds(messages);
      var generation := notice.generation;
      if |pending| != notice.pendingCount {
        generation := generation + 1;
      }
      var deadline := notice.deadline;
      if |pending| == 0 {
        deadline := None;
        contributions := map[];
      } else if notice.pendingCount == 0 {
        deadline := Some(now + NOTICE_WINDOW_MS);
      }
      contributions := map id | id in contributions && id in pending :: contributions[id];
      var delivered := notice.deliveredGeneration;
      var session := notice.deliveredSession;
      if session.Some? && session.value != "" && |pending| > 0 && |ToldTo(contributions, session.value)| == |pending| {
        delivered := generation;
      }
      notice := Notice(generation, |pending|, deadline, delivered, session);
      assert |pending| == 0 ==> pending == {};
      assert contributions == Refresh(old(Tables()), now).contributions;
    }

    // ------------------------------------------------------------- ingestion

    method StoreReceipt(id: Id, row: Row, now: int) returns (ok: bool)
      requires Valid()
      modifies this
      ensures Valid() && Concluded(old(Tables()), Ingest(old(Tables()), id, row, now), ok, Tables())
    {
      StepConsistent(Tables(), IngestStep(id, row, now));
      if id == "" || id in messages || !FreshRow(row) || SeqTaken(messages, row.seqNo) {
        return false;
      }
      messages := messages[id := row];
      if row.phase == Pending {
        RefreshNoticeState(now);
      }
      return true;
    }

    /**
     Release a gated row that carries the expected sequence (or none). Repeating it on a row that is still pending
     in its released shape is idempotent; every other row is a conflict. Only the first case changes anything.
     */
    method PromoteGatedReceipt(id: Id, expected: Option<nat>, ordinal: nat, after: Option<nat>, now: int)
      returns (status: WriteStatus)
      requires Valid()
      modifies this
      ensures Valid()
      ensures status == PromoteStatus(old(messages), id, expected)
      ensures status == Committed ==> Ok(Tables()) == Promote(old(Tables()), id, ordinal, after, now)
      ensures status != Committed ==> Tables() == old(Tables())
    {
      if id !in messages || messages[id].seqNo != expected {
        return Refused;
      }
      var row := messages[id];
      var shape := if expected.Some? then Eligible else LocalRuntime;
      if row.disposition == shape && row.phase == Pending {
        return Idempotent;
      }
      if row.disposition != Gated || row.phase != Settled {
        return Refused;
      }
      OutcomeConsistent(Tables(), PromoteStep(id, ordinal, after, now), Promote(Tables(), id, ordinal, after, now));
      ReleaseRow(id, ordinal, after, now);
      return Committed;
    }

    /** The write of `PromoteGatedReceipt`. */
    method ReleaseRow(id: Id, ordinal: nat, after: Option<nat>, now: int)
      requires id in messages && messages[id].disposition == Gated && messages[id].phase == Settled
      modifies this`messages, this`notice, this`contributions
      ensures Ok(Tables()) == Promote(old(Tables()), id, ordinal, after, now)
    {
      var row := messages[id].(phase := Pending);
      if row.seqNo.Some? {
        row := row.(disposition := Eligible);
      } else {
        row := row.(disposition := LocalRuntime, ordinal := Some(ordinal), after := after);
      }
      messages := messages[id := row];
      RefreshNoticeState(now);
    }

    /**
     Refuse a gated row that carries the expected sequence (or none). `denied` says whether the row already holds the
     text a refusal leaves behind: on a terminal row that makes the repetition idempotent.
     */
    method TombstoneGatedDm(id: Id, expected: Option<nat>, denied: bool) returns (status: WriteStatus)
      requires Valid()
      modifies this`messages
      ensures Valid()
      ensures status == Committed <==>
                id in old(messages) && old(messages)[id].seqNo == expected
                && old(messages)[id].disposition == Gated && old(messages)[id].phase == Settled
      ensures status == Idempotent <==>
                id in old(messages) && old(messages)[id].seqNo == expected
                && old(messages)[id].disposition == Terminal && denied
      ensures status == Committed ==> Ok(Tables()) == Tombstone(old(Tables()), id)
      ensures status != Committed ==> Tables() == old(Tables())
    {
      if id !in messages || messages[id].seqNo != expected {
        return Refused;
      }
      if messages[id].disposition == Terminal && denied {
        return Idempotent;
      }
      if messages[id].disposition != Gated || messages[id].phase != Settled {
        return Refused;
      }
      OutcomeConsistent(Tables(), TombstoneStep(id), Tombstone(Tables(), id));
      messages := messages[id := messages[id].(disposition := Terminal)];
      return Committed;
    }

    method QuarantinePending(id: Id, now: int) returns (changed: bool)
      requires Valid()
      modifies this
      ensures Valid() && Tables() == Quarantine(old(Tables()), id, now)
      ensures changed <==> id in old(messages) && old(messages)[id].phase == Pending
    {
      StepConsistent(Tables(), QuarantineStep(id, now));
      changed := QuarantineRow(id, now);
    }

    /** The transaction of `QuarantinePending`. */
    method QuarantineRow(id: Id, now: int) returns (changed: bool)
      modifies this
      ensures Tables() == Quarantine(old(Tables()), id, now)
      ensures changed <==> id in old(messages) && old(messages)[id].phase == Pending
    {
      changed := id in messages && messages[id].phase == Pending;
      if changed {
        messages := messages[id :=
            messages[id].(disposition := Terminal, phase := Settled, turn := None, visibleAt := None)];
        RefreshNoticeState(now);
      }
    }

    // --------------------------------------------------------------- notices

    /** Pending rows this provider session has not been told about, in Inbox order. */
    method GetNoticeCandidates(session: Option<Session>) returns (rows: seq<Id>)
      requires Valid()
      ensures Ascending(messages, rows) && Elements(rows) == NoticeCandidates(Tables(), session)
    {
      var pending := PendingIds(messages);
      if session.Some? && session.value != "" && notice.deliveredSession == session {
        pending := pending - ToldTo(contributions, session.value);
      }
      rows := InOrder(messages, pending);
    }

    /** Record what one session accepted: the named rows, or every pending row when none are named. */
    method MarkNoticeDelivered(generation: nat, session: Session, ids: Option<seq<Id>>, turn: Option<TurnId>)
      returns (accepted: bool)
      requires Valid()
      modifies this`notice, this`contributions
      ensures Valid()
      ensures exists named ::
                && (ids.Some? ==> named == ids.value)
                && (ids.None? ==> Ascending(old(messages), named) && Elements(named) == PendingIds(old(messages)))
                && (Tables(), accepted) == MarkDelivered(old(Tables()), generation, session, named, turn)
    {
      var named: seq<Id>;
      if ids.Some? {
        named := ids.value;
      } else {
        named := InOrder(messages, PendingIds(messages));
      }
      accepted := MarkNamed(generation, session, named, turn);
    }

    method MarkNamed(generation: nat, session: Session, ids: seq<Id>, turn: Option<TurnId>) returns (accepted: bool)
      requires Valid()
      modifies this`notice, this`contributions
      ensures Valid()
      ensures (Tables(), accepted) == MarkDelivered(old(Tables()), generation, session, ids, turn)
    {
      var outcome := Ok(MarkDelivered(Tables(), generation, session, ids, turn).0);
      OutcomeConsistent(Tables(), DeliverStep(generation, session, ids, turn), outcome);
      if session == "" || ids == [] || |Elements(ids)| != |ids| {
        return false;
      }
      accepted := RecordDelivery(generation, session, ids, turn);
    }

    method RecordDelivery(generation: nat, session: Session, ids: seq<Id>, turn: Option<TurnId>)
      returns (accepted: bool)
      modifies this`notice, this`contributions
      ensures (Tables(), accepted) == Deliver(old(Tables()), generation, session, ids, turn)
    {
      if ids == [] {
        return false;
      }
      if turn.Some? && !(turn.value in turns && turns[turn.value] == Turn(Some(session), Active)) {
        return false;
      }
      if generation > notice.generation || notice.pendingCount == 0 {
        return false;
      }
      var told := Elements(ids) * PendingIds(messages);
      if told == {} {
        return false;
      }
      accepted := WriteDelivery(generation, session, told);
    }

    /** The write of `RecordDelivery`: evidence of another session is dropped first. */
    method WriteDelivery(generation: nat, session: Session, told: set<Id>) returns (accepted: bool)
      modifies this`notice, this`contributions
      ensures var base := if old(notice).deliveredSession != Some(session) then map[] else old(contributions);
              && accepted == (told - base.Keys != {})
              && contributions == map id | id in base.Keys + told :: if id in base then base[id] else session
      ensures notice == old(notice).(
                deliveredSession := Some(session),
                deliveredGeneration :=
                  if |ToldTo(contributions, session)| == old(notice).pendingCount then old(notice).generation
                  else Min(generation, if old(notice).generation == 0 then 0 else old(notice).generation - 1))
    {
      if notice.deliveredSession != Some(session) {
        contributions := map[];
      }
      accepted := told - contributions.Keys != {};
      contributions := map id | id in contributions.Keys + told ::
          if id in contributions then contributions[id] else session;
      var delivered := notice.generation;
      if |ToldTo(contributions, session)| != notice.pendingCount {
        delivered := Min(generation, if notice.generation == 0 then 0 else notice.generation - 1);
      }
      notice := notice.(deliveredGeneration := delivered, deliveredSession := Some(session));
    }

    method ReleaseNoticeDelivery(session: Option<Session>, ids: Option<seq<Id>>) returns (released: bool)
      requires Valid()
      modifies this`notice, this`contributions
      ensures Valid() && Tables() == Release(old(Tables()), session, ids)
      ensures released <==> contributions != old(contributions)
    {
      OutcomeConsistent(Tables(), ReleaseStep(session, ids), Ok(Release(Tables(), session, ids)));
      released := DropEvidence(session, ids);
    }

    /** The transaction of `ReleaseNoticeDelivery`. */
    method DropEvidence(session: Option<Session>, ids: Option<seq<Id>>)
      returns (released: bool)
      modifies this`notice, this`contributions
      ensures Tables() == Release(old(Tables()), session, ids)
      ensures released <==> contributions != old(contributions)
    {
      released := false;
      if session.None? || session.value == "" || notice.deliveredSession != session {
        return;
      }
      var dropped := ToldTo(contributions, session.value);
      if ids.Some? {
        if ids.value == [] || |Elements(ids.value)| != |ids.value| {
          return;
        }
        dropped := dropped * Elements(ids.value);
      }
      if dropped != {} {
        ghost var x :| x in dropped;
        contributions := contributions - dropped;
        assert x in old(contributions) && x !in contributions;
        notice := notice.(deliveredGeneration := if notice.generation == 0 then 0 else notice.generation - 1);
        released := true;
      }
    }

    // ----------------------------------------------------------------- turns

    method StartTurn(t: TurnId, session: Option<Session>, claim: Option<(nat, seq<Id>)>) returns (ok: bool)
      requires Valid()
      modifies this
      ensures Valid() && Concluded(old(Tables()), InboxModel.StartTurn(old(Tables()), t, session, claim), ok, Tables())
    {
      StepConsistent(Tables(), StartStep(t, session, claim));
      if t == "" || (claim.Some? && (claim.value.1 == [] || |Elements(claim.value.1)| != |claim.value.1|)) {
        return false;
      }
      var before := (notice, contributions);
      if claim.Some? && session.Some? && session.value != "" {
        var marked := RecordDelivery(claim.value.0, session.value, claim.value.1, None);
        if !marked {
          notice, contributions := before.0, before.1;
          return false;
        }
      }
      if t in turns {
        notice, contributions := before.0, before.1;
        return false;
      }
      turns := turns[t := Turn(session, Active)];
      return true;
    }

    method FinalizeEmptyTurn(t: TurnId, requeued: bool) returns (ok: bool)
      requires Valid()
      modifies this`turns
      ensures Valid() && Concluded(old(Tables()), FinalizeEmpty(old(Tables()), t, requeued), ok, Tables())
    {
      StepConsistent(Tables(), FinalizeEmptyStep(t, requeued));
      ok := t in turns && turns[t].state == Active && (t in members ==> members[t] == []);
      if ok {
        turns := turns[t := turns[t].(state := if requeued then Requeued else Done)];
      }
    }

    method TransferTurnSession(t: TurnId, from: Option<Session>, to: Session) returns (ok: bool)
      requires Valid()
      modifies this`turns
      ensures Valid() && Concluded(old(Tables()), Transfer(old(Tables()), t, from, to), ok, Tables())
    {
      StepConsistent(Tables(), TransferStep(t, from, to));
      ok := t != "" && to != "" && t in turns && turns[t] == Turn(from, Active);
      if ok {
        turns := turns[t := Turn(Some(to), Active)];
      }
    }

    method AdmitMessages(ids: seq<Id>, t: TurnId, session: Option<Session>, now: int) returns (ok: bool)
      requires Valid()
      modifies this
      ensures Valid() && Concluded(old(Tables()), Admit(old(Tables()), ids, t, session, now), ok, Tables())
    {
      OutcomeConsistent(Tables(), AdmitStep(ids, t, session, now), Admit(Tables(), ids, t, session, now));
      ok := AdmitRows(ids, t, session, now);
    }

    /** The transaction of `AdmitMessages`. */
    method AdmitRows(ids: seq<Id>, t: TurnId, session: Option<Session>, now: int)
      returns (ok: bool)
      modifies this
      ensures Concluded(old(Tables()), Admit(old(Tables()), ids, t, session, now), ok, Tables())
    {
      var refused := RefusesAdmission(ids, t, session);
      if refused {
        return false;
      }
      WriteAdmission(ids, t, session, now);
      RefreshNoticeState(now);
      return true;
    }

    method RefusesAdmission(ids: seq<Id>, t: TurnId, session: Option<Session>) returns (refused: bool)
      ensures refused == AdmitConflicts(Tables(), ids, t, session)
    {
      if !ExactIds(ids) || t == "" {
        return true;
      }
      if exists id :: id in ids && !(id in messages && messages[id].phase == Pending) {
        return true;
      }
      if t in turns {
        var entries := if t in members then members[t] else [];
        return turns[t].session != session || turns[t].state != Active
            || (exists id :: id in ids && id in MemberIds(entries));
      }
      return false;
    }

    method WriteAdmission(ids: seq<Id>, t: TurnId, session: Option<Session>, now: int)
      modifies this`turns, this`members, this`messages
      ensures Tables() == AdmitTables(old(Tables()), ids, t, session, now)
    {
      var first := 0;
      if t in turns {
        first := MaxOrdinal(if t in members then members[t] else []) + 1;
      } else {
        turns := turns[t := Turn(session, Active)];
      }
      InsertMembers(ids, t, first);
      messages := Update(messages, Elements(ids),
        (r: Row) => r.(phase := InTurn, turn := Some(t), visibleAt := Some(now)));
    }

    /** One `INSERT INTO turn_run_messages` per identity, with consecutive ordinals. */
    method InsertMembers(ids: seq<Id>, t: TurnId, first: nat)
      modifies this`members
      ensures members ==
          old(members)[t :=
              Entries(old(Tables()), t) + seq(|ids|, i requires 0 <= i < |ids| => Member(ids[i], first + i))]
    {
      ghost var added := seq(|ids|, i requires 0 <= i < |ids| => Member(ids[i], first + i));
      var entries := if t in members then members[t] else [];
      var offset := 0;
      while offset < |ids|
        invariant 0 <= offset <= |ids|
        invariant entries == Entries(old(Tables()), t) + added[..offset]
      {
        entries := entries + [Member(ids[offset], first + offset)];
        offset := offset + 1;
      }
      assert added[..offset] == added;
      members := members[t := entries];
    }

    method CompleteTurn(processed: seq<Id>, renotice: seq<Id>, t: TurnId, owner: Option<Session>, now: int)
      returns (ok: bool)
      requires Valid()
      modifies this
      ensures Valid()
          && Concluded(old(Tables()), Complete(old(Tables()), processed, renotice, t, owner, now), ok, Tables())
    {
      OutcomeConsistent(Tables(), CompleteStep(processed, renotice, t, owner, now),
          Complete(Tables(), processed, renotice, t, owner, now));
      ok := CompleteRows(processed, renotice, t, owner, now);
    }

    /** The transaction of `CompleteTurn`. */
    method CompleteRows(processed: seq<Id>, renotice: seq<Id>, t: TurnId, owner: Option<Session>, now: int)
      returns (ok: bool)
      modifies this
      ensures Concluded(old(Tables()), Complete(old(Tables()), processed, renotice, t, owner, now), ok, Tables())
    {
      var refused := RefusesCompletion(processed, renotice, t, owner);
      if refused {
        return false;
      }
      WriteCompletion(processed, renotice, t, now);
      RefreshNoticeState(now);
      return true;
    }

    method RefusesCompletion(processed: seq<Id>, renotice: seq<Id>, t: TurnId, owner: Option<Session>)
      returns (refused: bool)
      ensures refused == CompleteConflicts(Tables(), processed, renotice, t, owner)
    {
      if owner.Some? && !(t in turns && turns[t].session == owner) {
        return true;
      }
      var expected := MemberIds(if t in members then members[t] else []);
      var all := processed + renotice;
      if |expected| != |Elements(all)| || Elements(expected) != Elements(all) {
        return true;
      }
      var inTurn := set id | id in all && id in messages && messages[id].phase == InTurn
          && messages[id].turn == Some(t);
      if |inTurn| != |all| {
        NotAllInTurn(Tables(), all, inTurn, t);
        return true;
      }
      AllInTurn(Tables(), all, inTurn, t);
      return !(t in turns && turns[t].state == Active);
    }

    method WriteCompletion(processed: seq<Id>, renotice: seq<Id>, t: TurnId, now: int)
      requires t in turns
      modifies this`messages, this`contributions, this`turns
      ensures Tables() == CompleteTables(old(Tables()), processed, renotice, t, now)
    {
      messages := Update(messages, Elements(processed), (r: Row) => r.(phase := Processed, processedAt := Some(now)));
      messages := Update(messages, Elements(renotice),
        (r: Row) => r.(phase := Pending, turn := None, processedAt := None, renotified := true));
      contributions := contributions - Elements(renotice);
      turns := turns[t := turns[t].(state := Done)];
    }

    method MarkProcessed(ids: seq<Id>, t: TurnId, owner: Option<Session>, now: int) returns (ok: bool)
      requires Valid()
      modifies this
      ensures Valid()
          && Concluded(old(Tables()), InboxModel.MarkProcessed(old(Tables()), ids, t, owner, now), ok, Tables())
    {
      if !ExactIds(ids) {
        return false;
      }
      ok := CompleteTurn(ids, [], t, owner, now);
    }

    method CompleteTurnWithRenotice(processed: seq<Id>, renotice: seq<Id>, t: TurnId, owner: Option<Session>, now: int)
      returns (ok: bool)
      requires Valid()
      modifies this
      ensures Valid()
          && Concluded(old(Tables()), CompleteWithRenotice(old(Tables()), processed, renotice, t, owner, now), ok,
              Tables())
    {
      if (processed != [] && !ExactIds(processed)) || !ExactIds(renotice)
          || Elements(processed) * Elements(renotice) != {} {
        return false;
      }
      ok := CompleteTurn(processed, renotice, t, owner, now);
    }

    method CompleteTurnRenoticeUnrenotified(t: TurnId, owner: Option<Session>, now: int)
      returns (ok: bool, redelivered: seq<Id>)
      requires Valid()
      modifies this
      ensures Valid() && Concluded(old(Tables()), CompleteUnspent(old(Tables()), t, owner, now), ok, Tables())
      ensures ok ==> Elements(redelivered) == Unspent(old(Tables()), MemberIds(Entries(old(Tables()), t)))
    {
      var ids := MemberIds(if t in members then members[t] else []);
      var once := Unspent(Tables(), ids);
      redelivered := Keep(ids, once);
      ok := CompleteTurn(Keep(ids, Elements(ids) - once), redelivered, t, owner, now);
    }

    method RequeueMessages(ids: seq<Id>, t: TurnId, now: int) returns (ok: bool)
      requires Valid()
      modifies this
      ensures Valid() && Concluded(old(Tables()), Requeue(old(Tables()), ids, t, now), ok, Tables())
    {
      OutcomeConsistent(Tables(), RequeueStep(ids, t, now), Requeue(Tables(), ids, t, now));
      ok := RequeueRows(ids, t, now);
    }

    /** The transaction of `RequeueMessages`. */
    method RequeueRows(ids: seq<Id>, t: TurnId, now: int)
      returns (ok: bool)
      modifies this
      ensures Concluded(old(Tables()), Requeue(old(Tables()), ids, t, now), ok, Tables())
    {
      if !ExactIds(ids) {
        return false;
      }
      var expected := MemberIds(if t in members then members[t] else []);
      if |expected| != |ids| || Elements(expected) != Elements(ids) {
        return false;
      }
      var settle := set id | id in ids && id in covers;
      assert settle == Elements(ids) * covers;
      var requeue := Elements(ids) - settle;
      if exists id :: id in ids && !(id in messages && messages[id].phase == InTurn && messages[id].turn == Some(t)) {
        return false;
      }
      if !(t in turns && turns[t].state == Active) {
        return false;
      }
      messages := Update(messages, settle, (r: Row) => r.(phase := Processed, turn := None, processedAt := Some(now)));
      messages := Update(messages, requeue,
        (r: Row) => r.(phase := Pending, turn := None, visibleAt := None, processedAt := None));
      turns := turns[t := turns[t].(state := Requeued)];
      assert Tables() == RequeueTables(old(Tables()), ids, t, now);
      RefreshNoticeState(now);
      return true;
    }

    /** Record dispositions; unknown identities are reported, never fatal. */
    method AddMessageCovers(ids: set<Id>, now: int) returns (recorded: set<Id>, unknown: set<Id>)
      requires Valid()
      modifies this
      ensures Valid() && Tables() == Cover(old(Tables()), ids, now)
      ensures recorded == ids * messages.Keys && unknown == ids - messages.Keys && messages.Keys == old(messages).Keys
    {
      OutcomeConsistent(Tables(), CoverStep(ids, now), Ok(Cover(Tables(), ids, now)));
      recorded, unknown := RecordCovers(ids, now);
    }

    /** The transaction of `AddMessageCovers`. */
    method RecordCovers(ids: set<Id>, now: int) returns (recorded: set<Id>, unknown: set<Id>)
      modifies this
      ensures Tables() == Cover(old(Tables()), ids, now)
      ensures recorded == ids * messages.Keys && unknown == ids - messages.Keys && messages.Keys == old(messages).Keys
    {
      recorded, unknown := ids * messages.Keys, ids - messages.Keys;
      if recorded != {} {
        var settles := CoverSettles(Tables(), recorded);
        covers := covers + recorded;
        messages := Update(messages, settles,
          (r: Row) => r.(phase := Processed, processedAt := Some(now), turn := None,
                         visibleAt := if r.visibleAt.Some? then r.visibleAt else Some(now)));
        RefreshNoticeState(now);
      }
    }

    /** Pin the trusted history boundary of a channel; a negative one is refused. */
    method SetContextBaseline(space: string, channel: string, seqNo: int) returns (ok: bool)
      requires Valid()
      modifies this`baselines
      ensures Valid() && ok == (seqNo >= 0)
      ensures Tables() == if ok then SetBaseline(old(Tables()), space, channel, seqNo) else old(Tables())
      ensures ok ==> Freshness.Baseline(Tables(), space, channel) == seqNo
    {
      if seqNo < 0 {
        return false;
      }
      OutcomeConsistent(Tables(), BaselineStep(space, channel, seqNo),
          Ok(SetBaseline(Tables(), space, channel, seqNo)));
      baselines := baselines[(space, channel) := seqNo];
      return true;
    }

    /** Any transaction that does not start, grow, move or end a turn, as the rest of the daemon issues them. */
    method CommitBackground(step: Step)
      requires Valid() && IsBackground(step)
      modifies this
      ensures Valid() && Tables() == Apply(old(Tables()), step)
    {
      match step {
        case IngestStep(id, row, now) => var _ := StoreReceipt(id, row, now);
        case PromoteStep(id, ordinal, after, now) => CommitVerdict(step);
        case TombstoneStep(id) => CommitVerdict(step);
        case CoverStep(covered, now) => var _, _ := AddMessageCovers(covered, now);
        case QuarantineStep(id, now) => var _ := QuarantinePending(id, now);
        case DeliverStep(_, _, _, _) => CommitHeader(step);
        case ReleaseStep(_, _) => CommitHeader(step);
        case BaselineStep(_, _, _) => CommitHeader(step);
      }
    }

    /** Notice evidence and baselines. */
    method CommitHeader(step: Step)
      requires Valid() && (step.DeliverStep? || step.ReleaseStep? || step.BaselineStep?)
      modifies this
      ensures Valid() && Tables() == Apply(old(Tables()), step)
    {
      match step {
        case DeliverStep(generation, told, ids, turn) => var _ := MarkNamed(generation, told, ids, turn);
        case ReleaseStep(session, dropped) => var _ := ReleaseNoticeDelivery(session, dropped);
        case BaselineStep(space, channel, seqNo) => var _ := SetContextBaseline(space, channel, seqNo);
      }
    }

    /** The operator's verdict on a gated row, with the sequence it was gated under. */
    method CommitVerdict(step: Step)
      requires Valid() && (step.PromoteStep? || step.TombstoneStep?)
      modifies this
      ensures Valid() && Tables() == Apply(old(Tables()), step)
    {
      if step.id !in messages {
        return;
      }
      if step.PromoteStep? {
        var _ := PromoteGatedReceipt(step.id, messages[step.id].seqNo, step.ordinal, step.after, step.now);
      } else {
        var _ := TombstoneGatedDm(step.id, messages[step.id].seqNo, false);
      }
    }

    // --------------------------------------------------------------- reading

    /** One stable page of the pending snapshot; nothing is changed. */
    method ReadInboxPage(target: string, cursor: Option<Cursor>, limit: int) returns (r: Result<Page>)
      requires Valid()
      ensures r.Ok? <==>
                && 1 <= limit <= 50
                && (target == "" || "channel:" <= target || "dm:" <= target)
                && (cursor.Some? && target != "" ==> cursor.value.target == target)
      ensures r.Ok? ==>
                var resolved := if cursor.Some? then cursor.value.target else target;
                var from := if cursor.Some? then cursor.value.last else BOTTOM;
                exists ceiling ::
                  && (cursor.Some? ==> ceiling == cursor.value.ceiling)
                  && (cursor.None? ==> Window(Tables(), resolved, from, ceiling) == Matching(Tables(), resolved))
                  && IsPage(Tables(), resolved, from, ceiling, r.value)
                  && r.value.generation == (if cursor.Some? then cursor.value.generation else notice.generation)
                  && (|r.value.items| == limit || r.value.remaining == 0)
    {
      if !(1 <= limit <= 50) || !(target == "" || "channel:" <= target || "dm:" <= target) {
        return Conflict;
      }
      if cursor.Some? && target != "" && cursor.value.target != target {
        return Conflict;
      }
      var resolved := if cursor.Some? then cursor.value.target else target;
      var pending := InOrder(messages, Matching(Tables(), resolved));
      var generation, ceiling, last := notice.generation, Key(0, 0, 0, ""), BOTTOM;
      if cursor.Some? {
        generation, ceiling, last := cursor.value.generation, cursor.value.ceiling, cursor.value.last;
      } else if pending != [] {
        var top := pending[|pending| - 1];
        ceiling := OrderKey(top, messages[top]);
        WholeSnapshot(Tables(), resolved, pending);
      }
      assert cursor.None? && pending == [] ==> Matching(Tables(), resolved) == {};
      var page := CutPage(resolved, generation, last, ceiling, limit);
      r := Ok(page);
    }

    /** The first `limit` rows of a window, with the cursor for what is left. */
    method CutPage(target: string, generation: nat, last: Key, ceiling: Key, limit: nat) returns (page: Page)
      requires limit >= 1
      ensures IsPage(Tables(), target, last, ceiling, page) && page.generation == generation
      ensures |page.items| == limit || page.remaining == 0
    {
      var snapshot := InOrder(messages, Window(Tables(), target, last, ceiling));
      var count := if |snapshot| < limit then |snapshot| else limit;
      var selected := snapshot[..count];
      var remaining := |snapshot| - count;
      var next: Option<Cursor> := None;
      if remaining > 0 {
        next := Some(Cursor(target, generation, ceiling, OrderKey(selected[count - 1], messages[selected[count - 1]])));
      }
      page := Page(selected, next, remaining, generation, target);
      HeadIsPage(Tables(), target, last, ceiling, snapshot, page);
    }

    /** The highest safe model-visible channel prefix, by one pass over the channel in sequence order. */
    method GetModelVisibleThroughSeq(t: TurnId, space: string, channel: string, candidate: Option<nat>)
      returns (safe: Option<nat>)
      requires Valid()
      ensures Freshness.IsBoundary(Tables(), t, space, channel, candidate, safe)
    {
      safe := ScanChannel(t, space, channel, candidate);
    }

    method ScanChannel(t: TurnId, space: string, channel: string, candidate: Option<nat>) returns (safe: Option<nat>)
      requires Freshness.SeqsUnique(messages)
      ensures Freshness.IsBoundary(Tables(), t, space, channel, candidate, safe)
    {
      var baseline := Freshness.Baseline(Tables(), space, channel);
      var known := Freshness.ChannelRows(messages, space, channel);
      var rows := InOrder(messages, known);
      safe := None;
      var i := 0;
      while i < |rows|
        invariant 0 <= i <= |rows|
        invariant Scanned(Tables(), rows[..i], t, baseline, candidate, safe)
      {
        var row := messages[rows[i]];
        assert rows[i] in known;
        assert rows[..i + 1] == rows[..i] + [rows[i]];
        if row.seqNo.value > baseline {
          if candidate.Some? && row.seqNo.value > candidate.value {
            break;
          }
          if !Freshness.Admissible(row, t, candidate) {
            break;
          }
          forall j | 0 <= j < i ensures messages[rows[j]].seqNo.value <= row.seqNo.value {
            assert rows[j] in known && Precedes(messages, rows[j], rows[i]);
          }
          safe := row.seqNo;
        }
        i := i + 1;
      }
      ScanIsBoundary(Tables(), rows, i, t, space, channel, candidate, safe);
    }
  }

  /** The rows passed so far do not block, and `safe` is the last sequence among them above the baseline. */
  ghost predicate Scanned(s: Inbox, passed: seq<Id>, t: TurnId, baseline: int, candidate: Option<nat>,
      safe: Option<nat>) {
    && (forall id :: id in passed ==> id in s.messages && s.messages[id].seqNo.Some?)
    && (forall id :: id in passed && s.messages[id].seqNo.value > baseline ==>
          && Freshness.Admissible(s.messages[id], t, candidate)
          && safe.Some? && s.messages[id].seqNo.value <= safe.value)
    && (safe.Some? ==>
          && safe.value > baseline && (candidate.Some? ==> safe.value <= candidate.value)
          && exists id :: id in passed && s.messages[id].seqNo == safe)
  }

  lemma ScanIsBoundary(s: Inbox, rows: seq<Id>, i: nat, t: TurnId, space: string, channel: string,
                       candidate: Option<nat>, safe: Option<nat>)
    requires Freshness.SeqsUnique(s.messages)
    requires Ascending(s.messages, rows) && Elements(rows) == Freshness.ChannelRows(s.messages, space, channel)
    requires i <= |rows|
    requires Scanned(s, rows[..i], t, Freshness.Baseline(s, space, channel), candidate, safe)
    requires i < |rows| ==>
               && s.messages[rows[i]].seqNo.Some?
               && s.messages[rows[i]].seqNo.value > Freshness.Baseline(s, space, channel)
               && ((candidate.Some? && s.messages[rows[i]].seqNo.value > candidate.value)
                   || !Freshness.Admissible(s.messages[rows[i]], t, candidate))
    ensures Freshness.IsBoundary(s, t, space, channel, candidate, safe)
  {
    var known := Freshness.ChannelRows(s.messages, space, channel);
    forall id | id in known && id !in rows[..i]
      ensures i < |rows| && s.messages[rows[i]].seqNo.value <= s.messages[id].seqNo.value
    {
      var j :| 0 <= j < |rows| && rows[j] == id;
      assert forall k :: 0 <= k < i ==> rows[k] in rows[..i];
      assert j >= i && rows[i] in known;
      assert j > i ==> Precedes(s.messages, rows[i], rows[j]);
    }
    if safe.Some? {
      var top :| top in rows[..i] && s.messages[top].seqNo == safe;
      assert top in rows && top in known;
      forall id | id in known && Freshness.Baseline(s, space, channel) < s.messages[id].seqNo.value <= safe.value
        ensures Freshness.Admissible(s.messages[id], t, candidate)
      {
        if id !in rows[..i] {
          StoppedAbove(s, rows, i, top);
        }
      }
    }
    forall m: nat | Freshness.Safe(s, t, space, channel, candidate, m) ensures safe.Some? && m <= safe.value {
      var id :| id in known && s.messages[id].seqNo == Some(m);
      assert i < |rows| ==> rows[i] in known;
      assert id in rows[..i];
    }
  }

  /** The row that stopped the scan lies strictly above every row passed before it. */
  lemma StoppedAbove(s: Inbox, rows: seq<Id>, i: nat, top: Id)
    requires Freshness.SeqsUnique(s.messages) && Ascending(s.messages, rows)
    requires i < |rows| && top in rows[..i]
    requires forall id :: id in rows ==> s.messages[id].seqNo.Some?
    ensures s.messages[top].seqNo.value < s.messages[rows[i]].seqNo.value
  {
    var k :| 0 <= k < i && rows[k] == top;
    assert Precedes(s.messages, rows[k], rows[i]);
    AscendingDistinct(s.messages, rows);
    assert rows[i] in rows;
  }

  lemma AllInTurn(s: Inbox, all: seq<Id>, inTurn: set<Id>, t: TurnId)
    requires inTurn == (set id | id in all && OwnedBy(s, id, t)) && |inTurn| == |all|
    ensures |Elements(all)| == |all| && forall id :: id in all ==> OwnedBy(s, id, t)
  {
    SubsetSize(inTurn, Elements(all));
    DistinctIffSize(all);
  }

  lemma NotAllInTurn(s: Inbox, all: seq<Id>, inTurn: set<Id>, t: TurnId)
    requires inTurn == (set id | id in all && OwnedBy(s, id, t)) && |inTurn| != |all|
    ensures |Elements(all)| != |all| || exists id :: id in all && !OwnedBy(s, id, t)
  {
    if forall id :: id in all ==> OwnedBy(s, id, t) { assert inTurn == Elements(all); }
  }

  /** Without a cursor the ceiling is the last pending row, so the window is the whole selection. */
  lemma WholeSnapshot(s: Inbox, target: string, pending: seq<Id>)
    requires Ascending(s.messages, pending) && Elements(pending) == Matching(s, target) && pending != []
    ensures var top := pending[|pending| - 1];
            Window(s, target, BOTTOM, OrderKey(top, s.messages[top])) == Matching(s, target)
  {
    var top := pending[|pending| - 1];
    forall id | id in Matching(s, target) ensures AtMost(OrderKey(id, s.messages[id]), OrderKey(top, s.messages[top])) {
      var i :| 0 <= i < |pending| && pending[i] == id;
      assert i < |pending| - 1 ==> Precedes(s.messages, pending[i], top);
    }
  }

  lemma HeadIsPage(s: Inbox, target: string, last: Key, ceiling: Key, snapshot: seq<Id>, page: Page)
    requires Ascending(s.messages, snapshot) && Elements(snapshot) == Window(s, target, last, ceiling)
    requires page.items <= snapshot && page.target == target && page.remaining == |snapshot| - |page.items|
    requires page.next.Some? <==> page.remaining > 0
    requires page.next.Some? ==>
               && page.items != []
               && page.next.value == Cursor(target, page.generation, ceiling,
                    OrderKey(page.items[|page.items| - 1], s.messages[page.items[|page.items| - 1]]))
    ensures IsPage(s, target, last, ceiling, page)
  {
    AscendingDistinct(s.messages, snapshot);
    var count := |page.items|;
    assert forall k :: 0 <= k < count ==> page.items[k] == snapshot[k];
    forall x, y | x in page.items && y in Elements(snapshot) - Elements(page.items) ensures Precedes(s.messages, x, y) {
      var k :| 0 <= k < count && page.items[k] == x;
      var j :| 0 <= j < |snapshot| && snapshot[j] == y;
      assert snapshot[k] == x && k < j;
    }
  }
}
