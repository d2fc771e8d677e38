/**
 The durable Inbox: the message, turn, membership, notice and cover tables, and every
 transaction on them, as functions from one table state to the next.
 A `BEGIN IMMEDIATE ... commit` block is one function; `Conflict` is a rollback.
 */
module InboxModel {
  import opened Prelude

  type Id = string
  type TurnId = string
  type Session = string

  const NOTICE_WINDOW_MS := 3_000

  datatype Place = Direct(peer: string) | Channel(space: string, channel: string, thread: string)

  datatype Disposition = Eligible | LocalRuntime | Terminal | Gated

  /** `Settled` stands for a NULL processing state: the row never entered, or left, the Inbox. */
  datatype Phase = Settled | Pending | InTurn | Processed

  datatype Row = Row(
    place: Place,
    seqNo: Option<nat>,
    after: Option<nat>,
    ordinal: Option<nat>,
    disposition: Disposition,
    phase: Phase,
    turn: Option<TurnId>,
    visibleAt: Option<int>,
    processedAt: Option<int>,
    renotified: bool)

  datatype TurnState = Active | Done | Requeued

  datatype Turn = Turn(session: Option<Session>, state: TurnState)

  datatype Member = Member(id: Id, ordinal: nat)

  datatype Notice = Notice(
    generation: nat,
    pendingCount: nat,
    deadline: Option<int>,
    deliveredGeneration: nat,
    deliveredSession: Option<Session>)

  datatype Inbox = Inbox(
    messages: map<Id, Row>,
    turns: map<TurnId, Turn>,
    members: map<TurnId, seq<Member>>,
    notice: Notice,
    contributions: map<Id, Session>,
    covers: set<Id>,
    baselines: map<(string, string), nat>)

  const EMPTY := Inbox(map[], map[], map[], Notice(0, 0, None, 0, None), map[], {}, map[])

  // ---------------------------------------------------------------- queries

  function PendingIds(messages: map<Id, Row>): set<Id> {
    set id | id in messages && messages[id].phase == Pending
  }

  function ToldTo(contributions: map<Id, Session>, session: Session): set<Id> {
    set id | id in contributions && contributions[id] == session
  }

  function Entries(s: Inbox, t: TurnId): seq<Member> {
    if t in s.members then s.members[t] else []
  }

  function MemberIds(entries: seq<Member>): (r: seq<Id>)
    ensures |r| == |entries|
    ensures forall i :: 0 <= i < |r| ==> r[i] == entries[i].id
  {
    seq(|entries|, i requires 0 <= i < |entries| => entries[i].id)
  }

  /** `COALESCE(MAX(ordinal), -1)` over one turn's membership rows. */
  function MaxOrdinal(entries: seq<Member>): (r: int)
    ensures r >= -1
    ensures forall e :: e in entries ==> e.ordinal <= r
  {
    if entries == [] then -1
    else
      var rest := MaxOrdinal(entries[..|entries| - 1]);
      var last := entries[|entries| - 1].ordinal;
      assert entries == entries[..|entries| - 1] + [entries[|entries| - 1]];
      if last > rest then last else rest
  }

  predicate IsActive(s: Inbox, t: TurnId) {
    t in s.turns && s.turns[t].state == Active
  }

  predicate OwnedBy(s: Inbox, id: Id, t: TurnId) {
    id in s.messages && s.messages[id].phase == InTurn && s.messages[id].turn == Some(t)
  }

  /** The row has been durably admitted to some turn, now or earlier. */
  predicate HasHistory(s: Inbox, id: Id) {
    exists t :: t in s.members && id in MemberIds(s.members[t])
  }

  /** Members whose one-shot redelivery is unspent. */
  function Unspent(s: Inbox, ids: seq<Id>): set<Id> {
    set id | id in ids && id in s.messages && !s.messages[id].renotified
  }

  /** The identities a provider session has not been told about yet. */
  function NoticeCandidates(s: Inbox, session: Option<Session>): set<Id> {
    var pending := PendingIds(s.messages);
    if session.None? || session.value == "" || s.notice.deliveredSession != session then pending
    else pending - ToldTo(s.contributions, session.value)
  }

  /** `_exact_ids`: non-empty, no empty identity, no duplicates. */
  predicate ExactIds(ids: seq<Id>) {
    ids != [] && "" !in ids && |Elements(ids)| == |ids|
  }

  /** `UPDATE messages SET ... WHERE envelope_id IN (ids)`. */
  function Update(messages: map<Id, Row>, ids: set<Id>, f: Row -> Row): (r: map<Id, Row>)
    ensures r.Keys == messages.Keys
  {
    map id | id in messages :: if id in ids then f(messages[id]) else messages[id]
  }

  // ----------------------------------------------------------- notice cache

  function Refresh(s: Inbox, now: int): Inbox {
    var pending := PendingIds(s.messages);
    var was := s.notice;
    var generation := if |pending| != was.pendingCount then was.generation + 1 else was.generation;
    var deadline :=
      if |pending| == 0 then None
      else if was.pendingCount == 0 then Some(now + NOTICE_WINDOW_MS)
      else was.deadline;
    var kept := map id | id in s.contributions && id in pending :: s.contributions[id];
    var delivered :=
      if was.deliveredSession.Some? && was.deliveredSession.value != "" && |pending| > 0
         && |ToldTo(kept, was.deliveredSession.value)| == |pending|
      then generation else was.deliveredGeneration;
    s.(contributions := kept,
       notice := Notice(generation, |pending|, deadline, delivered, was.deliveredSession))
  }

  /** Record that `session` accepted a notice naming `ids`; the flag says whether anything new was told. */
  function Deliver(s: Inbox, generation: nat, session: Session, ids: seq<Id>, turn: Option<TurnId>): (Inbox, bool) {
    var told := Elements(ids) * PendingIds(s.messages);
    if || ids == []
       || (turn.Some? && !(IsActive(s, turn.value) && s.turns[turn.value].session == Some(session)))
       || generation > s.notice.generation
       || s.notice.pendingCount == 0
       || told == {}
    then (s, false)
    else
      var base := if s.notice.deliveredSession != Some(session) then map[] else s.contributions;
      var merged := map id | id in base.Keys + told :: if id in base then base[id] else session;
      var delivered :=
        if |ToldTo(merged, session)| == s.notice.pendingCount then s.notice.generation
        else Min(generation, if s.notice.generation == 0 then 0 else s.notice.generation - 1);
      (s.(contributions := merged,
          notice := s.notice.(deliveredGeneration := delivered, deliveredSession := Some(session))),
       told - base.Keys != {})
  }

  function MarkDelivered(s: Inbox, generation: nat, session: Session, ids: seq<Id>, turn: Option<TurnId>)
    : (Inbox, bool)
  {
    if session == "" || |Elements(ids)| != |ids| then (s, false)
    else Deliver(s, generation, session, ids, turn)
  }

  /** Forget delivery evidence: all of the session's (`ids` absent), or the named rows'. */
  function Release(s: Inbox, session: Option<Session>, ids: Option<seq<Id>>): Inbox {
    if session.None? || session.value == "" || s.notice.deliveredSession != session then s
    else if ids.Some? && (ids.value == [] || |Elements(ids.value)| != |ids.value|) then s
    else
      var told := ToldTo(s.contributions, session.value);
      var dropped := if ids.None? then told else told * Elements(ids.value);
      if dropped == {} then s
      else
        s.(contributions := s.contributions - dropped,
           notice := s.notice.(deliveredGeneration :=
             if s.notice.generation == 0 then 0 else s.notice.generation - 1))
  }

  // -------------------------------------------------------------- lifecycle

  /** A receipt as ingestion writes it: never admitted, and pending only in a shape the Inbox lists. */
  predicate FreshRow(row: Row) {
    && row.turn.None? && row.visibleAt.None? && row.processedAt.None? && !row.renotified
    && (row.phase == Settled || row.phase == Pending)
    && (row.phase == Pending ==> Listed(row))
    && (row.phase == Settled ==> row.disposition == Terminal || row.disposition == Gated)
  }

  /** The shapes `_get_pending_unlocked` recognises. */
  predicate Listed(row: Row) {
    || (row.disposition == Eligible && row.seqNo.Some?)
    || (row.disposition == LocalRuntime && row.seqNo.None? && row.ordinal.Some?)
  }

  predicate SeqTaken(messages: map<Id, Row>, seqNo: Option<nat>) {
    seqNo.Some? && exists id :: id in messages && messages[id].seqNo == seqNo
  }

  function Ingest(s: Inbox, id: Id, row: Row, now: int): Result<Inbox> {
    if id == "" || id in s.messages || !FreshRow(row) || SeqTaken(s.messages, row.seqNo) then Conflict
    else
      var stored := s.(messages := s.messages[id := row]);
      Ok(if row.phase == Pending then Refresh(stored, now) else stored)
  }

  /** `promote_gated_receipt`: the operator released a gated row into the Inbox. */
  function Promote(s: Inbox, id: Id, ordinal: nat, after: Option<nat>, now: int): Result<Inbox> {
    if id !in s.messages || s.messages[id].disposition != Gated || s.messages[id].phase != Settled then Conflict
    else
      Ok(Refresh(s.(messages := s.messages[id := Released(s.messages[id], ordinal, after)]), now))
  }

  /** The shape a promoted row takes; only a row without a server sequence gets a new position. */
  function Released(row: Row, ordinal: nat, after: Option<nat>): Row {
    if row.seqNo.Some? then row.(disposition := Eligible, phase := Pending)
    else row.(disposition := LocalRuntime, phase := Pending, ordinal := Some(ordinal), after := after)
  }

  /** `tombstone_gated_dm`: the operator refused a gated row; it never enters the Inbox. */
  function Tombstone(s: Inbox, id: Id): Result<Inbox> {
    if id !in s.messages || s.messages[id].disposition != Gated || s.messages[id].phase != Settled then Conflict
    else Ok(s.(messages := s.messages[id := s.messages[id].(disposition := Terminal)]))
  }

  predicate AdmitConflicts(s: Inbox, ids: seq<Id>, t: TurnId, session: Option<Session>) {
    || !ExactIds(ids) || t == ""
    || (exists id :: id in ids && !(id in s.messages && s.messages[id].phase == Pending))
    || (t in s.turns && (s.turns[t].session != session || s.turns[t].state != Active))
    || (t in s.turns && exists id :: id in ids && id in MemberIds(Entries(s, t)))
  }

  /** The membership rows an admission appends: consecutive ordinals after the highest one in use. */
  function AddedMembers(s: Inbox, ids: seq<Id>, t: TurnId): seq<Member> {
    var first := if t in s.turns then MaxOrdinal(Entries(s, t)) + 1 else 0;
    seq(|ids|, i requires 0 <= i < |ids| => Member(ids[i], first + i))
  }

  function AdmitTables(s: Inbox, ids: seq<Id>, t: TurnId, session: Option<Session>, now: int): Inbox {
    var admitted :=
      Update(s.messages, Elements(ids), (r: Row) => r.(phase := InTurn, turn := Some(t), visibleAt := Some(now)));
    s.(messages := admitted,
       turns := if t in s.turns then s.turns else s.turns[t := Turn(session, Active)],
       members := s.members[t := Entries(s, t) + AddedMembers(s, ids, t)])
  }

  function Admit(s: Inbox, ids: seq<Id>, t: TurnId, session: Option<Session>, now: int): Result<Inbox> {
    if AdmitConflicts(s, ids, t, session) then Conflict
    else Ok(Refresh(AdmitTables(s, ids, t, session, now), now))
  }

  function StartTurn(s: Inbox, t: TurnId, session: Option<Session>, claim: Option<(nat, seq<Id>)>): Result<Inbox> {
    if t == "" then Conflict
    else if claim.Some? && (claim.value.1 == [] || |Elements(claim.value.1)| != |claim.value.1|) then Conflict
    else
      var claims := claim.Some? && session.Some? && session.value != "";
      var marked := if claims then Deliver(s, claim.value.0, session.value, claim.value.1, None) else (s, true);
      if !marked.1 || t in s.turns then Conflict
      else Ok(marked.0.(turns := s.turns[t := Turn(session, Active)]))
  }

  function FinalizeEmpty(s: Inbox, t: TurnId, requeued: bool): Result<Inbox> {
    if !IsActive(s, t) || Entries(s, t) != [] then Conflict
    else Ok(s.(turns := s.turns[t := s.turns[t].(state := if requeued then Requeued else Done)]))
  }

  function Transfer(s: Inbox, t: TurnId, from: Option<Session>, to: Session): Result<Inbox> {
    if t == "" || to == "" || !IsActive(s, t) || s.turns[t].session != from then Conflict
    else Ok(s.(turns := s.turns[t := s.turns[t].(session := Some(to))]))
  }

  predicate CompleteConflicts(s: Inbox, processed: seq<Id>, renotice: seq<Id>, t: TurnId, owner: Option<Session>) {
    var all := processed + renotice;
    || (owner.Some? && !(t in s.turns && s.turns[t].session == owner))
    || Elements(MemberIds(Entries(s, t))) != Elements(all) || |Entries(s, t)| != |Elements(all)|
    || (exists id :: id in all && !OwnedBy(s, id, t)) || |Elements(all)| != |all|
    || !IsActive(s, t)
  }

  function CompleteTables(s: Inbox, processed: seq<Id>, renotice: seq<Id>, t: TurnId, now: int): Inbox
    requires t in s.turns
  {
    var settled :=
        Update(s.messages, Elements(processed), (r: Row) => r.(phase := Processed, processedAt := Some(now)));
    var returned := Update(settled, Elements(renotice),
      (r: Row) => r.(phase := Pending, turn := None, processedAt := None, renotified := true));
    s.(messages := returned,
       contributions := s.contributions - Elements(renotice),
       turns := s.turns[t := s.turns[t].(state := Done)])
  }

  /** One completion transaction for the plain and the renotice path. */
  function Complete(s: Inbox, processed: seq<Id>, renotice: seq<Id>, t: TurnId, owner: Option<Session>,
      now: int): Result<Inbox> {
    if CompleteConflicts(s, processed, renotice, t, owner) then Conflict
    else Ok(Refresh(CompleteTables(s, processed, renotice, t, now), now))
  }

  function MarkProcessed(s: Inbox, ids: seq<Id>, t: TurnId, owner: Option<Session>, now: int): Result<Inbox> {
    if !ExactIds(ids) then Conflict else Complete(s, ids, [], t, owner, now)
  }

  function CompleteWithRenotice(s: Inbox, processed: seq<Id>, renotice: seq<Id>, t: TurnId, owner: Option<Session>,
      now: int): Result<Inbox> {
    if (processed != [] && !ExactIds(processed)) || !ExactIds(renotice)
        || Elements(processed) * Elements(renotice) != {} then Conflict
    else Complete(s, processed, renotice, t, owner, now)
  }

  /** The fallback completion: redeliver exactly the members that still hold their one-shot redelivery. */
  function CompleteUnspent(s: Inbox, t: TurnId, owner: Option<Session>, now: int): Result<Inbox> {
    var ids := MemberIds(Entries(s, t));
    Complete(s, Keep(ids, Elements(ids) - Unspent(s, ids)), Keep(ids, Unspent(s, ids)), t, owner, now)
  }

  predicate RequeueConflicts(s: Inbox, ids: seq<Id>, t: TurnId) {
    || !ExactIds(ids)
    || Elements(MemberIds(Entries(s, t))) != Elements(ids) || |Entries(s, t)| != |ids|
    || (exists id :: id in ids && !OwnedBy(s, id, t))
    || !IsActive(s, t)
  }

  function RequeueTables(s: Inbox, ids: seq<Id>, t: TurnId, now: int): Inbox
    requires t in s.turns
  {
    var covered := Elements(ids) * s.covers;
    var settled :=
        Update(s.messages, covered, (r: Row) => r.(phase := Processed, turn := None, processedAt := Some(now)));
    var returned := Update(settled, Elements(ids) - covered,
      (r: Row) => r.(phase := Pending, turn := None, visibleAt := None, processedAt := None));
    s.(messages := returned, turns := s.turns[t := s.turns[t].(state := Requeued)])
  }

  /** A failed turn: covered rows are settled, the others go back to the Inbox unread. */
  function Requeue(s: Inbox, ids: seq<Id>, t: TurnId, now: int): Result<Inbox> {
    if RequeueConflicts(s, ids, t) then Conflict else Ok(Refresh(RequeueTables(s, ids, t, now), now))
  }

  /** The pending rows a cover settles: those already presented at least once. */
  function CoverSettles(s: Inbox, recorded: set<Id>): set<Id> {
    set id | id in recorded && id in s.messages && s.messages[id].phase == Pending
             && (s.messages[id].renotified || HasHistory(s, id))
  }

  function Cover(s: Inbox, ids: set<Id>, now: int): Inbox {
    var recorded := ids * s.messages.Keys;
    if recorded == {} then s
    else
      var messages := Update(s.messages, CoverSettles(s, recorded),
        (r: Row) => r.(phase := Processed, processedAt := Some(now), turn := None,
                       visibleAt := if r.visibleAt.Some? then r.visibleAt else Some(now)));
      Refresh(s.(messages := messages, covers := s.covers + recorded), now)
  }

  function Quarantine(s: Inbox, id: Id, now: int): Inbox {
    if id !in s.messages || s.messages[id].phase != Pending then s
    else
      Refresh(s.(messages := s.messages[id :=
        s.messages[id].(disposition := Terminal, phase := Settled, turn := None, visibleAt := None)]), now)
  }

  function SetBaseline(s: Inbox, space: string, channel: string, seqNo: nat): Inbox {
    s.(baselines := s.baselines[(space, channel) := seqNo])
  }

  // ------------------------------------------------------------------- runs

  /** Every transaction that changes rows, turns, notices, covers or baselines, with its arguments. */
  datatype Step =
    | IngestStep(id: Id, row: Row, now: int)
    | PromoteStep(id: Id, ordinal: nat, after: Option<nat>, now: int)
    | AdmitStep(ids: seq<Id>, t: TurnId, session: Option<Session>, now: int)
    | StartStep(t: TurnId, session: Option<Session>, claim: Option<(nat, seq<Id>)>)
    | FinalizeEmptyStep(t: TurnId, requeued: bool)
    | TransferStep(t: TurnId, from: Option<Session>, to: Session)
    | CompleteStep(processed: seq<Id>, renotice: seq<Id>, t: TurnId, owner: Option<Session>, now: int)
    | RequeueStep(ids: seq<Id>, t: TurnId, now: int)
    | CoverStep(covered: set<Id>, now: int)
    | DeliverStep(generation: nat, told: Session, ids: seq<Id>, turn: Option<TurnId>)
    | ReleaseStep(session: Option<Session>, dropped: Option<seq<Id>>)
    | QuarantineStep(id: Id, now: int)
    | TombstoneStep(id: Id)
    | BaselineStep(space: string, channel: string, seqNo: nat)

  function Outcome(s: Inbox, step: Step): Result<Inbox> {
    match step
    case IngestStep(id, row, now) => Ingest(s, id, row, now)
    case PromoteStep(id, ordinal, after, now) => Promote(s, id, ordinal, after, now)
    case AdmitStep(ids, t, session, now) => Admit(s, ids, t, session, now)
    case StartStep(t, session, claim) => StartTurn(s, t, session, claim)
    case FinalizeEmptyStep(t, requeued) => FinalizeEmpty(s, t, requeued)
    case TransferStep(t, from, to) => Transfer(s, t, from, to)
    case CompleteStep(processed, renotice, t, owner, now) => Complete(s, processed, renotice, t, owner, now)
    case RequeueStep(ids, t, now) => Requeue(s, ids, t, now)
    case CoverStep(covered, now) => Ok(Cover(s, covered, now))
    case DeliverStep(generation, told, ids, turn) => Ok(MarkDelivered(s, generation, told, ids, turn).0)
    case ReleaseStep(session, dropped) => Ok(Release(s, session, dropped))
    case QuarantineStep(id, now) => Ok(Quarantine(s, id, now))
    case TombstoneStep(id) => Tombstone(s, id)
    case BaselineStep(space, channel, seqNo) => Ok(SetBaseline(s, space, channel, seqNo))
  }

  /** A transaction that does not start, grow, move or end a turn. */
  predicate IsBackground(step: Step) {
    || step.IngestStep? || step.PromoteStep? || step.TombstoneStep? || step.CoverStep? || step.DeliverStep?
    || step.ReleaseStep? || step.QuarantineStep? || step.BaselineStep?
  }

  /** A conflicting transaction leaves every table as it was. */
  function Apply(s: Inbox, step: Step): Inbox {
    var r := Outcome(s, step);
    if r.Ok? then r.value else s
  }

  function Run(s: Inbox, steps: seq<Step>): Inbox
    decreases |steps|
  {
    if steps == [] then s
    else Apply(Run(s, steps[..|steps| - 1]), steps[|steps| - 1])
  }
}
