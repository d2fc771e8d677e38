/**
 Turn orchestration: the in-memory active union, daemon turns, adopted (provider-started) turns and
 cover reconciliation, as events over the durable Inbox. Each event is one section under the
 turn-state lock, or one of the unlocked writes between such sections.
 */
module TurnRuntime {
  import opened Prelude
  import opened InboxModel

  /** The active exact union; `turn` is empty while no turn is bound. */
  datatype Union = Union(turn: TurnId, ids: seq<Id>, session: Option<Session>)

  const UNBOUND := Union("", [], None)

  /** How far the daemon's own `process_once` has come. */
  datatype Daemon = Resting | Resolving | Running | Finishing

  datatype Runtime = Runtime(
    db: Inbox,
    active: Union,
    adopted: TurnId,
    settlePending: bool,
    deferred: bool,
    daemon: Daemon)

  // ----------------------------------------------------- cover reconciliation

  /** `get_in_turn_messages`: only a named owner of an active turn sees its rows, in admission order. */
  function InTurnMessages(db: Inbox, t: TurnId, session: Option<Session>): seq<Id> {
    if session.None? || !IsActive(db, t) || db.turns[t].session != session then []
    else
      var ids := MemberIds(Entries(db, t));
      Keep(ids, set id | id in ids && OwnedBy(db, id, t))
  }

  /** The outcome of reading covers: it failed, or gave the rows nobody covered (agent and system rows exempt). */
  datatype Reading = Failed(fallbackFails: bool) | Covered(covered: set<Id>, exempt: set<Id>)

  function Uncovered(db: Inbox, active: Union, covered: set<Id>, exempt: set<Id>): seq<Id> {
    var rows := InTurnMessages(db, active.turn, active.session);
    Keep(rows, set id | id in rows && id in db.messages && !db.messages[id].renotified && id !in exempt
        && id !in covered)
  }

  /** The uncovered rows, unless in-memory membership drifted from the store: then the strict path must judge. */
  function ToRenotice(db: Inbox, active: Union, covered: set<Id>, exempt: set<Id>): seq<Id> {
    if Elements(active.ids) != Elements(InTurnMessages(db, active.turn, active.session)) then []
    else Uncovered(db, active, covered, exempt)
  }

  /** `_finalize_active_messages`: complete the turn's rows, redelivering what reconciliation picked. */
  function FinalizeActive(db: Inbox, active: Union, renotice: bool, reading: Reading, now: int): Result<Inbox> {
    var plain := MarkProcessed(db, active.ids, active.turn, active.session, now);
    if !renotice then plain
    else
      match reading
      case Failed(fallbackFails) =>
        var fallback := CompleteUnspent(db, active.turn, active.session, now);
        if fallbackFails || fallback.Conflict? then plain else fallback
      case Covered(covered, exempt) =>
        var back := ToRenotice(db, active, covered, exempt);
        if back == [] then plain
        else CompleteWithRenotice(db, Keep(active.ids, Elements(active.ids) - Elements(back)), back, active.turn,
            active.session, now)
  }

  /** The row transition of `_mark_active_processed`: a turn that ran to its end. */
  function SettleProcessed(db: Inbox, active: Union, renotice: bool, reading: Reading, now: int): Result<Inbox> {
    if active.ids == [] then FinalizeEmpty(db, active.turn, false)
        else FinalizeActive(db, active, renotice, reading, now)
  }

  /** The row transition of `_requeue_active_turn`: a failed or cancelled turn hands its rows back. */
  function SettleRequeued(db: Inbox, active: Union, now: int): Result<Inbox> {
    if active.ids == [] then FinalizeEmpty(db, active.turn, true) else Requeue(db, active.ids, active.turn, now)
  }

  // ------------------------------------------------------------------- events

  datatype Event =
    /** Any transaction that does not start, grow, move or end a turn. */
    | Background(step: Step)
    /** `process_once` passed its gates. Its look at the adopted turn takes no lock, so it proves nothing here. */
    | Plan
    /** Context rollover rebinds the provider session; the write takes no lock. */
    | Rollover(session: Option<Session>)
    | GiveUp
    | StartLocal(t: TurnId, ids: seq<Id>, session: Option<Session>, claim: Option<(nat, seq<Id>)>, now: int)
    | BindProvider(t: TurnId, session: Option<Session>, generation: nat, notice: seq<Id>)
    | AdmitPage(ids: seq<Id>, now: int)
    | AdmitVisible(ids: seq<Id>, now: int)
    | Succeed(renotice: bool, reading: Reading, notice: seq<Id>, now: int)
    | Fail(notice: seq<Id>, now: int)
    | FinalizeProcess
    | Announce(t: TurnId, session: Option<Session>)
    | Replay(t: TurnId, session: Option<Session>)
    /**
     The provider reports the end of a run under the session it ran in, if it names one. The flags say whether the
     provider's turn id fits the binding, and whether the report fits the held start.
     */
    | Terminal(named: Session, sameTurn: bool, fitsDeferred: bool, ending: Ending)
    /** A later wake retries a settlement that failed. */
    | RetrySettle(ending: Ending)

  /** Where a settlement breaks: nowhere, before its row transition commits, or before notice cleanup. */
  datatype Fault = NoFault | BeforeCommit | AfterCommit

  datatype Ending = Ending(succeeded: bool, renotice: bool, reading: Reading, notice: seq<Id>, fault: Fault, now: int)

  /** `adopt_autonomous_turn`: bind a durable turn to a run the provider started; refused while any turn is bound. */
  function Adopt(r: Runtime, t: TurnId, session: Option<Session>): Runtime {
    var started := StartTurn(r.db, t, session, None);
    if r.active.turn != "" || started.Conflict? then r.(deferred := true)
    else r.(db := started.value, active := Union(t, [], session), adopted := t, deferred := false)
  }

  /** The row transition that ends an adopted turn with the provider's outcome. */
  function SettleRows(db: Inbox, active: Union, e: Ending): Result<Inbox> {
    if e.succeeded then SettleProcessed(db, active, e.renotice, e.reading, e.now) else SettleRequeued(db, active, e.now)
  }

  /** Failure keeps the turn named, so that a later wake can retry; success frees the binding. */
  function AfterSettle(r: Runtime, settled: Result<Inbox>, fault: Fault, notice: seq<Id>): Runtime {
    if fault == BeforeCommit || settled.Conflict? then r.(settlePending := true)
    else if fault == AfterCommit then r.(db := settled.value, settlePending := true)
    else
      r.(db := Release(settled.value, r.active.session, Some(notice)),
         active := UNBOUND, adopted := "", settlePending := false)
  }

  /** `finish_autonomous_turn` for a turn that still holds the binding. */
  function SettleAdopted(r: Runtime, e: Ending): Runtime {
    if IsActive(r.db, r.adopted) then AfterSettle(r, SettleRows(r.db, r.active, e), e.fault, e.notice)
    else
      // An earlier attempt committed the rows; the same outcome may finish the notice cleanup.
      var same := r.adopted in r.db.turns && r.db.turns[r.adopted].state == (if e.succeeded then Done else Requeued);
      AfterSettle(r, if same then Ok(r.db) else Conflict, e.fault, e.notice)
  }

  /** `_settle_orphaned_autonomous_row`: the binding went to another writer; settle from the durable row alone. */
  function SettleOrphan(r: Runtime, e: Ending): Runtime {
    var kept := r.(settlePending := true);
    if e.fault == BeforeCommit || r.adopted !in r.db.turns then kept
    else
      var run := r.db.turns[r.adopted];
      var ids := MemberIds(Entries(r.db, r.adopted));
      var settled :=
        match run.state
        case Requeued => Ok(r.db)
        case Done => Conflict
        case Active => if ids != [] then Requeue(r.db, ids, r.adopted, e.now) else FinalizeEmpty(r.db, r.adopted, true);
      if settled.Conflict? then kept
      else if e.fault == AfterCommit then kept.(db := settled.value)
      else r.(db := Release(settled.value, run.session, None), adopted := "", settlePending := false)
  }

  function FinishAutonomous(r: Runtime, e: Ending): Runtime {
    if r.adopted == "" then r
    else if r.active.turn != r.adopted then SettleOrphan(r, e)
    else SettleAdopted(r, e)
  }

  /** `_start_local_turn`: persist the daemon's turn, with its rows or with its notice claim. */
  function StartDurable(db: Inbox, t: TurnId, ids: seq<Id>, session: Option<Session>, claim: Option<(nat, seq<Id>)>,
      now: int): Result<Inbox> {
    if ids != [] then Admit(db, ids, t, session, now) else StartTurn(db, t, session, claim)
  }

  /** `_start_notice_unless_autonomous`: the daemon's own turn, unless adoption won the lock first. */
  function StartDaemonTurn(
    r: Runtime, t: TurnId, ids: seq<Id>, session: Option<Session>, claim: Option<(nat, seq<Id>)>, now: int): Runtime
  {
    if r.adopted != "" then r.(daemon := Resting)
    else
      var started := StartDurable(r.db, t, ids, session, claim, now);
      if started.Conflict? then r.(daemon := Resting)
      else r.(db := started.value, daemon := Running, active := Union(t, MemberIds(Entries(started.value, t)), session))
  }

  /** `_admit`: bind the provider's identity, moving durable ownership when the session changed. */
  function Bind(r: Runtime, session: Option<Session>, generation: nat, notice: seq<Id>): Runtime {
    var bound := if session.Some? && session.value != "" then session else r.active.session;
    var moved := if bound != r.active.session then Transfer(r.db, r.active.turn, r.active.session, bound.value)
        else Ok(r.db);
    if moved.Conflict? then r
    else
      var told :=
        if notice != [] && bound.Some?
        then MarkDelivered(moved.value, generation, bound.value, notice, Some(r.active.turn)).0
                  else moved.value;
      r.(db := told, active := r.active.(session := bound))
  }

  /** `_admit_inbox_page`: the page joins the bound turn and memory takes over the durable membership. */
  function AdmitListed(r: Runtime, ids: seq<Id>, now: int): Runtime {
    var admitted := Admit(r.db, ids, r.active.turn, r.active.session, now);
    if admitted.Conflict? then r
    else r.(db := admitted.value, active := r.active.(ids := MemberIds(Entries(admitted.value, r.active.turn))))
  }

  /** `_admit_visible_read`: as a page, but memory takes over what the owning session can see. */
  function AdmitShown(r: Runtime, ids: seq<Id>, now: int): Runtime {
    var admitted := Admit(r.db, ids, r.active.turn, r.active.session, now);
    if admitted.Conflict? then r
    else
      var seen := InTurnMessages(admitted.value, r.active.turn, r.active.session);
      r.(db := admitted.value, active := r.active.(ids := seen))
  }

  /** The daemon's turn after its row transition and, where due, its notice cleanup. */
  function Exit(r: Runtime, settled: Result<Inbox>, cleanup: bool, notice: seq<Id>): Runtime {
    if settled.Conflict? then r
    else
      var cleaned := if cleanup then Release(settled.value, r.active.session, Some(notice)) else settled.value;
      r.(db := cleaned, daemon := Finishing)
  }

  /** `_mark_active_processed`. */
  function EndProcessed(r: Runtime, renotice: bool, reading: Reading, notice: seq<Id>, now: int): Runtime {
    Exit(r, SettleProcessed(r.db, r.active, renotice, reading, now), r.active.ids != [], notice)
  }

  /** `_requeue_active_turn`. */
  function EndRequeued(r: Runtime, notice: seq<Id>, now: int): Runtime {
    Exit(r, SettleRequeued(r.db, r.active, now), true, notice)
  }

  /** A report that names another session or turn than the bound one is not for it. */
  predicate FitsBinding(active: Union, session: Session, sameTurn: bool) {
    (session == "" || active.session == Some(session)) && sameTurn
  }

  function React(r: Runtime, e: Event): Runtime {
    match e
    case Background(step) => if IsBackground(step) then r.(db := Apply(r.db, step)) else r
    case Plan => if r.daemon == Resting then r.(daemon := Resolving) else r
    case Rollover(session) => if r.daemon == Resolving then r.(active := r.active.(session := session)) else r
    case GiveUp => if r.daemon == Resolving then r.(daemon := Resting) else r
    case StartLocal(t, ids, session, claim, now) =>
      if r.daemon == Resolving then StartDaemonTurn(r, t, ids, session, claim, now) else r
    case BindProvider(t, session, generation, notice) =>
      if r.daemon == Running && r.active.turn == t then Bind(r, session, generation, notice) else r
    case AdmitPage(ids, now) => if r.active.turn == "" then r else AdmitListed(r, ids, now)
    case AdmitVisible(ids, now) => if r.active.turn == "" || r.active.session.None? then r else AdmitShown(r, ids, now)
    case Succeed(renotice, reading, notice, now) =>
        if r.daemon != Running then r else EndProcessed(r, renotice, reading, notice, now)
    case Fail(notice, now) => if r.daemon != Running then r else EndRequeued(r, notice, now)
    case FinalizeProcess => if r.daemon == Finishing then r.(active := UNBOUND, daemon := Resting) else r
    case Announce(t, session) => Adopt(r, t, session)
    case Replay(t, session) => if r.deferred && r.active.turn == "" then Adopt(r, t, session) else r
    case Terminal(session, sameTurn, fitsDeferred, ending) =>
      if r.adopted != "" && !FitsBinding(r.active, session, sameTurn) then r
      else if r.deferred then (if fitsDeferred then r.(deferred := false) else r)
      else FinishAutonomous(r, ending)
    case RetrySettle(ending) => if r.settlePending then FinishAutonomous(r, ending) else r
  }

  /** Where six of the branches lead, for proofs that would otherwise unfold all of them. */
  lemma ReactBranch(r: Runtime, e: Event)
    ensures e.Succeed? && r.daemon == Running ==> React(r, e) == EndProcessed(r, e.renotice, e.reading, e.notice, e.now)
    ensures e.Fail? && r.daemon == Running ==> React(r, e) == EndRequeued(r, e.notice, e.now)
    ensures e.AdmitPage? ==> React(r, e) == if r.active.turn == "" then r else AdmitListed(r, e.ids, e.now)
    ensures e.AdmitVisible? ==>
              React(r, e) == if r.active.turn == "" || r.active.session.None? then r else AdmitShown(r, e.ids, e.now)
    ensures e.RetrySettle? ==> React(r, e) == if r.settlePending then FinishAutonomous(r, e.ending) else r
    ensures e.BindProvider? && r.daemon == Running ==>
              React(r, e) == if r.active.turn == e.t then Bind(r, e.session, e.generation, e.notice) else r
  {
  }

  function Play(r: Runtime, events: seq<Event>): Runtime
    decreases |events|
  {
    if events == [] then r
    else React(Play(r, events[..|events| - 1]), events[|events| - 1])
  }
}
