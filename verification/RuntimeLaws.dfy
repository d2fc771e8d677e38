/** What every interleaving of daemon, provider and store events keeps true of the runtime. */
module RuntimeLaws {
  import opened Prelude
  import opened InboxModel
  import opened TurnRuntime
  import TurnLaws

  /** The in-memory union is the durable membership of the bound turn, in order. */
  ghost predicate Mirrors(r: Runtime) {
    r.active.turn in r.db.turns && r.active.ids == MemberIds(Entries(r.db, r.active.turn))
  }

  /** No durable turn other than `t` is running. */
  ghost predicate OnlyActive(db: Inbox, t: TurnId) {
    forall u :: u in db.turns && db.turns[u].state == Active ==> u == t
  }

  ghost predicate Inv(r: Runtime) {
    && TurnLaws.Sound(r.db)
    && (r.active.turn == "" ==> r.active.ids == [] && r.adopted == "" && r.daemon in {Resting, Resolving})
    && (r.active.turn != "" ==> Mirrors(r) && (r.adopted == r.active.turn <==> r.daemon in {Resting, Resolving}))
    && (r.adopted != "" ==> r.adopted == r.active.turn)
    && (r.daemon == Running ==> IsActive(r.db, r.active.turn) && r.db.turns[r.active.turn].session == r.active.session)
    && (r.daemon == Finishing ==> !IsActive(r.db, r.active.turn))
    && OnlyActive(r.db, r.active.turn)
    && "" !in r.db.turns && "" !in r.db.messages
  }

  // ------------------------------------------------- store facts the events use

  lemma ReleaseSound(db: Inbox, session: Option<Session>, ids: Option<seq<Id>>)
    requires TurnLaws.Sound(db)
    ensures TurnLaws.Sound(Release(db, session, ids)) && TurnLaws.SameTurns(db, Release(db, session, ids))
  {
    TurnLaws.StepSound(db, ReleaseStep(session, ids));
  }

  lemma AdmitGrows(db: Inbox, ids: seq<Id>, t: TurnId, session: Option<Session>, now: int)
    requires TurnLaws.Sound(db) && Admit(db, ids, t, session, now).Ok?
    ensures var db' := Admit(db, ids, t, session, now).value;
            && TurnLaws.Sound(db') && t != ""
            && MemberIds(Entries(db', t)) == MemberIds(Entries(db, t)) + ids
            && db'.turns == db.turns[t := Turn(session, Active)]
            && (t in db.turns ==> IsActive(db, t))
  {
    TurnLaws.AdmitSound(db, ids, t, session, now);
    TurnLaws.AdmitIsAdmitted(db, ids, t, session, now);
    var mid := AdmitTables(db, ids, t, session, now);
    assert t in db.turns ==> db.turns[t] == Turn(session, Active);
    assert mid.turns == db.turns[t := Turn(session, Active)];
    assert Entries(Refresh(mid, now), t) == Entries(mid, t);
  }

  lemma StartFresh(db: Inbox, t: TurnId, session: Option<Session>, claim: Option<(nat, seq<Id>)>)
    requires TurnLaws.Sound(db) && StartTurn(db, t, session, claim).Ok?
    ensures var db' := StartTurn(db, t, session, claim).value;
            && TurnLaws.Sound(db') && t != "" && t !in db.turns && Entries(db', t) == []
            && db'.turns == db.turns[t := Turn(session, Active)] && db'.members == db.members
  {
    TurnLaws.StartSound(db, t, session, claim);
  }

  /** Ending a turn: same members, the turn closed, every other turn untouched. */
  ghost predicate Closed(db: Inbox, db': Inbox, t: TurnId) {
    && TurnLaws.Sound(db') && db'.members == db.members && db'.messages.Keys == db.messages.Keys
    && t in db.turns && t in db'.turns && db'.turns[t].state != Active
    && db'.turns == db.turns[t := db'.turns[t]]
  }

  lemma CompleteCloses(db: Inbox, processed: seq<Id>, renotice: seq<Id>, t: TurnId, owner: Option<Session>, now: int)
    requires TurnLaws.Sound(db) && Complete(db, processed, renotice, t, owner, now).Ok?
    ensures Closed(db, Complete(db, processed, renotice, t, owner, now).value, t)
  {
    TurnLaws.CompleteEnds(db, processed, renotice, t, owner, now);
    TurnLaws.EndedSound(db, CompleteTables(db, processed, renotice, t, now), t, now);
  }

  lemma RequeueCloses(db: Inbox, ids: seq<Id>, t: TurnId, now: int)
    requires TurnLaws.Sound(db) && Requeue(db, ids, t, now).Ok?
    ensures Closed(db, Requeue(db, ids, t, now).value, t)
  {
    TurnLaws.RequeueEnds(db, ids, t, now);
    TurnLaws.EndedSound(db, RequeueTables(db, ids, t, now), t, now);
  }

  lemma FinalizeEmptyCloses(db: Inbox, t: TurnId, requeued: bool)
    requires TurnLaws.Sound(db) && FinalizeEmpty(db, t, requeued).Ok?
    ensures Closed(db, FinalizeEmpty(db, t, requeued).value, t)
  {
    TurnLaws.StepSound(db, FinalizeEmptyStep(t, requeued));
  }

  lemma FallbackCloses(db: Inbox, t: TurnId, owner: Option<Session>, now: int)
    requires TurnLaws.Sound(db) && CompleteUnspent(db, t, owner, now).Ok?
    ensures Closed(db, CompleteUnspent(db, t, owner, now).value, t)
  {
    var ids := MemberIds(Entries(db, t));
    CompleteCloses(db, Keep(ids, Elements(ids) - Unspent(db, ids)), Keep(ids, Unspent(db, ids)), t, owner, now);
  }

  lemma FinalizeCloses(db: Inbox, active: Union, renotice: bool, reading: Reading, now: int)
    requires TurnLaws.Sound(db) && FinalizeActive(db, active, renotice, reading, now).Ok?
    ensures Closed(db, FinalizeActive(db, active, renotice, reading, now).value, active.turn)
  {
    var t, owner := active.turn, active.session;
    if MarkProcessed(db, active.ids, t, owner, now).Ok? {
      CompleteCloses(db, active.ids, [], t, owner, now);
    }
    if renotice && reading.Failed? && CompleteUnspent(db, t, owner, now).Ok? {
      FallbackCloses(db, t, owner, now);
    }
    if renotice && reading.Covered? {
      var back := ToRenotice(db, active, reading.covered, reading.exempt);
      var rest := Keep(active.ids, Elements(active.ids) - Elements(back));
      if Complete(db, rest, back, t, owner, now).Ok? { CompleteCloses(db, rest, back, t, owner, now); }
    }
  }

  lemma ProcessedCloses(db: Inbox, active: Union, renotice: bool, reading: Reading, now: int)
    requires TurnLaws.Sound(db) && SettleProcessed(db, active, renotice, reading, now).Ok?
    ensures Closed(db, SettleProcessed(db, active, renotice, reading, now).value, active.turn)
  {
    if active.ids == [] {
      FinalizeEmptyCloses(db, active.turn, false);
    } else {
      FinalizeCloses(db, active, renotice, reading, now);
    }
  }

  lemma RequeuedCloses(db: Inbox, active: Union, now: int)
    requires TurnLaws.Sound(db) && SettleRequeued(db, active, now).Ok?
    ensures Closed(db, SettleRequeued(db, active, now).value, active.turn)
  {
    if active.ids == [] {
      FinalizeEmptyCloses(db, active.turn, true);
    } else {
      RequeueCloses(db, active.ids, active.turn, now);
    }
  }

  // --------------------------------------------- settlement never conflicts

  /** Splitting a duplicate-free list by membership loses and repeats nothing. */
  lemma PartitionIsExact(ids: seq<Id>, part: set<Id>)
    requires Distinct(ids)
    ensures var a, b := Keep(ids, Elements(ids) - part), Keep(ids, part);
            && Elements(a + b) == Elements(ids) && |Elements(a + b)| == |a + b|
            && |Elements(a)| == |a| && |Elements(b)| == |b| && Elements(a) * Elements(b) == {}
  {
    var a, b := Keep(ids, Elements(ids) - part), Keep(ids, part);
    KeepDistinct(ids, Elements(ids) - part);
    KeepDistinct(ids, part);
    DistinctIffSize(a);
    DistinctIffSize(b);
    assert Elements(a + b) == Elements(a) + Elements(b);
    assert Elements(a) !! Elements(b);
  }

  /** Members of the active turn, split any way, complete without a conflict for its durable owner. */
  lemma CompletionAccepted(db: Inbox, part: set<Id>, t: TurnId, owner: Option<Session>)
    requires TurnLaws.Sound(db) && IsActive(db, t) && (owner.Some? ==> owner == db.turns[t].session)
    ensures var ids := MemberIds(Entries(db, t));
            !CompleteConflicts(db, Keep(ids, Elements(ids) - part), Keep(ids, part), t, owner)
  {
    var ids := MemberIds(Entries(db, t));
    assert Distinct(ids);
    DistinctIffSize(ids);
    PartitionIsExact(ids, part);
    var all := Keep(ids, Elements(ids) - part) + Keep(ids, part);
    forall id | id in all ensures OwnedBy(db, id, t) { assert id in Elements(all) && id in ids; }
  }

  lemma NoEmptyMember(db: Inbox, t: TurnId)
    requires TurnLaws.Sound(db) && IsActive(db, t) && "" !in db.messages
    ensures "" !in MemberIds(Entries(db, t))
  {
    assert "" in MemberIds(Entries(db, t)) ==> OwnedBy(db, "", t);
  }

  lemma {:induction false} KeepAll<T>(s: seq<T>, keep: set<T>)
    requires Elements(s) <= keep
    ensures Keep(s, keep) == s
  {
    if s != [] {
      assert s == s[..|s| - 1] + [s[|s| - 1]];
      assert Elements(s[..|s| - 1]) <= Elements(s);
      KeepAll(s[..|s| - 1], keep);
    }
  }

  lemma InTurnIsMembership(db: Inbox, t: TurnId, session: Option<Session>)
    requires TurnLaws.Sound(db) && IsActive(db, t) && session.Some? && db.turns[t].session == session
    ensures InTurnMessages(db, t, session) == MemberIds(Entries(db, t))
  {
    var ids := MemberIds(Entries(db, t));
    assert forall id :: id in ids ==> OwnedBy(db, id, t);
    KeepAll(ids, set id | id in ids && OwnedBy(db, id, t));
  }

  /** The union holds exactly what completion and requeue will be checked against. */
  ghost predicate Exact(db: Inbox, active: Union) {
    && TurnLaws.Sound(db) && IsActive(db, active.turn) && "" !in db.messages
    && active.ids == MemberIds(Entries(db, active.turn))
    && (active.session.Some? ==> active.session == db.turns[active.turn].session)
  }

  /** A running daemon turn settles without a lifecycle conflict, however cover reading went. */
  lemma SettlingNeverConflicts(r: Runtime, renotice: bool, reading: Reading, now: int)
    requires Inv(r) && r.daemon == Running
    ensures SettleProcessed(r.db, r.active, renotice, reading, now).Ok?
    ensures SettleRequeued(r.db, r.active, now).Ok?
  {
    ProcessedAccepted(r.db, r.active, renotice, reading, now);
    RequeuedAccepted(r.db, r.active, now);
  }

  /** So both exits of a running daemon turn end it. */
  lemma SucceedEnds(r: Runtime, renotice: bool, reading: Reading, notice: seq<Id>, now: int)
    requires Inv(r) && r.daemon == Running
    ensures React(r, Succeed(renotice, reading, notice, now)).daemon == Finishing
  {
    ProcessedAccepted(r.db, r.active, renotice, reading, now);
    ReactBranch(r, Succeed(renotice, reading, notice, now));
  }

  lemma FailEnds(r: Runtime, notice: seq<Id>, now: int)
    requires Inv(r) && r.daemon == Running
    ensures React(r, Fail(notice, now)).daemon == Finishing
  {
    RequeuedAccepted(r.db, r.active, now);
    ReactBranch(r, Fail(notice, now));
  }

  lemma RequeuedAccepted(db: Inbox, active: Union, now: int)
    requires Exact(db, active)
    ensures SettleRequeued(db, active, now).Ok?
  {
    assert Distinct(active.ids);
    DistinctIffSize(active.ids);
    NoEmptyMember(db, active.turn);
    assert forall id :: id in active.ids ==> OwnedBy(db, id, active.turn);
    assert active.ids != [] ==> !RequeueConflicts(db, active.ids, active.turn);
  }

  lemma PlainAccepted(db: Inbox, active: Union, now: int)
    requires Exact(db, active) && active.ids != []
    ensures MarkProcessed(db, active.ids, active.turn, active.session, now).Ok?
  {
    var ids := active.ids;
    assert Distinct(ids);
    DistinctIffSize(ids);
    NoEmptyMember(db, active.turn);
    CompletionAccepted(db, {}, active.turn, active.session);
    KeepAll(ids, Elements(ids) - {});
    assert Keep(ids, {}) == [] by { assert Elements(Keep(ids, {})) == {}; }
  }

  lemma ProcessedAccepted(db: Inbox, active: Union, renotice: bool, reading: Reading, now: int)
    requires Exact(db, active)
    ensures SettleProcessed(db, active, renotice, reading, now).Ok?
  {
    if active.ids != [] {
      PlainAccepted(db, active, now);
      if renotice && reading.Covered? {
        RenoticeAccepted(db, active, reading.covered, reading.exempt, now);
      }
    }
  }

  /** Either half of the members is an exact id list, or empty. */
  lemma PartIsExact(ids: seq<Id>, part: set<Id>)
    requires Distinct(ids) && "" !in ids
    ensures Keep(ids, part) == [] || ExactIds(Keep(ids, part))
  {
    KeepDistinct(ids, part);
    DistinctIffSize(Keep(ids, part));
    assert "" !in Elements(Keep(ids, part));
  }

  lemma PartAccepted(db: Inbox, active: Union, part: set<Id>, now: int)
    requires Exact(db, active) && part <= Elements(active.ids) && Keep(active.ids, part) != []
    ensures var back := Keep(active.ids, part);
            CompleteWithRenotice(db, Keep(active.ids, Elements(active.ids) - Elements(back)), back, active.turn,
                active.session, now).Ok?
  {
    var ids := active.ids;
    var back, rest := Keep(ids, part), Keep(ids, Elements(ids) - part);
    MembersAreExact(db, active);
    PartIsExact(ids, part);
    PartIsExact(ids, Elements(ids) - part);
    CompletionAccepted(db, part, active.turn, active.session);
    assert Elements(back) == part && Elements(rest) == Elements(ids) - part;
    BothHalvesAccepted(db, rest, back, active.turn, active.session, now);
  }

  lemma MembersAreExact(db: Inbox, active: Union)
    requires Exact(db, active)
    ensures Distinct(active.ids) && "" !in active.ids
  {
    NoEmptyMember(db, active.turn);
    assert active.turn in db.members ==> TurnLaws.InAdmissionOrder(db.members[active.turn]);
  }

  lemma BothHalvesAccepted(db: Inbox, rest: seq<Id>, back: seq<Id>, t: TurnId, owner: Option<Session>, now: int)
    requires !CompleteConflicts(db, rest, back, t, owner)
    requires (rest == [] || ExactIds(rest)) && ExactIds(back) && Elements(rest) * Elements(back) == {}
    ensures CompleteWithRenotice(db, rest, back, t, owner, now).Ok?
  {
  }

  /** What reconciliation returns is a part of the turn's own members, in order. */
  lemma RenoticeIsPart(db: Inbox, active: Union, covered: set<Id>, exempt: set<Id>)
    requires Exact(db, active) && ToRenotice(db, active, covered, exempt) != []
    ensures exists part ::
        ToRenotice(db, active, covered, exempt) == Keep(active.ids, part) && part <= Elements(active.ids)
  {
    assert active.session.Some?;
    InTurnIsMembership(db, active.turn, active.session);
  }

  lemma RenoticeAccepted(db: Inbox, active: Union, covered: set<Id>, exempt: set<Id>, now: int)
    requires Exact(db, active)
    ensures var back := ToRenotice(db, active, covered, exempt);
            back != [] ==>
              CompleteWithRenotice(db, Keep(active.ids, Elements(active.ids) - Elements(back)), back, active.turn,
                  active.session, now).Ok?
  {
    var back := ToRenotice(db, active, covered, exempt);
    if back != [] {
      RenoticeIsPart(db, active, covered, exempt);
      var part :| back == Keep(active.ids, part) && part <= Elements(active.ids);
      PartAccepted(db, active, part, now);
    }
  }

  // --------------------------------------------------- the invariant, event by event

  lemma BackgroundKeeps(r: Runtime, step: Step)
    requires Inv(r) && IsBackground(step)
    ensures Inv(r.(db := Apply(r.db, step)))
  {
    TurnLaws.BackgroundKeepsTurns(r.db, step);
    TurnLaws.StepSound(r.db, step);
    TurnLaws.NoEmptyId(r.db, step);
  }

  lemma StartKeeps(r: Runtime, t: TurnId, ids: seq<Id>, session: Option<Session>, claim: Option<(nat, seq<Id>)>,
      now: int)
    requires Inv(r) && r.daemon == Resolving
    ensures Inv(StartDaemonTurn(r, t, ids, session, claim, now))
  {
    var started := StartDurable(r.db, t, ids, session, claim, now);
    if r.adopted == "" && started.Ok? {
      StartedDurably(r.db, t, ids, session, claim, now);
      OpenedKeeps(r, started.value, t, session);
    }
  }

  /** A durable turn opened by the daemon: sound tables, one new active turn, everything else as before. */
  ghost predicate Opened(db: Inbox, db': Inbox, t: TurnId, session: Option<Session>) {
    && TurnLaws.Sound(db') && t != "" && "" !in db'.messages
    && db'.turns == db.turns[t := Turn(session, Active)]
  }

  lemma StartedDurably(
    db: Inbox, t: TurnId, ids: seq<Id>, session: Option<Session>, claim: Option<(nat, seq<Id>)>, now: int)
    requires TurnLaws.Sound(db) && "" !in db.messages && StartDurable(db, t, ids, session, claim, now).Ok?
    ensures Opened(db, StartDurable(db, t, ids, session, claim, now).value, t, session)
  {
    if ids != [] {
      AdmitGrows(db, ids, t, session, now);
      TurnLaws.NoEmptyId(db, AdmitStep(ids, t, session, now));
    } else {
      StartFresh(db, t, session, claim);
      TurnLaws.NoEmptyId(db, StartStep(t, session, claim));
    }
  }

  lemma OpenedKeeps(r: Runtime, db: Inbox, t: TurnId, session: Option<Session>)
    requires Inv(r) && r.daemon == Resolving && r.adopted == "" && Opened(r.db, db, t, session)
    ensures Inv(r.(db := db, daemon := Running, active := Union(t, MemberIds(Entries(db, t)), session)))
  {
  }

  lemma BindKeeps(r: Runtime, session: Option<Session>, generation: nat, notice: seq<Id>)
    requires Inv(r) && r.daemon == Running
    ensures Inv(Bind(r, session, generation, notice))
  {
    var bound := if session.Some? && session.value != "" then session else r.active.session;
    if bound == r.active.session {
      ToldKeeps(r, generation, notice);
    } else if Transfer(r.db, r.active.turn, r.active.session, bound.value).Ok? {
      TransferKeeps(r, bound.value);
      var db := Transfer(r.db, r.active.turn, r.active.session, bound.value).value;
      ToldKeeps(r.(db := db, active := r.active.(session := bound)), generation, notice);
    }
  }

  /** The bound session accepted a notice. */
  lemma ToldKeeps(r: Runtime, generation: nat, notice: seq<Id>)
    requires Inv(r)
    ensures r.active.session.Some? ==>
              Inv(r.(db := MarkDelivered(r.db, generation, r.active.session.value, notice, Some(r.active.turn)).0))
  {
    if r.active.session.Some? {
      BackgroundKeeps(r, DeliverStep(generation, r.active.session.value, notice, Some(r.active.turn)));
    }
  }

  lemma TransferKeeps(r: Runtime, to: Session)
    requires Inv(r) && r.daemon == Running && Transfer(r.db, r.active.turn, r.active.session, to).Ok?
    ensures var db := Transfer(r.db, r.active.turn, r.active.session, to).value;
            Inv(r.(db := db, active := r.active.(session := Some(to))))
  {
    TurnLaws.StepSound(r.db, TransferStep(r.active.turn, r.active.session, to));
  }

  lemma AdmitKeeps(r: Runtime, ids: seq<Id>, now: int)
    requires Inv(r) && r.active.turn != "" && Admit(r.db, ids, r.active.turn, r.active.session, now).Ok?
    ensures var db := Admit(r.db, ids, r.active.turn, r.active.session, now).value;
            && Inv(r.(db := db, active := r.active.(ids := MemberIds(Entries(db, r.active.turn)))))
            && (r.active.session.Some? ==>
                InTurnMessages(db, r.active.turn, r.active.session) == MemberIds(Entries(db, r.active.turn)))
  {
    var db := Admit(r.db, ids, r.active.turn, r.active.session, now).value;
    AdmitGrows(r.db, ids, r.active.turn, r.active.session, now);
    TurnLaws.NoEmptyId(r.db, AdmitStep(ids, r.active.turn, r.active.session, now));
    assert r.db.turns[r.active.turn] == Turn(r.active.session, Active);
    if r.active.session.Some? { InTurnIsMembership(db, r.active.turn, r.active.session); }
  }

  /** Closing the daemon's turn, before or after its notice cleanup. */
  lemma DaemonClosed(r: Runtime, db: Inbox, session: Option<Session>, notice: Option<seq<Id>>)
    requires Inv(r) && r.daemon == Running && Closed(r.db, db, r.active.turn)
    ensures Inv(r.(db := db, daemon := Finishing))
    ensures Inv(r.(db := Release(db, session, notice), daemon := Finishing))
  {
    ReleaseSound(db, session, notice);
  }

  /** Closing an adopted turn: kept bound when cleanup is still owed, released otherwise. */
  lemma AdoptedClosed(r: Runtime, db: Inbox, session: Option<Session>, notice: Option<seq<Id>>)
    requires Inv(r) && r.adopted != "" && Closed(r.db, db, r.adopted)
    ensures Inv(r.(db := db, settlePending := true))
    ensures Inv(r.(db := Release(db, session, notice), active := UNBOUND, adopted := "", settlePending := false))
  {
    ReleaseSound(db, session, notice);
  }

  lemma ExitKeeps(r: Runtime, settled: Result<Inbox>, cleanup: bool, notice: seq<Id>)
    requires Inv(r) && r.daemon == Running && (settled.Ok? ==> Closed(r.db, settled.value, r.active.turn))
    ensures Inv(Exit(r, settled, cleanup, notice))
  {
    if settled.Ok? {
      DaemonClosed(r, settled.value, r.active.session, Some(notice));
    }
  }

  lemma EndProcessedKeeps(r: Runtime, renotice: bool, reading: Reading, notice: seq<Id>, now: int)
    requires Inv(r) && r.daemon == Running
    ensures Inv(EndProcessed(r, renotice, reading, notice, now))
  {
    var settled := SettleProcessed(r.db, r.active, renotice, reading, now);
    assert settled.Ok? ==> Closed(r.db, settled.value, r.active.turn) by {
      if settled.Ok? { ProcessedCloses(r.db, r.active, renotice, reading, now); }
    }
    ExitKeeps(r, settled, r.active.ids != [], notice);
  }

  lemma EndRequeuedKeeps(r: Runtime, notice: seq<Id>, now: int)
    requires Inv(r) && r.daemon == Running
    ensures Inv(EndRequeued(r, notice, now))
  {
    var settled := SettleRequeued(r.db, r.active, now);
    assert settled.Ok? ==> Closed(r.db, settled.value, r.active.turn) by {
      if settled.Ok? { RequeuedCloses(r.db, r.active, now); }
    }
    ExitKeeps(r, settled, true, notice);
  }

  lemma SucceedKeeps(r: Runtime, renotice: bool, reading: Reading, notice: seq<Id>, now: int)
    requires Inv(r)
    ensures Inv(React(r, Succeed(renotice, reading, notice, now)))
  {
    if r.daemon == Running {
      ReactBranch(r, Succeed(renotice, reading, notice, now));
      EndProcessedKeeps(r, renotice, reading, notice, now);
    }
  }

  lemma FailKeeps(r: Runtime, notice: seq<Id>, now: int)
    requires Inv(r)
    ensures Inv(React(r, Fail(notice, now)))
  {
    if r.daemon == Running {
      ReactBranch(r, Fail(notice, now));
      EndRequeuedKeeps(r, notice, now);
    }
  }

  lemma AdoptKeeps(r: Runtime, t: TurnId, session: Option<Session>)
    requires Inv(r)
    ensures Inv(Adopt(r, t, session))
  {
    if r.active.turn == "" && StartTurn(r.db, t, session, None).Ok? {
      StartFresh(r.db, t, session, None);
      TurnLaws.NoEmptyId(r.db, StartStep(t, session, None));
    }
  }

  lemma AfterSettleKeeps(r: Runtime, settled: Result<Inbox>, fault: Fault, notice: seq<Id>)
    requires Inv(r) && r.adopted != ""
    requires settled.Ok? ==> Closed(r.db, settled.value, r.adopted)
    ensures Inv(AfterSettle(r, settled, fault, notice))
  {
    if settled.Ok? { AdoptedClosed(r, settled.value, r.active.session, Some(notice)); }
  }

  lemma SettleRowsCloses(db: Inbox, active: Union, e: Ending)
    requires TurnLaws.Sound(db) && SettleRows(db, active, e).Ok?
    ensures Closed(db, SettleRows(db, active, e).value, active.turn)
  {
    if e.succeeded {
      ProcessedCloses(db, active, e.renotice, e.reading, e.now);
    } else {
      RequeuedCloses(db, active, e.now);
    }
  }

  lemma FinishKeeps(r: Runtime, e: Ending)
    requires Inv(r)
    ensures Inv(FinishAutonomous(r, e))
  {
    if r.adopted != "" {
      if IsActive(r.db, r.adopted) {
        if SettleRows(r.db, r.active, e).Ok? { SettleRowsCloses(r.db, r.active, e); }
        AfterSettleKeeps(r, SettleRows(r.db, r.active, e), e.fault, e.notice);
      } else {
        assert r.db.turns == r.db.turns[r.adopted := r.db.turns[r.adopted]];
        AfterSettleKeeps(r, Ok(r.db), e.fault, e.notice);
        AfterSettleKeeps(r, Conflict, e.fault, e.notice);
      }
    }
  }

  lemma ReactKeeps(r: Runtime, e: Event)
    requires Inv(r)
    ensures Inv(React(r, e))
  {
    if Foreign(e) { ForeignKeeps(r, e); } else { DaemonKeeps(r, e); }
  }

  lemma DaemonKeeps(r: Runtime, e: Event)
    requires Inv(r) && !Foreign(e)
    ensures Inv(React(r, e))
  {
    match e
    case StartLocal(t, ids, session, claim, now) =>
      if r.daemon == Resolving { StartKeeps(r, t, ids, session, claim, now); }
    case Succeed(renotice, reading, notice, now) => SucceedKeeps(r, renotice, reading, notice, now);
    case Fail(notice, now) => FailKeeps(r, notice, now);
    case _ =>
  }

  lemma ForeignKeeps(r: Runtime, e: Event)
    requires Inv(r) && Foreign(e)
    ensures Inv(React(r, e))
  {
    match e
    case Background(step) => if IsBackground(step) { BackgroundKeeps(r, step); }
    case BindProvider(t, session, generation, notice) =>
      if r.daemon == Running { BindKeeps(r, session, generation, notice); }
    case AdmitPage(ids, now) => if r.active.turn != "" { AdmissionKeeps(r, ids, now); }
    case AdmitVisible(ids, now) => if r.active.turn != "" { AdmissionKeeps(r, ids, now); }
    case Announce(t, session) => AdoptKeeps(r, t, session);
    case Replay(t, session) => AdoptKeeps(r, t, session);
    case Terminal(_, _, _, ending) => TerminalKeeps(r, e);
    case RetrySettle(ending) => FinishKeeps(r, ending);
  }

  lemma AdmissionKeeps(r: Runtime, ids: seq<Id>, now: int)
    requires Inv(r) && r.active.turn != ""
    ensures Inv(AdmitListed(r, ids, now)) && (r.active.session.Some? ==> Inv(AdmitShown(r, ids, now)))
  {
    if Admit(r.db, ids, r.active.turn, r.active.session, now).Ok? { AdmitKeeps(r, ids, now); }
  }

  lemma TerminalKeeps(r: Runtime, e: Event)
    requires Inv(r) && e.Terminal?
    ensures Inv(React(r, e))
  {
    FinishKeeps(r, e.ending);
  }

  /** For every interleaving, the runtime's view of turns is the durable one. */
  lemma {:induction false} EveryInterleavingKeeps(r: Runtime, events: seq<Event>)
    requires Inv(r)
    ensures Inv(Play(r, events))
  {
    if events != [] {
      EveryInterleavingKeeps(r, events[..|events| - 1]);
      ReactKeeps(Play(r, events[..|events| - 1]), events[|events| - 1]);
    }
  }

  // --------------------------------------------------------- what it amounts to

  /** A daemon turn starts only with no adopted turn owned and no durable turn running. */
  lemma DaemonStartsAlone(r: Runtime, e: Event)
    requires Inv(r) && r.daemon != Running && React(r, e).daemon == Running
    ensures r.adopted == "" && r.active.turn == "" && forall t :: !IsActive(r.db, t)
    ensures React(r, e).adopted == "" && IsActive(React(r, e).db, React(r, e).active.turn)
  {
    ReactKeeps(r, e);
  }

  /** An adoption happens only with no turn bound, and none running durably. */
  lemma AdoptionStartsAlone(r: Runtime, e: Event)
    requires Inv(r) && React(r, e).adopted != r.adopted && React(r, e).adopted != ""
    ensures r.adopted == "" && r.active.turn == "" && r.daemon !in {Running, Finishing}
    ensures forall t :: !IsActive(r.db, t)
  {
  }

  /** The event starts a daemon turn, or adopts a provider-started one. */
  ghost predicate Opens(r: Runtime, e: Event) {
    || (r.daemon != Running && React(r, e).daemon == Running)
    || (React(r, e).adopted != r.adopted && React(r, e).adopted != "")
  }

  /** At every moment of every interleaving, whatever opens a turn finds none bound, adopted or durably active. */
  lemma TurnsExclude(r: Runtime, events: seq<Event>, e: Event)
    requires Inv(r) && Opens(Play(r, events), e)
    ensures var p := Play(r, events); p.adopted == "" && p.active.turn == "" && forall t :: !IsActive(p.db, t)
  {
    EveryInterleavingKeeps(r, events);
    var p := Play(r, events);
    if p.daemon != Running && React(p, e).daemon == Running {
      DaemonStartsAlone(p, e);
    } else {
      AdoptionStartsAlone(p, e);
    }
  }

  /** The orphan branch of settlement is dead: an adopted turn never loses its binding. */
  lemma AdoptedKeepsBinding(r: Runtime, events: seq<Event>)
    requires Inv(r) && Play(r, events).adopted != ""
    ensures Play(r, events).active.turn == Play(r, events).adopted
  {
    EveryInterleavingKeeps(r, events);
  }

  /** Outside a bound turn nothing is in a turn: every exit of `process_once` left its rows pending or processed. */
  lemma NoRowLeftInTurn(r: Runtime, events: seq<Event>, id: Id)
    requires Inv(r)
    requires var p := Play(r, events); p.daemon == Finishing || p.active.turn == ""
    requires id in Play(r, events).db.messages
    ensures Play(r, events).db.messages[id].phase != InTurn
  {
    EveryInterleavingKeeps(r, events);
    var p := Play(r, events);
    forall t ensures !OwnedBy(p.db, id, t) {
      assert !IsActive(p.db, t);
    }
    var turn := p.db.messages[id].turn;
    assert turn.Some? ==> !OwnedBy(p.db, id, turn.value);
  }

  /** `t` is on record, and runs only while it is the named adopted turn. */
  ghost predicate Accounted(r: Runtime, t: TurnId) {
    t in r.db.turns && (IsActive(r.db, t) ==> r.adopted == t)
  }

  lemma AccountedStays(r: Runtime, e: Event, t: TurnId)
    requires Inv(r) && Accounted(r, t)
    ensures Accounted(React(r, e), t)
  {
    ReactKeeps(r, e);
    TurnsOnlyGrow(r, e, t);
    if React(r, e).daemon == Running && r.daemon != Running {
      DaemonStartsAlone(r, e);
      StartedIsNew(r, e);
    }
  }

  lemma StartedIsNew(r: Runtime, e: Event)
    requires Inv(r) && r.daemon != Running && React(r, e).daemon == Running
    ensures React(r, e).active.turn !in r.db.turns
  {
    assert e.StartLocal?;
    if e.ids != [] {
      AdmitGrows(r.db, e.ids, e.t, e.session, e.now);
    } else {
      StartFresh(r.db, e.t, e.session, e.claim);
    }
  }

  /** Each adopted durable run is, at every later moment, settled or still named as the adopted turn. */
  lemma {:induction false} AdoptedIsSettledOrNamed(r: Runtime, events: seq<Event>, t: TurnId)
    requires Inv(r) && r.adopted == t && t != ""
    ensures var p := Play(r, events); t in p.db.turns && (p.db.turns[t].state == Active ==> p.adopted == t)
  {
    if events != [] {
      var front := events[..|events| - 1];
      AdoptedIsSettledOrNamed(r, front, t);
      EveryInterleavingKeeps(r, front);
      AccountedStays(Play(r, front), events[|events| - 1], t);
    }
  }

  // ------------------------------------------------------- sessions of adopted turns

  /**
   An adopted turn with rows settles as processed exactly when its in-memory session is absent or the durable owner,
   with or without redelivery and however cover reading went.
   */
  lemma AdoptedSettlesIffSessionHeld(r: Runtime, renotice: bool, reading: Reading, now: int)
    requires Inv(r) && r.adopted != "" && IsActive(r.db, r.adopted) && r.active.ids != []
    ensures SettleProcessed(r.db, r.active, renotice, reading, now).Ok? <==>
              r.active.session.None? || r.active.session == r.db.turns[r.adopted].session
  {
    if r.active.session.None? || r.active.session == r.db.turns[r.adopted].session {
      ProcessedAccepted(r.db, r.active, renotice, reading, now);
    } else {
      ForeignOwnerConflicts(r.db, r.active, renotice, reading, now);
    }
  }

  lemma ForeignOwnerConflicts(db: Inbox, active: Union, renotice: bool, reading: Reading, now: int)
    requires active.ids != [] && active.session.Some?
    requires active.turn in db.turns && db.turns[active.turn].session != active.session
    ensures SettleProcessed(db, active, renotice, reading, now).Conflict?
  {
    assert forall processed, back :: Complete(db, processed, back, active.turn, active.session, now).Conflict?;
  }

  /** A context rollover while a turn is adopted: the one event that can part its session from the durable owner. */
  ghost predicate CutsOff(r: Runtime, e: Event) {
    e.Rollover? && r.adopted != ""
  }

  /** The adopted turn, while it runs, is bound to the session that owns it durably. */
  ghost predicate SessionHeld(r: Runtime) {
    r.adopted != "" && IsActive(r.db, r.adopted) ==> r.active.session == r.db.turns[r.adopted].session
  }

  lemma SessionStaysHeld(r: Runtime, e: Event)
    requires Inv(r) && SessionHeld(r) && !CutsOff(r, e)
    ensures SessionHeld(React(r, e))
  {
    match e
    case Background(step) => if IsBackground(step) { TurnLaws.BackgroundKeepsTurns(r.db, step); }
    case Announce(t, session) => AdoptHolds(r, t, session);
    case Replay(t, session) => AdoptHolds(r, t, session);
    case Terminal(_, _, _, ending) => FinishHolds(r, ending);
    case RetrySettle(ending) => FinishHolds(r, ending);
    case AdmitPage(ids, now) => if r.active.turn != "" { AdmitHolds(r, ids, now); }
    case AdmitVisible(ids, now) => if r.active.turn != "" { AdmitHolds(r, ids, now); }
    case StartLocal(_, _, _, _, _) => assert r.adopted == "" ==> React(r, e).adopted == "";
    case _ =>
  }

  lemma AdoptHolds(r: Runtime, t: TurnId, session: Option<Session>)
    requires Inv(r) && SessionHeld(r)
    ensures SessionHeld(Adopt(r, t, session))
  {
    if r.active.turn == "" && StartTurn(r.db, t, session, None).Ok? {
      StartFresh(r.db, t, session, None);
    }
  }

  lemma AdmitHolds(r: Runtime, ids: seq<Id>, now: int)
    requires Inv(r) && SessionHeld(r) && r.active.turn != ""
    ensures SessionHeld(AdmitListed(r, ids, now)) && SessionHeld(AdmitShown(r, ids, now))
  {
    if Admit(r.db, ids, r.active.turn, r.active.session, now).Ok? {
      AdmitGrows(r.db, ids, r.active.turn, r.active.session, now);
    }
  }

  lemma FinishHolds(r: Runtime, e: Ending)
    requires Inv(r) && SessionHeld(r)
    ensures SessionHeld(FinishAutonomous(r, e))
  {
    if r.adopted != "" {
      if IsActive(r.db, r.adopted) {
        var settled := SettleRows(r.db, r.active, e);
        if settled.Ok? { SettleRowsCloses(r.db, r.active, e); }
        AfterSettleHolds(r, settled, e.fault, e.notice);
      } else {
        AfterSettleHolds(r, Ok(r.db), e.fault, e.notice);
        AfterSettleHolds(r, Conflict, e.fault, e.notice);
      }
    }
  }

  lemma AfterSettleHolds(r: Runtime, settled: Result<Inbox>, fault: Fault, notice: seq<Id>)
    requires SessionHeld(r) && r.adopted != "" && (settled.Ok? ==> !IsActive(settled.value, r.adopted))
    ensures SessionHeld(AfterSettle(r, settled, fault, notice))
  {
  }

  /** No event of the run is a rollover while a turn is adopted. */
  ghost predicate NeverCutOff(r: Runtime, events: seq<Event>) {
    forall k :: 0 <= k < |events| ==> !CutsOff(Play(r, events[..k]), events[k])
  }

  /** Along every interleaving without such a rollover the running adopted turn keeps its durable owner's session. */
  lemma {:induction false} SessionHeldAlongRun(r: Runtime, events: seq<Event>)
    requires Inv(r) && SessionHeld(r) && NeverCutOff(r, events)
    ensures SessionHeld(Play(r, events))
  {
    if events != [] {
      var front := events[..|events| - 1];
      forall k | 0 <= k < |front| ensures !CutsOff(Play(r, front[..k]), front[k]) {
        assert front[..k] == events[..k];
      }
      SessionHeldAlongRun(r, front);
      EveryInterleavingKeeps(r, front);
      SessionStaysHeld(Play(r, front), events[|events| - 1]);
    }
  }

  /** So adopted turns settle as surely as daemon turns: without such a rollover neither outcome can conflict. */
  lemma AdoptedTurnSettles(r: Runtime, events: seq<Event>, e: Ending)
    requires Inv(r) && SessionHeld(r) && NeverCutOff(r, events)
    requires var p := Play(r, events); p.adopted != "" && IsActive(p.db, p.adopted)
    ensures SettleRows(Play(r, events).db, Play(r, events).active, e).Ok?
  {
    SessionHeldAlongRun(r, events);
    EveryInterleavingKeeps(r, events);
    BoundIsExact(Play(r, events));
    BoundSettles(Play(r, events), e);
  }

  lemma BoundIsExact(p: Runtime)
    requires Inv(p) && SessionHeld(p) && p.adopted != "" && IsActive(p.db, p.adopted)
    ensures Exact(p.db, p.active)
  {
  }

  lemma BoundSettles(p: Runtime, e: Ending)
    requires Exact(p.db, p.active)
    ensures SettleRows(p.db, p.active, e).Ok?
  {
    if e.succeeded {
      ProcessedAccepted(p.db, p.active, e.renotice, e.reading, e.now);
    } else {
      RequeuedAccepted(p.db, p.active, e.now);
    }
  }

  /**
   A context rollover of a planning daemon overwrites the session of a turn adopted meanwhile, and the
   durable owner does not follow: the adopted turn can then not be settled as processed.
   */
  lemma RolloverCutsAdoptedTurnOff(r: Runtime, rolled: Session, renotice: bool, reading: Reading, now: int)
    requires Inv(r) && r.daemon == Resolving && r.adopted != "" && IsActive(r.db, r.adopted) && r.active.ids != []
    requires r.db.turns[r.adopted].session != Some(rolled)
    ensures var r' := React(r, Rollover(Some(rolled)));
            && Inv(r') && r'.active.session != r'.db.turns[r'.adopted].session
            && SettleProcessed(r'.db, r'.active, renotice, reading, now).Conflict?
  {
    ReactKeeps(r, Rollover(Some(rolled)));
    var r' := React(r, Rollover(Some(rolled)));
    ForeignOwnerConflicts(r'.db, r'.active, renotice, reading, now);
  }

  const FRESH_START := Runtime(EMPTY, UNBOUND, "", false, false, Resting)

  const ARRIVED := Row(Direct("peer"), Some(7), None, None, Eligible, Pending, None, None, None, false)

  /** A row arrives, the daemon begins to plan, the provider announces its own run, which reads the row. */
  const ADOPTED_WHILE_PLANNING: seq<Event> :=
    [Background(IngestStep("m", ARRIVED, 0)), Plan, Announce("t", Some("one")), AdmitPage(["m"], 1)]

  lemma {:induction false} PlayNext(r: Runtime, events: seq<Event>, e: Event)
    ensures Play(r, events + [e]) == React(Play(r, events), e)
  {
    assert (events + [e])[..|events|] == events;
  }

  lemma ArrivalStored()
    ensures var r := React(FRESH_START, Background(IngestStep("m", ARRIVED, 0)));
            && r.(db := EMPTY) == FRESH_START
            && r.db.messages == map["m" := ARRIVED] && r.db.turns == map[] && r.db.members == map[]
  {
    assert Ingest(EMPTY, "m", ARRIVED, 0).Ok?;
  }

  lemma RunAnnounced(r: Runtime)
    requires r.active == UNBOUND && r.adopted == "" && r.db.turns == map[]
    ensures var r' := React(r, Announce("t", Some("one")));
            && r'.active == Union("t", [], Some("one")) && r'.adopted == "t" && r'.daemon == r.daemon
            && !r'.deferred && r'.settlePending == r.settlePending
            && r'.db == r.db.(turns := map["t" := Turn(Some("one"), Active)])
  {
  }

  lemma RowRead(r: Runtime)
    requires r.active == Union("t", [], Some("one"))
    requires r.db.messages == map["m" := ARRIVED] && r.db.turns == map["t" := Turn(Some("one"), Active)]
    requires r.db.members == map[]
    ensures var r' := React(r, AdmitPage(["m"], 1));
            && r'.daemon == r.daemon && r'.adopted == r.adopted && r'.db.turns == r.db.turns
            && r'.active == r.active.(ids := ["m"])
            && r'.deferred == r.deferred && r'.settlePending == r.settlePending
  {
    AnnouncedState(r.db);
  }

  /** That run reaches the state from which a rollover cuts the adopted turn off. */
  lemma CutOffIsReachable()
    ensures var p := Play(FRESH_START, ADOPTED_WHILE_PLANNING);
            && p.daemon == Resolving && p.adopted == "t" && IsActive(p.db, "t")
            && p.active.ids == ["m"] && p.db.turns["t"].session == Some("one")
            && p.active.session == Some("one") && !p.deferred && !p.settlePending
  {
    var ingest, announce := Background(IngestStep("m", ARRIVED, 0)), Announce("t", Some("one"));
    var none: seq<Event> := [];
    assert none + [ingest] == [ingest] && [ingest] + [Plan] == [ingest, Plan];
    assert [ingest, Plan] + [announce] == [ingest, Plan, announce];
    assert [ingest, Plan, announce] + [AdmitPage(["m"], 1)] == ADOPTED_WHILE_PLANNING;
    PlayNext(FRESH_START, none, ingest);
    ArrivalStored();
    PlayNext(FRESH_START, [ingest], Plan);
    PlayNext(FRESH_START, [ingest, Plan], announce);
    RunAnnounced(Play(FRESH_START, [ingest, Plan]));
    PlayNext(FRESH_START, [ingest, Plan, announce], AdmitPage(["m"], 1));
    RowRead(Play(FRESH_START, [ingest, Plan, announce]));
  }

  /** The fresh start satisfies the invariant, so every law above applies to that run. */
  lemma FreshStartHolds()
    ensures Inv(FRESH_START) && SessionHeld(FRESH_START)
  {
    TurnLaws.OwnershipHolds([]);
    RecoveredStart(EMPTY, false);
  }

  /** Continued by a rollover to another session, the run ends in an adopted turn that cannot settle as processed. */
  lemma AdoptedTurnCutOff(renotice: bool, reading: Reading, now: int)
    ensures var p := Play(FRESH_START, ADOPTED_WHILE_PLANNING + [Rollover(Some("two"))]);
            && p.adopted == "t" && p.active.ids != []
            && SettleProcessed(p.db, p.active, renotice, reading, now).Conflict?
  {
    CutOffIsReachable();
    FreshStartHolds();
    EveryInterleavingKeeps(FRESH_START, ADOPTED_WHILE_PLANNING);
    PlayNext(FRESH_START, ADOPTED_WHILE_PLANNING, Rollover(Some("two")));
    RolloverCutsAdoptedTurnOff(Play(FRESH_START, ADOPTED_WHILE_PLANNING), "two", renotice, reading, now);
  }

  /** The page read of that run, on its tables. */
  lemma AnnouncedState(db: Inbox)
    requires db.messages == map["m" := ARRIVED] && db.turns == map["t" := Turn(Some("one"), Active)]
        && db.members == map[]
    ensures var admitted := Admit(db, ["m"], "t", Some("one"), 1);
            && admitted.Ok? && admitted.value.turns == db.turns
            && MemberIds(Entries(admitted.value, "t")) == ["m"]
  {
    assert Elements(["m"]) == {"m"};
    assert !AdmitConflicts(db, ["m"], "t", Some("one"));
    assert AddedMembers(db, ["m"], "t") == [Member("m", 0)];
    var none: seq<Member> := [];
    assert none + [Member("m", 0)] == [Member("m", 0)];
  }

  /** For a running daemon turn both mirrors hold at every moment of every interleaving. */
  lemma DaemonMirrorsDurableTurn(r: Runtime, events: seq<Event>)
    requires Inv(r) && Play(r, events).daemon == Running
    ensures var p := Play(r, events);
            && IsActive(p.db, p.active.turn)
            && p.active.ids == MemberIds(Entries(p.db, p.active.turn))
            && p.active.session == p.db.turns[p.active.turn].session
  {
    EveryInterleavingKeeps(r, events);
  }

  /** The turn is still on record, and has not been reopened. */
  ghost predicate StaysClosed(db: Inbox, db': Inbox, t: TurnId) {
    t in db'.turns && (!IsActive(db, t) ==> !IsActive(db', t))
  }

  /** No event forgets a turn or reopens a closed one. */
  lemma TurnsOnlyGrow(r: Runtime, e: Event, t: TurnId)
    requires Inv(r) && t in r.db.turns
    ensures StaysClosed(r.db, React(r, e).db, t)
  {
    match e
    case Background(step) => if IsBackground(step) { TurnLaws.BackgroundKeepsTurns(r.db, step); }
    case Succeed(_, _, _, _) => DaemonEndKeepsTurns(r, e, t);
    case Fail(_, _) => DaemonEndKeepsTurns(r, e, t);
    case Terminal(_, _, _, ending) => FinishKeepsTurns(r, ending, t);
    case RetrySettle(ending) => FinishKeepsTurns(r, ending, t);
    case _ => OtherEventsCarry(r, e);
  }

  /** Turns and rows are never dropped, a closed turn stays closed and a spent redelivery spent. */
  ghost predicate Carries(db: Inbox, db': Inbox) {
    && db.turns.Keys <= db'.turns.Keys && db.messages.Keys <= db'.messages.Keys
    && (forall id :: id in db.messages && db.messages[id].renotified ==> db'.messages[id].renotified)
    && (forall t :: t in db.turns && db.turns[t].state != Active ==> db'.turns[t].state != Active)
  }

  lemma AdmitCarries(db: Inbox, ids: seq<Id>, t: TurnId, session: Option<Session>, now: int)
    ensures Admit(db, ids, t, session, now).Ok? ==> Carries(db, Admit(db, ids, t, session, now).value)
  {
  }

  lemma StartCarries(db: Inbox, t: TurnId, session: Option<Session>, claim: Option<(nat, seq<Id>)>)
    ensures StartTurn(db, t, session, claim).Ok? ==> Carries(db, StartTurn(db, t, session, claim).value)
  {
  }

  lemma BindCarries(r: Runtime, session: Option<Session>, generation: nat, notice: seq<Id>)
    ensures Carries(r.db, Bind(r, session, generation, notice).db)
  {
  }

  lemma StartLocalCarries(
    r: Runtime, t: TurnId, ids: seq<Id>, session: Option<Session>, claim: Option<(nat, seq<Id>)>, now: int)
    ensures Carries(r.db, StartDaemonTurn(r, t, ids, session, claim, now).db)
  {
    AdmitCarries(r.db, ids, t, session, now);
    StartCarries(r.db, t, session, claim);
  }

  lemma AdoptCarries(r: Runtime, t: TurnId, session: Option<Session>)
    ensures Carries(r.db, Adopt(r, t, session).db)
  {
    StartCarries(r.db, t, session, None);
  }

  lemma ReadCarries(r: Runtime, ids: seq<Id>, now: int)
    ensures Carries(r.db, AdmitListed(r, ids, now).db) && Carries(r.db, AdmitShown(r, ids, now).db)
  {
    AdmitCarries(r.db, ids, r.active.turn, r.active.session, now);
  }

  /** No event other than a settlement or a background transaction drops anything. */
  lemma OtherEventsCarry(r: Runtime, e: Event)
    requires !e.Succeed? && !e.Fail? && !e.Terminal? && !e.RetrySettle? && !e.Background?
    ensures Carries(r.db, React(r, e).db)
  {
    match e
    case StartLocal(t, ids, session, claim, now) => StartLocalCarries(r, t, ids, session, claim, now);
    case BindProvider(t, session, generation, notice) => BindCarries(r, session, generation, notice);
    case AdmitPage(ids, now) => ReadCarries(r, ids, now);
    case AdmitVisible(ids, now) => ReadCarries(r, ids, now);
    case Announce(t, session) => AdoptCarries(r, t, session);
    case Replay(t, session) => AdoptCarries(r, t, session);
    case _ =>
  }

  lemma ExitKeepsTurns(r: Runtime, settled: Result<Inbox>, cleanup: bool, notice: seq<Id>, t: TurnId)
    requires t in r.db.turns && (settled.Ok? ==> Closed(r.db, settled.value, r.active.turn))
    ensures StaysClosed(r.db, Exit(r, settled, cleanup, notice).db, t)
  {
    if settled.Ok? { ReleaseSound(settled.value, r.active.session, Some(notice)); }
  }

  lemma DaemonEndKeepsTurns(r: Runtime, e: Event, t: TurnId)
    requires Inv(r) && t in r.db.turns && (e.Succeed? || e.Fail?)
    ensures StaysClosed(r.db, React(r, e).db, t)
  {
    if r.daemon == Running {
      if e.Succeed? {
        ReactBranch(r, e);
        var settled := SettleProcessed(r.db, r.active, e.renotice, e.reading, e.now);
        if settled.Ok? { ProcessedCloses(r.db, r.active, e.renotice, e.reading, e.now); }
        ExitKeepsTurns(r, settled, r.active.ids != [], e.notice, t);
      } else {
        ReactBranch(r, e);
        var settled := SettleRequeued(r.db, r.active, e.now);
        if settled.Ok? { RequeuedCloses(r.db, r.active, e.now); }
        ExitKeepsTurns(r, settled, true, e.notice, t);
      }
    }
  }

  lemma FinishKeepsTurns(r: Runtime, e: Ending, t: TurnId)
    requires Inv(r) && t in r.db.turns
    ensures StaysClosed(r.db, FinishAutonomous(r, e).db, t)
  {
    if r.adopted != "" {
      if IsActive(r.db, r.adopted) {
        var settled := SettleRows(r.db, r.active, e);
        if settled.Ok? { SettleRowsCloses(r.db, r.active, e); }
        AfterSettleKeepsTurns(r, settled, e.fault, e.notice, t);
      } else {
        AfterSettleKeepsTurns(r, Ok(r.db), e.fault, e.notice, t);
        AfterSettleKeepsTurns(r, Conflict, e.fault, e.notice, t);
      }
    }
  }

  lemma AfterSettleKeepsTurns(r: Runtime, settled: Result<Inbox>, fault: Fault, notice: seq<Id>, t: TurnId)
    requires t in r.db.turns && (settled.Ok? ==> StaysClosed(r.db, settled.value, t))
    ensures StaysClosed(r.db, AfterSettle(r, settled, fault, notice).db, t)
  {
  }

  /** What others do while the daemon is at work: everything but the daemon's own sections. */
  predicate Foreign(e: Event) {
    || e.Background? || e.BindProvider? || e.AdmitPage? || e.AdmitVisible?
    || e.Announce? || e.Replay? || e.Terminal? || e.RetrySettle?
  }

  /** Others never move the daemon along, and cannot unbind or rebind the turn it is running or finishing. */
  lemma ForeignKeepsDaemon(r: Runtime, e: Event)
    requires Inv(r) && Foreign(e)
    ensures React(r, e).daemon == r.daemon
    ensures r.daemon in {Running, Finishing} ==> React(r, e).active.turn == r.active.turn
  {
  }

  lemma UnboundMeansIdle(r: Runtime)
    requires Inv(r) && r.active.turn == ""
    ensures forall t :: !IsActive(r.db, t)
  {
  }

  /** After startup recovery no durable turn runs and nothing is bound: the invariant holds to begin with. */
  lemma RecoveredStart(db: Inbox, deferred: bool)
    requires TurnLaws.Sound(db) && "" !in db.turns && "" !in db.messages && forall t :: !IsActive(db, t)
    ensures Inv(Runtime(db, UNBOUND, "", false, deferred, Resting))
  {
    forall u ensures !(u in db.turns && db.turns[u].state == Active) {
      assert !IsActive(db, u);
    }
  }

  // --------------------------------------------------------- redelivery is bounded

  lemma CompleteReturns(db: Inbox, processed: seq<Id>, renotice: seq<Id>, t: TurnId, owner: Option<Session>, now: int,
      id: Id)
    requires Complete(db, processed, renotice, t, owner, now).Ok? && id in db.messages
    ensures var row := Complete(db, processed, renotice, t, owner, now).value.messages[id];
            && (db.messages[id].renotified ==> row.renotified)
            && (db.messages[id].phase == InTurn && row.phase == Pending ==> id in renotice && row.renotified)
  {
  }

  lemma FallbackReturns(db: Inbox, t: TurnId, owner: Option<Session>, now: int, id: Id)
    requires CompleteUnspent(db, t, owner, now).Ok? && id in db.messages
    ensures var db' := CompleteUnspent(db, t, owner, now).value; Spends(db, db', id, true)
  {
    var ids := MemberIds(Entries(db, t));
    var back := Keep(ids, Unspent(db, ids));
    CompleteReturns(db, Keep(ids, Elements(ids) - Unspent(db, ids)), back, t, owner, now, id);
    assert id in back ==> id in Elements(back);
  }

  lemma ReconciledReturns(db: Inbox, active: Union, covered: set<Id>, exempt: set<Id>, rest: seq<Id>, now: int, id: Id)
    requires Complete(db, rest, ToRenotice(db, active, covered, exempt), active.turn, active.session, now).Ok?
        && id in db.messages
    ensures Spends(db,
        Complete(db, rest, ToRenotice(db, active, covered, exempt), active.turn, active.session, now).value, id, true)
  {
    var back := ToRenotice(db, active, covered, exempt);
    CompleteReturns(db, rest, back, active.turn, active.session, now, id);
    assert id in back ==> id in Elements(back);
  }

  lemma FinalizeReturns(db: Inbox, active: Union, renotice: bool, reading: Reading, now: int, id: Id)
    requires FinalizeActive(db, active, renotice, reading, now).Ok? && id in db.messages
    ensures Spends(db, FinalizeActive(db, active, renotice, reading, now).value, id, true)
  {
    var t, owner := active.turn, active.session;
    if MarkProcessed(db, active.ids, t, owner, now).Ok? {
      CompleteReturns(db, active.ids, [], t, owner, now, id);
    }
    if renotice && reading.Failed? && CompleteUnspent(db, t, owner, now).Ok? {
      FallbackReturns(db, t, owner, now, id);
    }
    if renotice && reading.Covered? {
      var back := ToRenotice(db, active, reading.covered, reading.exempt);
      var rest := Keep(active.ids, Elements(active.ids) - Elements(back));
      if Complete(db, rest, back, t, owner, now).Ok? {
        ReconciledReturns(db, active, reading.covered, reading.exempt, rest, now, id);
      }
    }
  }

  /** Reconciliation, and its fallback, only pick rows whose single redelivery is unspent. */
  lemma SettlementReturns(db: Inbox, active: Union, renotice: bool, reading: Reading, now: int, id: Id)
    requires SettleProcessed(db, active, renotice, reading, now).Ok? && id in db.messages
    ensures Spends(db, SettleProcessed(db, active, renotice, reading, now).value, id, true)
  {
    if active.ids != [] { FinalizeReturns(db, active, renotice, reading, now, id); }
  }

  /** The event completes a turn successfully and sends the row back to the Inbox. */
  ghost predicate Redelivers(r: Runtime, e: Event, id: Id) {
    && (e.Succeed? || (e.Terminal? && e.ending.succeeded) || (e.RetrySettle? && e.ending.succeeded))
    && id in r.db.messages && r.db.messages[id].phase == InTurn
    && id in React(r, e).db.messages && React(r, e).db.messages[id].phase == Pending
  }

  ghost predicate Spent(r: Runtime, id: Id) {
    id in r.db.messages && r.db.messages[id].renotified
  }

  lemma ReleaseKeepsRows(db: Inbox, session: Option<Session>, ids: Option<seq<Id>>)
    ensures Release(db, session, ids).messages == db.messages
  {
  }

  /** A settlement keeps a spent redelivery spent, and spends one for every row it returns. */
  ghost predicate Spends(db: Inbox, db': Inbox, id: Id, succeeded: bool)
    requires id in db.messages
  {
    && id in db'.messages
    && (db.messages[id].renotified ==> db'.messages[id].renotified)
    && (succeeded && db.messages[id].phase == InTurn && db'.messages[id].phase == Pending ==>
          !db.messages[id].renotified && db'.messages[id].renotified)
  }

  lemma RequeuedSpends(db: Inbox, active: Union, now: int, id: Id)
    requires SettleRequeued(db, active, now).Ok? && id in db.messages
    ensures Spends(db, SettleRequeued(db, active, now).value, id, false)
  {
  }

  lemma SettleRowsSpends(db: Inbox, active: Union, e: Ending, id: Id)
    requires SettleRows(db, active, e).Ok? && id in db.messages
    ensures Spends(db, SettleRows(db, active, e).value, id, e.succeeded)
  {
    if e.succeeded {
      SettlementReturns(db, active, e.renotice, e.reading, e.now, id);
    } else {
      RequeuedSpends(db, active, e.now, id);
    }
  }

  lemma AfterSettleSpends(r: Runtime, settled: Result<Inbox>, fault: Fault, notice: seq<Id>, id: Id, succeeded: bool)
    requires id in r.db.messages && (settled.Ok? ==> Spends(r.db, settled.value, id, succeeded))
    ensures Spends(r.db, AfterSettle(r, settled, fault, notice).db, id, succeeded)
  {
    if settled.Ok? { ReleaseKeepsRows(settled.value, r.active.session, Some(notice)); }
  }

  lemma FinishSpends(r: Runtime, e: Ending, id: Id)
    requires Inv(r) && id in r.db.messages
    ensures Spends(r.db, FinishAutonomous(r, e).db, id, e.succeeded)
  {
    if r.adopted != "" {
      if IsActive(r.db, r.adopted) {
        if SettleRows(r.db, r.active, e).Ok? { SettleRowsSpends(r.db, r.active, e, id); }
        AfterSettleSpends(r, SettleRows(r.db, r.active, e), e.fault, e.notice, id, e.succeeded);
      } else {
        AfterSettleSpends(r, Ok(r.db), e.fault, e.notice, id, e.succeeded);
        AfterSettleSpends(r, Conflict, e.fault, e.notice, id, e.succeeded);
      }
    }
  }

  lemma SucceedSpends(r: Runtime, renotice: bool, reading: Reading, notice: seq<Id>, now: int, id: Id)
    requires id in r.db.messages
    ensures Spends(r.db, React(r, Succeed(renotice, reading, notice, now)).db, id, true)
  {
    var settled := SettleProcessed(r.db, r.active, renotice, reading, now);
    if settled.Ok? {
      SettlementReturns(r.db, r.active, renotice, reading, now, id);
      ReleaseKeepsRows(settled.value, r.active.session, Some(notice));
    }
  }

  lemma FailSpends(r: Runtime, notice: seq<Id>, now: int, id: Id)
    requires id in r.db.messages
    ensures Spends(r.db, React(r, Fail(notice, now)).db, id, false)
  {
    var settled := SettleRequeued(r.db, r.active, now);
    if settled.Ok? {
      RequeuedSpends(r.db, r.active, now, id);
      ReleaseKeepsRows(settled.value, r.active.session, Some(notice));
    }
  }

  lemma SpentStays(r: Runtime, e: Event, id: Id)
    requires Inv(r) && Spent(r, id)
    ensures Spent(React(r, e), id)
  {
    match e
    case Succeed(renotice, reading, notice, now) => SucceedSpends(r, renotice, reading, notice, now, id);
    case Fail(notice, now) => FailSpends(r, notice, now, id);
    case Terminal(_, _, _, ending) => FinishSpends(r, ending, id);
    case RetrySettle(ending) => FinishSpends(r, ending, id);
    case Background(step) => BackgroundSpent(r.db, step, id);
    case _ => OtherEventsCarry(r, e);
  }

  lemma BackgroundSpent(db: Inbox, step: Step, id: Id)
    requires id in db.messages && db.messages[id].renotified
    ensures id in Apply(db, step).messages && Apply(db, step).messages[id].renotified
  {
  }

  lemma {:induction false} SpentAlongRun(r: Runtime, events: seq<Event>, i: nat, id: Id)
    requires Inv(r) && i <= |events| && Spent(Play(r, events[..i]), id)
    ensures Spent(Play(r, events), id)
    decreases |events| - i
  {
    if i == |events| {
      assert events[..i] == events;
    } else {
      assert events[..i + 1][..i] == events[..i];
      EveryInterleavingKeeps(r, events[..i]);
      SpentStays(Play(r, events[..i]), events[i], id);
      SpentAlongRun(r, events, i + 1, id);
    }
  }

  /** Over every interleaving a row comes back by a successful completion at most once. */
  lemma RedeliveredAtMostOnce(r: Runtime, events: seq<Event>, i: nat, j: nat, id: Id)
    requires Inv(r) && i < j < |events|
    requires Redelivers(Play(r, events[..i]), events[i], id)
    ensures !Redelivers(Play(r, events[..j]), events[j], id)
  {
    var before, mid := Play(r, events[..i]), Play(r, events[..j]);
    EveryInterleavingKeeps(r, events[..i]);
    EveryInterleavingKeeps(r, events[..j]);
    RedeliverySpends(before, events[i], id);
    assert events[..i + 1][..i] == events[..i] && events[..j][..i + 1] == events[..i + 1];
    SpentAlongRun(r, events[..j], i + 1, id);
    SpentNeverRedelivered(mid, events[j], id);
  }

  lemma RedeliverySpends(r: Runtime, e: Event, id: Id)
    requires Inv(r) && Redelivers(r, e, id)
    ensures Spent(React(r, e), id)
  {
    match e
    case Succeed(renotice, reading, notice, now) => SucceedSpends(r, renotice, reading, notice, now, id);
    case Terminal(_, _, _, ending) => FinishSpends(r, ending, id);
    case RetrySettle(ending) => FinishSpends(r, ending, id);
    case _ =>
  }

  lemma SpentNeverRedelivered(r: Runtime, e: Event, id: Id)
    requires Inv(r) && Spent(r, id)
    ensures !Redelivers(r, e, id)
  {
    match e
    case Succeed(renotice, reading, notice, now) => SucceedSpends(r, renotice, reading, notice, now, id);
    case Terminal(_, _, _, ending) => FinishSpends(r, ending, id);
    case RetrySettle(ending) => FinishSpends(r, ending, id);
    case _ =>
  }
}
