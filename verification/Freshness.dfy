/**
 The freshness boundary of a channel: the highest sequence below which every locally known row
 is terminal, processed and shown, or shown to the asking turn. What it means, and what keeps it.
 */
module Freshness {
  import opened Prelude
  import opened InboxModel
  import TurnLaws
  import RowLaws

  predicate InChannel(row: Row, space: string, channel: string) {
    row.place.Channel? && row.place.space == space && row.place.channel == channel && row.seqNo.Some?
  }

  function ChannelRows(messages: map<Id, Row>, space: string, channel: string): set<Id> {
    set id | id in messages && InChannel(messages[id], space, channel)
  }

  /** The persisted context baseline; without one every sequence is above it. */
  function Baseline(s: Inbox, space: string, channel: string): int {
    if (space, channel) in s.baselines then s.baselines[(space, channel)] else -1
  }

  predicate Admissible(row: Row, t: TurnId, candidate: Option<nat>)
    requires row.seqNo.Some?
  {
    || row.disposition == Terminal
    || candidate == row.seqNo
    || (row.visibleAt.Some? && (row.phase == Processed || (row.turn == Some(t) && row.phase == InTurn)))
  }

  /** `m` is a known sequence in range and no known row up to it blocks. */
  ghost predicate Safe(s: Inbox, t: TurnId, space: string, channel: string, candidate: Option<nat>, m: nat) {
    && (exists id :: id in ChannelRows(s.messages, space, channel) && s.messages[id].seqNo == Some(m))
    && Baseline(s, space, channel) < m && (candidate.Some? ==> m <= candidate.value)
    && (forall id :: id in ChannelRows(s.messages, space, channel) ==>
          Baseline(s, space, channel) < s.messages[id].seqNo.value <= m ==> Admissible(s.messages[id], t, candidate))
  }

  /** `r` is the largest safe sequence, or nothing when no sequence is safe. */
  ghost predicate IsBoundary(s: Inbox, t: TurnId, space: string, channel: string, candidate: Option<nat>,
      r: Option<nat>) {
    && (r.Some? ==> Safe(s, t, space, channel, candidate, r.value))
    && (forall m: nat :: Safe(s, t, space, channel, candidate, m) ==> r.Some? && m <= r.value)
  }

  /** Server sequences are unique, as the index on `server_seq` enforces. */
  ghost predicate SeqsUnique(messages: map<Id, Row>) {
    forall a, b ::
      a in messages && b in messages && messages[a].seqNo.Some? && messages[a].seqNo == messages[b].seqNo ==> a == b
  }

  lemma StepKeepsSeqsUnique(s: Inbox, step: Step)
    requires SeqsUnique(s.messages)
    ensures SeqsUnique(Apply(s, step).messages)
  {
    SeqsFixed(s, step);
  }

  /** Only ingestion gives a row a sequence, and never one in use. */
  lemma SeqsFixed(s: Inbox, step: Step)
    ensures forall id :: id in Apply(s, step).messages ==> id in s.messages || NewlyIngested(s, step, id)
    ensures forall id :: id in s.messages ==> KeepsSeq(s, Apply(s, step), id)
  {
    forall id | id !in s.messages ensures id in Apply(s, step).messages ==> NewlyIngested(s, step, id) {
      NewRowIsIngested(s, step, id);
    }
    forall id | id in s.messages ensures KeepsSeq(s, Apply(s, step), id) {
      KnownRowKeepsSeq(s, step, id);
    }
  }

  ghost predicate KeepsSeq(s: Inbox, s': Inbox, id: Id)
    requires id in s.messages
  {
    id in s'.messages && s'.messages[id].seqNo == s.messages[id].seqNo && s'.messages[id].place == s.messages[id].place
  }

  ghost predicate NewlyIngested(s: Inbox, step: Step, id: Id) {
    && step.IngestStep? && step.id == id && id !in s.messages && !SeqTaken(s.messages, step.row.seqNo)
    && id in Apply(s, step).messages && Apply(s, step).messages[id] == step.row
  }

  lemma NewRowIsIngested(s: Inbox, step: Step, id: Id)
    requires id !in s.messages
    ensures id in Apply(s, step).messages ==> NewlyIngested(s, step, id)
  {
    if id in Apply(s, step).messages {
      RowLaws.NewRowIngested(s, step, id);
      assert Ingest(s, step.id, step.row, step.now).Ok?;
    }
  }

  lemma KnownRowKeepsSeq(s: Inbox, step: Step, id: Id)
    requires id in s.messages
    ensures KeepsSeq(s, Apply(s, step), id)
  {
    RowLaws.KnownRowMoves(s, step, id);
  }

  /** The only transactions that can pull the boundary of turn `t` below `m`. */
  predicate Retreats(step: Step, t: TurnId, space: string, channel: string, m: nat) {
    || (step.RequeueStep? && step.t == t)
    || (step.CompleteStep? && step.t == t && step.renotice != [])
    || (step.BaselineStep? && step.space == space && step.channel == channel)
    || (step.IngestStep? && InChannel(step.row, space, channel) && step.row.seqNo.value <= m)
  }

  /** Any other transaction leaves every admissible row admissible. */
  lemma AdmissibleStays(s: Inbox, step: Step, t: TurnId, space: string, channel: string, candidate: Option<nat>,
      m: nat, id: Id)
    requires id in ChannelRows(s.messages, space, channel) && Admissible(s.messages[id], t, candidate)
    requires !Retreats(step, t, space, channel, m)
    ensures id in ChannelRows(Apply(s, step).messages, space, channel)
    ensures Admissible(Apply(s, step).messages[id], t, candidate)
  {
    KnownRowKeepsSeq(s, step, id);
    if step.CompleteStep? {
      CompletionKeepsAdmissible(s, step, t, candidate, id);
    } else if step.RequeueStep? {
      RequeueKeepsAdmissible(s, step, t, candidate, id);
    } else {
      OthersKeepAdmissible(s, step, t, candidate, id);
    }
  }

  lemma CompletionKeepsAdmissible(s: Inbox, step: Step, t: TurnId, candidate: Option<nat>, id: Id)
    requires id in s.messages && s.messages[id].seqNo.Some? && Admissible(s.messages[id], t, candidate)
    requires step.CompleteStep? && (step.t == t ==> step.renotice == [])
    ensures KeepsSeq(s, Apply(s, step), id) && Admissible(Apply(s, step).messages[id], t, candidate)
  {
    if Outcome(s, step).Ok? {
      assert forall x :: x in step.processed + step.renotice ==> OwnedBy(s, x, step.t);
      assert forall x :: x in step.processed || x in step.renotice ==> x in step.processed + step.renotice;
    }
  }

  lemma RequeueKeepsAdmissible(s: Inbox, step: Step, t: TurnId, candidate: Option<nat>, id: Id)
    requires id in s.messages && s.messages[id].seqNo.Some? && Admissible(s.messages[id], t, candidate)
    requires step.RequeueStep? && step.t != t
    ensures KeepsSeq(s, Apply(s, step), id) && Admissible(Apply(s, step).messages[id], t, candidate)
  {
    if Outcome(s, step).Ok? {
      assert forall x :: x in step.ids ==> OwnedBy(s, x, step.t);
    }
  }

  lemma OthersKeepAdmissible(s: Inbox, step: Step, t: TurnId, candidate: Option<nat>, id: Id)
    requires id in s.messages && s.messages[id].seqNo.Some? && Admissible(s.messages[id], t, candidate)
    requires !step.CompleteStep? && !step.RequeueStep?
    ensures KeepsSeq(s, Apply(s, step), id) && Admissible(Apply(s, step).messages[id], t, candidate)
  {
    KnownRowKeepsSeq(s, step, id);
    match step
    case AdmitStep(ids, u, session, now) =>
      assert !AdmitConflicts(s, ids, u, session) ==>
          Admissible(AdmitTables(s, ids, u, session, now).messages[id], t, candidate);
    case CoverStep(covered, now) => assert Admissible(Cover(s, covered, now).messages[id], t, candidate);
    case _ =>
  }

  lemma SafeStays(s: Inbox, step: Step, t: TurnId, space: string, channel: string, candidate: Option<nat>, m: nat)
    requires Safe(s, t, space, channel, candidate, m) && !Retreats(step, t, space, channel, m)
    ensures Safe(Apply(s, step), t, space, channel, candidate, m)
  {
    var s' := Apply(s, step);
    SeqsFixed(s, step);
    var known :| known in ChannelRows(s.messages, space, channel) && s.messages[known].seqNo == Some(m);
    assert known in ChannelRows(s'.messages, space, channel) && s'.messages[known].seqNo == Some(m);
    BaselineStays(s, step, t, space, channel, m);
    forall id | id in ChannelRows(s'.messages, space, channel)
        && Baseline(s', space, channel) < s'.messages[id].seqNo.value <= m
      ensures Admissible(s'.messages[id], t, candidate)
    {
      assert id in ChannelRows(s.messages, space, channel);
      AdmissibleStays(s, step, t, space, channel, candidate, m, id);
    }
  }

  lemma BaselineStays(s: Inbox, step: Step, t: TurnId, space: string, channel: string, m: nat)
    requires !Retreats(step, t, space, channel, m)
    ensures Baseline(Apply(s, step), space, channel) == Baseline(s, space, channel)
  {
  }

  /** Along any run without a retreating step the boundary never falls. */
  lemma {:induction false} BoundaryIsMonotone(s: Inbox, steps: seq<Step>, t: TurnId, space: string, channel: string,
                                              candidate: Option<nat>, a: nat, r: Option<nat>)
    requires IsBoundary(s, t, space, channel, candidate, Some(a))
    requires forall i :: 0 <= i < |steps| ==> !Retreats(steps[i], t, space, channel, a)
    requires IsBoundary(Run(s, steps), t, space, channel, candidate, r)
    ensures r.Some? && r.value >= a
  {
    SafeAlongRun(s, steps, t, space, channel, candidate, a);
  }

  lemma {:induction false} SafeAlongRun(s: Inbox, steps: seq<Step>, t: TurnId, space: string, channel: string,
                                        candidate: Option<nat>, a: nat)
    requires Safe(s, t, space, channel, candidate, a)
    requires forall i :: 0 <= i < |steps| ==> !Retreats(steps[i], t, space, channel, a)
    ensures Safe(Run(s, steps), t, space, channel, candidate, a)
  {
    if steps != [] {
      SafeAlongRun(s, steps[..|steps| - 1], t, space, channel, candidate, a);
      SafeStays(Run(s, steps[..|steps| - 1]), steps[|steps| - 1], t, space, channel, candidate, a);
    }
  }

  /** Safe, but for what this one row may have against it. */
  ghost predicate SafeBut(
    s: Inbox, t: TurnId, space: string, channel: string, candidate: Option<nat>, m: nat, row: Id)
  {
    && (exists id :: id in ChannelRows(s.messages, space, channel) && s.messages[id].seqNo == Some(m))
    && Baseline(s, space, channel) < m && (candidate.Some? ==> m <= candidate.value)
    && (forall id :: id in ChannelRows(s.messages, space, channel) && id != row ==>
          Baseline(s, space, channel) < s.messages[id].seqNo.value <= m ==> Admissible(s.messages[id], t, candidate))
  }

  lemma RenoticedRowIsPending(s: Inbox, step: Step, id: Id, u: TurnId, candidate: Option<nat>)
    requires TurnLaws.Sound(s)
    requires step.CompleteStep? && Outcome(s, step).Ok? && id in step.renotice && id in s.messages
    requires s.messages[id].seqNo.Some?
    ensures KeepsSeq(s, Apply(s, step), id)
    ensures var r := Apply(s, step).messages[id];
            && r.visibleAt.Some? && r.visibleAt == s.messages[id].visibleAt
            && (Admissible(r, u, candidate) <==> candidate == r.seqNo)
  {
    assert TurnLaws.RowHistory(s, id);
    assert id in step.processed + step.renotice && OwnedBy(s, id, step.t);
    RenoticedRow(s, step.processed, step.renotice, step.t, step.now, id);
    RowLaws.CacheKeepsRows(CompleteTables(s, step.processed, step.renotice, step.t, step.now), step.now);
  }

  lemma RenoticedRow(s: Inbox, processed: seq<Id>, renotice: seq<Id>, t: TurnId, now: int, id: Id)
    requires t in s.turns && id in renotice && id in s.messages
    ensures id in CompleteTables(s, processed, renotice, t, now).messages
    ensures CompleteTables(s, processed, renotice, t, now).messages[id] ==
              s.messages[id].(phase := Pending, turn := None, processedAt := None, renotified := true)
  {
  }

  /**
   A renoticed row keeps its visibility stamp, and blocks all the same: whatever turn asks, it takes away exactly
   the sequences from its own upwards, unless it lies at or below the baseline or is the explicit candidate. In
   those two cases it takes nothing away. (The store's own comment promises that it never blocks again.)
   */
  lemma RenoticedRowBlocks(
    s: Inbox, step: Step, id: Id, u: TurnId, candidate: Option<nat>, space: string, channel: string, m: nat)
    requires TurnLaws.Sound(s)
    requires step.CompleteStep? && Outcome(s, step).Ok? && id in step.renotice
    requires id in ChannelRows(s.messages, space, channel)
    ensures var s', seqNo := Apply(s, step), s.messages[id].seqNo.value;
            && id in ChannelRows(s'.messages, space, channel)
            && s'.messages[id].visibleAt.Some? && s'.messages[id].seqNo == Some(seqNo)
            && (Safe(s', u, space, channel, candidate, m) <==>
                  && SafeBut(s', u, space, channel, candidate, m, id)
                  && !(Baseline(s', space, channel) < seqNo <= m && candidate != Some(seqNo)))
  {
    RenoticedRowIsPending(s, step, id, u, candidate);
    RenoticedRowJudged(Apply(s, step), id, u, candidate, space, channel, m);
  }

  lemma RenoticedRowJudged(
    s: Inbox, id: Id, u: TurnId, candidate: Option<nat>, space: string, channel: string, m: nat)
    requires id in ChannelRows(s.messages, space, channel)
    requires Admissible(s.messages[id], u, candidate) <==> candidate == s.messages[id].seqNo
    ensures var seqNo := s.messages[id].seqNo.value;
            Safe(s, u, space, channel, candidate, m) <==>
              && SafeBut(s, u, space, channel, candidate, m, id)
              && !(Baseline(s, space, channel) < seqNo <= m && candidate != Some(seqNo))
  {
  }

  const SAMPLE := Row(Channel("s", "c", ""), Some(7), None, None, Eligible, Pending, None, None, None, false)

  /** The sample row is ingested and read by turn `t`. */
  lemma SampleRead()
    ensures var read := Run(EMPTY, [IngestStep("m", SAMPLE, 0), AdmitStep(["m"], "t", None, 1)]);
            && read.messages == map["m" := SAMPLE.(phase := InTurn, turn := Some("t"), visibleAt := Some(1))]
            && read.turns == map["t" := Turn(None, Active)]
            && read.members == map["t" := [Member("m", 0)]]
            && read.baselines == map[]
  {
    var steps := [IngestStep("m", SAMPLE, 0), AdmitStep(["m"], "t", None, 1)];
    assert steps[..1] == [steps[0]] && steps[..1][..0] == [];
    var stored := Apply(EMPTY, steps[0]);
    assert Run(EMPTY, steps[..1]) == Apply(Run(EMPTY, steps[..1][..0]), steps[0]) == stored;
    assert Elements(["m"]) == {"m"};
    assert !AdmitConflicts(stored, ["m"], "t", None);
    assert AddedMembers(stored, ["m"], "t") == [Member("m", 0)];
    var read := Apply(stored, steps[1]);
    assert Run(EMPTY, steps) == read;
    assert read.messages == map["m" := SAMPLE.(phase := InTurn, turn := Some("t"), visibleAt := Some(1))];
    assert Entries(stored, "t") + [Member("m", 0)] == [Member("m", 0)];
  }

  lemma SampleBoundary(read: Inbox)
    requires read.messages == map["m" := SAMPLE.(phase := InTurn, turn := Some("t"), visibleAt := Some(1))]
    requires read.baselines == map[]
    ensures IsBoundary(read, "t", "s", "c", None, Some(7))
  {
    assert "m" in ChannelRows(read.messages, "s", "c");
  }

  /** A turn's only member can be handed back. */
  lemma OnlyMemberCompletes(s: Inbox, id: Id, t: TurnId)
    requires Entries(s, t) == [Member(id, 0)] && IsActive(s, t) && OwnedBy(s, id, t)
    ensures !CompleteConflicts(s, [], [id], t, None)
  {
    var all: seq<Id> := [] + [id];
    assert all == [id];
    assert MemberIds([Member(id, 0)]) == [id];
    var one: set<Id> := {id};
    assert Elements([id]) == one;
  }

  lemma SampleCompletes(read: Inbox)
    requires read.messages == map["m" := SAMPLE.(phase := InTurn, turn := Some("t"), visibleAt := Some(1))]
    requires read.turns == map["t" := Turn(None, Active)] && read.members == map["t" := [Member("m", 0)]]
    ensures !CompleteConflicts(read, [], ["m"], "t", None)
  {
    OnlyMemberCompletes(read, "m", "t");
  }

  /** One row, read and renoticed: the boundary stood at its sequence and is gone for every turn afterwards. */
  lemma RenoticeLowersBoundary(u: TurnId)
    ensures
      var read := Run(EMPTY, [IngestStep("m", SAMPLE, 0), AdmitStep(["m"], "t", None, 1)]);
      var done := Complete(read, [], ["m"], "t", None, 2);
      && IsBoundary(read, "t", "s", "c", None, Some(7))
      && done.Ok? && IsBoundary(done.value, u, "s", "c", None, None)
  {
    SampleRead();
    var read := Run(EMPTY, [IngestStep("m", SAMPLE, 0), AdmitStep(["m"], "t", None, 1)]);
    SampleBoundary(read);
    SampleCompletes(read);
    SampleBlocks(CompleteTables(read, [], ["m"], "t", 2), u);
  }

  lemma SampleBlocks(s: Inbox, u: TurnId)
    requires s.messages.Keys == {"m"} && s.baselines == map[]
    requires s.messages["m"] == SAMPLE.(visibleAt := Some(1), renotified := true)
    ensures IsBoundary(Refresh(s, 2), u, "s", "c", None, None)
  {
    assert "m" in ChannelRows(s.messages, "s", "c");
  }
}
