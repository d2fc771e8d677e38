/**
 Keyless DM approvals: one durable record per held envelope, mirrored in memory, replayed after
 reconnects. Every save may fail and the process may crash between any two steps.
 */
module DmApproval {
  import opened Prelude

  type Id = string

  datatype Decision = Undecided | Approved | Denied

  datatype Phase = Waiting | Applied

  datatype Record = Record(
    sender: string,
    operator: string,
    seqNo: Option<nat>,
    promptRef: string,
    promptEnvelope: Option<string>,
    promptThread: Option<string>,
    decision: Decision,
    phase: Phase)

  /** The held envelope's receipt in the message store. */
  datatype Hold = Held | Released | Admitted | Tombstoned

  datatype Receipt = Receipt(seqNo: Option<nat>, hold: Hold)

  /**
   `before` is the copy taken when the pending dictionary is changed in place; it is dropped once the change is saved
   or undone. `inFlight` is the envelope whose local transition just succeeded in the running process.
   */
  datatype World = World(
    disk: map<Id, Record>,
    memory: map<Id, Record>,
    before: Option<map<Id, Record>>,
    receipts: map<Id, Receipt>,
    acked: set<Id>,
    inFlight: Option<Id>)

  const START := World(map[], map[], None, map[], {}, None)

  // ------------------------------------------------------------ store transitions

  predicate Appliable(receipts: map<Id, Receipt>, id: Id, r: Record) {
    && id in receipts && receipts[id].seqNo == r.seqNo
    && (r.decision == Approved ==> receipts[id].hold in {Held, Released})
    && (r.decision == Denied ==> receipts[id].hold in {Held, Tombstoned})
  }

  /** `promote_gated_receipt` or `tombstone_gated_dm`: committed or idempotent, else a conflict that changes nothing. */
  function Transition(receipts: map<Id, Receipt>, id: Id, r: Record): map<Id, Receipt> {
    if !Appliable(receipts, id, r) || r.decision == Undecided then receipts
    else receipts[id := receipts[id].(hold := if r.decision == Approved then Released else Tombstoned)]
  }

  /** The local effect of the record's decision is in the store. */
  predicate Committed(receipts: map<Id, Receipt>, id: Id, r: Record) {
    && id in receipts && receipts[id].seqNo == r.seqNo && r.decision != Undecided
    && (r.decision == Approved ==> receipts[id].hold in {Released, Admitted})
    && (r.decision == Denied ==> receipts[id].hold == Tombstoned)
  }

  // ---------------------------------------------------------------------- steps

  function Group(m: map<Id, Record>, operator: string, sender: string): set<Id> {
    set x | x in m && m[x].operator == operator && m[x].sender == sender
  }

  function Matched(m: map<Id, Record>, root: string): set<Id> {
    set x | x in m && (m[x].promptEnvelope == Some(root) || m[x].promptThread == Some(root))
  }

  /** A new record; with an operator it joins the prompt and decision of any member of its group. */
  function Enrolled(m: map<Id, Record>, sender: string, operator: string, seqNo: Option<nat>, ref: string,
      base: Option<Id>): Record {
    var bare := Record(sender, operator, seqNo, ref, None, None, Undecided, Waiting);
    if base.Some? && base.value in m then
      var b := m[base.value];
      bare.(promptRef := b.promptRef, promptEnvelope := b.promptEnvelope, promptThread := b.promptThread,
            decision := b.decision)
    else bare
  }

  /** `base` names the member joined: one of the group when there is a group, none otherwise. */
  predicate Joins(m: map<Id, Record>, operator: string, sender: string, base: Option<Id>) {
    if operator == "" || Group(m, operator, sender) == {} then base.None?
    else base.Some? && base.value in Group(m, operator, sender)
  }

  function Prompted(m: map<Id, Record>, operator: string, sender: string, envelope: string, thread: string)
    : map<Id, Record>
  {
    map x | x in m ::
      if x in Group(m, operator, sender) then m[x].(promptEnvelope := Some(envelope), promptThread := Some(thread))
      else m[x]
  }

  /** A reply contradicts a decision already taken under the same prompt. */
  predicate Contradicts(m: map<Id, Record>, root: string, decision: Decision) {
    exists x :: x in Matched(m, root) && m[x].decision != Undecided && m[x].decision != decision
  }

  function Decided(m: map<Id, Record>, root: string, decision: Decision): map<Id, Record> {
    map x | x in m :: if x in Matched(m, root) && m[x].decision == Undecided then m[x].(decision := decision) else m[x]
  }

  datatype Step =
    | Gate(id: Id, seqNo: Option<nat>)
    /** The Inbox admits a released row, or hands it back. */
    | Move(id: Id)
    // Changes of the pending dictionary, in place and not yet durable.
    | Enroll(id: Id, sender: string, operator: string, seqNo: Option<nat>, ref: string, base: Option<Id>)
    | StorePrompt(operator: string, sender: string, envelope: string, thread: string)
    | Decide(root: string, decision: Decision)
    | MarkApplied(id: Id)
    | Forget(id: Id)
    /** The write of the changed dictionary landed. */
    | Save
    /** The write failed: the dictionary is refilled from the copy. */
    | Restore
    | ApplyLocal(id: Id)
    | Ack(id: Id)
    /** Memory is lost and reloaded from disk. */
    | Crash

  /** Change the dictionary in place, keeping the copy the change may be undone with. */
  function Change(w: World, next: map<Id, Record>): World {
    w.(memory := next, before := Some(w.memory))
  }

  /** The lock is free: no change waits for its save. Receipts and crashes do not ask for it. */
  predicate Enabled(w: World, step: Step) {
    match step
    case Gate(id, _) => id !in w.receipts
    case Move(id) => id in w.receipts && w.receipts[id].hold in {Released, Admitted}
    case Enroll(id, sender, operator, _, ref, base) =>
      w.before.None? && id !in w.memory && Joins(w.memory, operator, sender, base)
    case StorePrompt(operator, _, _, _) => w.before.None? && operator != ""
    case Decide(root, decision) =>
      && w.before.None? && decision != Undecided && Matched(w.memory, root) != {}
      && !Contradicts(w.memory, root, decision)
    case MarkApplied(id) => w.before.None? && w.inFlight == Some(id) && id in w.memory
    case Forget(id) => w.before.None? && id in w.memory && w.memory[id].phase == Applied && id in w.acked
    case Save => w.before.Some?
    case Restore => w.before.Some?
    case ApplyLocal(id) =>
      w.before.None? && id in w.memory && w.memory[id].decision != Undecided && w.memory[id].phase == Waiting
    case Ack(id) => w.before.None? && id in w.memory && w.memory[id].phase == Applied
    case Crash => true
  }

  function Do(w: World, step: Step): World
    requires Enabled(w, step)
  {
    match step
    case Gate(id, seqNo) => w.(receipts := w.receipts[id := Receipt(seqNo, Held)])
    case Move(id) =>
      var hold := if w.receipts[id].hold == Released then Admitted else Released;
      w.(receipts := w.receipts[id := w.receipts[id].(hold := hold)])
    case Enroll(id, sender, operator, seqNo, ref, base) =>
      Change(w, w.memory[id := Enrolled(w.memory, sender, operator, seqNo, ref, base)])
    case StorePrompt(operator, sender, envelope, thread) =>
      Change(w, Prompted(w.memory, operator, sender, envelope, thread))
    case Decide(root, decision) => Change(w, Decided(w.memory, root, decision))
    case MarkApplied(id) => Change(w, w.memory[id := w.memory[id].(phase := Applied)]).(inFlight := None)
    case Forget(id) => Change(w, w.memory - {id})
    case Save => w.(disk := w.memory, before := None)
    case Restore => w.(memory := w.before.value, before := None)
    case ApplyLocal(id) =>
      if !Appliable(w.receipts, id, w.memory[id]) then w
      else w.(receipts := Transition(w.receipts, id, w.memory[id]), inFlight := Some(id))
    case Ack(id) => w.(acked := w.acked + {id})
    case Crash => w.(memory := w.disk, before := None, inFlight := None)
  }

  /** A run is possible when each step was enabled where it was taken. */
  ghost predicate Possible(w: World, steps: seq<Step>)
    decreases |steps|, 0
  {
    steps == [] ||
    (&& Possible(w, steps[..|steps| - 1])
     && Enabled(After(w, steps[..|steps| - 1]), steps[|steps| - 1]))
  }

  ghost function After(w: World, steps: seq<Step>): World
    requires Possible(w, steps)
    decreases |steps|, 1
  {
    if steps == [] then w else Do(After(w, steps[..|steps| - 1]), steps[|steps| - 1])
  }

  // ------------------------------------------------------------------ invariant

  /** All records of one operator and sender share prompt reference, prompt identity and decision. */
  ghost predicate GroupsAgree(m: map<Id, Record>) {
    forall a, b ::
        a in m && b in m && m[a].operator != "" && m[a].operator == m[b].operator && m[a].sender == m[b].sender ==>
      SameGroupState(m[a], m[b])
  }

  ghost predicate SameGroupState(a: Record, b: Record) {
    a.promptRef == b.promptRef && a.promptEnvelope == b.promptEnvelope && a.promptThread == b.promptThread
        && a.decision == b.decision
  }

  /** A dictionary fit for the disk: groups agree, and what it calls applied is committed in the store. */
  ghost predicate Fit(m: map<Id, Record>, receipts: map<Id, Receipt>) {
    && GroupsAgree(m)
    && forall id :: id in m && m[id].phase == Applied ==> Committed(receipts, id, m[id])
  }

  /** A saved record is only ever completed: its decision and sequence stay, and it is dropped only once finished. */
  ghost predicate Completes(r: Record, m: map<Id, Record>, id: Id, acked: set<Id>) {
    if id in m then
      && m[id].seqNo == r.seqNo && (r.decision != Undecided ==> m[id].decision == r.decision)
      && (r.phase == Applied ==> m[id].phase == Applied)
    else r.phase == Applied && id in acked
  }

  /** Outside a change memory mirrors disk; inside one the copy does, and memory is fit to be saved. */
  ghost predicate Inv(w: World) {
    && (w.before.None? ==> w.memory == w.disk)
    && (w.before.Some? ==> w.before.value == w.disk)
    && Fit(w.disk, w.receipts) && Fit(w.memory, w.receipts)
    && (forall id :: id in w.disk ==> Completes(w.disk[id], w.memory, id, w.acked))
    && (w.inFlight.Some? ==>
          && Landed(w.disk, w.receipts, w.inFlight.value) && Landed(w.memory, w.receipts, w.inFlight.value))
  }

  /** The record's transition is in the store, its phase not yet on record. */
  ghost predicate Landed(m: map<Id, Record>, receipts: map<Id, Receipt>, id: Id) {
    id in m && m[id].phase == Waiting && Committed(receipts, id, m[id])
  }

  lemma DoKeepsInv(w: World, step: Step)
    requires Inv(w) && Enabled(w, step)
    ensures Inv(Do(w, step))
  {
    match step
    case Gate(id, _) => ReceiptKeepsInv(w, step);
    case Move(id) => ReceiptKeepsInv(w, step);
    case ApplyLocal(id) => ApplyKeepsInv(w, id);
    case Save =>
    case Restore =>
    case Crash =>
    case Ack(id) =>
    case _ => ChangeKeepsInv(w, step);
  }

  lemma ReceiptKeepsInv(w: World, step: Step)
    requires Inv(w) && Enabled(w, step) && (step.Gate? || step.Move?)
    ensures Inv(Do(w, step))
  {
    var w' := Do(w, step);
    assert forall id, r: Record :: Committed(w.receipts, id, r) ==> Committed(w'.receipts, id, r);
  }

  lemma ApplyKeepsInv(w: World, id: Id)
    requires Inv(w) && Enabled(w, ApplyLocal(id))
    ensures Inv(Do(w, ApplyLocal(id)))
  {
    var w' := Do(w, ApplyLocal(id));
    forall x | x in w.disk && w.disk[x].phase == Applied ensures Committed(w'.receipts, x, w.disk[x]) {
      assert Committed(w.receipts, x, w.disk[x]);
    }
  }

  lemma ChangeKeepsInv(w: World, step: Step)
    requires Inv(w) && Enabled(w, step)
    requires step.Enroll? || step.StorePrompt? || step.Decide? || step.MarkApplied? || step.Forget?
    ensures Inv(Do(w, step))
  {
    match step
    case Enroll(_, _, _, _, _, _) => EnrollAgrees(w.memory, step);
    case StorePrompt(_, _, _, _) => PromptKeepsInv(w, step);
    case Decide(_, _) => DecideKeepsInv(w, step);
    case _ =>
  }

  lemma PromptKeepsInv(w: World, step: Step)
    requires Inv(w) && Enabled(w, step) && step.StorePrompt?
    ensures Inv(Do(w, step))
  {
  }

  lemma DecideKeepsInv(w: World, step: Step)
    requires Inv(w) && Enabled(w, step) && step.Decide?
    ensures Inv(Do(w, step))
  {
    DecideAgrees(w.memory, step.root, step.decision);
  }

  lemma EnrollAgrees(m: map<Id, Record>, step: Step)
    requires GroupsAgree(m) && step.Enroll? && step.id !in m && Joins(m, step.operator, step.sender, step.base)
    ensures GroupsAgree(m[step.id := Enrolled(m, step.sender, step.operator, step.seqNo, step.ref, step.base)])
  {
    var r := Enrolled(m, step.sender, step.operator, step.seqNo, step.ref, step.base);
    var m' := m[step.id := r];
    forall a | a in m && r.operator != "" && m[a].operator == r.operator && m[a].sender == r.sender
      ensures SameGroupState(m[a], r)
    {
      assert a in Group(m, step.operator, step.sender);
      assert SameGroupState(m[a], m[step.base.value]);
    }
  }

  lemma DecideAgrees(m: map<Id, Record>, root: string, decision: Decision)
    requires GroupsAgree(m)
    ensures GroupsAgree(Decided(m, root, decision))
  {
    var m' := Decided(m, root, decision);
    forall a, b | a in m' && b in m' && m'[a].operator != "" && m'[a].operator == m'[b].operator
        && m'[a].sender == m'[b].sender
      ensures SameGroupState(m'[a], m'[b])
    {
      assert SameGroupState(m[a], m[b]);
      assert a in Matched(m, root) <==> b in Matched(m, root);
    }
  }

  /**
   For every interleaving of steps, failed saves and crashes at any point: outside a change memory is what is on disk,
   a change in progress can be undone to it, and groups agree.
   */
  lemma {:induction false} MirrorAndGroupsHold(steps: seq<Step>)
    requires Possible(START, steps)
    ensures Inv(After(START, steps))
  {
    if steps != [] {
      MirrorAndGroupsHold(steps[..|steps| - 1]);
      DoKeepsInv(After(START, steps[..|steps| - 1]), steps[|steps| - 1]);
    }
  }

  /** An envelope is acknowledged only when its disk record is decided and applied and its local effect committed. */
  lemma AckOnlyWhenCommitted(steps: seq<Step>, id: Id)
    requires Possible(START, steps) && Enabled(After(START, steps), Ack(id))
    ensures var w := After(START, steps);
            && id in w.disk && w.disk[id].decision != Undecided && w.disk[id].phase == Applied
            && Committed(w.receipts, id, w.disk[id])
  {
    MirrorAndGroupsHold(steps);
  }

  /** A decision, once on disk, never flips while its record lives, and the record goes only when finished. */
  lemma DecisionNeverFlips(w: World, step: Step, id: Id)
    requires Inv(w) && Enabled(w, step) && id in w.disk && w.disk[id].decision != Undecided
    ensures id in Do(w, step).disk ==> Do(w, step).disk[id].decision == w.disk[id].decision
    ensures id !in Do(w, step).disk ==> step.Save? && w.disk[id].phase == Applied && id in w.acked
    ensures id in Do(w, step).disk && w.disk[id].phase == Applied ==> Do(w, step).disk[id].phase == Applied
  {
    assert Completes(w.disk[id], w.memory, id, w.acked);
  }

  /** Over every run: until its record is forgotten, a decision stands and applied stays applied. */
  lemma {:induction false} DecisionStands(w: World, steps: seq<Step>, id: Id)
    requires Inv(w) && Possible(w, steps) && id in w.disk && id in w.memory && w.disk[id].decision != Undecided
    requires forall i :: 0 <= i < |steps| ==> steps[i] != Forget(id)
    ensures var w' := After(w, steps);
            && Inv(w') && id in w'.disk && id in w'.memory && w'.disk[id].decision == w.disk[id].decision
            && (w.disk[id].phase == Applied ==> w'.disk[id].phase == Applied)
    decreases |steps|
  {
    if steps != [] {
      var front := steps[..|steps| - 1];
      DecisionStands(w, front, id);
      DoKeepsInv(After(w, front), steps[|steps| - 1]);
      DecisionNeverFlips(After(w, front), steps[|steps| - 1], id);
    }
  }

  /** Released and refused are for ever: no envelope is both delivered and tombstoned. */
  lemma {:induction false} NeverBothPromotedAndTombstoned(w: World, steps: seq<Step>, id: Id)
    requires Possible(w, steps) && id in w.receipts
    ensures id in After(w, steps).receipts
    ensures w.receipts[id].hold == Tombstoned ==> After(w, steps).receipts[id].hold == Tombstoned
    ensures w.receipts[id].hold in {Released, Admitted} ==> After(w, steps).receipts[id].hold in {Released, Admitted}
    decreases |steps|
  {
    if steps != [] {
      var front := steps[..|steps| - 1];
      NeverBothPromotedAndTombstoned(w, front, id);
      SideStays(After(w, front), steps[|steps| - 1], id);
    }
  }

  lemma SideStays(w: World, step: Step, id: Id)
    requires Enabled(w, step) && id in w.receipts
    ensures id in Do(w, step).receipts
    ensures w.receipts[id].hold == Tombstoned ==> Do(w, step).receipts[id].hold == Tombstoned
    ensures w.receipts[id].hold in {Released, Admitted} ==> Do(w, step).receipts[id].hold in {Released, Admitted}
  {
  }

  /** When a finished transition may be re-applied: not once the Inbox took the released row. */
  lemma ReapplyFailsOnceAdmitted(w: World, id: Id)
    requires Inv(w) && id in w.disk && Committed(w.receipts, id, w.disk[id])
    ensures Appliable(w.receipts, id, w.disk[id]) <==> w.receipts[id].hold != Admitted
  {
  }

  // ---------------------------------------------------------------- convergence

  /** Undecided, or unapplied with a receipt that refuses the transition: a quiet resume cannot finish the record. */
  predicate Stuck(m: map<Id, Record>, receipts: map<Id, Receipt>, id: Id)
    requires id in m
  {
    m[id].decision == Undecided || (m[id].phase == Waiting && !Appliable(receipts, id, m[id]))
  }

  lemma Extend(w: World, steps: seq<Step>, step: Step)
    requires Possible(w, steps) && Enabled(After(w, steps), step)
    ensures Possible(w, steps + [step]) && After(w, steps + [step]) == Do(After(w, steps), step)
  {
    assert (steps + [step])[..|steps|] == steps;
  }

  /** What a resume with every save and acknowledgement succeeding does to one decided record. */
  function Finish(r: Record, id: Id): seq<Step> {
    (if r.phase == Waiting then [ApplyLocal(id), MarkApplied(id), Save] else []) + [Ack(id), Forget(id), Save]
  }

  /** Only this envelope's receipt may differ. */
  ghost predicate OthersKept(w: World, w': World, id: Id) {
    forall x :: x in w.receipts && x != id ==> x in w'.receipts && w'.receipts[x] == w.receipts[x]
  }

  lemma {:induction false} Concat(w: World, a: seq<Step>, b: seq<Step>)
    requires Possible(w, a) && Possible(After(w, a), b)
    ensures Possible(w, a + b) && After(w, a + b) == After(After(w, a), b)
    decreases |b|
  {
    if b == [] {
      assert a + b == a;
    } else {
      Concat(w, a, b[..|b| - 1]);
      assert (a + b)[..|a + b| - 1] == a + b[..|b| - 1];
    }
  }

  lemma RunThree(w: World, a: Step, b: Step, c: Step)
    requires Enabled(w, a) && Enabled(Do(w, a), b) && Enabled(Do(Do(w, a), b), c)
    ensures Possible(w, [a, b, c]) && After(w, [a, b, c]) == Do(Do(Do(w, a), b), c)
  {
    Extend(w, [], a);
    Extend(w, [] + [a], b);
    Extend(w, [] + [a] + [b], c);
    assert [] + [a] + [b] + [c] == [a, b, c];
  }

  lemma ApplyAndSave(w: World, id: Id)
    requires Inv(w) && w.before.None? && id in w.memory
    requires w.memory[id].phase == Waiting && !Stuck(w.memory, w.receipts, id)
    ensures Possible(w, [ApplyLocal(id), MarkApplied(id), Save])
    ensures var w' := After(w, [ApplyLocal(id), MarkApplied(id), Save]);
            && w'.disk == w'.memory == w.memory[id := w.memory[id].(phase := Applied)]
            && w'.before.None? && OthersKept(w, w', id)
  {
    RunThree(w, ApplyLocal(id), MarkApplied(id), Save);
  }

  lemma AckAndDrop(w: World, id: Id)
    requires w.memory == w.disk && w.before.None? && id in w.memory && w.memory[id].phase == Applied
    ensures Possible(w, [Ack(id), Forget(id), Save])
    ensures var w' := After(w, [Ack(id), Forget(id), Save]);
            w'.disk == w.disk - {id} && w'.memory == w'.disk && id in w'.acked && w'.receipts == w.receipts
  {
    RunThree(w, Ack(id), Forget(id), Save);
  }

  /** A decided record that is not stuck is acknowledged and gone after its steps, and no other receipt moved. */
  lemma ResumeFinishesUnlessStuck(w: World, id: Id)
    requires Inv(w) && w.before.None? && id in w.memory && !Stuck(w.memory, w.receipts, id)
    ensures Possible(w, Finish(w.memory[id], id))
    ensures var w' := After(w, Finish(w.memory[id], id));
            w'.disk == w.disk - {id} && w'.memory == w'.disk && id in w'.acked && OthersKept(w, w', id)
  {
    var second := [Ack(id), Forget(id), Save];
    if w.memory[id].phase == Waiting {
      var first := [ApplyLocal(id), MarkApplied(id), Save];
      ApplyAndSave(w, id);
      AckAndDrop(After(w, first), id);
      Concat(w, first, second);
    } else {
      AckAndDrop(w, id);
      assert Finish(w.memory[id], id) == second;
    }
  }

  /** In this dictionary the record waits with the given decision and sequence. */
  ghost predicate WaitsIn(m: map<Id, Record>, id: Id, r: Record) {
    id in m && m[id].phase == Waiting && m[id].decision == r.decision && m[id].seqNo == r.seqNo
  }

  /** Saved or not, the record waits, and its receipt refuses the transition. */
  ghost predicate Mired(w: World, id: Id, r: Record, receipt: Receipt) {
    && WaitsIn(w.disk, id, r) && WaitsIn(w.memory, id, r) && r.decision != Undecided
    && id in w.receipts && w.receipts[id] == receipt && w.inFlight != Some(id)
    && !Appliable(w.receipts, id, w.disk[id])
  }

  lemma MiredStays(w: World, step: Step, id: Id, r: Record, receipt: Receipt)
    requires Inv(w) && Enabled(w, step) && Mired(w, id, r, receipt) && step != Move(id)
    ensures Mired(Do(w, step), id, r, receipt)
  {
  }

  /** A stuck decided record stays on disk, unapplied and unacknowledgeable, until its receipt itself moves. */
  lemma {:induction false} StuckUntilReceiptMoves(w: World, steps: seq<Step>, id: Id)
    requires Inv(w) && w.before.None? && Possible(w, steps) && id in w.disk && id in w.receipts
    requires w.disk[id].decision != Undecided && Stuck(w.disk, w.receipts, id)
    requires w.inFlight != Some(id) && Move(id) !in steps
    ensures var w' := After(w, steps);
            && Inv(w') && Mired(w', id, w.disk[id], w.receipts[id])
            && Stuck(w'.disk, w'.receipts, id) && !Enabled(w', Ack(id))
    decreases |steps|
  {
    if steps != [] {
      var front := steps[..|steps| - 1];
      StuckUntilReceiptMoves(w, front, id);
      DoKeepsInv(After(w, front), steps[|steps| - 1]);
      assert steps[|steps| - 1] in steps;
      MiredStays(After(w, front), steps[|steps| - 1], id, w.disk[id], w.receipts[id]);
    }
  }

  /** A change at the end of a run, then its save. */
  lemma ChangeSaved(steps: seq<Step>, w: World, step: Step, w': World)
    requires Possible(START, steps) && After(START, steps) == w
    requires Enabled(w, step) && Enabled(Do(w, step), Save) && Do(Do(w, step), Save) == w'
    ensures Possible(START, steps + [step] + [Save]) && After(START, steps + [step] + [Save]) == w'
  {
    Extend(START, steps, step);
    Extend(START, steps + [step], Save);
  }

  const SAMPLE := Record("guest", "op", Some(1), "ref", None, None, Undecided, Waiting)

  /** One gated envelope, and what is on record about it. */
  function Sampled(records: map<Id, Record>): World {
    World(records, records, None, map["m" := Receipt(Some(1), Held)], {}, None)
  }

  lemma SampleEnrolled()
    ensures var w, step := Sampled(map[]), Enroll("m", "guest", "op", Some(1), "ref", None);
            Enabled(w, step) && Do(Do(w, step), Save) == Sampled(map["m" := SAMPLE])
  {
    var none: map<Id, Record> := map[];
    assert Group(none, "op", "guest") == {};
    assert none["m" := SAMPLE] == map["m" := SAMPLE];
  }

  lemma SamplePrompted()
    ensures var w, step := Sampled(map["m" := SAMPLE]), StorePrompt("op", "guest", "p", "p");
            && Enabled(w, step)
            && Do(Do(w, step), Save) ==
                Sampled(map["m" := SAMPLE.(promptEnvelope := Some("p"), promptThread := Some("p"))])
  {
    var m := map["m" := SAMPLE];
    assert "m" in Group(m, "op", "guest");
    assert Prompted(m, "op", "guest", "p", "p") ==
        map["m" := SAMPLE.(promptEnvelope := Some("p"), promptThread := Some("p"))];
  }

  lemma SampleApproved(r: Record)
    requires r == SAMPLE.(promptEnvelope := Some("p"), promptThread := Some("p"))
    ensures var w, step := Sampled(map["m" := r]), Decide("p", Approved);
            Enabled(w, step) && Do(Do(w, step), Save) == Sampled(map["m" := r.(decision := Approved)])
  {
    var m := map["m" := r];
    assert "m" in Matched(m, "p");
    assert Decided(m, "p", Approved) == map["m" := r.(decision := Approved)];
  }

  /** One envelope, gated, enrolled, prompted and approved. */
  lemma ApprovedRun() returns (steps: seq<Step>, r: Record)
    ensures Possible(START, steps) && After(START, steps) == Sampled(map["m" := r])
    ensures r.decision == Approved && r.phase == Waiting && r.seqNo == Some(1)
  {
    var s0: seq<Step> := [];
    Extend(START, s0, Gate("m", Some(1)));
    assert START.receipts["m" := Receipt(Some(1), Held)] == map["m" := Receipt(Some(1), Held)];
    var prompted := SAMPLE.(promptEnvelope := Some("p"), promptThread := Some("p"));
    steps := s0 + [Gate("m", Some(1))];
    SampleEnrolled();
    ChangeSaved(steps, Sampled(map[]), Enroll("m", "guest", "op", Some(1), "ref", None), Sampled(map["m" := SAMPLE]));
    steps := steps + [Enroll("m", "guest", "op", Some(1), "ref", None)] + [Save];
    SamplePrompted();
    ChangeSaved(steps, Sampled(map["m" := SAMPLE]), StorePrompt("op", "guest", "p", "p"),
        Sampled(map["m" := prompted]));
    steps := steps + [StorePrompt("op", "guest", "p", "p")] + [Save];
    SampleApproved(prompted);
    r := prompted.(decision := Approved);
    ChangeSaved(steps, Sampled(map["m" := prompted]), Decide("p", Approved), Sampled(map["m" := r]));
    steps := steps + [Decide("p", Approved)] + [Save];
  }

  /**
   A crash between the promotion and the saved phase, followed by the Inbox admitting the promoted row, is
   reachable and leaves an approved record that no resume can finish.
   */
  lemma CrashThenAdmissionSticks()
    ensures exists steps :: Possible(START, steps) &&
              var w := After(START, steps);
              && "m" in w.disk && w.disk["m"].decision == Approved && w.before.None? && w.inFlight != Some("m")
              && "m" in w.receipts && w.receipts["m"].hold == Admitted && Stuck(w.disk, w.receipts, "m")
  {
    var s4, r := ApprovedRun();
    SampleAdmitted(r);
    Extend(START, s4, ApplyLocal("m"));
    Extend(START, s4 + [ApplyLocal("m")], Crash);
    Extend(START, s4 + [ApplyLocal("m")] + [Crash], Move("m"));
    var steps := s4 + [ApplyLocal("m")] + [Crash] + [Move("m")];
    assert Possible(START, steps);
  }

  lemma SampleAdmitted(r: Record)
    requires r.decision == Approved && r.phase == Waiting && r.seqNo == Some(1)
    ensures var w := Sampled(map["m" := r]);
            && Enabled(w, ApplyLocal("m")) && Enabled(Do(Do(w, ApplyLocal("m")), Crash), Move("m"))
            && var w' := Do(Do(Do(w, ApplyLocal("m")), Crash), Move("m"));
            && w'.disk == w.disk && w'.before.None? && w'.inFlight.None?
            && w'.receipts == map["m" := Receipt(Some(1), Admitted)]
  {
  }

  // ------------------------------------------------------------------- the flow

  /** The client: its file, its mirror and the store, advanced only by enabled steps. */
  class KeylessApprovals {
    var disk: map<Id, Record>
    var memory: map<Id, Record>
    var before: Option<map<Id, Record>>
    var receipts: map<Id, Receipt>
    var acked: set<Id>
    var inFlight: Option<Id>
    ghost var history: seq<Step>

    ghost function Now(): World
      reads this
    {
      World(disk, memory, before, receipts, acked, inFlight)
    }

    /** The client is where a possible run ended. */
    ghost predicate Reached()
      reads this
    {
      Possible(START, history) && After(START, history) == Now() && Inv(Now())
    }

    /** Between calls no change is pending. */
    ghost predicate Valid()
      reads this
    {
      Reached() && before.None?
    }

    constructor ()
      ensures Valid() && Now() == START && history == []
    {
      disk, memory, before, receipts, acked, inFlight, history := map[], map[], None, map[], {}, None, [];
    }

    /** Take one step; nothing else changes the client. */
    method Take(step: Step)
      requires Reached() && Enabled(Now(), step)
      modifies this
      ensures Reached() && Now() == Do(old(Now()), step) && history == old(history) + [step]
    {
      DoKeepsInv(Now(), step);
      var w' := Do(World(disk, memory, before, receipts, acked, inFlight), step);
      disk, memory, before := w'.disk, w'.memory, w'.before;
      receipts, acked, inFlight := w'.receipts, w'.acked, w'.inFlight;
      history := history + [step];
      assert history[..|history| - 1] == old(history);
    }

    /** Change the dictionary in place and write it out; when the write fails, refill it from the copy. */
    method PersistOrRestore(change: Step, quiet: bool) returns (saved: bool)
      requires Valid() && Enabled(Now(), change) && Do(Now(), change).before.Some?
      modifies this
      ensures Valid() && old(history) <= history && (quiet ==> saved)
      ensures disk == memory && memory == if saved then Do(old(Now()), change).memory else old(memory)
      ensures receipts == Do(old(Now()), change).receipts && acked == Do(old(Now()), change).acked
      ensures inFlight == Do(old(Now()), change).inFlight
    {
      Take(change);
      saved := *;
      if saved || quiet {
        saved := true;
        Take(Save);
      } else {
        Take(Restore);
      }
    }

    /** Only the record and receipt of `id` may differ from the earlier ones. */
    ghost predicate Only(id: Id, m: map<Id, Record>, rs: map<Id, Receipt>)
      reads this
    {
      && (forall x :: x in m && x != id ==> x in memory && memory[x] == m[x])
      && (forall x :: x in memory && x != id ==> x in m)
      && (forall x :: x in rs && x != id ==> x in receipts && receipts[x] == rs[x])
      && receipts.Keys == rs.Keys
    }

    /** Apply the decision to the store, then save the phase; true means `applied` is on disk. */
    method ApplyAndMark(id: Id, quiet: bool) returns (marked: bool)
      requires Valid() && id in memory && memory[id].decision != Undecided && memory[id].phase == Waiting
      modifies this
      ensures Valid() && old(history) <= history && Only(id, old(memory), old(receipts))
      ensures id in memory && memory[id] == if marked then old(memory)[id].(phase := Applied) else old(memory)[id]
      ensures quiet ==> (marked <==> Appliable(old(receipts), id, old(memory)[id]))
    {
      var contactFails: bool := *;
      if contactFails && !quiet {
        return false;
      }
      var applied := Appliable(receipts, id, memory[id]);
      Take(ApplyLocal(id));
      if !applied {
        return false;
      }
      marked := PersistOrRestore(MarkApplied(id), quiet);
    }

    /** Acknowledge an applied record and forget it. */
    method AckAndForget(id: Id, quiet: bool)
      requires Valid() && id in memory && memory[id].phase == Applied
      modifies this
      ensures Valid() && old(history) <= history && Only(id, old(memory), old(receipts))
      ensures id in memory ==> memory[id] == old(memory)[id]
      ensures quiet ==> id !in memory
    {
      var lost: bool := *;
      if lost && !quiet {
        return;
      }
      Take(Ack(id));
      var _ := PersistOrRestore(Forget(id), quiet);
    }

    /** Advance one decided record through local application and acknowledgement; any failure leaves it resumable. */
    method FinalizeRecord(id: Id, approved: bool, quiet: bool)
      requires Valid()
      requires id in memory ==> memory[id].decision == if approved then Approved else Denied
      modifies this
      ensures Valid() && old(history) <= history && Only(id, old(memory), old(receipts))
      ensures id in memory ==> id in old(memory) && memory[id].(phase := old(memory)[id].phase) == old(memory)[id]
      ensures quiet && id in old(memory) ==> (id in memory <==> Stuck(old(memory), old(receipts), id))
    {
      if id !in memory {
        return;
      }
      if memory[id].phase == Waiting {
        var marked := ApplyAndMark(id, quiet);
        if !marked {
          return;
        }
      }
      AckAndForget(id, quiet);
    }

    method RecordGatedDm(id: Id, sender: string, operator: string, seqNo: Option<nat>, ref: string)
      requires Valid()
      modifies this
      ensures Valid() && old(history) <= history
      ensures id in old(memory) ==> history == old(history)
      ensures id in memory && id !in old(memory) ==>
                memory[id].sender == sender && memory[id].operator == operator && memory[id].seqNo == seqNo
      ensures forall x :: x in old(memory) && (x !in Group(old(memory), operator, sender) || operator == "") ==>
          x in memory && memory[x] == old(memory)[x]
    {
      if id in memory {
        return;
      }
      if operator == "" || Group(memory, operator, sender) == {} {
        var saved := PersistOrRestore(Enroll(id, sender, operator, seqNo, ref, None), false);
        assert forall x :: x in old(memory) ==> x != id && x in memory && memory[x] == old(memory)[x];
        if saved && operator != "" {
          SendPrompt(operator, sender);
        }
        return;
      }
      JoinGroup(id, sender, operator, seqNo, ref);
    }

    /** A later envelope of a known group takes over its prompt and decision, with its own phase. */
    method JoinGroup(id: Id, sender: string, operator: string, seqNo: Option<nat>, ref: string)
      requires Valid() && id !in memory && operator != "" && Group(memory, operator, sender) != {}
      modifies this
      ensures Valid() && old(history) <= history && Only(id, old(memory), old(receipts))
      ensures id in memory ==>
          memory[id].sender == sender && memory[id].operator == operator && memory[id].seqNo == seqNo
    {
      var base :| base in Group(memory, operator, sender);
      var decision := memory[base].decision;
      var saved := PersistOrRestore(Enroll(id, sender, operator, seqNo, ref, Some(base)), false);
      if saved && decision != Undecided {
        FinalizeRecord(id, decision == Approved, false);
      }
    }

    /** Send the group's prompt; whatever the transport answers, only a stored identity changes state. */
    method SendPrompt(operator: string, sender: string)
      requires Valid() && operator != ""
      modifies this
      ensures Valid() && old(history) <= history
      ensures memory.Keys == old(memory).Keys && receipts == old(receipts)
      ensures forall x :: x in memory ==>
                old(memory)[x] == memory[x].(
                  promptEnvelope := old(memory)[x].promptEnvelope, promptThread := old(memory)[x].promptThread)
      ensures forall x :: x in memory && x !in Group(old(memory), operator, sender) ==> memory[x] == old(memory)[x]
    {
      var envelope: string, thread: string := *, *;
      if envelope == "" {
        return;
      }
      var identity := if thread == "" then envelope else thread;
      var _ := PersistOrRestore(StorePrompt(operator, sender, envelope, identity), false);
    }

    /** Consume an exact yes/no under a known prompt; true means the reply is represented by a durable decision. */
    method HandleOperatorReply(root: string, approved: bool) returns (consumed: bool)
      requires Valid()
      modifies this
      ensures Valid() && old(history) <= history
      ensures Matched(old(memory), root) == {} ==> !consumed && history == old(history)
      ensures consumed && !Contradicts(old(memory), root, if approved then Approved else Denied) ==>
                forall x :: x in Matched(old(memory), root) && x in memory ==>
                  memory[x].decision == if approved then Approved else Denied
    {
      var decision := if approved then Approved else Denied;
      var matched := Matched(memory, root);
      if matched == {} {
        return false;
      }
      if Contradicts(memory, root, decision) {
        return true;
      }
      if exists x :: x in matched && memory[x].decision == Undecided {
        var saved := PersistOrRestore(Decide(root, decision), false);
        if !saved {
          return false;
        }
      }
      FinalizeMatched(matched, approved);
      return true;
    }

    /** Finish each of these records, all decided alike. */
    method FinalizeMatched(matched: set<Id>, approved: bool)
      requires Valid() && forall x :: x in matched && x in memory ==> DecidedAs(memory[x], approved)
      modifies this
      ensures Valid() && old(history) <= history
      ensures forall x :: x in matched && x in memory ==> DecidedAs(memory[x], approved)
    {
      var todo := matched;
      while todo != {}
        invariant Valid() && old(history) <= history && todo <= matched
        invariant forall x :: x in matched && x in memory ==> DecidedAs(memory[x], approved)
        decreases |todo|
      {
        var id :| id in todo;
        FinalizeRecord(id, approved, false);
        todo := todo - {id};
      }
    }

    ghost predicate DecidedAs(r: Record, approved: bool) {
      r.decision == if approved then Approved else Denied
    }

    /**
     Replay after a reconnect. In a quiet resume (saves, contact writes and acknowledgements succeed, no one else
     moves the receipts) a decided record is left behind exactly when its receipt refuses the transition.
     */
    method ResumePendingApprovals(operator: string, quiet: bool)
      requires Valid()
      modifies this
      ensures Valid() && old(history) <= history
      ensures quiet ==> memory.Keys == set id | id in old(memory) && Stuck(old(memory), old(receipts), id)
    {
      FinalizeDecided(quiet);
      if operator != "" {
        ResendPrompts(operator);
      }
    }

    method FinalizeDecided(quiet: bool)
      requires Valid()
      modifies this
      ensures Valid() && old(history) <= history
      ensures quiet ==> memory.Keys == set id | id in old(memory) && Stuck(old(memory), old(receipts), id)
    {
      ghost var m, rs := memory, receipts;
      var todo := set id | id in memory && memory[id].decision != Undecided;
      while todo != {}
        invariant Valid() && old(history) <= history && Midway(m, rs, todo, quiet)
        decreases |todo|
      {
        var id :| id in todo;
        FinalizeNext(id, quiet, m, rs, todo);
        todo := todo - {id};
      }
    }

    /** Replay from `m` and `rs` has dealt with everything but `todo`. */
    ghost predicate Midway(m: map<Id, Record>, rs: map<Id, Receipt>, todo: set<Id>, quiet: bool)
      reads this
    {
      && memory.Keys <= m.Keys && receipts.Keys == rs.Keys
      && (forall id :: id in todo ==> id in memory && memory[id] == m[id] && m[id].decision != Undecided)
      && (forall id :: id in todo && id in receipts ==> receipts[id] == rs[id])
      && (quiet ==> forall id :: id in m && id !in todo ==> (id in memory <==> Stuck(m, rs, id)))
    }

    method FinalizeNext(id: Id, quiet: bool, ghost m: map<Id, Record>, ghost rs: map<Id, Receipt>, ghost todo: set<Id>)
      requires Valid() && Midway(m, rs, todo, quiet) && id in todo
      modifies this
      ensures Valid() && old(history) <= history && Midway(m, rs, todo - {id}, quiet)
    {
      assert Stuck(memory, receipts, id) <==> Stuck(m, rs, id);
      FinalizeRecord(id, memory[id].decision == Approved, quiet);
    }

    /** One missing prompt per undecided group of the configured operator. */
    method ResendPrompts(operator: string)
      requires Valid() && operator != ""
      modifies this
      ensures Valid() && old(history) <= history
      ensures memory.Keys == old(memory).Keys && receipts == old(receipts)
    {
      var senders := set id | id in memory && memory[id].decision == Undecided && memory[id].operator == operator ::
          memory[id].sender;
      while senders != {}
        invariant Valid() && old(history) <= history
        invariant memory.Keys == old(memory).Keys && receipts == old(receipts)
        decreases |senders|
      {
        var sender :| sender in senders;
        var waiting := set id | id in Group(memory, operator, sender) && memory[id].decision == Undecided;
        if !exists id :: id in waiting && memory[id].promptEnvelope.Some? {
          SendPrompt(operator, sender);
        }
        senders := senders - {sender};
      }
    }
  }
}
