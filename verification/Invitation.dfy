/**
 Keyless invitations: adopt, prompt, decide, resolve, retire. Decision frames leave the process only
 after the pair they carry is on disk; saves may fail and the process may crash between any two steps.
 */
module Invitation {
  import opened Prelude

  type Id = string

  datatype Decision = Open | Accept | Reject

  datatype Phase = Unsent | AwaitingReply | Decided | Terminal

  datatype Outcome = AppliedNow | AlreadyApplied | ConflictOutcome | NotFound

  datatype Record = Record(
    promptRef: string,
    promptEnvelope: Option<string>,
    promptThread: Option<string>,
    decision: Decision,
    decisionRef: Option<string>,
    phase: Phase,
    outcome: Option<Outcome>)

  datatype Frame = Frame(decision: Decision, ref: string)

  /**
   `before` is the copy taken when the pending dictionary is changed in place, until the change is saved or undone.
   `sent` holds, per event, the decision frames sent since the event was last taken in.
   */
  datatype World = World(
    disk: map<Id, Record>,
    memory: map<Id, Record>,
    before: Option<map<Id, Record>>,
    sent: map<Id, seq<Frame>>)

  const START := World(map[], map[], None, map[])

  datatype Step =
    // Changes of the pending dictionary, in place and not yet durable.
    | Adopt(event: Id, promptRef: string)
    | StorePrompt(event: Id, envelope: string, thread: string)
    | Decide(event: Id, decision: Decision, ref: string)
    | Resolve(event: Id, outcome: Outcome)
    /** Every active event that vanished from the server's list is dropped. */
    | Retire(gone: set<Id>)
    /** The write of the changed dictionary landed. */
    | Save
    /** The write failed: the dictionary is refilled from the copy. */
    | Restore
    | SendFrame(event: Id)
    /** Memory is lost and reloaded from disk. */
    | Crash

  /** Change the dictionary in place, keeping the copy the change may be undone with. */
  function Change(w: World, next: map<Id, Record>): World {
    w.(memory := next, before := Some(w.memory))
  }

  function Frames(w: World, event: Id): seq<Frame> {
    if event in w.sent then w.sent[event] else []
  }

  predicate Enabled(w: World, step: Step) {
    match step
    case Adopt(event, _) => w.before.None? && event !in w.memory
    case StorePrompt(event, _, _) => w.before.None? && event in w.memory && w.memory[event].phase == Unsent
    case Decide(event, decision, _) =>
      && w.before.None? && event in w.memory && w.memory[event].phase != Terminal
      && w.memory[event].decision == Open && decision != Open
    case Resolve(event, _) =>
      w.before.None? && event in w.memory && w.memory[event].phase != Terminal && Frames(w, event) != []
    case Retire(gone) => w.before.None? && forall e :: e in gone ==> e in w.memory && w.memory[e].phase != Terminal
    case Save => w.before.Some?
    case Restore => w.before.Some?
    case SendFrame(event) =>
      && w.before.None? && event in w.memory && w.memory[event].phase != Terminal
      && w.memory[event].decision != Open && w.memory[event].decisionRef.Some?
    case Crash => true
  }

  function Do(w: World, step: Step): World
    requires Enabled(w, step)
  {
    match step
    case Adopt(event, promptRef) =>
      var next := w.memory[event := Record(promptRef, None, None, Open, None, Unsent, None)];
      Change(w, next).(sent := w.sent[event := []])
    case StorePrompt(event, envelope, thread) =>
      var prompted :=
          w.memory[event].(promptEnvelope := Some(envelope), promptThread := Some(thread), phase := AwaitingReply);
      Change(w, w.memory[event := prompted])
    case Decide(event, decision, ref) =>
      Change(w, w.memory[event := w.memory[event].(decision := decision, decisionRef := Some(ref), phase := Decided)])
    case Resolve(event, outcome) =>
      Change(w, w.memory[event := w.memory[event].(phase := Terminal, outcome := Some(outcome))])
    case Retire(gone) => Change(w, w.memory - gone)
    case Save => w.(disk := w.memory, before := None)
    case Restore => w.(memory := w.before.value, before := None)
    case SendFrame(event) =>
      var frame := Frame(w.memory[event].decision, w.memory[event].decisionRef.value);
      w.(sent := w.sent[event := Frames(w, event) + [frame]])
    case Crash => w.(memory := w.disk, before := None)
  }

  ghost predicate Possible(w: World, steps: seq<Step>)
    decreases |steps|, 0
  {
    steps == [] ||
    (&& Possible(w, steps[..|steps| - 1])
     && Enabled(After(w, steps[..|steps| - 1]), steps[|steps| - 1]))
  }

  ghost function After(w: World, steps: seq<Step>): World
    requires Possible(w, steps)
    decreases |steps|, 1
  {
    if steps == [] then w else Do(After(w, steps[..|steps| - 1]), steps[|steps| - 1])
  }

  // ------------------------------------------------------------------ invariant

  /** The shapes a record takes, phase by phase. */
  ghost predicate WellFormed(r: Record) {
    match r.phase
    case Unsent => r.decision == Open && r.decisionRef.None? && r.outcome.None?
    case AwaitingReply =>
        r.decision == Open && r.decisionRef.None? && r.outcome.None? && r.promptEnvelope.Some? && r.promptThread.Some?
    case Decided => r.decision != Open && r.decisionRef.Some? && r.outcome.None?
    case Terminal => r.decision != Open && r.decisionRef.Some? && r.outcome.Some?
  }

  /** Every frame sent since the event was taken in carries the record's pair. */
  ghost predicate Carries(r: Record, frames: seq<Frame>) {
    forall f :: f in frames ==> r.decisionRef == Some(f.ref) && r.decision == f.decision && f.decision != Open
  }

  /** A dictionary fit for the disk: its records are well formed and carry what was sent. */
  ghost predicate Fit(m: map<Id, Record>, w: World) {
    forall e :: e in m ==> WellFormed(m[e]) && Carries(m[e], Frames(w, e))
  }

  /** Outside a change memory mirrors disk; inside one the copy does, and memory is fit to be saved. */
  ghost predicate Inv(w: World) {
    && (w.before.None? ==> w.memory == w.disk)
    && (w.before.Some? ==> w.before.value == w.disk)
    && Fit(w.disk, w) && Fit(w.memory, w)
  }

  lemma DoKeepsInv(w: World, step: Step)
    requires Inv(w) && Enabled(w, step)
    ensures Inv(Do(w, step))
  {
    var w' := Do(w, step);
    forall e | e in w'.disk ensures WellFormed(w'.disk[e]) && Carries(w'.disk[e], Frames(w', e)) {
      if e in w.disk && w.disk[e].decision == Open { NoFramesWhileOpen(w.disk[e], Frames(w, e)); }
    }
    forall e | e in w'.memory ensures WellFormed(w'.memory[e]) && Carries(w'.memory[e], Frames(w', e)) {
      if e in w.memory && w.memory[e].decision == Open { NoFramesWhileOpen(w.memory[e], Frames(w, e)); }
    }
  }

  lemma NoFramesWhileOpen(r: Record, frames: seq<Frame>)
    requires Carries(r, frames) && r.decision == Open
    ensures frames == []
  {
    HeadIsElement(frames);
  }

  lemma {:induction false} EveryRunKeeps(steps: seq<Step>)
    requires Possible(START, steps)
    ensures Inv(After(START, steps))
  {
    if steps != [] {
      EveryRunKeeps(steps[..|steps| - 1]);
      DoKeepsInv(After(START, steps[..|steps| - 1]), steps[|steps| - 1]);
    }
  }

  /** For all failures and crashes, all frames of one adoption carry one decision and reference, the ones on disk. */
  lemma FramesAreStable(steps: seq<Step>, event: Id, i: nat, j: nat)
    requires Possible(START, steps) && event in After(START, steps).disk
    requires i < |Frames(After(START, steps), event)| && j < |Frames(After(START, steps), event)|
    ensures var w := After(START, steps);
            && Frames(w, event)[i] == Frames(w, event)[j]
            && w.disk[event].phase in {Decided, Terminal}
            && w.disk[event].decision == Frames(w, event)[i].decision
            && w.disk[event].decisionRef == Some(Frames(w, event)[i].ref)
  {
    EveryRunKeeps(steps);
    var w := After(START, steps);
    assert Carries(w.disk[event], Frames(w, event)) && WellFormed(w.disk[event]);
    assert Frames(w, event)[i] in Frames(w, event) && Frames(w, event)[j] in Frames(w, event);
  }

  /** The pair a frame is about to carry is already durable when the first frame leaves. */
  lemma PairOnDiskBeforeFrame(steps: seq<Step>, event: Id)
    requires Possible(START, steps) && Enabled(After(START, steps), SendFrame(event))
    ensures var w := After(START, steps);
            && event in w.disk && w.disk[event].phase == Decided && w.disk[event].decisionRef.Some?
            && Frames(Do(w, SendFrame(event)), event) ==
                 Frames(w, event) + [Frame(w.disk[event].decision, w.disk[event].decisionRef.value)]
  {
    EveryRunKeeps(steps);
    assert WellFormed(After(START, steps).disk[event]);
  }

  function Rank(p: Phase): nat {
    match p
    case Unsent => 0
    case AwaitingReply => 1
    case Decided => 2
    case Terminal => 3
  }

  /** The record moved on, or stayed: phase no lower, prompt reference kept, a taken decision and its reference kept. */
  ghost predicate Advanced(r: Record, r': Record) {
    && Rank(r.phase) <= Rank(r'.phase) && r'.promptRef == r.promptRef
    && (r.decision != Open ==> r'.decision == r.decision && r'.decisionRef == r.decisionRef)
    && (r.phase == Terminal ==> r' == r)
  }

  /** In memory and on disk the event's record is at least as far as `r`, and memory is at least as far as disk. */
  ghost predicate Onwards(w: World, event: Id, r: Record) {
    && event in w.disk && event in w.memory
    && Advanced(r, w.disk[event]) && Advanced(w.disk[event], w.memory[event])
  }

  lemma OnwardsStays(w: World, step: Step, event: Id, r: Record)
    requires Inv(w) && Enabled(w, step) && Onwards(w, event, r)
    requires !(step.Retire? && event in step.gone)
    ensures Onwards(Do(w, step), event, r) && Frames(w, event) <= Frames(Do(w, step), event)
    ensures r.phase == Terminal ==> Frames(Do(w, step), event) == Frames(w, event)
  {
    assert WellFormed(w.memory[event]) && WellFormed(w.disk[event]);
  }

  /** Between adoption and retirement: phases only advance, a decision and its reference never change. */
  lemma {:induction false} ProgressIsMonotone(w: World, steps: seq<Step>, event: Id)
    requires Inv(w) && w.before.None? && Possible(w, steps) && event in w.disk
    requires forall i :: 0 <= i < |steps| ==> !(steps[i].Retire? && event in steps[i].gone)
    ensures var w' := After(w, steps);
            && Inv(w') && Onwards(w', event, w.disk[event]) && Frames(w, event) <= Frames(w', event)
            && (w.disk[event].phase == Terminal ==> Frames(w', event) == Frames(w, event))
    decreases |steps|
  {
    if steps != [] {
      var front := steps[..|steps| - 1];
      ProgressIsMonotone(w, front, event);
      DoKeepsInv(After(w, front), steps[|steps| - 1]);
      OnwardsStays(After(w, front), steps[|steps| - 1], event, w.disk[event]);
    }
  }

  /** Over every run, whatever replies, lists, failures or crashes come: a terminal record and its frames stay. */
  lemma {:induction false} TerminalForever(w: World, steps: seq<Step>, event: Id)
    requires Inv(w) && w.before.None? && Possible(w, steps) && event in w.disk && w.disk[event].phase == Terminal
    ensures var w' := After(w, steps);
            && Inv(w') && event in w'.disk && w'.disk[event] == w.disk[event] && Frames(w', event) == Frames(w, event)
            && event in w'.memory && w'.memory[event] == w.disk[event]
    decreases |steps|
  {
    if steps != [] {
      var front := steps[..|steps| - 1];
      TerminalForever(w, front, event);
      DoKeepsInv(After(w, front), steps[|steps| - 1]);
    }
  }

  // ------------------------------------------------------------------- the flow

  class KeylessInvitationFlow {
    const operator: string
    var disk: map<Id, Record>
    var memory: map<Id, Record>
    var before: Option<map<Id, Record>>
    var sent: map<Id, seq<Frame>>
    ghost var history: seq<Step>

    ghost function Now(): World
      reads this
    {
      World(disk, memory, before, sent)
    }

    /** The flow is where a possible run ended. */
    ghost predicate Reached()
      reads this
    {
      Possible(START, history) && After(START, history) == Now() && Inv(Now())
    }

    /** Between calls no change is pending. */
    ghost predicate Valid()
      reads this
    {
      Reached() && before.None?
    }

    constructor (operator: string)
      ensures Valid() && Now() == START && this.operator == operator
    {
      this.operator := operator;
      disk, memory, before, sent, history := map[], map[], None, map[], [];
    }

    method Take(step: Step)
      requires Reached() && Enabled(Now(), step)
      modifies this
      ensures Reached() && Now() == Do(old(Now()), step) && history == old(history) + [step]
    {
      DoKeepsInv(Now(), step);
      var w' := Do(World(disk, memory, before, sent), step);
      disk, memory, before, sent := w'.disk, w'.memory, w'.before, w'.sent;
      history := history + [step];
      assert history[..|history| - 1] == old(history);
    }

    /** Change the dictionary in place and write it out; when the write fails, refill it from the copy. */
    method PersistOrRestore(change: Step) returns (saved: bool)
      requires Valid() && Enabled(Now(), change) && Do(Now(), change).before.Some?
      modifies this
      ensures Valid() && old(history) <= history && sent == Do(old(Now()), change).sent
      ensures disk == memory && memory == if saved then Do(old(Now()), change).memory else old(memory)
    {
      Take(change);
      saved := *;
      if saved {
        Take(Save);
      } else {
        Take(Restore);
      }
    }

    /** Prompt once; a failed send or save leaves the record unsent for resume. */
    method SendPrompt(event: Id)
      requires Valid()
      modifies this
      ensures Valid() && old(history) <= history && memory.Keys == old(memory).Keys && sent == old(sent)
      ensures forall e :: e in memory && e != event ==> memory[e] == old(memory)[e]
      ensures event in memory && old(memory)[event].phase != Unsent ==> memory[event] == old(memory)[event]
      ensures event in memory ==> memory[event].decision == old(memory)[event].decision
    {
      if event !in memory || memory[event].phase != Unsent {
        return;
      }
      var envelope: string, thread: string := *, *;
      if envelope == "" {
        return;
      }
      var _ := PersistOrRestore(StorePrompt(event, envelope, if thread == "" then envelope else thread));
    }

    /** The record is decided or terminal, with the prompt and the pair of `r`. */
    ghost predicate Held(now: Record, r: Record) {
      now.phase in {Decided, Terminal} && now == r.(phase := now.phase, outcome := now.outcome)
    }

    /** Send the stored decision of a decided record; nothing to send while it is open, or once it is terminal. */
    method SendDecision(event: Id)
      requires Valid()
      modifies this
      ensures Valid() && old(history) <= history && memory.Keys == old(memory).Keys
      ensures forall e :: e in memory && e != event ==> memory[e] == old(memory)[e]
      ensures forall e :: e != event ==> Frames(Now(), e) == Frames(old(Now()), e)
      ensures event in memory && old(memory)[event].phase == Decided ==>
                && old(memory)[event].decisionRef.Some?
                && Held(memory[event], old(memory)[event])
                && Resent(old(memory)[event], Frames(old(Now()), event), Frames(Now(), event))
      ensures event in memory && old(memory)[event].phase != Decided ==>
                memory[event] == old(memory)[event] && Frames(Now(), event) == Frames(old(Now()), event)
    {
      if event !in memory || memory[event].phase == Terminal || memory[event].decision == Open {
        return;
      }
      assert WellFormed(memory[event]);
      DeliverFrame(event);
    }

    /** Take a decision on an open record: saved with a fresh reference first, sent only once it is on disk. */
    method DecideAndSend(event: Id, decision: Decision, ref: string) returns (saved: bool)
      requires Valid() && event in memory && memory[event].phase in {Unsent, AwaitingReply} && decision != Open
      modifies this
      ensures Valid() && old(history) <= history && memory.Keys == old(memory).Keys
      ensures forall e :: e in memory && e != event ==> memory[e] == old(memory)[e]
      ensures saved ==> Held(memory[event], old(memory)[event].(decision := decision, decisionRef := Some(ref)))
      ensures !saved ==> memory == old(memory) && sent == old(sent)
    {
      saved := SaveDecision(event, decision, ref);
      if saved {
        SendDecision(event);
      }
    }

    /** Store a decision with its reference, or change nothing when the save fails. */
    method SaveDecision(event: Id, decision: Decision, ref: string) returns (saved: bool)
      requires Valid() && event in memory && memory[event].phase in {Unsent, AwaitingReply} && decision != Open
      modifies this
      ensures Valid() && old(history) <= history && sent == old(sent)
      ensures memory == if saved then
          old(memory)[event := old(memory)[event].(decision := decision, decisionRef := Some(ref), phase := Decided)]
        else old(memory)
    {
      assert WellFormed(memory[event]);
      saved := PersistOrRestore(Decide(event, decision, ref));
    }

    /** Send the stored pair; the record is final only when the server answered and the save succeeded. */
    method DeliverFrame(event: Id)
      requires Valid() && event in memory && memory[event].phase == Decided && memory[event].decisionRef.Some?
      modifies this
      ensures forall e :: e != event ==> Frames(Now(), e) == Frames(old(Now()), e)
      ensures Frames(Now(), event) ==
                Frames(old(Now()), event) + [Frame(old(memory)[event].decision, old(memory)[event].decisionRef.value)]
      ensures Valid() && old(history) <= history && memory.Keys == old(memory).Keys
      ensures forall e :: e in memory && e != event ==> memory[e] == old(memory)[e]
      ensures Held(memory[event], old(memory)[event])
    {
      assert WellFormed(memory[event]);
      Take(SendFrame(event));
      var answered: bool, outcome: Outcome := *, *;
      if answered {
        var _ := PersistOrRestore(Resolve(event, outcome));
      }
    }

    /** The record's prompt is the thread this reply came in. */
    ghost predicate Prompts(r: Record, root: string) {
      r.promptEnvelope == Some(root) || r.promptThread == Some(root)
    }

    /**
     Consume an exact yes/no for one prompted invite. A consumed reply is a durable decision: the reply's own when
     the record was open, the earlier one otherwise.
     */
    method HandleOperatorReply(root: string, yes: bool, ref: string) returns (consumed: bool, event: Id)
      requires Valid()
      modifies this
      ensures Valid() && old(history) <= history && memory.Keys == old(memory).Keys
      ensures consumed ==>
                && event in old(memory) && Prompts(old(memory)[event], root) && Prompts(disk[event], root)
                && disk[event].decision ==
                     if old(memory)[event].decision != Open then old(memory)[event].decision
                     else if yes then Accept else Reject
      ensures !consumed ==> disk == old(disk) && sent == old(sent)
      ensures forall e :: e in memory && (consumed ==> e != event) ==> memory[e] == old(memory)[e]
    {
      event := "";
      var matching :=
        set e | e in memory && (memory[e].promptEnvelope == Some(root) || memory[e].promptThread == Some(root));
      if matching == {} {
        return false, "";
      }
      event :| event in matching;
      assert WellFormed(memory[event]);
      if memory[event].phase == Terminal || memory[event].decision != Open {
        return true, event;
      }
      consumed := DecideAndSend(event, if yes then Accept else Reject, ref);
    }

    /** Take in a new invite; an auto-accepted one is decided as accept, any other stays open and is prompted for. */
    method AdoptNewInvite(event: Id, autoAccept: bool, promptRef: string, ref: string)
      requires Valid() && event !in memory
      modifies this
      ensures Valid() && old(history) <= history
      ensures forall e :: e in old(memory) ==> e in memory && memory[e] == old(memory)[e]
      ensures memory.Keys <= old(memory).Keys + {event}
      ensures event in memory && memory[event].decision != Open ==> autoAccept && memory[event].decision == Accept
    {
      var saved := PersistOrRestore(Adopt(event, promptRef));
      if !saved || operator == "" {
        return;
      }
      if autoAccept {
        var _ := DecideAndSend(event, Accept, ref);
      } else {
        SendPrompt(event);
      }
    }

    /** Merge the server's list: known events are left alone, vanished active ones retired, terminal ones kept. */
    method Reconcile(invites: seq<(Id, bool)>, promptRef: string, ref: string)
      requires Valid()
      modifies this
      ensures Valid() && old(history) <= history
      ensures forall e, a :: e in old(memory) && (e, a) in invites ==> e in memory && memory[e] == old(memory)[e]
      ensures forall e ::
                e in old(memory) && old(memory)[e].phase == Terminal ==> e in memory && memory[e] == old(memory)[e]
      ensures forall e :: e in old(memory) && e in memory ==> memory[e] == old(memory)[e]
    {
      var i := 0;
      while i < |invites|
        invariant Valid() && old(history) <= history && 0 <= i <= |invites|
        invariant forall e :: e in old(memory) ==> e in memory && memory[e] == old(memory)[e]
      {
        if invites[i].0 !in memory {
          AdoptNewInvite(invites[i].0, invites[i].1, promptRef, ref);
        }
        i := i + 1;
      }
      var seen := set k | 0 <= k < |invites| :: invites[k].0;
      var vanished := set e | e in memory && e !in seen && memory[e].phase != Terminal;
      if vanished != {} {
        var _ := PersistOrRestore(Retire(vanished));
      }
      forall e, a | (e, a) in invites ensures e in seen {
        var k :| 0 <= k < |invites| && invites[k] == (e, a);
        assert invites[k].0 == e;
      }
    }

    /** One record's replay: a decided one resends its stored pair, an unsent prompt is sent again. */
    method ResumeRecord(event: Id)
      requires Valid() && event in memory
      modifies this
      ensures Valid() && old(history) <= history && memory.Keys == old(memory).Keys
      ensures forall e :: e in memory && e != event ==> memory[e] == old(memory)[e]
      ensures forall e :: e != event ==> Frames(Now(), e) == Frames(old(Now()), e)
      ensures Resent(old(memory)[event], Frames(old(Now()), event), Frames(Now(), event))
    {
      assert WellFormed(memory[event]);
      if memory[event].phase == Decided {
        SendDecision(event);
      } else if operator != "" {
        SendPrompt(event);
      }
    }

    /** A decided record sent its stored pair once more; any other sent nothing. */
    ghost predicate Resent(r: Record, was: seq<Frame>, now: seq<Frame>) {
      if r.phase == Decided && r.decisionRef.Some? then now == was + [Frame(r.decision, r.decisionRef.value)]
          else now == was
    }

    /** Replay from `w` has dealt with everything but `todo`. */
    ghost predicate Midway(w: World, todo: set<Id>)
      reads this
    {
      && memory.Keys == w.memory.Keys && todo <= memory.Keys
      && (forall e :: e in todo ==> memory[e] == w.memory[e] && Frames(Now(), e) == Frames(w, e))
      && (forall e :: e in memory && e !in todo ==> Resent(w.memory[e], Frames(w, e), Frames(Now(), e)))
    }

    method ResumeNext(event: Id, ghost w: World, ghost todo: set<Id>)
      requires Valid() && Midway(w, todo) && event in todo
      modifies this
      ensures Valid() && old(history) <= history && Midway(w, todo - {event})
    {
      ResumeRecord(event);
    }

    /** Replay after a reconnect: every decided record resends its stored pair exactly once, no other sends a frame. */
    method Resume()
      requires Valid()
      modifies this
      ensures Valid() && old(history) <= history && memory.Keys == old(memory).Keys
      ensures forall e :: e in old(memory) ==> Resent(old(memory)[e], Frames(old(Now()), e), Frames(Now(), e))
    {
      ghost var w := Now();
      var todo := memory.Keys;
      while todo != {}
        invariant Valid() && old(history) <= history && Midway(w, todo)
        decreases |todo|
      {
        var e :| e in todo;
        ResumeNext(e, w, todo);
        todo := todo - {e};
      }
    }
  }
}
