/**
 The counting race: agents append numbers to one channel with compare-with-head sends. Whatever the
 interleaving, the committed numbers are 1, 2, 3, ...; in lockstep rounds the cost is triangular.
 */
module CountingRace {
  import opened Prelude

  type Agent = nat

  /** A channel message; only counted messages carry a number. */
  datatype Message = Message(seqNo: nat, sender: Option<Agent>, number: Option<nat>)

  const SEED := Message(1, None, None)

  datatype Attempt = Attempt(seen: nat, number: nat)

  datatype Answer = Sent(message: Message) | Held(latest: Message) | FutureBoundary

  /** `max(server_seq, default=0)` over the rows an agent has admitted. */
  function MaxSeq(rows: seq<Message>): nat {
    if rows == [] then 0
    else
      var rest := MaxSeq(rows[..|rows| - 1]);
      if rows[|rows| - 1].seqNo > rest then rows[|rows| - 1].seqNo else rest
  }

  function MaxNumber(rows: seq<Message>): nat {
    if rows == [] then 0
    else
      var rest := MaxNumber(rows[..|rows| - 1]);
      var last := rows[|rows| - 1].number;
      if last.Some? && last.value > rest then last.value else rest
  }

  /** What an agent will send next, from its own rows alone. */
  function NextAttempt(rows: seq<Message>): Attempt {
    Attempt(MaxSeq(rows), MaxNumber(rows) + 1)
  }

  /** The channel holds the seed and then exactly the numbers 1, 2, 3, ... in order. */
  ghost predicate Counted(channel: seq<Message>) {
    && channel != [] && channel[0] == SEED
    && (forall i :: 0 <= i < |channel| ==> channel[i].seqNo == i + 1)
    && (forall i :: 0 < i < |channel| ==> channel[i].number == Some(i))
  }

  /** The locked head comparison of `AtomicChannel.send`. */
  function Send(channel: seq<Message>, agent: Agent, a: Attempt): Answer
    requires channel != []
  {
    var head := channel[|channel| - 1];
    if a.seen > head.seqNo then FutureBoundary
    else if a.seen < head.seqNo then Held(head)
    else Sent(Message(head.seqNo + 1, Some(agent), Some(a.number)))
  }

  // ------------------------------------------------------------ every interleaving

  datatype Race = Race(channel: seq<Message>, rows: map<Agent, seq<Message>>, trying: map<Agent, Attempt>)

  /** An agent computes an attempt, or its pending attempt reaches the channel. */
  datatype Step = Prepare(agent: Agent) | Reach(agent: Agent)

  predicate Enabled(r: Race, step: Step) {
    match step
    case Prepare(agent) => agent in r.rows
    case Reach(agent) => agent in r.rows && agent in r.trying && r.channel != []
  }

  function Do(r: Race, step: Step): Race {
    if !Enabled(r, step) then r
    else
      match step
      case Prepare(agent) => r.(trying := r.trying[agent := NextAttempt(r.rows[agent])])
      case Reach(agent) =>
        var answer := Send(r.channel, agent, r.trying[agent]);
        var spent := r.(trying := r.trying - {agent});
        match answer
        case Sent(message) => spent.(channel := r.channel + [message])
        case Held(latest) => spent.(rows := r.rows[agent := Learn(r.rows[agent], latest)])
        case FutureBoundary => spent
  }

  function Run(r: Race, steps: seq<Step>): Race
    decreases |steps|
  {
    if steps == [] then r else Do(Run(r, steps[..|steps| - 1]), steps[|steps| - 1])
  }

  function Begin(agents: set<Agent>): Race {
    Race([SEED], map a | a in agents :: [SEED], map[])
  }

  /** The rows of an agent are messages of the channel, the seed among them. */
  ghost predicate Rows(channel: seq<Message>, rows: seq<Message>) {
    SEED in rows && forall m :: m in rows ==> m in channel
  }

  ghost predicate Inv(r: Race) {
    && Counted(r.channel)
    && (forall a :: a in r.rows ==> Rows(r.channel, r.rows[a]))
    && (forall a :: a in r.trying ==> 1 <= r.trying[a].seen <= |r.channel| && r.trying[a].number == r.trying[a].seen)
  }

  lemma {:induction false} MaxSeqIsSeen(rows: seq<Message>)
    ensures forall m :: m in rows ==> m.seqNo <= MaxSeq(rows)
    ensures rows == [] || exists m :: m in rows && m.seqNo == MaxSeq(rows)
  {
    if rows != [] {
      var front, last := rows[..|rows| - 1], rows[|rows| - 1];
      MaxSeqIsSeen(front);
      assert rows == front + [last];
      if front == [] || last.seqNo > MaxSeq(front) {
        assert last in rows && last.seqNo == MaxSeq(rows);
      } else {
        var m :| m in front && m.seqNo == MaxSeq(front);
        assert m in rows;
      }
    }
  }

  lemma {:induction false} MaxNumberBounds(rows: seq<Message>)
    ensures forall m :: m in rows && m.number.Some? ==> m.number.value <= MaxNumber(rows)
    ensures MaxNumber(rows) == 0 || exists m :: m in rows && m.number == Some(MaxNumber(rows))
  {
    if rows != [] {
      var front, last := rows[..|rows| - 1], rows[|rows| - 1];
      MaxNumberBounds(front);
      assert rows == front + [last];
      if last.number.Some? && last.number.value > MaxNumber(front) {
        assert last in rows;
      } else if MaxNumber(front) != 0 {
        var m :| m in front && m.number == Some(MaxNumber(front));
        assert m in rows;
      }
    }
  }

  /** However many messages an agent missed, the number it would send is its own boundary. */
  lemma NextIsBoundary(channel: seq<Message>, rows: seq<Message>)
    requires Counted(channel) && Rows(channel, rows)
    ensures 1 <= MaxSeq(rows) <= |channel| && MaxNumber(rows) + 1 == MaxSeq(rows)
  {
    MaxSeqIsSeen(rows);
    MaxNumberBounds(rows);
    var top :| top in rows && top.seqNo == MaxSeq(rows);
    var i :| 0 <= i < |channel| && channel[i] == top;
    assert i > 0 ==> top.number == Some(i);
    if MaxNumber(rows) != 0 {
      var m :| m in rows && m.number == Some(MaxNumber(rows));
      var j :| 0 <= j < |channel| && channel[j] == m;
    }
  }

  lemma DoKeepsInv(r: Race, step: Step)
    requires Inv(r)
    ensures Inv(Do(r, step))
    ensures step.Reach? && Enabled(r, step) ==> Send(r.channel, step.agent, r.trying[step.agent]) != FutureBoundary
  {
    if Enabled(r, step) {
      if step.Prepare? {
        NextIsBoundary(r.channel, r.rows[step.agent]);
      } else {
        var head := r.channel[|r.channel| - 1];
        assert head in r.channel;
        var r' := Do(r, step);
        forall a | a in r'.rows ensures Rows(r'.channel, r'.rows[a]) {
          assert Rows(r.channel, r.rows[a]);
        }
      }
    }
  }

  /** For every set of agents and every interleaving the channel reads 1, 2, 3, ... without gap or duplicate. */
  lemma {:induction false} NumbersAreContiguous(agents: set<Agent>, steps: seq<Step>)
    ensures Inv(Run(Begin(agents), steps))
    ensures var c := Run(Begin(agents), steps).channel;
            forall i :: 0 < i < |c| ==> c[i].number == Some(i)
  {
    if steps != [] {
      NumbersAreContiguous(agents, steps[..|steps| - 1]);
      DoKeepsInv(Run(Begin(agents), steps[..|steps| - 1]), steps[|steps| - 1]);
    }
  }

  // --------------------------------------------------------------- lockstep rounds

  class AtomicChannel {
    var messages: seq<Message>
    var attempts: nat
    var held: nat

    constructor ()
      ensures messages == [SEED] && attempts == 0 && held == 0
    {
      messages, attempts, held := [SEED], 0, 0;
    }

    /**
     The locked head comparison. Only `require_current` holds a late attempt; any other mode commits it, and may then
     break the numbering.
     */
    method SendMessage(agent: Agent, a: Attempt, requireCurrent: bool := true) returns (answer: Answer)
      requires messages != []
      modifies this
      ensures requireCurrent && old(Counted(messages)) && a.number == a.seen ==> Counted(messages)
      ensures requireCurrent ==> answer == Send(old(messages), agent, a)
      ensures !requireCurrent ==>
                var head := old(messages[|messages| - 1]);
                answer == if a.seen > head.seqNo then FutureBoundary
                          else Sent(Message(head.seqNo + 1, Some(agent), Some(a.number)))
      ensures attempts == old(attempts) + 1
      ensures held == old(held) + if answer.Held? then 1 else 0
      ensures messages == old(messages) + if answer.Sent? then [answer.message] else []
    {
      attempts := attempts + 1;
      var head := messages[|messages| - 1];
      if a.seen > head.seqNo {
        return FutureBoundary;
      }
      if requireCurrent && a.seen < head.seqNo {
        held := held + 1;
        return Held(head);
      }
      var committed := Message(head.seqNo + 1, Some(agent), Some(a.number));
      messages := messages + [committed];
      return Sent(committed);
    }
  }

  /** The agent has admitted the head of the channel, so its next attempt is current. */
  ghost predicate UpToDate(channel: seq<Message>, rows: seq<Message>) {
    Rows(channel, rows) && channel != [] && channel[|channel| - 1] in rows
  }

  lemma UpToDateSeesHead(channel: seq<Message>, rows: seq<Message>)
    requires Counted(channel) && UpToDate(channel, rows)
    ensures MaxSeq(rows) == |channel| && MaxNumber(rows) + 1 == |channel|
  {
    NextIsBoundary(channel, rows);
    MaxSeqIsSeen(rows);
  }

  /** The rows after a held answer: the head is stored unless it is already there. */
  function Learn(rows: seq<Message>, latest: Message): seq<Message> {
    if latest in rows then rows else rows + [latest]
  }

  lemma LearningHead(was: seq<Message>, now: seq<Message>, rows: seq<Message>)
    requires Rows(was, rows) && was <= now && now != []
    ensures UpToDate(now, Learn(rows, now[|now| - 1]))
  {
    forall m | m in Learn(rows, now[|now| - 1]) ensures m in now {
      if m in rows {
        var i :| 0 <= i < |was| && was[i] == m;
        assert now[i] == m;
      }
    }
  }

  /** The channel is where the round found it, or one message further. */
  ghost predicate InRound(was: seq<Message>, now: seq<Message>) {
    Counted(was) && Counted(now) && was <= now && |now| <= |was| + 1
  }

  /** One agent's attempt in a round it entered up to date: it commits exactly when nobody has yet. */
  method AttemptOnce(channel: AtomicChannel, ghost was: seq<Message>, agent: Agent, rows: seq<Message>)
    returns (won: bool, rows': seq<Message>)
    requires InRound(was, channel.messages) && UpToDate(was, rows)
    modifies channel
    ensures InRound(was, channel.messages) && |channel.messages| == |was| + 1
    ensures won <==> old(channel.messages) == was
    ensures won ==> channel.messages[|was|].sender == Some(agent)
    ensures !won ==> channel.messages == old(channel.messages) && UpToDate(channel.messages, rows')
    ensures channel.attempts == old(channel.attempts) + 1 && channel.held == old(channel.held) + if won then 0 else 1
  {
    UpToDateSeesHead(was, rows);
    var answer := channel.SendMessage(agent, NextAttempt(rows));
    won, rows' := answer.Sent?, rows;
    if answer.Held? {
      LearningHead(was, channel.messages, rows);
      rows' := Learn(rows, answer.latest);
    }
  }

  ghost predicate AllUpToDate(channel: seq<Message>, agents: set<Agent>, rows: map<Agent, seq<Message>>) {
    agents <= rows.Keys && forall a :: a in agents ==> UpToDate(channel, rows[a])
  }

  /**
   One lockstep round: every active agent attempts once, in any order. Exactly one commits, all others are
   held and leave the round up to date.
   */
  method PlayRound(channel: AtomicChannel, active: set<Agent>, rows: map<Agent, seq<Message>>)
    returns (sent: seq<Agent>, held: set<Agent>, rows': map<Agent, seq<Message>>)
    requires Counted(channel.messages) && active != {} && AllUpToDate(channel.messages, active, rows)
    modifies channel
    ensures InRound(old(channel.messages), channel.messages) && |channel.messages| == |old(channel.messages)| + 1
    ensures |sent| == 1 && sent[0] in active && held == active - {sent[0]}
    ensures channel.messages[|old(channel.messages)|].sender == Some(sent[0])
    ensures channel.attempts == old(channel.attempts) + |active| && channel.held == old(channel.held) + |active| - 1
    ensures AllUpToDate(channel.messages, held, rows')
  {
    sent, held := [], {};
    rows' := map[];
    var todo := active;
    ghost var was := channel.messages;
    while todo != {}
      invariant InRound(was, channel.messages) && todo <= active
      invariant channel.attempts == old(channel.attempts) + |active| - |todo|
      invariant channel.held == old(channel.held) + |active| - |todo| - |sent|
      invariant |sent| == |channel.messages| - |was| == if todo == active then 0 else 1
      invariant sent == [] ==> held == {}
      invariant sent != [] ==> sent[0] in active - todo && held == active - todo - {sent[0]}
      invariant sent != [] ==> channel.messages[|was|].sender == Some(sent[0])
      invariant AllUpToDate(was, active, rows) && AllUpToDate(channel.messages, held, rows')
      decreases |todo|
    {
      var a :| a in todo;
      var won, learned := AttemptOnce(channel, was, a, rows[a]);
      ghost var rest := todo - {a};
      assert |rest| == |todo| - 1 && rest != active && won == (sent == []);
      assert won ==> active - rest - {a} == {};
      assert !won ==> held + {a} == active - rest - {sent[0]};
      todo := todo - {a};
      if won {
        sent := [a];
      } else {
        held, rows' := held + {a}, rows'[a := learned];
      }
    }
  }

  function Triangle(n: nat): nat {
    if n == 0 then 0 else n + Triangle(n - 1)
  }

  lemma {:induction false} TriangleClosed(n: nat)
    ensures 2 * Triangle(n) == n * (n + 1) && 2 * (Triangle(n) - n) == n * (n - 1)
  {
    if n > 0 {
      TriangleClosed(n - 1);
      assert n * (n + 1) == (n - 1) * n + 2 * n;
    }
  }

  ghost predicate HasCommitted(channel: seq<Message>, a: Agent) {
    exists i :: 0 < i < |channel| && channel[i].sender == Some(a)
  }

  lemma CommittedStays(was: seq<Message>, now: seq<Message>, a: Agent)
    requires was <= now && HasCommitted(was, a)
    ensures HasCommitted(now, a)
  {
    var i :| 0 < i < |was| && was[i].sender == Some(a);
    assert now[i].sender == Some(a);
  }

  ghost predicate AllCommitted(channel: seq<Message>, agents: set<Agent>) {
    forall a :: a in agents ==> HasCommitted(channel, a)
  }

  lemma CommittedGrows(was: seq<Message>, now: seq<Message>, agents: set<Agent>, winner: Agent)
    requires AllCommitted(was, agents) && was <= now && was != [] && |now| == |was| + 1
        && now[|was|].sender == Some(winner)
    ensures AllCommitted(now, agents + {winner})
  {
    forall a | a in agents + {winner} ensures HasCommitted(now, a) {
      if a in agents {
        CommittedStays(was, now, a);
      } else {
        assert now[|was|].sender == Some(a);
      }
    }
  }

  /** The books after any number of rounds: who is done, how much was attempted and how much was held. */
  ghost predicate Books(agents: set<Agent>, active: set<Agent>, channel: seq<Message>, attempts: nat, held: nat) {
    && active <= agents && |channel| + |active| == |agents| + 1
    && attempts + Triangle(|active|) == Triangle(|agents|)
    && held + |agents| - |active| == attempts
    && AllCommitted(channel, agents - active)
  }

  lemma RoundKeepsBooks(agents: set<Agent>, active: set<Agent>, was: seq<Message>, now: seq<Message>, attempts: nat,
      held: nat, winner: Agent)
    requires Books(agents, active, was, attempts, held) && winner in active && was <= now && was != []
    requires |now| == |was| + 1 && now[|was|].sender == Some(winner)
    ensures Books(agents, active - {winner}, now, attempts + |active|, held + |active| - 1)
  {
    CommittedGrows(was, now, agents - active, winner);
    assert agents - (active - {winner}) == agents - active + {winner};
    assert |active - {winner}| == |active| - 1;
  }

  lemma BooksAtTheEnd(agents: set<Agent>, channel: seq<Message>, attempts: nat, held: nat)
    requires Books(agents, {}, channel, attempts, held)
    ensures |channel| == |agents| + 1 && AllCommitted(channel, agents)
    ensures 2 * attempts == |agents| * (|agents| + 1) && 2 * held == |agents| * (|agents| - 1)
  {
    TriangleClosed(|agents|);
    assert agents - {} == agents;
  }

  /** N agents finish in N(N+1)/2 attempts, N(N-1)/2 of them held, and commit exactly 1, 2, ..., N. */
  method RunCountingRounds(agents: set<Agent>) returns (channel: AtomicChannel)
    ensures Counted(channel.messages) && |channel.messages| == |agents| + 1
    ensures 2 * channel.attempts == |agents| * (|agents| + 1)
    ensures 2 * channel.held == |agents| * (|agents| - 1)
    ensures AllCommitted(channel.messages, agents)
  {
    channel := new AtomicChannel();
    var active := agents;
    var rows: map<Agent, seq<Message>> := map a | a in agents :: [SEED];
    while active != {}
      invariant fresh(channel) && Counted(channel.messages) && AllUpToDate(channel.messages, active, rows)
      invariant Books(agents, active, channel.messages, channel.attempts, channel.held)
      decreases |active|
    {
      ghost var was, attempts, heldBefore := channel.messages, channel.attempts, channel.held;
      var sent, held, rows' := PlayRound(channel, active, rows);
      RoundKeepsBooks(agents, active, was, channel.messages, attempts, heldBefore, sent[0]);
      assert |held| == |active| - 1;
      active, rows := held, rows';
    }
    BooksAtTheEnd(agents, channel.messages, channel.attempts, channel.held);
  }
}
