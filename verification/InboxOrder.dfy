/** The stable Inbox order: position, then server rows before local ones, then ordinal, then identity. */
module InboxOrder {
  import opened Prelude
  import opened InboxModel

  datatype Key = Key(position: int, lane: int, ordinal: int, id: string)

  function OrderKey(id: Id, row: Row): Key {
    Key(
      if row.seqNo.Some? then row.seqNo.value else if row.after.Some? then row.after.value else 0,
      if row.seqNo.Some? then 0 else 1,
      if row.ordinal.Some? then row.ordinal.value else 0,
      id)
  }

  /** Code-point order on strings. */
  predicate StringBelow(a: string, b: string) {
    b != [] && (a == [] || a[0] < b[0] || (a[0] == b[0] && StringBelow(a[1..], b[1..])))
  }

  predicate Below(a: Key, b: Key) {
    if a.position != b.position then a.position < b.position
    else if a.lane != b.lane then a.lane < b.lane
    else if a.ordinal != b.ordinal then a.ordinal < b.ordinal
    else StringBelow(a.id, b.id)
  }

  predicate AtMost(a: Key, b: Key) { a == b || Below(a, b) }

  lemma {:induction false} StringTrichotomy(a: string, b: string)
    ensures !(StringBelow(a, b) && StringBelow(b, a))
    ensures a == b ==> !StringBelow(a, b)
    ensures a != b ==> StringBelow(a, b) || StringBelow(b, a)
    decreases |a|
  {
    if a != [] && b != [] {
      StringTrichotomy(a[1..], b[1..]);
      assert a == [a[0]] + a[1..] && b == [b[0]] + b[1..];
    }
  }

  lemma {:induction false} StringTransitive(a: string, b: string, c: string)
    requires StringBelow(a, b) && StringBelow(b, c)
    ensures StringBelow(a, c)
    decreases |a|
  {
    if a != [] && a[0] == b[0] == c[0] {
      StringTransitive(a[1..], b[1..], c[1..]);
    }
  }

  /** The Inbox order is a strict total order on keys. */
  lemma KeyTrichotomy(a: Key, b: Key)
    ensures !(Below(a, b) && Below(b, a))
    ensures a == b ==> !Below(a, b)
    ensures a != b ==> Below(a, b) || Below(b, a)
  {
    StringTrichotomy(a.id, b.id);
  }

  lemma KeyTransitive(a: Key, b: Key, c: Key)
    requires Below(a, b) && Below(b, c)
    ensures Below(a, c)
  {
    if a.position == b.position == c.position && a.lane == b.lane == c.lane && a.ordinal == b.ordinal == c.ordinal {
      StringTransitive(a.id, b.id, c.id);
    }
  }

  predicate Precedes(messages: map<Id, Row>, a: Id, b: Id) {
    a in messages && b in messages && Below(OrderKey(a, messages[a]), OrderKey(b, messages[b]))
  }

  lemma Comparable(messages: map<Id, Row>, a: Id, b: Id)
    requires a in messages && b in messages && a != b
    ensures Precedes(messages, a, b) != Precedes(messages, b, a)
  {
    KeyTrichotomy(OrderKey(a, messages[a]), OrderKey(b, messages[b]));
  }

  lemma PrecedesTransitive(messages: map<Id, Row>, a: Id, b: Id, c: Id)
    requires Precedes(messages, a, b) && Precedes(messages, b, c)
    ensures Precedes(messages, a, c)
  {
    KeyTransitive(OrderKey(a, messages[a]), OrderKey(b, messages[b]), OrderKey(c, messages[c]));
  }

  /** `ids` lists known rows, strictly upwards in Inbox order. */
  ghost predicate Ascending(messages: map<Id, Row>, ids: seq<Id>) {
    && (forall i :: 0 <= i < |ids| ==> ids[i] in messages)
    && (forall i, j :: 0 <= i < j < |ids| ==> Precedes(messages, ids[i], ids[j]))
  }

  lemma AscendingDistinct(messages: map<Id, Row>, ids: seq<Id>)
    requires Ascending(messages, ids)
    ensures Distinct(ids) && |Elements(ids)| == |ids|
  {
    forall i, j | 0 <= i < j < |ids| ensures ids[i] != ids[j] {
      KeyTrichotomy(OrderKey(ids[i], messages[ids[i]]), OrderKey(ids[j], messages[ids[j]]));
    }
    DistinctIffSize(ids);
  }

  /** The first row of a non-empty selection, found by one scan. */
  method First(messages: map<Id, Row>, ids: set<Id>) returns (m: Id)
    requires ids != {} && ids <= messages.Keys
    ensures m in ids && forall x :: x in ids && x != m ==> Precedes(messages, m, x)
  {
    m :| m in ids;
    var todo := ids - {m};
    while todo != {}
      invariant todo <= ids && m in ids - todo
      invariant forall x :: x in ids - todo && x != m ==> Precedes(messages, m, x)
      decreases |todo|
    {
      var x :| x in todo;
      Comparable(messages, x, m);
      if Below(OrderKey(x, messages[x]), OrderKey(m, messages[m])) {
        forall y | y in ids - todo && y != m ensures Precedes(messages, x, y) {
          PrecedesTransitive(messages, x, m, y);
        }
        m := x;
      }
      todo := todo - {x};
    }
  }

  lemma AscendingNext(messages: map<Id, Row>, ids: seq<Id>, next: Id)
    requires Ascending(messages, ids) && next in messages && forall x :: x in ids ==> Precedes(messages, x, next)
    ensures Ascending(messages, ids + [next])
  {
  }

  /** `ORDER BY`: the selection in Inbox order. */
  method InOrder(messages: map<Id, Row>, ids: set<Id>) returns (rows: seq<Id>)
    requires ids <= messages.Keys
    ensures Ascending(messages, rows) && Elements(rows) == ids
  {
    rows := [];
    var todo := ids;
    while todo != {}
      invariant todo <= ids && Elements(rows) == ids - todo
      invariant Ascending(messages, rows)
      invariant forall x, y :: x in rows && y in todo ==> Precedes(messages, x, y)
      decreases |todo|
    {
      var m := First(messages, todo);
      assert Elements(rows + [m]) == Elements(rows) + {m};
      AscendingNext(messages, rows, m);
      rows := rows + [m];
      todo := todo - {m};
    }
  }
}
