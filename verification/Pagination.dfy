/** Stable Inbox pages: cursors, byte truncation, and what following them to the end delivers. */
module Pagination {
  import opened Prelude
  import opened InboxModel
  import opened InboxOrder
  import opened RowLaws

  const MAX_FORMATTED_BYTES := 96_000

  const BOTTOM := Key(-1, -1, -1, "")

  datatype Cursor = Cursor(target: string, generation: nat, ceiling: Key, last: Key)

  /** `next` is present exactly when more of the snapshot remains. */
  datatype Page = Page(items: seq<Id>, next: Option<Cursor>, remaining: nat, generation: nat, target: string)

  function TargetProjection(row: Row): string {
    match row.place
    case Direct(peer) => "dm:" + peer
    case Channel(space, channel, thread) =>
      var base := "channel:" + space + ":" + channel;
      if thread != "" then base + ":thread:" + thread else base
  }

  /** Pending rows of one target; the empty target selects them all. */
  function Matching(s: Inbox, target: string): set<Id> {
    set id | id in s.messages && s.messages[id].phase == Pending && Listed(s.messages[id])
             && (target == "" || TargetProjection(s.messages[id]) == target)
  }

  /** The part of a snapshot a cursor still owes: above `last`, up to the pinned ceiling. */
  function Window(s: Inbox, target: string, last: Key, ceiling: Key): set<Id> {
    set id | id in Matching(s, target) && Below(last, OrderKey(id, s.messages[id]))
        && AtMost(OrderKey(id, s.messages[id]), ceiling)
  }

  /** The page lists the head of the window in Inbox order, counts the rest, and points just past itself. */
  ghost predicate IsPage(s: Inbox, target: string, last: Key, ceiling: Key, page: Page) {
    var window := Window(s, target, last, ceiling);
    && Ascending(s.messages, page.items) && Elements(page.items) <= window
    && (forall x, y :: x in page.items && y in window - Elements(page.items) ==> Precedes(s.messages, x, y))
    && page.remaining == |window| - |page.items|
    && page.target == target
    && (page.next.Some? <==> page.remaining > 0)
    && (page.next.Some? ==>
          && page.items != []
          && page.next.value.target == target && page.next.value.generation == page.generation
          && page.next.value.last == OrderKey(page.items[|page.items| - 1], s.messages[page.items[|page.items| - 1]])
          && AtMost(page.next.value.ceiling, ceiling)
          && (forall x :: x in window ==> AtMost(OrderKey(x, s.messages[x]), page.next.value.ceiling)))
  }

  lemma AtMostTransitive(a: Key, b: Key, c: Key)
    requires AtMost(a, b) && AtMost(b, c)
    ensures AtMost(a, c)
    ensures Below(a, b) || Below(b, c) ==> Below(a, c)
  {
    if a != b && b != c { KeyTransitive(a, b, c); }
  }

  // -------------------------------------------------------- byte truncation

  /** Add items while the running byte count stays within the guard. */
  method FittingPrefix(items: seq<Id>, size: Id -> nat) returns (i: nat)
    ensures i <= |items| && Total(items[..i], size) <= MAX_FORMATTED_BYTES
    ensures i < |items| ==> Total(items[..i + 1], size) > MAX_FORMATTED_BYTES
    ensures i == 0 <==> items == [] || size(items[0]) > MAX_FORMATTED_BYTES
  {
    i := 0;
    var byteCount := 0;
    while i < |items| && byteCount + size(items[i]) <= MAX_FORMATTED_BYTES
      invariant 0 <= i <= |items| && byteCount == Total(items[..i], size) <= MAX_FORMATTED_BYTES
      invariant i > 0 ==> size(items[0]) <= MAX_FORMATTED_BYTES
    {
      assert items[..i + 1][..i] == items[..i];
      byteCount := byteCount + size(items[i]);
      i := i + 1;
    }
    assert i < |items| ==> items[..i + 1][..i] == items[..i];
  }

  /**
   Cut a page to the byte guard. The result is the longest prefix that fits and is again a page of
   the same window, with an exact count of what it leaves out; only an oversized head is refused.
   */
  method ProjectInboxPage(s: Inbox, page: Page, size: Id -> nat, ghost last: Key, ghost ceiling: Key)
    returns (r: Option<Page>)
    requires IsPage(s, page.target, last, ceiling, page)
    ensures r.None? <==> page.items != [] && size(page.items[0]) > MAX_FORMATTED_BYTES
    ensures r.Some? ==>
              && IsPage(s, page.target, last, ceiling, r.value)
              && r.value.items <= page.items
              && Total(r.value.items, size) <= MAX_FORMATTED_BYTES
              && (r.value.items != page.items ==>
                    Total(page.items[..|r.value.items| + 1], size) > MAX_FORMATTED_BYTES)
  {
    var i := FittingPrefix(page.items, size);
    if i == |page.items| {
      assert page.items[..i] == page.items;
      return Some(page);
    }
    if i == 0 {
      return None;
    }
    CutIsPage(s, page, i, last, ceiling);
    r := Some(Cut(s, page, i));
  }

  /** The first `i` items of a page; the ceiling stays pinned, or is pinned at the page's own end. */
  function Cut(s: Inbox, page: Page, i: nat): Page
    requires 0 < i < |page.items| && forall x :: x in page.items ==> x in s.messages
  {
    var tail, end := page.items[i - 1], page.items[|page.items| - 1];
    var pinned := if page.next.Some? then page.next.value.ceiling else OrderKey(end, s.messages[end]);
    var next := Cursor(page.target, page.generation, pinned, OrderKey(tail, s.messages[tail]));
    Page(page.items[..i], Some(next), page.remaining + |page.items| - i, page.generation, page.target)
  }

  lemma CutIsPage(s: Inbox, page: Page, i: nat, last: Key, ceiling: Key)
    requires IsPage(s, page.target, last, ceiling, page)
    requires 0 < i < |page.items|
    ensures forall x :: x in page.items ==> x in s.messages
    ensures IsPage(s, page.target, last, ceiling, Cut(s, page, i))
  {
    assert forall x :: x in page.items ==> x in Elements(page.items);
    AscendingDistinct(s.messages, page.items);
    CutPrecedesRest(s, page, i, last, ceiling);
    if page.next.None? { LastIsCeiling(s, page, last, ceiling); }
  }

  lemma CutPrecedesRest(s: Inbox, page: Page, i: nat, last: Key, ceiling: Key)
    requires IsPage(s, page.target, last, ceiling, page) && i < |page.items|
    ensures forall x, y ::
        x in page.items[..i] && y in Window(s, page.target, last, ceiling) - Elements(page.items[..i]) ==>
              Precedes(s.messages, x, y)
  {
    var window := Window(s, page.target, last, ceiling);
    var cut := page.items[..i];
    assert forall k :: 0 <= k < i ==> page.items[k] == cut[k] && cut[k] in Elements(cut);
    forall x, y | x in cut && y in window - Elements(cut) ensures Precedes(s.messages, x, y) {
      var k :| 0 <= k < i && page.items[k] == x;
      if y in page.items {
        var j :| 0 <= j < |page.items| && page.items[j] == y;
        assert k < j;
      } else {
        assert x in page.items;
      }
    }
  }

  lemma LastIsCeiling(s: Inbox, page: Page, last: Key, ceiling: Key)
    requires IsPage(s, page.target, last, ceiling, page) && page.next.None? && page.items != []
    ensures var tail := page.items[|page.items| - 1];
            && AtMost(OrderKey(tail, s.messages[tail]), ceiling)
            && forall x :: x in Window(s, page.target, last, ceiling) ==>
                AtMost(OrderKey(x, s.messages[x]), OrderKey(tail, s.messages[tail]))
  {
    var window := Window(s, page.target, last, ceiling);
    var tail := page.items[|page.items| - 1];
    AscendingDistinct(s.messages, page.items);
    SubsetSize(Elements(page.items), window);
    assert tail in window;
    forall x | x in window ensures AtMost(OrderKey(x, s.messages[x]), OrderKey(tail, s.messages[tail])) {
      var j :| 0 <= j < |page.items| && page.items[j] == x;
      assert j < |page.items| - 1 ==> Precedes(s.messages, page.items[j], tail);
    }
  }

  // ------------------------------------------------------ following cursors

  datatype PageRead = PageRead(s: Inbox, page: Page)

  /** Each page after the first was read with the cursor of the one before. */
  ghost predicate Followed(trail: seq<PageRead>, target: string, ceiling: Key) {
    if |trail| == 0 then false
    else if |trail| == 1 then IsPage(trail[0].s, target, BOTTOM, ceiling, trail[0].page)
    else
      && Followed(trail[..|trail| - 1], target, ceiling)
      && trail[|trail| - 2].page.next.Some?
      && ContinuesAt(trail[|trail| - 2].page.next.value, trail[|trail| - 1])
  }

  ghost predicate ContinuesAt(c: Cursor, r: PageRead) {
    IsPage(r.s, c.target, c.last, c.ceiling, r.page)
  }

  /** Live rows up to the ceiling were there, in place, at the first page, and no row pending then has moved. */
  ghost predicate SameBelow(first: Inbox, s: Inbox, ceiling: Key) {
    && (forall id ::
        id in s.messages && s.messages[id].phase != Settled && AtMost(OrderKey(id, s.messages[id]), ceiling) ==>
          KeptRow(first, s, id))
    && (forall id :: id in first.messages && first.messages[id].phase == Pending ==>
          KeptRow(first, s, id) && !Promotable(s.messages[id]))
  }

  ghost predicate KeptRow(first: Inbox, s: Inbox, id: Id) {
    && id in first.messages && id in s.messages
    && OrderKey(id, first.messages[id]) == OrderKey(id, s.messages[id])
    && TargetProjection(first.messages[id]) == TargetProjection(s.messages[id])
  }

  function Returned(trail: seq<PageRead>): seq<Id> {
    if trail == [] then [] else Returned(trail[..|trail| - 1]) + trail[|trail| - 1].page.items
  }

  /** What a followed prefix has delivered: ascending rows of the first snapshot, ending where the cursor points. */
  ghost predicate Progress(first: Inbox, got: seq<Id>, page: Page, target: string, ceiling: Key) {
    && Ascending(first.messages, got)
    && (page.next.Some? ==>
          && AtMost(page.next.value.ceiling, ceiling) && page.next.value.target == target
          && (forall id :: id in got ==> AtMost(OrderKey(id, first.messages[id]), page.next.value.last)))
  }

  lemma ProgressStep(first: Inbox, got: seq<Id>, was: Page, r: PageRead, target: string, ceiling: Key)
    requires Progress(first, got, was, target, ceiling) && was.next.Some? && ContinuesAt(was.next.value, r)
    requires SameBelow(first, r.s, ceiling)
    ensures Progress(first, got + r.page.items, r.page, target, ceiling)
  {
    var c, page := was.next.value, r.page;
    PageAscends(first, r.s, target, c.last, c.ceiling, ceiling, page);
    forall x, y | x in got && y in page.items ensures Precedes(first.messages, x, y) {
      AtMostTransitive(OrderKey(x, first.messages[x]), c.last, OrderKey(y, first.messages[y]));
    }
    AscendingAppend(first.messages, got, page.items);
    if page.next.Some? {
      AtMostTransitive(page.next.value.ceiling, c.ceiling, ceiling);
      var y := page.items[|page.items| - 1];
      assert y in page.items;
      forall x | x in got ensures AtMost(OrderKey(x, first.messages[x]), page.next.value.last) {
        assert Precedes(first.messages, x, y);
      }
    }
  }

  lemma {:induction false} ReturnedSoFar(trail: seq<PageRead>, target: string, ceiling: Key)
    requires Followed(trail, target, ceiling)
    requires forall i :: 0 <= i < |trail| ==> SameBelow(trail[0].s, trail[i].s, ceiling)
    ensures Progress(trail[0].s, Returned(trail), trail[|trail| - 1].page, target, ceiling)
    ensures |Returned(trail)| >= if trail[|trail| - 1].page.next.Some? then |trail| else |trail| - 1
  {
    var n := |trail| - 1;
    var front := trail[..n];
    if n == 0 {
      assert Returned(trail) == Returned([]) + trail[0].page.items == trail[0].page.items;
      PageAscends(trail[0].s, trail[0].s, target, BOTTOM, ceiling, ceiling, trail[0].page);
    } else {
      ReturnedSoFar(front, target, ceiling);
      ProgressStep(trail[0].s, Returned(front), trail[n - 1].page, trail[n], target, ceiling);
    }
  }

  lemma PageRowsKept(first: Inbox, s: Inbox, target: string, from: Key, ceiling: Key, pinned: Key, page: Page)
    requires IsPage(s, target, from, ceiling, page) && AtMost(ceiling, pinned) && SameBelow(first, s, pinned)
    ensures forall id :: id in page.items ==>
              && KeptRow(first, s, id)
              && Below(from, OrderKey(id, first.messages[id])) && AtMost(OrderKey(id, first.messages[id]), pinned)
  {
    forall id | id in page.items ensures KeptRow(first, s, id) && AtMost(OrderKey(id, s.messages[id]), pinned) {
      assert id in Window(s, target, from, ceiling);
      AtMostTransitive(OrderKey(id, s.messages[id]), ceiling, pinned);
    }
  }

  lemma PageEndsAtLast(s: Inbox, target: string, from: Key, ceiling: Key, page: Page, id: Id)
    requires IsPage(s, target, from, ceiling, page) && page.next.Some? && id in page.items
    ensures AtMost(OrderKey(id, s.messages[id]), page.next.value.last)
  {
    var i :| 0 <= i < |page.items| && page.items[i] == id;
    assert i < |page.items| - 1 ==> Precedes(s.messages, page.items[i], page.items[|page.items| - 1]);
  }

  /** One page, seen from the first snapshot. */
  lemma PageAscends(first: Inbox, s: Inbox, target: string, from: Key, ceiling: Key, pinned: Key, page: Page)
    requires IsPage(s, target, from, ceiling, page) && AtMost(ceiling, pinned) && SameBelow(first, s, pinned)
    ensures Ascending(first.messages, page.items)
    ensures forall id :: id in page.items ==>
              && KeptRow(first, s, id)
              && Below(from, OrderKey(id, first.messages[id])) && AtMost(OrderKey(id, first.messages[id]), pinned)
    ensures page.next.Some? ==>
              forall id :: id in page.items ==> AtMost(OrderKey(id, first.messages[id]), page.next.value.last)
  {
    PageRowsKept(first, s, target, from, ceiling, pinned, page);
    forall i | 0 <= i < |page.items| ensures page.items[i] in first.messages {
      assert KeptRow(first, s, page.items[i]);
    }
    forall i, j | 0 <= i < j < |page.items| ensures Precedes(first.messages, page.items[i], page.items[j]) {
      assert Precedes(s.messages, page.items[i], page.items[j]);
      assert KeptRow(first, s, page.items[i]) && KeptRow(first, s, page.items[j]);
    }
    if page.next.Some? {
      forall id | id in page.items ensures AtMost(OrderKey(id, first.messages[id]), page.next.value.last) {
        PageEndsAtLast(s, target, from, ceiling, page, id);
      }
    }
  }

  lemma AscendingAppend(messages: map<Id, Row>, a: seq<Id>, b: seq<Id>)
    requires Ascending(messages, a) && Ascending(messages, b)
    requires forall x, y :: x in a && y in b ==> Precedes(messages, x, y)
    ensures Ascending(messages, a + b)
  {
    var c := a + b;
    forall i, j | 0 <= i < j < |c| ensures Precedes(messages, c[i], c[j]) {
      if i < |a| <= j { assert c[i] in a && c[j] in b; }
    }
  }

  /** Cursors followed over unmoved rows return none twice, in Inbox order, within one page per row plus one. */
  lemma TrailRepeatsNothing(trail: seq<PageRead>, target: string, ceiling: Key)
    requires Followed(trail, target, ceiling)
    requires forall i :: 0 <= i < |trail| ==> SameBelow(trail[0].s, trail[i].s, ceiling)
    ensures Ascending(trail[0].s.messages, Returned(trail)) && Distinct(Returned(trail))
    ensures |trail| <= |trail[0].s.messages| + 1
  {
    ReturnedSoFar(trail, target, ceiling);
    AscendingDistinct(trail[0].s.messages, Returned(trail));
    SubsetSize(Elements(Returned(trail)), trail[0].s.messages.Keys);
  }

  /** The page's cursor still promises the row. */
  ghost predicate Owes(first: Inbox, page: Page, id: Id) {
    && id in first.messages && page.next.Some?
    && Below(page.next.value.last, OrderKey(id, first.messages[id]))
    && AtMost(OrderKey(id, first.messages[id]), page.next.value.ceiling)
  }

  /** At every page of the trail the row is either already returned or still pending under the target. */
  ghost predicate StaysPending(trail: seq<PageRead>, target: string, id: Id) {
    if trail == [] then true
    else
      var front := trail[..|trail| - 1];
      && StaysPending(front, target, id)
      && (id in Matching(trail[|trail| - 1].s, target) || id in Returned(front))
  }

  /** A row the snapshot owed is still owed by the cursor until it is returned. */
  lemma {:induction false} OwedUntilReturned(trail: seq<PageRead>, target: string, ceiling: Key, id: Id)
    requires Followed(trail, target, ceiling)
    requires forall i :: 0 <= i < |trail| ==> SameBelow(trail[0].s, trail[i].s, ceiling)
    requires id in Window(trail[0].s, target, BOTTOM, ceiling)
    requires StaysPending(trail, target, id)
    ensures id in Returned(trail) || Owes(trail[0].s, trail[|trail| - 1].page, id)
  {
    var n := |trail| - 1;
    var front := trail[..n];
    assert KeptRow(trail[0].s, trail[n].s, id);
    if n == 0 {
      OwedByPage(trail[0].s, trail[0].s, target, BOTTOM, ceiling, trail[0].page, id);
    } else {
      OwedUntilReturned(front, target, ceiling, id);
      ReturnedSoFar(front, target, ceiling);
      if id !in Returned(front) {
        var c := trail[n - 1].page.next.value;
        OwedByPage(trail[0].s, trail[n].s, target, c.last, c.ceiling, trail[n].page, id);
      }
    }
  }

  /** A pending row inside the cursor's range is on the page, or owed by the next cursor. */
  lemma OwedByPage(first: Inbox, s: Inbox, target: string, from: Key, top: Key, page: Page, id: Id)
    requires IsPage(s, target, from, top, page)
    requires KeptRow(first, s, id) && id in Matching(s, target)
    requires Below(from, OrderKey(id, first.messages[id])) && AtMost(OrderKey(id, first.messages[id]), top)
    ensures id in page.items || Owes(first, page, id)
  {
    var window := Window(s, target, from, top);
    assert id in window;
    AscendingDistinct(s.messages, page.items);
    SubsetSize(Elements(page.items), window);
    if id !in page.items {
      assert page.next.Some?;
      var y := page.items[|page.items| - 1];
      assert y in page.items && Precedes(s.messages, y, id);
    }
  }

  // ------------------------------------------------------ pages along a run

  /** An arrival at or below the ceiling: the only transaction that could disturb the pinned snapshot. */
  predicate Intrudes(s: Inbox, step: Step, ceiling: Key) {
    || (step.IngestStep? && step.row.phase == Pending && AtMost(OrderKey(step.id, step.row), ceiling))
    || (step.PromoteStep? && step.id in s.messages
        && AtMost(OrderKey(step.id, Released(s.messages[step.id], step.ordinal, step.after)), ceiling))
  }

  /** No transaction but such an arrival disturbs the snapshot below the ceiling. */
  lemma StepKeepsBelow(first: Inbox, s: Inbox, step: Step, ceiling: Key)
    requires SameBelow(first, s, ceiling) && !Intrudes(s, step, ceiling)
    ensures SameBelow(first, Apply(s, step), ceiling)
  {
    var s' := Apply(s, step);
    forall id | id in s'.messages && s'.messages[id].phase != Settled && AtMost(OrderKey(id, s'.messages[id]), ceiling)
      ensures KeptRow(first, s', id)
    {
      LiveRowKept(first, s, step, ceiling, id);
    }
    forall id | id in first.messages && first.messages[id].phase == Pending
      ensures KeptRow(first, s', id) && !Promotable(s'.messages[id])
    {
      PendingRowKept(first, s, step, ceiling, id);
    }
  }

  lemma PendingRowKept(first: Inbox, s: Inbox, step: Step, ceiling: Key, id: Id)
    requires SameBelow(first, s, ceiling) && id in first.messages && first.messages[id].phase == Pending
    ensures KeptRow(first, Apply(s, step), id) && !Promotable(Apply(s, step).messages[id])
  {
    assert KeptRow(first, s, id);
    KnownRowMoves(s, step, id);
  }

  lemma LiveRowKept(first: Inbox, s: Inbox, step: Step, ceiling: Key, id: Id)
    requires SameBelow(first, s, ceiling) && !Intrudes(s, step, ceiling)
    requires id in Apply(s, step).messages && Apply(s, step).messages[id].phase != Settled
    requires AtMost(OrderKey(id, Apply(s, step).messages[id]), ceiling)
    ensures KeptRow(first, Apply(s, step), id)
  {
    if id in s.messages {
      KnownRowMoves(s, step, id);
      KnownRowKept(first, s, step, ceiling, id, Apply(s, step).messages[id]);
    } else {
      NewRowIngested(s, step, id);
    }
  }

  /** A known live row below the ceiling was not promoted there, so it was live and in place before. */
  lemma KnownRowKept(first: Inbox, s: Inbox, step: Step, ceiling: Key, id: Id, row': Row)
    requires SameBelow(first, s, ceiling) && !Intrudes(s, step, ceiling) && id in s.messages
    requires Moved(s.messages[id], row', step, id) && row'.phase != Settled && AtMost(OrderKey(id, row'), ceiling)
    ensures KeptRow(first, s, id) && SamePosition(s.messages[id], row') && row'.place == s.messages[id].place
  {
  }

  /** No transaction of the run is an arrival at or below the ceiling. */
  ghost predicate ArrivesAbove(s: Inbox, steps: seq<Step>, ceiling: Key) {
    forall k :: 0 <= k < |steps| ==> !Intrudes(Run(s, steps[..k]), steps[k], ceiling)
  }

  lemma {:induction false} BelowAlongRun(s: Inbox, steps: seq<Step>, ceiling: Key, k: nat)
    requires ArrivesAbove(s, steps, ceiling) && k <= |steps|
    ensures SameBelow(s, Run(s, steps[..k]), ceiling)
  {
    if k > 0 {
      BelowAlongRun(s, steps, ceiling, k - 1);
      assert steps[..k][..k - 1] == steps[..k - 1];
      StepKeepsBelow(s, Run(s, steps[..k - 1]), steps[k - 1], ceiling);
    }
  }

  /** The pages were read, each with the cursor before it, at the moments `at` of the run. */
  ghost predicate ReadAlong(s: Inbox, steps: seq<Step>, at: seq<nat>, trail: seq<PageRead>, target: string,
      ceiling: Key) {
    && |at| == |trail| && Followed(trail, target, ceiling) && at[0] == 0
    && (forall i, j :: 0 <= i <= j < |at| ==> at[i] <= at[j] <= |steps|)
    && (forall i :: 0 <= i < |trail| ==> trail[i].s == Run(s, steps[..at[i]]))
  }

  lemma ReadAlongIsSteady(s: Inbox, steps: seq<Step>, at: seq<nat>, trail: seq<PageRead>, target: string, ceiling: Key)
    requires ReadAlong(s, steps, at, trail, target, ceiling) && ArrivesAbove(s, steps, ceiling)
    ensures trail[0].s == s && forall i :: 0 <= i < |trail| ==> SameBelow(trail[0].s, trail[i].s, ceiling)
  {
    assert steps[..0] == [];
    forall i | 0 <= i < |trail| ensures SameBelow(s, trail[i].s, ceiling) {
      BelowAlongRun(s, steps, ceiling, at[i]);
    }
  }

  /**
   Along every run whose arrivals sort above the ceiling, following cursors returns rows in the order of the first
   snapshot, none twice, and ends within one page per row plus one.
   */
  lemma PagesRepeatNothing(s: Inbox, steps: seq<Step>, at: seq<nat>, trail: seq<PageRead>, target: string, ceiling: Key)
    requires ReadAlong(s, steps, at, trail, target, ceiling) && ArrivesAbove(s, steps, ceiling)
    ensures Ascending(s.messages, Returned(trail)) && Distinct(Returned(trail)) && |trail| <= |s.messages| + 1
  {
    ReadAlongIsSteady(s, steps, at, trail, target, ceiling);
    TrailRepeatsNothing(trail, target, ceiling);
  }

  /** The k-th transaction takes the row out of the target's pending rows. */
  ghost predicate TakesOut(s: Inbox, steps: seq<Step>, k: nat, id: Id, target: string)
    requires k < |steps|
  {
    id in Matching(Run(s, steps[..k]), target) && id !in Matching(Run(s, steps[..k + 1]), target)
  }

  lemma {:induction false} PendingUntilTakenOut(s: Inbox, steps: seq<Step>, k: nat, id: Id, target: string)
    requires k <= |steps| && id in Matching(s, target)
    requires forall i: nat :: i < k ==> !TakesOut(s, steps, i, id, target)
    ensures id in Matching(Run(s, steps[..k]), target)
  {
    if k > 0 {
      PendingUntilTakenOut(s, steps, k - 1, id, target);
      assert !TakesOut(s, steps, k - 1, id, target);
    } else {
      assert steps[..0] == [];
    }
  }

  /** The row leaves the Inbox, if at all, only after a page has returned it. */
  ghost predicate TakenOnlyOnceReturned(
    s: Inbox, steps: seq<Step>, at: seq<nat>, trail: seq<PageRead>, target: string, id: Id)
    requires |at| == |trail|
  {
    forall k: nat :: k < |steps| && TakesOut(s, steps, k, id, target) ==>
      exists j :: 0 <= j < |trail| && at[j] <= k && id in trail[j].page.items
  }

  lemma {:induction false} PageInReturned(trail: seq<PageRead>, j: nat, id: Id)
    requires j < |trail| && id in trail[j].page.items
    ensures id in Returned(trail)
  {
    if j < |trail| - 1 {
      PageInReturned(trail[..|trail| - 1], j, id);
    }
  }

  lemma PendingUntilReturned(
    s: Inbox, steps: seq<Step>, at: seq<nat>, trail: seq<PageRead>, target: string, ceiling: Key, id: Id, n: nat)
    requires ReadAlong(s, steps, at, trail, target, ceiling) && TakenOnlyOnceReturned(s, steps, at, trail, target, id)
    requires id in Matching(s, target) && n < |trail|
    ensures id in Matching(trail[n].s, target) || id in Returned(trail[..n])
  {
    if id !in Returned(trail[..n]) {
      forall k: nat | k < at[n] ensures !TakesOut(s, steps, k, id, target) {
        if TakesOut(s, steps, k, id, target) {
          var j :| 0 <= j < |trail| && at[j] <= k && id in trail[j].page.items;
          assert j < n;
          PageInReturned(trail[..n], j, id);
        }
      }
      PendingUntilTakenOut(s, steps, at[n], id, target);
    }
  }

  lemma {:induction false} StaysPendingAlong(
    s: Inbox, steps: seq<Step>, at: seq<nat>, trail: seq<PageRead>, target: string, ceiling: Key, id: Id, n: nat)
    requires ReadAlong(s, steps, at, trail, target, ceiling) && TakenOnlyOnceReturned(s, steps, at, trail, target, id)
    requires id in Matching(s, target) && n <= |trail|
    ensures StaysPending(trail[..n], target, id)
  {
    if n > 0 {
      StaysPendingAlong(s, steps, at, trail, target, ceiling, id, n - 1);
      assert trail[..n][..n - 1] == trail[..n - 1];
      PendingUntilReturned(s, steps, at, trail, target, ceiling, id, n - 1);
    }
  }

  /**
   Along every such run, a row of the first snapshot that is taken out of the Inbox at most after being returned is
   returned by the time a page announces nothing more (and by `PagesRepeatNothing` exactly once).
   */
  lemma PagesLoseNothing(
    s: Inbox, steps: seq<Step>, at: seq<nat>, trail: seq<PageRead>, target: string, ceiling: Key, id: Id)
    requires ReadAlong(s, steps, at, trail, target, ceiling) && ArrivesAbove(s, steps, ceiling)
    requires id in Window(s, target, BOTTOM, ceiling) && TakenOnlyOnceReturned(s, steps, at, trail, target, id)
    requires trail[|trail| - 1].page.next.None?
    ensures id in Returned(trail)
  {
    ReadAlongIsSteady(s, steps, at, trail, target, ceiling);
    StaysPendingAlong(s, steps, at, trail, target, ceiling, id, |trail|);
    assert trail[..|trail|] == trail;
    OwedUntilReturned(trail, target, ceiling, id);
  }
}
