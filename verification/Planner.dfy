/**
 The FIFO planner: which leading messages of the Inbox go into one provider turn. `Plan` takes the longest
 deduplicated prefix within three caps; `PlanBoundedBatch` also charges for the text wrapped around it.
 */
module Planner {
  import opened Prelude

  type Id = string
  type Target = seq<string>

  datatype Item = Item(id: Id, target: Target)

  /** A formatted message, its UTF-8 length and the token estimate the estimator gave for it. */
  datatype Cost = Cost(text: string, bytes: nat, tokens: int)

  type Costing = Item -> Cost

  /** The cost of the text around a batch, from its items, the targets left pending and whether more is pending. */
  type Wrapping = (seq<Item>, seq<Target>, bool) -> Cost

  const MAX_MESSAGES: nat := 50
  const MAX_TOKENS: nat := 32_000
  const MAX_BYTES: nat := 96_000

  datatype Cap = TokenCap | ByteCap

  datatype Batch = Batch(
    items: seq<Item>,
    texts: seq<string>,
    targets: seq<Target>,
    pendingTargets: seq<Target>,
    tokens: int,
    bytes: nat,
    more: bool,
    unfitHead: Option<Id>,
    reasons: seq<Cap>)

  datatype Plan = Planned(batch: Batch) | NoPlan | BadEstimate(item: Item)

  // ------------------------------------------------------------- what a plan means

  function Ids(items: seq<Item>): (r: seq<Id>)
    ensures |r| == |items| && forall i :: 0 <= i < |r| ==> r[i] == items[i].id
  {
    seq(|items|, i requires 0 <= i < |items| => items[i].id)
  }

  /** The items whose id is new and not in `skip`, first occurrences only. */
  function Fresh(items: seq<Item>, skip: set<Id>): seq<Item> {
    if items == [] then []
    else
      var front, last := Fresh(items[..|items| - 1], skip), items[|items| - 1];
      if last.id in skip || last.id in Ids(front) then front else front + [last]
  }

  function Unique(items: seq<Item>): seq<Item> {
    Fresh(items, {})
  }

  /** The targets of the items in first-seen order. */
  function Targets(items: seq<Item>): seq<Target> {
    if items == [] then []
    else
      var front, last := Targets(items[..|items| - 1]), items[|items| - 1].target;
      if last in front then front else front + [last]
  }

  function Texts(items: seq<Item>, cost: Costing): seq<string> {
    seq(|items|, i requires 0 <= i < |items| => cost(items[i]).text)
  }

  function Tokens(items: seq<Item>, cost: Costing): int {
    if items == [] then 0 else Tokens(items[..|items| - 1], cost) + cost(items[|items| - 1]).tokens
  }

  function Bytes(items: seq<Item>, cost: Costing): nat {
    Total(items, (item: Item) => cost(item).bytes)
  }

  predicate Fits(items: seq<Item>, cost: Costing) {
    |items| <= MAX_MESSAGES && Tokens(items, cost) <= MAX_TOKENS && Bytes(items, cost) <= MAX_BYTES
  }

  /** The estimator keeps its promise on these items. */
  ghost predicate Measured(items: seq<Item>, cost: Costing) {
    forall i :: 0 <= i < |items| ==> cost(items[i]).tokens >= 0
  }

  /** The first `k` items fit, and one more would not. */
  ghost predicate IsCut(unique: seq<Item>, cost: Costing, k: nat) {
    && k <= |unique| && Fits(unique[..k], cost) && Measured(unique[..k], cost)
    && (k < |unique| ==> cost(unique[k]).tokens >= 0 && !Fits(unique[..k + 1], cost))
  }

  function Reasons(head: Cost): seq<Cap> {
    (if head.tokens > MAX_TOKENS then [TokenCap] else []) + (if head.bytes > MAX_BYTES then [ByteCap] else [])
  }

  ghost predicate IsBatch(items: seq<Item>, cost: Costing, b: Batch) {
    var unique, k := Unique(items), |b.items|;
    && IsCut(unique, cost, k) && b.items == unique[..k]
    && b.texts == Texts(b.items, cost) && b.tokens == Tokens(b.items, cost) && b.bytes == Bytes(b.items, cost)
    && b.targets == Targets(b.items) && b.pendingTargets == Targets(unique[k..])
    && b.more == (k < |unique|)
    && b.unfitHead == (if k == 0 && unique != [] then Some(unique[0].id) else None)
    && b.reasons == (if k == 0 && unique != [] then Reasons(cost(unique[0])) else [])
  }

  // ------------------------------------------------------------- deduplication

  lemma {:induction false} FreshLaws(items: seq<Item>, skip: set<Id>)
    ensures Distinct(Ids(Fresh(items, skip)))
    ensures Elements(Ids(Fresh(items, skip))) == Elements(Ids(items)) - skip
    ensures forall x :: x in Fresh(items, skip) ==> x in items
  {
    if items != [] {
      var front, last := items[..|items| - 1], items[|items| - 1];
      FreshLaws(front, skip);
      assert items == front + [last];
      assert Ids(items) == Ids(front) + [last.id];
      assert Elements(Ids(items)) == Elements(Ids(front)) + {last.id};
      var kept := Fresh(front, skip);
      if last.id !in skip && last.id !in Ids(kept) {
        assert Ids(Fresh(items, skip)) == Ids(kept) + [last.id];
      }
    }
  }

  /** Deduplication keeps, of each id, the oldest row: whatever precedes it has another id. */
  lemma {:induction false} FreshKeepsOldest(items: seq<Item>, skip: set<Id>, i: nat)
    requires i < |items| && items[i].id !in skip && items[i].id !in Ids(items[..i])
    ensures items[i] in Fresh(items, skip)
  {
    var front, last := items[..|items| - 1], items[|items| - 1];
    if i < |front| {
      assert front[..i] == items[..i];
      FreshKeepsOldest(front, skip, i);
    } else {
      FreshLaws(front, skip);
      assert last.id !in Elements(Ids(front));
    }
  }

  lemma {:induction false} DistinctIsUnique(items: seq<Item>)
    requires Distinct(Ids(items))
    ensures Unique(items) == items
  {
    if items != [] {
      var front, last := items[..|items| - 1], items[|items| - 1];
      assert Distinct(Ids(front)) by {
        assert forall i :: 0 <= i < |front| ==> Ids(front)[i] == Ids(items)[i];
      }
      DistinctIsUnique(front);
      assert last.id !in Ids(front) by {
        assert Ids(items)[|front|] == last.id;
        assert forall i :: 0 <= i < |front| ==> Ids(items)[i] == Ids(front)[i];
      }
    }
  }

  lemma {:induction false} FreshOfPrefix(items: seq<Item>, skip: set<Id>, k: nat)
    requires k <= |items|
    ensures Fresh(items[..k], skip) <= Fresh(items, skip)
    decreases |items| - k
  {
    if k < |items| {
      FreshOfPrefix(items, skip, k + 1);
      assert items[..k + 1][..k] == items[..k];
    } else {
      assert items[..k] == items;
    }
  }

  // ------------------------------------------------------------- the longest prefix

  lemma {:induction false} PrefixFits(items: seq<Item>, cost: Costing, j: nat, k: nat)
    requires j <= k <= |items| && Measured(items[..k], cost)
    ensures Tokens(items[..j], cost) <= Tokens(items[..k], cost) && Bytes(items[..j], cost) <= Bytes(items[..k], cost)
    ensures Fits(items[..k], cost) ==> Fits(items[..j], cost)
    decreases k - j
  {
    if j < k {
      assert items[..k][..k - 1] == items[..k - 1];
      assert cost(items[..k][k - 1]).tokens >= 0;
      assert Measured(items[..k - 1], cost) by {
        assert forall i :: 0 <= i < k - 1 ==> items[..k - 1][i] == items[..k][i];
      }
      PrefixFits(items, cost, j, k - 1);
    }
  }

  /** A cut is the longest fitting prefix: every shorter prefix fits and no longer one does. */
  lemma CutIsLongest(unique: seq<Item>, cost: Costing, k: nat, j: nat)
    requires IsCut(unique, cost, k) && Measured(unique, cost) && j <= |unique|
    ensures Fits(unique[..j], cost) <==> j <= k
  {
    if j <= k {
      PrefixFits(unique, cost, j, k);
    } else {
      PrefixFits(unique, cost, k + 1, j);
    }
  }

  lemma CutIsUnique(unique: seq<Item>, cost: Costing, j: nat, k: nat)
    requires IsCut(unique, cost, j) && IsCut(unique, cost, k) && j <= k
    ensures j == k
  {
    if j < k {
      PrefixFits(unique, cost, j + 1, k);
    }
  }

  /** The conditions leave nothing open: two batches for one input are equal. */
  lemma BatchIsDetermined(items: seq<Item>, cost: Costing, a: Batch, b: Batch)
    requires IsBatch(items, cost, a) && IsBatch(items, cost, b)
    ensures a == b
  {
    if |a.items| <= |b.items| {
      CutIsUnique(Unique(items), cost, |a.items|, |b.items|);
    } else {
      CutIsUnique(Unique(items), cost, |b.items|, |a.items|);
    }
  }

  lemma UniqueHead(items: seq<Item>)
    requires items != []
    ensures Unique(items) != [] && Unique(items)[0] == items[0] && Unique(items)[..1] == [items[0]]
  {
    assert items[..1] == [items[0]] && items[..1][..0] == [];
    assert Fresh([], {}) == [] && Ids([]) == [];
    FreshOfPrefix(items, {}, 1);
  }

  /** An unfit head is reported exactly when the oldest message alone breaks the token or the byte cap. */
  lemma UnfitHeadExactly(items: seq<Item>, cost: Costing, b: Batch)
    requires IsBatch(items, cost, b)
    ensures b.unfitHead.Some? <==> items != [] && !Fits([items[0]], cost)
    ensures b.unfitHead.Some? ==> b.unfitHead == Some(items[0].id) && b.items == [] && b.reasons != []
    ensures b.unfitHead.None? && items != [] ==> b.items != [] && b.items[0] == items[0]
  {
    var unique := Unique(items);
    if items != [] {
      UniqueHead(items);
      assert [items[0]][..0] == [];
      if |b.items| >= 1 {
        PrefixFits(unique, cost, 1, |b.items|);
      }
    }
  }

  // ------------------------------------------------------------- the loops

  method DropDuplicates(items: seq<Item>) returns (unique: seq<Item>)
    ensures unique == Unique(items)
  {
    unique := [];
    var seen: set<Id> := {};
    for i := 0 to |items|
      invariant unique == Unique(items[..i]) && seen == Elements(Ids(unique))
    {
      assert items[..i + 1][..i] == items[..i];
      if items[i].id !in seen {
        seen := seen + {items[i].id};
        assert Ids(unique + [items[i]]) == Ids(unique) + [items[i].id];
        unique := unique + [items[i]];
      }
    }
    assert items[..|items|] == items;
  }

  method ProjectTargets(items: seq<Item>) returns (targets: seq<Target>)
    ensures targets == Targets(items)
  {
    targets := [];
    var seen: set<Target> := {};
    for i := 0 to |items|
      invariant targets == Targets(items[..i]) && seen == Elements(targets)
    {
      assert items[..i + 1][..i] == items[..i];
      if items[i].target !in seen {
        seen := seen + {items[i].target};
        targets := targets + [items[i].target];
      }
    }
    assert items[..|items|] == items;
  }

  /** Take items while they fit; stop at the first that does not, or at an estimate below zero. */
  method Select(unique: seq<Item>, cost: Costing)
    returns (k: nat, texts: seq<string>, tokens: int, bytes: nat, bad: bool)
    ensures k <= |unique| && texts == Texts(unique[..k], cost)
    ensures tokens == Tokens(unique[..k], cost) && bytes == Bytes(unique[..k], cost)
    ensures Fits(unique[..k], cost) && Measured(unique[..k], cost)
    ensures bad ==> k < |unique| && cost(unique[k]).tokens < 0
    ensures !bad ==> IsCut(unique, cost, k)
  {
    k, texts, tokens, bytes, bad := 0, [], 0, 0, false;
    while k < |unique|
      invariant k <= |unique| && texts == Texts(unique[..k], cost)
      invariant tokens == Tokens(unique[..k], cost) && bytes == Bytes(unique[..k], cost)
      invariant Fits(unique[..k], cost) && Measured(unique[..k], cost)
    {
      var formatted := cost(unique[k]);
      if formatted.tokens < 0 {
        bad := true;
        return;
      }
      assert unique[..k + 1][..k] == unique[..k];
      if k + 1 > MAX_MESSAGES || tokens + formatted.tokens > MAX_TOKENS || bytes + formatted.bytes > MAX_BYTES {
        return;
      }
      texts, tokens, bytes := texts + [formatted.text], tokens + formatted.tokens, bytes + formatted.bytes;
      k := k + 1;
    }
  }

  /** The batch is the longest fitting FIFO prefix; an estimate below zero among the examined items is an error. */
  method MakePlan(items: seq<Item>, cost: Costing) returns (r: Plan)
    ensures r.Planned? ==> IsBatch(items, cost, r.batch)
    ensures r.BadEstimate? ==> r.item in items && cost(r.item).tokens < 0
    ensures r.BadEstimate? <==> ReachesBadEstimate(Unique(items), cost)
    ensures !r.NoPlan?
  {
    var unique := DropDuplicates(items);
    var k, texts, tokens, bytes, bad := Select(unique, cost);
    if bad {
      FreshLaws(items, {});
      return BadEstimate(unique[k]);
    }
    NoBadEstimateWithin(unique, cost, k);
    var targets := ProjectTargets(unique[..k]);
    var pendingTargets := ProjectTargets(unique[k..]);
    var unfitHead, reasons := None, [];
    if k == 0 && unique != [] {
      unfitHead := Some(unique[0].id);
      var head := cost(unique[0]);
      if head.tokens > MAX_TOKENS {
        reasons := reasons + [TokenCap];
      }
      if head.bytes > MAX_BYTES {
        reasons := reasons + [ByteCap];
      }
    }
    return Planned(Batch(unique[..k], texts, targets, pendingTargets, tokens, bytes, k < |unique|, unfitHead, reasons));
  }

  /** Everything before some item fits, and the estimate for that item is below zero. */
  ghost predicate ReachesBadEstimate(unique: seq<Item>, cost: Costing) {
    exists k: nat ::
      k < |unique| && cost(unique[k]).tokens < 0 && Fits(unique[..k], cost) && Measured(unique[..k], cost)
  }

  lemma NoBadEstimateWithin(unique: seq<Item>, cost: Costing, k: nat)
    requires IsCut(unique, cost, k)
    ensures !ReachesBadEstimate(unique, cost)
  {
    assert forall i :: 0 <= i < k ==> unique[..k][i] == unique[i];
    forall j: nat | k < j < |unique| && Measured(unique[..j], cost) ensures !Fits(unique[..j], cost) {
      PrefixFits(unique, cost, k + 1, j);
    }
  }

  // ------------------------------------------------------------- charging for the wrapper

  /** The targets still pending in the universe once a batch is taken, as the wrapper's summary lists them. */
  ghost predicate Acceptable(items: seq<Item>, universe: seq<Item>, cost: Costing, wrap: Wrapping) {
    var rest := Fresh(universe, Elements(Ids(items)));
    var around := wrap(items, Targets(rest), rest != []);
    && items != [] && Fits(items, cost)
    && Bytes(items, cost) + around.bytes <= MAX_BYTES && Tokens(items, cost) + around.tokens <= MAX_TOKENS
  }

  function Take(items: seq<Item>, maxItems: Option<nat>): (r: seq<Item>)
    ensures r <= items
  {
    if maxItems.Some? && maxItems.value < |items| then items[..maxItems.value] else items
  }

  /** No prefix of `front` longer than `m` is acceptable. */
  ghost predicate NoneBeyond(front: seq<Item>, m: int, universe: seq<Item>, cost: Costing, wrap: Wrapping) {
    forall j :: m < j <= |front| && j >= 0 ==> !Acceptable(front[..j], universe, cost, wrap)
  }

  lemma FreshStep(items: seq<Item>, skip: set<Id>, i: nat)
    requires i < |items|
    ensures var front := Fresh(items[..i], skip);
            Fresh(items[..i + 1], skip) ==
              if items[i].id in skip || items[i].id in Ids(front) then front else front + [items[i]]
  {
    assert items[..i + 1][..i] == items[..i];
  }

  /** The running sets mirror the rows and the targets listed so far. */
  ghost predicate Mirrors(rest: seq<Item>, seen: set<Id>, targets: seq<Target>, seenTargets: set<Target>) {
    seen == Elements(Ids(rest)) && targets == Targets(rest) && seenTargets == Elements(targets)
  }

  lemma MirrorsNext(rest: seq<Item>, seen: set<Id>, targets: seq<Target>, seenTargets: set<Target>, item: Item)
    requires Mirrors(rest, seen, targets, seenTargets)
    ensures item.target in seenTargets ==> Mirrors(rest + [item], seen + {item.id}, targets, seenTargets)
    ensures item.target !in seenTargets ==>
              Mirrors(rest + [item], seen + {item.id}, targets + [item.target], seenTargets + {item.target})
  {
    assert (rest + [item])[..|rest|] == rest;
    assert Ids(rest + [item]) == Ids(rest) + [item.id];
    assert Elements(Ids(rest) + [item.id]) == Elements(Ids(rest)) + {item.id};
    assert Elements(targets + [item.target]) == Elements(targets) + {item.target};
  }

  method RemainingTargets(universe: seq<Item>, selected: seq<Item>) returns (targets: seq<Target>, more: bool)
    ensures targets == Targets(Fresh(universe, Elements(Ids(selected))))
    ensures more == (Fresh(universe, Elements(Ids(selected))) != [])
  {
    var chosen := Elements(Ids(selected));
    var seen: set<Id> := {};
    var seenTargets: set<Target> := {};
    targets := [];
    for i := 0 to |universe|
      invariant Mirrors(Fresh(universe[..i], chosen), seen, targets, seenTargets)
    {
      FreshStep(universe, chosen, i);
      var item := universe[i];
      if item.id !in chosen && item.id !in seen {
        MirrorsNext(Fresh(universe[..i], chosen), seen, targets, seenTargets, item);
        seen := seen + {item.id};
        if item.target !in seenTargets {
          seenTargets := seenTargets + {item.target};
          targets := targets + [item.target];
        }
      }
    }
    assert universe[..|universe|] == universe;
    more := seen != {};
    HeadIsElement(Ids(Fresh(universe, chosen)));
  }

  /** What one pass of the loop below knows: `pending` is a prefix of `front` and nothing longer is acceptable. */
  ghost predicate Narrowed(front: seq<Item>, pending: seq<Item>, universe: seq<Item>, cost: Costing, wrap: Wrapping) {
    && pending <= front
    && (Distinct(Ids(front)) && Measured(front, cost) ==> NoneBeyond(front, |pending|, universe, cost, wrap))
  }

  lemma PrefixDistinct(items: seq<Item>, k: nat)
    requires Distinct(Ids(items)) && k <= |items|
    ensures Distinct(Ids(items[..k]))
  {
    assert forall i :: 0 <= i < k ==> Ids(items[..k])[i] == Ids(items)[i];
  }

  /** A batch that is too large with its wrapper rules out every prefix at least as long as itself. */
  lemma DropSuffix(front: seq<Item>, pending: seq<Item>, universe: seq<Item>, cost: Costing, wrap: Wrapping, b: Batch)
    requires Narrowed(front, pending, universe, cost, wrap) && IsBatch(pending, cost, b)
    requires b.items != [] && !Acceptable(b.items, universe, cost, wrap)
    ensures |b.items| <= |pending| && Narrowed(front, pending[..|b.items| - 1], universe, cost, wrap)
  {
    UniqueIsShorter(pending);
    var k := |b.items|;
    if Distinct(Ids(front)) && Measured(front, cost) {
      CutOfDistinct(front, pending, cost, b);
      forall j | k - 1 < j <= |front| ensures !Acceptable(front[..j], universe, cost, wrap) {
        if k < j <= |pending| {
          assert front[..j] == pending[..j];
          CutIsLongest(pending, cost, k, j);
        } else if j == k {
          assert front[..j] == b.items;
        }
      }
    }
  }

  lemma CutOfDistinct(front: seq<Item>, pending: seq<Item>, cost: Costing, b: Batch)
    requires pending <= front && Distinct(Ids(front)) && Measured(front, cost) && IsBatch(pending, cost, b)
    ensures Unique(pending) == pending && b.items == pending[..|b.items|] && Measured(pending, cost)
  {
    assert pending == front[..|pending|];
    PrefixDistinct(front, |pending|);
    DistinctIsUnique(pending);
    assert forall i :: 0 <= i < |pending| ==> pending[i] == front[i];
  }

  /** The accepted batch is the longest acceptable prefix. */
  lemma AcceptedIsLongest(front: seq<Item>, pending: seq<Item>, universe: seq<Item>, cost: Costing, wrap: Wrapping,
      b: Batch)
    requires Narrowed(front, pending, universe, cost, wrap) && IsBatch(pending, cost, b)
    requires Distinct(Ids(front)) && Measured(front, cost)
    ensures b.items <= front && NoneBeyond(front, |b.items|, universe, cost, wrap)
  {
    CutOfDistinct(front, pending, cost, b);
    forall j | |b.items| < j <= |front| ensures !Acceptable(front[..j], universe, cost, wrap) {
      if j <= |pending| {
        assert front[..j] == pending[..j];
        CutIsLongest(pending, cost, |b.items|, j);
      }
    }
  }

  lemma {:induction false} UniqueIsShorter(items: seq<Item>)
    ensures |Unique(items)| <= |items|
  {
    if items != [] {
      UniqueIsShorter(items[..|items| - 1]);
    }
  }

  /** The durable rows once the ids in `gone` are quarantined, in the same order. */
  function Without(items: seq<Item>, gone: set<Id>): (r: seq<Item>)
    ensures forall x :: x in r <==> x in items && x.id !in gone
    ensures |r| <= |items|
  {
    if items == [] then []
    else
      var front, last := Without(items[..|items| - 1], gone), items[|items| - 1];
      if last.id in gone then front else front + [last]
  }

  lemma {:induction false} WithoutMore(items: seq<Item>, gone: set<Id>, id: Id)
    ensures Without(items, gone + {id}) == Without(Without(items, gone), {id})
    ensures id in Ids(Without(items, gone)) ==> |Without(items, gone + {id})| < |Without(items, gone)|
  {
    if items != [] {
      var front, last := items[..|items| - 1], items[|items| - 1];
      WithoutMore(front, gone, id);
      var kept := Without(front, gone);
      if last.id !in gone {
        assert Without(items, gone) == kept + [last] && (kept + [last])[..|kept|] == kept;
        assert Ids(kept + [last]) == Ids(kept) + [last.id];
      }
    }
  }

  /** Each quarantined id was that of a row too large to fit even alone. */
  ghost predicate Unfit(gone: set<Id>, rows: seq<Item>, cost: Costing) {
    forall id :: id in gone ==> exists head :: head in rows && head.id == id && !Fits([head], cost)
  }

  lemma UnfitMore(gone: set<Id>, rows: seq<Item>, cost: Costing, head: Item)
    requires Unfit(gone, rows, cost) && head in rows && !Fits([head], cost)
    ensures Unfit(gone + {head.id}, rows, cost)
  {
  }

  /** What one pass of the bounded loop concludes. */
  datatype Pass = Accept(batch: Batch) | Shorten(length: nat) | Oversized(id: Id) | Refuse(item: Item)

  /** An accepted batch is an acceptable FIFO prefix, and on distinct rows the longest one. */
  ghost predicate IsAccepted(b: Batch, universe: seq<Item>, front: seq<Item>, cost: Costing, wrap: Wrapping) {
    var rest := Fresh(universe, Elements(Ids(b.items)));
    && Acceptable(b.items, universe, cost, wrap) && Measured(b.items, cost) && b.items <= Unique(front)
    && b.pendingTargets == Targets(rest) && b.more == (rest != [])
    && (Distinct(Ids(front)) && Measured(front, cost) ==> NoneBeyond(front, |b.items|, universe, cost, wrap))
  }

  method TryBatch(universe: seq<Item>, ghost front: seq<Item>, pending: seq<Item>, cost: Costing, wrap: Wrapping)
    returns (pass: Pass)
    requires pending != [] && Narrowed(front, pending, universe, cost, wrap)
    ensures pass.Accept? ==> IsAccepted(pass.batch, universe, front, cost, wrap)
    ensures pass.Shorten? ==> pass.length < |pending| && Narrowed(front, pending[..pass.length], universe, cost, wrap)
    ensures pass.Oversized? <==> cost(pending[0]).tokens >= 0 && !Fits([pending[0]], cost)
    ensures pass.Oversized? ==> pass.id == pending[0].id
    ensures pass.Refuse? ==> pass.item in pending && cost(pass.item).tokens < 0
  {
    var r := MakePlan(pending, cost);
    HeadEstimate(pending, cost, r);
    if r.BadEstimate? {
      return Refuse(r.item);
    }
    var batch := r.batch;
    UnfitHeadExactly(pending, cost, batch);
    if batch.unfitHead.Some? {
      return Oversized(batch.unfitHead.value);
    }
    var remaining, more := RemainingTargets(universe, batch.items);
    var around := wrap(batch.items, remaining, more);
    if batch.bytes + around.bytes <= MAX_BYTES && batch.tokens + around.tokens <= MAX_TOKENS {
      PrefixOfUnique(front, pending, batch.items);
      if Distinct(Ids(front)) && Measured(front, cost) {
        AcceptedIsLongest(front, pending, universe, cost, wrap, batch);
      }
      return Accept(batch.(pendingTargets := remaining, more := more));
    }
    DropSuffix(front, pending, universe, cost, wrap, batch);
    return Shorten(|batch.items| - 1);
  }

  /**
   Plan, resolve an unfit head by quarantining it when the policy and the store agree, re-read the durable rows,
   and give back FIFO suffixes until the batch fits with its wrapper. Terminates because every pass shortens the
   durable list or the pending prefix. Besides the plan it reports the quarantined ids, the rows last planned from
   and whether an unfit head was kept.
   */
  method PlanBoundedBatch(items: seq<Item>, maxItems: Option<nat>, durable: seq<Item>, cost: Costing, wrap: Wrapping)
    returns (r: Plan, durable': seq<Item>, gone: set<Id>, universe: seq<Item>, kept: bool)
    ensures universe == (if gone == {} then items else durable')
    ensures durable' == Without(durable, gone) && Unfit(gone, items + durable, cost)
    ensures gone != {} ==> |durable'| < |durable|
    ensures r.Planned? ==> IsAccepted(r.batch, universe, Take(universe, maxItems), cost, wrap)
    ensures r.NoPlan? && !kept ==>
              var front := Take(universe, maxItems);
              Distinct(Ids(front)) && Measured(front, cost) ==> NoneBeyond(front, 0, universe, cost, wrap)
    ensures r.BadEstimate? ==> r.item in universe && cost(r.item).tokens < 0
    ensures kept ==> r.NoPlan? && universe != [] && !Fits([universe[0]], cost)
    ensures items == [] || Fits([items[0]], cost) ==> gone == {} && !kept
  {
    durable', gone, kept := durable, {}, false;
    NothingGone(durable);
    var all := items;
    universe := all;
    var pending := Take(all, maxItems);
    while pending != []
      invariant universe == all == if gone == {} then items else durable'
      invariant durable' == Without(durable, gone) && Unfit(gone, items + durable, cost)
      invariant gone != {} ==> |durable'| < |durable|
      invariant Narrowed(Take(all, maxItems), pending, all, cost, wrap)
      invariant items == [] || Fits([items[0]], cost) ==> gone == {}
      decreases |durable'|, |pending|
    {
      var pass := TryBatch(all, Take(all, maxItems), pending, cost, wrap);
      match pass {
        case Refuse(item) =>
          return BadEstimate(item), durable', gone, universe, false;
        case Accept(batch) =>
          return Planned(batch), durable', gone, universe, false;
        case Shorten(length) =>
          pending := pending[..length];
        case Oversized(id) =>
          assert pending[0] == all[0];
          var changed: bool := *;
          if !changed || id !in Ids(durable') {
            return NoPlan, durable', gone, universe, true;
          }
          UnfitMore(gone, items + durable, cost, all[0]);
          WithoutMore(durable, gone, id);
          durable', gone := Without(durable', {id}), gone + {id};
          all, universe := durable', durable';
          pending := Take(all, maxItems);
      }
    }
    r := NoPlan;
  }

  /** A head whose estimate is below zero is refused before any cap is looked at. */
  lemma HeadEstimate(pending: seq<Item>, cost: Costing, r: Plan)
    requires pending != []
    requires r.Planned? ==> IsBatch(pending, cost, r.batch)
    requires r.BadEstimate? <==> ReachesBadEstimate(Unique(pending), cost)
    ensures cost(pending[0]).tokens < 0 ==> r.BadEstimate?
    ensures !Fits([pending[0]], cost) && cost(pending[0]).tokens >= 0 ==> !r.BadEstimate?
  {
    var unique := Unique(pending);
    UniqueHead(pending);
    assert unique[..0] == [];
    if ReachesBadEstimate(unique, cost) && cost(pending[0]).tokens >= 0 {
      var k: nat :| k < |unique| && cost(unique[k]).tokens < 0 && Fits(unique[..k], cost)
          && Measured(unique[..k], cost);
      PrefixFits(unique, cost, 1, k);
    }
  }

  lemma {:induction false} NothingGone(items: seq<Item>)
    ensures Without(items, {}) == items
  {
    if items != [] {
      NothingGone(items[..|items| - 1]);
    }
  }

  lemma PrefixOfUnique(front: seq<Item>, pending: seq<Item>, batch: seq<Item>)
    requires pending <= front && batch <= Unique(pending)
    ensures batch <= Unique(front)
  {
    FreshOfPrefix(front, {}, |pending|);
    assert front[..|pending|] == pending;
  }
}
