/**
 * Structural merge of selected package requests (apps/api-rust/src/allocation.rs): actions and ordinary
 * instruction lists are appended, while dynamic-margin entries that are already listed are not listed again.
 */
module Merging {
  import opened Common
  import opened Plans

  datatype MergeError = NotOneBook | OtherScenarios

  // ---------------------------------------------------------------- lists

  /** Appends the entries of xs that are not there yet. */
  function AddNew(l: seq<Json>, xs: seq<Json>): seq<Json>
    decreases |xs|
  {
    if xs == [] then l else AddNew(if xs[0] in l then l else l + [xs[0]], xs[1..])
  }

  function Added(kind: Kind, l: seq<Json>, xs: seq<Json>): seq<Json> {
    if kind == DynamicMargin then AddNew(l, xs) else l + xs
  }

  /** The entries of xs at positions where neither l nor xs has them before. */
  function Firsts(l: seq<Json>, xs: seq<Json>): seq<Json> {
    if xs == [] then []
    else
      var before, x := xs[..|xs| - 1], xs[|xs| - 1];
      Firsts(l, before) + if x in l || x in before then [] else [x]
  }

  lemma {:induction false} AddNewThen(l: seq<Json>, xs: seq<Json>, ys: seq<Json>)
    ensures AddNew(AddNew(l, xs), ys) == AddNew(l, xs + ys)
    decreases |xs|
  {
    if xs == [] {
      assert xs + ys == ys;
    } else {
      AddNewThen(if xs[0] in l then l else l + [xs[0]], xs[1..], ys);
      assert (xs + ys)[1..] == xs[1..] + ys;
    }
  }

  lemma {:induction false} AddNewHas(l: seq<Json>, xs: seq<Json>, x: Json)
    ensures x in AddNew(l, xs) <==> x in l || x in xs
    decreases |xs|
  {
    if xs != [] {
      AddNewHas(if xs[0] in l then l else l + [xs[0]], xs[1..], x);
      assert xs == [xs[0]] + xs[1..];
    }
  }

  /** The dynamic-margin rule in closed form: the list, then the first occurrences of unseen entries. */
  lemma {:induction false} AddsFirsts(l: seq<Json>, xs: seq<Json>)
    ensures AddNew(l, xs) == l + Firsts(l, xs)
  {
    if xs != [] {
      var before, x := xs[..|xs| - 1], xs[|xs| - 1];
      assert xs == before + [x];
      AddNewThen(l, before, [x]);
      AddNewHas(l, before, x);
      AddsFirsts(l, before);
    }
  }

  /** Entries already present can be left out of what is added. */
  lemma {:induction false} AddNewSkips(l: seq<Json>, seen: seq<Json>, xs: seq<Json>)
    requires forall x <- seen :: x in l
    ensures AddNew(l, Firsts(seen, xs)) == AddNew(l, xs)
  {
    if xs != [] {
      var before, x := xs[..|xs| - 1], xs[|xs| - 1];
      assert xs == before + [x];
      AddNewSkips(l, seen, before);
      AddNewThen(l, before, [x]);
      AddNewHas(l, before, x);
      if x in seen || x in before {
        assert Firsts(seen, xs) == Firsts(seen, before);
        assert x in AddNew(l, before);
        assert AddNew(AddNew(l, before), [x]) == AddNew(AddNew(l, before), []);
      } else {
        AddNewThen(l, Firsts(seen, before), [x]);
      }
    }
  }

  lemma AddedAssociative(kind: Kind, a: seq<Json>, b: seq<Json>, c: seq<Json>)
    ensures Added(kind, Added(kind, a, b), c) == Added(kind, a, Added(kind, b, c)) == Added(kind, a, b + c)
  {
    if kind == DynamicMargin {
      AddNewThen(a, b, c);
      AddsFirsts(b, c);
      AddNewThen(a, b, Firsts(b, c));
      forall x | x in b ensures x in AddNew(a, b) { AddNewHas(a, b, x); }
      AddNewSkips(AddNew(a, b), b, c);
    } else {
      assert (a + b) + c == a + (b + c);
    }
  }

  // ---------------------------------------------------------------- one kind of one block

  function SlotAt(b: Block, kind: Kind): Option<Json> { if kind in b.slots then Some(b.slots[kind]) else None }

  predicate IsList(slot: Option<Json>) { slot.Some? && slot.value.Arr? }

  function ListIn(slot: Option<Json>): seq<Json> { if IsList(slot) then slot.value.items else [] }

  /** A list extends the list of that kind, making one if there is none; anything else is left alone. */
  function MergeSlot(kind: Kind, into: Option<Json>, from: Option<Json>): Option<Json> {
    if !IsList(from) || (into.Some? && !into.value.Arr?) then into
    else Some(Arr(Added(kind, ListIn(into), from.value.items)))
  }

  /** A value that is not a list stands between a list and what would extend it. */
  ghost predicate Stray(kind: Kind, a: Option<Json>, b: Option<Json>, c: Option<Json>) {
    b.Some? && !IsList(b) && MergeSlot(kind, a, c) != a
  }

  lemma SlotAssociative(kind: Kind, a: Option<Json>, b: Option<Json>, c: Option<Json>)
    ensures MergeSlot(kind, MergeSlot(kind, a, b), c) == MergeSlot(kind, a, MergeSlot(kind, b, c))
       <==> !Stray(kind, a, b, c)
  {
    AddedAssociative(kind, ListIn(a), ListIn(b), ListIn(c));
    AddedAssociative(kind, ListIn(a), [], ListIn(c));
    assert [] + ListIn(c) == ListIn(c);
  }

  // ---------------------------------------------------------------- requests

  function MergeBlock(into: Block, from: Block): Block {
    Block(into.fixed,
          map kind | kind in into.slots.Keys + from.slots.Keys && MergeSlot(kind, SlotAt(into, kind), SlotAt(from, kind)).Some?
            :: MergeSlot(kind, SlotAt(into, kind), SlotAt(from, kind)).value)
  }

  function MergeBlocks(into: seq<Block>, from: seq<Block>): seq<Block>
    requires |into| == |from|
  {
    seq(|into|, k requires 0 <= k < |into| => MergeBlock(into[k], from[k]))
  }

  predicate OneBook(a: Request, b: Request) {
    a.records == b.records && a.dated == b.dated && a.hedgeContracts == b.hedgeContracts
  }

  /** The two requests can be merged. */
  predicate Sharing(a: Request, b: Request) { OneBook(a, b) && |a.acquisitions| == |b.acquisitions| }

  function Both(a: Request, b: Request): Request
    requires Sharing(a, b)
  {
    a.(actions := a.actions + b.actions, acquisitions := MergeBlocks(a.acquisitions, b.acquisitions))
  }

  function Join(a: Request, b: Request): Result<Request, MergeError> {
    if !OneBook(a, b) then Refused(NotOneBook)
    else if |a.acquisitions| != |b.acquisitions| then Refused(OtherScenarios) else Ok(Both(a, b))
  }

  function MergeAll(acc: Request, tail: seq<Request>): Result<Request, MergeError>
    decreases |tail|
  {
    if tail == [] then Ok(acc)
    else match Join(acc, tail[0]) case Refused(e) => Refused(e) case Ok(m) => MergeAll(m, tail[1..])
  }

  /** The merge of the selected requests; the base alone when nothing is selected. */
  function Merge(base: Request, selected: seq<Request>): Result<Request, MergeError> {
    if selected == [] then Ok(base) else MergeAll(selected[0], selected[1..])
  }

  // ---------------------------------------------------------------- associativity of two merges

  lemma SlotOfMerge(a: Block, b: Block, kind: Kind)
    ensures SlotAt(MergeBlock(a, b), kind) == MergeSlot(kind, SlotAt(a, kind), SlotAt(b, kind))
  {
  }

  lemma SameBlock(a: Block, b: Block)
    ensures a == b <==> a.fixed == b.fixed && forall kind :: SlotAt(a, kind) == SlotAt(b, kind)
  {
    if a.fixed == b.fixed && forall kind :: SlotAt(a, kind) == SlotAt(b, kind) {
      forall kind ensures (kind in a.slots <==> kind in b.slots) && (kind in a.slots ==> a.slots[kind] == b.slots[kind]) {
        assert SlotAt(a, kind) == SlotAt(b, kind);
      }
      assert a.slots == b.slots;
    }
  }

  ghost predicate StrayBlock(a: Block, b: Block, c: Block) {
    exists kind :: Stray(kind, SlotAt(a, kind), SlotAt(b, kind), SlotAt(c, kind))
  }

  lemma BlockAssociative(a: Block, b: Block, c: Block)
    ensures MergeBlock(MergeBlock(a, b), c) == MergeBlock(a, MergeBlock(b, c)) <==> !StrayBlock(a, b, c)
  {
    var left, right := MergeBlock(MergeBlock(a, b), c), MergeBlock(a, MergeBlock(b, c));
    forall kind
      ensures SlotAt(left, kind) == SlotAt(right, kind) <==> !Stray(kind, SlotAt(a, kind), SlotAt(b, kind), SlotAt(c, kind))
    {
      SlotOfMerge(a, b, kind);
      SlotOfMerge(b, c, kind);
      SlotOfMerge(MergeBlock(a, b), c, kind);
      SlotOfMerge(a, MergeBlock(b, c), kind);
      SlotAssociative(kind, SlotAt(a, kind), SlotAt(b, kind), SlotAt(c, kind));
    }
    SameBlock(left, right);
  }

  /**
   * Two groupings of three requests are refused together, and give the same request exactly if no block has a
   * value that is not a list where the next request would extend a list.
   */
  lemma MergeAssociative(a: Request, b: Request, c: Request)
    ensures Sharing(a, b) && Sharing(Both(a, b), c) <==> Sharing(b, c) && Sharing(a, Both(b, c))
    ensures Sharing(a, b) && Sharing(b, c) ==>
      (Both(Both(a, b), c) == Both(a, Both(b, c))
       <==> forall k :: 0 <= k < |a.acquisitions| ==> !StrayBlock(a.acquisitions[k], b.acquisitions[k], c.acquisitions[k]))
  {
    if Sharing(a, b) && Sharing(b, c) {
      assert (a.actions + b.actions) + c.actions == a.actions + (b.actions + c.actions);
      var left, right := Both(Both(a, b), c).acquisitions, Both(a, Both(b, c)).acquisitions;
      forall k | 0 <= k < |a.acquisitions|
        ensures left[k] == right[k] <==> !StrayBlock(a.acquisitions[k], b.acquisitions[k], c.acquisitions[k])
      {
        BlockAssociative(a.acquisitions[k], b.acquisitions[k], c.acquisitions[k]);
      }
      assert left == right <==> forall k :: 0 <= k < |a.acquisitions| ==> left[k] == right[k];
    }
  }

  /** A request with one block, which holds this at one kind and nothing else. */
  function OneSlot(kind: Kind, slot: Option<Json>): Request {
    Request(Null, map[], [], [Block(map[], if slot.Some? then map[kind := slot.value] else map[])], Null)
  }

  lemma BothOfOne(kind: Kind, a: Option<Json>, b: Option<Json>)
    ensures Sharing(OneSlot(kind, a), OneSlot(kind, b))
    ensures Both(OneSlot(kind, a), OneSlot(kind, b)) == OneSlot(kind, MergeSlot(kind, a, b))
  {
    var left, right := OneSlot(kind, a).acquisitions[0], OneSlot(kind, b).acquisitions[0];
    forall k ensures SlotAt(MergeBlock(left, right), k) == SlotAt(OneSlot(kind, MergeSlot(kind, a, b)).acquisitions[0], k) {
      SlotOfMerge(left, right, k);
    }
    SameBlock(MergeBlock(left, right), OneSlot(kind, MergeSlot(kind, a, b)).acquisitions[0]);
  }

  /** A null in the middle request: grouped to the left the last request's list is kept, grouped to the right it is lost. */
  lemma NullLosesList(kind: Kind, x: Json)
    ensures var a, b, c := OneSlot(kind, None), OneSlot(kind, Some(Null)), OneSlot(kind, Some(Arr([x])));
      && Sharing(a, b) && Sharing(Both(a, b), c) && Both(Both(a, b), c).acquisitions[0].slots == map[kind := Arr([x])]
      && Sharing(b, c) && Sharing(a, Both(b, c)) && Both(a, Both(b, c)).acquisitions[0].slots == map[]
  {
    assert [x][1..] == [] && [] + [x] == [x];
    assert AddNew([], [x]) == AddNew([x], []) == [x];
    BothOfOne(kind, None, Some(Null));
    BothOfOne(kind, None, Some(Arr([x])));
    BothOfOne(kind, Some(Null), Some(Arr([x])));
  }

  // ---------------------------------------------------------------- any grouping of a list

  ghost predicate Listed(r: Request) {
    forall b, kind :: b in r.acquisitions && kind in b.slots ==> b.slots[kind].Arr?
  }

  ghost predicate AllListed(rs: seq<Request>) { rs == [] || (Listed(rs[0]) && AllListed(rs[1..])) }

  ghost function Value<T, E>(r: Result<T, E>): Option<T> { if r.Ok? then Some(r.value) else None }

  lemma BothListed(a: Request, b: Request)
    requires Sharing(a, b) && Listed(a) && Listed(b)
    ensures Listed(Both(a, b))
  {
    var m := Both(a, b).acquisitions;
    forall k, kind | 0 <= k < |m| && kind in m[k].slots ensures m[k].slots[kind].Arr? {
      SlotOfMerge(a.acquisitions[k], b.acquisitions[k], kind);
      assert a.acquisitions[k] in a.acquisitions;
    }
  }

  /** Requests whose slots are lists, as composition makes them, merge in any grouping of three. */
  lemma ListedAssociative(a: Request, b: Request, c: Request)
    requires Listed(b) && Sharing(a, b) && Sharing(b, c)
    ensures Both(Both(a, b), c) == Both(a, Both(b, c))
  {
    forall k | 0 <= k < |a.acquisitions| ensures !StrayBlock(a.acquisitions[k], b.acquisitions[k], c.acquisitions[k]) {
      assert b.acquisitions[k] in b.acquisitions;
    }
    MergeAssociative(a, b, c);
  }

  lemma {:induction false} MergeMore(acc: Request, xs: seq<Request>, ys: seq<Request>)
    ensures MergeAll(acc, xs + ys) == match MergeAll(acc, xs) case Refused(e) => Refused(e) case Ok(m) => MergeAll(m, ys)
    decreases |xs|
  {
    if xs == [] {
      assert xs + ys == ys;
    } else {
      assert (xs + ys)[1..] == xs[1..] + ys;
      if Join(acc, xs[0]).Ok? { MergeMore(Both(acc, xs[0]), xs[1..], ys); }
    }
  }

  lemma MergeOne(acc: Request, x: Request)
    ensures MergeAll(acc, [x]) == Join(acc, x)
  {
    assert [x][1..] == [];
  }

  lemma {:induction false} MergedListed(acc: Request, xs: seq<Request>)
    requires Listed(acc) && AllListed(xs)
    ensures MergeAll(acc, xs).Ok? ==> Listed(MergeAll(acc, xs).value) && Sharing(acc, MergeAll(acc, xs).value)
    decreases |xs|
  {
    if xs != [] && Join(acc, xs[0]).Ok? {
      BothListed(acc, xs[0]);
      MergedListed(Both(acc, xs[0]), xs[1..]);
    }
  }

  lemma {:induction false} ListedFront(xs: seq<Request>)
    requires AllListed(xs) && xs != []
    ensures AllListed(xs[..|xs| - 1])
  {
    if |xs| > 1 {
      ListedFront(xs[1..]);
      assert xs[1..][..|xs[1..]| - 1] == xs[..|xs| - 1][1..];
    }
  }

  lemma JoinJoin(a: Request, m: Request, y: Request)
    requires Listed(m)
    ensures Value(match Join(a, m) case Refused(e) => Refused(e) case Ok(am) => Join(am, y))
         == Value(match Join(m, y) case Refused(e) => Refused(e) case Ok(my) => Join(a, my))
  {
    if Sharing(a, m) && Sharing(m, y) { ListedAssociative(a, m, y); }
  }

  /** Joining a merged group is merging its members one by one. */
  lemma {:induction false} JoinOfMerge(a: Request, x: Request, xs: seq<Request>)
    requires Listed(x) && AllListed(xs)
    ensures Value(MergeAll(a, [x] + xs))
         == Value(match MergeAll(x, xs) case Refused(e) => Refused(e) case Ok(m) => Join(a, m))
    decreases |xs|
  {
    if xs == [] {
      assert [x] + xs == [x];
      MergeOne(a, x);
    } else {
      var front, y := xs[..|xs| - 1], xs[|xs| - 1];
      assert xs == front + [y] && [x] + xs == ([x] + front) + [y];
      ListedFront(xs);
      MergeMore(x, front, [y]);
      MergeMore(a, [x] + front, [y]);
      JoinOfMerge(a, x, front);
      MergedListed(x, front);
      if MergeAll(x, front).Ok? {
        var m := MergeAll(x, front).value;
        MergeOne(m, y);
        JoinJoin(a, m, y);
        if Join(a, m).Ok? { MergeOne(Both(a, m), y); }
      }
    }
  }

  ghost function Flatten(groups: seq<seq<Request>>): seq<Request> {
    if groups == [] then [] else groups[0] + Flatten(groups[1..])
  }

  /** A grouping has no empty group. */
  ghost predicate Grouping(groups: seq<seq<Request>>) {
    groups == [] || (groups[0] != [] && AllListed(groups[0]) && Grouping(groups[1..]))
  }

  /** Each group merged on its own, unless one is refused. */
  ghost function MergeEach(groups: seq<seq<Request>>): Option<seq<Request>>
    requires Grouping(groups)
  {
    if groups == [] then Some([])
    else
      var first, rest := Value(MergeAll(groups[0][0], groups[0][1..])), MergeEach(groups[1..]);
      if first.None? || rest.None? then None else Some([first.value] + rest.value)
  }

  lemma {:induction false} GroupsAfter(acc: Request, groups: seq<seq<Request>>)
    requires Grouping(groups)
    ensures Value(MergeAll(acc, Flatten(groups)))
         == match MergeEach(groups) case None => None case Some(merged) => Value(MergeAll(acc, merged))
    decreases |groups|
  {
    if groups != [] {
      var g, rest := groups[0], groups[1..];
      assert g == [g[0]] + g[1..];
      JoinOfMerge(acc, g[0], g[1..]);
      MergeMore(acc, g, Flatten(rest));
      var first, merged := MergeAll(g[0], g[1..]), MergeEach(rest);
      var head := MergeAll(acc, g);
      if head.Ok? {
        GroupsAfter(head.value, rest);
        if merged.Some? {
          assert ([first.value] + merged.value)[1..] == merged.value;
        }
      } else if merged.Some? && first.Ok? {
        assert Join(acc, first.value).Refused?;
      }
    }
  }

  /** Merging a list and merging the merges of any grouping of it are refused together, and agree. */
  lemma AnyGrouping(base: Request, groups: seq<seq<Request>>)
    requires Grouping(groups)
    ensures Value(Merge(base, Flatten(groups)))
         == match MergeEach(groups) case None => None case Some(merged) => Value(Merge(base, merged))
  {
    if groups != [] {
      var g, rest := groups[0], groups[1..];
      assert g == [g[0]] + g[1..];
      assert (g + Flatten(rest))[1..] == g[1..] + Flatten(rest);
      MergeMore(g[0], g[1..], Flatten(rest));
      var first := MergeAll(g[0], g[1..]);
      if first.Ok? {
        GroupsAfter(first.value, rest);
        if MergeEach(rest).Some? {
          assert ([first.value] + MergeEach(rest).value)[1..] == MergeEach(rest).value;
        }
      }
    }
  }

  // ---------------------------------------------------------------- conservation

  function ActionsOf(rs: seq<Request>): seq<Json> { if rs == [] then [] else rs[0].actions + ActionsOf(rs[1..]) }

  function SlotIn(r: Request, k: nat, kind: Kind): Option<Json> {
    if k < |r.acquisitions| then SlotAt(r.acquisitions[k], kind) else None
  }

  /** The lists of one kind in scenario k, one request after the other. */
  function ListsAt(rs: seq<Request>, k: nat, kind: Kind): seq<Json> {
    if rs == [] then [] else ListIn(SlotIn(rs[0], k, kind)) + ListsAt(rs[1..], k, kind)
  }

  lemma {:induction false} MergeShares(acc: Request, xs: seq<Request>)
    ensures MergeAll(acc, xs).Ok? <==> forall x <- xs :: Sharing(acc, x)
    ensures MergeAll(acc, xs).Ok? ==> Sharing(acc, MergeAll(acc, xs).value)
    decreases |xs|
  {
    if xs != [] {
      assert forall y <- xs :: y == xs[0] || y in xs[1..];
      if Sharing(acc, xs[0]) {
        MergeShares(Both(acc, xs[0]), xs[1..]);
        assert forall y <- xs[1..] :: y in xs;
      } else {
        assert xs[0] in xs;
      }
    }
  }

  lemma {:induction false} MergeActions(acc: Request, xs: seq<Request>)
    requires MergeAll(acc, xs).Ok?
    ensures MergeAll(acc, xs).value.actions == acc.actions + ActionsOf(xs)
    decreases |xs|
  {
    if xs != [] {
      MergeActions(Both(acc, xs[0]), xs[1..]);
      assert (acc.actions + xs[0].actions) + ActionsOf(xs[1..]) == acc.actions + ActionsOf(xs);
    }
  }

  lemma SlotOfBoth(a: Request, b: Request, k: nat, kind: Kind)
    requires Sharing(a, b) && Listed(a) && Listed(b)
    ensures ListIn(SlotIn(Both(a, b), k, kind)) == Added(kind, ListIn(SlotIn(a, k, kind)), ListIn(SlotIn(b, k, kind)))
  {
    if k < |a.acquisitions| {
      SlotOfMerge(a.acquisitions[k], b.acquisitions[k], kind);
      assert a.acquisitions[k] in a.acquisitions && b.acquisitions[k] in b.acquisitions;
    }
  }

  lemma {:induction false} MergeLists(acc: Request, xs: seq<Request>, k: nat, kind: Kind)
    requires Listed(acc) && AllListed(xs) && MergeAll(acc, xs).Ok?
    ensures ListIn(SlotIn(MergeAll(acc, xs).value, k, kind)) == Added(kind, ListIn(SlotIn(acc, k, kind)), ListsAt(xs, k, kind))
    decreases |xs|
  {
    if xs != [] {
      BothListed(acc, xs[0]);
      MergeLists(Both(acc, xs[0]), xs[1..], k, kind);
      SlotOfBoth(acc, xs[0], k, kind);
      AddedAssociative(kind, ListIn(SlotIn(acc, k, kind)), ListIn(SlotIn(xs[0], k, kind)), ListsAt(xs[1..], k, kind));
    }
  }

  /** A list of requests merges exactly if all share one book and one number of scenarios. */
  lemma MergesIfShared(base: Request, rs: seq<Request>)
    ensures Merge(base, rs).Ok? <==> forall r <- rs :: Sharing(rs[0], r)
  {
    if rs != [] {
      MergeShares(rs[0], rs[1..]);
      assert forall y <- rs :: y == rs[0] || y in rs[1..];
      assert forall y <- rs[1..] :: y in rs;
    }
  }

  /**
   * Nothing is lost or reordered: actions and ordinary instructions are the ordered concatenations, dynamic
   * margin is the first request's list and then the first occurrences of entries not seen before.
   */
  lemma MergeConserves(base: Request, rs: seq<Request>, k: nat, kind: Kind)
    requires rs != [] && AllListed(rs) && Merge(base, rs).Ok?
    ensures var m, first := Merge(base, rs).value, ListIn(SlotIn(rs[0], k, kind));
      Sharing(m, rs[0]) && m.actions == ActionsOf(rs)
      && ListIn(SlotIn(m, k, kind)) ==
         if kind == DynamicMargin then first + Firsts(first, ListsAt(rs[1..], k, kind)) else ListsAt(rs, k, kind)
  {
    MergeShares(rs[0], rs[1..]);
    MergeActions(rs[0], rs[1..]);
    MergeLists(rs[0], rs[1..], k, kind);
    AddsFirsts(ListIn(SlotIn(rs[0], k, kind)), ListsAt(rs[1..], k, kind));
  }

  // ---------------------------------------------------------------- the loops

  method AppendNew(kind: Kind, into: seq<Json>, extra: seq<Json>) returns (list: seq<Json>)
    ensures list == Added(kind, into, extra)
  {
    list := into;
    var rest := extra;
    while rest != []
      invariant Added(kind, list, rest) == Added(kind, into, extra)
      decreases |rest|
    {
      var x := rest[0];
      assert list + rest == (list + [x]) + rest[1..];
      if kind != DynamicMargin || x !in list { list := list + [x]; }
      rest := rest[1..];
    }
    assert list + [] == list;
  }

  lemma OneOfEach(k: nat, j: nat)
    requires k < |KINDS| && j < k
    ensures KINDS[j] != KINDS[k]
  {
  }

  method MergeInto(into: Block, from: Block) returns (merged: Block)
    ensures merged == MergeBlock(into, from)
  {
    merged := into;
    for k := 0 to |KINDS|
      invariant MergedSoFar(into, from, merged, k)
    {
      ghost var before := merged;
      merged := MergeKind(merged, from, KINDS[k]);
      MergedNext(into, from, before, merged, k);
    }
    MergedAll(into, from, merged);
  }

  /** The first k kinds are merged, the others as they were. */
  ghost predicate MergedSoFar(into: Block, from: Block, merged: Block, k: nat)
    requires k <= |KINDS|
  {
    merged.fixed == into.fixed
    && forall kind ::
         SlotAt(merged, kind) == if kind in KINDS[..k] then MergeSlot(kind, SlotAt(into, kind), SlotAt(from, kind))
                                 else SlotAt(into, kind)
  }

  /** Just this kind is merged. */
  ghost predicate OneMerged(into: Block, from: Block, merged: Block, kind: Kind) {
    SlotAt(merged, kind) == MergeSlot(kind, SlotAt(into, kind), SlotAt(from, kind))
    && forall other :: other != kind ==> SlotAt(merged, other) == SlotAt(into, other)
  }

  lemma MergedNext(into: Block, from: Block, before: Block, after: Block, k: nat)
    requires k < |KINDS| && MergedSoFar(into, from, before, k) && after.fixed == before.fixed
    requires OneMerged(before, from, after, KINDS[k])
    ensures MergedSoFar(into, from, after, k + 1)
  {
    forall j | 0 <= j < k ensures KINDS[j] != KINDS[k] { OneOfEach(k, j); }
    assert KINDS[..k + 1] == KINDS[..k] + [KINDS[k]];
  }

  lemma MergedAll(into: Block, from: Block, merged: Block)
    requires MergedSoFar(into, from, merged, |KINDS|)
    ensures merged == MergeBlock(into, from)
  {
    forall kind ensures SlotAt(merged, kind) == SlotAt(MergeBlock(into, from), kind) {
      AllKinds(kind);
      assert KINDS[..|KINDS|] == KINDS;
      SlotOfMerge(into, from, kind);
    }
    SameBlock(merged, MergeBlock(into, from));
  }

  /** Merges the list of one kind; a missing one is made first. */
  method MergeKind(into: Block, from: Block, kind: Kind) returns (merged: Block)
    ensures merged.fixed == into.fixed
    ensures OneMerged(into, from, merged, kind)
  {
    merged := into;
    if IsList(SlotAt(from, kind)) {
      if kind !in merged.slots { merged := merged.(slots := merged.slots[kind := Arr([])]); }
      if merged.slots[kind].Arr? {
        var list := AppendNew(kind, merged.slots[kind].items, from.slots[kind].items);
        merged := merged.(slots := merged.slots[kind := Arr(list)]);
      }
    }
  }

  /** Merges the selected requests into a copy of the first. */
  method MergeSelected(base: Request, selected: seq<Request>) returns (r: Result<Request, MergeError>)
    ensures r == Merge(base, selected)
  {
    if selected == [] { return Ok(base); }
    var head, rest := selected[0], selected[1..];
    var merged := head;
    while rest != []
      invariant OneBook(merged, head)
      invariant MergeAll(merged, rest) == Merge(base, selected)
      decreases |rest|
    {
      var next := rest[0];
      if next.records != head.records || next.dated != head.dated || next.hedgeContracts != head.hedgeContracts {
        return Refused(NotOneBook);
      }
      if |next.acquisitions| != |merged.acquisitions| { return Refused(OtherScenarios); }
      var blocks := [];
      for k := 0 to |next.acquisitions|
        invariant |blocks| == k
        invariant forall i :: 0 <= i < k ==> blocks[i] == MergeBlock(merged.acquisitions[i], next.acquisitions[i])
      {
        var block := MergeInto(merged.acquisitions[k], next.acquisitions[k]);
        blocks := blocks + [block];
      }
      assert blocks == MergeBlocks(merged.acquisitions, next.acquisitions);
      merged := merged.(actions := merged.actions + next.actions, acquisitions := blocks);
      rest := rest[1..];
    }
    r := Ok(merged);
  }
}
