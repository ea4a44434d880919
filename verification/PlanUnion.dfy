/**
 * Composition is a homomorphism: composing the union of plans over one book gives the merge of the requests
 * composed from each (apps/api-rust/src/compose.rs, apps/api-rust/src/allocation.rs).
 */
module PlanUnion {
  import opened Common
  import opened Plans
  import opened Merging

  function UnionTreatments(a: Treatments, b: Treatments): Treatments {
    if a.None? then b else if b.None? then a else Some(a.value + b.value)
  }

  /** Both plans: actions and instructions in order, treatments together, dynamic margin without repeats. */
  function Union(p: Plan, q: Plan): Plan {
    Plan(p.actions + q.actions,
         map kind | kind in p.instructions.Keys + q.instructions.Keys ::
           if kind in q.instructions then Added(kind, Instructions(p, kind), q.instructions[kind]) else p.instructions[kind],
         UnionTreatments(p.hedges, q.hedges), UnionTreatments(p.fundings, q.fundings), p.businessPlan)
  }

  /** The plans have one business plan and treat the book's allocations alike. */
  ghost predicate Compatible(book: Book, binding: Binding, p: Plan, q: Plan) {
    p.businessPlan == q.businessPlan
    && Assemble(book, p, binding).records == Assemble(book, q, binding).records
  }

  // ---------------------------------------------------------------- treatments

  function OrNone(t: Treatments): map<string, string> { if t.Some? then t.value else map[] }

  lemma TreatedEntry(records: Fields, key: string, field: string, t: Treatments, i: nat)
    requires key in records && records[key].Arr? && i < |records[key].items|
    ensures var after := Treated(records, key, field, t);
      key in after && after[key].Arr? && |after[key].items| == |records[key].items|
      && after[key].items[i] == Treat(OrNone(t), field)(records[key].items[i])
  {
  }

  lemma SameTreatment(records: Fields, key: string, field: string, a: Treatments, b: Treatments, h: Json)
    requires Treated(records, key, field, a) == Treated(records, key, field, b)
    requires h in Array(Obj(records), key)
    ensures var id := Text(h, "allocation_id");
      Chosen(a, id).Some? && Chosen(b, id).Some? ==> Chosen(a, id) == Chosen(b, id)
    ensures Treat(OrNone(UnionTreatments(a, b)), field)(h) == Treat(OrNone(a), field)(h)
  {
    var i :| 0 <= i < |records[key].items| && records[key].items[i] == h;
    TreatedEntry(records, key, field, a, i);
    TreatedEntry(records, key, field, b, i);
    var id := Text(h, "allocation_id");
    if Chosen(a, id).Some? && Chosen(b, id).Some? {
      var x, y := SetField(h, field, Str(a.value[id])), SetField(h, field, Str(b.value[id]));
      assert x == y && x.fields[field] == Str(a.value[id]) && y.fields[field] == Str(b.value[id]);
    }
  }

  lemma TreatedUnion(records: Fields, key: string, field: string, a: Treatments, b: Treatments)
    requires Treated(records, key, field, a) == Treated(records, key, field, b)
    ensures Treated(records, key, field, UnionTreatments(a, b)) == Treated(records, key, field, a)
  {
    var left, right := Treated(records, key, field, UnionTreatments(a, b)), Treated(records, key, field, a);
    if key in records && records[key].Arr? {
      var items := records[key].items;
      forall i | 0 <= i < |items| ensures left[key].items[i] == right[key].items[i] {
        SameTreatment(records, key, field, a, b, items[i]);
        TreatedEntry(records, key, field, UnionTreatments(a, b), i);
        TreatedEntry(records, key, field, a, i);
      }
      assert |items| > 0 || left[key].items == right[key].items == [];
      if |items| > 0 {
        TreatedEntry(records, key, field, UnionTreatments(a, b), 0);
        TreatedEntry(records, key, field, a, 0);
      }
      assert left[key].items == right[key].items;
      assert left == right;
    }
  }

  const HEDGES := "hedge_allocations"
  const FUNDINGS := "funding_allocations"

  function HedgesTreated(book: Book, t: Treatments): Fields { Treated(book.records, HEDGES, "unwind_treatment", t) }

  lemma AgreeByKey(book: Book, binding: Binding, p: Plan, q: Plan)
    requires Assemble(book, p, binding).records == Assemble(book, q, binding).records
    ensures HedgesTreated(book, p.hedges) == HedgesTreated(book, q.hedges)
    ensures Treated(HedgesTreated(book, p.hedges), FUNDINGS, "instruction", p.fundings)
         == Treated(HedgesTreated(book, p.hedges), FUNDINGS, "instruction", q.fundings)
  {
    BoundAgree(TreatedRecords(book, p), TreatedRecords(book, q), binding, HEDGES);
    BoundAgree(TreatedRecords(book, p), TreatedRecords(book, q), binding, FUNDINGS);
    var x, y := HedgesTreated(book, p.hedges), HedgesTreated(book, q.hedges);
    assert HEDGES != FUNDINGS;
    OneKeyTreated(book.records, HEDGES, "unwind_treatment", p.hedges);
    OneKeyTreated(book.records, HEDGES, "unwind_treatment", q.hedges);
    OneKeyTreated(x, FUNDINGS, "instruction", p.fundings);
    OneKeyTreated(y, FUNDINGS, "instruction", q.fundings);
    assert x == y;
    OneKeyTreated(x, FUNDINGS, "instruction", q.fundings);
    assert Treated(x, FUNDINGS, "instruction", p.fundings) == Treated(x, FUNDINGS, "instruction", q.fundings);
  }

  lemma OneKeyTreated(records: Fields, key: string, field: string, t: Treatments)
    ensures var after := Treated(records, key, field, t);
      after.Keys == records.Keys && forall k :: k in records && k != key ==> after[k] == records[k]
  {
  }

  /** Binding leaves the allocation records as they are. */
  lemma BoundAgree(a: Fields, b: Fields, binding: Binding, key: string)
    requires BoundTo(a, binding) == BoundTo(b, binding) && (key == HEDGES || key == FUNDINGS)
    ensures key in a <==> key in b
    ensures key in a ==> a[key] == b[key]
  {
    assert key[0] != 's' && key[0] != 'm' && key[0] != 'w';
    assert key in a <==> key in BoundTo(a, binding);
    assert key in b <==> key in BoundTo(b, binding);
    if key in a && key in b {
      assert BoundTo(a, binding)[key] == a[key] && BoundTo(b, binding)[key] == b[key];
    }
  }

  // ---------------------------------------------------------------- the union is mapped

  lemma InstructionsOfUnion(p: Plan, q: Plan, kind: Kind)
    ensures forall i :: i in Instructions(Union(p, q), kind) <==> i in Instructions(p, kind) || i in Instructions(q, kind)
  {
    forall i ensures i in Instructions(Union(p, q), kind) <==> i in Instructions(p, kind) || i in Instructions(q, kind) {
      AddNewHas(Instructions(p, kind), Instructions(q, kind), i);
    }
  }

  lemma ExitsOfUnion(p: Plan, q: Plan)
    ensures Exits(Union(p, q)) == Exits(p) + Exits(q)
    ensures Released(Union(p, q)) == Released(p) + Released(q)
  {
    InstructionsOfUnion(p, q, Sales);
    InstructionsOfUnion(p, q, Terminations);
    InstructionsOfUnion(p, q, Repayments);
  }

  lemma StatedInUnion(records: Fields, key: string, field: string, p: Treatments, q: Treatments, h: Json,
                      exit: string, lot: string, exits: set<string>, all: set<string>)
    requires Treated(records, key, field, p) == Treated(records, key, field, q) && h in Array(Obj(records), key)
    requires exits <= all
    requires Stated(p, Text(h, "allocation_id"), exit, lot, exits) || Stated(q, Text(h, "allocation_id"), exit, lot, exits)
    ensures Stated(UnionTreatments(p, q), Text(h, "allocation_id"), exit, lot, all)
  {
    SameTreatment(records, key, field, p, q, h);
  }

  lemma SalesOfUnion(book: Book, p: Plan, q: Plan)
    requires SalesDeliverable(book, p) && SalesDeliverable(book, q)
    ensures SalesDeliverable(book, Union(p, q))
  {
    InstructionsOfUnion(p, q, Sales);
    ExitsOfUnion(p, q);
  }

  lemma HedgesOfUnion(book: Book, p: Plan, q: Plan)
    requires HedgesTreated(book, p.hedges) == HedgesTreated(book, q.hedges)
    requires HedgesStated(book, p, Touched(book, p.actions)) && HedgesStated(book, q, Touched(book, q.actions))
    ensures HedgesStated(book, Union(p, q), Touched(book, p.actions) + Touched(book, q.actions))
  {
    var u := Union(p, q);
    ExitsOfUnion(p, q);
    var touched := Touched(book, p.actions);
    forall h | h in Records(book, HEDGES)
      && (Text(h, "exposure_lot_id") in touched + Touched(book, q.actions)
          || Text(h, "hedge_lot_id") in touched + Touched(book, q.actions))
      ensures Stated(u.hedges, Text(h, "allocation_id"), "terminate", Text(h, "hedge_lot_id"), Exits(u))
    {
      var exits := if Text(h, "exposure_lot_id") in touched || Text(h, "hedge_lot_id") in touched then Exits(p) else Exits(q);
      StatedInUnion(book.records, HEDGES, "unwind_treatment", p.hedges, q.hedges, h, "terminate", Text(h, "hedge_lot_id"),
                    exits, Exits(u));
    }
  }

  lemma FundingsOfUnion(book: Book, records: Fields, p: Plan, q: Plan)
    requires Treated(records, FUNDINGS, "instruction", p.fundings) == Treated(records, FUNDINGS, "instruction", q.fundings)
    requires Array(Obj(records), FUNDINGS) == Records(book, FUNDINGS)
    requires FundingsStated(book, p, Touched(book, p.actions)) && FundingsStated(book, q, Touched(book, q.actions))
    ensures FundingsStated(book, Union(p, q), Touched(book, p.actions) + Touched(book, q.actions))
  {
    var u := Union(p, q);
    ExitsOfUnion(p, q);
    var touched := Touched(book, p.actions);
    forall f | f in Records(book, FUNDINGS) && Text(f, "attributed_lot_id") in touched + Touched(book, q.actions)
      ensures Stated(u.fundings, Text(f, "allocation_id"), "repay", Text(f, "funding_lot_id"), Exits(u))
    {
      var exits := if Text(f, "attributed_lot_id") in touched then Exits(p) else Exits(q);
      StatedInUnion(records, FUNDINGS, "instruction", p.fundings, q.fundings, f, "repay", Text(f, "funding_lot_id"),
                    exits, Exits(u));
    }
  }

  lemma TreatmentsOfUnion(book: Book, binding: Binding, p: Plan, q: Plan)
    requires Compatible(book, binding, p, q) && TreatmentsStated(book, p) && TreatmentsStated(book, q)
    ensures TreatmentsStated(book, Union(p, q))
  {
    AgreeByKey(book, binding, p, q);
    assert Touched(book, p.actions + q.actions) == Touched(book, p.actions) + Touched(book, q.actions);
    HedgesOfUnion(book, p, q);
    FundingsOfUnion(book, HedgesTreated(book, p.hedges), p, q);
  }

  lemma ModeOfUnion(p: Plan, q: Plan)
    requires p.businessPlan == q.businessPlan && ModeFits(p) && ModeFits(q)
    ensures ModeFits(Union(p, q))
  {
    var u := Union(p, q);
    if Mode(u) == "runoff" {
      forall kind ensures Instructions(u, kind) == [] {
        InstructionsOfUnion(p, q, kind);
        NoMembers(Instructions(u, kind));
      }
    }
  }

  lemma UnionIsMapped(book: Book, binding: Binding, p: Plan, q: Plan)
    requires Compatible(book, binding, p, q) && Mapped(book, p) && Mapped(book, q)
    ensures Mapped(book, Union(p, q))
  {
    var u := Union(p, q);
    ModeOfUnion(p, q);
    assert PolicyResolves(book, u);
    assert LotsMapped(book, u.actions);
    forall kind, i | i in Instructions(u, kind) ensures Resolves(book, i) { InstructionsOfUnion(p, q, kind); }
    SalesOfUnion(book, p, q);
    TreatmentsOfUnion(book, binding, p, q);
  }

  // ---------------------------------------------------------------- the union composes to the merge

  lemma EachConcat(f: Json -> Json, xs: seq<Json>, ys: seq<Json>)
    ensures Each(f, xs + ys) == Each(f, xs) + Each(f, ys)
  {
  }

  lemma SlotOfUnion(scenario: Scenario, p: Plan, q: Plan, kind: Kind)
    ensures SlotAt(BlockOf(scenario, Union(p, q)), kind)
         == MergeSlot(kind, SlotAt(BlockOf(scenario, p), kind), SlotAt(BlockOf(scenario, q), kind))
  {
    EachConcat(Stamp(scenario.id), Instructions(p, kind), Instructions(q, kind));
  }

  lemma BlockOfUnion(scenario: Scenario, p: Plan, q: Plan)
    requires p.businessPlan == q.businessPlan
    ensures BlockOf(scenario, Union(p, q)) == MergeBlock(BlockOf(scenario, p), BlockOf(scenario, q))
  {
    var a, b := BlockOf(scenario, Union(p, q)), MergeBlock(BlockOf(scenario, p), BlockOf(scenario, q));
    forall kind ensures SlotAt(a, kind) == SlotAt(b, kind) {
      SlotOfUnion(scenario, p, q, kind);
      SlotOfMerge(BlockOf(scenario, p), BlockOf(scenario, q), kind);
    }
    SameBlock(a, b);
  }

  lemma UnionAssembles(book: Book, binding: Binding, p: Plan, q: Plan)
    requires Compatible(book, binding, p, q)
    ensures Sharing(Assemble(book, p, binding), Assemble(book, q, binding))
    ensures Assemble(book, Union(p, q), binding) == Both(Assemble(book, p, binding), Assemble(book, q, binding))
  {
    AgreeByKey(book, binding, p, q);
    TreatedUnion(book.records, HEDGES, "unwind_treatment", p.hedges, q.hedges);
    TreatedUnion(HedgesTreated(book, p.hedges), FUNDINGS, "instruction", p.fundings, q.fundings);
    var a, b := Blocks(book.scenarios, Union(p, q)), MergeBlocks(Blocks(book.scenarios, p), Blocks(book.scenarios, q));
    forall k | 0 <= k < |book.scenarios| ensures a[k] == b[k] { BlockOfUnion(book.scenarios[k], p, q); }
    assert a == b;
  }

  // ---------------------------------------------------------------- any number of plans

  function UnionAll(p: Plan, ps: seq<Plan>): Plan
    decreases |ps|
  {
    if ps == [] then p else UnionAll(Union(p, ps[0]), ps[1..])
  }

  function AssembleEach(book: Book, binding: Binding, ps: seq<Plan>): seq<Request> {
    if ps == [] then [] else [Assemble(book, ps[0], binding)] + AssembleEach(book, binding, ps[1..])
  }

  /** Every plan is mapped and compatible with p. */
  ghost predicate AllCompatible(book: Book, binding: Binding, p: Plan, ps: seq<Plan>) {
    ps == [] || (Compatible(book, binding, p, ps[0]) && Mapped(book, ps[0]) && AllCompatible(book, binding, p, ps[1..]))
  }

  lemma {:induction false} StillCompatible(book: Book, binding: Binding, p: Plan, u: Plan, ps: seq<Plan>)
    requires AllCompatible(book, binding, p, ps)
    requires u.businessPlan == p.businessPlan
      && Assemble(book, u, binding).records == Assemble(book, p, binding).records
    ensures AllCompatible(book, binding, u, ps)
  {
    if ps != [] {
      StillCompatible(book, binding, p, u, ps[1..]);
    }
  }

  lemma {:induction false} UnionAllAssembles(book: Book, binding: Binding, p: Plan, ps: seq<Plan>)
    requires Mapped(book, p) && AllCompatible(book, binding, p, ps)
    ensures Mapped(book, UnionAll(p, ps))
    ensures MergeAll(Assemble(book, p, binding), AssembleEach(book, binding, ps))
         == Ok(Assemble(book, UnionAll(p, ps), binding))
    decreases |ps|
  {
    if ps != [] {
      var q, u := ps[0], Union(p, ps[0]);
      UnionIsMapped(book, binding, p, q);
      UnionAssembles(book, binding, p, q);
      StillCompatible(book, binding, p, u, ps[1..]);
      UnionAllAssembles(book, binding, u, ps[1..]);
    }
  }

  lemma {:induction false} ComposedAreMapped(book: Book, binding: Binding, p: Plan, ps: seq<Plan>)
    requires forall q <- ps :: Compatible(book, binding, p, q) && Needs(book, q) == []
    ensures AllCompatible(book, binding, p, ps)
  {
    if ps != [] {
      assert ps[0] in ps;
      NeedsNothing(book, ps[0]);
      assert forall q <- ps[1..] :: q in ps;
      ComposedAreMapped(book, binding, p, ps[1..]);
    }
  }

  /** Composed requests hold only lists, so their merges do not depend on the grouping. */
  lemma AssembledListed(book: Book, binding: Binding, plan: Plan)
    ensures Listed(Assemble(book, plan, binding))
  {
  }

  /**
   * If compatible plans compose, their union has no mapping requirement, and it composes to the merge of their
   * requests unless that exceeds the request bound.
   */
  lemma ComposeOfUnion(book: Book, binding: Binding, p: Plan, ps: seq<Plan>, size: Request -> nat, base: Request)
    requires Composed(book, p, binding, size).Ok?
    requires forall q <- ps :: Compatible(book, binding, p, q) && Composed(book, q, binding, size).Ok?
    ensures var merged := Merge(base, AssembleEach(book, binding, [p] + ps));
      merged.Ok? && Needs(book, UnionAll(p, ps)) == []
      && Composed(book, UnionAll(p, ps), binding, size)
         == if size(merged.value) > MAX_REQUEST_BYTES then Refused(BoundExceeded) else Ok(merged.value)
  {
    assert forall q <- ps :: Needs(book, q) == [];
    ComposedAreMapped(book, binding, p, ps);
    NeedsNothing(book, p);
    NeedsNothing(book, UnionAll(p, ps));
    UnionAllAssembles(book, binding, p, ps);
    assert ([p] + ps)[1..] == ps;
    assert AssembleEach(book, binding, [p] + ps)[1..] == AssembleEach(book, binding, ps);
  }

  lemma NoTreatments(book: Book, plan: Plan, binding: Binding)
    requires plan.hedges == None && plan.fundings == None
    ensures Assemble(book, plan, binding).records == BoundTo(book.records, binding)
  {
  }

  lemma ExitsDiffer(a: real, b: real)
    requires a != b
    ensures ExitOf(a) != ExitOf(b)
  {
    var x, y := Array(ExitOf(a).actions[0], "lots")[0], Array(ExitOf(b).actions[0], "lots")[0];
    assert Number(x, "quantity") == Some(a) && Number(y, "quantity") == Some(b);
  }

  lemma ExitComposes(book: Book, binding: Binding, lot: Json, quantity: real)
    requires book.records == map["lots" := Arr([lot])] && Text(lot, "lot_id") == "A"
    requires Named([lot], "lot_id", "A") == Some(lot) && Number(lot, "quantity") == Some(10.0) && 0.0 < quantity <= 10.0
    ensures Composed(book, ExitOf(quantity), binding, _ => 0).Ok?
  {
    ExitIsMapped(book, lot, quantity);
    NeedsNothing(book, ExitOf(quantity));
  }

  /** The hypotheses are not empty: two partial exits of one lot, each stated on its own. */
  lemma CompatiblePlansExist(binding: Binding) returns (book: Book, p: Plan, q: Plan)
    ensures Compatible(book, binding, p, q) && p != q
    ensures Composed(book, p, binding, _ => 0).Ok? && Composed(book, q, binding, _ => 0).Ok?
  {
    var lot := Obj(map["lot_id" := Str("A"), "quantity" := Num(10.0)]);
    book := Book(Null, map["lots" := Arr([lot])], Null, [Scenario("base", Null)]);
    p, q := ExitOf(3.0), ExitOf(4.0);
    assert Text(lot, "lot_id") == "A" && Number(lot, "quantity") == Some(10.0);
    assert [lot][1..] == [] && Named([lot], "lot_id", "A") == Some(lot);
    ExitComposes(book, binding, lot, 3.0);
    ExitComposes(book, binding, lot, 4.0);
    NoTreatments(book, p, binding);
    NoTreatments(book, q, binding);
    ExitsDiffer(3.0, 4.0);
  }

  function ExitOf(quantity: real): Plan {
    Plan([Obj(map["lots" := Arr([Obj(map["lot_id" := Str("A"), "quantity" := Num(quantity)])])])],
         map[Sales := [Obj(map["lot_id" := Str("A")])]], None, None, None)
  }

  lemma ExitIsMapped(book: Book, lot: Json, quantity: real)
    requires book.records == map["lots" := Arr([lot])] && Text(lot, "lot_id") == "A"
    requires Named([lot], "lot_id", "A") == Some(lot) && Number(lot, "quantity") == Some(10.0) && 0.0 < quantity <= 10.0
    ensures Mapped(book, ExitOf(quantity))
  {
    var plan := ExitOf(quantity);
    var sold := Obj(map["lot_id" := Str("A"), "quantity" := Num(quantity)]);
    assert Array(plan.actions[0], "lots") == [sold];
    assert Text(sold, "lot_id") == "A" && Number(sold, "quantity") == Some(quantity);
    assert Records(book, "lots") == [lot] && Held(lot) == 10.0;
    assert LotFits(book, plan.actions[0], sold);
    assert "pledges" !in book.records && "hedge_allocations" !in book.records && "funding_allocations" !in book.records;
    var sale := Obj(map["lot_id" := Str("A")]);
    assert Resolves(book, sale);
  }
}
