/**
 * Composition of a saved book and a plan into a request (apps/api-rust/src/compose.rs): the reference
 * closure, the treatment rewriting and the per-scenario blocks. Documents are already parsed.
 */
module Plans {
  import opened Common

  const MAX_REQUEST_BYTES: nat := 8 * 1024 * 1024
  const LIFECYCLE_SCHEMA: string := "liquidity-lifecycle-1"

  datatype Json = Null | Bool(b: bool) | Num(n: real) | Str(s: string) | Arr(items: seq<Json>) | Obj(fields: map<string, Json>)
  type Fields = map<string, Json>

  datatype Kind = Purchases | Financings | FacilityDraws | Repayments | Sales | HedgeEntries | Terminations
    | FacilityRepayments | InitialMargin | DynamicMargin

  const KINDS: seq<Kind> := [Purchases, Financings, FacilityDraws, Repayments, Sales, HedgeEntries, Terminations,
                             FacilityRepayments, InitialMargin, DynamicMargin]

  datatype Scenario = Scenario(id: string, horizon: Json)
  datatype Book = Book(dated: Json, records: Fields, hedgeContracts: Json, scenarios: seq<Scenario>)
  type Treatments = Option<map<string, string>>
  datatype Plan = Plan(actions: seq<Json>, instructions: map<Kind, seq<Json>>, hedges: Treatments,
                       fundings: Treatments, businessPlan: Option<Json>)
  datatype Binding = Binding(workspace: string, revision: string, bookName: string, bookDigest: string)

  /** One block per scenario: its fixed fields and one list per instruction kind present. */
  datatype Block = Block(fixed: Fields, slots: map<Kind, Json>)
  datatype Request = Request(dated: Json, records: Fields, actions: seq<Json>, acquisitions: seq<Block>, hedgeContracts: Json)

  datatype Requirement =
    | RunoffHasWork
    | NoActions
    | PolicyFacility(facility: string)
    | UnknownLot(action: string, lot: string)
    | BadQuantity(action: string, lot: string, quantity: Option<real>, held: real)
    | InstructionLot(kind: Kind, instruction: string, lot: string)
    | InstructionFacility(kind: Kind, instruction: string, facility: string)
    | InstructionAgreement(kind: Kind, instruction: string, agreement: string)
    | InstructionPledge(kind: Kind, instruction: string, pledge: string)
    | PledgedSale(lot: string, pledge: string, agreement: string)
    | HedgeUnstated(allocation: string, exposure: string, hedge: string)
    | HedgeNotTerminated(allocation: string, hedge: string)
    | FundingUnstated(allocation: string, asset: string, funding: string)
    | FundingNotRepaid(allocation: string, funding: string)

  datatype ComposeError = MappingRequired | BoundExceeded

  // ---------------------------------------------------------------- reading documents

  function Get(v: Json, key: string): Option<Json> {
    if v.Obj? && key in v.fields then Some(v.fields[key]) else None
  }

  function Array(v: Json, key: string): seq<Json> {
    match Get(v, key) case Some(Arr(items)) => items case _ => []
  }

  function TextOf(v: Json, key: string): Option<string> {
    match Get(v, key) case Some(Str(s)) => Some(s) case _ => None
  }

  function Text(v: Json, key: string): string {
    match TextOf(v, key) case Some(s) => s case None => ""
  }

  function Number(v: Json, key: string): Option<real> {
    match Get(v, key) case Some(Num(n)) => Some(n) case _ => None
  }

  function Records(book: Book, key: string): seq<Json> { Array(Obj(book.records), key) }

  /** The record with this identity; of records that share one, the last. */
  function Named(records: seq<Json>, field: string, id: string): Option<Json> {
    if records == [] then None
    else
      var later := Named(records[1..], field, id);
      if later.Some? then later else if Text(records[0], field) == id then Some(records[0]) else None
  }

  /** The records an index by identity holds. */
  function Latest(records: seq<Json>, field: string): seq<Json> {
    if records == [] then []
    else
      (if Has(records[1..], field, Text(records[0], field)) then [] else [records[0]]) + Latest(records[1..], field)
  }

  /** The place of a record among records in ascending order of identity. */
  function Place(record: Json, records: seq<Json>, field: string): seq<Json> {
    if records != [] && Less(Text(records[0], field), Text(record, field))
    then [records[0]] + Place(record, records[1..], field) else [record] + records
  }

  /** Records in the order in which an index by identity yields them. */
  function Ordered(records: seq<Json>, field: string): seq<Json> {
    if records == [] then [] else Place(records[0], Ordered(records[1..], field), field)
  }

  /** Strictly ascending identities. */
  ghost predicate Ascending(records: seq<Json>, field: string) {
    records == [] || ((forall p <- records[1..] :: Less(Text(records[0], field), Text(p, field)))
                      && Ascending(records[1..], field))
  }

  lemma {:induction false} Placed(record: Json, records: seq<Json>, field: string)
    ensures forall p :: p in Place(record, records, field) <==> p == record || p in records
  {
    if records != [] { Placed(record, records[1..], field); }
  }

  lemma {:induction false} PlacedAscending(record: Json, records: seq<Json>, field: string)
    requires Ascending(records, field) && forall p <- records :: Text(p, field) != Text(record, field)
    ensures Ascending(Place(record, records, field), field)
  {
    if records != [] {
      var first := records[0];
      assert forall p <- records[1..] :: p in records;
      LessIsOrder(Text(first, field), Text(record, field), "");
      if Less(Text(first, field), Text(record, field)) {
        Placed(record, records[1..], field);
        PlacedAscending(record, records[1..], field);
      } else {
        forall p | p in records ensures Less(Text(record, field), Text(p, field)) {
          LessIsOrder(Text(record, field), Text(first, field), Text(p, field));
        }
      }
    }
  }

  /** The index yields just the records it holds, each once, in ascending order of identity. */
  lemma {:induction false} OrderedAscending(records: seq<Json>, field: string)
    ensures Ascending(Ordered(Latest(records, field), field), field)
    ensures forall p :: p in Ordered(Latest(records, field), field) <==> Named(records, field, Text(p, field)) == Some(p)
  {
    if records != [] {
      var rest := records[1..];
      OrderedAscending(rest, field);
      if !Has(rest, field, Text(records[0], field)) {
        var held := Ordered(Latest(rest, field), field);
        assert Latest(records, field) == [records[0]] + Latest(rest, field);
        assert Latest(records, field)[1..] == Latest(rest, field);
        Placed(records[0], held, field);
        PlacedAscending(records[0], held, field);
      } else {
        assert Latest(records, field) == Latest(rest, field);
      }
    }
  }

  lemma {:induction false} NamedHasId(records: seq<Json>, field: string, id: string)
    ensures Has(records, field, id) ==> Text(Named(records, field, id).value, field) == id
  {
    if records != [] { NamedHasId(records[1..], field, id); }
  }

  predicate Has(records: seq<Json>, field: string, id: string) { Named(records, field, id).Some? }

  function Instructions(plan: Plan, kind: Kind): seq<Json> {
    if kind in plan.instructions then plan.instructions[kind] else []
  }

  function Mode(plan: Plan): string {
    match plan.businessPlan
    case None => "schedule"
    case Some(b) => match TextOf(b, "mode") case Some(m) => m case None => "schedule"
  }

  // ---------------------------------------------------------------- requirements of one record

  function Flat<T>(f: T -> seq<Requirement>, xs: seq<T>): seq<Requirement> {
    if xs == [] then [] else f(xs[0]) + Flat(f, xs[1..])
  }

  function ModeNeeds(plan: Plan): seq<Requirement> {
    if Mode(plan) == "runoff" then
      if plan.actions != [] || exists kind <- KINDS :: Instructions(plan, kind) != [] then [RunoffHasWork] else []
    else if plan.actions == [] then [NoActions] else []
  }

  function PolicyFacilities(plan: Plan): seq<Json> {
    match plan.businessPlan
    case None => []
    case Some(b) => match Get(b, "funding_policy") case Some(p) => Array(p, "facilities") case None => []
  }

  function PolicyCheck(book: Book): Json -> seq<Requirement> {
    f => if Has(Records(book, "facilities"), "facility_id", Text(f, "facility_id")) then []
         else [PolicyFacility(Text(f, "facility_id"))]
  }

  /** One lot of one action: it is saved, and an exit takes a positive part of what is held. */
  function LotCheck(book: Book, action: Json): Json -> seq<Requirement> {
    l =>
      var id, q := Text(l, "lot_id"), Number(l, "quantity");
      match Named(Records(book, "lots"), "lot_id", id)
      case None => [UnknownLot(Text(action, "action_id"), id)]
      case Some(lot) =>
        var held := match Number(lot, "quantity") case Some(h) => h case None => 0.0;
        if q.None? || q.value <= 0.0 || (Text(action, "kind") != "acquisition" && q.value > held)
        then [BadQuantity(Text(action, "action_id"), id, q, held)] else []
  }

  function ActionCheck(book: Book): Json -> seq<Requirement> {
    a => Flat(LotCheck(book, a), Array(a, "lots"))
  }

  function ReferenceCheck(book: Book, kind: Kind): Json -> seq<Requirement> {
    i =>
      var id := Text(i, "instruction_id");
      var lot, facility, agreement := TextOf(i, "lot_id"), TextOf(i, "facility_id"), TextOf(i, "agreement_id");
      (if lot.Some? && !Has(Records(book, "lots"), "lot_id", lot.value) then [InstructionLot(kind, id, lot.value)] else [])
      + (if facility.Some? && !Has(Records(book, "facilities"), "facility_id", facility.value)
         then [InstructionFacility(kind, id, facility.value)] else [])
      + (if agreement.Some? && !Has(Records(book, "margin_agreements"), "agreement_id", agreement.value)
         then [InstructionAgreement(kind, id, agreement.value)] else [])
      + Flat(ReleaseCheck(book, kind, id), Array(i, "pledge_releases"))
  }

  function ReleaseCheck(book: Book, kind: Kind, instruction: string): Json -> seq<Requirement> {
    r => if Has(Records(book, "pledges"), "pledge_id", Text(r, "pledge_id")) then []
         else [InstructionPledge(kind, instruction, Text(r, "pledge_id"))]
  }

  function KindCheck(book: Book, plan: Plan): Kind -> seq<Requirement> {
    kind => Flat(ReferenceCheck(book, kind), Instructions(plan, kind))
  }

  /** The lots that leave the book: sold, terminated or repaid. */
  function Exits(plan: Plan): set<string> {
    set i | i in Instructions(plan, Sales) + Instructions(plan, Terminations) + Instructions(plan, Repayments)
      :: Text(i, "lot_id")
  }

  function Released(plan: Plan): set<string> {
    set i, r | i in Instructions(plan, Repayments) && r in Array(i, "pledge_releases") :: Text(r, "pledge_id")
  }

  /** A pledge of the sold lot that no repayment releases. */
  function PledgeCheck(book: Book, plan: Plan, lot: string): Json -> seq<Requirement> {
    p => var id := Text(p, "pledge_id");
         if Text(p, "lot_id") == lot && id !in Released(plan)
         then [PledgedSale(lot, id, Text(p, "agreement_id"))] else []
  }

  function SaleCheck(book: Book, plan: Plan): Json -> seq<Requirement> {
    s => Flat(PledgeCheck(book, plan, Text(s, "lot_id")), Ordered(Latest(Records(book, "pledges"), "pledge_id"), "pledge_id"))
  }

  /** The saved lots an action touches. */
  function Touched(book: Book, actions: seq<Json>): set<string> {
    set a, l | a in actions && l in Array(a, "lots") && Has(Records(book, "lots"), "lot_id", Text(l, "lot_id"))
      :: Text(l, "lot_id")
  }

  function Chosen(treatments: Treatments, allocation: string): Option<string> {
    if treatments.Some? && allocation in treatments.value then Some(treatments.value[allocation]) else None
  }

  function HedgeCheck(plan: Plan, touched: set<string>): Json -> seq<Requirement> {
    h =>
      var alloc, exposure, hedge := Text(h, "allocation_id"), Text(h, "exposure_lot_id"), Text(h, "hedge_lot_id");
      if exposure !in touched && hedge !in touched then []
      else match Chosen(plan.hedges, alloc)
        case None => [HedgeUnstated(alloc, exposure, hedge)]
        case Some(t) => if t == "terminate" && hedge !in Exits(plan) then [HedgeNotTerminated(alloc, hedge)] else []
  }

  function FundingCheck(plan: Plan, touched: set<string>): Json -> seq<Requirement> {
    f =>
      var alloc, funding, asset := Text(f, "allocation_id"), Text(f, "funding_lot_id"), Text(f, "attributed_lot_id");
      if asset !in touched then []
      else match Chosen(plan.fundings, alloc)
        case None => [FundingUnstated(alloc, asset, funding)]
        case Some(t) => if t == "repay" && funding !in Exits(plan) then [FundingNotRepaid(alloc, funding)] else []
  }

  function Needs(book: Book, plan: Plan): seq<Requirement> {
    ModeNeeds(plan)
    + Flat(PolicyCheck(book), PolicyFacilities(plan))
    + Flat(ActionCheck(book), plan.actions)
    + Flat(KindCheck(book, plan), KINDS)
    + Flat(SaleCheck(book, plan), Instructions(plan, Sales))
    + Flat(HedgeCheck(plan, Touched(book, plan.actions)), Records(book, "hedge_allocations"))
    + Flat(FundingCheck(plan, Touched(book, plan.actions)), Records(book, "funding_allocations"))
  }

  lemma {:induction false} FlatEmpty<T>(f: T -> seq<Requirement>, xs: seq<T>)
    ensures Flat(f, xs) == [] <==> forall x <- xs :: f(x) == []
  {
    if xs != [] {
      FlatEmpty(f, xs[1..]);
      assert xs == [xs[0]] + xs[1..];
      assert Flat(f, xs) == [] <==> f(xs[0]) == [] && Flat(f, xs[1..]) == [];
    }
  }

  // ---------------------------------------------------------------- what it takes to compose

  function Held(lot: Json): real { match Number(lot, "quantity") case Some(h) => h case None => 0.0 }

  /** The lot is saved, and a positive quantity is named that an exit finds there. */
  predicate LotFits(book: Book, action: Json, l: Json) {
    var lot, q := Named(Records(book, "lots"), "lot_id", Text(l, "lot_id")), Number(l, "quantity");
    lot.Some? && q.Some? && q.value > 0.0 && (Text(action, "kind") == "acquisition" || q.value <= Held(lot.value))
  }

  ghost predicate LotsMapped(book: Book, actions: seq<Json>) {
    forall a, l :: a in actions && l in Array(a, "lots") ==> LotFits(book, a, l)
  }

  /** A reference that is given names a saved record. */
  predicate Resolved(book: Book, i: Json, key: string, records: string) {
    TextOf(i, key).Some? ==> Has(Records(book, records), key, TextOf(i, key).value)
  }

  predicate Resolves(book: Book, i: Json) {
    Resolved(book, i, "lot_id", "lots") && Resolved(book, i, "facility_id", "facilities")
    && Resolved(book, i, "agreement_id", "margin_agreements")
    && forall r <- Array(i, "pledge_releases") :: Has(Records(book, "pledges"), "pledge_id", Text(r, "pledge_id"))
  }

  ghost predicate ReferencesResolve(book: Book, plan: Plan) {
    forall kind, i :: i in Instructions(plan, kind) ==> Resolves(book, i)
  }

  /** Every pledge on a sold lot is released by some repayment. */
  ghost predicate SalesDeliverable(book: Book, plan: Plan) {
    forall s, id :: s in Instructions(plan, Sales) && PledgedUnder(book, Text(s, "lot_id"), id) ==> id in Released(plan)
  }

  predicate PledgedUnder(book: Book, lot: string, id: string) {
    match Named(Records(book, "pledges"), "pledge_id", id) case Some(p) => Text(p, "lot_id") == lot case None => false
  }

  ghost predicate HedgesStated(book: Book, plan: Plan, touched: set<string>) {
    forall h <- Records(book, "hedge_allocations") ::
      Text(h, "exposure_lot_id") in touched || Text(h, "hedge_lot_id") in touched ==>
      Stated(plan.hedges, Text(h, "allocation_id"), "terminate", Text(h, "hedge_lot_id"), Exits(plan))
  }

  ghost predicate FundingsStated(book: Book, plan: Plan, touched: set<string>) {
    forall f <- Records(book, "funding_allocations") :: Text(f, "attributed_lot_id") in touched ==>
      Stated(plan.fundings, Text(f, "allocation_id"), "repay", Text(f, "funding_lot_id"), Exits(plan))
  }

  /** Each affected allocation has a treatment, and a terminated hedge or a repaid funding has an exit. */
  ghost predicate TreatmentsStated(book: Book, plan: Plan) {
    HedgesStated(book, plan, Touched(book, plan.actions)) && FundingsStated(book, plan, Touched(book, plan.actions))
  }

  predicate Stated(treatments: Treatments, allocation: string, exit: string, lot: string, exits: set<string>) {
    var chosen := Chosen(treatments, allocation);
    chosen.Some? && (chosen.value == exit ==> lot in exits)
  }

  ghost predicate ModeFits(plan: Plan) {
    if Mode(plan) == "runoff" then plan.actions == [] && forall kind :: Instructions(plan, kind) == []
    else plan.actions != []
  }

  ghost predicate PolicyResolves(book: Book, plan: Plan) {
    forall f <- PolicyFacilities(plan) :: Has(Records(book, "facilities"), "facility_id", Text(f, "facility_id"))
  }

  ghost predicate Mapped(book: Book, plan: Plan) {
    && ModeFits(plan)
    && PolicyResolves(book, plan)
    && LotsMapped(book, plan.actions)
    && ReferencesResolve(book, plan)
    && SalesDeliverable(book, plan)
    && TreatmentsStated(book, plan)
  }

  // ---------------------------------------------------------------- assembling the request

  /** Indexed assignment: a null becomes an object. On other scalars the source panics; here they are replaced too. */
  function SetField(v: Json, key: string, w: Json): Json {
    match v case Obj(fields) => Obj(fields[key := w]) case _ => Obj(map[key := w])
  }

  function Each(f: Json -> Json, xs: seq<Json>): (ys: seq<Json>)
    ensures |ys| == |xs| && forall k :: 0 <= k < |xs| ==> ys[k] == f(xs[k])
  {
    seq(|xs|, k requires 0 <= k < |xs| => f(xs[k]))
  }

  function Treat(treatments: map<string, string>, field: string): Json -> Json {
    a => if Text(a, "allocation_id") in treatments then SetField(a, field, Str(treatments[Text(a, "allocation_id")])) else a
  }

  /** The allocations under `key` carry the plan's treatments. */
  function Treated(records: Fields, key: string, field: string, treatments: Treatments): Fields {
    if treatments.Some? && key in records && records[key].Arr?
    then records[key := Arr(Each(Treat(treatments.value, field), records[key].items))] else records
  }

  function Stamp(scenario: string): Json -> Json { im => SetField(im, "scenario_id", Str(scenario)) }

  function SlotOf(kind: Kind, list: seq<Json>, scenario: string): Json {
    Arr(if kind == InitialMargin then Each(Stamp(scenario), list) else list)
  }

  function BlockOf(scenario: Scenario, plan: Plan): Block {
    var fixed := map["scenario_id" := Str(scenario.id), "horizon_end_ordinal" := scenario.horizon];
    Block(if plan.businessPlan.Some? then fixed["business_plan" := plan.businessPlan.value] else fixed,
          map kind | kind in plan.instructions :: SlotOf(kind, plan.instructions[kind], scenario.id))
  }

  function Blocks(scenarios: seq<Scenario>, plan: Plan): seq<Block> {
    seq(|scenarios|, k requires 0 <= k < |scenarios| => BlockOf(scenarios[k], plan))
  }

  function BoundTo(records: Fields, binding: Binding): Fields {
    records["schema" := Str(LIFECYCLE_SCHEMA)]["model_version" := Str(LIFECYCLE_SCHEMA)]
      ["workspace_revision" := Obj(map["id" := Str(binding.workspace), "revision" := Str(binding.revision)])]
      ["saved_book_revision" := Obj(map["id" := Str(binding.bookName),
                                        "revision" := Str(binding.revision + ":" + binding.bookDigest)])]
  }

  function TreatedRecords(book: Book, plan: Plan): Fields {
    Treated(Treated(book.records, "hedge_allocations", "unwind_treatment", plan.hedges),
            "funding_allocations", "instruction", plan.fundings)
  }

  function Assemble(book: Book, plan: Plan, binding: Binding): Request {
    Request(book.dated, BoundTo(TreatedRecords(book, plan), binding), plan.actions, Blocks(book.scenarios, plan),
            book.hedgeContracts)
  }

  /** The composed request; `size` is the length of its serialized form. */
  function Composed(book: Book, plan: Plan, binding: Binding, size: Request -> nat): Result<Request, ComposeError> {
    var request := Assemble(book, plan, binding);
    if Needs(book, plan) != [] then Refused(MappingRequired)
    else if size(request) > MAX_REQUEST_BYTES then Refused(BoundExceeded) else Ok(request)
  }

  // ---------------------------------------------------------------- the loops

  lemma {:induction false} FlatConcat<T>(f: T -> seq<Requirement>, xs: seq<T>, ys: seq<T>)
    ensures Flat(f, xs + ys) == Flat(f, xs) + Flat(f, ys)
  {
    if xs == [] {
      assert xs + ys == ys;
    } else {
      FlatConcat(f, xs[1..], ys);
      Uncons(xs, ys);
      Associative(f(xs[0]), Flat(f, xs[1..]), Flat(f, ys));
    }
  }

  lemma FlatNext<T>(f: T -> seq<Requirement>, xs: seq<T>, k: nat)
    requires k < |xs|
    ensures Flat(f, xs[..k + 1]) == Flat(f, xs[..k]) + f(xs[k])
  {
    assert xs[..k + 1] == xs[..k] + [xs[k]];
    FlatConcat(f, xs[..k], [xs[k]]);
    assert Flat(f, [xs[k]]) == f(xs[k]) + Flat(f, []);
  }

  /** Runs one check over a list of records and reports everything found, in order. */
  method Check<T>(f: T -> seq<Requirement>, xs: seq<T>) returns (needs: seq<Requirement>)
    ensures needs == Flat(f, xs)
  {
    needs := [];
    for k := 0 to |xs|
      invariant needs == Flat(f, xs[..k])
    {
      FlatNext(f, xs, k);
      needs := needs + f(xs[k]);
    }
    assert xs[..|xs|] == xs;
  }

  function TouchedBy(book: Book, lots: seq<Json>): set<string> {
    set l | l in lots && Has(Records(book, "lots"), "lot_id", Text(l, "lot_id")) :: Text(l, "lot_id")
  }

  lemma TouchedByNext(book: Book, lots: seq<Json>, k: nat)
    requires k < |lots|
    ensures TouchedBy(book, lots[..k + 1]) == TouchedBy(book, lots[..k])
      + if Has(Records(book, "lots"), "lot_id", Text(lots[k], "lot_id")) then {Text(lots[k], "lot_id")} else {}
  {
    assert lots[..k + 1] == lots[..k] + [lots[k]];
  }

  method CheckLots(book: Book, action: Json, lots: seq<Json>) returns (needs: seq<Requirement>, touched: set<string>)
    ensures needs == Flat(LotCheck(book, action), lots) && touched == TouchedBy(book, lots)
  {
    needs, touched := [], {};
    for j := 0 to |lots|
      invariant needs == Flat(LotCheck(book, action), lots[..j])
      invariant touched == TouchedBy(book, lots[..j])
    {
      FlatNext(LotCheck(book, action), lots, j);
      TouchedByNext(book, lots, j);
      needs := needs + LotCheck(book, action)(lots[j]);
      if Has(Records(book, "lots"), "lot_id", Text(lots[j], "lot_id")) {
        touched := touched + {Text(lots[j], "lot_id")};
      }
    }
    assert lots[..|lots|] == lots;
  }

  lemma TouchedNext(book: Book, actions: seq<Json>, k: nat)
    requires k < |actions|
    ensures Touched(book, actions[..k + 1]) == Touched(book, actions[..k]) + TouchedBy(book, Array(actions[k], "lots"))
  {
    assert actions[..k + 1] == actions[..k] + [actions[k]];
  }

  /** Checks the lots of every action and collects the saved lots they touch. */
  method CheckActions(book: Book, actions: seq<Json>) returns (needs: seq<Requirement>, touched: set<string>)
    ensures needs == Flat(ActionCheck(book), actions) && touched == Touched(book, actions)
  {
    needs, touched := [], {};
    for k := 0 to |actions|
      invariant needs == Flat(ActionCheck(book), actions[..k])
      invariant touched == Touched(book, actions[..k])
    {
      FlatNext(ActionCheck(book), actions, k);
      TouchedNext(book, actions, k);
      var found, more := CheckLots(book, actions[k], Array(actions[k], "lots"));
      needs, touched := needs + found, touched + more;
    }
    assert actions[..|actions|] == actions;
  }

  /** Reports every requirement at once, in the order of the checks. */
  method Requirements(book: Book, plan: Plan) returns (needs: seq<Requirement>)
    ensures needs == Needs(book, plan)
  {
    var policy := Check(PolicyCheck(book), PolicyFacilities(plan));
    var actions, touched := CheckActions(book, plan.actions);
    var references := Check(KindCheck(book, plan), KINDS);
    var sales := Check(SaleCheck(book, plan), Instructions(plan, Sales));
    var hedges := Check(HedgeCheck(plan, touched), Records(book, "hedge_allocations"));
    var fundings := Check(FundingCheck(plan, touched), Records(book, "funding_allocations"));
    needs := ModeNeeds(plan) + policy + actions + references + sales + hedges + fundings;
  }

  /** Rewrites a list in place. */
  method Rewrite(f: Json -> Json, list: seq<Json>) returns (rewritten: seq<Json>)
    ensures rewritten == Each(f, list)
  {
    rewritten := list;
    for k := 0 to |list|
      invariant |rewritten| == |list|
      invariant forall i :: 0 <= i < k ==> rewritten[i] == f(list[i])
      invariant forall i :: k <= i < |list| ==> rewritten[i] == list[i]
    {
      rewritten := rewritten[k := f(list[k])];
    }
  }

  method WriteTreatments(records: Fields, key: string, field: string, treatments: Treatments) returns (out: Fields)
    ensures out == Treated(records, key, field, treatments)
  {
    out := records;
    if treatments.Some? && key in records && records[key].Arr? {
      var list := Rewrite(Treat(treatments.value, field), records[key].items);
      out := out[key := Arr(list)];
    }
  }

  function SlotsOf(plan: Plan, kinds: seq<Kind>, scenario: string): map<Kind, Json> {
    map kind | kind in plan.instructions && kind in kinds :: SlotOf(kind, plan.instructions[kind], scenario)
  }

  lemma SlotsAppended(plan: Plan, kinds: seq<Kind>, kind: Kind, scenario: string)
    ensures SlotsOf(plan, kinds + [kind], scenario) == SlotsOf(plan, kinds, scenario)
      + if kind in plan.instructions then map[kind := SlotOf(kind, plan.instructions[kind], scenario)] else map[]
  {
    assert forall k :: k in kinds + [kind] <==> k in kinds || k == kind;
  }

  lemma SlotsNext(plan: Plan, k: nat, scenario: string)
    requires k < |KINDS|
    ensures SlotsOf(plan, KINDS[..k + 1], scenario) == SlotsOf(plan, KINDS[..k], scenario)
      + if KINDS[k] in plan.instructions then map[KINDS[k] := SlotOf(KINDS[k], plan.instructions[KINDS[k]], scenario)]
        else map[]
  {
    SlotsAppended(plan, KINDS[..k], KINDS[k], scenario);
    assert KINDS[..k + 1] == KINDS[..k] + [KINDS[k]];
  }

  lemma AllSlots(plan: Plan, scenario: Scenario)
    ensures SlotsOf(plan, KINDS, scenario.id) == BlockOf(scenario, plan).slots
  {
    forall kind: Kind ensures kind in KINDS { AllKinds(kind); }
  }

  /** Builds the instruction lists of one scenario, kind by kind. */
  method WriteSlots(plan: Plan, scenario: string) returns (slots: map<Kind, Json>)
    ensures slots == SlotsOf(plan, KINDS, scenario)
  {
    slots := map[];
    for k := 0 to |KINDS|
      invariant slots == SlotsOf(plan, KINDS[..k], scenario)
    {
      SlotsNext(plan, k, scenario);
      var kind := KINDS[k];
      if kind in plan.instructions {
        var list := plan.instructions[kind];
        if kind == InitialMargin { list := Rewrite(Stamp(scenario), list); }
        slots := slots + map[kind := Arr(list)];
      }
    }
    assert KINDS[..|KINDS|] == KINDS;
  }

  method WriteBlock(scenario: Scenario, plan: Plan) returns (block: Block)
    ensures block == BlockOf(scenario, plan)
  {
    var fixed := map["scenario_id" := Str(scenario.id), "horizon_end_ordinal" := scenario.horizon];
    if plan.businessPlan.Some? { fixed := fixed["business_plan" := plan.businessPlan.value]; }
    var slots := WriteSlots(plan, scenario.id);
    AllSlots(plan, scenario);
    block := Block(fixed, slots);
  }

  method WriteBlocks(scenarios: seq<Scenario>, plan: Plan) returns (blocks: seq<Block>)
    ensures blocks == Blocks(scenarios, plan)
  {
    blocks := [];
    for k := 0 to |scenarios|
      invariant |blocks| == k && forall i :: 0 <= i < k ==> blocks[i] == BlockOf(scenarios[i], plan)
    {
      var block := WriteBlock(scenarios[k], plan);
      blocks := blocks + [block];
    }
  }

  /** Assembles and binds the request if nothing is needed; otherwise nothing is assembled and all needs are returned. */
  method Compose(book: Book, plan: Plan, binding: Binding, size: Request -> nat)
    returns (r: Result<Request, ComposeError>, needs: seq<Requirement>)
    ensures r == Composed(book, plan, binding, size)
    ensures needs == Needs(book, plan)
  {
    needs := Requirements(book, plan);
    if needs != [] { return Refused(MappingRequired), needs; }
    var records := WriteTreatments(book.records, "hedge_allocations", "unwind_treatment", plan.hedges);
    records := WriteTreatments(records, "funding_allocations", "instruction", plan.fundings);
    records := BoundTo(records, binding);
    var blocks := WriteBlocks(book.scenarios, plan);
    var request := Request(book.dated, records, plan.actions, blocks, book.hedgeContracts);
    assert request == Assemble(book, plan, binding);
    r := if size(request) > MAX_REQUEST_BYTES then Refused(BoundExceeded) else Ok(request);
  }

  // ---------------------------------------------------------------- no requirement exactly if mapped

  lemma ActionsClear(book: Book, actions: seq<Json>)
    ensures Flat(ActionCheck(book), actions) == [] <==> LotsMapped(book, actions)
  {
    FlatEmpty(ActionCheck(book), actions);
    forall a ensures ActionCheck(book)(a) == [] <==> forall l <- Array(a, "lots") :: LotFits(book, a, l) {
      FlatEmpty(LotCheck(book, a), Array(a, "lots"));
      assert forall l :: LotCheck(book, a)(l) == [] <==> LotFits(book, a, l);
    }
  }

  lemma ReferenceClear(book: Book, kind: Kind, i: Json)
    ensures ReferenceCheck(book, kind)(i) == [] <==> Resolves(book, i)
  {
    var id := Text(i, "instruction_id");
    FlatEmpty(ReleaseCheck(book, kind, id), Array(i, "pledge_releases"));
    assert |ReferenceCheck(book, kind)(i)|
        == (if Resolved(book, i, "lot_id", "lots") then 0 else 1)
         + (if Resolved(book, i, "facility_id", "facilities") then 0 else 1)
         + (if Resolved(book, i, "agreement_id", "margin_agreements") then 0 else 1)
         + |Flat(ReleaseCheck(book, kind, id), Array(i, "pledge_releases"))|;
  }

  lemma AllKinds(kind: Kind)
    ensures kind in KINDS
  {
    assert KINDS[0] == Purchases && KINDS[1] == Financings && KINDS[2] == FacilityDraws && KINDS[3] == Repayments;
    assert KINDS[4] == Sales && KINDS[5] == HedgeEntries && KINDS[6] == Terminations;
    assert KINDS[7] == FacilityRepayments && KINDS[8] == InitialMargin && KINDS[9] == DynamicMargin;
  }

  lemma ReferencesClear(book: Book, plan: Plan)
    ensures Flat(KindCheck(book, plan), KINDS) == [] <==> ReferencesResolve(book, plan)
  {
    FlatEmpty(KindCheck(book, plan), KINDS);
    forall kind: Kind
      ensures kind in KINDS
      ensures KindCheck(book, plan)(kind) == [] <==> forall i <- Instructions(plan, kind) :: Resolves(book, i)
    {
      AllKinds(kind);
      FlatEmpty(ReferenceCheck(book, kind), Instructions(plan, kind));
      forall i ensures ReferenceCheck(book, kind)(i) == [] <==> Resolves(book, i) { ReferenceClear(book, kind, i); }
    }
  }

  lemma SaleClear(book: Book, plan: Plan, s: Json)
    ensures SaleCheck(book, plan)(s) == [] <==> forall id :: PledgedUnder(book, Text(s, "lot_id"), id) ==> id in Released(plan)
  {
    var lot, pledges := Text(s, "lot_id"), Records(book, "pledges");
    var latest := Ordered(Latest(pledges, "pledge_id"), "pledge_id");
    OrderedAscending(pledges, "pledge_id");
    FlatEmpty(PledgeCheck(book, plan, lot), latest);
    forall id | PledgedUnder(book, lot, id)
      ensures exists p :: p in latest && Text(p, "pledge_id") == id && Text(p, "lot_id") == lot
    {
      NamedHasId(pledges, "pledge_id", id);
      assert Named(pledges, "pledge_id", id).value in latest;
    }
    assert forall p <- latest :: PledgedUnder(book, Text(p, "lot_id"), Text(p, "pledge_id"));
  }

  lemma SalesClear(book: Book, plan: Plan)
    ensures Flat(SaleCheck(book, plan), Instructions(plan, Sales)) == [] <==> SalesDeliverable(book, plan)
  {
    FlatEmpty(SaleCheck(book, plan), Instructions(plan, Sales));
    forall s ensures SaleCheck(book, plan)(s) == []
      <==> forall id :: PledgedUnder(book, Text(s, "lot_id"), id) ==> id in Released(plan)
    {
      SaleClear(book, plan, s);
    }
  }

  lemma TreatmentsClear(book: Book, plan: Plan)
    ensures Flat(HedgeCheck(plan, Touched(book, plan.actions)), Records(book, "hedge_allocations")) == []
         && Flat(FundingCheck(plan, Touched(book, plan.actions)), Records(book, "funding_allocations")) == []
       <==> TreatmentsStated(book, plan)
  {
    FlatEmpty(HedgeCheck(plan, Touched(book, plan.actions)), Records(book, "hedge_allocations"));
    FlatEmpty(FundingCheck(plan, Touched(book, plan.actions)), Records(book, "funding_allocations"));
  }

  lemma ModeClear(plan: Plan)
    ensures ModeNeeds(plan) == [] <==> ModeFits(plan)
  {
    forall kind: Kind ensures kind in KINDS { AllKinds(kind); }
  }

  lemma PolicyClear(book: Book, plan: Plan)
    ensures Flat(PolicyCheck(book), PolicyFacilities(plan)) == [] <==> PolicyResolves(book, plan)
  {
    FlatEmpty(PolicyCheck(book), PolicyFacilities(plan));
  }

  lemma EachEmpty(a: seq<Requirement>, b: seq<Requirement>, c: seq<Requirement>, d: seq<Requirement>,
                  e: seq<Requirement>, f: seq<Requirement>, g: seq<Requirement>)
    ensures a + b + c + d + e + f + g == [] <==>
      a == [] && b == [] && c == [] && d == [] && e == [] && f == [] && g == []
  {
    assert |a + b + c + d + e + f + g| == |a| + |b| + |c| + |d| + |e| + |f| + |g|;
  }

  /** The list of requirements is empty exactly if every reference resolves and everything needed is stated. */
  lemma NeedsNothing(book: Book, plan: Plan)
    ensures Needs(book, plan) == [] <==> Mapped(book, plan)
  {
    ModeClear(plan);
    PolicyClear(book, plan);
    ActionsClear(book, plan.actions);
    ReferencesClear(book, plan);
    SalesClear(book, plan);
    TreatmentsClear(book, plan);
    EachEmpty(ModeNeeds(plan), Flat(PolicyCheck(book), PolicyFacilities(plan)), Flat(ActionCheck(book), plan.actions),
              Flat(KindCheck(book, plan), KINDS), Flat(SaleCheck(book, plan), Instructions(plan, Sales)),
              Flat(HedgeCheck(plan, Touched(book, plan.actions)), Records(book, "hedge_allocations")),
              Flat(FundingCheck(plan, Touched(book, plan.actions)), Records(book, "funding_allocations")));
  }

  // ---------------------------------------------------------------- what a composed request says

  /** `after` is `before` with one field set, if the plan chose a treatment for the allocation. */
  ghost predicate StatesChoice(before: Json, after: Json, field: string, treatments: Treatments) {
    match Chosen(treatments, Text(before, "allocation_id"))
    case None => after == before
    case Some(t) => Get(after, field) == Some(Str(t))
                    && forall other :: other != field ==> Get(after, other) == Get(before, other)
  }

  ghost predicate StatesChoices(before: seq<Json>, after: seq<Json>, field: string, treatments: Treatments) {
    |after| == |before| && forall i :: 0 <= i < |before| ==> StatesChoice(before[i], after[i], field, treatments)
  }

  lemma SetFieldIs(v: Json, key: string, w: Json)
    ensures Get(SetField(v, key, w), key) == Some(w)
    ensures forall other :: other != key ==> Get(SetField(v, key, w), other) == Get(v, other)
  {
  }

  lemma TreatedStates(records: Fields, key: string, field: string, t: Treatments)
    ensures StatesChoices(Array(Obj(records), key), Array(Obj(Treated(records, key, field, t)), key), field, t)
    ensures forall other :: other != key ==> Get(Obj(Treated(records, key, field, t)), other) == Get(Obj(records), other)
  {
    var before, after := Array(Obj(records), key), Array(Obj(Treated(records, key, field, t)), key);
    forall i | 0 <= i < |before| ensures |after| == |before| && StatesChoice(before[i], after[i], field, t) {
      var chosen := Chosen(t, Text(before[i], "allocation_id"));
      if chosen.Some? { SetFieldIs(before[i], field, Str(chosen.value)); }
    }
  }

  lemma BoundStates(records: Fields, binding: Binding, key: string)
    requires key !in {"schema", "model_version", "workspace_revision", "saved_book_revision"}
    ensures Get(Obj(BoundTo(records, binding)), key) == Get(Obj(records), key)
  {
  }

  /**
   * The records of a request are those of the book, except that each allocation states the plan's treatment, if it
   * has one, in the one field that belongs to it.
   */
  lemma RequestStatesTreatments(book: Book, plan: Plan, binding: Binding, key: string)
    requires key !in {"schema", "model_version", "workspace_revision", "saved_book_revision"}
    ensures var records := Assemble(book, plan, binding).records;
      && (key != "hedge_allocations" && key != "funding_allocations" ==> Get(Obj(records), key) == Get(Obj(book.records), key))
      && (key == "hedge_allocations" ==>
            StatesChoices(Records(book, key), Array(Obj(records), key), "unwind_treatment", plan.hedges))
      && (key == "funding_allocations" ==>
            StatesChoices(Records(book, key), Array(Obj(records), key), "instruction", plan.fundings))
  {
    var hedged := Treated(book.records, "hedge_allocations", "unwind_treatment", plan.hedges);
    TreatedStates(book.records, "hedge_allocations", "unwind_treatment", plan.hedges);
    TreatedStates(hedged, "funding_allocations", "instruction", plan.fundings);
    BoundStates(TreatedRecords(book, plan), binding, key);
    assert "hedge_allocations"[0] != "funding_allocations"[0];
  }

  /**
   * A request has one block per scenario. Its lists are the plan's, kind by kind, and every initial-margin entry
   * names the scenario of its block.
   */
  lemma BlocksStateInstructions(book: Book, plan: Plan, binding: Binding, k: nat, kind: Kind)
    requires k < |book.scenarios|
    ensures |Assemble(book, plan, binding).acquisitions| == |book.scenarios|
    ensures var block, id := Assemble(book, plan, binding).acquisitions[k], book.scenarios[k].id;
      && Text(Obj(block.fixed), "scenario_id") == id
      && (kind in block.slots <==> kind in plan.instructions)
      && (kind in block.slots ==>
            block.slots[kind].Arr? && |block.slots[kind].items| == |plan.instructions[kind]|
            && forall i :: 0 <= i < |plan.instructions[kind]| ==>
                 var before, after := plan.instructions[kind][i], block.slots[kind].items[i];
                 if kind != InitialMargin then after == before
                 else Text(after, "scenario_id") == id
                      && forall other :: other != "scenario_id" ==> Get(after, other) == Get(before, other))
  {
    if kind == InitialMargin && kind in plan.instructions {
      var list, id := plan.instructions[kind], book.scenarios[k].id;
      forall i | 0 <= i < |list|
        ensures Text(Stamp(id)(list[i]), "scenario_id") == id
        ensures forall other :: other != "scenario_id" ==> Get(Stamp(id)(list[i]), other) == Get(list[i], other)
      {
        SetFieldIs(list[i], "scenario_id", Str(id));
      }
    }
    assert "scenario_id" != "horizon_end_ordinal" && "scenario_id" != "business_plan";
  }
}
