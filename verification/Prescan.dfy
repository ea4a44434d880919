/**
 * Bounded admission of a persisted manifest before it is decoded (apps/api/app/cd_sequence_jobs.py). The decoder
 * afterwards sees only the objects captured here.
 */
module Prescan {
  import opened Common
  import opened ManifestCodec

  const MAX_OUTPUT: nat := 32 * 1024 * 1024
  const MAX_OBJECTS: nat := 1024
  const MAX_ROWS: nat := 250000

  datatype Reason =
    | BadDescriptor | BadManifest | RawList | BadFields | ObjectCount | CompressedBytes | RowCap | SizeCap
    | UnsupportedNode
    | Unreadable(error: CodecError)

  datatype LoadError = NotAdmitted(reason: Reason) | NotDecoded(error: CodecError)

  /** What the metadata of a table tells: its rows, the decoded size of each column chunk, the size of each row. */
  datatype Footer = Footer(rows: int, columns: seq<int>, batches: seq<nat>)

  /** Running totals of decoded tables: rows, decoded column chunks, logical rows. */
  datatype Weight = Weight(rows: int, decoded: int, logical: int)

  /** The running totals and the captured objects, by reference. */
  datatype Scanned = Scanned(compressed: nat, weight: Weight, objects: map<Json, string>)

  function Sum(xs: seq<int>): int { if xs == [] then 0 else xs[0] + Sum(xs[1..]) }

  function Plus(a: Weight, b: Weight): Weight {
    Weight(a.rows + b.rows, a.decoded + b.decoded, a.logical + b.logical)
  }

  function WeightOf(f: Footer): Weight { Weight(f.rows, Sum(f.columns), Sum(f.batches)) }

  /** No size is negative, and the totals with this table stay within their caps. */
  predicate SizesOk(f: Footer, decoded: int, logical: int) {
    (forall size <- f.columns :: size >= 0)
    && (f.columns != [] ==> Sum(f.columns) <= MAX_OUTPUT && decoded + Sum(f.columns) <= MAX_OUTPUT)
    && (f.batches != [] ==> logical + Sum(f.batches) <= MAX_OUTPUT)
  }

  function Names(fields: seq<Member>): set<string> { set m <- fields :: m.name }

  function DescribedBytes(ref: Json): nat {
    if !ref.JObj? then 0
    else match Field(ref.fields, "bytes") case Some(JInt(n)) => if n < 0 then 0 else n case _ => 0
  }

  /** A typed object reference of the given format, of 1 to MAX_OUTPUT bytes. */
  predicate DescriptorOk(ref: Json, format: string) {
    ref.JObj? && Names(ref.fields) == {"key", "sha256", "bytes", "format"}
    && Field(ref.fields, "format") == Some(JStr(format)) && 0 < DescribedBytes(ref) <= MAX_OUTPUT
  }

  /** One frame: charged whole at every appearance, read from the store at its first. */
  function ScanFrame(fields: seq<Member>, s: Scanned, remote: Store, footers: string -> Footer): Result<Scanned, Reason> {
    if Names(fields) != {"type", "ref", "objects"} || Field(fields, "objects") != Some(JObj([])) || Field(fields, "ref").None?
    then Refused(BadFields)
    else
      var child := Field(fields, "ref").value;
      if !DescriptorOk(child, "parquet") then Refused(BadDescriptor) else ScanTable(child, s, remote, footers)
  }

  /** One typed table reference: first the caps on objects and bytes, then those its metadata is held to. */
  function ScanTable(child: Json, s: Scanned, remote: Store, footers: string -> Footer): Result<Scanned, Reason> {
    if child !in s.objects && |s.objects| >= MAX_OBJECTS then Refused(ObjectCount)
    else if s.compressed + DescribedBytes(child) > MAX_OUTPUT then Refused(CompressedBytes)
    else
      var data := if child in s.objects then Ok(s.objects[child]) else Load(remote, child);
      if data.Refused? then Refused(Unreadable(data.error))
      else
        var footer := footers(data.value);
        if !(0 <= footer.rows <= MAX_ROWS) || s.weight.rows + footer.rows > MAX_ROWS then Refused(RowCap)
        else if !SizesOk(footer, s.weight.decoded, s.weight.logical) then Refused(SizeCap)
        else Ok(Scanned(s.compressed + DescribedBytes(child), Plus(s.weight, WeightOf(footer)),
                        s.objects[child := data.value]))
  }

  function Scan(node: Json, s: Scanned, remote: Store, footers: string -> Footer): Result<Scanned, Reason>
    decreases node, 2
  {
    if !node.JObj? then (if node.JArr? then Refused(RawList) else Ok(s)) else ScanFields(node.fields, s, remote, footers)
  }

  function ScanFields(fields: seq<Member>, s: Scanned, remote: Store, footers: string -> Footer): Result<Scanned, Reason>
    decreases fields, 1
  {
    match Field(fields, "type")
    case Some(JStr(kind)) =>
      if kind == "dict" || kind == "list" || kind == "tuple" then
        match Items(fields)
        case None => Refused(BadFields)
        case Some(items) =>
          if Names(fields) != {"type", "items"} then Refused(BadFields)
          else if kind == "dict" then ScanEntries(items, s, remote, footers) else ScanAll(items, s, remote, footers)
      else if kind == "frame" then ScanFrame(fields, s, remote, footers)
      else Refused(UnsupportedNode)
    case _ => Refused(UnsupportedNode)
  }

  function ScanAll(items: seq<Json>, s: Scanned, remote: Store, footers: string -> Footer): Result<Scanned, Reason>
    decreases items, 3
  {
    if items == [] then Ok(s)
    else
      var first := Scan(items[0], s, remote, footers);
      if first.Refused? then first else ScanAll(items[1..], first.value, remote, footers)
  }

  function ScanPair(pair: Json, s: Scanned, remote: Store, footers: string -> Footer): Result<Scanned, Reason>
    decreases pair, 1
  {
    if !pair.JArr? || |pair.items| != 2 then Refused(BadFields)
    else
      var key := Scan(pair.items[0], s, remote, footers);
      if key.Refused? then key else Scan(pair.items[1], key.value, remote, footers)
  }

  function ScanEntries(items: seq<Json>, s: Scanned, remote: Store, footers: string -> Footer): Result<Scanned, Reason>
    decreases items, 3
  {
    if items == [] then Ok(s)
    else
      var first := ScanPair(items[0], s, remote, footers);
      if first.Refused? then first else ScanEntries(items[1..], first.value, remote, footers)
  }

  // ---------------------------------------------------------------- what the decoder reads

  /** The references of every frame in a node, once for each appearance, in the order the decoder reads them. */
  function Frames(node: Json): seq<Json>
    decreases node, 2
  {
    if !node.JObj? then [] else FramesOf(node.fields)
  }

  function FramesOf(fields: seq<Member>): seq<Json>
    decreases fields, 1
  {
    match Field(fields, "type")
    case Some(JStr(kind)) =>
      if kind == "dict" || kind == "list" || kind == "tuple" then
        match Items(fields)
        case None => []
        case Some(items) => if kind == "dict" then FramesInPairs(items) else FramesInAll(items)
      else if kind == "frame" then (match Field(fields, "ref") case Some(ref) => [ref] case None => [])
      else []
    case _ => []
  }

  function FramesInAll(items: seq<Json>): seq<Json>
    decreases items, 3
  {
    if items == [] then [] else Frames(items[0]) + FramesInAll(items[1..])
  }

  function FramesInPair(pair: Json): seq<Json>
    decreases pair, 1
  {
    if pair.JArr? && |pair.items| == 2 then Frames(pair.items[0]) + Frames(pair.items[1]) else []
  }

  function FramesInPairs(items: seq<Json>): seq<Json>
    decreases items, 3
  {
    if items == [] then [] else FramesInPair(items[0]) + FramesInPairs(items[1..])
  }

  function Charged(refs: seq<Json>): nat { if refs == [] then 0 else DescribedBytes(refs[0]) + Charged(refs[1..]) }

  const NO_WEIGHT := Weight(0, 0, 0)

  function WeightAt(ref: Json, remote: Store, footers: string -> Footer): Weight {
    match Load(remote, ref) case Ok(data) => WeightOf(footers(data)) case Refused(_) => NO_WEIGHT
  }

  /** The rows and sizes of the tables these references name, one by one. */
  function WeightIn(refs: seq<Json>, remote: Store, footers: string -> Footer): Weight {
    if refs == [] then NO_WEIGHT else Plus(WeightAt(refs[0], remote, footers), WeightIn(refs[1..], remote, footers))
  }

  predicate WithinWeights(w: Weight) { w.rows <= MAX_ROWS && w.decoded <= MAX_OUTPUT && w.logical <= MAX_OUTPUT }

  // ---------------------------------------------------------------- what an accepted scan means

  /** Every captured object is what the store holds for its reference, and the totals are within their caps. */
  ghost predicate Sound(s: Scanned, remote: Store) {
    (forall ref <- s.objects :: Load(remote, ref) == Ok(s.objects[ref]))
    && s.compressed <= MAX_OUTPUT && WithinWeights(s.weight) && |s.objects| <= MAX_OBJECTS
  }

  function Refs(refs: seq<Json>): set<Json> { set ref | ref in refs }

  /** From s to s' exactly these references were read. */
  ghost predicate Read(s: Scanned, s': Scanned, refs: seq<Json>, remote: Store, footers: string -> Footer) {
    && s'.compressed == s.compressed + Charged(refs)
    && s'.weight == Plus(s.weight, WeightIn(refs, remote, footers))
    && s'.objects.Keys == s.objects.Keys + Refs(refs)
  }

  lemma {:induction false} ChargedConcat(a: seq<Json>, b: seq<Json>)
    ensures Charged(a + b) == Charged(a) + Charged(b)
  {
    if a == [] {
      assert a + b == b;
    } else {
      ChargedConcat(a[1..], b);
      Uncons(a, b);
    }
  }

  lemma PlusAssociative(a: Weight, b: Weight, c: Weight)
    ensures Plus(Plus(a, b), c) == Plus(a, Plus(b, c)) && Plus(NO_WEIGHT, a) == a
  {
  }

  lemma {:induction false} WeightConcat(a: seq<Json>, b: seq<Json>, remote: Store, footers: string -> Footer)
    ensures WeightIn(a + b, remote, footers) == Plus(WeightIn(a, remote, footers), WeightIn(b, remote, footers))
  {
    if a == [] {
      assert a + b == b;
      PlusAssociative(WeightIn(b, remote, footers), NO_WEIGHT, NO_WEIGHT);
    } else {
      WeightConcat(a[1..], b, remote, footers);
      Uncons(a, b);
      PlusAssociative(WeightAt(a[0], remote, footers), WeightIn(a[1..], remote, footers), WeightIn(b, remote, footers));
    }
  }

  lemma ReadBoth(s: Scanned, m: Scanned, s': Scanned, a: seq<Json>, b: seq<Json>, remote: Store,
                 footers: string -> Footer)
    requires Read(s, m, a, remote, footers) && Read(m, s', b, remote, footers)
    ensures Read(s, s', a + b, remote, footers)
  {
    ChargedConcat(a, b);
    WeightConcat(a, b, remote, footers);
    PlusAssociative(s.weight, WeightIn(a, remote, footers), WeightIn(b, remote, footers));
    RefsConcat(a, b);
    assert s'.objects.Keys == s.objects.Keys + (Refs(a) + Refs(b));
  }

  lemma RefsConcat(a: seq<Json>, b: seq<Json>)
    ensures Refs(a + b) == Refs(a) + Refs(b)
  {
  }

  /** Capturing one more object, or the same again, keeps the captured objects right and the count bounded. */
  lemma CaptureSound(s: Scanned, s': Scanned, remote: Store, child: Json, data: string)
    requires Sound(s, remote) && s'.objects == s.objects[child := data]
    requires Load(remote, child) == Ok(data) && (child in s.objects || |s.objects| < MAX_OBJECTS)
    requires s'.compressed <= MAX_OUTPUT && WithinWeights(s'.weight)
    ensures Sound(s', remote)
  {
    OneKeyMore(s.objects, child, data);
  }

  lemma FrameReads(s: Scanned, s': Scanned, child: Json, data: string, remote: Store, footers: string -> Footer)
    requires Load(remote, child) == Ok(data)
    requires s' == Scanned(s.compressed + DescribedBytes(child), Plus(s.weight, WeightOf(footers(data))),
                           s.objects[child := data])
    ensures Read(s, s', [child], remote, footers)
  {
    assert [child][1..] == [] && Refs([child]) == {child};
    assert Charged([child]) == DescribedBytes(child) + Charged([]);
    assert WeightIn([child], remote, footers) == Plus(WeightOf(footers(data)), WeightIn([], remote, footers));
    assert s'.objects.Keys == s.objects.Keys + {child};
  }

  lemma FrameAccepted(fields: seq<Member>, s: Scanned, remote: Store, footers: string -> Footer, child: Json)
    requires ScanFrame(fields, s, remote, footers).Ok? && Field(fields, "ref") == Some(child)
    requires child in s.objects ==> Load(remote, child) == Ok(s.objects[child])
    ensures var data := Load(remote, child);
      data.Ok? && (child in s.objects || |s.objects| < MAX_OBJECTS)
      && s.compressed + DescribedBytes(child) <= MAX_OUTPUT
      && SizesOk(footers(data.value), s.weight.decoded, s.weight.logical)
      && s.weight.rows + footers(data.value).rows <= MAX_ROWS
      && ScanFrame(fields, s, remote, footers).value
         == Scanned(s.compressed + DescribedBytes(child), Plus(s.weight, WeightOf(footers(data.value))),
                    s.objects[child := data.value])
  {
  }

  lemma WeightBounded(w: Weight, f: Footer)
    requires WithinWeights(w) && SizesOk(f, w.decoded, w.logical) && w.rows + f.rows <= MAX_ROWS
    ensures WithinWeights(Plus(w, WeightOf(f)))
  {
  }

  lemma FrameRead(fields: seq<Member>, s: Scanned, remote: Store, footers: string -> Footer)
    requires Sound(s, remote) && ScanFrame(fields, s, remote, footers).Ok?
    ensures Sound(ScanFrame(fields, s, remote, footers).value, remote)
    ensures Read(s, ScanFrame(fields, s, remote, footers).value, [Field(fields, "ref").value], remote, footers)
  {
    var child, s' := Field(fields, "ref").value, ScanFrame(fields, s, remote, footers).value;
    FrameAccepted(fields, s, remote, footers, child);
    WeightBounded(s.weight, footers(Load(remote, child).value));
    CaptureSound(s, s', remote, child, Load(remote, child).value);
    FrameReads(s, s', child, Load(remote, child).value, remote, footers);
  }

  /**
   * An accepted scan captured exactly the objects the decoder will read, each as the store holds it, and charged
   * the bytes and rows of every appearance, all within the caps.
   */
  lemma {:induction false} ScanReads(node: Json, s: Scanned, remote: Store, footers: string -> Footer)
    requires Sound(s, remote) && Scan(node, s, remote, footers).Ok?
    ensures Sound(Scan(node, s, remote, footers).value, remote)
    ensures Read(s, Scan(node, s, remote, footers).value, Frames(node), remote, footers)
    decreases node, 2
  {
    if !node.JObj? {
      assert s.objects.Keys + Refs([]) == s.objects.Keys;
    } else {
      var kind := Field(node.fields, "type").value.s;
      if kind == "frame" {
        FrameRead(node.fields, s, remote, footers);
      } else {
        var items := Items(node.fields).value;
        if kind == "dict" { ScanPairsRead(items, s, remote, footers); } else { ScanAllReads(items, s, remote, footers); }
      }
    }
  }

  lemma {:induction false} ScanAllReads(items: seq<Json>, s: Scanned, remote: Store, footers: string -> Footer)
    requires Sound(s, remote) && ScanAll(items, s, remote, footers).Ok?
    ensures Sound(ScanAll(items, s, remote, footers).value, remote)
    ensures Read(s, ScanAll(items, s, remote, footers).value, FramesInAll(items), remote, footers)
    decreases items, 3
  {
    if items == [] {
      assert s.objects.Keys + Refs([]) == s.objects.Keys;
    } else {
      ScanReads(items[0], s, remote, footers);
      var m := Scan(items[0], s, remote, footers).value;
      ScanAllReads(items[1..], m, remote, footers);
      ReadBoth(s, m, ScanAll(items, s, remote, footers).value,
               Frames(items[0]), FramesInAll(items[1..]), remote, footers);
    }
  }

  lemma {:induction false} ScanPairReads(pair: Json, s: Scanned, remote: Store, footers: string -> Footer)
    requires Sound(s, remote) && ScanPair(pair, s, remote, footers).Ok?
    ensures Sound(ScanPair(pair, s, remote, footers).value, remote)
    ensures Read(s, ScanPair(pair, s, remote, footers).value, FramesInPair(pair), remote, footers)
    decreases pair, 1
  {
    var m := Scan(pair.items[0], s, remote, footers).value;
    ScanReads(pair.items[0], s, remote, footers);
    ScanReads(pair.items[1], m, remote, footers);
    ReadBoth(s, m, ScanPair(pair, s, remote, footers).value,
             Frames(pair.items[0]), Frames(pair.items[1]), remote, footers);
  }

  lemma {:induction false} ScanPairsRead(items: seq<Json>, s: Scanned, remote: Store, footers: string -> Footer)
    requires Sound(s, remote) && ScanEntries(items, s, remote, footers).Ok?
    ensures Sound(ScanEntries(items, s, remote, footers).value, remote)
    ensures Read(s, ScanEntries(items, s, remote, footers).value, FramesInPairs(items), remote, footers)
    decreases items, 3
  {
    if items == [] {
      assert s.objects.Keys + Refs([]) == s.objects.Keys;
    } else {
      ScanPairReads(items[0], s, remote, footers);
      var m := ScanPair(items[0], s, remote, footers).value;
      ScanPairsRead(items[1..], m, remote, footers);
      ReadBoth(s, m, ScanEntries(items, s, remote, footers).value,
               FramesInPair(items[0]), FramesInPairs(items[1..]), remote, footers);
    }
  }

  // ---------------------------------------------------------------- decoding from the captured objects

  /** The store the decoder sees: the captured objects only. */
  function Captured(objects: map<Json, string>): Store {
    set ref <- objects :: (FormatOf(ref), objects[ref])
  }

  function FormatOf(ref: Json): string {
    if !ref.JObj? then "" else match Field(ref.fields, "format") case Some(JStr(f)) => f case _ => ""
  }

  lemma CapturedLoads(objects: map<Json, string>, remote: Store, ref: Json)
    requires ref in objects && Load(remote, ref) == Ok(objects[ref])
    ensures Load(Captured(objects), ref) == Ok(objects[ref])
  {
    assert (FormatOf(ref), objects[ref]) in Captured(objects);
  }

  /** A node that a scan accepts decodes alike from two stores that agree on its frames, and finds all of them. */
  ghost predicate Covered(d: Result<Value, CodecError>, e: Result<Value, CodecError>) {
    d == e && (d.Refused? ==> d.error == Malformed)
  }

  ghost predicate Agree(refs: seq<Json>, a: Store, b: Store) {
    forall ref <- refs :: Load(a, ref) == Load(b, ref) && Load(a, ref).Ok?
  }

  lemma {:induction false} DecodeCovered(node: Json, s: Scanned, remote: Store, footers: string -> Footer, a: Store,
                                         b: Store)
    requires Scan(node, s, remote, footers).Ok? && Agree(Frames(node), a, b)
    ensures Covered(Decode(node, a), Decode(node, b))
    decreases node, 2
  {
    if node.JObj? {
      var kind := Field(node.fields, "type").value.s;
      if kind == "frame" {
        assert Field(node.fields, "ref").value in Frames(node);
      } else {
        var items := Items(node.fields).value;
        assert Frames(node) == if kind == "dict" then FramesInPairs(items) else FramesInAll(items);
        if kind == "dict" {
          PairsCovered(items, s, remote, footers, a, b);
        } else {
          AllCovered(items, s, remote, footers, a, b);
        }
      }
    }
  }

  lemma {:induction false} AllCovered(items: seq<Json>, s: Scanned, remote: Store, footers: string -> Footer, a: Store,
                                      b: Store)
    requires ScanAll(items, s, remote, footers).Ok? && Agree(FramesInAll(items), a, b)
    ensures DecodeAll(items, a) == DecodeAll(items, b)
      && (DecodeAll(items, a).Refused? ==> DecodeAll(items, a).error == Malformed)
    decreases items, 3
  {
    if items != [] {
      assert forall ref <- Frames(items[0]) :: ref in FramesInAll(items);
      assert forall ref <- FramesInAll(items[1..]) :: ref in FramesInAll(items);
      DecodeCovered(items[0], s, remote, footers, a, b);
      AllCovered(items[1..], Scan(items[0], s, remote, footers).value, remote, footers, a, b);
    }
  }

  lemma {:induction false} PairCovered(pair: Json, s: Scanned, remote: Store, footers: string -> Footer, a: Store, b: Store)
    requires ScanPair(pair, s, remote, footers).Ok? && Agree(FramesInPair(pair), a, b)
    ensures Covered(Decode(pair.items[0], a), Decode(pair.items[0], b))
    ensures Covered(Decode(pair.items[1], a), Decode(pair.items[1], b))
    decreases pair, 1
  {
    assert forall ref <- Frames(pair.items[0]) :: ref in FramesInPair(pair);
    assert forall ref <- Frames(pair.items[1]) :: ref in FramesInPair(pair);
    DecodeCovered(pair.items[0], s, remote, footers, a, b);
    DecodeCovered(pair.items[1], Scan(pair.items[0], s, remote, footers).value, remote, footers, a, b);
  }

  lemma {:induction false} PairsCovered(items: seq<Json>, s: Scanned, remote: Store, footers: string -> Footer, a: Store,
                                        b: Store)
    requires ScanEntries(items, s, remote, footers).Ok? && Agree(FramesInPairs(items), a, b)
    ensures DecodeEntries(items, a) == DecodeEntries(items, b)
    ensures DecodeEntries(items, a).Refused? ==> DecodeEntries(items, a).error == Malformed
    decreases items, 3
  {
    if items != [] {
      assert forall ref <- FramesInPair(items[0]) :: ref in FramesInPairs(items);
      assert forall ref <- FramesInPairs(items[1..]) :: ref in FramesInPairs(items);
      PairCovered(items[0], s, remote, footers, a, b);
      PairsCovered(items[1..], ScanPair(items[0], s, remote, footers).value, remote, footers, a, b);
    }
  }

  /**
   * Whatever a scan accepts is decoded from the captured objects alone exactly as from the store: no read misses,
   * and only a malformed dictionary, one with an unhashable key, can still be refused.
   */
  lemma ScanCoversDecode(node: Json, s: Scanned, remote: Store, footers: string -> Footer)
    requires Sound(s, remote) && Scan(node, s, remote, footers).Ok?
    ensures var captured := Captured(Scan(node, s, remote, footers).value.objects);
      Decode(node, captured) == Decode(node, remote)
      && (Decode(node, captured).Refused? ==> Decode(node, captured).error == Malformed)
  {
    ScanReads(node, s, remote, footers);
    var objects := Scan(node, s, remote, footers).value.objects;
    forall ref | ref in Frames(node)
      ensures Load(Captured(objects), ref) == Load(remote, ref) && Load(Captured(objects), ref).Ok?
    {
      assert ref in Refs(Frames(node)) && ref in objects.Keys;
      CapturedLoads(objects, remote, ref);
    }
    DecodeCovered(node, s, remote, footers, Captured(objects), remote);
  }

  // ---------------------------------------------------------------- the scan

  lemma {:induction false} SumNext(xs: seq<int>, k: nat)
    requires k < |xs|
    ensures Sum(xs[..k + 1]) == Sum(xs[..k]) + xs[k]
  {
    if k == 0 {
      assert xs[..1][1..] == [];
    } else {
      SumNext(xs[1..], k - 1);
      assert xs[..k + 1][1..] == xs[1..][..k] && xs[..k][1..] == xs[1..][..k - 1];
    }
  }

  lemma {:induction false} SumGrows(xs: seq<int>, k: nat)
    requires k <= |xs| && forall x <- xs :: x >= 0
    ensures 0 <= Sum(xs[..k]) <= Sum(xs)
  {
    if xs != [] {
      assert xs[0] in xs && forall x <- xs[1..] :: x in xs;
      SumGrows(xs[1..], if k == 0 then 0 else k - 1);
      assert k > 0 ==> xs[..k][1..] == xs[1..][..k - 1];
    }
  }

  /** Adds sizes one by one and stops at the first that is negative or takes a total over its cap. */
  method AddSizes(sizes: seq<int>, start: int, own: bool) returns (total: Option<int>)
    ensures total == if (forall size <- sizes :: size >= 0)
                        && (sizes != [] ==> start + Sum(sizes) <= MAX_OUTPUT && (own ==> Sum(sizes) <= MAX_OUTPUT))
                     then Some(start + Sum(sizes)) else None
  {
    var added := 0;
    for k := 0 to |sizes|
      invariant added == Sum(sizes[..k]) && forall size <- sizes[..k] :: size >= 0
      invariant k > 0 ==> start + added <= MAX_OUTPUT && (own ==> added <= MAX_OUTPUT)
    {
      SumNext(sizes, k);
      assert sizes[..k + 1] == sizes[..k] + [sizes[k]];
      if sizes[k] < 0 {
        assert sizes[k] in sizes;
        return None;
      }
      added := added + sizes[k];
      if (own && added > MAX_OUTPUT) || start + added > MAX_OUTPUT {
        if forall size <- sizes :: size >= 0 { SumGrows(sizes, k + 1); }
        return None;
      }
    }
    assert sizes[..|sizes|] == sizes;
    total := Some(start + added);
  }

  /** Measures a table by its metadata before it is decoded. */
  method Measure(f: Footer, decoded: int, logical: int) returns (r: Option<(int, int)>)
    ensures r == if SizesOk(f, decoded, logical) then Some((decoded + Sum(f.columns), logical + Sum(f.batches))) else None
  {
    var columns := AddSizes(f.columns, decoded, true);
    if columns.None? { return None; }
    var batches := AddSizes(f.batches, logical, false);
    if batches.None? { return None; }
    r := Some((columns.value, batches.value));
  }

  class Scanner {
    const remote: Store
    const footers: string -> Footer
    var compressed: nat
    var rows: int
    var decoded: int
    var logical: int
    var objects: map<Json, string>

    function State(): Scanned
      reads this
    {
      Scanned(compressed, Weight(rows, decoded, logical), objects)
    }

    constructor (remote: Store, footers: string -> Footer, ref: Json, body: string)
      ensures this.remote == remote && this.footers == footers
      ensures State() == Scanned(|body|, NO_WEIGHT, map[ref := body])
    {
      this.remote, this.footers := remote, footers;
      compressed, rows, decoded, logical, objects := |body|, 0, 0, 0, map[ref := body];
    }

    /** Admits one frame. */
    method AdmitFrame(fields: seq<Member>) returns (bad: Option<Reason>)
      modifies this
      ensures var r := ScanFrame(fields, old(State()), remote, footers);
        if r.Ok? then bad == None && State() == r.value else bad == Some(r.error)
    {
      if Names(fields) != {"type", "ref", "objects"} { return Some(BadFields); }
      if Field(fields, "objects") != Some(JObj([])) || Field(fields, "ref").None? { return Some(BadFields); }
      var child := Field(fields, "ref").value;
      if !DescriptorOk(child, "parquet") { return Some(BadDescriptor); }
      bad := AdmitTable(child);
    }

    method AdmitTable(child: Json) returns (bad: Option<Reason>)
      modifies this
      ensures var r := ScanTable(child, old(State()), remote, footers);
        if r.Ok? then bad == None && State() == r.value else bad == Some(r.error)
    {
      if child !in objects && |objects| >= MAX_OBJECTS { return Some(ObjectCount); }
      compressed := compressed + DescribedBytes(child);
      if compressed > MAX_OUTPUT { return Some(CompressedBytes); }
      var data := if child in objects then Ok(objects[child]) else Load(remote, child);
      if data.Refused? { return Some(Unreadable(data.error)); }
      var footer := footers(data.value);
      rows := rows + footer.rows;
      if !(0 <= footer.rows <= MAX_ROWS) || rows > MAX_ROWS { return Some(RowCap); }
      var sizes := Measure(footer, decoded, logical);
      if sizes.None? { return Some(SizeCap); }
      decoded, logical := sizes.value.0, sizes.value.1;
      objects := objects[child := data.value];
      bad := None;
    }

    /** Scans one node and everything below it; the counters cover every appearance of every frame. */
    method ScanNode(node: Json) returns (bad: Option<Reason>)
      modifies this
      ensures var r := Scan(node, old(State()), remote, footers);
        if r.Ok? then bad == None && State() == r.value else bad == Some(r.error)
      decreases node, 2
    {
      if !node.JObj? { return if node.JArr? then Some(RawList) else None; }
      var kind := Field(node.fields, "type");
      if kind == Some(JStr("dict")) || kind == Some(JStr("list")) || kind == Some(JStr("tuple")) {
        var items := Items(node.fields);
        if items.None? || Names(node.fields) != {"type", "items"} { return Some(BadFields); }
        if kind == Some(JStr("dict")) { bad := ScanPairs(items.value); } else { bad := ScanItems(items.value); }
      } else if kind == Some(JStr("frame")) {
        bad := AdmitFrame(node.fields);
      } else {
        bad := Some(UnsupportedNode);
      }
    }

    method ScanItems(items: seq<Json>) returns (bad: Option<Reason>)
      modifies this
      ensures var r := ScanAll(items, old(State()), remote, footers);
        if r.Ok? then bad == None && State() == r.value else bad == Some(r.error)
      decreases items, 3
    {
      assert items[0..] == items;
      for k := 0 to |items|
        invariant ScanAll(items[k..], State(), remote, footers) == ScanAll(items, old(State()), remote, footers)
      {
        assert items[k..][0] == items[k] && items[k..][1..] == items[k + 1..];
        bad := ScanNode(items[k]);
        if bad.Some? { return; }
      }
      bad := None;
    }

    method ScanPairs(items: seq<Json>) returns (bad: Option<Reason>)
      modifies this
      ensures var r := ScanEntries(items, old(State()), remote, footers);
        if r.Ok? then bad == None && State() == r.value else bad == Some(r.error)
      decreases items, 3
    {
      assert items[0..] == items;
      for k := 0 to |items|
        invariant ScanEntries(items[k..], State(), remote, footers) == ScanEntries(items, old(State()), remote, footers)
      {
        assert items[k..][0] == items[k] && items[k..][1..] == items[k + 1..];
        var pair := items[k];
        if !pair.JArr? || |pair.items| != 2 { return Some(BadFields); }
        bad := ScanNode(pair.items[0]);
        if bad.Some? { return; }
        bad := ScanNode(pair.items[1]);
        if bad.Some? { return; }
      }
      bad := None;
    }
  }

  lemma BodyIsDescribed(remote: Store, ref: Json)
    requires Load(remote, ref).Ok?
    ensures DescribedBytes(ref) == |Load(remote, ref).value|
  {
    assert exists format :: Refers(ref.fields, format, Load(remote, ref).value);
  }

  /** The outcome of a bounded load of the manifest value `node`: the value, and what was read to get it. */
  ghost predicate Loaded(node: Json, value: Value, objects: map<Json, string>, remote: Store, footers: string -> Footer,
                         ref: Json) {
    Decode(node, remote) == Ok(value) && Decode(node, Captured(objects)) == Ok(value)
    && WithinCaps(Frames(node), objects, remote, footers, ref)
  }

  /** Just the body and the frames were read, and every appearance was charged. */
  ghost predicate WithinCaps(refs: seq<Json>, objects: map<Json, string>, remote: Store, footers: string -> Footer,
                             ref: Json) {
    objects.Keys == {ref} + Refs(refs) && |objects| <= MAX_OBJECTS
    && DescribedBytes(ref) + Charged(refs) <= MAX_OUTPUT && WithinWeights(WeightIn(refs, remote, footers))
  }

  /** A manifest body is captured first and charged its own bytes. */
  function Started(body: string, ref: Json): Scanned { Scanned(|body|, NO_WEIGHT, map[ref := body]) }

  lemma ReadWithinCaps(s: Scanned, body: string, refs: seq<Json>, remote: Store, footers: string -> Footer, ref: Json)
    requires Sound(s, remote) && Read(Started(body, ref), s, refs, remote, footers)
    requires DescribedBytes(ref) == |body|
    ensures WithinCaps(refs, s.objects, remote, footers, ref)
  {
    OneKey(ref, body);
    PlusAssociative(WeightIn(refs, remote, footers), NO_WEIGHT, NO_WEIGHT);
  }

  lemma OneKey(ref: Json, body: string)
    ensures map[ref := body].Keys == {ref}
  {
  }

  /** The value of a well-formed manifest body. */
  function ManifestValue(manifest: Option<Json>): Option<Json> {
    if manifest.None? || !manifest.value.JObj? then None
    else
      var fields := manifest.value.fields;
      if Names(fields) == {"schema_version", "value"} && Field(fields, "schema_version") == Some(JInt(1))
      then Field(fields, "value") else None
  }

  lemma BodySound(body: string, remote: Store, ref: Json)
    requires Load(remote, ref) == Ok(body) && |body| <= MAX_OUTPUT
    ensures Sound(Started(body, ref), remote)
  {
    assert map[ref := body].Keys == {ref} && |map[ref := body]| == |map[ref := body].Keys|;
  }

  lemma ScannedWithinCaps(node: Json, body: string, remote: Store, footers: string -> Footer, ref: Json)
    requires DescribedBytes(ref) == |body| && Sound(Started(body, ref), remote)
    requires Scan(node, Started(body, ref), remote, footers).Ok?
    ensures WithinCaps(Frames(node), Scan(node, Started(body, ref), remote, footers).value.objects, remote, footers, ref)
  {
    ScanReads(node, Started(body, ref), remote, footers);
    ReadWithinCaps(Scan(node, Started(body, ref), remote, footers).value, body, Frames(node), remote, footers, ref);
  }

  lemma StartedSound(body: string, remote: Store, ref: Json)
    requires Load(remote, ref) == Ok(body) && DescriptorOk(ref, "json")
    ensures DescribedBytes(ref) == |body| && Sound(Started(body, ref), remote)
  {
    BodyIsDescribed(remote, ref);
    BodySound(body, remote, ref);
  }

  lemma ScannedIsLoaded(node: Json, body: string, remote: Store, footers: string -> Footer, ref: Json)
    requires Load(remote, ref) == Ok(body) && DescriptorOk(ref, "json")
    requires Scan(node, Started(body, ref), remote, footers).Ok?
    ensures var objects := Scan(node, Started(body, ref), remote, footers).value.objects;
      var d := Decode(node, Captured(objects));
      (d.Ok? ==> Loaded(node, d.value, objects, remote, footers, ref)) && (d.Refused? ==> d.error == Malformed)
  {
    StartedSound(body, remote, ref);
    ScannedWithinCaps(node, body, remote, footers, ref);
    ScanCoversDecode(node, Started(body, ref), remote, footers);
  }

  /**
   * Loads a persisted manifest: reads its body, scans its value, and decodes it from what the scan captured.
   * The value is the one the whole store would give, and the objects read stay within the caps.
   */
  method LoadBounded(remote: Store, footers: string -> Footer, parse: string -> Option<Json>, ref: Json)
    returns (r: Result<(Value, map<Json, string>), LoadError>)
    ensures r.Ok? ==>
      Load(remote, ref).Ok? && ManifestValue(parse(Load(remote, ref).value)).Some?
      && Loaded(ManifestValue(parse(Load(remote, ref).value)).value, r.value.0, r.value.1, remote, footers, ref)
    ensures r.Refused? && r.error.NotDecoded? ==> r.error.error == Malformed
  {
    if !DescriptorOk(ref, "json") { return Refused(NotAdmitted(BadDescriptor)); }
    var body := Load(remote, ref);
    if body.Refused? { return Refused(NotAdmitted(Unreadable(body.error))); }
    var node := ManifestValue(parse(body.value));
    if node.None? { return Refused(NotAdmitted(BadManifest)); }
    var scanner := new Scanner(remote, footers, ref, body.value);
    var bad := scanner.ScanNode(node.value);
    if bad.Some? { return Refused(NotAdmitted(bad.value)); }
    ScannedIsLoaded(node.value, body.value, remote, footers, ref);
    var value := Decode(node.value, Captured(scanner.objects));
    if value.Refused? { return Refused(NotDecoded(value.error)); }
    r := Ok((value.value, scanner.objects));
  }
}
