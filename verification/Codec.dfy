/**
 * The tagged manifest codec (apps/api/app/artifacts.py). Values are encoded to JSON nodes; tables and bytes go to
 * the object store. A digest is represented by the content it names, so it is injective.
 */
module ManifestCodec {
  import opened Common

  /** Parsed JSON; an object's fields in order. */
  datatype Member = Member(name: string, node: Json)
  datatype Json = JNull | JBool(b: bool) | JInt(n: int) | JFloat(f: real) | JStr(s: string)
    | JArr(items: seq<Json>) | JObj(fields: seq<Member>)

  datatype Float = Finite(r: real) | NaN | Infinity | MinusInfinity

  /** Durable values. Dates are their ISO texts; a frame is its Parquet content, without object columns. */
  datatype Entry = Entry(key: Value, item: Value)
  datatype Value =
    | Nothing | Bool(b: bool) | Int(n: int) | Floating(f: Float) | Str(s: string)
    | Bytes(data: string)
    | Frame(content: string)
    | Reference(ref: seq<Member>)
    | Partitioned(descriptor: Json)
    | Date(iso: string) | DateTime(iso: string)
    | List(items: seq<Value>) | Tuple(items: seq<Value>)
    | Dict(entries: seq<Entry>)

  datatype CodecError = Malformed | UnknownNode(kind: string) | MissingObject

  /** Stored objects, by format and content. */
  type Store = set<(string, string)>

  // ---------------------------------------------------------------- encoding

  function Tagged(kind: string, name: string, node: Json): Json { JObj([Member("type", JStr(kind)),
                  Member(name, node)]) }

  /** The reference `put` returns for this content. */
  function RefTo(format: string, content: string): Json {
    JObj([Member("key", JStr(content + "." + format)), Member("sha256", JStr(content)), Member("bytes", JInt(|content|)),
          Member("format", JStr(format))])
  }

  function FloatText(f: Float): string {
    match f case NaN => "nan" case Infinity => "inf" case MinusInfinity => "-inf" case Finite(_) => ""
  }

  function Encode(v: Value): Json
    decreases v, 0
  {
    match v
    case Nothing => JNull
    case Bool(b) => JBool(b)
    case Int(n) => JInt(n)
    case Floating(f) => if f.Finite? then JFloat(f.r) else Tagged("float", "value", JStr(FloatText(f)))
    case Str(s) => JStr(s)
    case Bytes(data) => Tagged("bytes", "ref", RefTo("bin", data))
    case Frame(content) => JObj([Member("type", JStr("frame")), Member("ref", RefTo("parquet", content)),
                                 Member("objects", JObj([]))])
    case Reference(ref) => Tagged("object-reference", "ref", JObj(ref))
    case Partitioned(descriptor) => Tagged("partitioned", "value", descriptor)
    case Date(iso) => Tagged("date", "value", JStr(iso))
    case DateTime(iso) => Tagged("datetime", "value", JStr(iso))
    case List(items) => Tagged("list", "items", JArr(EncodeAll(items)))
    case Tuple(items) => Tagged("tuple", "items", JArr(EncodeAll(items)))
    case Dict(entries) => Tagged("dict", "items", JArr(EncodeEntries(entries)))
  }

  function EncodeAll(items: seq<Value>): (r: seq<Json>)
    ensures |r| == |items|
    decreases items, 1
  {
    if items == [] then [] else [Encode(items[0])] + EncodeAll(items[1..])
  }

  function EncodeEntries(entries: seq<Entry>): (r: seq<Json>)
    ensures |r| == |entries|
    decreases entries, 1
  {
    if entries == [] then [] else [EncodeEntry(entries[0])] + EncodeEntries(entries[1..])
  }

  function EncodeEntry(e: Entry): Json
    decreases e, 1
  {
    JArr([Encode(e.key), Encode(e.item)])
  }

  /** The objects that encoding a value puts into the store. */
  function Stored(v: Value): Store
    decreases v, 0
  {
    match v
    case Bytes(data) => {("bin", data)}
    case Frame(content) => {("parquet", content)}
    case List(items) => StoredAll(items)
    case Tuple(items) => StoredAll(items)
    case Dict(entries) => StoredEntries(entries)
    case _ => {}
  }

  function StoredAll(items: seq<Value>): Store
    decreases items, 1
  {
    if items == [] then {} else Stored(items[0]) + StoredAll(items[1..])
  }

  function StoredEntries(entries: seq<Entry>): Store
    decreases entries, 1
  {
    if entries == [] then {} else StoredEntry(entries[0]) + StoredEntries(entries[1..])
  }

  function StoredEntry(e: Entry): Store
    decreases e, 1
  {
    Stored(e.key) + Stored(e.item)
  }

  // ---------------------------------------------------------------- dictionaries

  function Numeric(v: Value): Option<real> {
    match v
    case Bool(b) => Some(if b then 1.0 else 0.0)
    case Int(n) => Some(n as real)
    case Floating(f) => if f.Finite? then Some(f.r) else None
    case _ => None
  }

  /** Equality of dictionary keys: 1, 1.0 and True are one key; a NaN equals nothing. */
  predicate SameKey(a: Value, b: Value)
    decreases a
  {
    if Numeric(a).Some? || Numeric(b).Some? then Numeric(a) == Numeric(b)
    else if a == Floating(NaN) then false
    else if a.Tuple? && b.Tuple? then SameKeys(a.items, b.items)
    else a == b
  }

  predicate SameKeys(a: seq<Value>, b: seq<Value>)
    decreases a
  {
    if a == [] || b == [] then a == b else SameKey(a[0], b[0]) && SameKeys(a[1..], b[1..])
  }

  predicate Hashable(v: Value)
    decreases v
  {
    match v
    case Tuple(items) => forall i | 0 <= i < |items| :: Hashable(items[i])
    case Frame(_) => false
    case Reference(_) => false
    case Partitioned(_) => false
    case List(_) => false
    case Dict(_) => false
    case _ => true
  }

  /** Assigns one key: an equal key keeps its place and takes the new value. */
  function Assign(entries: seq<Entry>, key: Value, v: Value): seq<Entry> {
    if entries == [] then [Entry(key, v)]
    else if SameKey(entries[0].key, key) then [Entry(entries[0].key, v)] + entries[1..]
    else [entries[0]] + Assign(entries[1..], key, v)
  }

  /** The dictionary a sequence of assignments builds. */
  function Build(entries: seq<Entry>): seq<Entry> {
    if entries == [] then []
    else
      var n := |entries| - 1;
      Assign(Build(entries[..n]), entries[n].key, entries[n].item)
  }

  ghost predicate DistinctKeys(entries: seq<Entry>) {
    forall i, j :: 0 <= i < j < |entries| ==> !SameKey(entries[i].key, entries[j].key)
  }

  // ---------------------------------------------------------------- decoding

  function Field(fields: seq<Member>, name: string): (r: Option<Json>)
    ensures r.Some? ==> (fields decreases to r.value)
  {
    if fields == [] then None else if fields[0].name == name then Some(fields[0].node) else Field(fields[1..], name)
  }

  /** A JSON value as it is, with ordinary lists and dictionaries. */
  function FromJson(j: Json): Value
    decreases j, 0
  {
    match j
    case JNull => Nothing
    case JBool(b) => Bool(b)
    case JInt(n) => Int(n)
    case JFloat(f) => Floating(Finite(f))
    case JStr(s) => Str(s)
    case JArr(items) => List(FromAll(items))
    case JObj(fields) => Dict(FromFields(fields))
  }

  function FromAll(items: seq<Json>): seq<Value>
    decreases items, 1
  {
    if items == [] then [] else [FromJson(items[0])] + FromAll(items[1..])
  }

  function FromFields(fields: seq<Member>): seq<Entry>
    decreases fields, 1
  {
    if fields == [] then [] else [Entry(Str(fields[0].name), FromJson(fields[0].node))] + FromFields(fields[1..])
  }

  /** The fields of a reference, by name, are those of this object. */
  predicate Refers(fields: seq<Member>, format: string, content: string) {
    Field(fields, "key") == Some(JStr(content + "." + format)) && Field(fields, "sha256") == Some(JStr(content))
    && Field(fields, "bytes") == Some(JInt(|content|)) && Field(fields, "format") == Some(JStr(format))
  }

  /** The content a reference names, if it is a proper reference to a stored object. */
  function Load(store: Store, ref: Json): Result<string, CodecError> {
    if !ref.JObj? then Refused(Malformed)
    else match (Field(ref.fields, "sha256"), Field(ref.fields, "format"))
      case (Some(JStr(content)), Some(JStr(format))) =>
        if !Refers(ref.fields, format, content) then Refused(Malformed)
        else if (format, content) !in store then Refused(MissingObject) else Ok(content)
      case _ => Refused(Malformed)
  }

  function DecodeAtom(kind: string, fields: seq<Member>, store: Store): Result<Value, CodecError> {
    var ref, value := Field(fields, "ref"), Field(fields, "value");
    if kind == "object-reference" then
      match ref case Some(JObj(inner)) => Ok(Reference(inner)) case _ => Refused(Malformed)
    else if kind == "bytes" then
      if ref.None? then Refused(Malformed)
      else match Load(store, ref.value) case Ok(data) => Ok(Bytes(data)) case Refused(e) => Refused(e)
    else if kind == "partitioned" then
      if value.None? then Refused(Malformed) else Ok(FromJson(value.value))
    else if kind == "frame" then
      if ref.None? || Field(fields, "objects") != Some(JObj([])) then Refused(Malformed)
      else match Load(store, ref.value) case Ok(content) => Ok(Frame(content)) case Refused(e) => Refused(e)
    else if kind == "datetime" || kind == "date" then
      match value
      case Some(JStr(iso)) => Ok(if kind == "date" then Date(iso) else DateTime(iso))
      case _ => Refused(Malformed)
    else if kind == "float" then
      if value == Some(JStr("nan")) then Ok(Floating(NaN))
      else if value == Some(JStr("inf")) then Ok(Floating(Infinity))
      else if value == Some(JStr("-inf")) then Ok(Floating(MinusInfinity)) else Refused(Malformed)
    else Refused(UnknownNode(kind))
  }

  function Decode(j: Json, store: Store): Result<Value, CodecError>
    decreases j, 2
  {
    if !j.JObj? then Ok(FromJson(j))
    else match Field(j.fields, "type")
      case Some(JStr(kind)) =>
        if kind == "dict" || kind == "tuple" || kind == "list" then DecodeNested(kind, j.fields, store)
        else DecodeAtom(kind, j.fields, store)
      case _ => Refused(Malformed)
  }

  function DecodeNested(kind: string, fields: seq<Member>, store: Store): Result<Value, CodecError>
    decreases fields, 1
  {
    match Items(fields)
    case None => Refused(Malformed)
    case Some(items) =>
      if kind == "dict" then
        match DecodeEntries(items, store) case Ok(entries) => Ok(Dict(Build(entries))) case Refused(e) => Refused(e)
      else
        match DecodeAll(items, store)
        case Ok(values) => Ok(if kind == "tuple" then Tuple(values) else List(values))
        case Refused(e) => Refused(e)
  }

  /** The items of a nested node. */
  function Items(fields: seq<Member>): (r: Option<seq<Json>>)
    ensures r.Some? ==> (fields decreases to r.value)
  {
    match Field(fields, "items") case Some(JArr(items)) => Some(items) case _ => None
  }

  function DecodeAll(items: seq<Json>, store: Store): Result<seq<Value>, CodecError>
    decreases items, 3
  {
    if items == [] then Ok([])
    else match Decode(items[0], store)
      case Refused(e) => Refused(e)
      case Ok(first) =>
        match DecodeAll(items[1..], store) case Refused(e) => Refused(e) case Ok(rest) => Ok([first] + rest)
  }

  function DecodeEntries(items: seq<Json>, store: Store): Result<seq<Entry>, CodecError>
    decreases items, 3
  {
    if items == [] then Ok([])
    else if !items[0].JArr? || |items[0].items| != 2 then Refused(Malformed)
    else
      var key, v, rest := Decode(items[0].items[0], store), Decode(items[0].items[1], store), DecodeEntries(items[1..], store);
      if key.Refused? then Refused(key.error)
      else if v.Refused? then Refused(v.error)
      else if !Hashable(key.value) then Refused(Malformed)
      else if rest.Refused? then Refused(rest.error) else Ok([Entry(key.value, v.value)] + rest.value)
  }

  // ---------------------------------------------------------------- round trip

  /** Dictionaries have hashable, pairwise different keys, as the language requires. */
  ghost predicate WellFormed(v: Value)
    decreases v, 0
  {
    match v
    case List(items) => AllWellFormed(items)
    case Tuple(items) => AllWellFormed(items)
    case Dict(entries) => DistinctKeys(entries) && EntriesWellFormed(entries)
    case _ => true
  }

  ghost predicate AllWellFormed(items: seq<Value>)
    decreases items, 1
  {
    items == [] || (WellFormed(items[0]) && AllWellFormed(items[1..]))
  }

  ghost predicate EntryWellFormed(e: Entry)
    decreases e, 1
  {
    Hashable(e.key) && WellFormed(e.key) && WellFormed(e.item)
  }

  ghost predicate EntriesWellFormed(entries: seq<Entry>)
    decreases entries, 1
  {
    entries == [] || (EntryWellFormed(entries[0]) && EntriesWellFormed(entries[1..]))
  }

  /** A partitioned table comes back as its descriptor, an ordinary dictionary; everything else as it was. */
  function Settle(v: Value): Value
    decreases v, 0
  {
    match v
    case Partitioned(descriptor) => FromJson(descriptor)
    case List(items) => List(SettleAll(items))
    case Tuple(items) => Tuple(SettleAll(items))
    case Dict(entries) => Dict(SettleEntries(entries))
    case _ => v
  }

  function SettleAll(items: seq<Value>): seq<Value>
    decreases items, 1
  {
    if items == [] then [] else [Settle(items[0])] + SettleAll(items[1..])
  }

  function SettleEntry(e: Entry): Entry
    decreases e, 1
  {
    Entry(Settle(e.key), Settle(e.item))
  }

  function SettleEntries(entries: seq<Entry>): seq<Entry>
    decreases entries, 1
  {
    if entries == [] then [] else [SettleEntry(entries[0])] + SettleEntries(entries[1..])
  }

  predicate HasPartition(v: Value)
    decreases v, 0
  {
    match v
    case Partitioned(_) => true
    case List(items) => AnyPartition(items)
    case Tuple(items) => AnyPartition(items)
    case Dict(entries) => EntriesPartition(entries)
    case _ => false
  }

  predicate AnyPartition(items: seq<Value>)
    decreases items, 1
  {
    items != [] && (HasPartition(items[0]) || AnyPartition(items[1..]))
  }

  predicate EntryPartition(e: Entry)
    decreases e, 1
  {
    HasPartition(e.key) || HasPartition(e.item)
  }

  predicate EntriesPartition(entries: seq<Entry>)
    decreases entries, 1
  {
    entries != [] && (EntryPartition(entries[0]) || EntriesPartition(entries[1..]))
  }

  lemma {:induction false} SettleChanges(v: Value)
    ensures Settle(v) == v <==> !HasPartition(v)
    decreases v, 0
  {
    match v {
      case List(items) => SettleAllChanges(items);
      case Tuple(items) => SettleAllChanges(items);
      case Dict(entries) => SettleEntriesChange(entries);
      case Partitioned(d) => assert !FromJson(d).Partitioned?;
      case _ =>
    }
  }

  lemma {:induction false} SettleAllChanges(items: seq<Value>)
    ensures SettleAll(items) == items <==> !AnyPartition(items)
    decreases items, 1
  {
    if items != [] {
      SettleChanges(items[0]);
      SettleAllChanges(items[1..]);
      assert items == [items[0]] + items[1..];
      assert SettleAll(items)[0] == Settle(items[0]) && SettleAll(items)[1..] == SettleAll(items[1..]);
    }
  }

  lemma {:induction false} SettleEntryChanges(e: Entry)
    ensures SettleEntry(e) == e <==> !EntryPartition(e)
    decreases e, 1
  {
    SettleChanges(e.key);
    SettleChanges(e.item);
  }

  lemma {:induction false} SettleEntriesChange(entries: seq<Entry>)
    ensures SettleEntries(entries) == entries <==> !EntriesPartition(entries)
    decreases entries, 1
  {
    if entries != [] {
      SettleEntryChanges(entries[0]);
      SettleEntriesChange(entries[1..]);
      assert entries == [entries[0]] + entries[1..];
      assert SettleEntries(entries)[0] == SettleEntry(entries[0])
        && SettleEntries(entries)[1..] == SettleEntries(entries[1..]);
    }
  }

  lemma {:induction false} HashableSettles(v: Value)
    requires Hashable(v)
    ensures !HasPartition(v)
    decreases v, 0
  {
    if v.Tuple? { HashablesSettle(v.items); }
  }

  lemma {:induction false} HashablesSettle(items: seq<Value>)
    requires forall i | 0 <= i < |items| :: Hashable(items[i])
    ensures !AnyPartition(items)
    decreases items, 1
  {
    if items != [] {
      HashableSettles(items[0]);
      HashablesSettle(items[1..]);
    }
  }

  lemma {:induction false} AssignNew(entries: seq<Entry>, key: Value, v: Value)
    requires forall i :: 0 <= i < |entries| ==> !SameKey(entries[i].key, key)
    ensures Assign(entries, key, v) == entries + [Entry(key, v)]
  {
    if entries != [] { AssignNew(entries[1..], key, v); }
  }

  /** Rebuilding a dictionary from its own entries changes nothing. */
  lemma {:induction false} BuildDistinct(entries: seq<Entry>)
    requires DistinctKeys(entries)
    ensures Build(entries) == entries
  {
    if entries != [] {
      var n := |entries| - 1;
      BuildDistinct(entries[..n]);
      AssignNew(entries[..n], entries[n].key, entries[n].item);
    }
  }

  lemma {:induction false} SettleKeepsKeys(entries: seq<Entry>)
    requires EntriesWellFormed(entries)
    ensures |SettleEntries(entries)| == |entries|
    ensures forall i :: 0 <= i < |entries| ==> SettleEntries(entries)[i].key == entries[i].key
  {
    if entries != [] {
      HashableSettles(entries[0].key);
      SettleChanges(entries[0].key);
      SettleKeepsKeys(entries[1..]);
    }
  }

  lemma FieldsOf(kind: string, name: string, node: Json)
    requires name != "type"
    ensures var fields := Tagged(kind, name, node).fields;
      Field(fields, "type") == Some(JStr(kind)) && Field(fields, name) == Some(node)
  {
    var fields := Tagged(kind, name, node).fields;
    assert fields[1..] == [Member(name, node)] && fields[1..][1..] == [];
  }

  lemma RefToRefers(format: string, content: string)
    ensures Refers(RefTo(format, content).fields, format, content)
  {
    var fields := RefTo(format, content).fields;
    assert |"key"| == 3 && |"sha256"| == 6 && |"bytes"| == 5 && |"format"| == 6 && "sha256"[0] == 's'
      && "format"[0] == 'f';
    assert fields[1..][0].name == "sha256" && fields[2..][0].name == "bytes" && fields[3..][0].name == "format";
    assert fields[1..][1..] == fields[2..] && fields[2..][1..] == fields[3..];
    assert Field(fields[3..], "format") == Some(JStr(format)) && Field(fields[2..], "bytes") == Some(JInt(|content|));
    assert Field(fields[2..], "format") == Some(JStr(format)) && Field(fields[1..], "bytes") == Some(JInt(|content|));
    assert Field(fields[1..], "format") == Some(JStr(format)) && Field(fields[1..], "sha256") == Some(JStr(content));
  }

  /** A stored object is loaded by any reference with its four fields, in whatever order they are written. */
  lemma LoadsInAnyOrder(fields: seq<Member>, format: string, content: string, store: Store)
    requires (format, content) in store
    requires forall m :: m in fields <==> m in RefTo(format, content).fields
    requires forall i, j :: 0 <= i < j < |fields| ==> fields[i].name != fields[j].name
    ensures Load(store, JObj(fields)) == Ok(content)
  {
    RefToRefers(format, content);
    var names := RefTo(format, content).fields;
    FieldOfMember(fields, names[0]);
    FieldOfMember(fields, names[1]);
    FieldOfMember(fields, names[2]);
    FieldOfMember(fields, names[3]);
  }

  lemma {:induction false} FieldOfMember(fields: seq<Member>, m: Member)
    requires m in fields && forall i, j :: 0 <= i < j < |fields| ==> fields[i].name != fields[j].name
    ensures Field(fields, m.name) == Some(m.node)
  {
    if fields[0] != m {
      assert m in fields[1..];
      FieldOfMember(fields[1..], m);
    }
  }

  lemma LoadStored(format: string, content: string, store: Store)
    requires (format, content) in store
    ensures Load(store, RefTo(format, content)) == Ok(content)
  {
    RefToRefers(format, content);
  }

  lemma FrameFields(content: string)
    ensures var fields := Encode(Frame(content)).fields;
      Field(fields, "type") == Some(JStr("frame")) && Field(fields, "ref") == Some(RefTo("parquet", content))
      && Field(fields, "objects") == Some(JObj([]))
  {
    var fields := Encode(Frame(content)).fields;
    assert |"type"| == 4 && |"ref"| == 3 && |"objects"| == 7 && |"frame"| == 5 && "frame"[0] == 'f';
    assert fields[1..][0].name == "ref" && fields[2..][0].name == "objects";
    assert Field(fields, "type") == Some(JStr("frame"));
    assert fields[1..][1..] == fields[2..] && Field(fields[2..], "objects") == Some(JObj([]));
    assert Field(fields[1..], "ref") == Some(RefTo("parquet", content))
      && Field(fields[1..], "objects") == Some(JObj([]));
  }

  lemma FrameRoundTrip(content: string, store: Store)
    requires ("parquet", content) in store
    ensures Decode(Encode(Frame(content)), store) == Ok(Frame(content))
  {
    FrameFields(content);
    LoadStored("parquet", content, store);
    var fields := Encode(Frame(content)).fields;
    assert DecodeAtom("frame", fields, store) == Ok(Frame(content));
  }

  lemma FloatRoundTrip(f: Float, store: Store)
    ensures Decode(Encode(Floating(f)), store) == Ok(Floating(f))
  {
    FieldsOf("float", "value", JStr(FloatText(f)));
  }

  lemma BytesRoundTrip(data: string, store: Store)
    requires ("bin", data) in store
    ensures Decode(Encode(Bytes(data)), store) == Ok(Bytes(data))
  {
    FieldsOf("bytes", "ref", RefTo("bin", data));
    LoadStored("bin", data, store);
  }

  lemma AtomRoundTrip(v: Value, store: Store)
    requires !v.List? && !v.Tuple? && !v.Dict? && Stored(v) <= store
    ensures Decode(Encode(v), store) == Ok(Settle(v))
  {
    match v {
      case Floating(f) => FloatRoundTrip(f, store);
      case Bytes(data) => BytesRoundTrip(data, store);
      case Frame(content) => FrameRoundTrip(content, store);
      case Reference(ref) => FieldsOf("object-reference", "ref", JObj(ref));
      case Partitioned(descriptor) => FieldsOf("partitioned", "value", descriptor);
      case Date(iso) => FieldsOf("date", "value", JStr(iso));
      case DateTime(iso) => FieldsOf("datetime", "value", JStr(iso));
      case _ =>
    }
  }

  lemma NestedDecodes(kind: string, items: seq<Json>, store: Store)
    requires kind == "dict" || kind == "tuple" || kind == "list"
    ensures var fields := Tagged(kind, "items", JArr(items)).fields;
      Decode(JObj(fields), store) == DecodeNested(kind, fields, store) && Items(fields) == Some(items)
  {
    FieldsOf(kind, "items", JArr(items));
  }

  /** Decoding an encoded value from any store that still has its objects gives the value back. */
  lemma {:induction false} RoundTrip(v: Value, store: Store)
    requires WellFormed(v) && Stored(v) <= store
    ensures Decode(Encode(v), store) == Ok(Settle(v))
    decreases v, 0
  {
    match v {
      case List(items) =>
        NestedDecodes("list", EncodeAll(items), store);
        RoundTripAll(items, store);
      case Tuple(items) =>
        NestedDecodes("tuple", EncodeAll(items), store);
        RoundTripAll(items, store);
      case Dict(entries) =>
        NestedDecodes("dict", EncodeEntries(entries), store);
        RoundTripEntries(entries, store);
        SettleKeepsKeys(entries);
        BuildDistinct(SettleEntries(entries));
      case _ => AtomRoundTrip(v, store);
    }
  }

  lemma {:induction false} RoundTripAll(items: seq<Value>, store: Store)
    requires AllWellFormed(items) && StoredAll(items) <= store
    ensures DecodeAll(EncodeAll(items), store) == Ok(SettleAll(items))
    decreases items, 1
  {
    if items != [] {
      RoundTrip(items[0], store);
      RoundTripAll(items[1..], store);
      assert EncodeAll(items)[1..] == EncodeAll(items[1..]);
    }
  }

  lemma {:induction false} RoundTripEntry(e: Entry, store: Store)
    requires EntryWellFormed(e) && StoredEntry(e) <= store
    ensures Decode(Encode(e.key), store) == Ok(e.key) && Decode(Encode(e.item), store) == Ok(Settle(e.item))
    ensures Settle(e.key) == e.key
    decreases e, 1
  {
    RoundTrip(e.key, store);
    RoundTrip(e.item, store);
    HashableSettles(e.key);
    SettleChanges(e.key);
  }

  lemma {:induction false} RoundTripEntries(entries: seq<Entry>, store: Store)
    requires EntriesWellFormed(entries) && StoredEntries(entries) <= store
    ensures DecodeEntries(EncodeEntries(entries), store) == Ok(SettleEntries(entries))
    decreases entries, 1
  {
    if entries != [] {
      RoundTripEntry(entries[0], store);
      RoundTripEntries(entries[1..], store);
      assert EncodeEntries(entries)[1..] == EncodeEntries(entries[1..]);
    }
  }

  /** The value itself comes back exactly if it holds no partitioned table. */
  lemma ExactRoundTrip(v: Value, store: Store)
    requires WellFormed(v) && Stored(v) <= store
    ensures Decode(Encode(v), store) == Ok(v) <==> !HasPartition(v)
  {
    RoundTrip(v, store);
    SettleChanges(v);
  }

  lemma PlainText(s: string)
    ensures WellFormed(Str(s)) && Stored(Str(s)) == {} && !HasPartition(Str(s)) && Hashable(Str(s))
  {
  }

  lemma OneEntry(e: Entry)
    ensures EntriesWellFormed([e]) <==> EntryWellFormed(e)
    ensures EntriesPartition([e]) <==> EntryPartition(e)
    ensures StoredEntries([e]) == StoredEntry(e)
  {
    assert [e][1..] == [];
    assert EntriesWellFormed([e][1..]) && !EntriesPartition([e][1..]) && StoredEntries([e][1..]) == {};
  }

  /** An ordinary dictionary that looks like a node, here of bytes, comes back as that dictionary. */
  lemma LookalikeStaysOrdinary(kind: string, ref: Value, store: Store)
    requires WellFormed(ref) && !HasPartition(ref) && Stored(ref) <= store
    ensures var v := Dict([Entry(Str("type"), Str(kind)), Entry(Str("ref"), ref)]);
      Decode(Encode(v), store) == Ok(v)
  {
    var first, second := Entry(Str("type"), Str(kind)), Entry(Str("ref"), ref);
    var entries := [first, second];
    assert entries[1..] == [second] && [second][1..] == [];
    OneEntry(second);
    PlainText("type");
    PlainText("ref");
    PlainText(kind);
    assert EntryWellFormed(first) && StoredEntry(first) == {} && !EntryPartition(first);
    assert EntryWellFormed(second) && StoredEntry(second) == Stored(ref) && !EntryPartition(second);
    assert StoredEntries(entries) == StoredEntry(first) + StoredEntries(entries[1..]);
    assert !EntriesPartition(entries) && DistinctKeys(entries);
    ExactRoundTrip(Dict(entries), store);
  }
}
