/** Structural paths of the tables in a manifest (apps/api/app/artifacts.py), escaped as in section 3 of RFC 6901. */
module TablePaths {
  import opened Common
  import opened ManifestCodec

  // ---------------------------------------------------------------- escaping

  /** Every occurrence of one character replaced, as str.replace does. */
  function Replace(s: string, c: char, into: string): string {
    if s == "" then "" else (if s[0] == c then into else [s[0]]) + Replace(s[1..], c, into)
  }

  function Escape(s: string): string { Replace(Replace(s, '~', "~0"), '/', "~1") }

  /** The inverse: a tilde and the digit after it stand for one character. */
  function Unescape(s: string): string {
    if s == "" then ""
    else if s[0] == '~' && |s| >= 2 then (if s[1] == '0' then "~" else if s[1] == '1' then "/" else s[..2]) + Unescape(s[2..])
    else [s[0]] + Unescape(s[1..])
  }

  function EscapeChar(c: char): string { if c == '~' then "~0" else if c == '/' then "~1" else [c] }

  lemma {:induction false} ReplaceConcat(a: string, b: string, c: char, into: string)
    ensures Replace(a + b, c, into) == Replace(a, c, into) + Replace(b, c, into)
  {
    if a == "" {
      assert a + b == b;
    } else {
      ReplaceConcat(a[1..], b, c, into);
      Uncons(a, b);
      var head := if a[0] == c then into else [a[0]];
      Associative(head, Replace(a[1..], c, into), Replace(b, c, into));
    }
  }

  lemma EscapeNext(s: string)
    requires s != ""
    ensures Escape(s) == EscapeChar(s[0]) + Escape(s[1..])
  {
    var head := if s[0] == '~' then "~0" else [s[0]];
    ReplaceConcat(head, Replace(s[1..], '~', "~0"), '/', "~1");
    assert head[1..] == if s[0] == '~' then "0" else "";
    assert Replace("", '/', "~1") == "" && "0"[1..] == "" && Replace("0", '/', "~1") == "0";
  }

  lemma {:induction false} UnescapeEscape(s: string)
    ensures Unescape(Escape(s)) == s && '/' !in Escape(s)
  {
    if s != "" {
      EscapeNext(s);
      UnescapeEscape(s[1..]);
      var rest := Escape(s[1..]);
      if s[0] == '~' || s[0] == '/' {
        assert Escape(s)[2..] == rest && Escape(s)[..2] == EscapeChar(s[0]);
      } else {
        assert Escape(s)[1..] == rest;
      }
    }
  }

  // ---------------------------------------------------------------- printing

  function Digit(n: nat): char
    requires n < 10
  {
    ['0', '1', '2', '3', '4', '5', '6', '7', '8', '9'][n]
  }

  function Decimal(n: nat): string { if n < 10 then [Digit(n)] else Decimal(n / 10) + [Digit(n % 10)] }

  function Signed(n: int): string { if n < 0 then "-" + Decimal(-n) else Decimal(n) }

  lemma {:induction false} DecimalInjective(a: nat, b: nat)
    requires Decimal(a) == Decimal(b)
    ensures a == b
  {
    var s, t := Decimal(a), Decimal(b);
    assert s[|s| - 1] == Digit(a % 10) && t[|t| - 1] == Digit(b % 10);
    assert a % 10 == b % 10;
    if a >= 10 && b >= 10 {
      assert s[..|s| - 1] == Decimal(a / 10) && t[..|t| - 1] == Decimal(b / 10);
      DecimalInjective(a / 10, b / 10);
    }
  }

  /** The text of any other key: a float, or a key that is itself a node. Nothing is assumed of it. */
  type Repr = Json -> string

  /** The text of an encoded key, as str gives it. */
  function KeyText(key: Json, repr: Repr): string {
    match key
    case JStr(s) => s
    case JInt(n) => Signed(n)
    case JBool(b) => if b then "True" else "False"
    case JNull => "None"
    case _ => repr(key)
  }

  /** A path from the root: one escaped segment after each slash. */
  function Print(segments: seq<string>): string {
    if segments == [] then "" else "/" + Escape(segments[0]) + Print(segments[1..])
  }

  /** The segment before the first slash, and what follows it. */
  function Until(s: string): (string, string) {
    if s == "" || s[0] == '/' then ("", s) else var (a, b) := Until(s[1..]); ([s[0]] + a, b)
  }

  lemma {:induction false} UntilSlash(a: string, b: string)
    requires '/' !in a && (b == "" || b[0] == '/')
    ensures Until(a + b) == (a, b)
  {
    if a == "" {
      assert a + b == b;
    } else {
      UntilSlash(a[1..], b);
      assert (a + b)[1..] == a[1..] + b && (a + b)[0] == a[0] && a == [a[0]] + a[1..];
    }
  }

  lemma FirstSegment(a: seq<string>)
    requires a != []
    ensures Print(a) != "" && Until(Print(a)[1..]) == (Escape(a[0]), Print(a[1..]))
  {
    var head, tail := Escape(a[0]), Print(a[1..]);
    UnescapeEscape(a[0]);
    PrintStarts(a[1..]);
    UntilSlash(head, tail);
    AfterSlash(head, tail);
  }

  lemma PrintStarts(a: seq<string>)
    ensures Print(a) == "" || Print(a)[0] == '/'
  {
  }

  lemma AfterSlash(head: string, tail: string)
    ensures ("/" + head + tail)[1..] == head + tail
  {
  }

  /** Different segment lists print differently, whatever tildes and slashes they contain. */
  lemma {:induction false} PrintInjective(a: seq<string>, b: seq<string>)
    requires Print(a) == Print(b)
    ensures a == b
    decreases |a|
  {
    if a != [] { FirstSegment(a); }
    if b != [] { FirstSegment(b); }
    if a != [] && b != [] {
      UnescapeEscape(a[0]);
      UnescapeEscape(b[0]);
      PrintInjective(a[1..], b[1..]);
      assert a == [a[0]] + a[1..] && b == [b[0]] + b[1..];
    }
  }

  lemma {:induction false} PrintConcat(a: seq<string>, b: seq<string>)
    ensures Print(a + b) == Print(a) + Print(b)
  {
    if a == [] {
      assert a + b == b;
    } else {
      PrintConcat(a[1..], b);
      Uncons(a, b);
      Associative("/" + Escape(a[0]), Print(a[1..]), Print(b));
    }
  }

  lemma PrintNext(a: seq<string>, segment: string)
    ensures Print(a + [segment]) == Print(a) + "/" + Escape(segment)
  {
    PrintConcat(a, [segment]);
    assert [segment][1..] == [];
  }

  lemma OneCharKept(d: char, c: char, into: string)
    requires d != c
    ensures Replace([d], c, into) == [d]
  {
    assert [d][1..] == "";
    assert Replace("", c, into) == "";
  }

  lemma {:induction false} DecimalPlain(n: nat)
    ensures Escape(Decimal(n)) == Decimal(n)
  {
    if n >= 10 {
      DecimalPlain(n / 10);
      ReplaceConcat(Decimal(n / 10), [Digit(n % 10)], '~', "~0");
      ReplaceConcat(Replace(Decimal(n / 10), '~', "~0"), Replace([Digit(n % 10)], '~', "~0"), '/', "~1");
    }
    OneCharKept(Digit(n % 10), '~', "~0");
    OneCharKept(Digit(n % 10), '/', "~1");
  }

  // ---------------------------------------------------------------- the visit

  datatype Found = Found(path: string, node: Json)

  function Kind(fields: seq<Member>): string { match Field(fields, "type") case Some(JStr(s)) => s case _ => "" }

  function Rooted(path: string): string { if path == "" then "$" else path }

  /** The table leaves under a node, in the order of the visit. */
  function Visit(node: Json, path: string, repr: Repr): seq<Found>
    decreases node, 2
  {
    if !node.JObj? then [] else VisitFields(node.fields, path, repr)
  }

  function VisitFields(fields: seq<Member>, path: string, repr: Repr): seq<Found>
    decreases fields, 1
  {
    var kind := Kind(fields);
    if kind == "frame" then match Field(fields, "ref") case Some(ref) => [Found(Rooted(path), ref)] case None => []
    else if kind == "partitioned" then match Field(fields, "value") case Some(d) => [Found(Rooted(path), d)] case None => []
    else match Items(fields)
      case None => []
      case Some(items) =>
        if kind == "dict" then VisitEntries(items, path, repr)
        else if kind == "tuple" || kind == "list" then VisitItems(items, path, 0, repr) else []
  }

  function VisitEntries(items: seq<Json>, path: string, repr: Repr): seq<Found>
    decreases items, 3
  {
    if items == [] then []
    else
      (if items[0].JArr? && |items[0].items| == 2
       then Visit(items[0].items[1], path + "/" + Escape(KeyText(items[0].items[0], repr)), repr) else [])
      + VisitEntries(items[1..], path, repr)
  }

  function VisitItems(items: seq<Json>, path: string, i: nat, repr: Repr): seq<Found>
    decreases items, 3
  {
    if items == [] then [] else Visit(items[0], path + "/" + Decimal(i), repr) + VisitItems(items[1..], path, i + 1, repr)
  }

  // ---------------------------------------------------------------- the tables of a value

  /** A table inside a value: the unescaped segments that lead to it, and what the manifest keeps of it. */
  datatype Leaf = Leaf(segments: seq<string>, node: Json)

  function KeyOf(key: Value, repr: Repr): string { KeyText(Encode(key), repr) }

  function Under(segment: string, leaves: seq<Leaf>): (r: seq<Leaf>)
    ensures |r| == |leaves|
    ensures forall i :: 0 <= i < |r| ==> r[i] == Leaf([segment] + leaves[i].segments, leaves[i].node)
  {
    seq(|leaves|, i requires 0 <= i < |leaves| => Leaf([segment] + leaves[i].segments, leaves[i].node))
  }

  function Leaves(v: Value, repr: Repr): seq<Leaf>
    decreases v, 0
  {
    match v
    case Frame(content) => [Leaf([], RefTo("parquet", content))]
    case Partitioned(descriptor) => [Leaf([], descriptor)]
    case List(items) => LeavesOfItems(items, 0, repr)
    case Tuple(items) => LeavesOfItems(items, 0, repr)
    case Dict(entries) => LeavesOfEntries(entries, repr)
    case _ => []
  }

  function LeavesOfItems(items: seq<Value>, i: nat, repr: Repr): seq<Leaf>
    decreases items, 1
  {
    if items == [] then [] else Under(Decimal(i), Leaves(items[0], repr)) + LeavesOfItems(items[1..], i + 1, repr)
  }

  function LeavesOfEntry(e: Entry, repr: Repr): seq<Leaf>
    decreases e, 1
  {
    Under(KeyOf(e.key, repr), Leaves(e.item, repr))
  }

  function LeavesOfEntries(entries: seq<Entry>, repr: Repr): seq<Leaf>
    decreases entries, 1
  {
    if entries == [] then [] else LeavesOfEntry(entries[0], repr) + LeavesOfEntries(entries[1..], repr)
  }

  function Printed(prefix: seq<string>, leaves: seq<Leaf>): seq<Found> {
    seq(|leaves|, i requires 0 <= i < |leaves| => Found(Rooted(Print(prefix + leaves[i].segments)), leaves[i].node))
  }

  lemma PrintedUnder(prefix: seq<string>, segment: string, leaves: seq<Leaf>)
    ensures Printed(prefix, Under(segment, leaves)) == Printed(prefix + [segment], leaves)
  {
    forall i | 0 <= i < |leaves| ensures Printed(prefix, Under(segment, leaves))[i] == Printed(prefix + [segment], leaves)[i] {
      assert prefix + ([segment] + leaves[i].segments) == (prefix + [segment]) + leaves[i].segments;
    }
  }

  lemma PrintedConcat(prefix: seq<string>, a: seq<Leaf>, b: seq<Leaf>)
    ensures Printed(prefix, a + b) == Printed(prefix, a) + Printed(prefix, b)
  {
  }

  lemma AtomVisit(v: Value, path: string, repr: Repr)
    requires !v.List? && !v.Tuple? && !v.Dict? && !v.Frame? && !v.Partitioned?
    ensures Visit(Encode(v), path, repr) == []
  {
    match v {
      case Floating(f) => OtherNode("float", "value", JStr(FloatText(f)), path, repr);
      case Bytes(data) => OtherNode("bytes", "ref", RefTo("bin", data), path, repr);
      case Reference(ref) => OtherNode("object-reference", "ref", JObj(ref), path, repr);
      case Date(iso) => OtherNode("date", "value", JStr(iso), path, repr);
      case DateTime(iso) => OtherNode("datetime", "value", JStr(iso), path, repr);
      case _ =>
    }
  }

  lemma OtherNode(kind: string, name: string, node: Json, path: string, repr: Repr)
    requires kind != "frame" && kind != "partitioned" && kind != "dict" && kind != "tuple" && kind != "list"
      && name != "type"
    ensures VisitFields(Tagged(kind, name, node).fields, path, repr) == []
  {
    FieldsOf(kind, name, node);
  }

  lemma NestedNode(kind: string, items: seq<Json>, path: string, repr: Repr)
    requires kind == "dict" || kind == "tuple" || kind == "list"
    ensures Visit(Tagged(kind, "items", JArr(items)), path, repr)
         == if kind == "dict" then VisitEntries(items, path, repr) else VisitItems(items, path, 0, repr)
  {
    NestedDecodes(kind, items, {});
    FieldsOf(kind, "items", JArr(items));
  }

  lemma TableVisit(v: Value, prefix: seq<string>, repr: Repr)
    requires v.Frame? || v.Partitioned?
    ensures Visit(Encode(v), Print(prefix), repr) == Printed(prefix, Leaves(v, repr))
  {
    assert prefix + [] == prefix;
    if v.Partitioned? {
      FieldsOf("partitioned", "value", v.descriptor);
    } else {
      FrameFields(v.content);
    }
  }

  /** The visit finds exactly the tables of the value, each under the printed path that leads to it. */
  lemma {:induction false} VisitFindsTables(v: Value, prefix: seq<string>, repr: Repr)
    ensures Visit(Encode(v), Print(prefix), repr) == Printed(prefix, Leaves(v, repr))
    decreases v, 0
  {
    match v {
      case Frame(_) => TableVisit(v, prefix, repr);
      case Partitioned(_) => TableVisit(v, prefix, repr);
      case List(items) =>
        NestedNode("list", EncodeAll(items), Print(prefix), repr);
        VisitFindsItems(items, prefix, 0, repr);
      case Tuple(items) =>
        NestedNode("tuple", EncodeAll(items), Print(prefix), repr);
        VisitFindsItems(items, prefix, 0, repr);
      case Dict(entries) =>
        NestedNode("dict", EncodeEntries(entries), Print(prefix), repr);
        VisitFindsEntries(entries, prefix, repr);
      case _ => AtomVisit(v, Print(prefix), repr);
    }
  }

  lemma {:induction false} VisitFindsItems(items: seq<Value>, prefix: seq<string>, i: nat, repr: Repr)
    ensures VisitItems(EncodeAll(items), Print(prefix), i, repr) == Printed(prefix, LeavesOfItems(items, i, repr))
    decreases items, 1
  {
    if items != [] {
      DecimalPlain(i);
      PrintNext(prefix, Decimal(i));
      VisitFindsTables(items[0], prefix + [Decimal(i)], repr);
      VisitFindsItems(items[1..], prefix, i + 1, repr);
      assert EncodeAll(items)[1..] == EncodeAll(items[1..]);
      PrintedUnder(prefix, Decimal(i), Leaves(items[0], repr));
      PrintedConcat(prefix, Under(Decimal(i), Leaves(items[0], repr)), LeavesOfItems(items[1..], i + 1, repr));
    }
  }

  lemma {:induction false} VisitFindsEntry(e: Entry, prefix: seq<string>, repr: Repr)
    ensures Visit(Encode(e.item), Print(prefix) + "/" + Escape(KeyOf(e.key, repr)), repr)
         == Printed(prefix, LeavesOfEntry(e, repr))
    decreases e, 1
  {
    PrintNext(prefix, KeyOf(e.key, repr));
    VisitFindsTables(e.item, prefix + [KeyOf(e.key, repr)], repr);
    PrintedUnder(prefix, KeyOf(e.key, repr), Leaves(e.item, repr));
  }

  lemma {:induction false} VisitFindsEntries(entries: seq<Entry>, prefix: seq<string>, repr: Repr)
    ensures VisitEntries(EncodeEntries(entries), Print(prefix), repr) == Printed(prefix, LeavesOfEntries(entries, repr))
    decreases entries, 1
  {
    if entries != [] {
      VisitFindsEntry(entries[0], prefix, repr);
      VisitFindsEntries(entries[1..], prefix, repr);
      assert EncodeEntries(entries)[1..] == EncodeEntries(entries[1..]);
      PrintedConcat(prefix, LeavesOfEntry(entries[0], repr), LeavesOfEntries(entries[1..], repr));
    }
  }

  // ---------------------------------------------------------------- distinct paths

  /** No two leaves share a path. */
  ghost predicate Apart(leaves: seq<Leaf>) {
    forall i, j :: 0 <= i < j < |leaves| ==> leaves[i].segments != leaves[j].segments
  }

  /** Some leaf of one and some leaf of the other share a path. */
  ghost predicate Meet(a: seq<Leaf>, b: seq<Leaf>) {
    exists i, j :: 0 <= i < |a| && 0 <= j < |b| && a[i].segments == b[j].segments
  }

  /**
   * No dictionary, however deep, has two entries whose keys have one text and whose items have a table at the same
   * place.
   */
  ghost predicate OneTablePerPath(v: Value, repr: Repr)
    decreases v, 0
  {
    match v
    case List(items) => AllOneTable(items, repr)
    case Tuple(items) => AllOneTable(items, repr)
    case Dict(entries) => EntriesOneTable(entries, repr)
    case _ => true
  }

  ghost predicate AllOneTable(items: seq<Value>, repr: Repr)
    decreases items, 1
  {
    items == [] || (OneTablePerPath(items[0], repr) && AllOneTable(items[1..], repr))
  }

  ghost predicate EntryOneTable(e: Entry, repr: Repr)
    decreases e, 1
  {
    OneTablePerPath(e.item, repr)
  }

  /** Two entries that cannot be told apart by their paths. */
  ghost predicate Clash(e: Entry, f: Entry, repr: Repr) {
    KeyOf(e.key, repr) == KeyOf(f.key, repr) && Meet(Leaves(e.item, repr), Leaves(f.item, repr))
  }

  ghost predicate EntriesOneTable(entries: seq<Entry>, repr: Repr)
    decreases entries, 1
  {
    entries == [] || (EntryOneTable(entries[0], repr) && EntriesOneTable(entries[1..], repr)
                      && forall f <- entries[1..] :: !Clash(entries[0], f, repr))
  }

  lemma ApartUnder(segment: string, leaves: seq<Leaf>)
    ensures Apart(Under(segment, leaves)) <==> Apart(leaves)
  {
    var r := Under(segment, leaves);
    forall i, j | 0 <= i < j < |r| ensures r[i].segments == r[j].segments <==> leaves[i].segments == leaves[j].segments {
      assert r[i].segments[1..] == leaves[i].segments && r[j].segments[1..] == leaves[j].segments;
    }
  }

  lemma ApartConcat(a: seq<Leaf>, b: seq<Leaf>)
    ensures Apart(a + b) <==> Apart(a) && Apart(b) && !Meet(a, b)
  {
    var c := a + b;
    if Apart(c) {
      forall i, j | 0 <= i < |a| && 0 <= j < |b| ensures a[i].segments != b[j].segments {
        assert c[i] == a[i] && c[|a| + j] == b[j];
      }
      forall i, j | 0 <= i < j < |b| ensures b[i].segments != b[j].segments {
        assert c[|a| + i] == b[i] && c[|a| + j] == b[j];
      }
      forall i, j | 0 <= i < j < |a| ensures a[i].segments != a[j].segments {
        assert c[i] == a[i] && c[j] == a[j];
      }
    }
  }

  lemma MeetUnder(s: string, a: seq<Leaf>, t: string, b: seq<Leaf>)
    ensures Meet(Under(s, a), Under(t, b)) <==> s == t && Meet(a, b)
  {
    var x, y := Under(s, a), Under(t, b);
    forall i, j | 0 <= i < |a| && 0 <= j < |b|
      ensures x[i].segments == y[j].segments <==> s == t && a[i].segments == b[j].segments
    {
      assert x[i].segments[0] == s && y[j].segments[0] == t;
      assert x[i].segments[1..] == a[i].segments && y[j].segments[1..] == b[j].segments;
    }
  }

  lemma MeetConcat(a: seq<Leaf>, b: seq<Leaf>, c: seq<Leaf>)
    ensures Meet(a, b + c) <==> Meet(a, b) || Meet(a, c)
  {
    if Meet(a, b) {
      var i, j :| 0 <= i < |a| && 0 <= j < |b| && a[i].segments == b[j].segments;
      assert (b + c)[j] == b[j];
    }
    if Meet(a, c) {
      var i, j :| 0 <= i < |a| && 0 <= j < |c| && a[i].segments == c[j].segments;
      assert (b + c)[|b| + j] == c[j];
    }
  }

  /** Items of a list are told apart by their positions. */
  lemma {:induction false} ItemsDoNotMeet(i: nat, leaves: seq<Leaf>, items: seq<Value>, j: nat, repr: Repr)
    requires i < j
    ensures !Meet(Under(Decimal(i), leaves), LeavesOfItems(items, j, repr))
    decreases items
  {
    if items != [] {
      var a, first := Under(Decimal(i), leaves), Leaves(items[0], repr);
      ItemsDoNotMeet(i, leaves, items[1..], j + 1, repr);
      if Decimal(i) == Decimal(j) { DecimalInjective(i, j); }
      MeetUnder(Decimal(i), leaves, Decimal(j), first);
      MeetConcat(a, Under(Decimal(j), first), LeavesOfItems(items[1..], j + 1, repr));
    }
  }

  lemma {:induction false} EntriesMeet(e: Entry, entries: seq<Entry>, repr: Repr)
    ensures Meet(LeavesOfEntry(e, repr), LeavesOfEntries(entries, repr)) <==> exists f <- entries :: Clash(e, f, repr)
    decreases entries
  {
    if entries != [] {
      var rest := entries[1..];
      EntriesMeet(e, rest, repr);
      MeetUnder(KeyOf(e.key, repr), Leaves(e.item, repr), KeyOf(entries[0].key, repr), Leaves(entries[0].item, repr));
      MeetConcat(LeavesOfEntry(e, repr), LeavesOfEntry(entries[0], repr), LeavesOfEntries(rest, repr));
      if f :| f in entries && Clash(e, f, repr) { assert f == entries[0] || f in rest; }
      if f :| f in rest && Clash(e, f, repr) { assert f in entries; }
      assert entries[0] in entries;
    }
  }

  lemma {:induction false} LeavesApart(v: Value, repr: Repr)
    ensures Apart(Leaves(v, repr)) <==> OneTablePerPath(v, repr)
    decreases v, 0
  {
    match v {
      case List(items) => ItemsApart(items, 0, repr);
      case Tuple(items) => ItemsApart(items, 0, repr);
      case Dict(entries) => EntriesApart(entries, repr);
      case _ =>
    }
  }

  lemma {:induction false} ItemsApart(items: seq<Value>, i: nat, repr: Repr)
    ensures Apart(LeavesOfItems(items, i, repr)) <==> AllOneTable(items, repr)
    decreases items, 1
  {
    if items != [] {
      var first := Leaves(items[0], repr);
      LeavesApart(items[0], repr);
      ItemsApart(items[1..], i + 1, repr);
      ApartUnder(Decimal(i), first);
      ItemsDoNotMeet(i, first, items[1..], i + 1, repr);
      ApartConcat(Under(Decimal(i), first), LeavesOfItems(items[1..], i + 1, repr));
    }
  }

  lemma {:induction false} EntryApart(e: Entry, repr: Repr)
    ensures Apart(LeavesOfEntry(e, repr)) <==> EntryOneTable(e, repr)
    decreases e, 1
  {
    LeavesApart(e.item, repr);
    ApartUnder(KeyOf(e.key, repr), Leaves(e.item, repr));
  }

  lemma {:induction false} EntriesApart(entries: seq<Entry>, repr: Repr)
    ensures Apart(LeavesOfEntries(entries, repr)) <==> EntriesOneTable(entries, repr)
    decreases entries, 1
  {
    if entries != [] {
      EntryApart(entries[0], repr);
      EntriesApart(entries[1..], repr);
      EntriesMeet(entries[0], entries[1..], repr);
      ApartConcat(LeavesOfEntry(entries[0], repr), LeavesOfEntries(entries[1..], repr));
    }
  }

  function PathsOf(found: seq<Found>): set<string> { set f <- found :: f.path }

  /** What the visit leaves behind: at each path the last table found there. */
  function Collect(found: seq<Found>): map<string, Json> {
    if found == [] then map[]
    else var last := found[|found| - 1]; Collect(found[..|found| - 1])[last.path := last.node]
  }

  ghost predicate DifferentPaths(found: seq<Found>) {
    forall i, j :: 0 <= i < j < |found| ==> found[i].path != found[j].path
  }

  lemma OnePathMore(found: seq<Found>, last: Found)
    ensures DifferentPaths(found + [last]) <==> DifferentPaths(found) && last.path !in PathsOf(found)
    ensures PathsOf(found + [last]) == PathsOf(found) + {last.path}
  {
    var all := found + [last];
    assert forall f :: f in all <==> f in found || f == last;
    if DifferentPaths(all) {
      forall i, j | 0 <= i < j < |found| ensures found[i].path != found[j].path { assert all[i].path != all[j].path; }
      forall f | f in found ensures f.path != last.path {
        var i :| 0 <= i < |found| && found[i] == f;
        assert all[i].path != all[|found|].path;
      }
    }
  }

  lemma {:induction false} CollectsPaths(found: seq<Found>)
    ensures Collect(found).Keys == PathsOf(found)
  {
    if found != [] {
      var n := |found| - 1;
      CollectsPaths(found[..n]);
      OnePathMore(found[..n], found[n]);
      assert found == found[..n] + [found[n]];
    }
  }

  /** One table more takes one path more, unless its path is taken. */
  lemma CollectsMore(found: seq<Found>, last: Found)
    ensures |Collect(found + [last])| == |Collect(found)| + if last.path in PathsOf(found) then 0 else 1
  {
    assert (found + [last])[..|found|] == found;
    CollectsPaths(found);
    OneKeyMore(Collect(found), last.path, last.node);
  }

  /** No table is lost exactly if no two of them have one path. */
  lemma {:induction false} CollectsAll(found: seq<Found>)
    ensures |Collect(found)| <= |found| && (|Collect(found)| == |found| <==> DifferentPaths(found))
    decreases |found|
  {
    if found != [] {
      var n := |found| - 1;
      var rest, last := found[..n], found[n];
      assert found == rest + [last];
      CollectsAll(rest);
      CollectsMore(rest, last);
      OnePathMore(rest, last);
    }
  }

  lemma {:induction false} CollectsEach(found: seq<Found>, i: nat)
    requires DifferentPaths(found) && i < |found|
    ensures found[i].path in Collect(found) && Collect(found)[found[i].path] == found[i].node
    decreases |found|
  {
    var n := |found| - 1;
    if i < n { CollectsEach(found[..n], i); }
  }

  lemma PrintedApart(leaves: seq<Leaf>)
    ensures DifferentPaths(Printed([], leaves)) <==> Apart(leaves)
  {
    var found := Printed([], leaves);
    forall i, j | 0 <= i < j < |found|
      ensures found[i].path == found[j].path <==> leaves[i].segments == leaves[j].segments
    {
      SamePath(leaves[i].segments, leaves[j].segments);
      assert [] + leaves[i].segments == leaves[i].segments && [] + leaves[j].segments == leaves[j].segments;
    }
  }

  lemma SamePath(a: seq<string>, b: seq<string>)
    ensures Rooted(Print(a)) == Rooted(Print(b)) <==> a == b
  {
    if Print(a) == Print(b) { PrintInjective(a, b); }
    assert a != [] ==> Print(a)[0] == '/';
    assert b != [] ==> Print(b)[0] == '/';
  }

  /**
   * The result lists every table of a value exactly if no dictionary in it has two keys of one text with a table at
   * the same place below both; otherwise a later table takes the place of an earlier one.
   */
  lemma PathsAreDistinct(v: Value, repr: Repr)
    ensures var leaves, found := Leaves(v, repr), Collect(Visit(Encode(v), "", repr));
      |found| <= |leaves| && (|found| == |leaves| <==> OneTablePerPath(v, repr))
    ensures DifferentPaths(Visit(Encode(v), "", repr)) <==> OneTablePerPath(v, repr)
  {
    VisitFindsTables(v, [], repr);
    CollectsAll(Printed([], Leaves(v, repr)));
    PrintedApart(Leaves(v, repr));
    LeavesApart(v, repr);
  }

  /** Then each table is listed under the path that leads to it. */
  lemma EachTableIsListed(v: Value, repr: Repr, i: nat)
    requires OneTablePerPath(v, repr) && i < |Leaves(v, repr)|
    ensures var leaf, found := Leaves(v, repr)[i], Collect(Visit(Encode(v), "", repr));
      Rooted(Print(leaf.segments)) in found && found[Rooted(Print(leaf.segments))] == leaf.node
  {
    var leaves := Leaves(v, repr);
    VisitFindsTables(v, [], repr);
    PrintedApart(leaves);
    LeavesApart(v, repr);
    CollectsEach(Printed([], leaves), i);
    assert [] + leaves[i].segments == leaves[i].segments;
  }

  /** Every dictionary key is a string, and no two keys of one dictionary are the same. */
  ghost predicate StringKeyed(v: Value)
    decreases v, 0
  {
    match v
    case List(items) => AllStringKeyed(items)
    case Tuple(items) => AllStringKeyed(items)
    case Dict(entries) => EntriesStringKeyed(entries)
    case _ => true
  }

  ghost predicate AllStringKeyed(items: seq<Value>)
    decreases items, 1
  {
    items == [] || (StringKeyed(items[0]) && AllStringKeyed(items[1..]))
  }

  ghost predicate EntryStringKeyed(e: Entry)
    decreases e, 1
  {
    e.key.Str? && StringKeyed(e.item)
  }

  ghost predicate EntriesStringKeyed(entries: seq<Entry>)
    decreases entries, 1
  {
    entries == [] || (EntryStringKeyed(entries[0]) && EntriesStringKeyed(entries[1..])
                      && forall f <- entries[1..] :: f.key.Str? && f.key != entries[0].key)
  }

  /** String keys are enough. */
  lemma {:induction false} StringKeysSuffice(v: Value, repr: Repr)
    requires StringKeyed(v)
    ensures OneTablePerPath(v, repr)
    decreases v, 0
  {
    match v {
      case List(items) => StringItemsSuffice(items, repr);
      case Tuple(items) => StringItemsSuffice(items, repr);
      case Dict(entries) => StringEntriesSuffice(entries, repr);
      case _ =>
    }
  }

  lemma {:induction false} StringItemsSuffice(items: seq<Value>, repr: Repr)
    requires AllStringKeyed(items)
    ensures AllOneTable(items, repr)
    decreases items, 1
  {
    if items != [] {
      StringKeysSuffice(items[0], repr);
      StringItemsSuffice(items[1..], repr);
    }
  }

  lemma {:induction false} StringEntrySuffices(e: Entry, repr: Repr)
    requires EntryStringKeyed(e)
    ensures EntryOneTable(e, repr)
    decreases e, 1
  {
    StringKeysSuffice(e.item, repr);
  }

  lemma {:induction false} StringEntriesSuffice(entries: seq<Entry>, repr: Repr)
    requires EntriesStringKeyed(entries)
    ensures EntriesOneTable(entries, repr)
    decreases entries, 1
  {
    if entries != [] {
      StringEntrySuffices(entries[0], repr);
      StringEntriesSuffice(entries[1..], repr);
    }
  }

  lemma PlainFrame(content: string)
    ensures WellFormed(Frame(content))
  {
  }

  lemma OneAndOne(a: string, b: string, repr: Repr)
    ensures Clash(Entry(Int(1), Frame(a)), Entry(Str("1"), Frame(b)), repr)
  {
    assert KeyOf(Int(1), repr) == "1" == KeyOf(Str("1"), repr);
    assert Leaves(Frame(a), repr)[0].segments == Leaves(Frame(b), repr)[0].segments;
  }

  /** The integer key 1 and the string key "1" are different keys, but their tables are not both listed. */
  lemma MixedKeysCollide(a: string, b: string, repr: Repr)
    ensures var v := Dict([Entry(Int(1), Frame(a)), Entry(Str("1"), Frame(b))]);
      WellFormed(v) && |Leaves(v, repr)| == 2 && |Collect(Visit(Encode(v), "", repr))| < 2
  {
    var first, second := Entry(Int(1), Frame(a)), Entry(Str("1"), Frame(b));
    var entries := [first, second];
    OneEntry(second);
    PlainFrame(a);
    PlainFrame(b);
    assert entries[1..] == [second];
    assert EntryWellFormed(first) && EntryWellFormed(second);
    OneAndOne(a, b, repr);
    TwoLeaves(first, second, a, b, repr);
    assert !EntriesOneTable(entries, repr);
    PathsAreDistinct(Dict(entries), repr);
  }

  lemma TwoLeaves(first: Entry, second: Entry, a: string, b: string, repr: Repr)
    requires first.item == Frame(a) && second.item == Frame(b)
    ensures |Leaves(Dict([first, second]), repr)| == 2
  {
    var entries := [first, second];
    assert entries[1..] == [second] && [second][1..] == [];
    assert |Leaves(first.item, repr)| == 1 && |Leaves(second.item, repr)| == 1;
    assert LeavesOfEntries([second], repr) == LeavesOfEntry(second, repr);
    assert LeavesOfEntries(entries, repr) == LeavesOfEntry(first, repr) + LeavesOfEntries([second], repr);
    assert |LeavesOfEntry(first, repr)| == 1 && |LeavesOfEntry(second, repr)| == 1;
  }
}
