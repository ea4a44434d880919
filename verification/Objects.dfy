/**
 * The content-addressed object store over local files (apps/api-rust/src/objects.rs). SHA-256 (FIPS 180-4) is
 * taken as injective: a digest is the content it was computed from.
 */
module ObjectStore {
  import opened Common

  type Bytes = seq<bv8>
  datatype Digest = Sha(content: Bytes) | NotADigest(text: string)
  datatype Key = Key(prefix: string, digest: Digest, format: string) | OtherKey(text: string)
  datatype Descriptor = Descriptor(key: Key, digest: Digest, bytes: nat, format: string)

  datatype StoreError =
    | UnsupportedFormat | WriteFailed | PublishFailed | Crashed
    | OutsideWorkspace | ExceedsBound | Missing | LengthDiffers | ChecksumMismatch

  const FORMATS := {"json", "parquet", "bin"}

  function ExpectedKey(prefix: string, digest: Digest, format: string): Key { Key(prefix, digest, format) }

  function Described(prefix: string, data: Bytes, format: string): Descriptor {
    Descriptor(ExpectedKey(prefix, Sha(data), format), Sha(data), |data|, format)
  }

  // ---------------------------------------------------------------- the file system

  /** A temporary file: the bytes its writer means to store, and how many of them are written. */
  datatype Temp = Temp(key: Key, data: Bytes, written: nat)
  datatype Files = Files(objects: map<Key, Bytes>, temps: map<nat, Temp>)

  /** The object's bytes hash to its key. */
  predicate Intact(f: Files, key: Key) { key in f.objects && key.Key? && Sha(f.objects[key]) == key.digest }

  datatype Event =
    | Start(id: nat, prefix: string, data: Bytes, format: string)
    | Write(id: nat, upTo: nat)
    | Rename(id: nat)
    | Remove(id: nat)
    | Damage(key: Key, left: Option<Bytes>)

  /** Temporary names are unique, a rename follows a complete write, and damage strikes stored objects. */
  predicate Allowed(f: Files, e: Event) {
    match e
    case Start(id, _, _, _) => id !in f.temps
    case Write(id, n) => id in f.temps && f.temps[id].written <= n <= |f.temps[id].data|
    case Rename(id) => id in f.temps && f.temps[id].written == |f.temps[id].data|
    case Remove(id) => id in f.temps
    case Damage(key, _) => key in f.objects
  }

  function Step(f: Files, e: Event): Files
    requires Allowed(f, e)
  {
    match e
    case Start(id, prefix, data, format) => f.(temps := f.temps[id := Temp(Key(prefix, Sha(data), format), data, 0)])
    case Write(id, n) => f.(temps := f.temps[id := f.temps[id].(written := n)])
    case Rename(id) =>
      Files(f.objects[f.temps[id].key := f.temps[id].data[..f.temps[id].written]], f.temps - {id})
    case Remove(id) => f.(temps := f.temps - {id})
    case Damage(key, left) =>
      f.(objects := if left.Some? then f.objects[key := left.value] else f.objects - {key})
  }

  /** Every temporary file is on its way to the key of its bytes. */
  ghost predicate Sound(f: Files) {
    forall id <- f.temps :: f.temps[id].key.Key? && f.temps[id].key.digest == Sha(f.temps[id].data)
                            && f.temps[id].written <= |f.temps[id].data|
  }

  ghost predicate Permitted(f: Files, run: seq<Event>)
    decreases |run|
  {
    run == [] || (Allowed(f, run[0]) && Permitted(Step(f, run[0]), run[1..]))
  }

  ghost function After(f: Files, run: seq<Event>): Files
    requires Permitted(f, run)
    decreases |run|
  {
    if run == [] then f else After(Step(f, run[0]), run[1..])
  }

  predicate Damages(e: Event, key: Key) { e.Damage? && e.key == key }

  /** No step but damage to that very object alters an intact object. */
  lemma StepKeepsIntact(f: Files, e: Event, key: Key)
    requires Sound(f) && Allowed(f, e) && Intact(f, key) && !Damages(e, key)
    ensures Sound(Step(f, e)) && Intact(Step(f, e), key) && Step(f, e).objects[key] == f.objects[key]
  {
    if e.Rename? {
      var t := f.temps[e.id];
      assert t.data[..t.written] == t.data;
    }
  }

  lemma StepSound(f: Files, e: Event)
    requires Sound(f) && Allowed(f, e)
    ensures Sound(Step(f, e))
  {
  }

  /** An intact object keeps its bytes over any run of puts, crashes and damage to other objects. */
  lemma {:induction false} RunKeepsIntact(f: Files, run: seq<Event>, key: Key)
    requires Sound(f) && Permitted(f, run) && Intact(f, key) && forall e <- run :: !Damages(e, key)
    ensures Sound(After(f, run)) && Intact(After(f, run), key) && After(f, run).objects[key] == f.objects[key]
    decreases |run|
  {
    if run != [] {
      assert run[0] in run && forall e <- run[1..] :: e in run;
      StepKeepsIntact(f, run[0], key);
      RunKeepsIntact(Step(f, run[0]), run[1..], key);
    }
  }

  /** Without damage, whatever is stored is intact, at every moment and wherever writers crash. */
  lemma {:induction false} NothingTorn(f: Files, run: seq<Event>)
    requires Sound(f) && Permitted(f, run) && forall e <- run :: !e.Damage?
    requires forall key <- f.objects :: Intact(f, key)
    ensures forall key <- After(f, run).objects :: Intact(After(f, run), key)
    decreases |run|
  {
    if run != [] {
      assert run[0] in run && forall e <- run[1..] :: e in run;
      var g := Step(f, run[0]);
      StepSound(f, run[0]);
      forall key | key in g.objects ensures Intact(g, key) {
        if key in f.objects { StepKeepsIntact(f, run[0], key); }
        else { assert f.temps[run[0].id].data[..f.temps[run[0].id].written] == f.temps[run[0].id].data; }
      }
      NothingTorn(g, run[1..]);
    }
  }

  // ---------------------------------------------------------------- the store

  /** Where a put stops short, if it does. */
  datatype Fault = NoFault | WriteFault(upTo: nat) | CrashAt(upTo: nat) | RenameFault

  class Objects {
    const prefix: string
    var files: Files
    var issued: nat

    ghost predicate Valid()
      reads this
    {
      Sound(files) && forall id <- files.temps :: id < issued
    }

    /** The named keys keep being intact. */
    twostate predicate Spares(keys: set<Key>)
      reads this
    {
      forall key <- keys :: old(Intact(files, key)) ==> Intact(files, key)
    }

    /**
     * Other processes put objects, crash, or damage any object but the spared ones. Nobody touches the temporary
     * file of a running put. The body does nothing; the contract is all.
     */
    method Interfere(ghost spared: set<Key>, ghost mine: set<nat>)
      requires Valid()
      modifies this
      ensures Valid() && Spares(spared) && issued >= old(issued)
      ensures forall id <- mine :: id in old(files.temps) ==> id in files.temps && files.temps[id] == old(files.temps[id])
    {
    }

    method IsIntact(key: Key) returns (b: bool)
      ensures b == Intact(files, key)
    {
      b := key in files.objects && key.Key? && Sha(files.objects[key]) == key.digest;
    }

    /** Takes one step; it never harms an intact object. */
    method Do(e: Event)
      requires Valid() && Allowed(files, e) && !e.Damage? && (e.Start? ==> e.id == issued)
      modifies this
      ensures Valid() && files == Step(old(files), e) && issued == old(issued) + if e.Start? then 1 else 0
      ensures forall key :: old(Intact(files, key)) ==> Intact(files, key)
    {
      forall key | Intact(files, key) ensures Intact(Step(files, e), key) { StepKeepsIntact(files, e, key); }
      StepSound(files, e);
      if e.Start? { issued := issued + 1; }
      files := Step(files, e);
    }

    /** Writes the temporary file and renames it over the object. */
    method Replace(data: Bytes, format: string, fault: Fault,
                   ghost spared: set<Key>) returns (r: Result<(), StoreError>)
      requires Valid() && format in FORMATS
      modifies this
      ensures Valid() && Spares(spared)
      ensures var key := ExpectedKey(prefix, Sha(data), format); r.Ok? && key in spared ==> Intact(files, key)
      ensures r.Refused? ==> (fault.WriteFault? && r.error == WriteFailed) || (fault.CrashAt? && r.error == Crashed)
                             || (fault.RenameFault? && r.error == PublishFailed)
    {
      var id, key := issued, ExpectedKey(prefix, Sha(data), format);
      Do(Start(id, prefix, data, format));
      Interfere(spared, {id});
      var upTo := if (fault.WriteFault? || fault.CrashAt?) && fault.upTo < |data| then fault.upTo else |data|;
      Do(Write(id, upTo));
      Interfere(spared, {id});
      if fault.CrashAt? { return Refused(Crashed); }
      if fault.WriteFault? {
        Do(Remove(id));
        return Refused(WriteFailed);
      }
      if fault.RenameFault? {
        Do(Remove(id));
        Interfere(spared, {});
        var now := IsIntact(key);
        return if now then Ok(()) else Refused(PublishFailed);
      }
      assert data[..|data|] == data;
      Do(Rename(id));
      r := Ok(());
    }

    /** Stores bytes under their digest. An intact object is left alone; a damaged one gets its true bytes again. */
    method Put(data: Bytes, format: string, fault: Fault,
               ghost spared: set<Key>) returns (r: Result<Descriptor, StoreError>)
      requires Valid()
      modifies this
      ensures Valid() && Spares(spared)
      ensures format !in FORMATS <==> r == Refused(UnsupportedFormat)
      ensures r.Ok? ==> r.value == Described(prefix, data, format)
      ensures r.Ok? && r.value.key in spared ==> Intact(files, r.value.key) && files.objects[r.value.key] == data
      ensures fault.NoFault? && format in FORMATS ==> r.Ok?
      ensures old(Intact(files, ExpectedKey(prefix, Sha(data), format))) && format in FORMATS ==> r.Ok? && files == old(files)
    {
      if format !in FORMATS { return Refused(UnsupportedFormat); }
      var key := ExpectedKey(prefix, Sha(data), format);
      var intact := IsIntact(key);
      if !intact {
        Interfere(spared, {});
        var replaced := Replace(data, format, fault, spared);
        if replaced.Refused? { return Refused(replaced.error); }
      }
      r := Ok(Described(prefix, data, format));
    }

    /** Reads at most `maximum` bytes and checks that they are what the descriptor names. */
    method GetBounded(d: Descriptor, maximum: nat, ghost spared: set<Key>) returns (r: Result<Bytes, StoreError>)
      requires Valid()
      modifies this
      ensures Valid() && Spares(spared)
      ensures r.Ok? ==> |r.value| == d.bytes <= maximum && Sha(r.value) == d.digest
                        && d.key == ExpectedKey(prefix, d.digest, d.format)
      ensures d.key in spared && old(Intact(files, d.key)) && d.key == ExpectedKey(prefix, d.digest, d.format)
              && d.format in FORMATS && d.bytes == |old(files.objects[d.key])| ==>
              r == if d.bytes <= maximum then Ok(old(files.objects[d.key])) else Refused(ExceedsBound)
    {
      if d.digest.NotADigest? || d.key != ExpectedKey(prefix, d.digest, d.format) || d.format !in FORMATS {
        return Refused(OutsideWorkspace);
      }
      if d.bytes > maximum { return Refused(ExceedsBound); }
      if d.key !in files.objects { return Refused(Missing); }
      if |files.objects[d.key]| != d.bytes { return Refused(LengthDiffers); }
      Interfere(spared, {});
      if d.key !in files.objects { return Refused(Missing); }
      var stored := files.objects[d.key];
      var data := if |stored| > maximum + 1 then stored[..maximum + 1] else stored;
      if |data| != d.bytes || Sha(data) != d.digest { return Refused(ChecksumMismatch); }
      r := Ok(data);
    }
  }

  /** What was put can be read back, whatever other writers do and wherever they crash, unless it is damaged. */
  method PutThenGet(s: Objects, data: Bytes, format: string, maximum: nat) returns (r: Result<Bytes, StoreError>)
    requires s.Valid() && format in FORMATS
    modifies s
    ensures s.Valid() && r == if |data| <= maximum then Ok(data) else Refused(ExceedsBound)
  {
    ghost var spared := {ExpectedKey(s.prefix, Sha(data), format)};
    var d := s.Put(data, format, NoFault, spared);
    s.Interfere(spared, {});
    r := s.GetBounded(d.value, maximum, spared);
  }

  /** An object of a publication: chunks are binary, manifests, pages and headers are JSON. */
  datatype Part = Part(data: Bytes, format: string)

  function PartKey(prefix: string, p: Part): Key { ExpectedKey(prefix, Sha(p.data), p.format) }

  /** The stored form of a part that nobody damaged. */
  ghost predicate Kept(f: Files, prefix: string, p: Part) {
    Intact(f, PartKey(prefix, p)) && f.objects[PartKey(prefix, p)] == p.data
  }

  /** Stores the objects of a publication one by one; at the end all of them are there. */
  method PutAll(s: Objects, parts: seq<Part>, ghost spared: set<Key>) returns (refs: seq<Descriptor>)
    requires s.Valid()
    requires forall p <- parts :: p.format in FORMATS && PartKey(s.prefix, p) in spared
    modifies s
    ensures s.Valid() && s.Spares(spared) && |refs| == |parts|
    ensures forall k :: 0 <= k < |parts| ==>
      refs[k] == Described(s.prefix, parts[k].data, parts[k].format) && Kept(s.files, s.prefix, parts[k])
  {
    refs := [];
    for n := 0 to |parts|
      invariant s.Valid() && s.Spares(spared) && |refs| == n
      invariant forall k :: 0 <= k < n ==>
        refs[k] == Described(s.prefix, parts[k].data, parts[k].format) && Kept(s.files, s.prefix, parts[k])
    {
      assert parts[n] in parts;
      s.Interfere(spared, {});
      var d := s.Put(parts[n].data, parts[n].format, NoFault, spared);
      refs := refs + [d.value];
    }
  }

  /** Every object of a publication can be read back afterwards, in any number of reads, exactly if it fits the bound. */
  method PutAllThenGet(s: Objects, parts: seq<Part>, maximum: nat) returns (read: seq<Result<Bytes, StoreError>>)
    requires s.Valid() && forall p <- parts :: p.format in FORMATS
    modifies s
    ensures s.Valid() && |read| == |parts|
    ensures forall k :: 0 <= k < |parts| ==>
      read[k] == if |parts[k].data| <= maximum then Ok(parts[k].data) else Refused(ExceedsBound)
  {
    ghost var spared := set p <- parts :: PartKey(s.prefix, p);
    var refs := PutAll(s, parts, spared);
    read := [];
    for n := 0 to |parts|
      invariant s.Valid() && |read| == n && forall k :: 0 <= k < |parts| ==> Kept(s.files, s.prefix, parts[k])
      invariant forall k :: 0 <= k < n ==>
        read[k] == if |parts[k].data| <= maximum then Ok(parts[k].data) else Refused(ExceedsBound)
    {
      s.Interfere(spared, {});
      assert parts[n] in parts && Kept(s.files, s.prefix, parts[n]);
      var data := s.GetBounded(refs[n], maximum, spared);
      read := read + [data];
    }
  }
}
