/**
 * Stream chunks of a publication (apps/api-rust/src/publish.rs): the line-by-line packer writes what
 * the in-memory splitter would, and the bounded reread gets the stream back.
 */
module Chunks {
  import opened Common

  newtype byte = x: int | 0 <= x < 256

  const NEWLINE: byte := 10
  const RETURN: byte := 13
  const CHUNK_BYTES: nat := 4 * 1024 * 1024
  const MAX_LINE_BYTES: nat := 256 * 1024 * 1024

  type Bytes = seq<byte>

  function Concat(parts: seq<Bytes>): Bytes {
    if parts == [] then [] else parts[0] + Concat(parts[1..])
  }

  predicate NoBreak(s: Bytes, lo: nat, hi: nat)
    requires hi <= |s|
  {
    forall i :: lo <= i < hi ==> s[i] != NEWLINE
  }

  /** `position(|b| *b == b'\n')`: the first newline, or the length. */
  function FirstBreak(s: Bytes, from: nat := 0): (n: nat)
    requires from <= |s|
    ensures from <= n <= |s| && (n < |s| ==> s[n] == NEWLINE) && NoBreak(s, from, n)
    decreases |s| - from
  {
    if from == |s| || s[from] == NEWLINE then from else FirstBreak(s, from + 1)
  }

  /** `rposition(|b| *b == b'\n')` in the first `to` bytes, if any. */
  function LastBreak(s: Bytes, to: nat): (n: Option<nat>)
    requires to <= |s|
    ensures n.None? ==> NoBreak(s, 0, to)
    ensures n.Some? ==> n.value < to && s[n.value] == NEWLINE && NoBreak(s, n.value + 1, to)
  {
    if to == 0 then None
    else if s[to - 1] == NEWLINE then Some(to - 1)
    else LastBreak(s, to - 1)
  }

  // ---------------------------------------------------------------- the two descriptions

  /** Where the in-memory splitter ends the chunk that starts a nonempty rest of the stream. */
  function ChunkEnd(s: Bytes, chunk: nat): (e: nat)
    requires s != [] && chunk > 0
    ensures 0 < e <= |s|
  {
    if |s| <= chunk then |s|
    else match LastBreak(s, chunk)
      case Some(p) => p + 1
      case None => var q := FirstBreak(s, chunk); if q < |s| then q + 1 else |s|
  }

  function Split(s: Bytes, chunk: nat): seq<Bytes>
    requires chunk > 0
    decreases |s|
  {
    if s == [] then [] else
      var e := ChunkEnd(s, chunk);
      [s[..e]] + Split(s[e..], chunk)
  }

  function LineEnd(s: Bytes): (e: nat)
    requires s != []
    ensures 0 < e <= |s|
  {
    var n := FirstBreak(s);
    if n < |s| then n + 1 else |s|
  }

  /** The lines of the stream, each with its break; the last may lack one. */
  function Lines(s: Bytes): seq<Bytes>
    decreases |s|
  {
    if s == [] then [] else [s[..LineEnd(s)]] + Lines(s[LineEnd(s)..])
  }

  /** Greedy packing of lines onto a buffer. */
  function Pack(lines: seq<Bytes>, buffer: Bytes, chunk: nat): seq<Bytes> {
    if lines == [] then (if buffer == [] then [] else [buffer])
    else if buffer != [] && |buffer| + |lines[0]| > chunk then [buffer] + Pack(lines[1..], lines[0], chunk)
    else Pack(lines[1..], buffer + lines[0], chunk)
  }

  // ---------------------------------------------------------------- they agree

  /** A buffer of whole lines that fits a chunk, or one longer line. */
  predicate Packed(buffer: Bytes, chunk: nat) {
    buffer != [] ==>
      && buffer[|buffer| - 1] == NEWLINE
      && (|buffer| <= chunk || FirstBreak(buffer) == |buffer| - 1)
  }

  /** A packed buffer whose next line does not fit is exactly one chunk of the splitter. */
  lemma BufferIsChunk(buffer: Bytes, s: Bytes, chunk: nat)
    requires chunk > 0 && buffer != [] && Packed(buffer, chunk)
    requires s == [] || |buffer| + LineEnd(s) > chunk
    ensures ChunkEnd(buffer + s, chunk) == |buffer|
  {
    var t := buffer + s;
    var b := |buffer|;
    assert forall i :: 0 <= i < b ==> t[i] == buffer[i];
    assert forall i :: b <= i < |t| ==> t[i] == s[i - b];
    if |t| > chunk {
      if b <= chunk {
        assert NoBreak(s, 0, chunk - b);
        assert LastBreak(t, chunk) == Some(b - 1);
      } else {
        assert NoBreak(buffer, 0, b - 1);
        assert LastBreak(t, chunk) == None;
      }
    }
  }

  lemma LineIsPacked(s: Bytes, chunk: nat)
    requires s != []
    ensures var line := s[..LineEnd(s)];
      if FirstBreak(s) < |s| then Packed(line, chunk) else LineEnd(s) == |s| && NoBreak(s, 0, |s|)
  {
    var line := s[..LineEnd(s)];
    if FirstBreak(s) < |s| {
      assert forall i :: 0 <= i < |line| ==> line[i] == s[i];
      assert FirstBreak(line) == |line| - 1;
    }
  }

  /** Without a break the whole rest is one chunk. */
  lemma TailIsChunk(s: Bytes, chunk: nat)
    requires chunk > 0 && s != [] && NoBreak(s, 0, |s|)
    ensures Split(s, chunk) == [s]
  {
    assert s[..|s|] == s;
  }

  lemma {:induction false} PackIsSplit(s: Bytes, buffer: Bytes, chunk: nat)
    requires chunk > 0 && Packed(buffer, chunk)
    ensures Pack(Lines(s), buffer, chunk) == Split(buffer + s, chunk)
    decreases |s|
  {
    if s == [] {
      assert buffer + s == buffer;
      if buffer != [] { BufferIsChunk(buffer, [], chunk); }
    } else {
      var line, rest := s[..LineEnd(s)], s[LineEnd(s)..];
      assert line + rest == s;
      LineIsPacked(s, chunk);
      if buffer != [] && |buffer| + |line| > chunk {
        BufferIsChunk(buffer, s, chunk);
        assert (buffer + s)[..|buffer|] == buffer && (buffer + s)[|buffer|..] == s;
        if FirstBreak(s) < |s| { PackIsSplit(rest, line, chunk); } else { TailIsChunk(s, chunk); }
      } else if FirstBreak(s) < |s| {
        assert buffer + line + rest == buffer + s;
        assert Packed(buffer + line, chunk) by { assert buffer == [] ==> buffer + line == line; }
        PackIsSplit(rest, buffer + line, chunk);
      } else if buffer == [] {
        assert buffer + s == s && buffer + line == s;
        TailIsChunk(s, chunk);
      } else {
        assert line == s;
        assert (buffer + s)[..|buffer + s|] == buffer + s;
      }
    }
  }

  /** For every stream the line-by-line packer writes exactly the chunks of the in-memory splitter. */
  lemma PackerMatchesSplitter(s: Bytes, chunk: nat)
    requires chunk > 0
    ensures Pack(Lines(s), [], chunk) == Split(s, chunk)
  {
    assert [] + s == s;
    PackIsSplit(s, [], chunk);
  }

  lemma {:induction false} SplitKeepsEveryByte(s: Bytes, chunk: nat)
    requires chunk > 0
    ensures Concat(Split(s, chunk)) == s
    decreases |s|
  {
    if s != [] {
      SplitKeepsEveryByte(s[ChunkEnd(s, chunk)..], chunk);
    }
  }

  /** A chunk longer than the chunk size is a single line of the stream. */
  lemma {:induction false} LongChunksAreLines(lines: seq<Bytes>, buffer: Bytes, chunk: nat, part: Bytes)
    requires part in Pack(lines, buffer, chunk)
    ensures part == buffer || |part| <= chunk || part in lines
    decreases |lines|
  {
    if lines != [] {
      if buffer != [] && |buffer| + |lines[0]| > chunk {
        if part != buffer && part != lines[0] { LongChunksAreLines(lines[1..], lines[0], chunk, part); }
      } else if part != buffer + lines[0] {
        LongChunksAreLines(lines[1..], buffer + lines[0], chunk, part);
      } else if |part| > chunk {
        assert buffer == [] && part == lines[0];
      }
    }
  }

  /** Every chunk fits the bound of the reread when every line fits the bound of the reader. */
  lemma ChunksFitReread(s: Bytes, chunk: nat, maxLine: nat)
    requires chunk > 0 && forall line <- Lines(s) :: |line| <= maxLine + 1
    ensures forall part <- Split(s, chunk) :: |part| <= chunk + maxLine
  {
    forall part <- Split(s, chunk) ensures |part| <= chunk + maxLine {
      PackerMatchesSplitter(s, chunk);
      LongChunksAreLines(Lines(s), [], chunk, part);
    }
  }

  /** One more chunk cut off a stream, the others before it. */
  lemma SplitNext(stream: Bytes, start: nat, end: nat, chunk: nat, out: seq<Bytes>)
    requires chunk > 0 && start < end <= |stream| && end - start == ChunkEnd(stream[start..], chunk)
    ensures out + Split(stream[start..], chunk) == out + [stream[start..end]] + Split(stream[end..], chunk)
  {
    var rest := stream[start..];
    assert rest[..end - start] == stream[start..end] && rest[end - start..] == stream[end..];
    Associative(out, [stream[start..end]], Split(stream[end..], chunk));
  }

  // ---------------------------------------------------------------- the programs

  /** The end of the chunk that starts at `start`. */
  method EndOfChunk(stream: Bytes, start: nat, chunk: nat) returns (end: nat)
    requires chunk > 0 && start < |stream|
    ensures start < end <= |stream| && end - start == ChunkEnd(stream[start..], chunk)
  {
    var rest := stream[start..];
    if |rest| <= chunk { return |stream|; }
    match LastBreak(rest, chunk) {
      case Some(p) => end := start + p + 1;
      case None =>
        var p := FirstBreak(rest, chunk);
        end := if p == |rest| then |stream| else start + p + 1;
    }
  }

  /** The in-memory splitter. */
  method SplitInMemory(stream: Bytes, chunk: nat) returns (out: seq<Bytes>)
    requires chunk > 0
    ensures out == Split(stream, chunk)
  {
    out := [];
    var start := 0;
    assert stream[0..] == stream;
    while start < |stream|
      invariant start <= |stream| && out + Split(stream[start..], chunk) == Split(stream, chunk)
    {
      var end := EndOfChunk(stream, start, chunk);
      SplitNext(stream, start, end, chunk, out);
      out := out + [stream[start..end]];
      start := end;
    }
  }

  class Chunker {
    const chunk: nat
    var buffer: Bytes
    var refs: seq<Bytes>

    constructor (chunk: nat)
      ensures this.chunk == chunk && buffer == [] && refs == []
    {
      this.chunk, buffer, refs := chunk, [], [];
    }

    method Push(line: Bytes)
      modifies this
      ensures buffer == if Overflows(old(buffer), line, chunk) then line else old(buffer) + line
      ensures refs == if Overflows(old(buffer), line, chunk) then old(refs) + [old(buffer)] else old(refs)
    {
      if buffer != [] && |buffer| + |line| > chunk { Flush(); }
      buffer := buffer + line;
    }

    method Flush()
      modifies this
      ensures buffer == []
      ensures refs == if old(buffer) == [] then old(refs) else old(refs) + [old(buffer)]
    {
      if buffer != [] {
        refs := refs + [buffer];
        buffer := [];
      }
    }
  }

  predicate Overflows(buffer: Bytes, line: Bytes, chunk: nat) { buffer != [] && |buffer| + |line| > chunk }

  /** A bounded `read_until`: at most maxLine + 2 bytes of the next line. */
  method ReadLine(rest: Bytes, maxLine: nat) returns (line: Bytes)
    requires rest != []
    ensures line == rest[..if LineEnd(rest) < maxLine + 2 then LineEnd(rest) else maxLine + 2]
  {
    var end := LineEnd(rest);
    line := rest[..if end < maxLine + 2 then end else maxLine + 2];
  }

  /** The line without its break. */
  function Body(line: Bytes): Bytes { Stripped(Stripped(line, NEWLINE), RETURN) }

  function Stripped(line: Bytes, end: byte): Bytes {
    if line != [] && line[|line| - 1] == end then line[..|line| - 1] else line
  }

  /**
   * Writes the stream's chunks in one pass over its lines. It refuses exactly the streams with a line that is over-long
   * or whose body is not accepted, and otherwise writes what the in-memory splitter would, losing no byte and within
   * the bound of the reread. A body is accepted if it is UTF-8 and either blank or JSON whose table, if any, is laid out.
   */
  method WriteChunks(stream: Bytes, chunk: nat, maxLine: nat, accepts: Bytes -> bool) returns (r: Result<seq<Bytes>, ()>)
    requires chunk > 0
    ensures r.Ok? <==> forall line <- Lines(stream) :: |line| <= maxLine + 1 && accepts(Body(line))
    ensures r.Ok? ==> r.value == Split(stream, chunk) && Concat(r.value) == stream
    ensures r.Ok? ==> forall part <- r.value :: |part| <= chunk + maxLine
  {
    r := PackStream(stream, chunk, maxLine, accepts);
    Written(stream, chunk, maxLine, accepts);
  }

  /** The single pass. */
  method PackStream(stream: Bytes, chunk: nat, maxLine: nat, accepts: Bytes -> bool) returns (r: Result<seq<Bytes>, ()>)
    requires chunk > 0
    ensures r.Ok? <==> Readable(stream, maxLine, accepts)
    ensures r.Ok? ==> r.value == Pack(Lines(stream), [], chunk)
  {
    var chunker := new Chunker(chunk);
    var rest := stream;
    ghost var whole := Pack(Lines(stream), [], chunk);
    while rest != []
      invariant chunker.chunk == chunk && fresh(chunker)
      invariant Progress(chunker.refs, Lines(rest), chunker.buffer, chunk, whole)
      invariant Readable(stream, maxLine, accepts) == Readable(rest, maxLine, accepts)
      decreases |rest|
    {
      var line := ReadLine(rest, maxLine);
      if |line| > maxLine + 1 { return Refused(()); }
      assert Lines(rest) == [line] + Lines(rest[|line|..]);
      PushKeepsProgress(chunker.refs, line, Lines(rest[|line|..]), chunker.buffer, chunk, whole);
      chunker.Push(line);
      if !accepts(Body(line)) { return Refused(()); }
      rest := rest[|line|..];
    }
    chunker.Flush();
    r := Ok(chunker.refs);
  }

  /** No line of the stream exceeds the reader's bound, and the body of every line is accepted. */
  predicate Readable(stream: Bytes, maxLine: nat, accepts: Bytes -> bool)
    decreases |stream|
  {
    stream == []
    || (LineEnd(stream) <= maxLine + 1 && accepts(Body(stream[..LineEnd(stream)]))
        && Readable(stream[LineEnd(stream)..], maxLine, accepts))
  }

  lemma {:induction false} ReadableLines(stream: Bytes, maxLine: nat, accepts: Bytes -> bool)
    ensures Readable(stream, maxLine, accepts)
       <==> forall line <- Lines(stream) :: |line| <= maxLine + 1 && accepts(Body(line))
    decreases |stream|
  {
    if stream != [] {
      var first, rest := stream[..LineEnd(stream)], stream[LineEnd(stream)..];
      ReadableLines(rest, maxLine, accepts);
      assert Lines(stream) == [first] + Lines(rest);
      assert Lines(stream)[0] == first && Lines(stream)[1..] == Lines(rest);
    }
  }

  /** What is written and what is still to be packed: pushing a line does not change it. */
  ghost predicate Progress(refs: seq<Bytes>, lines: seq<Bytes>, buffer: Bytes, chunk: nat, whole: seq<Bytes>) {
    refs + Pack(lines, buffer, chunk) == whole
  }

  lemma PushKeepsProgress(refs: seq<Bytes>, line: Bytes, rest: seq<Bytes>, buffer: Bytes, chunk: nat, whole: seq<Bytes>)
    requires Progress(refs, [line] + rest, buffer, chunk, whole)
    ensures if Overflows(buffer, line, chunk) then Progress(refs + [buffer], rest, line, chunk, whole)
            else Progress(refs, rest, buffer + line, chunk, whole)
  {
    assert ([line] + rest)[1..] == rest;
    Associative(refs, [buffer], Pack(rest, line, chunk));
  }

  lemma Written(stream: Bytes, chunk: nat, maxLine: nat, accepts: Bytes -> bool)
    requires chunk > 0
    ensures Pack(Lines(stream), [], chunk) == Split(stream, chunk) && Concat(Split(stream, chunk)) == stream
    ensures Readable(stream, maxLine, accepts)
       <==> forall line <- Lines(stream) :: |line| <= maxLine + 1 && accepts(Body(line))
    ensures Readable(stream, maxLine, accepts) ==> forall part <- Split(stream, chunk) :: |part| <= chunk + maxLine
  {
    PackerMatchesSplitter(stream, chunk);
    SplitKeepsEveryByte(stream, chunk);
    ReadableLines(stream, maxLine, accepts);
    if Readable(stream, maxLine, accepts) { ChunksFitReread(stream, chunk, maxLine); }
  }

  /** The bytes reread so far followed by the rest, unless a chunk or the total is over its bound. */
  ghost function Joined(hashed: Bytes, rest: seq<Bytes>, chunkBound: nat, streamBound: nat): Option<Bytes>
    decreases |rest|
  {
    if rest == [] then Some(hashed)
    else if |hashed| + |rest[0]| > streamBound || |rest[0]| > chunkBound then None
    else Joined(hashed + rest[0], rest[1..], chunkBound, streamBound)
  }

  lemma {:induction false} JoinedIs(hashed: Bytes, rest: seq<Bytes>, chunkBound: nat, streamBound: nat)
    requires |hashed| <= streamBound
    ensures Joined(hashed, rest, chunkBound, streamBound)
         == if (forall part <- rest :: |part| <= chunkBound) && |hashed| + |Concat(rest)| <= streamBound
            then Some(hashed + Concat(rest)) else None
    decreases |rest|
  {
    if rest == [] {
      assert hashed + [] == hashed;
    } else {
      assert forall part :: part in rest <==> part == rest[0] || part in rest[1..];
      if |hashed| + |rest[0]| <= streamBound && |rest[0]| <= chunkBound {
        JoinedIs(hashed + rest[0], rest[1..], chunkBound, streamBound);
        Associative(hashed, rest[0], Concat(rest[1..]));
      }
    }
  }

  /**
   * The reread: every chunk within its bound, the running total within the stream bound, and the
   * reread stream identical to the recorded one (SHA-256 taken as injective).
   */
  method Reread(parts: seq<Bytes>, recorded: Bytes, chunkBound: nat, streamBound: nat) returns (ok: bool)
    ensures ok <==> (forall part <- parts :: |part| <= chunkBound) && |recorded| <= streamBound && Concat(parts) == recorded
  {
    JoinedIs([], parts, chunkBound, streamBound);
    assert [] + Concat(parts) == Concat(parts);
    var total, hashed, rest := 0, [], parts;
    while rest != []
      invariant total == |hashed|
      invariant Joined(hashed, rest, chunkBound, streamBound) == Joined([], parts, chunkBound, streamBound)
      decreases |rest|
    {
      var part := rest[0];
      if total + |part| > streamBound { return false; }
      if |part| > chunkBound { return false; }
      total, hashed, rest := total + |part|, hashed + part, rest[1..];
    }
    ok := hashed == recorded && total == |recorded|;
  }

  /** A written stream passes its own reread exactly when it is within the stream bound. */
  method WriteThenReread(stream: Bytes, streamBound: nat, accepts: Bytes -> bool) returns (written: bool, ok: bool)
    ensures written <==> forall line <- Lines(stream) :: |line| <= MAX_LINE_BYTES + 1 && accepts(Body(line))
    ensures written ==> (ok <==> |stream| <= streamBound)
  {
    var r := WriteChunks(stream, CHUNK_BYTES, MAX_LINE_BYTES, accepts);
    if r.Refused? { return false, false; }
    written := true;
    ok := Reread(r.value, stream, CHUNK_BYTES + MAX_LINE_BYTES, streamBound);
  }
}
