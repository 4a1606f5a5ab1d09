/** The line assembler of the container transport: lines out of a chunked byte
    stream, oversized lines dropped, and exactly which streams come out the same
    however they are chunked. Lines stay bytes here; decoding them is not part
    of this model. */
module LineAssembling {
  import opened TaskTypes

  type Byte = bv8
  type Bytes = seq<Byte>

  const NL: Byte := 10
  const CR: Byte := 13
  const MAX_LINE_BYTES: nat := 32 * 1024 * 1024

  /** Where the first line of `s` ends: at its newline, or at the end. */
  function Cut(s: Bytes): (i: nat)
    ensures i <= |s|
    ensures i < |s| ==> s[i] == NL
    ensures NL in s <==> i < |s|
    ensures NL !in s[..i]
  {
    if s == [] then 0 else if s[0] == NL then 0 else
      var i := Cut(s[1..]);
      assert s[..i + 1] == [s[0]] + s[1..][..i];
      i + 1
  }

  /** rstrip("\r"): every trailing carriage return goes. */
  function Strip(s: Bytes): (out: Bytes)
    ensures out <= s
    ensures out != [] ==> out[|out| - 1] != CR
    ensures forall i | |out| <= i < |s| :: s[i] == CR
  {
    if s != [] && s[|s| - 1] == CR then Strip(s[..|s| - 1]) else s
  }

  function Flatten(chunks: seq<Bytes>): Bytes {
    if chunks == [] then [] else chunks[0] + Flatten(chunks[1..])
  }

  // What one call returns, and what it leaves behind.

  datatype Read = Read(line: Option<Bytes>, buf: Bytes, chunks: seq<Bytes>)

  function Terminated(line: Bytes, max: nat): Bytes {
    if |line| > max then [] else Strip(line)
  }

  /** _drop_oversize_line */
  function Drop(buf: Bytes, chunks: seq<Bytes>, max: nat): Read
    decreases |chunks|
  {
    if NL in buf then Read(Some([]), buf[Cut(buf) + 1..], chunks)
    else if chunks == [] || |buf| > 2 * max then Read(Some([]), [], chunks)
    else Drop(buf + chunks[0], chunks[1..], max)
  }

  /** readline */
  function ReadLine(buf: Bytes, chunks: seq<Bytes>, max: nat): Read
    decreases |chunks|
  {
    if NL in buf then
      Read(Some(Terminated(buf[..Cut(buf)], max)), buf[Cut(buf) + 1..], chunks)
    else if |buf| > max then Drop(buf, chunks, max)
    else if chunks == [] then Read(if buf == [] then None else Some(buf), [], [])
    else ReadLine(buf + chunks[0], chunks[1..], max)
  }

  lemma {:induction false} DropConsumes(buf: Bytes, chunks: seq<Bytes>, max: nat)
    requires buf != []
    ensures var r := Drop(buf, chunks, max);
            r.line.Some? && |r.buf| + |Flatten(r.chunks)| < |buf| + |Flatten(chunks)|
    decreases |chunks|
  {
    if !(NL in buf) && chunks != [] && |buf| <= 2 * max {
      DropConsumes(buf + chunks[0], chunks[1..], max);
    }
  }

  /** A line that comes back has used up bytes of the stream. */
  lemma {:induction false} ReadConsumes(buf: Bytes, chunks: seq<Bytes>, max: nat)
    ensures var r := ReadLine(buf, chunks, max);
            r.line.Some? ==> |r.buf| + |Flatten(r.chunks)| < |buf| + |Flatten(chunks)|
    decreases |chunks|
  {
    if !(NL in buf) {
      if |buf| > max {
        DropConsumes(buf, chunks, max);
      } else if chunks != [] {
        ReadConsumes(buf + chunks[0], chunks[1..], max);
      }
    }
  }

  /** Every line until the end of the stream. */
  function Lines(buf: Bytes, chunks: seq<Bytes>, max: nat): seq<Bytes>
    decreases |buf| + |Flatten(chunks)|
  {
    var r := ReadLine(buf, chunks, max);
    ReadConsumes(buf, chunks, max);
    if r.line == None then [] else [r.line.value] + Lines(r.buf, r.chunks, max)
  }

  // What the stream says by itself.

  /** The stream split at its newlines: terminated lines lose their carriage
      returns, a leftover tail is kept as it is, oversized lines become empty. */
  function Split(s: Bytes, max: nat): seq<Bytes>
    decreases |s|
  {
    var i := Cut(s);
    if i < |s| then [Terminated(s[..i], max)] + Split(s[i + 1..], max)
    else if s == [] then []
    else [if |s| > max then [] else s]
  }

  /** No line runs so far past the limit that the hard cap may cut it. */
  predicate Tame(s: Bytes, max: nat)
    decreases |s|
  {
    var i := Cut(s);
    if i < |s| then i <= 2 * max && Tame(s[i + 1..], max) else |s| <= 2 * max + 1
  }

  lemma {:induction false} CutAfter(a: Bytes, b: Bytes)
    ensures NL in a ==> Cut(a + b) == Cut(a)
    ensures NL !in a ==> Cut(a + b) == |a| + Cut(b)
  {
    if a == [] {
      assert a + b == b;
    } else {
      assert (a + b)[1..] == a[1..] + b;
      CutAfter(a[1..], b);
      assert NL in a <==> a[0] == NL || NL in a[1..];
    }
  }

  /** One read of a tame stream takes its first line, whatever the chunks. */
  predicate TakesFirst(r: Read, s: Bytes, max: nat) {
    var i := Cut(s);
    if i < |s| then r.line == Some(Terminated(s[..i], max)) && r.buf + Flatten(r.chunks) == s[i + 1..]
    else r.line == (if s == [] then None else Some(if |s| > max then [] else s)) && r.buf + Flatten(r.chunks) == []
  }

  lemma FirstInBuffer(buf: Bytes, chunks: seq<Bytes>, max: nat, line: Bytes)
    requires NL in buf && line == Terminated(buf[..Cut(buf)], max)
    ensures TakesFirst(Read(Some(line), buf[Cut(buf) + 1..], chunks), buf + Flatten(chunks), max)
  {
    hide Terminated, Flatten;
    var rest := Flatten(chunks);
    var s, i := buf + rest, Cut(buf);
    CutAfter(buf, rest);
    assert s[..i] == buf[..i];
    assert s[i + 1..] == buf[i + 1..] + rest;
  }

  /** The hard cap, or the end of the stream, cuts a tame stream only where
      nothing of the line is left. */
  lemma DropEnds(buf: Bytes, chunks: seq<Bytes>, max: nat)
    requires NL !in buf && |buf| > max && (chunks == [] || |buf| > 2 * max) && Tame(buf + Flatten(chunks), max)
    ensures TakesFirst(Read(Some([]), [], chunks), buf + Flatten(chunks), max)
  {
    hide Terminated;
    var rest := Flatten(chunks);
    CutAfter(buf, rest);
    assert chunks == [] ==> rest == [];
    hide Flatten, Cut;
    assert |buf + rest| == |buf|;
    assert rest == [] && buf + rest == buf;
  }

  lemma NextCut(buf: Bytes, chunk: Bytes)
    requires NL !in buf
    ensures |buf| <= Cut(buf + chunk)
  {
    CutAfter(buf, chunk);
  }

  lemma {:induction false} DropTakesFirst(buf: Bytes, chunks: seq<Bytes>, max: nat)
    requires Cut(buf) > max && Tame(buf + Flatten(chunks), max)
    ensures TakesFirst(Drop(buf, chunks, max), buf + Flatten(chunks), max)
    decreases |chunks|
  {
    hide Cut, TakesFirst, Tame, Flatten, Strip;
    if NL in buf {
      FirstInBuffer(buf, chunks, max, []);
    } else if chunks == [] || |buf| > 2 * max {
      DropEnds(buf, chunks, max);
    } else {
      NextChunk(buf, chunks);
      NextCut(buf, chunks[0]);
      DropTakesFirst(buf + chunks[0], chunks[1..], max);
    }
  }

  lemma OnlyTail(buf: Bytes, max: nat)
    requires NL !in buf && |buf| <= max
    ensures TakesFirst(Read(if buf == [] then None else Some(buf), [], []), buf + Flatten([]), max)
  {
    assert buf + Flatten([]) == buf;
  }

  lemma NextChunk(buf: Bytes, chunks: seq<Bytes>)
    requires chunks != []
    ensures buf + Flatten(chunks) == (buf + chunks[0]) + Flatten(chunks[1..])
  {
  }

  lemma {:induction false} ReadTakesFirst(buf: Bytes, chunks: seq<Bytes>, max: nat)
    requires Tame(buf + Flatten(chunks), max)
    ensures TakesFirst(ReadLine(buf, chunks, max), buf + Flatten(chunks), max)
    decreases |chunks|
  {
    hide Cut, Terminated, Drop, TakesFirst, Tame, Flatten;
    if NL in buf {
      FirstInBuffer(buf, chunks, max, Terminated(buf[..Cut(buf)], max));
    } else if |buf| > max {
      DropTakesFirst(buf, chunks, max);
    } else if chunks == [] {
      OnlyTail(buf, max);
    } else {
      NextChunk(buf, chunks);
      ReadTakesFirst(buf + chunks[0], chunks[1..], max);
    }
  }

  lemma {:induction false} TameSplits(buf: Bytes, chunks: seq<Bytes>, max: nat)
    requires Tame(buf + Flatten(chunks), max)
    ensures Lines(buf, chunks, max) == Split(buf + Flatten(chunks), max)
    decreases |buf| + |Flatten(chunks)|
  {
    hide Cut, Terminated, Flatten, ReadLine;
    var s, r := buf + Flatten(chunks), ReadLine(buf, chunks, max);
    ReadTakesFirst(buf, chunks, max);
    ReadConsumes(buf, chunks, max);
    if r.line.Some? {
      TameSplits(r.buf, r.chunks, max);
      assert Lines(buf, chunks, max) == [r.line.value] + Split(r.buf + Flatten(r.chunks), max);
    } else {
      assert Lines(buf, chunks, max) == [];
    }
  }

  // A stream that is not tame: byte by byte it yields more lines.

  function Singles(s: Bytes): seq<Bytes> {
    if s == [] then [] else [[s[0]]] + Singles(s[1..])
  }

  lemma {:induction false} SinglesFlatten(s: Bytes)
    ensures Flatten(Singles(s)) == s
  {
    if s == [] {
    } else {
      SinglesFlatten(s[1..]);
      assert Singles(s)[1..] == Singles(s[1..]);
    }
  }

  /** How many lines come out byte by byte, with `k` bytes of a line buffered. */
  function Yield(k: nat, rest: Bytes, max: nat): nat
    decreases |rest|
  {
    if rest == [] then (if k > 0 then 1 else 0)
    else if rest[0] == NL || k == 2 * max then 1 + Yield(0, rest[1..], max)
    else Yield(k + 1, rest[1..], max)
  }

  lemma DropOne(buf: Bytes, b: Byte, rest: Bytes, max: nat)
    requires NL !in buf && |buf| <= 2 * max
    ensures Drop(buf, Singles([b] + rest), max) == Drop(buf + [b], Singles(rest), max)
  {
    assert ([b] + rest)[1..] == rest;
    assert Singles([b] + rest)[1..] == Singles(rest);
  }

  lemma ReadOne(buf: Bytes, b: Byte, rest: Bytes, max: nat)
    requires NL !in buf && |buf| < 2 * max && b != NL
    ensures ReadLine(buf, Singles([b] + rest), max) == ReadLine(buf + [b], Singles(rest), max)
  {
    assert ([b] + rest)[1..] == rest;
    assert Singles([b] + rest)[1..] == Singles(rest);
    if |buf| > max { DropOne(buf, b, rest, max); }
  }

  /** The newline or the hard cap ends the line that is buffered. */
  lemma ReadEnds(buf: Bytes, b: Byte, rest: Bytes, max: nat)
    requires NL !in buf && |buf| <= 2 * max && (b == NL || |buf| == 2 * max)
    ensures var r := ReadLine(buf, Singles([b] + rest), max);
            r.line.Some? && r.buf == [] && r.chunks == Singles(rest)
  {
    assert ([b] + rest)[1..] == rest;
    assert Singles([b] + rest)[1..] == Singles(rest);
    CutAfter(buf, [b]);
    assert (buf + [b])[|buf|] == b;
    if |buf| > max { DropOne(buf, b, rest, max); }
  }

  lemma {:induction false} YieldCounts(buf: Bytes, rest: Bytes, max: nat)
    requires NL !in buf && |buf| <= 2 * max
    ensures |Lines(buf, Singles(rest), max)| == Yield(|buf|, rest, max)
    decreases |rest|
  {
    if rest == [] {
    } else {
      assert [rest[0]] + rest[1..] == rest;
      if rest[0] == NL || |buf| == 2 * max {
        ReadEnds(buf, rest[0], rest[1..], max);
        YieldCounts([], rest[1..], max);
      } else {
        ReadOne(buf, rest[0], rest[1..], max);
        SinglesFlatten(rest);
        SinglesFlatten(rest[1..]);
        YieldCounts(buf + [rest[0]], rest[1..], max);
      }
    }
  }

  lemma {:induction false} YieldExceeds(p: Bytes, rest: Bytes, max: nat)
    requires NL !in p && |p| <= 2 * max
    ensures |Split(p + rest, max)| <= Yield(|p|, rest, max)
    ensures !Tame(p + rest, max) ==> |Split(p + rest, max)| < Yield(|p|, rest, max)
    decreases |rest|
  {
    CutAfter(p, rest);
    if rest == [] {
      assert p + rest == p;
    } else {
      var b, more := rest[0], rest[1..];
      if b == NL {
        assert (p + rest)[|p| + 1..] == more;
        YieldExceeds([], more, max);
        assert [] + more == more;
      } else if |p| < 2 * max {
        assert p + rest == (p + [b]) + more;
        YieldExceeds(p + [b], more, max);
      } else {
        YieldExceeds([], more, max);
        assert [] + more == more;
        CapSplits(p + [b], more, max);
        assert p + rest == (p + [b]) + more;
      }
    }
  }

  lemma SplitStep(s: Bytes, max: nat)
    ensures var i := Cut(s);
            |Split(s, max)| == if i < |s| then 1 + |Split(s[i + 1..], max)| else if s == [] then 0 else 1
  {
    hide Cut, Terminated;
  }

  lemma CutRest(p: Bytes, more: Bytes)
    requires NL !in p
    ensures Cut(p + more) == |p| + Cut(more)
    ensures Cut(more) < |more| ==> (p + more)[Cut(p + more) + 1..] == more[Cut(more) + 1..]
  {
    CutAfter(p, more);
    hide Cut;
  }

  /** Where the hard cap falls, the cut stream has a line more unless nothing
      follows. */
  lemma CapSplits(p: Bytes, more: Bytes, max: nat)
    requires NL !in p && |p| == 2 * max + 1
    ensures if more == [] then Tame(p + more, max) && |Split(p + more, max)| == 1
        else |Split(p + more, max)| <= |Split(more, max)|
  {
    hide Cut, Split;
    CutRest(p, more);
    SplitStep(p + more, max);
    SplitStep(more, max);
  }

  /** Chunk independence, exactly: every chunking of a stream yields its lines
      if and only if no terminated line exceeds twice the limit and no
      unterminated tail exceeds that by more than a byte. */
  lemma ChunkIndependence(s: Bytes, max: nat)
    ensures (forall chunks | Flatten(chunks) == s :: Lines([], chunks, max) == Split(s, max)) <==> Tame(s, max)
  {
    if Tame(s, max) {
      forall chunks | Flatten(chunks) == s ensures Lines([], chunks, max) == Split(s, max) {
        assert [] + Flatten(chunks) == s;
        TameSplits([], chunks, max);
      }
    } else {
      SinglesFlatten(s);
      YieldCounts([], s, max);
      assert [] + s == s;
      YieldExceeds([], s, max);
      assert Lines([], Singles(s), max) != Split(s, max);
    }
  }

  /** The lines as a writer sends them. */
  function Join(lines: seq<Bytes>): Bytes {
    if lines == [] then [] else lines[0] + [10] + Join(lines[1..])
  }

  /** What comes back for a line that is sent: nothing if it is oversized, and
      otherwise the line without the carriage returns at its end. */
  predicate ComesBack(sent: Bytes, got: Bytes, max: nat) {
    if |sent| > max then got == []
    else got <= sent && (got == [] || got[|got| - 1] != 13) && forall k | |got| <= k < |sent| :: sent[k] == 13
  }

  /** Round trip for any lines up to the hard cap, in whatever chunks: each comes
      back as it should, and a tail without a newline as it is. */
  lemma AnyLinesRoundTrip(lines: seq<Bytes>, tail: Bytes, chunks: seq<Bytes>, max: nat)
    requires forall l | l in lines :: (10 as Byte) !in l && |l| <= 2 * max
    requires (10 as Byte) !in tail && |tail| <= 2 * max + 1 && Flatten(chunks) == Join(lines) + tail
    ensures var got := Lines([], chunks, max);
            && |got| == |lines| + (if tail == [] then 0 else 1)
            && (forall i | 0 <= i < |lines| :: ComesBack(lines[i], got[i], max))
            && (tail != [] ==> got[|lines|] == if |tail| > max then [] else tail)
  {
    hide Lines, Split, Tame, Flatten, Join, Terminated, ComesBack;
    JoinSplits(lines, tail, max);
    assert [] + Flatten(chunks) == Join(lines) + tail;
    TameSplits([], chunks, max);
    var got := Lines([], chunks, max);
    forall i | 0 <= i < |lines| ensures ComesBack(lines[i], got[i], max) {
      TerminatedComesBack(lines[i], max);
    }
  }

  lemma TerminatedComesBack(l: Bytes, max: nat)
    ensures ComesBack(l, Terminated(l, max), max)
  {
  }

  /** A line that is sent as it will be read. */
  predicate Clean(l: Bytes, max: nat) {
    NL !in l && |l| <= max && (l == [] || l[|l| - 1] != CR)
  }

  /** What a writer sends as clean lines comes back as the same lines, in
      whatever chunks the transport delivers them. */
  lemma LinesRoundTrip(lines: seq<Bytes>, chunks: seq<Bytes>, max: nat)
    requires forall l | l in lines :: Clean(l, max)
    requires Flatten(chunks) == Join(lines)
    ensures Lines([], chunks, max) == lines
  {
    hide Lines, Flatten, Join;
    assert Join(lines) + [] == Join(lines);
    AnyLinesRoundTrip(lines, [], chunks, max);
    forall i | 0 <= i < |lines| ensures Lines([], chunks, max)[i] == lines[i] {
      assert lines[i] in lines;
    }
  }

  lemma {:induction false} JoinSplits(lines: seq<Bytes>, tail: Bytes, max: nat)
    requires forall l | l in lines :: NL !in l && |l| <= 2 * max
    requires NL !in tail && |tail| <= 2 * max + 1
    ensures var s := Join(lines) + tail;
            && Tame(s, max) && |Split(s, max)| == |lines| + (if tail == [] then 0 else 1)
            && (forall i | 0 <= i < |lines| :: Split(s, max)[i] == Terminated(lines[i], max))
            && (tail != [] ==> Split(s, max)[|lines|] == if |tail| > max then [] else tail)
  {
    hide Split, Tame, Terminated;
    if lines == [] {
      assert Join(lines) + tail == tail;
      TailSplits(tail, max);
    } else {
      JoinSplits(lines[1..], tail, max);
      FirstOff(lines[0], Join(lines[1..]) + tail, max);
      assert Join(lines) + tail == lines[0] + [NL] + (Join(lines[1..]) + tail);
    }
  }

  lemma TailSplits(tail: Bytes, max: nat)
    requires NL !in tail && |tail| <= 2 * max + 1
    ensures Tame(tail, max) && Split(tail, max) == if tail == [] then [] else [if |tail| > max then [] else tail]
  {
  }

  /** A terminated line in front is the first line. */
  lemma FirstOff(l: Bytes, rest: Bytes, max: nat)
    requires NL !in l && |l| <= 2 * max && Tame(rest, max)
    ensures Tame(l + [NL] + rest, max)
    ensures Split(l + [NL] + rest, max) == [Terminated(l, max)] + Split(rest, max)
  {
    var s := l + [NL] + rest;
    FirstCut(l, rest);
    hide Cut, Terminated;
  }

  lemma FirstCut(l: Bytes, rest: Bytes)
    requires NL !in l
    ensures var s := l + [NL] + rest; Cut(s) == |l| && s[..|l|] == l && s[|l| + 1..] == rest
  {
    assert Cut([NL] + rest) == 0;
    CutRest(l, [NL] + rest);
    assert l + [NL] + rest == l + ([NL] + rest);
    hide Cut;
  }

  // The object.

  class LineAssembler {
    const max: nat
    var buf: Bytes
    var eof: bool
    /** What read_out has still to deliver. */
    var source: seq<Bytes>

    ghost predicate Valid()
      reads this
    {
      eof ==> source == []
    }

    constructor (source: seq<Bytes>)
      ensures Valid() && max == 33_554_432 && buf == [] && this.source == source
    {
      this.max, this.buf, this.eof, this.source := MAX_LINE_BYTES, [], false, source;
    }

    method ReadOut() returns (data: Option<Bytes>)
      modifies `source
      ensures if old(source) == [] then data == None && source == []
              else data == Some(old(source)[0]) && source == old(source)[1..]
    {
      if source == [] { return None; }
      data := Some(source[0]);
      source := source[1..];
    }

    /** readline: the line, buffer and stream are those of the function; the
        buffer never holds more than the hard cap and one chunk. */
    method Readline(ghost chunk: nat) returns (line: Option<Bytes>)
      requires Valid() && |buf| <= 2 * max + chunk && (forall c | c in source :: |c| <= chunk)
      modifies this
      ensures Valid() && |buf| <= 2 * max + chunk && (forall c | c in source :: |c| <= chunk)
      ensures Read(line, buf, source) == ReadLine(old(buf), old(source), max)
    {
      while NL !in buf
        invariant Valid() && |buf| <= 2 * max + chunk && (forall c | c in source :: |c| <= chunk)
        invariant ReadLine(buf, source, max) == ReadLine(old(buf), old(source), max)
        decreases |source|, !eof
      {
        if |buf| > max {
          line := DropOversizeLine(chunk);
          return;
        }
        if eof {
          if buf == [] { return None; }
          line := Some(buf);
          buf := [];
          return;
        }
        var message := ReadOut();
        if message == None {
          eof := true;
          continue;
        }
        buf := buf + message.value;
      }
      var idx := Cut(buf);
      if idx > max {
        buf := buf[idx + 1..];
        return Some([]);
      }
      line := Some(Strip(buf[..idx]));
      buf := buf[idx + 1..];
    }

    method DropOversizeLine(ghost chunk: nat) returns (line: Option<Bytes>)
      requires Valid() && |buf| <= 2 * max + chunk && (forall c | c in source :: |c| <= chunk)
      modifies this
      ensures Valid() && |buf| <= 2 * max + chunk && (forall c | c in source :: |c| <= chunk)
      ensures Read(line, buf, source) == Drop(old(buf), old(source), max)
    {
      var drained := |buf|;
      while true
        invariant Valid() && |buf| <= 2 * max + chunk && (forall c | c in source :: |c| <= chunk)
        invariant drained == |buf|
        invariant Drop(buf, source, max) == Drop(old(buf), old(source), max)
        decreases |source|, !eof
      {
        if NL in buf {
          buf := buf[Cut(buf) + 1..];
          return Some([]);
        }
        if eof || drained > 2 * max {
          buf := [];
          return Some([]);
        }
        var message := ReadOut();
        if message == None {
          eof := true;
          continue;
        }
        buf := buf + message.value;
        drained := drained + |message.value|;
      }
    }
  }
}
