/** The two stream writers between a generator's output and a terminal shared by parallel runs. */
module Writers {
  import opened Sequences

  type Bytes = seq<bv8>

  const NEWLINE: bv8 := 10

  function Flatten(chunks: seq<Bytes>): Bytes {
    if chunks == [] then [] else Flatten(chunks[..|chunks| - 1]) + chunks[|chunks| - 1]
  }

  lemma FlattenSnoc(chunks: seq<Bytes>, b: Bytes)
    ensures Flatten(chunks + [b]) == Flatten(chunks) + b
  {
    ButLast(chunks, b);
  }

  predicate EndsLine(b: Bytes) {
    b != [] && b[|b| - 1] == NEWLINE
  }

  // Lines.

  /** The lines of a text, each with its newline; the last may lack one. */
  function Lines(b: Bytes): (lines: seq<Bytes>)
    ensures b == [] <==> lines == []
  {
    if b == [] then []
    else
      var init, c := b[..|b| - 1], b[|b| - 1];
      if init == [] || EndsLine(init) then Lines(init) + [[c]]
      else
        var before := Lines(init);
        before[..|before| - 1] + [before[|before| - 1] + [c]]
  }

  function PrefixEach(prefix: Bytes, lines: seq<Bytes>): Bytes {
    if lines == [] then [] else PrefixEach(prefix, lines[..|lines| - 1]) + prefix + lines[|lines| - 1]
  }

  lemma {:induction false} LinesJoin(b: Bytes)
    ensures Flatten(Lines(b)) == b
  {
    if b != [] {
      var init, c := b[..|b| - 1], b[|b| - 1];
      LastOf(b);
      LinesJoin(init);
      if init == [] || EndsLine(init) {
        FlattenSnoc(Lines(init), [c]);
      } else {
        var before := Lines(init);
        var short, last := before[..|before| - 1], before[|before| - 1];
        LastOf(before);
        FlattenSnoc(short, last);
        FlattenSnoc(short, last + [c]);
        assert Flatten(short) + (last + [c]) == Flatten(short) + last + [c];
      }
    }
  }

  /** A line holds no newline but at its end, and only the last may lack one. */
  ghost predicate AreLines(lines: seq<Bytes>) {
    && (forall i :: 0 <= i < |lines| ==> lines[i] != [])
    && (forall i :: 0 <= i < |lines| - 1 ==> EndsLine(lines[i]))
    && (forall i, j :: 0 <= i < |lines| && 0 <= j < |lines[i]| - 1 ==> lines[i][j] != NEWLINE)
  }

  lemma OneMoreLine(lines: seq<Bytes>, c: bv8)
    requires AreLines(lines) && (lines == [] || EndsLine(lines[|lines| - 1]))
    ensures AreLines(lines + [[c]])
  {
  }

  lemma LongerLine(short: seq<Bytes>, last: Bytes, c: bv8)
    requires AreLines(short + [last]) && !EndsLine(last)
    ensures AreLines(short + [last + [c]])
  {
    var before, after := short + [last], short + [last + [c]];
    assert before[|short|] == last && forall i :: 0 <= i < |short| ==> before[i] == after[i];
    forall i, j | 0 <= i < |after| && 0 <= j < |after[i]| - 1 ensures after[i][j] != NEWLINE {
      if i == |short| && j == |last| - 1 { assert last[j] != NEWLINE; } else { assert after[i][j] == before[i][j]; }
    }
  }

  lemma {:induction false} LinesAreLines(b: Bytes)
    ensures AreLines(Lines(b))
    ensures b != [] ==> (EndsLine(b) <==> EndsLine(Lines(b)[|Lines(b)| - 1]))
  {
    if b != [] {
      var init, c := b[..|b| - 1], b[|b| - 1];
      LinesAreLines(init);
      var before := Lines(init);
      if init == [] || EndsLine(init) {
        OneMoreLine(before, c);
      } else {
        LastOf(before);
        LongerLine(before[..|before| - 1], before[|before| - 1], c);
      }
    }
  }

  // The prefixing writer.

  /** What `linePrefixWriter` turns a write into; `mid` says the last byte before it was no newline. */
  function Prefixed(prefix: Bytes, mid: bool, b: Bytes): Bytes {
    if b == [] then []
    else
      var init := b[..|b| - 1];
      Prefixed(prefix, mid, init) + (if MidAfter(mid, init) then [] else prefix) + [b[|b| - 1]]
  }

  function MidAfter(mid: bool, b: Bytes): bool {
    if b == [] then mid else b[|b| - 1] != NEWLINE
  }

  lemma PrefixedSnoc(prefix: Bytes, mid: bool, init: Bytes, c: bv8)
    ensures Prefixed(prefix, mid, init + [c])
            == Prefixed(prefix, mid, init) + (if MidAfter(mid, init) then [] else prefix) + [c]
  {
    ButLast(init, c);
  }

  /** Two writes are one write of the two put together. */
  lemma {:induction false} PrefixedConcat(prefix: Bytes, mid: bool, a: Bytes, b: Bytes)
    ensures Prefixed(prefix, mid, a + b) == Prefixed(prefix, mid, a) + Prefixed(prefix, MidAfter(mid, a), b)
    ensures MidAfter(mid, a + b) == MidAfter(MidAfter(mid, a), b)
    decreases |b|
  {
    if b == [] {
      EmptyEnd(a, b);
      EmptyEnd(Prefixed(prefix, mid, a), []);
    } else {
      var init, c := b[..|b| - 1], b[|b| - 1];
      LastOf(b);
      SnocConcat(a, init, c);
      PrefixedConcat(prefix, mid, a, init);
      PrefixedSnoc(prefix, mid, a + init, c);
      PrefixedSnoc(prefix, MidAfter(mid, a), init, c);
      var x, y, z := Prefixed(prefix, mid, a), Prefixed(prefix, MidAfter(mid, a), init),
                     (if MidAfter(mid, a + init) then [] else prefix) + [c];
      Associates(x, y, z);
    }
  }

  lemma Associates<T>(x: seq<T>, y: seq<T>, z: seq<T>)
    ensures (x + y) + z == x + (y + z)
  {
  }

  lemma PrefixEachSnoc(prefix: Bytes, lines: seq<Bytes>, line: Bytes)
    ensures PrefixEach(prefix, lines + [line]) == PrefixEach(prefix, lines) + prefix + line
  {
    ButLast(lines, line);
  }

  /** The output for a whole text is the prefix put before each of its lines. */
  lemma {:induction false} PrefixedIsPerLine(prefix: Bytes, b: Bytes)
    ensures Prefixed(prefix, false, b) == PrefixEach(prefix, Lines(b))
  {
    if b != [] {
      var init, c := b[..|b| - 1], b[|b| - 1];
      PrefixedIsPerLine(prefix, init);
      if init == [] || EndsLine(init) {
        PrefixEachSnoc(prefix, Lines(init), [c]);
      } else {
        var before := Lines(init);
        var short, last := before[..|before| - 1], before[|before| - 1];
        LastOf(before);
        PrefixEachSnoc(prefix, short, last);
        PrefixEachSnoc(prefix, short, last + [c]);
        var x := PrefixEach(prefix, short) + prefix;
        assert x + (last + [c]) == (x + last) + [c];
      }
    }
  }

  /** Taking the prefix off the head of every line again. `mid` as above, `skip` bytes of a prefix to go. */
  function Stripped(prefix: Bytes, mid: bool, b: Bytes): Bytes
    decreases |b|
  {
    if !mid && prefix <= b && prefix != [] then Stripped(prefix, true, b[|prefix|..])
    else if b == [] then []
    else [b[0]] + Stripped(prefix, b[0] != NEWLINE, b[1..])
  }

  /** The same output, built from the front. */
  lemma {:induction false} PrefixedFront(prefix: Bytes, mid: bool, b: Bytes)
    requires b != []
    ensures Prefixed(prefix, mid, b)
            == (if mid then [] else prefix) + [b[0]] + Prefixed(prefix, b[0] != NEWLINE, b[1..])
  {
    assert b == [b[0]] + b[1..];
    PrefixedConcat(prefix, mid, [b[0]], b[1..]);
    assert [b[0]][..0] == [];
  }

  lemma StripOne(prefix: Bytes, mid: bool, c: bv8, rest: Bytes)
    requires prefix != []
    ensures Stripped(prefix, mid, (if mid then [] else prefix) + [c] + rest) == [c] + Stripped(prefix, c != NEWLINE, rest)
  {
    var tail := [c] + rest;
    assert tail[0] == c && tail[1..] == rest;
    if mid {
      assert [] + [c] + rest == tail;
    } else {
      var whole := prefix + [c] + rest;
      assert whole == prefix + tail && whole[|prefix|..] == tail && prefix <= whole;
    }
  }

  /** Stripping the prefixes gives the input back. */
  lemma {:induction false} StripRestores(prefix: Bytes, mid: bool, b: Bytes)
    requires prefix != []
    ensures Stripped(prefix, mid, Prefixed(prefix, mid, b)) == b
    decreases |b|
  {
    if b == [] {
      assert !(prefix <= []);
    } else {
      PrefixedFront(prefix, mid, b);
      StripRestores(prefix, b[0] != NEWLINE, b[1..]);
      StripOne(prefix, mid, b[0], Prefixed(prefix, b[0] != NEWLINE, b[1..]));
      assert b == [b[0]] + b[1..];
    }
  }

  /** Where writes end up: the calls made, in order. */
  class Sink {
    var writes: seq<Bytes>

    constructor ()
      ensures writes == []
    {
      writes := [];
    }

    method Write(b: Bytes) returns (ok: bool)
      modifies this
      ensures writes == old(writes) + [b]
    {
      writes := writes + [b];
      ok := *;
    }
  }

  /** The downstream writes for a list of writes. */
  function Outputs(prefix: Bytes, received: seq<Bytes>): seq<Bytes> {
    if received == [] then []
    else
      var init := received[..|received| - 1];
      Outputs(prefix, init) + [Prefixed(prefix, MidAfter(false, Flatten(init)), received[|received| - 1])]
  }

  lemma OutputsSnoc(prefix: Bytes, received: seq<Bytes>, b: Bytes)
    ensures Outputs(prefix, received + [b])
            == Outputs(prefix, received) + [Prefixed(prefix, MidAfter(false, Flatten(received)), b)]
  {
    ButLast(received, b);
  }

  /** However a text was cut into writes, what goes downstream is the same. */
  lemma {:induction false} OutputsJoin(prefix: Bytes, received: seq<Bytes>)
    ensures Flatten(Outputs(prefix, received)) == Prefixed(prefix, false, Flatten(received))
  {
    if received != [] {
      var init, b := received[..|received| - 1], received[|received| - 1];
      LastOf(received);
      OutputsJoin(prefix, init);
      OutputsSnoc(prefix, init, b);
      FlattenSnoc(Outputs(prefix, init), Prefixed(prefix, MidAfter(false, Flatten(init)), b));
      FlattenSnoc(init, b);
      PrefixedConcat(prefix, false, Flatten(init), b);
    }
  }

  class LinePrefixWriter {
    const w: Sink
    const prefix: Bytes
    var mid: bool
    ghost var received: seq<Bytes>

    ghost predicate Valid()
      reads this, w
    {
      w.writes == Outputs(prefix, received) && mid == MidAfter(false, Flatten(received))
    }

    constructor (w: Sink, prefix: Bytes)
      requires w.writes == []
      ensures Valid() && this.w == w && this.prefix == prefix && received == []
    {
      this.w, this.prefix, mid, received := w, prefix, false, [];
    }

    /** Each write reaches the sink in one call. */
    method Write(b: Bytes) returns (n: nat, ok: bool)
      requires Valid()
      modifies this, w
      ensures Valid() && received == old(received) + [b]
      ensures n == if ok then |b| else 0
    {
      var out: Bytes := [];
      for i := 0 to |b|
        invariant out == Prefixed(prefix, old(mid), b[..i]) && mid == MidAfter(old(mid), b[..i])
        invariant w.writes == old(w.writes) && received == old(received)
      {
        Prefix(b, i + 1);
        PrefixedSnoc(prefix, old(mid), b[..i], b[i]);
        if !mid {
          out := out + prefix;
          mid := true;
        } else {
          EmptyEnd(out, []);
        }
        out := out + [b[i]];
        if b[i] == NEWLINE { mid := false; }
      }
      Whole(b);
      OutputsSnoc(prefix, received, b);
      FlattenSnoc(received, b);
      PrefixedConcat(prefix, false, Flatten(received), b);
      received := received + [b];
      ok := w.Write(out);
      n := if ok then |b| else 0;
    }
  }

  // The line writer.

  /** How much of `b` is whole lines. */
  function WholeLines(b: Bytes): (n: nat)
    ensures n <= |b| && (n > 0 ==> b[n - 1] == NEWLINE)
    ensures forall i :: n <= i < |b| ==> b[i] != NEWLINE
  {
    if b == [] then 0
    else if b[|b| - 1] == NEWLINE then |b|
    else WholeLines(b[..|b| - 1])
  }

  /** Passes writes on in whole lines; the writer it feeds is a prefixing one. */
  class LineWriter {
    const w: LinePrefixWriter
    var buf: Bytes
    ghost var fed: Bytes

    ghost predicate Valid()
      reads this, w, w.w
    {
      && w.Valid()
      && Flatten(w.received) + buf == fed
      && (forall r :: r in w.received ==> EndsLine(r))
      && (forall i :: 0 <= i < |buf| ==> buf[i] != NEWLINE)
    }

    constructor (w: LinePrefixWriter)
      requires w.Valid() && w.received == []
      ensures Valid() && this.w == w && fed == []
    {
      this.w, buf, fed := w, [], [];
    }

    method Write(b: Bytes) returns (n: nat)
      requires Valid()
      modifies this, w, w.w
      ensures Valid() && fed == old(fed) + b && n == |b|
    {
      assert Flatten(w.received) + (buf + b) == fed + b;
      buf, fed := buf + b, fed + b;
      n := |b|;
      var i := WholeLines(buf);
      if i == 0 { return; }
      FlattenSnoc(w.received, buf[..i]);
      assert Flatten(w.received) + buf[..i] + buf[i..] == fed by { assert buf == buf[..i] + buf[i..]; }
      var k, ok := w.Write(buf[..i]);
      buf := buf[i..];
    }

    /** The unterminated rest goes out once the command has exited. */
    method Flush()
      requires Valid()
      modifies this, w, w.w
      ensures w.Valid() && buf == [] && fed == old(fed) && Flatten(w.received) == fed
      ensures forall i :: 0 <= i < |w.received| - 1 ==> EndsLine(w.received[i])
      ensures (forall r :: r in w.received ==> EndsLine(r)) <==> fed == [] || EndsLine(fed)
    {
      if |buf| > 0 {
        FlattenSnoc(w.received, buf);
        ghost var before := w.received;
        var k, ok := w.Write(buf);
        assert forall i :: 0 <= i < |before| ==> w.received[i] == before[i] && before[i] in before;
        assert w.received[|before|] == buf && buf in w.received && fed[|fed| - 1] == buf[|buf| - 1];
        buf := [];
      } else {
        EndsOfAll(w.received);
        EmptyEnd(Flatten(w.received), buf);
      }
    }
  }

  lemma {:induction false} EndsOfAll(received: seq<Bytes>)
    requires forall r :: r in received ==> EndsLine(r)
    ensures Flatten(received) == [] || EndsLine(Flatten(received))
  {
    if received != [] { assert received[|received| - 1] in received; }
  }

  // The two together.

  /** Fed whole lines, every downstream write is whole lines with the prefix before each. */
  lemma {:induction false} EachWriteIsWholeLines(prefix: Bytes, received: seq<Bytes>, i: nat)
    requires i < |received| && forall j :: 0 <= j < |received| - 1 ==> EndsLine(received[j])
    ensures |Outputs(prefix, received)| == |received|
    ensures Outputs(prefix, received)[i] == PrefixEach(prefix, Lines(received[i]))
    decreases |received|
  {
    var init, b := received[..|received| - 1], received[|received| - 1];
    forall r | r in init ensures EndsLine(r) {
      var j :| 0 <= j < |init| && init[j] == r;
      assert received[j] == r;
    }
    EndsOfAll(init);
    OutputsLength(prefix, received);
    if i == |received| - 1 {
      PrefixedIsPerLine(prefix, b);
      OutputsLength(prefix, init);
    } else {
      EachWriteIsWholeLines(prefix, init, i);
    }
  }

  lemma {:induction false} OutputsLength(prefix: Bytes, received: seq<Bytes>)
    ensures |Outputs(prefix, received)| == |received|
  {
    if received != [] { OutputsLength(prefix, received[..|received| - 1]); }
  }

  /** The writers do not depend on chunking: however a text comes in, once it is flushed the terminal has
      each of its lines with the prefix, in writes of whole lines, and stripping the prefixes gives the
      text back. */
  lemma ChunkingDoesNotMatter(prefix: Bytes, received: seq<Bytes>, text: Bytes)
    requires Flatten(received) == text && prefix != []
    requires forall i :: 0 <= i < |received| - 1 ==> EndsLine(received[i])
    ensures Flatten(Outputs(prefix, received)) == PrefixEach(prefix, Lines(text))
    ensures |Outputs(prefix, received)| == |received|
    ensures forall i :: 0 <= i < |received| ==> Outputs(prefix, received)[i] == PrefixEach(prefix, Lines(received[i]))
    ensures Stripped(prefix, false, Flatten(Outputs(prefix, received))) == text
  {
    OutputsJoin(prefix, received);
    PrefixedIsPerLine(prefix, text);
    StripRestores(prefix, false, text);
    OutputsLength(prefix, received);
    forall i | 0 <= i < |received| ensures Outputs(prefix, received)[i] == PrefixEach(prefix, Lines(received[i])) {
      EachWriteIsWholeLines(prefix, received, i);
    }
  }

  /** A text fed in any chunks and flushed. */
  method Stream(prefix: Bytes, chunks: seq<Bytes>) returns (writes: seq<Bytes>)
    requires prefix != []
    ensures Flatten(writes) == PrefixEach(prefix, Lines(Flatten(chunks)))
    ensures Stripped(prefix, false, Flatten(writes)) == Flatten(chunks)
    ensures forall i :: 0 <= i < |writes| - 1 ==> EndsLine(writes[i])
  {
    var sink := new Sink();
    var prefixer := new LinePrefixWriter(sink, prefix);
    var lines := new LineWriter(prefixer);
    for i := 0 to |chunks|
      invariant lines.Valid() && lines.w == prefixer && prefixer.w == sink && prefixer.prefix == prefix
      invariant lines.fed == Flatten(chunks[..i])
      invariant fresh(sink) && fresh(prefixer) && fresh(lines)
    {
      Prefix(chunks, i + 1);
      FlattenSnoc(chunks[..i], chunks[i]);
      var n := lines.Write(chunks[i]);
    }
    Whole(chunks);
    lines.Flush();
    ghost var received := prefixer.received;
    ChunkingDoesNotMatter(prefix, received, Flatten(chunks));
    writes := sink.writes;
    forall i | 0 <= i < |writes| - 1 ensures EndsLine(writes[i]) {
      LinesAreLines(received[i]);
      PrefixEachEnds(prefix, Lines(received[i]));
    }
  }

  lemma PrefixEachEnds(prefix: Bytes, lines: seq<Bytes>)
    requires lines != [] && EndsLine(lines[|lines| - 1])
    ensures EndsLine(PrefixEach(prefix, lines))
  {
  }
}
