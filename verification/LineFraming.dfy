/** Splitting a followed file into records (scripts/export_registered_sessions.py). A read hands over
    any number of bytes; the JSON decoder is a parameter. */
module LineFraming {
  import opened Prelude

  const MAX_RECORD_BYTES := 262144
  const NEWLINE: Byte := 10

  datatype Lines = Lines(complete: seq<Bytes>, tail: Bytes)

  /** The pieces with `text` put before the first of them. */
  function Glue(text: Bytes, r: Lines): Lines
  {
    if r.complete == [] then Lines([], text + r.tail)
    else Lines([text + r.complete[0]] + r.complete[1..], r.tail)
  }

  /** `_complete_lines`. */
  function Split(data: Bytes): Lines
    decreases |data|
  {
    if data == [] then Lines([], [])
    else if data[0] == NEWLINE then Lines([[]] + Split(data[1..]).complete, Split(data[1..]).tail)
    else Glue([data[0]], Split(data[1..]))
  }

  function Joined(lines: seq<Bytes>): Bytes
    decreases |lines|
  {
    if lines == [] then [] else lines[0] + [NEWLINE] + Joined(lines[1..])
  }

  predicate Plain(text: Bytes) { NEWLINE !in text }

  predicate AllPlain(lines: seq<Bytes>) { forall i | 0 <= i < |lines| :: Plain(lines[i]) }

  lemma GlueNothing(r: Lines)
    ensures Glue([], r) == r
  {
    if r.complete != [] {
      assert [] + r.complete[0] == r.complete[0];
      assert r.complete == [r.complete[0]] + r.complete[1..];
    } else {
      assert [] + r.tail == r.tail;
    }
  }

  lemma GlueTwice(a: Bytes, b: Bytes, r: Lines)
    ensures Glue(a, Glue(b, r)) == Glue(a + b, r)
  {
    if r.complete != [] {
      assert a + (b + r.complete[0]) == a + b + r.complete[0];
    } else {
      assert a + (b + r.tail) == a + b + r.tail;
    }
  }

  lemma {:induction false} SplitPlain(line: Bytes, rest: Bytes)
    requires Plain(line)
    ensures Split(line + rest) == Glue(line, Split(rest))
    decreases |line|
  {
    if line == [] {
      assert line + rest == rest;
      GlueNothing(Split(rest));
    } else {
      SplitPlain(line[1..], rest);
      assert (line + rest)[1..] == line[1..] + rest;
      GlueTwice([line[0]], line[1..], Split(rest));
      assert [line[0]] + line[1..] == line;
      hide Glue;
    }
  }

  lemma SplitLine(line: Bytes, rest: Bytes)
    requires Plain(line)
    ensures Split(line + [NEWLINE] + rest) == Lines([line] + Split(rest).complete, Split(rest).tail)
  {
    SplitPlain(line, [NEWLINE] + rest);
    assert line + [NEWLINE] + rest == line + ([NEWLINE] + rest);
    assert ([NEWLINE] + rest)[1..] == rest;
    assert line + [] == line;
  }

  lemma SplitTail(tail: Bytes)
    requires Plain(tail)
    ensures Split(tail) == Lines([], tail)
  {
    SplitPlain(tail, []);
    assert tail + [] == tail;
  }

  lemma GlueJoins(text: Bytes, r: Lines)
    requires Plain(text) && AllPlain(r.complete) && Plain(r.tail)
    ensures var g := Glue(text, r);
            Joined(g.complete) + g.tail == text + (Joined(r.complete) + r.tail) && AllPlain(g.complete) && Plain(g.tail)
  {
  }

  lemma {:induction false} SplitJoins(data: Bytes)
    ensures var r := Split(data); Joined(r.complete) + r.tail == data && Plain(r.tail) && AllPlain(r.complete)
    decreases |data|
  {
    if data != [] {
      SplitJoins(data[1..]);
      var q := Split(data[1..]);
      assert data == [data[0]] + data[1..];
      if data[0] != NEWLINE {
        GlueJoins([data[0]], q);
        hide Glue, Joined;
      } else {
        BreakJoins(q);
        hide Joined;
      }
    }
  }

  lemma BreakJoins(q: Lines)
    requires AllPlain(q.complete)
    ensures Joined([[]] + q.complete) + q.tail == [NEWLINE] + (Joined(q.complete) + q.tail)
    ensures AllPlain([[]] + q.complete)
  {
    assert ([[]] + q.complete)[1..] == q.complete;
  }

  /** `lines` and `tail` are the split of `data` if and only if they are free of newlines and make it
      up again. */
  lemma {:induction false} SplitIff(data: Bytes, lines: seq<Bytes>, tail: Bytes)
    ensures Split(data) == Lines(lines, tail) <==> Joined(lines) + tail == data && Plain(tail) && AllPlain(lines)
    decreases |lines|
  {
    hide Split;
    SplitJoins(data);
    if Joined(lines) + tail == data && Plain(tail) && AllPlain(lines) {
      if lines == [] {
        assert data == tail;
        SplitTail(tail);
      } else {
        var rest := Joined(lines[1..]) + tail;
        SplitIff(rest, lines[1..], tail);
        assert data == lines[0] + [NEWLINE] + rest;
        SplitLine(lines[0], rest);
        assert [lines[0]] + lines[1..] == lines;
      }
    }
  }

  /** Splitting in two reads, the tail of the first put before the second. */
  lemma SplitInTwo(a: Bytes, b: Bytes)
    ensures var r := Split(a);
            var s := Split(r.tail + b);
            Split(a + b) == Lines(r.complete + s.complete, s.tail)
  {
    hide Split, Joined;
    SplitJoins(a);
    var r := Split(a);
    SplitJoins(r.tail + b);
    var s := Split(r.tail + b);
    JoinedAppend(r.complete, s.complete);
    assert Joined(r.complete) + (r.tail + b) == a + b;
    assert Joined(r.complete + s.complete) + s.tail == a + b;
    SplitIff(a + b, r.complete + s.complete, s.tail);
  }

  lemma {:induction false} JoinedAppend(x: seq<Bytes>, y: seq<Bytes>)
    ensures Joined(x + y) == Joined(x) + Joined(y)
    decreases |x|
  {
    if x == [] {
      assert x + y == y;
    } else {
      JoinedAppend(x[1..], y);
      assert (x + y)[1..] == x[1..] + y;
    }
  }

  // ---------------------------------------------------------------- framing

  predicate Fits(line: Bytes) { |line| <= MAX_RECORD_BYTES }

  predicate AllFit(lines: seq<Bytes>) { forall i | 0 <= i < |lines| :: Fits(lines[i]) }

  function Concat(chunks: seq<Bytes>): Bytes
    decreases |chunks|
  {
    if chunks == [] then [] else chunks[0] + Concat(chunks[1..])
  }

  /** The records and the tail after the reads `chunks`, or None where a tail or a record is too long. */
  function Framed(pending: Bytes, chunks: seq<Bytes>): Option<Lines>
    decreases |chunks|
  {
    if chunks == [] then Some(Lines([], pending))
    else
      var r := Split(pending + chunks[0]);
      if !Fits(r.tail) || !AllFit(r.complete) then None
      else
        var more := Framed(r.tail, chunks[1..]);
        if more.None? then None else Some(Lines(r.complete + more.value.complete, more.value.tail))
  }

  function Whole(data: Bytes): Option<Lines>
  {
    var r := Split(data);
    if Fits(r.tail) && AllFit(r.complete) then Some(r) else None
  }

  /** A tail that is already too long stays so, or ends up in a record that is. */
  lemma LongTailStays(tail: Bytes, b: Bytes)
    requires !Fits(tail) && Plain(tail)
    ensures Whole(tail + b).None?
  {
    SplitPlain(tail, b);
    var r := Split(tail + b);
    if r.complete != [] {
      assert !Fits(r.complete[0]);
    }
  }

  lemma {:induction false} FramedFrom(pending: Bytes, chunks: seq<Bytes>)
    requires Fits(pending) && Plain(pending)
    ensures Framed(pending, chunks) == Whole(pending + Concat(chunks))
    decreases |chunks|
  {
    if chunks == [] {
      assert pending + Concat(chunks) == pending;
      SplitTail(pending);
    } else {
      var a, b := pending + chunks[0], Concat(chunks[1..]);
      assert pending + Concat(chunks) == a + b;
      SplitJoins(a);
      SplitInTwo(a, b);
      var r := Split(a);
      if !Fits(r.tail) {
        LongTailStays(r.tail, b);
        LongSuffix(r.complete, Split(r.tail + b));
      } else if !AllFit(r.complete) {
        LongPrefix(r.complete, Split(r.tail + b).complete);
      } else {
        hide Split, Concat;
        FramedFrom(r.tail, chunks[1..]);
        FitBoth(r.complete, Split(r.tail + b).complete);
      }
    }
  }

  lemma FitBoth(x: seq<Bytes>, y: seq<Bytes>)
    ensures AllFit(x + y) <==> AllFit(x) && AllFit(y)
  {
    if AllFit(x + y) {
      assert forall i | 0 <= i < |x| :: x[i] == (x + y)[i];
      assert forall i | 0 <= i < |y| :: y[i] == (x + y)[|x| + i];
    }
  }

  lemma LongPrefix(x: seq<Bytes>, y: seq<Bytes>)
    requires !AllFit(x)
    ensures !AllFit(x + y)
  {
    FitBoth(x, y);
  }

  lemma LongSuffix(x: seq<Bytes>, r: Lines)
    requires !Fits(r.tail) || !AllFit(r.complete)
    ensures !Fits(r.tail) || !AllFit(x + r.complete)
  {
    FitBoth(x, r.complete);
  }

  /** However the stream is cut into reads, the records framed and the tail kept are those of the
      whole stream, and it is refused for length under one cutting if and only if under every other. */
  lemma FramingIsChunkFree(chunks: seq<Bytes>)
    ensures Framed([], chunks) == Whole(Concat(chunks))
  {
    FramedFrom([], chunks);
    assert [] + Concat(chunks) == Concat(chunks);
  }

  // ---------------------------------------------------------------- documents

  /** `text` is the line written for the document. */
  datatype Doc = Doc(email: string, text: Bytes)

  type Parser = Bytes -> Option<Doc>

  function Decoded(raw: Bytes, parse: Parser): Option<Doc>
  {
    if !Fits(raw) then None else parse(raw)
  }

  /** The documents of the non-empty lines; None if one is not accepted. */
  function Docs(lines: seq<Bytes>, parse: Parser): Option<seq<Doc>>
    decreases |lines|
  {
    if lines == [] then Some([])
    else
      var rest := Docs(lines[1..], parse);
      if lines[0] == [] then rest
      else
        var doc := Decoded(lines[0], parse);
        if doc.None? || rest.None? then None else Some([doc.value] + rest.value)
  }

  /** `load_snapshots`: of several documents with one email only the first is kept. */
  function Firsts(docs: seq<Doc>, seen: set<string>): seq<Doc>
    decreases |docs|
  {
    if docs == [] then []
    else if docs[0].email in seen then Firsts(docs[1..], seen)
    else [docs[0]] + Firsts(docs[1..], seen + {docs[0].email})
  }

  predicate AllNarrow(docs: seq<Doc>) { forall i | 0 <= i < |docs| :: Fits(docs[i].text) }

  /** What the follow loop has written, or None where it has refused. */
  datatype Followed = Followed(written: seq<Doc>, pending: Bytes)

  function FirstRead(chunk: Bytes, parse: Parser): Option<Followed>
  {
    var r := Split(chunk);
    if !Fits(r.tail) then None
    else
      var docs := Docs(r.complete, parse);
      if docs.None? || !AllNarrow(Firsts(docs.value, {})) then None
      else Some(Followed(Firsts(docs.value, {}), r.tail))
  }

  function LaterReads(f: Followed, chunks: seq<Bytes>, parse: Parser): Option<Followed>
    decreases |chunks|
  {
    if chunks == [] then Some(f)
    else
      var r := Split(f.pending + chunks[0]);
      if !Fits(r.tail) then None
      else
        var docs := Docs(r.complete, parse);
        if docs.None? || !AllNarrow(docs.value) then None
        else LaterReads(Followed(f.written + docs.value, r.tail), chunks[1..], parse)
  }

  function Follow(chunks: seq<Bytes>, parse: Parser): Option<Followed>
    requires chunks != []
  {
    var f := FirstRead(chunks[0], parse);
    if f.None? then None else LaterReads(f.value, chunks[1..], parse)
  }

  lemma {:induction false} DocsAppend(x: seq<Bytes>, y: seq<Bytes>, parse: Parser)
    ensures var a, b := Docs(x, parse), Docs(y, parse);
            Docs(x + y, parse) == if a.None? || b.None? then None else Some(a.value + b.value)
    decreases |x|
  {
    hide Decoded;
    if x == [] {
      assert x + y == y;
      if Docs(y, parse).Some? {
        assert [] + Docs(y, parse).value == Docs(y, parse).value;
      }
    } else {
      DocsAppend(x[1..], y, parse);
      assert (x + y)[1..] == x[1..] + y && (x + y)[0] == x[0];
      var a, b, d := Docs(x[1..], parse), Docs(y, parse), Decoded(x[0], parse);
      if a.Some? && b.Some? && d.Some? {
        assert [d.value] + (a.value + b.value) == [d.value] + a.value + b.value;
      }
    }
  }

  lemma {:induction false} LongLineRefused(lines: seq<Bytes>, parse: Parser)
    requires !AllFit(lines)
    ensures Docs(lines, parse).None?
    decreases |lines|
  {
    if Fits(lines[0]) {
      var i :| 0 <= i < |lines| && !Fits(lines[i]);
      assert !Fits(lines[1..][i - 1]);
      LongLineRefused(lines[1..], parse);
    }
  }

  lemma NarrowBoth(x: seq<Doc>, y: seq<Doc>)
    ensures AllNarrow(x + y) <==> AllNarrow(x) && AllNarrow(y)
  {
    if AllNarrow(x + y) {
      assert forall i | 0 <= i < |x| :: x[i] == (x + y)[i];
      assert forall i | 0 <= i < |y| :: y[i] == (x + y)[|x| + i];
    }
  }

  /** What the loop comes to on everything after the first read, however cut. */
  function Rest(f: Followed, data: Bytes, parse: Parser): Option<Followed>
  {
    var r := Split(f.pending + data);
    var docs := Docs(r.complete, parse);
    if !Fits(r.tail) || docs.None? || !AllNarrow(docs.value) then None
    else Some(Followed(f.written + docs.value, r.tail))
  }

  lemma RestInTwo(f: Followed, a: Bytes, b: Bytes, parse: Parser)
    ensures Rest(f, a, parse).Some? ==> Rest(f, a + b, parse) == Rest(Rest(f, a, parse).value, b, parse)
    ensures Rest(f, a, parse).None? && Plain(f.pending) ==> Rest(f, a + b, parse).None?
  {
    hide Split, Docs, AllNarrow, Fits, AllFit, Plain, Joined;
    SplitInTwo(f.pending + a, b);
    assert f.pending + a + b == f.pending + (a + b);
    var r := Split(f.pending + a);
    var s := Split(r.tail + b);
    SplitJoins(f.pending + a);
    DocsAppend(r.complete, s.complete, parse);
    if Docs(r.complete, parse).Some? && Docs(s.complete, parse).Some? {
      var x, y := Docs(r.complete, parse).value, Docs(s.complete, parse).value;
      NarrowBoth(x, y);
      assert f.written + x + y == f.written + (x + y);
    }
    if !Fits(r.tail) {
      LongTailStays(r.tail, b);
      if !AllFit(s.complete) {
        LongLineRefused(s.complete, parse);
      }
    }
  }

  lemma {:induction false} LaterIs(f: Followed, chunks: seq<Bytes>, parse: Parser)
    requires Fits(f.pending) && Plain(f.pending)
    ensures LaterReads(f, chunks, parse) == Rest(f, Concat(chunks), parse)
    decreases |chunks|
  {
    if chunks == [] {
      SplitTail(f.pending);
      assert f.pending + [] == f.pending && f.written + [] == f.written;
    } else {
      var a, b := chunks[0], Concat(chunks[1..]);
      RestInTwo(f, a, b, parse);
      SplitJoins(f.pending + a);
      hide Split, Docs, AllNarrow;
      if Rest(f, a, parse).Some? {
        LaterIs(Rest(f, a, parse).value, chunks[1..], parse);
      }
    }
  }

  /** Once the first read is given, the cutting of the rest changes neither what is written, nor what
      is kept back, nor whether the stream is refused. */
  lemma LaterCutsDoNotMatter(first: Bytes, c: seq<Bytes>, d: seq<Bytes>, parse: Parser)
    requires Concat(c) == Concat(d)
    ensures Follow([first] + c, parse) == Follow([first] + d, parse)
  {
    SplitJoins(first);
    assert ([first] + c)[1..] == c && ([first] + d)[1..] == d;
    hide LaterReads, Concat, Split, Docs;
    if FirstRead(first, parse).Some? {
      LaterIs(FirstRead(first, parse).value, c, parse);
      LaterIs(FirstRead(first, parse).value, d, parse);
    }
  }

  /** The stream would be accepted but for the width of what is written. */
  predicate Acceptable(data: Bytes, parse: Parser)
  {
    Fits(Split(data).tail) && Docs(Split(data).complete, parse).Some?
  }

  function AllDocs(data: Bytes, parse: Parser): seq<Doc>
    requires Acceptable(data, parse)
  {
    Docs(Split(data).complete, parse).value
  }

  /** What a cutting of the stream writes if nothing is too wide: the documents of the first read
      without repeated emails, then all the others. */
  function Written(first: Bytes, data: Bytes, parse: Parser): seq<Doc>
    requires first <= data && Acceptable(data, parse)
  {
    HeadOfStream(first, data, parse);
    var n := |Docs(Split(first).complete, parse).value|;
    Firsts(AllDocs(data, parse)[..n], {}) + AllDocs(data, parse)[n..]
  }

  lemma HeadOfStream(first: Bytes, data: Bytes, parse: Parser)
    requires first <= data && Acceptable(data, parse)
    ensures var head := Docs(Split(first).complete, parse);
            && head.Some? && |head.value| <= |AllDocs(data, parse)|
            && head.value == AllDocs(data, parse)[..|head.value|]
  {
    var b := data[|first|..];
    assert data == first + b;
    SplitInTwo(first, b);
    DocsAppend(Split(first).complete, Split(Split(first).tail + b).complete, parse);
  }

  /** Every run of the loop, exactly: refused if and only if the stream is not acceptable or something
      written is too wide; otherwise what is written, and the tail of the whole stream kept. */
  lemma FollowIs(first: Bytes, rest: seq<Bytes>, parse: Parser)
    ensures var data := first + Concat(rest);
            Follow([first] + rest, parse) ==
            if Acceptable(data, parse) && AllNarrow(Written(first, data, parse))
            then Some(Followed(Written(first, data, parse), Split(data).tail)) else None
  {
    var b := Concat(rest);
    var data := first + b;
    assert ([first] + rest)[1..] == rest;
    assert data[|first|..] == b && first <= data;
    SplitJoins(first);
    SplitInTwo(first, b);
    var r := Split(first);
    var s := Split(r.tail + b);
    DocsAppend(r.complete, s.complete, parse);
    var x, y := Docs(r.complete, parse), Docs(s.complete, parse);
    hide Split, Docs, Firsts, AllNarrow, Concat, Fits;
    if x.Some? && y.Some? {
      NarrowBoth(Firsts(x.value, {}), y.value);
      assert (x.value + y.value)[..|x.value|] == x.value && (x.value + y.value)[|x.value|..] == y.value;
    }
    if FirstRead(first, parse).Some? {
      LaterIs(FirstRead(first, parse).value, rest, parse);
    } else if !Fits(r.tail) {
      LongTailStays(r.tail, b);
      if !AllFit(s.complete) {
        LongLineRefused(s.complete, parse);
      }
    }
  }

  // ---------------------------------------------------------------- where the first read ends

  lemma {:induction false} FirstsFrom(docs: seq<Doc>, seen: set<string>)
    ensures forall d | d in Firsts(docs, seen) :: d in docs
    ensures forall i | 0 <= i < |docs| && docs[i].email !in seen ::
              exists d :: d in Firsts(docs, seen) && d.email == docs[i].email
    decreases |docs|
  {
    if docs != [] {
      FirstsFrom(docs[1..], seen);
      FirstsFrom(docs[1..], seen + {docs[0].email});
    }
  }

  lemma {:induction false} FirstsOfPrefix(x: seq<Doc>, y: seq<Doc>, seen: set<string>)
    ensures forall d | d in Firsts(x + y, seen) :: d in Firsts(x, seen) || d in y
    decreases |x|
  {
    if x == [] {
      assert x + y == y;
      FirstsFrom(y, seen);
    } else {
      assert (x + y)[1..] == x[1..] + y;
      FirstsOfPrefix(x[1..], y, seen);
      FirstsOfPrefix(x[1..], y, seen + {x[0].email});
    }
  }

  /** One line more: an empty one is passed over; one that is too long or not accepted spoils everything; any
      other adds its document at the end. */
  lemma DocsOneMore(lines: seq<Bytes>, last: Bytes, parse: Parser)
    ensures var (docs, all) := (Docs(lines, parse), Docs(lines + [last], parse));
            && (docs.None? ==> all.None?)
            && (last == [] ==> all == docs)
            && (last != [] && (|last| > 262144 || parse(last).None?) ==> all.None?)
            && (last != [] && |last| <= 262144 && parse(last).Some? && docs.Some? ==>
                  all == Some(docs.value + [parse(last).value]))
  {
    DocsAppend(lines, [last], parse);
    assert [last][1..] == [] && Docs([], parse) == Some([]);
    if last != [] && |last| <= 262144 && parse(last).Some? {
      assert Decoded(last, parse) == parse(last) && [parse(last).value] + [] == [parse(last).value];
      assert Docs([last], parse) == Some([parse(last).value] + []);
    }
    if Docs(lines, parse).Some? {
      assert Docs(lines, parse).value + [] == Docs(lines, parse).value;
    }
  }

  /** One document more: it is kept, at the end, if and only if no other before it has its email. */
  lemma {:induction false} FirstsOneMore(docs: seq<Doc>, last: Doc, seen: set<string>)
    ensures Firsts(docs + [last], seen) == Firsts(docs, seen)
              + if last.email in seen || exists d :: d in docs && d.email == last.email then [] else [last]
    decreases |docs|
  {
    if docs == [] {
      assert docs + [last] == [last] && [last][1..] == [];
    } else {
      assert (docs + [last])[1..] == docs[1..] + [last];
      FirstsOneMore(docs[1..], last, seen);
      FirstsOneMore(docs[1..], last, seen + {docs[0].email});
      assert docs[0] in docs && forall d :: d in docs <==> d == docs[0] || d in docs[1..];
    }
  }

  predicate NoRepeats(docs: seq<Doc>) { forall i, j | 0 <= i < j < |docs| :: docs[i].email != docs[j].email }

  lemma {:induction false} FirstsAllIff(docs: seq<Doc>, seen: set<string>)
    ensures |Firsts(docs, seen)| <= |docs|
    ensures Firsts(docs, seen) == docs <==> NoRepeats(docs) && forall i | 0 <= i < |docs| :: docs[i].email !in seen
    decreases |docs|
  {
    if docs != [] {
      FirstsAllIff(docs[1..], seen);
      var more := seen + {docs[0].email};
      FirstsAllIff(docs[1..], more);
      assert docs == [docs[0]] + docs[1..];
      if docs[0].email !in seen {
        assert Firsts(docs, seen)[1..] == Firsts(docs[1..], more);
      }
    }
  }

  lemma CutInOne(data: Bytes, parse: Parser)
    ensures Concat([data]) == data && data + Concat([]) == data
    ensures Acceptable(data, parse) ==> Written(data, data, parse) == Firsts(AllDocs(data, parse), {})
  {
    assert data + [] == data;
    if Acceptable(data, parse) {
      var docs := AllDocs(data, parse);
      assert docs[..|docs|] == docs && docs[|docs|..] == [];
      hide Firsts;
      assert Firsts(docs, {}) + [] == Firsts(docs, {});
    }
  }

  lemma CutAtStart(data: Bytes, parse: Parser)
    ensures Concat([[], data]) == data && [] + Concat([data]) == data
    ensures Acceptable(data, parse) ==> Written([], data, parse) == AllDocs(data, parse)
  {
    CutInOne(data, parse);
    assert [] + data == data && [[], data][1..] == [data];
    if Acceptable(data, parse) {
      var docs := AllDocs(data, parse);
      assert docs[..0] == [] && docs[0..] == docs && Firsts([], {}) == [];
    }
  }

  lemma WrittenBetween(first: Bytes, data: Bytes, parse: Parser)
    requires first <= data && Acceptable(data, parse)
    ensures forall d | d in Firsts(AllDocs(data, parse), {}) :: d in Written(first, data, parse)
    ensures forall d | d in Written(first, data, parse) :: d in AllDocs(data, parse)
    ensures NoRepeats(AllDocs(data, parse)) ==> Written(first, data, parse) == AllDocs(data, parse)
  {
    var docs := AllDocs(data, parse);
    HeadOfStream(first, data, parse);
    var n := |Docs(Split(first).complete, parse).value|;
    assert docs[..n] + docs[n..] == docs;
    FirstsOfPrefix(docs[..n], docs[n..], {});
    FirstsFrom(docs[..n], {});
    FirstsAllIff(docs[..n], {});
  }

  lemma NarrowMembers(x: seq<Doc>, y: seq<Doc>)
    requires forall d | d in x :: d in y
    ensures AllNarrow(y) ==> AllNarrow(x)
  {
    if AllNarrow(y) {
      forall i | 0 <= i < |x|
        ensures Fits(x[i].text)
      {
        assert x[i] in y;
      }
    }
  }

  predicate CutsOf(c: seq<Bytes>, data: Bytes) { c != [] && Concat(c) == data }

  lemma CutIs(c: seq<Bytes>, data: Bytes, parse: Parser)
    requires CutsOf(c, data)
    ensures c[0] <= data
    ensures Follow(c, parse) ==
            if Acceptable(data, parse) && AllNarrow(Written(c[0], data, parse))
            then Some(Followed(Written(c[0], data, parse), Split(data).tail)) else None
  {
    assert c == [c[0]] + c[1..];
    FollowIs(c[0], c[1..], parse);
  }

  /** Refusal depends on where the reads end if and only if, in an otherwise acceptable stream, some
      document is too wide to be written but the first one of every email fits. */
  lemma RefusalIsChunkFreeIff(data: Bytes, parse: Parser)
    ensures (forall c, d | CutsOf(c, data) && CutsOf(d, data) :: Follow(c, parse).None? <==> Follow(d, parse).None?)
            <==> !(&& Acceptable(data, parse) && !AllNarrow(AllDocs(data, parse))
                   && AllNarrow(Firsts(AllDocs(data, parse), {})))
  {
    hide Follow, Split, Docs, Firsts, AllNarrow, Concat, Written, Acceptable, AllDocs;
    CutInOne(data, parse);
    CutAtStart(data, parse);
    var one, two := [data], [[], data];
    assert CutsOf(one, data) && CutsOf(two, data);
    CutIs(one, data, parse);
    CutIs(two, data, parse);
    forall c | CutsOf(c, data)
      ensures !Acceptable(data, parse) ==> Follow(c, parse).None?
      ensures Acceptable(data, parse) && AllNarrow(AllDocs(data, parse)) ==> Follow(c, parse).Some?
      ensures Acceptable(data, parse) && !AllNarrow(Firsts(AllDocs(data, parse), {})) ==> Follow(c, parse).None?
    {
      CutIs(c, data, parse);
      if Acceptable(data, parse) {
        WrittenBetween(c[0], data, parse);
        NarrowMembers(Written(c[0], data, parse), AllDocs(data, parse));
        NarrowMembers(Firsts(AllDocs(data, parse), {}), Written(c[0], data, parse));
      }
    }
  }

  /** Of a stream accepted under every cutting, what is written is the same under every cutting if and
      only if no email occurs twice. */
  lemma OutputIsChunkFreeIff(data: Bytes, parse: Parser)
    requires Acceptable(data, parse) && AllNarrow(AllDocs(data, parse))
    ensures (forall c, d | CutsOf(c, data) && CutsOf(d, data) :: Follow(c, parse) == Follow(d, parse))
            <==> NoRepeats(AllDocs(data, parse))
  {
    hide Follow, Split, Docs, AllNarrow, Concat, Written, Acceptable, AllDocs;
    CutInOne(data, parse);
    CutAtStart(data, parse);
    var one, two := [data], [[], data];
    assert CutsOf(one, data) && CutsOf(two, data);
    CutIs(one, data, parse);
    CutIs(two, data, parse);
    FirstsAllIff(AllDocs(data, parse), {});
    hide Firsts, NoRepeats;
    forall c | CutsOf(c, data)
      ensures c[0] <= data && Follow(c, parse) == Some(Followed(Written(c[0], data, parse), Split(data).tail))
      ensures NoRepeats(AllDocs(data, parse)) ==> Written(c[0], data, parse) == AllDocs(data, parse)
    {
      CutIs(c, data, parse);
      WrittenBetween(c[0], data, parse);
      NarrowMembers(Written(c[0], data, parse), AllDocs(data, parse));
    }
  }

  // ---------------------------------------------------------------- the loops

  lemma DocsStep(lines: seq<Bytes>, i: nat, parse: Parser)
    requires i < |lines|
    ensures var rest, doc := Docs(lines[i + 1..], parse), Decoded(lines[i], parse);
            Docs(lines[i..], parse) ==
            if lines[i] == [] then rest
            else if doc.None? || rest.None? then None else Some([doc.value] + rest.value)
  {
    assert lines[i..][0] == lines[i] && lines[i..][1..] == lines[i + 1..];
  }

  lemma DocsEnd(lines: seq<Bytes>, parse: Parser)
    ensures Docs(lines[|lines|..], parse) == Some([]) && lines[0..] == lines
  {
  }

  /** `load_snapshots` on the non-empty lines. */
  method LoadSnapshots(lines: seq<Bytes>, parse: Parser) returns (snapshots: Option<seq<Doc>>)
    ensures snapshots == if Docs(lines, parse).None? then None else Some(Firsts(Docs(lines, parse).value, {}))
  {
    hide Docs, Decoded;
    var kept: seq<Doc> := [];
    var seen := {};
    DocsEnd(lines, parse);
    for i := 0 to |lines|
      invariant Docs(lines, parse).None? <==> Docs(lines[i..], parse).None?
      invariant Docs(lines, parse).Some? ==>
                  Firsts(Docs(lines, parse).value, {}) == kept + Firsts(Docs(lines[i..], parse).value, seen)
    {
      DocsStep(lines, i, parse);
      if lines[i] == [] {
        continue;
      }
      var doc := Decoded(lines[i], parse);
      if doc.None? {
        return None;
      }
      if doc.value.email in seen {
        continue;
      }
      kept, seen := kept + [doc.value], seen + {doc.value.email};
    }
    assert kept + Firsts([], seen) == kept;
    return Some(kept);
  }

  method WriteAll(docs: seq<Doc>) returns (ok: bool)
    ensures ok <==> AllNarrow(docs)
  {
    for i := 0 to |docs|
      invariant AllNarrow(docs[..i])
    {
      if !Fits(docs[i].text) {
        return false;
      }
      assert docs[..i + 1] == docs[..i] + [docs[i]];
    }
    assert docs[..|docs|] == docs;
    return true;
  }

  /** Decodes and writes line by line. */
  method WriteLines(lines: seq<Bytes>, parse: Parser) returns (written: Option<seq<Doc>>)
    ensures var docs := Docs(lines, parse);
            written == if docs.None? || !AllNarrow(docs.value) then None else docs
  {
    hide Docs, Decoded;
    var out: seq<Doc> := [];
    DocsEnd(lines, parse);
    for i := 0 to |lines|
      invariant AllNarrow(out)
      invariant Docs(lines, parse).None? <==> Docs(lines[i..], parse).None?
      invariant Docs(lines, parse).Some? ==> Docs(lines, parse).value == out + Docs(lines[i..], parse).value
    {
      DocsStep(lines, i, parse);
      if lines[i] == [] {
        continue;
      }
      var doc := Decoded(lines[i], parse);
      if doc.None? {
        return None;
      }
      if !Fits(doc.value.text) {
        if Docs(lines, parse).Some? {
          assert Docs(lines, parse).value[|out|] == doc.value;
        }
        return None;
      }
      out := out + [doc.value];
    }
    assert out + [] == out;
    return Some(out);
  }

  /** `export_and_follow` on the reads given, the first of them the snapshot. */
  method ExportAndFollow(chunks: seq<Bytes>, parse: Parser) returns (r: Option<Followed>)
    requires chunks != []
    ensures r == Follow(chunks, parse)
  {
    hide Split, Docs, Firsts, AllNarrow;
    var lines := Split(chunks[0]);
    if !Fits(lines.tail) {
      return None;
    }
    var snapshots := LoadSnapshots(lines.complete, parse);
    if snapshots.None? {
      return None;
    }
    var ok := WriteAll(snapshots.value);
    if !ok {
      return None;
    }
    var written, pending := snapshots.value, lines.tail;
    for i := 1 to |chunks|
      invariant LaterReads(Followed(written, pending), chunks[i..], parse) == Follow(chunks, parse)
    {
      assert chunks[i..][0] == chunks[i] && chunks[i..][1..] == chunks[i + 1..];
      lines := Split(pending + chunks[i]);
      pending := lines.tail;
      if !Fits(pending) {
        return None;
      }
      var more := WriteLines(lines.complete, parse);
      if more.None? {
        return None;
      }
      written := written + more.value;
    }
    return Some(Followed(written, pending));
  }
}
