/** The loop that divides a document into sections at headings and source anchors and hands each section to
    the splitter. */
module ChunkSections {
  import opened Chunking
  import opened Text

  datatype Anchor = Anchor(ordinal: string, messageId: string, turnId: string)

  /** A line, recognised in this order: a generated-content marker, a source anchor, a heading, body text. */
  datatype Line = Marker | AnchorLine(anchor: Anchor) | Heading(level: nat, text: string) | Body(text: string)

  datatype Chunk = Chunk(index: nat, headings: seq<string>, title: string, content: string, anchors: seq<Anchor>)

  datatype State = State(headings: seq<string>, lines: seq<string>, pending: seq<Anchor>, title: string,
                         chunks: seq<Chunk>, counter: nat)

  /** `anchorsIn` finds the anchors inside a section's text. */
  datatype Settings = Settings(cap: nat, anchorsIn: string -> seq<Anchor>)

  const Start := State([], [], [], "", [], 0)

  // ---- one section ----

  function SectionTitle(st: State): string
  {
    if st.title != "" then st.title
    else if st.headings != [] then st.headings[|st.headings| - 1]
    else "General"
  }

  function AddChunk(st: State, anchors: seq<Anchor>, part: string): State
  {
    if Strip(part) == "" then st
    else
      st.(chunks := st.chunks + [Chunk(st.counter, st.headings, SectionTitle(st), Strip(part), anchors)],
          counter := st.counter + 1)
  }

  function AddChunks(st: State, anchors: seq<Anchor>, parts: seq<string>): State
  {
    if parts == [] then st
    else AddChunk(AddChunks(st, anchors, parts[..|parts| - 1]), anchors, parts[|parts| - 1])
  }

  /** Pending anchors wait for the next section that has text. */
  function Flush(s: Settings, st: State): State
    requires s.cap >= 1
  {
    var content := Strip(Join(st.lines, "\n"));
    if content == "" then st.(lines := [])
    else
      AddChunks(st.(lines := [], pending := []), st.pending + s.anchorsIn(content), SplitOversize(content, s.cap))
  }

  // ---- the document ----

  function PushHeading(headings: seq<string>, level: nat, text: string): seq<string>
    requires level >= 1
  {
    (if level <= |headings| then headings[..level - 1] else headings) + [text]
  }

  predicate LineOk(line: Line)
  {
    line.Heading? ==> 1 <= line.level <= 6
  }

  function Take(s: Settings, st: State, line: Line): State
    requires s.cap >= 1 && LineOk(line)
  {
    match line
    case Marker => st
    case AnchorLine(anchor) =>
      var flushed := Flush(s, st);
      flushed.(pending := flushed.pending + [anchor])
    case Heading(level, text) =>
      var flushed := Flush(s, st);
      var title := Strip(text);
      flushed.(title := if level == 1 && flushed.title == "" then title else flushed.title,
               headings := PushHeading(flushed.headings, level, title))
    case Body(text) => st.(lines := st.lines + [text])
  }

  ghost predicate LinesOk(lines: seq<Line>)
  {
    forall i :: 0 <= i < |lines| ==> LineOk(lines[i])
  }

  function TakeAll(s: Settings, lines: seq<Line>): State
    requires s.cap >= 1 && LinesOk(lines)
  {
    if lines == [] then Start else Take(s, TakeAll(s, lines[..|lines| - 1]), lines[|lines| - 1])
  }

  function Chunks(s: Settings, lines: seq<Line>): seq<Chunk>
    requires s.cap >= 1 && LinesOk(lines)
  {
    Flush(s, TakeAll(s, lines)).chunks
  }

  method FlushSection(s: Settings, st: State) returns (after: State)
    requires s.cap >= 1
    ensures after == Flush(s, st)
  {
    var content := Strip(Join(st.lines, "\n"));
    after := st.(lines := []);
    if content == "" {
      return;
    }
    var anchors := st.pending + s.anchorsIn(content);
    after := after.(pending := []);
    ghost var before := after;
    var parts := SplitSection(content, s.cap);
    for k := 0 to |parts|
      invariant after == AddChunks(before, anchors, parts[..k])
    {
      assert parts[..k + 1][..k] == parts[..k];
      after := AddChunk(after, anchors, parts[k]);
    }
    assert parts[..|parts|] == parts;
  }

  method ChunkText(s: Settings, lines: seq<Line>) returns (chunks: seq<Chunk>)
    requires s.cap >= 1 && LinesOk(lines)
    ensures chunks == Chunks(s, lines)
  {
    var st := Start;
    for k := 0 to |lines|
      invariant st == TakeAll(s, lines[..k])
    {
      assert lines[..k + 1][..k] == lines[..k];
      match lines[k] {
        case Marker =>
        case AnchorLine(anchor) =>
          st := FlushSection(s, st);
          st := st.(pending := st.pending + [anchor]);
        case Heading(level, text) =>
          st := FlushSection(s, st);
          if level == 1 && st.title == "" {
            st := st.(title := Strip(text));
          }
          st := st.(headings := PushHeading(st.headings, level, Strip(text)));
        case Body(text) =>
          st := st.(lines := st.lines + [text]);
      }
    }
    assert lines[..|lines|] == lines;
    st := FlushSection(s, st);
    chunks := st.chunks;
  }

  // ---- no text is lost ----

  function Contents(chunks: seq<Chunk>): string
  {
    if chunks == [] then "" else Contents(chunks[..|chunks| - 1]) + chunks[|chunks| - 1].content
  }

  /** The body lines of a document, one after the other. */
  function BodyText(lines: seq<Line>): string
  {
    if lines == [] then ""
    else
      var last := lines[|lines| - 1];
      BodyText(lines[..|lines| - 1]) + if last.Body? then last.text else ""
  }

  /** Chunks are numbered in order, and none is blank or longer than the limit. */
  ghost predicate WellFormed(st: State, cap: nat)
  {
    st.counter == |st.chunks|
    && forall i :: 0 <= i < |st.chunks| ==>
         st.chunks[i].index == i && 0 < |st.chunks[i].content| <= cap
  }

  lemma {:induction false} JoinInk(parts: seq<string>)
    ensures Ink(Join(parts, "\n")) == Ink(Concat(parts))
  {
    if parts == [] {
    } else if |parts| == 1 {
      assert Concat(parts) == parts[0];
    } else {
      var front, last := parts[..|parts| - 1], parts[|parts| - 1];
      JoinInk(front);
      InkAdd(Join(front, "\n") + "\n", last);
      InkAdd(Join(front, "\n"), "\n");
      assert Ink("\n") == "";
      InkAdd(Concat(front), last);
    }
  }

  lemma AddChunkKeeps(st: State, anchors: seq<Anchor>, part: string, cap: nat)
    requires WellFormed(st, cap) && |part| <= cap
    ensures WellFormed(AddChunk(st, anchors, part), cap)
    ensures Ink(Contents(AddChunk(st, anchors, part).chunks)) == Ink(Contents(st.chunks)) + Ink(part)
    ensures AddChunk(st, anchors, part).lines == st.lines
  {
    hide Ink, Strip, Contents, SectionTitle;
    InkStrip(part);
    InkNothing();
    if Strip(part) != "" {
      PushChunk(st.chunks, Chunk(st.counter, st.headings, SectionTitle(st), Strip(part), anchors));
    }
  }

  lemma InkNothing()
    ensures Ink("") == ""
  {
  }

  lemma PushChunk(chunks: seq<Chunk>, c: Chunk)
    ensures Ink(Contents(chunks + [c])) == Ink(Contents(chunks)) + Ink(c.content)
  {
    assert (chunks + [c])[..|chunks|] == chunks;
    InkAdd(Contents(chunks), c.content);
  }

  lemma {:induction false} AddChunksKeeps(st: State, anchors: seq<Anchor>, parts: seq<string>, cap: nat)
    requires WellFormed(st, cap) && AtMost(parts, cap)
    ensures WellFormed(AddChunks(st, anchors, parts), cap)
    ensures Ink(Contents(AddChunks(st, anchors, parts).chunks)) == Ink(Contents(st.chunks)) + Ink(Concat(parts))
    ensures AddChunks(st, anchors, parts).lines == st.lines
  {
    hide Ink, Contents, AddChunk, WellFormed;
    if parts != [] {
      var front, last := parts[..|parts| - 1], parts[|parts| - 1];
      AddChunksKeeps(st, anchors, front, cap);
      AddChunkKeeps(AddChunks(st, anchors, front), anchors, last, cap);
      InkAdd(Concat(front), last);
    } else {
      InkNothing();
    }
  }

  lemma FlushKeeps(s: Settings, st: State)
    requires s.cap >= 1 && WellFormed(st, s.cap)
    ensures WellFormed(Flush(s, st), s.cap)
    ensures Ink(Contents(Flush(s, st).chunks)) == Ink(Contents(st.chunks)) + Ink(Concat(st.lines))
    ensures Flush(s, st).lines == []
  {
    var joined := Join(st.lines, "\n");
    JoinInk(st.lines);
    InkStrip(joined);
    if Strip(joined) != "" {
      SplitterMeetsLimit(Strip(joined), s.cap);
      AddChunksKeeps(st.(lines := [], pending := []), st.pending + s.anchorsIn(Strip(joined)),
                     SplitOversize(Strip(joined), s.cap), s.cap);
    }
  }

  /** What has been chunked and what is still collected carry all body text so far. */
  ghost predicate Carries(s: Settings, st: State, lines: seq<Line>)
  {
    WellFormed(st, s.cap) && Ink(Contents(st.chunks)) + Ink(Concat(st.lines)) == Ink(BodyText(lines))
  }

  lemma BodyTextPush(lines: seq<Line>, line: Line)
    ensures BodyText(lines + [line]) == if line.Body? then BodyText(lines) + line.text else BodyText(lines)
  {
    assert (lines + [line])[..|lines|] == lines;
  }

  lemma ConcatPush(parts: seq<string>, part: string)
    ensures Concat(parts + [part]) == Concat(parts) + part
  {
    assert (parts + [part])[..|parts|] == parts;
  }

  lemma BodyCarries(s: Settings, st: State, lines: seq<Line>, text: string)
    requires Carries(s, st, lines)
    ensures Carries(s, st.(lines := st.lines + [text]), lines + [Body(text)])
  {
    hide Ink, Contents, Concat, BodyText;
    BodyTextPush(lines, Body(text));
    ConcatPush(st.lines, text);
    InkAdd(Concat(st.lines), text);
    InkAdd(BodyText(lines), text);
    Regroup(Ink(Contents(st.chunks)), Ink(Concat(st.lines)), Ink(text));
  }

  /** A section that ends; `after` differs from the flushed state in its headings and pending anchors only. */
  lemma FlushCarries(s: Settings, st: State, lines: seq<Line>, line: Line, after: State)
    requires s.cap >= 1 && Carries(s, st, lines) && !line.Body?
    requires after.chunks == Flush(s, st).chunks && after.counter == Flush(s, st).counter && after.lines == []
    ensures Carries(s, after, lines + [line])
  {
    hide Ink, Contents, BodyText, Flush;
    BodyTextPush(lines, line);
    FlushKeeps(s, st);
    InkNothing();
    assert Ink(Contents(after.chunks)) + "" == Ink(Contents(after.chunks));
  }

  lemma TakeCarries(s: Settings, st: State, lines: seq<Line>, line: Line)
    requires s.cap >= 1 && LineOk(line) && Carries(s, st, lines)
    ensures Carries(s, Take(s, st, line), lines + [line])
  {
    hide Carries, BodyText;
    match line
    case Marker => MarkerCarries(s, st, lines);
    case Body(text) => BodyCarries(s, st, lines, text);
    case _ =>
      FlushKeepsLines(s, st);
      FlushCarries(s, st, lines, line, Take(s, st, line));
  }

  lemma MarkerCarries(s: Settings, st: State, lines: seq<Line>)
    requires Carries(s, st, lines)
    ensures Carries(s, st, lines + [Marker])
  {
    BodyTextPush(lines, Marker);
  }

  lemma FlushKeepsLines(s: Settings, st: State)
    requires s.cap >= 1
    ensures Flush(s, st).lines == []
  {
    var content := Strip(Join(st.lines, "\n"));
    if content != "" {
      AddChunksLines(st.(lines := [], pending := []), st.pending + s.anchorsIn(content), SplitOversize(content, s.cap));
    }
  }

  lemma {:induction false} AddChunksLines(st: State, anchors: seq<Anchor>, parts: seq<string>)
    ensures AddChunks(st, anchors, parts).lines == st.lines
  {
    if parts != [] {
      AddChunksLines(st, anchors, parts[..|parts| - 1]);
    }
  }

  lemma {:induction false} TakeAllCarries(s: Settings, lines: seq<Line>)
    requires s.cap >= 1 && LinesOk(lines)
    ensures Carries(s, TakeAll(s, lines), lines)
  {
    if lines != [] {
      var front := lines[..|lines| - 1];
      TakeAllCarries(s, front);
      TakeCarries(s, TakeAll(s, front), front, lines[|lines| - 1]);
      assert lines == front + [lines[|lines| - 1]];
    }
  }

  /** Over a whole document: chunks are numbered from 0 without gaps, none is blank or exceeds the limit, and
      together they carry exactly the non-whitespace characters of the body lines, in order. */
  lemma NoBodyTextLost(s: Settings, lines: seq<Line>)
    requires s.cap >= 1 && LinesOk(lines)
    ensures var chunks := Chunks(s, lines);
            && Ink(Contents(chunks)) == Ink(BodyText(lines))
            && forall i :: 0 <= i < |chunks| ==> chunks[i].index == i && 0 < |chunks[i].content| <= s.cap
  {
    TakeAllCarries(s, lines);
    FlushKeeps(s, TakeAll(s, lines));
  }

  // ---- no anchor is lost ----

  /** Each anchor waits for text or belongs to a chunk. */
  ghost predicate Anchored(st: State, a: Anchor)
  {
    a in st.pending || exists i :: 0 <= i < |st.chunks| && a in st.chunks[i].anchors
  }

  lemma {:induction false} AddChunksAnchors(st: State, anchors: seq<Anchor>, parts: seq<string>)
    ensures var after := AddChunks(st, anchors, parts);
            st.chunks <= after.chunks
            && forall i :: |st.chunks| <= i < |after.chunks| ==> after.chunks[i].anchors == anchors
    ensures AddChunks(st, anchors, parts).pending == st.pending
  {
    if parts != [] {
      AddChunksAnchors(st, anchors, parts[..|parts| - 1]);
    }
  }

  /** A section with text yields at least one chunk, and all its chunks carry the same anchors, the pending
      ones first. */
  lemma FlushAnchors(s: Settings, st: State)
    requires s.cap >= 1 && WellFormed(st, s.cap)
    ensures var after := Flush(s, st);
            var content := Strip(Join(st.lines, "\n"));
            st.chunks <= after.chunks
            && (content != "" ==> |after.chunks| > |st.chunks| && after.pending == [])
            && (content == "" ==> after.pending == st.pending)
            && forall i :: |st.chunks| <= i < |after.chunks| ==>
                 after.chunks[i].anchors == st.pending + s.anchorsIn(content)
  {
    var content := Strip(Join(st.lines, "\n"));
    if content != "" {
      var start, anchors := st.(lines := [], pending := []), st.pending + s.anchorsIn(content);
      var parts := SplitOversize(content, s.cap);
      AddChunksAnchors(start, anchors, parts);
      SplitterMeetsLimit(content, s.cap);
      AddChunksKeeps(start, anchors, parts, s.cap);
      StripHasInk(Join(st.lines, "\n"));
      if |AddChunks(start, anchors, parts).chunks| == |st.chunks| {
        assert AddChunks(start, anchors, parts).chunks == st.chunks;
        InkLonger(Ink(Contents(st.chunks)), Ink(content));
      }
    }
  }

  lemma InkLonger(a: string, b: string)
    requires a == a + b
    ensures b == ""
  {
    assert |a + b| == |a| + |b|;
  }

  /** What stripping leaves ends in a character that is not whitespace. */
  lemma StripHasInk(s: string)
    ensures Strip(s) != "" ==> Ink(Strip(s)) != ""
  {
    TrimRightEnds(TrimLeft(s));
  }

  lemma {:induction false} TrimRightEnds(s: string)
    ensures TrimRight(s) != "" ==> !IsSpace(TrimRight(s)[|TrimRight(s)| - 1])
  {
    if s != "" && IsSpace(s[|s| - 1]) {
      TrimRightEnds(s[..|s| - 1]);
    }
  }

  lemma FlushKeepsAnchored(s: Settings, st: State, a: Anchor)
    requires s.cap >= 1 && WellFormed(st, s.cap) && Anchored(st, a)
    ensures Anchored(Flush(s, st), a)
  {
    FlushAnchors(s, st);
    var after := Flush(s, st);
    if a in st.pending {
      if Strip(Join(st.lines, "\n")) != "" {
        assert a in after.chunks[|st.chunks|].anchors;
      }
    } else {
      var i :| 0 <= i < |st.chunks| && a in st.chunks[i].anchors;
      assert after.chunks[i] == st.chunks[i];
    }
  }

  lemma TakeKeepsAnchored(s: Settings, st: State, line: Line, a: Anchor)
    requires s.cap >= 1 && LineOk(line) && WellFormed(st, s.cap)
    requires Anchored(st, a) || (line.AnchorLine? && line.anchor == a)
    ensures Anchored(Take(s, st, line), a)
  {
    if Anchored(st, a) {
      FlushKeepsAnchored(s, st, a);
    }
  }

  /** Every anchor line's anchor is attached to a chunk, or still waits for text at the end. */
  lemma {:induction false} NoAnchorLost(s: Settings, lines: seq<Line>, k: nat)
    requires s.cap >= 1 && LinesOk(lines) && k < |lines| && lines[k].AnchorLine?
    ensures Anchored(TakeAll(s, lines), lines[k].anchor)
    ensures Anchored(Flush(s, TakeAll(s, lines)), lines[k].anchor)
    decreases |lines|
  {
    var n := |lines| - 1;
    TakeAllCarries(s, lines[..n]);
    if k < n {
      NoAnchorLost(s, lines[..n], k);
    }
    TakeKeepsAnchored(s, TakeAll(s, lines[..n]), lines[n], lines[k].anchor);
    TakeAllCarries(s, lines);
    FlushKeepsAnchored(s, TakeAll(s, lines), lines[k].anchor);
  }

  // ---- heading paths ----

  /** A second heading of the same level replaces the first one in the path exactly when the first one's
      level was not skipped to; behind a skipped level it is filed under its predecessor. */
  lemma SiblingReplaces(headings: seq<string>, level: nat, first: string, second: string)
    requires level >= 1
    ensures var one := PushHeading(headings, level, first);
            var two := PushHeading(one, level, second);
            && |one| == (if level <= |headings| then level else |headings| + 1)
            && (level <= |headings| + 1 <==> two == one[..|one| - 1] + [second])
            && (level > |headings| + 1 ==> two == one + [second])
  {
    var one := PushHeading(headings, level, first);
    var two := PushHeading(one, level, second);
    if level > |headings| + 1 {
      assert |two| == |one| + 1;
    }
  }
}
