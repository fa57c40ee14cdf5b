/** Parsing the new part of an append-only Codex rollout file, line by line. */
module Rollout {
  import opened Seqs
  import opened Wrappers

  type Bytes = seq<bv8>

  const NEWLINE: bv8 := 10

  /** Bytes of the file head scanned for the session identity on a later pass. */
  const HEAD_SCAN_BYTES := 65536

  /** What one record contributes to an event, apart from the thread it belongs to. */
  datatype Draft = Draft(eventType: string, messageId: string, turnId: string, timestamp: string, content: string)

  /** One parsed line: a session record, with or without a payload object, a response item with the
      event it yields (if any), or anything else. */
  datatype Record =
    | Skipped
    | MetaWithoutPayload
    | Meta(threadId: string, timestamp: string)
    | Item(draft: Option<Draft>, isTool: bool)

  datatype Captured = Captured(threadId: string, draft: Draft)

  /** How a line reads, the identity in the file name, and the tool-event switch. */
  datatype Source = Source(record: Bytes -> Record, filenameId: string, toolEvents: bool)

  // ---- lines ----

  /** Length of the part up to and including the last newline. */
  function Consumed(b: Bytes): (n: nat)
    ensures n <= |b|
  {
    if b == [] then 0 else if b[|b| - 1] == NEWLINE then |b| else Consumed(b[..|b| - 1])
  }

  /** The newline-terminated lines, without their terminators. */
  function Lines(b: Bytes): seq<Bytes>
  {
    if b == [] then []
    else if b[|b| - 1] != NEWLINE then Lines(b[..|b| - 1])
    else
      var body := b[..|b| - 1];
      Lines(body) + [body[Consumed(body)..]]
  }

  // ---- session identity ----

  /** The thread of the first session record, or nothing when that record has no payload. */
  function ScanMeta(src: Source, lines: seq<Bytes>): Option<string>
  {
    if lines == [] then None
    else
      match src.record(lines[0])
      case Meta(threadId, _) => Some(threadId)
      case MetaWithoutPayload => None
      case _ => ScanMeta(src, lines[1..])
  }

  function HeadThread(src: Source, head: Bytes): string
  {
    match ScanMeta(src, Lines(head))
    case Some(threadId) => threadId
    case None => ""
  }

  // ---- one line at a time ----

  function NextThread(src: Source, r: Record, thread: string): string
  {
    match r
    case Meta(threadId, _) => if threadId != "" then threadId else thread
    case Item(_, _) => if thread == "" then src.filenameId else thread
    case _ => thread
  }

  function SessionStart(timestamp: string): Draft
  {
    Draft("session_start", "", "", timestamp, "")
  }

  /** The event a line yields; a session record yields one only when the pass began at offset 0. */
  function LineEvents(src: Source, r: Record, thread: string, fromStart: bool): seq<Captured>
  {
    match r
    case Meta(_, timestamp) =>
      if fromStart then [Captured(NextThread(src, r, thread), SessionStart(timestamp))] else []
    case Item(draft, isTool) =>
      if draft.None? || (isTool && !src.toolEvents) then []
      else [Captured(NextThread(src, r, thread), draft.value)]
    case _ => []
  }

  function ThreadAfter(src: Source, lines: seq<Bytes>, thread: string): string
  {
    if lines == [] then thread
    else NextThread(src, src.record(lines[|lines| - 1]), ThreadAfter(src, lines[..|lines| - 1], thread))
  }

  function Events(src: Source, lines: seq<Bytes>, thread: string, fromStart: bool): seq<Captured>
  {
    if lines == [] then []
    else
      var front := lines[..|lines| - 1];
      Events(src, front, thread, fromStart)
      + LineEvents(src, src.record(lines[|lines| - 1]), ThreadAfter(src, front, thread), fromStart)
  }

  // ---- one pass ----

  function Start(file: Bytes, offset: int): nat
  {
    if offset < 0 then 0 else if offset > |file| then |file| else offset
  }

  function Head(file: Bytes, start: nat): Bytes
    requires start <= |file|
  {
    file[..if start <= HEAD_SCAN_BYTES then start else HEAD_SCAN_BYTES]
  }

  function PassEvents(src: Source, file: Bytes, offset: int): seq<Captured>
  {
    var start := Start(file, offset);
    Events(src, Lines(file[start..]), HeadThread(src, Head(file, start)), start == 0)
  }

  function PassOffset(file: Bytes, offset: int): nat
  {
    Start(file, offset) + Consumed(file[Start(file, offset)..])
  }

  /** Everything one pass over the whole file yields. */
  function ColdEvents(src: Source, file: Bytes): seq<Captured>
  {
    PassEvents(src, file, 0)
  }

  method LastNewline(buffer: Bytes) returns (consumed: nat)
    ensures consumed == Consumed(buffer)
  {
    consumed := |buffer|;
    assert buffer[..consumed] == buffer;
    while consumed > 0 && buffer[consumed - 1] != NEWLINE
      invariant consumed <= |buffer| && Consumed(buffer[..consumed]) == Consumed(buffer)
    {
      assert buffer[..consumed][..consumed - 1] == buffer[..consumed - 1];
      consumed := consumed - 1;
    }
  }

  lemma OneMoreLine(src: Source, lines: seq<Bytes>, i: nat, thread: string, f: bool)
    requires i < |lines|
    ensures var r, before := src.record(lines[i]), ThreadAfter(src, lines[..i], thread);
            && Events(src, lines[..i + 1], thread, f) == Events(src, lines[..i], thread, f) + LineEvents(src, r, before, f)
            && ThreadAfter(src, lines[..i + 1], thread) == NextThread(src, r, before)
  {
    assert lines[..i + 1][..i] == lines[..i];
  }

  method ParseRollout(src: Source, file: Bytes, offset: int) returns (events: seq<Captured>, newOffset: nat)
    ensures events == PassEvents(src, file, offset)
    ensures newOffset == PassOffset(file, offset)
  {
    var start := if offset < 0 then 0 else if offset > |file| then |file| else offset;
    var head := file[..if start <= HEAD_SCAN_BYTES then start else HEAD_SCAN_BYTES];
    var thread := HeadThread(src, head);
    ghost var initial := thread;
    var buffer := file[start..];
    var consumed := LastNewline(buffer);
    var lines := Lines(buffer[..consumed]);
    LinesOfConsumed(buffer);
    events := [];
    for i := 0 to |lines|
      invariant events == Events(src, lines[..i], initial, start == 0)
      invariant thread == ThreadAfter(src, lines[..i], initial)
    {
      OneMoreLine(src, lines, i, initial, start == 0);
      var record := src.record(lines[i]);
      events := events + LineEvents(src, record, thread, start == 0);
      thread := NextThread(src, record, thread);
    }
    assert lines[..|lines|] == lines;
    newOffset := start + consumed;
  }

  // ---- how lines split ----

  lemma {:induction false} LinesOfConsumed(b: Bytes)
    ensures Lines(b[..Consumed(b)]) == Lines(b)
    ensures Consumed(b) > 0 ==> b[Consumed(b) - 1] == NEWLINE
  {
    if b == [] {
    } else if b[|b| - 1] == NEWLINE {
      assert b[..|b|] == b;
    } else {
      LinesOfConsumed(b[..|b| - 1]);
      assert b[..|b| - 1][..Consumed(b)] == b[..Consumed(b)];
    }
  }

  /** An offset at the start of the file or just behind a newline. */
  predicate Boundary(file: Bytes, o: nat)
  {
    o <= |file| && (o == 0 || file[o - 1] == NEWLINE)
  }

  lemma {:induction false} ConsumedSplit(a: Bytes, b: Bytes)
    requires Boundary(a, |a|)
    ensures Consumed(a + b) == |a| + Consumed(b)
  {
    if b == [] {
      assert a + b == a;
    } else if b[|b| - 1] != NEWLINE {
      ConsumedSplit(a, b[..|b| - 1]);
      assert (a + b)[..|a + b| - 1] == a + b[..|b| - 1];
    }
  }

  /** Behind a boundary the lines of the rest follow the lines before. */
  lemma {:induction false} LinesSplit(a: Bytes, b: Bytes)
    requires Boundary(a, |a|)
    ensures Lines(a + b) == Lines(a) + Lines(b)
  {
    if b == [] {
      assert a + b == a;
    } else {
      var body := b[..|b| - 1];
      SplitLast(a, b);
      LinesSplit(a, body);
      if b[|b| - 1] == NEWLINE {
        ConsumedSplit(a, body);
        LineEnded(a + b, a + body);
        LineEnded(b, body);
        DropJoined(a, body, Consumed(body));
        JoinRight(Lines(a), Lines(body), [body[Consumed(body)..]]);
      }
    }
  }

  /** A line feed ends the line that was open. */
  lemma LineEnded(whole: Bytes, body: Bytes)
    requires whole == body + [NEWLINE]
    ensures Lines(whole) == Lines(body) + [body[Consumed(body)..]]
  {
    assert whole[..|whole| - 1] == body;
  }

  lemma {:induction false} LinesPrefix(a: Bytes, b: Bytes)
    ensures Lines(a) <= Lines(a + b)
  {
    if b == [] {
      assert a + b == a;
    } else {
      assert (a + b)[..|a + b| - 1] == a + b[..|b| - 1];
      LinesPrefix(a, b[..|b| - 1]);
    }
  }

  lemma NonemptyHasLine(a: Bytes)
    requires a != [] && a[|a| - 1] == NEWLINE
    ensures Lines(a) != []
  {
  }

  lemma {:induction false} FirstLineLength(b: Bytes)
    requires Lines(b) != []
    ensures |Lines(b)[0]| + 1 <= |b|
    ensures b[..|Lines(b)[0]|] == Lines(b)[0] && b[|Lines(b)[0]|] == NEWLINE
  {
    if b[|b| - 1] != NEWLINE {
      FirstLineLength(b[..|b| - 1]);
      assert b[..|b| - 1][..|Lines(b)[0]|] == b[..|Lines(b)[0]|];
    } else {
      var body := b[..|b| - 1];
      if Lines(body) != [] {
        FirstLineLength(body);
        assert Lines(b)[0] == Lines(body)[0];
        assert body[..|Lines(b)[0]|] == b[..|Lines(b)[0]|];
      } else {
        NoLineNoNewline(body);
        assert Lines(b)[0] == body;
      }
    }
  }

  lemma {:induction false} NoLineNoNewline(b: Bytes)
    requires Lines(b) == []
    ensures Consumed(b) == 0
  {
    if b != [] {
      NoLineNoNewline(b[..|b| - 1]);
    }
  }

  /** A head has the first line exactly when it reaches past that line's terminator. */
  lemma {:induction false} HeadHasFirstLine(file: Bytes, n: nat)
    requires n <= |file| && Lines(file) != []
    ensures Lines(file[..n]) != [] <==> |Lines(file)[0]| + 1 <= n
    ensures Lines(file[..n]) != [] ==> Lines(file[..n])[0] == Lines(file)[0]
  {
    assert file == file[..n] + file[n..];
    LinesPrefix(file[..n], file[n..]);
    FirstLineLength(file);
    if Lines(file[..n]) != [] {
      FirstLineLength(file[..n]);
      assert Lines(file[..n])[0] == Lines(file)[0];
    }
    if |Lines(file)[0]| + 1 <= n {
      LongHeadHasLine(file[..n], |Lines(file)[0]|);
    }
  }

  lemma LongHeadHasLine(head: Bytes, k: nat)
    requires k < |head| && head[k] == NEWLINE
    ensures Lines(head) != []
  {
    var upTo := head[..k + 1];
    NonemptyHasLine(upTo);
    LinesPrefix(upTo, head[k + 1..]);
    assert head == upTo + head[k + 1..];
  }

  // ---- later passes agree with one cold pass ----

  /** The thread the first line names, if any. */
  function AnchorThread(src: Source, line: Bytes): string
  {
    match src.record(line)
    case Meta(threadId, _) => threadId
    case _ => ""
  }

  /** The record yields an event in every pass that reads it. */
  predicate Yields(src: Source, r: Record)
  {
    r.Item? && r.draft.Some? && (!r.isTool || src.toolEvents)
  }

  ghost predicate NoMeta(src: Source, lines: seq<Bytes>)
  {
    forall k :: 0 <= k < |lines| ==> !src.record(lines[k]).Meta?
  }

  ghost predicate Silent(src: Source, lines: seq<Bytes>)
  {
    forall k :: 0 <= k < |lines| ==> !Yields(src, src.record(lines[k]))
  }

  /** Losing the name in the first line does no harm: it is in the file name too, it fits the head scan, or
      no later line needs it. */
  ghost predicate NameSafe(src: Source, lines: seq<Bytes>)
    requires lines != []
  {
    AnchorThread(src, lines[0]) in {"", src.filenameId}
    || |lines[0]| + 1 <= HEAD_SCAN_BYTES
    || Silent(src, lines[1..])
  }

  /** Only the first line may be a session record, and the thread it names is safe. */
  ghost predicate Anchored(src: Source, file: Bytes)
  {
    Lines(file) != [] ==> NoMeta(src, Lines(file)[1..]) && NameSafe(src, Lines(file))
  }

  lemma {:induction false} ScanFindsNoThread(src: Source, lines: seq<Bytes>)
    requires NoMeta(src, lines)
    ensures ScanMeta(src, lines) == None
  {
    if lines != [] {
      ScanFindsNoThread(src, lines[1..]);
    }
  }

  lemma ScanOfAnchored(src: Source, lines: seq<Bytes>)
    requires lines != [] && NoMeta(src, lines[1..])
    ensures (match ScanMeta(src, lines) case Some(t) => t case None => "") == AnchorThread(src, lines[0])
  {
    ScanFindsNoThread(src, lines[1..]);
  }

  /** A later pass recovers the session identity from the head exactly when the record that names it
      ends within the scanned head. */
  lemma HeadThreadRecovered(src: Source, file: Bytes, o: nat)
    requires Boundary(file, o) && o > 0
    requires Lines(file) != [] && NoMeta(src, Lines(file)[1..])
    ensures HeadThread(src, Head(file, o)) == AnchorThread(src, Lines(file)[0])
       <==> AnchorThread(src, Lines(file)[0]) == "" || |Lines(file)[0]| + 1 <= HEAD_SCAN_BYTES
    ensures HeadThread(src, Head(file, o)) == AnchorThread(src, Lines(file)[0])
         || HeadThread(src, Head(file, o)) == ""
  {
    var n := if o <= HEAD_SCAN_BYTES then o else HEAD_SCAN_BYTES;
    HeadHasFirstLine(file, n);
    FirstLineEndsBefore(file, o);
    var lines := Lines(file[..n]);
    assert file == file[..n] + file[n..];
    LinesPrefix(file[..n], file[n..]);
    if lines != [] {
      ScanOfAnchored(src, lines);
    }
  }

  lemma FirstLineEndsBefore(file: Bytes, o: nat)
    requires Boundary(file, o) && o > 0
    ensures Lines(file) != [] && |Lines(file)[0]| + 1 <= o
  {
    NonemptyHasLine(file[..o]);
    assert file == file[..o] + file[o..];
    LinesPrefix(file[..o], file[o..]);
    FirstLineLength(file[..o]);
  }

  /** Two starting threads after which every response item is attributed alike. */
  predicate SameThread(src: Source, a: string, b: string)
  {
    a == b || (a == "" && b == src.filenameId)
  }

  lemma {:induction false} SameThreadSameEvents(src: Source, lines: seq<Bytes>, a: string, b: string, f: bool, g: bool)
    requires NoMeta(src, lines)
    requires SameThread(src, a, b)
    ensures SameThread(src, ThreadAfter(src, lines, a), ThreadAfter(src, lines, b))
    ensures Events(src, lines, a, f) == Events(src, lines, b, g)
  {
    if lines != [] {
      SameThreadSameEvents(src, lines[..|lines| - 1], a, b, f, g);
    }
  }

  lemma {:induction false} ThreadConcat(src: Source, a: seq<Bytes>, b: seq<Bytes>, thread: string)
    ensures ThreadAfter(src, a + b, thread) == ThreadAfter(src, b, ThreadAfter(src, a, thread))
  {
    if b == [] {
      assert a + b == a;
    } else {
      ThreadConcat(src, a, b[..|b| - 1], thread);
      assert (a + b)[..|a + b| - 1] == a + b[..|b| - 1];
    }
  }

  /** The last line's share, read off two lists that end in the same line. */
  lemma EventsLast(src: Source, lines: seq<Bytes>, front: seq<Bytes>, last: Bytes, thread: string, f: bool)
    requires lines == front + [last]
    ensures Events(src, lines, thread, f)
         == Events(src, front, thread, f) + LineEvents(src, src.record(last), ThreadAfter(src, front, thread), f)
  {
    assert lines[..|lines| - 1] == front;
  }

  lemma {:induction false} EventsConcat(src: Source, a: seq<Bytes>, b: seq<Bytes>, thread: string, f: bool)
    ensures Events(src, a + b, thread, f)
         == Events(src, a, thread, f) + Events(src, b, ThreadAfter(src, a, thread), f)
  {
    if b == [] {
      assert a + b == a;
    } else {
      var front, last := b[..|b| - 1], b[|b| - 1];
      EventsConcat(src, a, front, thread, f);
      ThreadConcat(src, a, front, thread);
      SplitLast(a, b);
      EventsConcatPush(src, a, front, last, a + front, a + b, b, thread, f);
    }
  }

  /** One more line at the end of the second part. */
  lemma EventsConcatPush(src: Source, a: seq<Bytes>, front: seq<Bytes>, last: Bytes, prefix: seq<Bytes>,
                         whole: seq<Bytes>, b: seq<Bytes>, thread: string, f: bool)
    requires whole == prefix + [last] && b == front + [last]
    requires var mid := ThreadAfter(src, a, thread);
             && Events(src, prefix, thread, f) == Events(src, a, thread, f) + Events(src, front, mid, f)
             && ThreadAfter(src, prefix, thread) == ThreadAfter(src, front, mid)
    ensures Events(src, whole, thread, f)
         == Events(src, a, thread, f) + Events(src, b, ThreadAfter(src, a, thread), f)
  {
    var mid := ThreadAfter(src, a, thread);
    EventsLast(src, whole, prefix, last, thread, f);
    EventsLast(src, b, front, last, mid, f);
    JoinRight(Events(src, a, thread, f), Events(src, front, mid, f),
                     LineEvents(src, src.record(last), ThreadAfter(src, front, mid), f));
  }

  lemma {:induction false} ThreadOfAnchored(src: Source, lines: seq<Bytes>)
    requires lines != [] && NoMeta(src, lines[1..])
    ensures
      var t := AnchorThread(src, lines[0]);
      if t != "" then ThreadAfter(src, lines, "") == t
      else SameThread(src, "", ThreadAfter(src, lines, ""))
  {
    if |lines| > 1 {
      ThreadOfAnchored(src, lines[..|lines| - 1]);
    } else {
      assert lines[..0] == [];
    }
  }

  lemma ColdIsOneFold(src: Source, file: Bytes)
    ensures ColdEvents(src, file) == Events(src, Lines(file), "", true)
  {
    assert file[0..] == file;
    assert Lines(Head(file, 0)) == [];
  }

  /** The lines behind a boundary are a tail of the file's lines that does not hold the first one. */
  lemma LaterLines(file: Bytes, o: nat)
    requires Boundary(file, o) && o > 0
    ensures Lines(file) == Lines(file[..o]) + Lines(file[o..]) && Lines(file[..o]) != []
    ensures Lines(file[..o])[0] == Lines(file)[0]
    ensures Lines(file[o..]) == Lines(file)[1..][|Lines(file[..o])| - 1..]
    ensures Lines(file[..o])[1..] == Lines(file)[1..][..|Lines(file[..o])| - 1]
  {
    var a, b := file[..o], file[o..];
    assert file == a + b;
    LinesSplit(a, b);
    NonemptyHasLine(a);
  }

  lemma ThreadsAgree(src: Source, file: Bytes, o: nat)
    requires Boundary(file, o) && o > 0 && Lines(file) != [] && NoMeta(src, Lines(file)[1..])
    requires AnchorThread(src, Lines(file)[0]) in {"", src.filenameId} || |Lines(file)[0]| + 1 <= HEAD_SCAN_BYTES
    ensures SameThread(src, HeadThread(src, Head(file, o)), ThreadAfter(src, Lines(file[..o]), ""))
  {
    LaterLines(file, o);
    ThreadOfAnchored(src, Lines(file[..o]));
    HeadThreadRecovered(src, file, o);
  }

  lemma {:induction false} SilentNoEvents(src: Source, lines: seq<Bytes>, thread: string, f: bool)
    requires NoMeta(src, lines) && Silent(src, lines)
    ensures Events(src, lines, thread, f) == []
  {
    if lines != [] {
      SilentNoEvents(src, lines[..|lines| - 1], thread, f);
    }
  }

  /** What a later pass yields is what the cold pass yields for the same lines. */
  lemma SameTail(src: Source, file: Bytes, o: nat)
    requires Anchored(src, file) && Boundary(file, o) && o > 0
    ensures Events(src, Lines(file[o..]), ThreadAfter(src, Lines(file[..o]), ""), true) == PassEvents(src, file, o)
  {
    LaterLines(file, o);
    var rest, head, cold := Lines(file[o..]), HeadThread(src, Head(file, o)), ThreadAfter(src, Lines(file[..o]), "");
    if Silent(src, Lines(file)[1..]) {
      SilentNoEvents(src, rest, head, false);
      SilentNoEvents(src, rest, cold, true);
    } else {
      ThreadsAgree(src, file, o);
      SameThreadSameEvents(src, rest, head, cold, false, true);
    }
  }

  lemma LaterPass(src: Source, file: Bytes, o: nat)
    requires Anchored(src, file) && Boundary(file, o) && o > 0
    ensures Events(src, Lines(file), "", true) == Events(src, Lines(file[..o]), "", true) + PassEvents(src, file, o)
  {
    LaterLines(file, o);
    EventsConcat(src, Lines(file[..o]), Lines(file[o..]), "", true);
    SameTail(src, file, o);
  }

  lemma FirstPass(src: Source, file: Bytes)
    ensures ColdEvents(src, file) == ColdEvents(src, file[..0]) + PassEvents(src, file, 0)
  {
    ColdIsOneFold(src, file[..0]);
    assert Lines(file[..0]) == [];
  }

  lemma OffsetAfterPass(file: Bytes, o: nat)
    requires Boundary(file, o)
    ensures PassOffset(file, o) == Consumed(file)
  {
    assert file == file[..o] + file[o..];
    ConsumedSplit(file[..o], file[o..]);
  }

  /** One incremental pass adds exactly the events that a cold pass over the longer file has beyond a
      cold pass over the part already consumed. */
  lemma PassCompletesCold(src: Source, file: Bytes, o: nat)
    requires Anchored(src, file) && Boundary(file, o)
    ensures ColdEvents(src, file) == ColdEvents(src, file[..o]) + PassEvents(src, file, o)
    ensures PassOffset(file, o) == Consumed(file)
  {
    OffsetAfterPass(file, o);
    if o == 0 {
      FirstPass(src, file);
    } else {
      LaterPass(src, file, o);
      ColdIsOneFold(src, file);
      ColdIsOneFold(src, file[..o]);
    }
  }

  lemma {:induction false} ConsumedIsBoundary(file: Bytes)
    ensures Boundary(file, Consumed(file))
    ensures forall o: nat :: Boundary(file, o) ==> o <= Consumed(file)
  {
    if file != [] && file[|file| - 1] != NEWLINE {
      var body := file[..|file| - 1];
      ConsumedIsBoundary(body);
      forall o: nat | Boundary(file, o) ensures o <= Consumed(file) {
        assert Boundary(body, o);
      }
    }
  }

  /** A prefix of an anchored file is anchored. */
  lemma AnchoredPrefix(src: Source, file: Bytes, longer: Bytes)
    requires Anchored(src, longer) && file <= longer
    ensures Anchored(src, file)
  {
    assert longer == file + longer[|file|..];
    LinesPrefix(file, longer[|file|..]);
    if Lines(file) != [] {
      var n := |Lines(file)| - 1;
      assert Lines(file)[1..] == Lines(longer)[1..][..n];
      assert Lines(file)[0] == Lines(longer)[0];
    }
  }

  // ---- and no file beyond those ----

  /** How many session records there are. */
  function Metas(src: Source, lines: seq<Bytes>): nat
  {
    if lines == [] then 0
    else Metas(src, lines[..|lines| - 1]) + if src.record(lines[|lines| - 1]).Meta? then 1 else 0
  }

  function YieldCount(src: Source, lines: seq<Bytes>): nat
  {
    if lines == [] then 0
    else YieldCount(src, lines[..|lines| - 1]) + if Yields(src, src.record(lines[|lines| - 1])) then 1 else 0
  }

  lemma {:induction false} EventCount(src: Source, lines: seq<Bytes>, thread: string, f: bool)
    ensures |Events(src, lines, thread, f)| == YieldCount(src, lines) + if f then Metas(src, lines) else 0
  {
    if lines != [] {
      EventCount(src, lines[..|lines| - 1], thread, f);
    }
  }

  lemma {:induction false} MetaCounts(src: Source, lines: seq<Bytes>)
    ensures Metas(src, lines) == 0 <==> NoMeta(src, lines)
  {
    if lines != [] {
      MetaCounts(src, lines[..|lines| - 1]);
      assert lines == lines[..|lines| - 1] + [lines[|lines| - 1]];
    }
  }

  /** For every file and boundary: a pass from there loses exactly the events of the session records behind
      it, compared with a cold pass. */
  lemma LateMetasLost(src: Source, file: Bytes, o: nat)
    requires Boundary(file, o) && o > 0
    ensures |ColdEvents(src, file)|
         == |ColdEvents(src, file[..o])| + |PassEvents(src, file, o)| + Metas(src, Lines(file[o..]))
  {
    LaterLines(file, o);
    ColdIsOneFold(src, file);
    ColdIsOneFold(src, file[..o]);
    var a, b := Lines(file[..o]), Lines(file[o..]);
    EventsConcat(src, a, b, "", true);
    EventCount(src, b, ThreadAfter(src, a, ""), true);
    EventCount(src, b, HeadThread(src, Head(file, o)), false);
  }

  /** Before every line there is a boundary. */
  lemma {:induction false} BoundaryBefore(file: Bytes, k: nat) returns (o: nat)
    requires k <= |Lines(file)|
    ensures Boundary(file, o) && Lines(file[..o]) == Lines(file)[..k]
  {
    if k == |Lines(file)| {
      o := Consumed(file);
      LinesOfConsumed(file);
    } else {
      var body := file[..|file| - 1];
      o := BoundaryBefore(body, k);
      assert body[..o] == file[..o];
      assert Lines(body)[..k] == Lines(file)[..k];
    }
  }

  /** A pass adds exactly what a cold pass gains, at this boundary. */
  predicate AddsUp(src: Source, file: Bytes, o: nat)
    requires Boundary(file, o)
  {
    ColdEvents(src, file) == ColdEvents(src, file[..o]) + PassEvents(src, file, o)
  }

  /** Any session record behind the first line is lost by the pass that begins at it. */
  lemma LateMetaLost(src: Source, file: Bytes, k: nat) returns (o: nat)
    requires 1 <= k < |Lines(file)| && src.record(Lines(file)[k]).Meta?
    ensures Boundary(file, o) && Lines(file[..o]) == Lines(file)[..k] && !AddsUp(src, file, o)
  {
    o := BoundaryBefore(file, k);
    assert o > 0 by {
      assert Lines([]) == [];
    }
    LaterLines(file, o);
    LateMetasLost(src, file, o);
    var rest := Lines(file[o..]);
    assert rest[0] == Lines(file)[k];
    MetaCounts(src, rest);
  }

  lemma {:induction false} EventThreads(src: Source, lines: seq<Bytes>, thread: string, f: bool, i: nat)
    requires NoMeta(src, lines) && i < |Events(src, lines, thread, f)|
    ensures Events(src, lines, thread, f)[i].threadId == if thread == "" then src.filenameId else thread
    ensures ThreadAfter(src, lines, thread) in {thread, if thread == "" then src.filenameId else thread}
  {
    var front := lines[..|lines| - 1];
    if i < |Events(src, front, thread, f)| {
      EventThreads(src, front, thread, f, i);
    }
    ThreadKept(src, front, thread);
    ThreadKept(src, lines, thread);
  }

  lemma {:induction false} ThreadKept(src: Source, lines: seq<Bytes>, thread: string)
    requires NoMeta(src, lines)
    ensures ThreadAfter(src, lines, thread) in {thread, if thread == "" then src.filenameId else thread}
  {
    if lines != [] {
      ThreadKept(src, lines[..|lines| - 1], thread);
    }
  }

  lemma {:induction false} SilentCounts(src: Source, lines: seq<Bytes>)
    ensures YieldCount(src, lines) == 0 <==> Silent(src, lines)
  {
    if lines != [] {
      SilentCounts(src, lines[..|lines| - 1]);
      assert lines == lines[..|lines| - 1] + [lines[|lines| - 1]];
    }
  }

  /** A thread named by a first line too long for the head scan is lost behind that line, if it is needed. */
  lemma LongNameLost(src: Source, file: Bytes) returns (o: nat)
    requires Lines(file) != [] && NoMeta(src, Lines(file)[1..]) && !NameSafe(src, Lines(file))
    ensures Boundary(file, o) && Lines(file[..o]) == Lines(file)[..1] && !AddsUp(src, file, o)
  {
    o := BoundaryBefore(file, 1);
    assert o > 0 by {
      assert Lines([]) == [];
    }
    LaterLines(file, o);
    var rest, t := Lines(file[o..]), AnchorThread(src, Lines(file)[0]);
    assert rest == Lines(file)[1..];
    HeadThreadRecovered(src, file, o);
    OneLineThread(src, Lines(file[..o]));
    EventsConcat(src, Lines(file[..o]), rest, "", true);
    ColdIsOneFold(src, file);
    ColdIsOneFold(src, file[..o]);
    SilentCounts(src, rest);
    EventCount(src, rest, t, true);
    EventCount(src, rest, "", false);
    EventThreads(src, rest, t, true, 0);
    EventThreads(src, rest, "", false, 0);
    DifferentTails(ColdEvents(src, file[..o]), Events(src, rest, t, true), Events(src, rest, "", false));
  }

  lemma DifferentTails(a: seq<Captured>, x: seq<Captured>, y: seq<Captured>)
    requires x != [] && y != [] && x[0] != y[0]
    ensures a + x != a + y
  {
    assert (a + x)[|a|] == x[0] && (a + y)[|a|] == y[0];
  }

  lemma OneLineThread(src: Source, lines: seq<Bytes>)
    requires |lines| == 1 && AnchorThread(src, lines[0]) != ""
    ensures ThreadAfter(src, lines, "") == AnchorThread(src, lines[0])
  {
    assert lines[..0] == [];
  }

  /** Passes add up with cold passes at every boundary of a file exactly when no session record stands
      behind its first line, and the thread the first line names fits the head scan, is also that of the
      file name, or is needed by no later line. */
  lemma AnchoredIsExact(src: Source, file: Bytes)
    ensures Anchored(src, file) <==> forall o: nat | Boundary(file, o) :: AddsUp(src, file, o)
  {
    if Anchored(src, file) {
      forall o: nat | Boundary(file, o) ensures AddsUp(src, file, o) {
        PassCompletesCold(src, file, o);
      }
    } else {
      var lines := Lines(file);
      if NoMeta(src, lines[1..]) {
        var o := LongNameLost(src, file);
      } else {
        var k :| 0 <= k < |lines[1..]| && src.record(lines[1..][k]).Meta?;
        var o := LateMetaLost(src, file, k + 1);
      }
    }
  }

  // ---- a file on which passes do not add up ----

  predicate OneLine(line: Bytes)
  {
    forall i :: 0 <= i < |line| ==> line[i] != NEWLINE
  }

  lemma {:induction false} NothingConsumed(line: Bytes)
    requires OneLine(line)
    ensures Consumed(line) == 0 && Lines(line) == []
  {
    if line != [] {
      NothingConsumed(line[..|line| - 1]);
    }
  }

  lemma LinesOfOne(line: Bytes)
    requires OneLine(line)
    ensures Lines(line + [NEWLINE]) == [line]
  {
    NothingConsumed(line);
    assert (line + [NEWLINE])[..|line|] == line;
  }

  /** Whatever the first line is, a second line that is a session record is lost by a pass that begins
      between the two. */
  lemma TwoLineFile(src: Source, a: Bytes, b: Bytes)
    requires OneLine(a) && OneLine(b) && src.record(b).Meta?
    ensures var file, o := a + [NEWLINE] + (b + [NEWLINE]), |a| + 1;
            Lines(file) == [a, b] && Boundary(file, o) && !AddsUp(src, file, o)
  {
    var x, y := a + [NEWLINE], b + [NEWLINE];
    var file, o := x + y, |a| + 1;
    LinesOfOne(a);
    LinesOfOne(b);
    LinesSplit(x, y);
    SplitAt(x, y);
    SecondLineLost(src, file, o, [b]);
  }

  lemma SecondLineLost(src: Source, file: Bytes, o: nat, rest: seq<Bytes>)
    requires Boundary(file, o) && o > 0 && Lines(file[o..]) == rest && rest != [] && src.record(rest[0]).Meta?
    ensures !AddsUp(src, file, o)
  {
    LateMetasLost(src, file, o);
    MetaCounts(src, rest);
  }

  /** Passes from further behind still recover the thread of a session record in the second line, as long
      as it fits the head scan and no record before it is one. */
  lemma SecondLineRecovered(src: Source, file: Bytes, o: nat, a: Bytes, b: Bytes)
    requires Boundary(file, o) && o <= HEAD_SCAN_BYTES && [a, b] <= Lines(file[..o])
    requires src.record(b).Meta? && !src.record(a).Meta? && !src.record(a).MetaWithoutPayload?
    ensures HeadThread(src, Head(file, o)) == src.record(b).threadId
  {
    var lines := Lines(file[..o]);
    assert lines[0] == [a, b][0] && lines[1..][0] == [a, b][1];
    assert ScanMeta(src, lines) == ScanMeta(src, lines[1..]);
  }
}
