/** What an edit writes can be read back, a second edit replaces the first, and removing an inserted key
    restores the text up to empty lines. */
module TomlRoundTrip {
  import opened TomlEdit
  import opened TomlKeys
  import opened Wrappers

  predicate OneLine(s: string)
  {
    forall i :: 0 <= i < |s| ==> s[i] != '\n'
  }

  /** A key that can start a line of its own. */
  predicate KeyOk(key: string)
  {
    key != "" && OneLine(key) && !White(key[0]) && key[0] != '[' && key[0] != '#'
  }

  lemma {:induction false} EscapeOneLine(value: string)
    ensures OneLine(Escape(value))
  {
    if value != "" {
      EscapeOneLine(value[1..]);
    }
  }

  lemma {:induction false} ItemsOneLine(items: seq<string>)
    ensures OneLine(Items(items))
  {
    if items != [] {
      EscapeOneLine(items[0]);
      assert OneLine(StringLiteral(items[0]));
      if |items| > 1 {
        ItemsOneLine(items[1..]);
      }
    }
  }

  lemma AssignmentOneLine(key: string, items: seq<string>)
    requires KeyOk(key)
    ensures OneLine(Assignment(key, ArrayLiteral(items)))
  {
    ItemsOneLine(items);
  }

  // ---- a written assignment is found ----

  lemma AtChar(text: string, i: nat, part: string, k: nat)
    requires At(text, i, part) && k < |part|
    ensures text[i + k] == part[k]
  {
    assert text[i..i + |part|][k] == text[i + k];
  }

  /** The line at `n` begins with the assignment. */
  lemma LineOfAssignment(u: string, n: nat, a: string)
    requires At(u, n, a) && OneLine(a)
    ensures n + |a| <= LineEnd(u, n)
    ensures a <= u[n..LineEnd(u, n)]
  {
    forall k | n <= k < n + |a| ensures u[k] != '\n' {
      AtChar(u, n, a, k - n);
    }
    assert u[n..LineEnd(u, n)][..|a|] == u[n..n + |a|];
  }

  lemma KeyLine(line: string, key: string, literal: string)
    requires KeyOk(key) && Assignment(key, literal) <= line
    ensures !Header(line) && !Comment(line)
    ensures AfterKey(line, key) == Some(|line| - |key| - 2)
  {
    var a := Assignment(key, literal);
    assert line[0] == a[..|a|][0] == key[0];
    assert TrimStart(line) == line;
    assert key <= line;
    var rest := line[|key|..];
    assert rest[0] == a[|key|] == ' ' && rest[1] == a[|key| + 1] == '=';
    assert TrimStart(rest) == rest[1..];
  }

  lemma ValueAt(u: string, n: nat, key: string, literal: string)
    requires At(u, n, Assignment(key, literal))
    ensures var v := n + |key| + 2;
            v < |u| && u[v] == ' ' && At(u, v + 1, literal)
  {
    AtParts(u, n, key + " = ", literal);
    AtParts(u, n, key, " = ");
    assert u[n + |key|..n + |key| + 3][2] == u[n + |key| + 2];
  }

  lemma TrimLiteral(items: seq<string>)
    ensures Trim(" " + ArrayLiteral(items)) == ArrayLiteral(items)
  {
    var t := ArrayLiteral(items);
    assert (" " + t)[1..] == t && t[0] == '[' && t[|t| - 1] == ']';
    assert TrimStart(t) == t && TrimStart(" " + t) == TrimStart(t);
    assert TrimEnd(t) == t;
  }

  /** The line at `n` is no table header and assigns the key what `l` says. */
  predicate MatchesAt(u: string, key: string, n: nat, l: Located)
  {
    n < |u| && !Header(u[n..LineEnd(u, n)]) && LineMatch(u, key, n) == Some(l)
  }

  /** What makes a line match. */
  lemma MatchParts(u: string, key: string, n: nat, line: string, after: nat, v: nat, end: nat, value: string)
    requires n < |u| && line == u[n..LineEnd(u, n)]
    requires !Header(line) && !Comment(line) && AfterKey(line, key) == Some(after)
    requires v + after == LineEnd(u, n) && ScanValue(u, v) == (end, end) && Trim(u[v..end]) == value
    ensures MatchesAt(u, key, n, Located(value, n, end))
  {
    hide Header, Comment, AfterKey, ScanValue, Trim;
  }

  /** The line an assignment stands on. */
  lemma AssignedLine(u: string, key: string, items: seq<string>, n: nat, lit: string, a: string) returns (line: string)
    requires lit == ArrayLiteral(items) && a == Assignment(key, lit) && KeyOk(key) && At(u, n, a)
    ensures n + |a| <= LineEnd(u, n) && line == u[n..LineEnd(u, n)]
    ensures !Header(line) && !Comment(line) && |line| >= |key| + 2 && AfterKey(line, key) == Some(|line| - |key| - 2)
  {
    AssignmentOneLine(key, items);
    LineOfAssignment(u, n, a);
    line := u[n..LineEnd(u, n)];
    KeyLine(line, key, lit);
  }

  /** And what is read there. */
  lemma AssignedValue(u: string, key: string, items: seq<string>, n: nat, lit: string, v: nat, end: nat)
    requires lit == ArrayLiteral(items) && At(u, n, Assignment(key, lit))
    requires v == n + |key| + 2 && end == n + |Assignment(key, lit)|
    ensures v <= end <= |u| && ScanValue(u, v) == (end, end) && Trim(u[v..end]) == lit
  {
    ValueAt(u, n, key, lit);
    ValueScanned(u, v, items, lit, end);
  }

  lemma WrittenMatches(u: string, key: string, items: seq<string>, n: nat, lit: string, a: string)
    requires lit == ArrayLiteral(items) && a == Assignment(key, lit) && KeyOk(key) && At(u, n, a)
    ensures MatchesAt(u, key, n, Located(lit, n, n + |a|))
  {
    hide *;
    var line := AssignedLine(u, key, items, n, lit, a);
    AssignedValue(u, key, items, n, lit, n + |key| + 2, n + |a|);
    MatchParts(u, key, n, line, |line| - |key| - 2, n + |key| + 2, n + |a|, lit);
  }

  /** What scanning behind the equals sign yields. */
  lemma ValueScanned(u: string, v: nat, items: seq<string>, lit: string, end: nat)
    requires lit == ArrayLiteral(items) && v < |u| && u[v] == ' ' && At(u, v + 1, lit) && end == v + 1 + |lit|
    ensures ScanValue(u, v) == (end, end)
    ensures Trim(u[v..end]) == lit
  {
    hide *;
    SpaceSkipped(u, v);
    ScanArray(u, v + 1, items, v);
    BlankAndLiteral(u, v, lit);
    TrimLiteral(items);
  }

  lemma SpaceSkipped(u: string, v: nat)
    requires v < |u| && u[v] == ' '
    ensures ScanValue(u, v) == ScanFrom(u, v + 1, Quote(0, false, false), v)
  {
  }

  lemma BlankAndLiteral(u: string, v: nat, literal: string)
    requires v < |u| && u[v] == ' ' && At(u, v + 1, literal)
    ensures u[v..v + 1 + |literal|] == " " + literal
  {
    assert u[v..v + 1 + |literal|] == [u[v]] + u[v + 1..v + 1 + |literal|];
  }

  /** Behind quiet lines, the line that matches is what reading finds. */
  lemma MatchLocated(u: string, key: string, n: nat, l: Located)
    requires n <= |u| && QuietTo(u, key, 0, n) && MatchesAt(u, key, n, l)
    ensures Locate(u, key) == Some(l)
  {
    QuietSkips(u, key, 0, n);
  }

  lemma ReadLocated(u: string, key: string, items: seq<string>, l: Located)
    requires Locate(u, key) == Some(l) && l.value == ArrayLiteral(items)
    ensures ReadRootArray(u, key) == Some(items)
  {
    ParseOfLiteral(items);
  }

  // ---- replacing ----

  lemma MiddleAt(a: string, b: string, c: string)
    ensures At(a + b + c, |a|, b) && (a + b + c)[..|a|] == a && (a + b + c)[|a| + |b|..] == c
  {
  }

  lemma UpsertParts(text: string, key: string, literal: string) returns (head: string, tail: string)
    requires Locate(text, key).Some?
    ensures var l := Locate(text, key).value;
            && Fits(text, l) && head == text[..l.start] && tail == text[l.end..]
            && Upsert(text, key, literal) == (head + Assignment(key, literal) + tail, true)
            && QuietTo(text, key, 0, l.start)
  {
    LocatedFits(text, key, 0, false);
    FoundQuiet(text, key, 0);
    head, tail := text[..Locate(text, key).value.start], text[Locate(text, key).value.end..];
  }

  lemma MatchBetween(head: string, tail: string, key: string, items: seq<string>, out: string, lit: string)
    requires lit == ArrayLiteral(items) && KeyOk(key) && out == head + Assignment(key, lit) + tail
    ensures MatchesAt(out, key, |head|, Located(lit, |head|, |head| + |Assignment(key, lit)|))
  {
    hide *;
    MiddleAt(head, Assignment(key, lit), tail);
    WrittenMatches(out, key, items, |head|, lit, Assignment(key, lit));
  }

  /** Written at the start of a line behind quiet lines, the assignment is what reading finds. */
  lemma WrittenBetween(text: string, head: string, tail: string, key: string, items: seq<string>, out: string)
    requires KeyOk(key) && head <= text && QuietTo(text, key, 0, |head|)
    requires out == head + Assignment(key, ArrayLiteral(items)) + tail
    ensures Locate(out, key)
         == Some(Located(ArrayLiteral(items), |head|, |head| + |Assignment(key, ArrayLiteral(items))|))
    ensures ReadRootArray(out, key) == Some(items)
    ensures out[..|head|] == head && out[|head| + |Assignment(key, ArrayLiteral(items))|..] == tail
  {
    hide *;
    var lit := ArrayLiteral(items);
    var a := Assignment(key, lit);
    var l := Located(lit, |head|, |head| + |a|);
    MatchBetween(head, tail, key, items, out, lit);
    QuietBefore(text, head, a, tail, key, out);
    MatchLocated(out, key, |head|, l);
    ReadLocated(out, key, items, l);
    MiddleAt(head, a, tail);
  }

  lemma QuietBefore(text: string, head: string, a: string, tail: string, key: string, out: string)
    requires head <= text && QuietTo(text, key, 0, |head|) && out == head + a + tail
    ensures QuietTo(out, key, 0, |head|)
  {
    MiddleAt(head, a, tail);
    QuietCarries(text, out, key, 0, |head|);
  }

  /** Where the key is present, the list written by an upsert is the list read afterwards, and the text on
      either side of the replaced assignment is untouched. */
  lemma ReadAfterUpsert(text: string, key: string, items: seq<string>)
    requires KeyOk(key) && Locate(text, key).Some?
    ensures var l := Locate(text, key).value;
            var (out, replaced) := Upsert(text, key, ArrayLiteral(items));
            && replaced && ReadRootArray(out, key) == Some(items)
            && l.start <= l.end <= |text| && l.start + |text| - l.end <= |out|
            && out[..l.start] == text[..l.start]
            && out[|out| - (|text| - l.end)..] == text[l.end..]
  {
    var head, tail := UpsertParts(text, key, ArrayLiteral(items));
    WrittenBetween(text, head, tail, key, items, Upsert(text, key, ArrayLiteral(items)).0);
  }

  /** The last write wins: nothing of an earlier upsert remains. */
  lemma LastUpsertWins(text: string, key: string, first: seq<string>, second: seq<string>)
    requires KeyOk(key) && Locate(text, key).Some?
    ensures Upsert(Upsert(text, key, ArrayLiteral(first)).0, key, ArrayLiteral(second))
         == Upsert(text, key, ArrayLiteral(second))
  {
    var head, tail := UpsertParts(text, key, ArrayLiteral(first));
    var head', tail' := UpsertParts(text, key, ArrayLiteral(second));
    WrittenBetween(text, head, tail, key, first, Upsert(text, key, ArrayLiteral(first)).0);
  }

  // ---- inserting ----

  lemma LineEndEnded(t: string, i: nat)
    requires i < |t|
    ensures var u, e := Ended(t), LineEnd(t, i);
            e < |u| && LineEnd(u, i) == e && u[i..e] == t[i..e]
  {
    var u, e := Ended(t), LineEnd(t, i);
    assert forall k :: 0 <= k < |t| ==> u[k] == t[k];
    if e == |t| {
      assert t[|t| - 1] != '\n';
      assert u == t + "\n";
    }
    assert u[e] == '\n';
  }

  lemma AbsentLine(t: string, key: string, i: nat)
    requires i < |t| && LocateFrom(t, key, i, false).None? && FirstHeader(t, i).None?
    ensures !Header(t[i..LineEnd(t, i)]) && LineMatch(t, key, i).None?
    ensures LocateFrom(t, key, NextLine(t, i), false).None? && FirstHeader(t, NextLine(t, i)).None?
  {
    RawHeader(t, i);
  }

  lemma LineMatchSame(t: string, u: string, key: string, i: nat)
    requires i <= |t| && i <= |u| && LineEnd(t, i) == LineEnd(u, i) && t[i..LineEnd(t, i)] == u[i..LineEnd(u, i)]
    ensures LineMatch(t, key, i).None? <==> LineMatch(u, key, i).None?
  {
  }

  lemma {:induction false} AbsentToEnd(t: string, key: string, i: nat, u: string)
    requires i <= |t| && LocateFrom(t, key, i, false).None? && FirstHeader(t, i).None?
    requires u == Ended(t) && (i == |t| ==> u == t)
    ensures QuietTo(u, key, i, |u|)
    decreases |t| - i
  {
    hide Header, LineMatch, FirstHeader, LocateFrom;
    if i < |t| {
      var e := LineEnd(t, i);
      AbsentLine(t, key, i);
      LineEndEnded(t, i);
      LineMatchSame(t, u, key, i);
      if e < |t| {
        assert e + 1 == |t| ==> u == t;
        AbsentToEnd(t, key, e + 1, u);
      } else {
        assert QuietTo(u, key, |u|, |u|);
      }
    }
  }

  /** Where the assignment is inserted: behind the root table's lines. */
  function InsertPoint(text: string): nat
  {
    if FirstHeader(text, 0).Some? then |Ended(text[..FirstHeader(text, 0).value])| else |Ended(text)|
  }

  lemma {:induction false} HeaderAtLineStart(text: string, i: nat)
    requires i <= |text| && FirstHeader(text, i).Some? && (i == 0 || text[i - 1] == '\n')
    ensures FirstHeader(text, i).value == 0 || text[FirstHeader(text, i).value - 1] == '\n'
    decreases |text| - i
  {
    if !Header(text[i..NextLine(text, i)]) {
      HeaderAtLineStart(text, NextLine(text, i));
    }
  }

  /** A table header starts a line, so the text before it needs no further line feed. */
  lemma HeadEnded(text: string)
    requires FirstHeader(text, 0).Some?
    ensures Ended(text[..FirstHeader(text, 0).value]) == text[..FirstHeader(text, 0).value]
  {
    HeaderAtLineStart(text, 0);
  }

  lemma HeadQuiet(text: string, key: string)
    requires Locate(text, key).None?
    ensures var head := if FirstHeader(text, 0).Some? then text[..FirstHeader(text, 0).value] else Ended(text);
            |head| == InsertPoint(text) && QuietTo(head, key, 0, |head|)
  {
    var at := FirstHeader(text, 0);
    if at.Some? {
      HeadEnded(text);
      AbsentQuiet(text, key, 0);
      QuietCarries(text, text[..at.value], key, 0, at.value);
    } else {
      AbsentToEnd(text, key, 0, Ended(text));
    }
  }

  /** Where the key is absent, the list written by an insertion is the list read afterwards. */
  lemma ReadAfterInsert(text: string, key: string, items: seq<string>)
    requires KeyOk(key) && Locate(text, key).None?
    ensures ReadRootArray(Insert(text, key, ArrayLiteral(items)), key) == Some(items)
    ensures Locate(Insert(text, key, ArrayLiteral(items)), key)
         == Some(Located(ArrayLiteral(items), InsertPoint(text), InsertPoint(text) + |Assignment(key, ArrayLiteral(items))|))
  {
    hide *;
    HeadQuiet(text, key);
    var head, tail := InsertedParts(text, key, ArrayLiteral(items));
    WrittenBetween(head, head, tail, key, items, Insert(text, key, ArrayLiteral(items)));
  }

  /** An upsert after an insertion leaves what inserting the second list at once leaves. */
  lemma UpsertReplacesInsert(text: string, key: string, first: seq<string>, second: seq<string>)
    requires KeyOk(key) && Locate(text, key).None?
    ensures Upsert(Insert(text, key, ArrayLiteral(first)), key, ArrayLiteral(second))
         == (Insert(text, key, ArrayLiteral(second)), true)
  {
    ReadAfterInsert(text, key, first);
    var n := InsertPoint(text);
    var a, b := Assignment(key, ArrayLiteral(first)), Assignment(key, ArrayLiteral(second));
    var head, tail := InsertedParts(text, key, ArrayLiteral(first));
    var head', tail' := InsertedParts(text, key, ArrayLiteral(second));
    MiddleAt(head, a, tail);
  }

  /** An insertion is the text before the insertion point, the assignment, and what follows. */
  lemma InsertedParts(text: string, key: string, literal: string) returns (head: string, tail: string)
    ensures Insert(text, key, literal) == head + Assignment(key, literal) + tail && |head| == InsertPoint(text)
    ensures var at := FirstHeader(text, 0);
            && head == (if at.Some? then text[..at.value] else Ended(text))
            && tail == (if at.Some? then "\n" + ("\n" + text[at.value..]) else "\n")
  {
    var at := FirstHeader(text, 0);
    if at.Some? {
      HeadEnded(text);
      head, tail := text[..at.value], "\n" + ("\n" + text[at.value..]);
      RegroupTable(head, Assignment(key, literal), text[at.value..]);
    } else {
      head, tail := Ended(text), "\n";
      RegroupEnd(head, Assignment(key, literal));
    }
  }

  lemma RegroupTable(head: string, a: string, rest: string)
    ensures head + (a + "\n") + "\n" + rest == head + a + ("\n" + ("\n" + rest))
  {
  }

  lemma RegroupEnd(head: string, a: string)
    ensures head + (a + "\n") == head + a + "\n"
  {
  }

  // ---- non-empty lines ----

  datatype Lines = Lines(done: seq<string>, current: string)

  function Feed(st: Lines, c: char): Lines
  {
    if c != '\n' then st.(current := st.current + [c])
    else if st.current == "" then st
    else Lines(st.done + [st.current], "")
  }

  function FeedAll(st: Lines, s: string): Lines
    decreases |s|
  {
    if s == "" then st else FeedAll(Feed(st, s[0]), s[1..])
  }

  /** The lines of a text that are not empty, in order. */
  function NonEmptyLines(s: string): seq<string>
  {
    var st := FeedAll(Lines([], ""), s);
    if st.current == "" then st.done else st.done + [st.current]
  }

  lemma {:induction false} FeedAppend(st: Lines, a: string, b: string)
    ensures FeedAll(st, a + b) == FeedAll(FeedAll(st, a), b)
    decreases |a|
  {
    if a == "" {
      assert a + b == b;
    } else {
      assert (a + b)[1..] == a[1..] + b;
      FeedAppend(Feed(st, a[0]), a[1..], b);
    }
  }

  lemma FeedBreaks(st: Lines)
    ensures FeedAll(st, "\n") == Feed(st, '\n')
    ensures FeedAll(st, "\n\n") == Feed(st, '\n') && FeedAll(st, "\n\n\n") == Feed(st, '\n')
  {
    var one, two, three := "\n", "\n\n", "\n\n\n";
    assert one[1..] == "" && two[1..] == one && three[1..] == two;
    var f := Feed(st, '\n');
    assert Feed(f, '\n') == f;
    assert FeedAll(f, "") == f && FeedAll(f, one) == f && FeedAll(f, two) == f;
  }

  lemma {:induction false} FeedThinned(st: Lines, s: string)
    ensures FeedAll(st, Thinned(s)) == FeedAll(st, s)
    decreases |s|
  {
    if |s| >= 3 {
      if s[..3] == "\n\n\n" {
        FeedThinned(Feed(st, '\n'), s[3..]);
        FeedBreaks(st);
        FeedAppend(st, "\n\n", Thinned(s[3..]));
        FeedAppend(st, "\n\n\n", s[3..]);
        assert s == "\n\n\n" + s[3..];
      } else {
        FeedThinned(Feed(st, s[0]), s[1..]);
        assert Thinned(s)[1..] == Thinned(s[1..]);
      }
    }
  }

  lemma {:induction false} FeedCollapsed(st: Lines, s: string)
    ensures FeedAll(st, Collapsed(s)) == FeedAll(st, s)
    decreases |s|
  {
    if HasTriple(s) {
      var i :| 0 <= i && i + 3 <= |s| && Triple(s, i);
      ThinnedShorter(s, i);
      FeedCollapsed(st, Thinned(s));
      FeedThinned(st, s);
    }
  }

  /** Ending the last line changes no non-empty line. */
  lemma EndedLines(text: string)
    ensures NonEmptyLines(Ended(text)) == NonEmptyLines(text)
  {
    FeedAppend(Lines([], ""), text, "\n");
    FeedBreaks(FeedAll(Lines([], ""), text));
  }

  /** Behind a line feed, or at the start, a further line feed makes no difference. */
  lemma ExtraBreak(a: string, b: string)
    requires a == "" || a[|a| - 1] == '\n'
    ensures FeedAll(Lines([], ""), a + ("\n" + b)) == FeedAll(Lines([], ""), a + b)
  {
    var st := Lines([], "");
    var mid := FeedAll(st, a);
    FeedAppend(st, a, "\n" + b);
    FeedAppend(st, a, b);
    FeedAppend(mid, "\n", b);
    FeedBreaks(mid);
    if a != "" {
      assert a == a[..|a| - 1] + "\n";
      FeedAppend(st, a[..|a| - 1], "\n");
      FeedBreaks(FeedAll(st, a[..|a| - 1]));
    }
  }

  /** The text around an inserted assignment, without the line feed that ended it. */
  function Around(text: string): string
  {
    var at := FirstHeader(text, 0);
    if at.Some? then text[..at.value] + WithoutLineFeed("\n" + ("\n" + text[at.value..]))
    else Ended(text) + WithoutLineFeed("\n")
  }

  lemma RemovedText(text: string, key: string, items: seq<string>)
    requires KeyOk(key) && Locate(text, key).None?
    ensures Remove(Insert(text, key, ArrayLiteral(items)), key) == Collapsed(Around(text))
  {
    ReadAfterInsert(text, key, items);
    var head, tail := InsertedParts(text, key, ArrayLiteral(items));
    MiddleAt(head, Assignment(key, ArrayLiteral(items)), tail);
  }

  lemma CollapsedLines(s: string)
    ensures NonEmptyLines(Collapsed(s)) == NonEmptyLines(s)
  {
    FeedCollapsed(Lines([], ""), s);
  }

  lemma LineFeedGone(rest: string)
    ensures WithoutLineFeed("\n" + rest) == rest
  {
  }

  lemma BeforeTable(head: string, rest: string)
    requires head == "" || head[|head| - 1] == '\n'
    ensures NonEmptyLines(head + WithoutLineFeed("\n" + ("\n" + rest))) == NonEmptyLines(head + rest)
  {
    LineFeedGone("\n" + rest);
    ExtraBreak(head, rest);
  }

  lemma AtTheEnd(text: string)
    ensures NonEmptyLines(Ended(text) + WithoutLineFeed("\n")) == NonEmptyLines(text)
  {
    LineFeedGone("");
    assert "\n" + "" == "\n" && Ended(text) + "" == Ended(text);
    EndedLines(text);
  }

  lemma AroundTable(text: string) returns (head: string, rest: string)
    requires FirstHeader(text, 0).Some?
    ensures Around(text) == head + WithoutLineFeed("\n" + ("\n" + rest)) && text == head + rest
    ensures head == "" || head[|head| - 1] == '\n'
  {
    var at := FirstHeader(text, 0).value;
    HeaderAtLineStart(text, 0);
    head, rest := text[..at], text[at..];
    CutAtHeader(text, at, head, rest);
  }

  lemma CutAtHeader(text: string, at: nat, head: string, rest: string)
    requires at <= |text| && head == text[..at] && rest == text[at..] && (at == 0 || text[at - 1] == '\n')
    ensures text == head + rest && (head == "" || head[|head| - 1] == '\n')
  {
  }

  lemma AroundLines(text: string)
    ensures NonEmptyLines(Around(text)) == NonEmptyLines(text)
  {
    if FirstHeader(text, 0).Some? {
      var head, rest := AroundTable(text);
      BeforeTable(head, rest);
    } else {
      AtTheEnd(text);
    }
  }

  /** Removing an inserted key restores the text's non-empty lines, in order. */
  lemma RemoveUndoesInsert(text: string, key: string, items: seq<string>)
    requires KeyOk(key) && Locate(text, key).None?
    ensures NonEmptyLines(Remove(Insert(text, key, ArrayLiteral(items)), key)) == NonEmptyLines(text)
  {
    RemovedText(text, key, items);
    CollapsedLines(Around(text));
    AroundLines(text);
  }
}
