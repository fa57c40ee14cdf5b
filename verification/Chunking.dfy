/** Splitting an oversized section of text: paragraphs are packed greedily up to a limit, and a unit that is
    too long is split at line ends, then after sentence punctuation, then anywhere. */
module Chunking {
  import opened Seqs
  import opened Text
  import opened Wrappers

  function Concat(parts: seq<string>): string
  {
    if parts == [] then "" else Concat(parts[..|parts| - 1]) + parts[|parts| - 1]
  }

  lemma {:induction false} ConcatAdd(a: seq<string>, b: seq<string>)
    ensures Concat(a + b) == Concat(a) + Concat(b)
  {
    if b == [] {
      JoinEmpty(a);
    } else {
      SplitLast(a, b);
      ConcatAdd(a, b[..|b| - 1]);
      JoinRight(Concat(a), Concat(b[..|b| - 1]), b[|b| - 1]);
    }
  }

  lemma ConcatCons(a: string, rest: seq<string>)
    ensures Concat([a] + rest) == a + Concat(rest)
  {
    ConcatAdd([a], rest);
    assert Concat([a]) == a;
  }

  lemma ConcatTwo(a: string, b: string)
    ensures Concat([a, b]) == a + b
  {
    assert [a, b][..1] == [a];
    assert Concat([a]) == a;
  }

  // ---- where text is split ----

  /** A line ends after index `i`; a carriage return waits for its line feed. */
  predicate LineEnds(s: string, i: int)
  {
    0 <= i < |s|
    && ('\n' <= s[i] <= '\r' || '\U{001C}' <= s[i] <= '\U{001E}' || s[i] in {'\U{0085}', '\U{2028}', '\U{2029}'})
    && !(s[i] == '\r' && i + 1 < |s| && s[i + 1] == '\n')
  }

  predicate SentenceEnds(s: string, i: int)
  {
    0 <= i < |s| && s[i] in {'\U{3002}', '\U{FF01}', '\U{FF1F}', '.', '!', '?', ';', '\U{FF1B}'}
  }

  /** The pieces of `s` from `start` on, cut after every index that `ends` accepts, of which those below `i`
      have been looked at. */
  function Pieces(s: string, ends: (string, int) -> bool, start: nat, i: nat): (r: seq<string>)
    requires start <= i <= |s|
    ensures forall k :: 0 <= k < |r| ==> r[k] != ""
    decreases |s| - i
  {
    if i == |s| then (if start < i then [s[start..]] else [])
    else if ends(s, i) then [s[start..i + 1]] + Pieces(s, ends, i + 1, i + 1)
    else Pieces(s, ends, start, i + 1)
  }

  lemma CutAt(s: string, start: nat, i: nat)
    requires start <= i <= |s|
    ensures s[start..] == s[start..i] + s[i..]
  {
  }

  lemma {:induction false} PiecesWhole(s: string, ends: (string, int) -> bool, start: nat, i: nat)
    requires start <= i <= |s|
    ensures Concat(Pieces(s, ends, start, i)) == s[start..]
    decreases |s| - i
  {
    if i == |s| {
    } else if ends(s, i) {
      PiecesWhole(s, ends, i + 1, i + 1);
      ConcatCons(s[start..i + 1], Pieces(s, ends, i + 1, i + 1));
      CutAt(s, start, i + 1);
    } else {
      PiecesWhole(s, ends, start, i + 1);
    }
  }

  function Lines(s: string): seq<string>
  {
    Pieces(s, LineEnds, 0, 0)
  }

  function Sentences(s: string): seq<string>
  {
    Pieces(s, SentenceEnds, 0, 0)
  }

  /** The end of the whitespace run at `i`. */
  function RunEnd(s: string, i: nat): (e: nat)
    requires i <= |s|
    ensures i <= e <= |s|
    decreases |s| - i
  {
    if i < |s| && IsSpace(s[i]) then RunEnd(s, i + 1) else i
  }

  function LastLineFeed(s: string, lo: nat, hi: nat): (k: Option<nat>)
    requires lo <= hi <= |s|
    ensures k.Some? ==> lo <= k.value < hi
  {
    if lo == hi then None else if s[hi - 1] == '\n' then Some(hi - 1) else LastLineFeed(s, lo, hi - 1)
  }

  /** The end of the paragraph break that starts at `i`: a line feed, whitespace, and the last line feed of
      that whitespace. */
  function BreakEnd(s: string, i: nat): (e: Option<nat>)
    requires i < |s|
    ensures e.Some? ==> i < e.value <= |s|
  {
    if s[i] != '\n' then None
    else
      var last := LastLineFeed(s, i + 1, RunEnd(s, i + 1));
      if last.None? then None else Some(last.value + 1)
  }

  /** Paragraphs and the breaks between them. */
  function Paragraphs(s: string, start: nat, i: nat): seq<string>
    requires start <= i <= |s|
    decreases |s| - i
  {
    if i == |s| then [s[start..]]
    else
      var e := BreakEnd(s, i);
      if e.Some? then [s[start..i], s[i..e.value]] + Paragraphs(s, e.value, e.value)
      else Paragraphs(s, start, i + 1)
  }

  lemma {:induction false} ParagraphsWhole(s: string, start: nat, i: nat)
    requires start <= i <= |s|
    ensures Concat(Paragraphs(s, start, i)) == s[start..]
    decreases |s| - i
  {
    if i < |s| {
      var e := BreakEnd(s, i);
      if e.Some? {
        var two := [s[start..i], s[i..e.value]];
        ParagraphsWhole(s, e.value, e.value);
        ConcatAdd(two, Paragraphs(s, e.value, e.value));
        ConcatTwo(s[start..i], s[i..e.value]);
        assert s[start..] == s[start..i] + s[i..e.value] + s[e.value..];
      } else {
        ParagraphsWhole(s, start, i + 1);
      }
    }
  }

  // ---- packing ----

  function HardSplit(value: string, cap: nat): (r: seq<string>)
    requires cap >= 1
    ensures value != "" ==> r != []
  {
    if value == "" then []
    else if |value| <= cap then [value]
    else [value[..cap]] + HardSplit(value[cap..], cap)
  }

  datatype Packing = Packing(packed: seq<string>, current: string)

  function Place(st: Packing, piece: string, cap: nat): Packing
  {
    if st.current == "" then Packing(st.packed, piece)
    else if |st.current| + |piece| <= cap then Packing(st.packed, st.current + piece)
    else Packing(st.packed + [st.current], piece)
  }

  function AddPiece(st: Packing, piece: string, cap: nat): Packing
    requires cap >= 1
  {
    var next := Place(st, piece, cap);
    if |next.current| > cap then
      var overflow := HardSplit(next.current, cap);
      Packing(next.packed + overflow[..|overflow| - 1], overflow[|overflow| - 1])
    else next
  }

  function AddPieces(st: Packing, pieces: seq<string>, cap: nat): Packing
    requires cap >= 1
  {
    if pieces == [] then st
    else AddPiece(AddPieces(st, pieces[..|pieces| - 1], cap), pieces[|pieces| - 1], cap)
  }

  predicate AtMost(units: seq<string>, limit: int)
  {
    forall i :: 0 <= i < |units| ==> |units[i]| <= limit
  }

  /** Split at lines if that helps, else at sentences, else anywhere. */
  function SplitUnit(value: string, cap: nat): seq<string>
    requires cap >= 1
    decreases |value|, 0, 0
  {
    if |value| <= cap then [value]
    else if |Lines(value)| > 1 && AtMost(Lines(value), |value| - 1) then Pack(Lines(value), cap, |value| - 1)
    else if |Sentences(value)| > 1 && AtMost(Sentences(value), |value| - 1) then Pack(Sentences(value), cap, |value| - 1)
    else HardSplit(value, cap)
  }

  function UnitPieces(u: string, cap: nat, limit: nat): seq<string>
    requires cap >= 1 && |u| <= limit
    decreases limit, 1, 0
  {
    if |u| > cap then SplitUnit(u, cap) else [u]
  }

  function PackUnits(units: seq<string>, cap: nat, limit: nat): Packing
    requires cap >= 1 && AtMost(units, limit)
    decreases limit, 2, |units|
  {
    if units == [] then Packing([], "")
    else
      AddPieces(PackUnits(units[..|units| - 1], cap, limit), UnitPieces(units[|units| - 1], cap, limit), cap)
  }

  function Finish(st: Packing): seq<string>
  {
    if st.current != "" then st.packed + [st.current] else st.packed
  }

  /** `limit` bounds the units' lengths; it only serves termination. */
  function Pack(units: seq<string>, cap: nat, limit: nat): seq<string>
    requires cap >= 1 && AtMost(units, limit)
    decreases limit, 3, 0
  {
    Finish(PackUnits(units, cap, limit))
  }

  function Trimmed(parts: seq<string>): seq<string>
  {
    if parts == [] then []
    else
      var last := Strip(parts[|parts| - 1]);
      if last == "" then Trimmed(parts[..|parts| - 1]) else Trimmed(parts[..|parts| - 1]) + [last]
  }

  function MaxLength(units: seq<string>): (m: nat)
    ensures AtMost(units, m)
  {
    if units == [] then 0
    else
      var m := MaxLength(units[..|units| - 1]);
      assert forall i :: 0 <= i < |units| - 1 ==> units[i] == units[..|units| - 1][i];
      if |units[|units| - 1]| > m then |units[|units| - 1]| else m
  }

  function SplitOversize(text: string, cap: nat): seq<string>
    requires cap >= 1
  {
    if |text| <= cap then [text]
    else
      var paragraphs := Paragraphs(text, 0, 0);
      Trimmed(Pack(paragraphs, cap, MaxLength(paragraphs)))
  }

  // ---- the recursive splitter ----

  method HardSplitPieces(value: string, cap: nat) returns (r: seq<string>)
    requires cap >= 1
    ensures r == HardSplit(value, cap)
  {
    r := [];
    var i := 0;
    while i < |value|
      invariant 0 <= i
      invariant i <= |value| ==> r + HardSplit(value[i..], cap) == HardSplit(value, cap)
      invariant i > |value| ==> r == HardSplit(value, cap)
    {
      if i + cap < |value| {
        assert value[i..][..cap] == value[i..i + cap] && value[i..][cap..] == value[i + cap..];
        r := r + [value[i..i + cap]];
      } else {
        r := r + [value[i..]];
      }
      i := i + cap;
    }
  }

  method SplitUnitPieces(value: string, cap: nat) returns (r: seq<string>)
    requires cap >= 1
    ensures r == SplitUnit(value, cap)
    decreases |value|, 0
  {
    if |value| <= cap {
      return [value];
    }
    var lines := Lines(value);
    if |lines| > 1 && AtMost(lines, |value| - 1) {
      r := PackPieces(lines, cap, |value| - 1);
      return;
    }
    var sentences := Sentences(value);
    if |sentences| > 1 && AtMost(sentences, |value| - 1) {
      r := PackPieces(sentences, cap, |value| - 1);
      return;
    }
    r := HardSplitPieces(value, cap);
  }

  method PackPieces(units: seq<string>, cap: nat, ghost limit: nat) returns (packed: seq<string>)
    requires cap >= 1 && AtMost(units, limit)
    ensures packed == Pack(units, cap, limit)
    decreases limit, 1
  {
    packed := [];
    var current := "";
    for k := 0 to |units|
      invariant Packing(packed, current) == PackUnits(units[..k], cap, limit)
    {
      assert units[..k + 1][..k] == units[..k];
      ghost var before := Packing(packed, current);
      var pieces := [units[k]];
      if |units[k]| > cap {
        pieces := SplitUnitPieces(units[k], cap);
      }
      for j := 0 to |pieces|
        invariant Packing(packed, current) == AddPieces(before, pieces[..j], cap)
      {
        assert pieces[..j + 1][..j] == pieces[..j];
        var piece := pieces[j];
        if current == "" {
          current := piece;
        } else if |current| + |piece| <= cap {
          current := current + piece;
        } else {
          packed := packed + [current];
          current := piece;
        }
        if |current| > cap {
          var overflow := HardSplitPieces(current, cap);
          packed := packed + overflow[..|overflow| - 1];
          current := overflow[|overflow| - 1];
        }
      }
      assert pieces[..|pieces|] == pieces;
    }
    assert units[..|units|] == units;
    if current != "" {
      packed := packed + [current];
    }
  }

  method SplitSection(text: string, cap: nat) returns (parts: seq<string>)
    requires cap >= 1
    ensures parts == SplitOversize(text, cap)
  {
    if |text| <= cap {
      return [text];
    }
    var paragraphs := Paragraphs(text, 0, 0);
    var packed := PackPieces(paragraphs, cap, MaxLength(paragraphs));
    parts := [];
    for k := 0 to |packed|
      invariant parts == Trimmed(packed[..k])
    {
      assert packed[..k + 1][..k] == packed[..k];
      if Strip(packed[k]) != "" {
        parts := parts + [Strip(packed[k])];
      }
    }
    assert packed[..|packed|] == packed;
  }

  // ---- packing keeps the text and the limit ----

  /** Finished parts are neither empty nor too long, and no part could have taken in the beginning of the
      next one. */
  ghost predicate Tight(parts: seq<string>, cap: nat)
  {
    && (forall i :: 0 <= i < |parts| ==> 0 < |parts[i]| <= cap)
    && forall i :: 0 <= i < |parts| - 1 ==> |parts[i]| + |parts[i + 1]| > cap
  }

  ghost predicate PackingOk(st: Packing, cap: nat)
  {
    |st.current| <= cap && Tight(Finish(st), cap) && (st.packed != [] ==> st.current != "")
  }

  lemma PlaceFirst(st: Packing, piece: string, cap: nat)
    requires PackingOk(st, cap) && |piece| <= cap && st.current == ""
    ensures PackingOk(Place(st, piece, cap), cap)
    ensures Concat(Finish(Place(st, piece, cap))) == Concat(Finish(st)) + piece
  {
    assert Concat([piece]) == piece;
  }

  /** Lengthening the last part, within the limit, keeps the parts tight. */
  lemma PlaceJoined(packed: seq<string>, current: string, piece: string, cap: nat)
    requires Tight(packed + [current], cap) && |current| + |piece| <= cap
    ensures Tight(packed + [current + piece], cap)
    ensures Concat(packed + [current + piece]) == Concat(packed + [current]) + piece
  {
    var a, b := packed + [current], packed + [current + piece];
    assert a[..|packed|] == packed && b[..|packed|] == packed;
    Regroup(Concat(packed), current, piece);
    forall i | 0 <= i < |b| - 1 ensures |b[i]| + |b[i + 1]| > cap {
      assert |a[i]| + |a[i + 1]| > cap;
    }
    forall i | 0 <= i < |b| ensures 0 < |b[i]| <= cap {
      assert 0 < |a[i]| <= cap;
    }
  }

  lemma PlaceNext(parts: seq<string>, piece: string, cap: nat)
    requires Tight(parts, cap) && parts != [] && |piece| <= cap && |parts[|parts| - 1]| + |piece| > cap
    ensures Tight(parts + [piece], cap) && piece != ""
    ensures Concat(parts + [piece]) == Concat(parts) + piece
  {
    assert (parts + [piece])[..|parts|] == parts;
  }

  /** With pieces within the limit the overflow case never arises. */
  lemma AddPieceOk(st: Packing, piece: string, cap: nat)
    requires cap >= 1 && PackingOk(st, cap) && |piece| <= cap
    ensures AddPiece(st, piece, cap) == Place(st, piece, cap)
    ensures PackingOk(AddPiece(st, piece, cap), cap)
    ensures Concat(Finish(AddPiece(st, piece, cap))) == Concat(Finish(st)) + piece
  {
    if st.current == "" {
      PlaceFirst(st, piece, cap);
    } else if |st.current| + |piece| <= cap {
      PlaceJoined(st.packed, st.current, piece, cap);
    } else {
      PlaceNext(st.packed + [st.current], piece, cap);
    }
  }

  lemma Regroup(a: string, b: string, c: string)
    ensures (a + b) + c == a + (b + c)
  {
  }

  lemma {:induction false} AddPiecesOk(st: Packing, pieces: seq<string>, cap: nat)
    requires cap >= 1 && PackingOk(st, cap) && AtMost(pieces, cap)
    ensures PackingOk(AddPieces(st, pieces, cap), cap)
    ensures Concat(Finish(AddPieces(st, pieces, cap))) == Concat(Finish(st)) + Concat(pieces)
  {
    if pieces != [] {
      var front, last := pieces[..|pieces| - 1], pieces[|pieces| - 1];
      assert AtMost(front, cap) && |last| <= cap;
      AddPiecesOk(st, front, cap);
      var before := AddPieces(st, front, cap);
      AddPieceOk(before, last, cap);
      assert AddPieces(st, pieces, cap) == AddPiece(before, last, cap);
      assert Concat(pieces) == Concat(front) + last;
      Regroup(Concat(Finish(st)), Concat(front), last);
    }
  }

  lemma {:induction false} HardSplitOk(value: string, cap: nat)
    requires cap >= 1
    ensures Concat(HardSplit(value, cap)) == value && AtMost(HardSplit(value, cap), cap)
  {
    if |value| > cap {
      HardSplitOk(value[cap..], cap);
      ConcatCons(value[..cap], HardSplit(value[cap..], cap));
      assert value == value[..cap] + value[cap..];
    } else if value != "" {
      assert Concat([value]) == value;
    }
  }

  /** Splitting a unit loses nothing and leaves nothing longer than the limit. */
  lemma {:induction false} SplitUnitOk(value: string, cap: nat)
    requires cap >= 1
    ensures Concat(SplitUnit(value, cap)) == value && AtMost(SplitUnit(value, cap), cap)
    decreases |value|, 0, 0
  {
    if |value| <= cap {
      assert Concat([value]) == value;
    } else {
      var lines, sentences := Lines(value), Sentences(value);
      LinesWhole(value);
      if |lines| > 1 && AtMost(lines, |value| - 1) {
        var parts := PackKeeps(lines, value, cap, |value| - 1);
        SplitAtLines(value, cap, parts);
      } else if |sentences| > 1 && AtMost(sentences, |value| - 1) {
        var parts := PackKeeps(sentences, value, cap, |value| - 1);
        SplitAtSentences(value, cap, parts);
      } else {
        HardSplitOk(value, cap);
        SplitAnywhere(value, cap, HardSplit(value, cap));
      }
    }
  }

  lemma SplitAtLines(value: string, cap: nat, parts: seq<string>)
    requires 1 <= cap < |value| && |Lines(value)| > 1 && AtMost(Lines(value), |value| - 1)
    requires parts == Pack(Lines(value), cap, |value| - 1)
    ensures SplitUnit(value, cap) == parts
  {
  }

  lemma SplitAtSentences(value: string, cap: nat, parts: seq<string>)
    requires 1 <= cap < |value| && !(|Lines(value)| > 1 && AtMost(Lines(value), |value| - 1))
    requires |Sentences(value)| > 1 && AtMost(Sentences(value), |value| - 1)
    requires parts == Pack(Sentences(value), cap, |value| - 1)
    ensures SplitUnit(value, cap) == parts
  {
  }

  lemma SplitAnywhere(value: string, cap: nat, parts: seq<string>)
    requires 1 <= cap < |value| && !(|Lines(value)| > 1 && AtMost(Lines(value), |value| - 1))
    requires !(|Sentences(value)| > 1 && AtMost(Sentences(value), |value| - 1))
    requires parts == HardSplit(value, cap)
    ensures SplitUnit(value, cap) == parts
  {
  }

  lemma {:induction false} PackKeeps(units: seq<string>, text: string, cap: nat, limit: nat) returns (parts: seq<string>)
    requires cap >= 1 && AtMost(units, limit) && Concat(units) == text
    ensures parts == Pack(units, cap, limit) && Concat(parts) == text && AtMost(parts, cap)
    decreases limit, 4, 0
  {
    PackOk(units, cap, limit);
    parts := Pack(units, cap, limit);
  }

  lemma LinesWhole(value: string)
    ensures Concat(Lines(value)) == value && Concat(Sentences(value)) == value
  {
    PiecesWhole(value, LineEnds, 0, 0);
    PiecesWhole(value, SentenceEnds, 0, 0);
  }

  lemma {:induction false} UnitPiecesOk(u: string, cap: nat, limit: nat)
    requires cap >= 1 && |u| <= limit
    ensures Concat(UnitPieces(u, cap, limit)) == u && AtMost(UnitPieces(u, cap, limit), cap)
    decreases limit, 1, 0
  {
    if |u| > cap {
      SplitUnitOk(u, cap);
    } else {
      assert Concat([u]) == u;
    }
  }

  lemma {:induction false} PackUnitsOk(units: seq<string>, cap: nat, limit: nat)
    requires cap >= 1 && AtMost(units, limit)
    ensures PackingOk(PackUnits(units, cap, limit), cap)
    ensures Concat(Finish(PackUnits(units, cap, limit))) == Concat(units)
    decreases limit, 2, |units|
  {
    if units != [] {
      var front, u := units[..|units| - 1], units[|units| - 1];
      PackUnitsOk(front, cap, limit);
      UnitPiecesOk(u, cap, limit);
      AddPiecesOk(PackUnits(front, cap, limit), UnitPieces(u, cap, limit), cap);
    }
  }

  lemma {:induction false} PackOk(units: seq<string>, cap: nat, limit: nat)
    requires cap >= 1 && AtMost(units, limit)
    ensures Tight(Pack(units, cap, limit), cap) && Concat(Pack(units, cap, limit)) == Concat(units)
    ensures AtMost(Pack(units, cap, limit), cap)
    decreases limit, 3, 0
  {
    PackUnitsOk(units, cap, limit);
  }

  // ---- how many parts ----

  lemma {:induction false} TightLength(parts: seq<string>, cap: nat)
    requires Tight(parts, cap)
    ensures (|parts| / 2) * (cap + 1) <= |Concat(parts)|
  {
    if |parts| >= 2 {
      var front := parts[..|parts| - 2];
      assert Tight(front, cap);
      TightLength(front, cap);
      LastTwo(parts);
      assert |parts[|parts| - 2]| + |parts[|parts| - 2 + 1]| > cap;
      OneMorePair(|front|, |parts|, cap + 1, |Concat(front)|, |Concat(parts)|);
    }
  }

  lemma LastTwo(parts: seq<string>)
    requires |parts| >= 2
    ensures |Concat(parts)| == |Concat(parts[..|parts| - 2])| + |parts[|parts| - 2]| + |parts[|parts| - 1]|
  {
    var body := parts[..|parts| - 1];
    assert body[..|body| - 1] == parts[..|parts| - 2];
    assert Concat(body) == Concat(parts[..|parts| - 2]) + parts[|parts| - 2];
  }

  lemma OneMorePair(n: nat, m: nat, d: nat, x: nat, y: nat)
    requires m == n + 2 && (n / 2) * d <= x && x + d <= y
    ensures (m / 2) * d <= y
  {
    assert m / 2 == n / 2 + 1;
    assert (n / 2 + 1) * d == (n / 2) * d + d;
  }

  lemma TightCount(parts: seq<string>, cap: nat)
    requires Tight(parts, cap)
    ensures |parts| <= 2 * (|Concat(parts)| / (cap + 1)) + 1
  {
    TightLength(parts, cap);
    QuotientBound(|parts| / 2, cap + 1, |Concat(parts)|);
  }

  lemma QuotientBound(q: nat, d: nat, n: nat)
    requires d > 0 && q * d <= n
    ensures q <= n / d
  {
    if q > n / d {
      MultiplyBoth(n / d + 1, q, d);
    }
  }

  lemma MultiplyBoth(a: nat, b: nat, d: nat)
    requires a <= b
    ensures a * d <= b * d
  {
  }

  // ---- only whitespace is lost ----

  function Ink(s: string): string
  {
    if s == "" then "" else Ink(s[..|s| - 1]) + if IsSpace(s[|s| - 1]) then "" else [s[|s| - 1]]
  }

  lemma {:induction false} InkAdd(a: string, b: string)
    ensures Ink(a + b) == Ink(a) + Ink(b)
  {
    if b == "" {
      assert a + b == a;
    } else {
      assert (a + b)[..|a + b| - 1] == a + b[..|b| - 1];
      InkAdd(a, b[..|b| - 1]);
    }
  }

  lemma {:induction false} InkTrimLeft(s: string)
    ensures Ink(TrimLeft(s)) == Ink(s)
  {
    if s != "" && IsSpace(s[0]) {
      InkTrimLeft(s[1..]);
      InkAdd([s[0]], s[1..]);
      assert s == [s[0]] + s[1..];
      assert Ink([s[0]]) == "";
    }
  }

  lemma {:induction false} InkTrimRight(s: string)
    ensures Ink(TrimRight(s)) == Ink(s)
  {
    if s != "" && IsSpace(s[|s| - 1]) {
      InkTrimRight(s[..|s| - 1]);
    }
  }

  lemma InkStrip(s: string)
    ensures Ink(Strip(s)) == Ink(s) && |Strip(s)| <= |s|
  {
    InkTrimLeft(s);
    InkTrimRight(TrimLeft(s));
  }

  lemma {:induction false} TrimmedOk(parts: seq<string>, cap: nat)
    requires AtMost(parts, cap)
    ensures Ink(Concat(Trimmed(parts))) == Ink(Concat(parts))
    ensures AtMost(Trimmed(parts), cap) && |Trimmed(parts)| <= |parts|
  {
    if parts != [] {
      var front, last := parts[..|parts| - 1], parts[|parts| - 1];
      TrimmedOk(front, cap);
      InkStrip(last);
      InkAdd(Concat(front), last);
      if Strip(last) != "" {
        InkAdd(Concat(Trimmed(front)), Strip(last));
      }
    }
  }

  lemma PackedText(text: string, cap: nat) returns (packed: seq<string>)
    requires cap >= 1 && |text| > cap
    ensures SplitOversize(text, cap) == Trimmed(packed)
    ensures Concat(packed) == text && Tight(packed, cap) && AtMost(packed, cap)
  {
    var paragraphs := Paragraphs(text, 0, 0);
    packed := Pack(paragraphs, cap, MaxLength(paragraphs));
    ParagraphsWhole(text, 0, 0);
    PackOk(paragraphs, cap, MaxLength(paragraphs));
  }

  /** For every text and limit: no part exceeds the limit, the parts carry exactly the non-whitespace
      characters of the text in order, and there are few of them. */
  lemma SplitterMeetsLimit(text: string, cap: nat)
    requires cap >= 1
    ensures AtMost(SplitOversize(text, cap), cap)
    ensures Ink(Concat(SplitOversize(text, cap))) == Ink(text)
    ensures |SplitOversize(text, cap)| <= 2 * (|text| / (cap + 1)) + 1
  {
    if |text| <= cap {
      WholeText(text, cap);
      QuotientBound(0, cap + 1, |text|);
    } else {
      var packed := PackedText(text, cap);
      TrimmedOk(packed, cap);
      TextCount(packed, text, cap);
    }
  }

  lemma TextCount(parts: seq<string>, text: string, cap: nat)
    requires Tight(parts, cap) && Concat(parts) == text
    ensures |parts| <= 2 * (|text| / (cap + 1)) + 1
  {
    TightCount(parts, cap);
  }

  lemma WholeText(text: string, cap: nat)
    requires 1 <= cap && |text| <= cap
    ensures SplitOversize(text, cap) == [text] && Concat([text]) == text
  {
    assert [text][..0] == [];
  }
}
