/** Surgical edits of a TOML file's root keys: the file is never parsed as a whole, so comments and layout
    stay. Text is a sequence of characters. */
module TomlEdit {
  import opened Wrappers

  /** Characters with the Unicode property White_Space, which trimming removes. */
  predicate White(c: char)
  {
    '\t' <= c <= '\r' || c == ' ' || c == '\U{0085}' || c == '\U{00A0}' || c == '\U{1680}' || '\U{2000}' <= c <= '\U{200A}'
    || c == '\U{2028}' || c == '\U{2029}' || c == '\U{202F}' || c == '\U{205F}' || c == '\U{3000}'
  }

  function TrimStart(s: string): (r: string)
    ensures |r| <= |s|
  {
    if s != "" && White(s[0]) then TrimStart(s[1..]) else s
  }

  function TrimEnd(s: string): (r: string)
    ensures |r| <= |s|
  {
    if s != "" && White(s[|s| - 1]) then TrimEnd(s[..|s| - 1]) else s
  }

  function Trim(s: string): string
  {
    TrimEnd(TrimStart(s))
  }

  predicate StartsWith(s: string, c: char)
  {
    s != "" && s[0] == c
  }

  // ---- literals ----

  function EscapeChar(c: char): string
  {
    if c == '\\' then "\\\\"
    else if c == '"' then "\\\""
    else if c == '\n' then "\\n"
    else if c == '\r' then "\\r"
    else if c == '\t' then "\\t"
    else [c]
  }

  function Escape(value: string): string
  {
    if value == "" then "" else EscapeChar(value[0]) + Escape(value[1..])
  }

  function StringLiteral(value: string): string
  {
    "\"" + Escape(value) + "\""
  }

  /** The rendered items, separated by a comma and a space. */
  function Items(items: seq<string>): string
  {
    if items == [] then ""
    else if |items| == 1 then StringLiteral(items[0])
    else StringLiteral(items[0]) + (", " + Items(items[1..]))
  }

  function ArrayLiteral(items: seq<string>): string
  {
    "[" + Items(items) + "]"
  }

  method RenderString(value: string) returns (out: string)
    ensures out == StringLiteral(value)
  {
    out := "\"";
    for k := 0 to |value|
      invariant out + Escape(value[k..]) == "\"" + Escape(value)
    {
      assert value[k..][1..] == value[k + 1..];
      ghost var before := out;
      out := out + EscapeChar(value[k]);
      assert out + Escape(value[k + 1..]) == before + (EscapeChar(value[k]) + Escape(value[k + 1..]));
    }
    assert out + Escape("") == out;
    out := out + "\"";
  }

  // ---- reading an array of strings ----

  datatype Reading = Reading(items: seq<string>, current: string, inString: bool, escape: bool)

  function Unescape(c: char): char
  {
    if c == 'n' then '\n' else if c == 'r' then '\r' else if c == 't' then '\t' else c
  }

  function ReadChar(st: Reading, c: char): Reading
  {
    if st.escape then st.(current := st.current + [Unescape(c)], escape := false)
    else if c == '\\' && st.inString then st.(escape := true)
    else if c == '"' then
      if st.inString then Reading(st.items + [st.current], "", false, false) else st.(inString := true)
    else if st.inString then st.(current := st.current + [c])
    else st
  }

  function ReadChars(st: Reading, s: string): Reading
    decreases |s|
  {
    if s == "" then st else ReadChars(ReadChar(st, s[0]), s[1..])
  }

  function ParseArray(value: string): Option<seq<string>>
  {
    var t := Trim(value);
    if !StartsWith(t, '[') || t[|t| - 1] != ']' || |t| < 2 then None
    else Some(ReadChars(Reading([], "", false, false), t[1..|t| - 1]).items)
  }

  method ParseStringArray(value: string) returns (result: Option<seq<string>>)
    ensures result == ParseArray(value)
  {
    var t := Trim(value);
    if !StartsWith(t, '[') || t[|t| - 1] != ']' || |t| < 2 {
      return None;
    }
    var inner := t[1..|t| - 1];
    var items: seq<string>, current, inString, escape := [], "", false, false;
    for k := 0 to |inner|
      invariant ReadChars(Reading(items, current, inString, escape), inner[k..])
             == ReadChars(Reading([], "", false, false), inner)
    {
      assert inner[k..][1..] == inner[k + 1..];
      var c := inner[k];
      if escape {
        current := current + [Unescape(c)];
        escape := false;
      } else if c == '\\' && inString {
        escape := true;
      } else if c == '"' {
        inString := !inString;
        if !inString {
          items := items + [current];
          current := "";
        }
      } else if inString {
        current := current + [c];
      }
    }
    return Some(items);
  }

  lemma {:induction false} ReadAppend(st: Reading, a: string, b: string)
    ensures ReadChars(st, a + b) == ReadChars(ReadChars(st, a), b)
    decreases |a|
  {
    if a == "" {
      assert a + b == b;
    } else {
      assert (a + b)[1..] == a[1..] + b;
      ReadAppend(ReadChar(st, a[0]), a[1..], b);
    }
  }

  lemma ReadEscapedChar(st: Reading, c: char)
    requires st.inString && !st.escape
    ensures ReadChars(st, EscapeChar(c)) == st.(current := st.current + [c])
  {
    var e := EscapeChar(c);
    if |e| == 2 {
      assert e[1..][1..] == "";
      assert ReadChars(st, e) == ReadChars(ReadChar(st, e[0]), e[1..]);
      assert ReadChars(st.(escape := true), e[1..]) == ReadChars(ReadChar(st.(escape := true), e[1]), "");
    }
  }

  lemma {:induction false} ReadEscaped(st: Reading, value: string)
    requires st.inString && !st.escape
    ensures ReadChars(st, Escape(value)) == st.(current := st.current + value)
    decreases |value|
  {
    if value != "" {
      ReadEscapedChar(st, value[0]);
      ReadAppend(st, EscapeChar(value[0]), Escape(value[1..]));
      ReadEscaped(st.(current := st.current + [value[0]]), value[1..]);
      assert st.current + value == st.current + [value[0]] + value[1..];
    } else {
      assert st.current + value == st.current;
    }
  }

  lemma ReadString(items: seq<string>, value: string)
    ensures ReadChars(Reading(items, "", false, false), StringLiteral(value)) == Reading(items + [value], "", false, false)
  {
    var st := Reading(items, "", false, false);
    ReadAppend(st, "\"" + Escape(value), "\"");
    ReadAppend(st, "\"", Escape(value));
    assert "\""[1..] == "";
    assert ReadChars(st, "\"") == Reading(items, "", true, false);
    ReadEscaped(Reading(items, "", true, false), value);
    assert "" + value == value;
  }

  lemma ReadSeparator(st: Reading)
    requires !st.inString && !st.escape
    ensures ReadChars(st, ", ") == st
  {
    var s := ", ";
    assert s[1..] == " " && " "[1..] == "";
    assert ReadChar(st, ',') == st && ReadChar(st, ' ') == st;
    assert ReadChars(st, " ") == st;
  }

  lemma {:induction false} ReadItems(before: seq<string>, items: seq<string>)
    ensures ReadChars(Reading(before, "", false, false), Items(items)) == Reading(before + items, "", false, false)
    decreases |items|
  {
    if items == [] {
      assert before + items == before;
    } else {
      ReadString(before, items[0]);
      if |items| == 1 {
        assert before + items == before + [items[0]];
      } else {
        var st := Reading(before + [items[0]], "", false, false);
        ReadAppend(Reading(before, "", false, false), StringLiteral(items[0]), ", " + Items(items[1..]));
        ReadAppend(st, ", ", Items(items[1..]));
        ReadSeparator(st);
        ReadItems(before + [items[0]], items[1..]);
        assert before + items == before + [items[0]] + items[1..];
      }
    }
  }

  /** Printing a list of strings and reading it back returns the list, whatever the strings hold. */
  lemma ParseOfLiteral(items: seq<string>)
    ensures ParseArray(ArrayLiteral(items)) == Some(items)
  {
    var t := ArrayLiteral(items);
    assert Trim(t) == t;
    assert t[1..|t| - 1] == Items(items);
    ReadItems([], items);
    assert [] + items == items;
  }

  // ---- scanning a value ----

  /** Bracket depth and string state. */
  datatype Quote = Quote(depth: int, inString: bool, escape: bool)

  /** The state after one more character, or `None` where the value ends. */
  function Step(q: Quote, c: char): Option<Quote>
  {
    if q.escape then Some(q.(escape := false))
    else if q.inString then Some(Quote(q.depth, c != '"', c == '\\'))
    else if c == ']' && q.depth - 1 <= 0 then None
    else if (c == '\n' || c == '#') && q.depth <= 0 then None
    else Some(Quote(if c == '[' then q.depth + 1 else if c == ']' then q.depth - 1 else q.depth, c == '"', false))
  }

  /** The end of the value and the end of what belongs to it, scanning from `index`. */
  function ScanFrom(text: string, index: nat, q: Quote, last: nat): (r: (nat, nat))
    requires last <= index <= |text|
    ensures last <= r.0 <= r.1 <= |text|
    decreases |text| - index
  {
    if index == |text| then (last, |text|)
    else
      var c := text[index];
      match Step(q, c)
      case None => if c == ']' then (index + 1, index + 1) else (last, index)
      case Some(next) => ScanFrom(text, index + 1, next, if q.escape || White(c) then last else index + 1)
  }

  function ScanValue(text: string, start: nat): (r: (nat, nat))
    requires start <= |text|
    ensures start <= r.0 <= r.1 <= |text|
  {
    ScanFrom(text, start, Quote(0, false, false), start)
  }

  method ScanTomlValue(text: string, start: nat) returns (valueEnd: nat, blockEnd: nat)
    requires start <= |text|
    ensures (valueEnd, blockEnd) == ScanValue(text, start)
  {
    var depth, inString, escape := 0, false, false;
    var index: nat, last: nat := start, start;
    while index < |text|
      invariant last <= index <= |text|
      invariant ScanFrom(text, index, Quote(depth, inString, escape), last) == ScanValue(text, start)
    {
      var c := text[index];
      if escape {
        escape := false;
        index := index + 1;
        continue;
      }
      if inString {
        if c == '\\' {
          escape := true;
        } else if c == '"' {
          inString := false;
        }
      } else if c == '"' {
        inString := true;
      } else if c == '[' {
        depth := depth + 1;
      } else if c == ']' {
        depth := depth - 1;
        if depth <= 0 {
          return index + 1, index + 1;
        }
      } else if (c == '\n' || c == '#') && depth <= 0 {
        return last, index;
      }
      if !White(c) {
        last := index + 1;
      }
      index := index + 1;
    }
    return last, |text|;
  }

  /** The state after a stretch of text, or `None` if the value ends within it. */
  function Over(q: Quote, s: string): Option<Quote>
    decreases |s|
  {
    if s == "" then Some(q)
    else
      match Step(q, s[0])
      case None => None
      case Some(next) => Over(next, s[1..])
  }

  lemma {:induction false} OverAppend(q: Quote, a: string, b: string)
    requires Over(q, a).Some?
    ensures Over(q, a + b) == Over(Over(q, a).value, b)
    decreases |a|
  {
    if a == "" {
      assert a + b == b;
    } else {
      assert (a + b)[1..] == a[1..] + b;
      OverAppend(Step(q, a[0]).value, a[1..], b);
    }
  }

  lemma OverEscapedChar(q: Quote, c: char)
    requires q.inString && !q.escape
    ensures Over(q, EscapeChar(c)) == Some(q)
  {
    var e := EscapeChar(c);
    if |e| == 2 {
      assert e[1..][1..] == "";
      assert Over(q, e) == Over(q.(escape := true), e[1..]);
      assert Step(q.(escape := true), e[1]) == Some(q);
      assert Over(q.(escape := true), e[1..]) == Over(q, "");
    }
  }

  lemma {:induction false} OverEscaped(q: Quote, value: string)
    requires q.inString && !q.escape
    ensures Over(q, Escape(value)) == Some(q)
    decreases |value|
  {
    if value != "" {
      OverEscapedChar(q, value[0]);
      OverAppend(q, EscapeChar(value[0]), Escape(value[1..]));
      OverEscaped(q, value[1..]);
    }
  }

  lemma OverString(depth: int, value: string)
    ensures Over(Quote(depth, false, false), StringLiteral(value)) == Some(Quote(depth, false, false))
  {
    var q, inside := Quote(depth, false, false), Quote(depth, true, false);
    assert "\""[1..] == "";
    assert Over(q, "\"") == Some(inside) && Over(inside, "\"") == Some(q);
    OverEscaped(inside, value);
    OverAppend(q, "\"", Escape(value));
    OverAppend(q, "\"" + Escape(value), "\"");
  }

  lemma OverSeparator(q: Quote)
    requires q == Quote(1, false, false)
    ensures Over(q, ", ") == Some(q)
  {
    var s := ", ";
    assert s[1..] == " " && " "[1..] == "";
    assert Step(q, ',') == Some(q) && Step(q, ' ') == Some(q);
    assert Over(q, " ") == Some(q);
  }

  lemma {:induction false} OverItems(items: seq<string>)
    ensures Over(Quote(1, false, false), Items(items)) == Some(Quote(1, false, false))
    decreases |items|
  {
    var q := Quote(1, false, false);
    if items != [] {
      OverString(1, items[0]);
      if |items| > 1 {
        OverAppend(q, StringLiteral(items[0]), ", " + Items(items[1..]));
        OverSeparator(q);
        OverAppend(q, ", ", Items(items[1..]));
        OverItems(items[1..]);
      }
    }
  }

  /** `part` stands at position `i`. */
  predicate At(text: string, i: nat, part: string)
  {
    i + |part| <= |text| && text[i..i + |part|] == part
  }

  lemma AtParts(text: string, i: nat, a: string, b: string)
    requires At(text, i, a + b)
    ensures At(text, i, a) && At(text, i + |a|, b)
  {
    assert text[i..i + |a|] == text[i..i + |a + b|][..|a|];
    assert text[i + |a|..i + |a| + |b|] == text[i..i + |a + b|][|a|..];
  }

  lemma AtFirst(text: string, i: nat, part: string)
    requires At(text, i, part) && part != ""
    ensures i < |text| && text[i] == part[0]
    ensures At(text, i + 1, part[1..])
  {
    assert text[i..i + |part|][0] == text[i];
    assert text[i + 1..i + |part|] == text[i..i + |part|][1..];
  }

  lemma {:induction false} ScanOver(text: string, i: nat, part: string, q: Quote, last: nat) returns (end: nat)
    requires last <= i && At(text, i, part) && Over(q, part).Some?
    ensures end <= i + |part|
    ensures ScanFrom(text, i, q, last) == ScanFrom(text, i + |part|, Over(q, part).value, end)
    decreases |part|
  {
    if part == "" {
      end := last;
    } else {
      AtFirst(text, i, part);
      end := ScanOver(text, i + 1, part[1..], Step(q, part[0]).value, if q.escape || White(part[0]) then last else i + 1);
    }
  }

  /** Scanning an array literal ends right behind it, whatever brackets, quotes or number signs its strings
      hold and whatever follows. */
  lemma ScanArray(text: string, i: nat, items: seq<string>, last: nat)
    requires last <= i && At(text, i, ArrayLiteral(items))
    ensures ScanFrom(text, i, Quote(0, false, false), last) == (i + |ArrayLiteral(items)|, i + |ArrayLiteral(items)|)
  {
    ArrayParts(text, i, items);
    OverItems(items);
    ScanBrackets(text, i, Items(items), last);
  }

  /** The scan enters at a bracket, passes over the items and stops behind the closing bracket. */
  lemma ScanBrackets(text: string, i: nat, body: string, last: nat)
    requires last <= i && i + |body| + 1 < |text| && text[i] == '[' && At(text, i + 1, body)
    requires text[i + 1 + |body|] == ']' && Over(Quote(1, false, false), body) == Some(Quote(1, false, false))
    ensures ScanFrom(text, i, Quote(0, false, false), last) == (i + |body| + 2, i + |body| + 2)
  {
    var end := ScanOver(text, i + 1, body, Quote(1, false, false), i + 1);
  }

  lemma ArrayParts(text: string, i: nat, items: seq<string>)
    requires At(text, i, ArrayLiteral(items))
    ensures |ArrayLiteral(items)| == |Items(items)| + 2 && i + |Items(items)| + 1 < |text|
    ensures text[i] == '[' && At(text, i + 1, Items(items)) && text[i + 1 + |Items(items)|] == ']'
  {
    AtParts(text, i, "[" + Items(items), "]");
    AtParts(text, i, "[", Items(items));
    AtFirst(text, i, "[");
    AtFirst(text, i + 1 + |Items(items)|, "]");
  }
}
