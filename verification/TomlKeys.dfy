/** Finding, inserting, replacing and removing a key of a TOML file's root table. */
module TomlKeys {
  import opened TomlEdit
  import opened Wrappers

  datatype Located = Located(value: string, start: nat, end: nat)

  // ---- lines ----

  function LineEnd(text: string, i: nat): (e: nat)
    requires i <= |text|
    ensures i <= e <= |text| && (e < |text| ==> text[e] == '\n')
    ensures forall k :: i <= k < e ==> text[k] != '\n'
    decreases |text| - i
  {
    if i < |text| && text[i] != '\n' then LineEnd(text, i + 1) else i
  }

  /** Where the next line starts. */
  function NextLine(text: string, i: nat): (n: nat)
    requires i < |text|
    ensures i < n <= |text|
  {
    if LineEnd(text, i) == |text| then |text| else LineEnd(text, i) + 1
  }

  predicate Header(line: string)
  {
    StartsWith(TrimStart(line), '[')
  }

  predicate Comment(line: string)
  {
    StartsWith(TrimStart(line), '#')
  }

  /** The length of what follows `key =`, when the line starts that way. */
  function AfterKey(line: string, key: string): (n: Option<nat>)
    ensures n.Some? ==> n.value <= |line|
  {
    var trimmed := TrimStart(line);
    if !(key <= trimmed) then None
    else
      var rest := TrimStart(trimmed[|key|..]);
      if StartsWith(rest, '=') then Some(|rest| - 1) else None
  }

  // ---- locating ----

  /** The assignment on the line at `index`, if that line assigns the key. */
  function LineMatch(text: string, key: string, index: nat): Option<Located>
    requires index <= |text|
  {
    var e := LineEnd(text, index);
    var after := AfterKey(text[index..e], key);
    if Comment(text[index..e]) || after.None? then None
    else
      var valueStart := e - after.value;
      var ends := ScanValue(text, valueStart);
      Some(Located(Trim(text[valueStart..ends.0]), index, ends.1))
  }

  function LocateFrom(text: string, key: string, index: nat, inTable: bool): Option<Located>
    requires index <= |text|
    decreases |text| - index
  {
    if index == |text| then None
    else if Header(text[index..LineEnd(text, index)]) then LocateFrom(text, key, NextLine(text, index), true)
    else if !inTable && LineMatch(text, key, index).Some? then LineMatch(text, key, index)
    else LocateFrom(text, key, NextLine(text, index), inTable)
  }

  function Locate(text: string, key: string): Option<Located>
  {
    LocateFrom(text, key, 0, false)
  }

  method MatchLine(text: string, key: string, index: nat) returns (found: Option<Located>)
    requires index <= |text|
    ensures found == LineMatch(text, key, index)
  {
    var lineEnd := LineEnd(text, index);
    var line := text[index..lineEnd];
    if Comment(line) {
      return None;
    }
    var after := AfterKey(line, key);
    if after.None? {
      return None;
    }
    var valueStart := lineEnd - after.value;
    var valueEnd, blockEnd := ScanTomlValue(text, valueStart);
    return Some(Located(Trim(text[valueStart..valueEnd]), index, blockEnd));
  }

  method LocateRootKey(text: string, key: string) returns (found: Option<Located>)
    ensures found == Locate(text, key)
  {
    var index, inTable := 0, false;
    while index < |text|
      invariant index <= |text|
      invariant LocateFrom(text, key, index, inTable) == Locate(text, key)
    {
      if Header(text[index..LineEnd(text, index)]) {
        inTable := true;
      } else if !inTable {
        found := MatchLine(text, key, index);
        if found.Some? {
          return;
        }
      }
      index := NextLine(text, index);
    }
    return None;
  }

  function ReadRootArray(text: string, key: string): Option<seq<string>>
  {
    var found := Locate(text, key);
    if found.None? then None else ParseArray(found.value.value)
  }

  // ---- editing ----

  /** Where the first line that starts a table begins. */
  function FirstHeader(text: string, index: nat): (at: Option<nat>)
    requires index <= |text|
    ensures at.Some? ==> index <= at.value < |text|
    decreases |text| - index
  {
    if index == |text| then None
    else if Header(text[index..NextLine(text, index)]) then Some(index)
    else FirstHeader(text, NextLine(text, index))
  }

  /** The text with its last line ended. */
  function Ended(text: string): string
  {
    if text != "" && text[|text| - 1] != '\n' then text + "\n" else text
  }

  function Assignment(key: string, literal: string): string
  {
    key + " = " + literal
  }

  function Insert(text: string, key: string, literal: string): string
  {
    var at := FirstHeader(text, 0);
    if at.Some? then Ended(text[..at.value]) + (Assignment(key, literal) + "\n") + "\n" + text[at.value..]
    else Ended(text) + (Assignment(key, literal) + "\n")
  }

  method InsertRootKey(text: string, key: string, literal: string) returns (out: string)
    ensures out == Insert(text, key, literal)
  {
    var line := Assignment(key, literal) + "\n";
    var offset := 0;
    while offset < |text|
      invariant offset <= |text|
      invariant FirstHeader(text, offset) == FirstHeader(text, 0)
    {
      if Header(text[offset..NextLine(text, offset)]) {
        out := text[..offset];
        if out != "" && out[|out| - 1] != '\n' {
          out := out + "\n";
        }
        out := out + line + "\n" + text[offset..];
        return;
      }
      offset := NextLine(text, offset);
    }
    out := text;
    if out != "" && out[|out| - 1] != '\n' {
      out := out + "\n";
    }
    out := out + line;
  }

  predicate Fits(text: string, l: Located)
  {
    l.start <= l.end <= |text|
  }

  lemma {:induction false} LocatedFits(text: string, key: string, index: nat, inTable: bool)
    requires index <= |text|
    ensures var found := LocateFrom(text, key, index, inTable);
            found.Some? ==> Fits(text, found.value) && index <= found.value.start
    decreases |text| - index
  {
    if index < |text| {
      LocatedFits(text, key, NextLine(text, index), true);
      LocatedFits(text, key, NextLine(text, index), inTable);
    }
  }

  function Upsert(text: string, key: string, literal: string): (string, bool)
  {
    LocatedFits(text, key, 0, false);
    var found := Locate(text, key);
    if found.None? then (text, false)
    else (text[..found.value.start] + Assignment(key, literal) + text[found.value.end..], true)
  }

  method UpsertRootArray(text: string, key: string, literal: string) returns (out: string, replaced: bool)
    ensures (out, replaced) == Upsert(text, key, literal)
  {
    var found := LocateRootKey(text, key);
    if found.None? {
      return text, false;
    }
    LocatedFits(text, key, 0, false);
    return text[..found.value.start] + Assignment(key, literal) + text[found.value.end..], true;
  }

  /** One left-to-right replacement of every run of three line feeds by two. */
  function Thinned(s: string): (r: string)
    ensures |r| <= |s|
  {
    if |s| < 3 then s
    else if s[..3] == "\n\n\n" then "\n\n" + Thinned(s[3..])
    else [s[0]] + Thinned(s[1..])
  }

  predicate HasTriple(s: string)
  {
    exists i :: 0 <= i && i + 3 <= |s| && Triple(s, i)
  }

  predicate Triple(s: string, i: int)
    requires 0 <= i && i + 3 <= |s|
  {
    s[i] == '\n' && s[i + 1] == '\n' && s[i + 2] == '\n'
  }

  lemma {:induction false} ThinnedShorter(s: string, i: nat)
    requires i + 3 <= |s| && Triple(s, i)
    ensures |Thinned(s)| < |s|
    decreases |s|
  {
    assert i == 0 ==> s[..3] == "\n\n\n";
    if s[..3] != "\n\n\n" {
      assert Triple(s[1..], i - 1);
      ThinnedShorter(s[1..], i - 1);
    }
  }

  /** Thinning until no run of three is left. */
  function Collapsed(s: string): string
    decreases |s|
  {
    if HasTriple(s) then
      assert |Thinned(s)| < |s| by {
        var i :| 0 <= i && i + 3 <= |s| && Triple(s, i);
        ThinnedShorter(s, i);
      }
      Collapsed(Thinned(s))
    else s
  }

  function WithoutLineFeed(s: string): string
  {
    if StartsWith(s, '\n') then s[1..] else s
  }

  function Remove(text: string, key: string): string
  {
    LocatedFits(text, key, 0, false);
    var found := Locate(text, key);
    if found.None? then text else Collapsed(text[..found.value.start] + WithoutLineFeed(text[found.value.end..]))
  }

  method RemoveRootKey(text: string, key: string) returns (out: string)
    ensures out == Remove(text, key)
  {
    var found := LocateRootKey(text, key);
    if found.None? {
      return text;
    }
    LocatedFits(text, key, 0, false);
    out := text[..found.value.start] + WithoutLineFeed(text[found.value.end..]);
    ghost var whole := out;
    while HasTriple(out)
      invariant Collapsed(out) == Collapsed(whole)
      decreases |out|
    {
      ghost var i :| 0 <= i && i + 3 <= |out| && Triple(out, i);
      ThinnedShorter(out, i);
      out := Thinned(out);
    }
  }

  // ---- lines that neither start a table nor assign the key ----

  /** From line start `i` to line start `n` no line starts a table or assigns the key. */
  ghost predicate QuietTo(text: string, key: string, i: nat, n: nat)
    requires i <= n <= |text|
    decreases n - i
  {
    i == n
    || (LineEnd(text, i) < n && !Header(text[i..LineEnd(text, i)]) && LineMatch(text, key, i).None?
        && QuietTo(text, key, LineEnd(text, i) + 1, n))
  }

  lemma {:induction false} QuietSkips(text: string, key: string, i: nat, n: nat)
    requires i <= n <= |text| && QuietTo(text, key, i, n)
    ensures LocateFrom(text, key, i, false) == LocateFrom(text, key, n, false)
    decreases n - i
  {
    if i < n {
      QuietSkips(text, key, LineEnd(text, i) + 1, n);
    }
  }

  lemma SameLine(t: string, u: string, i: nat, n: nat)
    requires i <= n <= |t| && n <= |u| && t[..n] == u[..n] && LineEnd(t, i) < n
    ensures LineEnd(u, i) == LineEnd(t, i) && t[i..LineEnd(t, i)] == u[i..LineEnd(t, i)]
  {
    var d, e := LineEnd(t, i), LineEnd(u, i);
    assert t[..n][d] == u[..n][d];
    assert forall k :: i <= k < d ==> t[k] == t[..n][k] == u[..n][k] == u[k];
    assert t[i..d] == t[..n][i..d] && u[i..d] == u[..n][i..d];
  }

  lemma LineDecides(t: string, u: string, key: string, i: nat, n: nat)
    requires i <= n <= |t| && n <= |u| && t[..n] == u[..n] && LineEnd(t, i) < n
    ensures LineMatch(u, key, i).None? <==> LineMatch(t, key, i).None?
    ensures Header(u[i..LineEnd(u, i)]) <==> Header(t[i..LineEnd(t, i)])
  {
    SameLine(t, u, i, n);
  }

  lemma {:induction false} QuietCarries(t: string, u: string, key: string, i: nat, n: nat)
    requires i <= n <= |t| && n <= |u| && t[..n] == u[..n] && QuietTo(t, key, i, n)
    ensures QuietTo(u, key, i, n)
    decreases n - i
  {
    if i < n {
      SameLine(t, u, i, n);
      LineDecides(t, u, key, i, n);
      QuietCarries(t, u, key, LineEnd(t, i) + 1, n);
    }
  }

  /** Inside a table nothing is found. */
  lemma {:induction false} TableHides(text: string, key: string, i: nat)
    requires i <= |text|
    ensures LocateFrom(text, key, i, true).None?
    decreases |text| - i
  {
    if i < |text| {
      TableHides(text, key, NextLine(text, i));
    }
  }

  /** All lines before a found assignment are quiet. */
  lemma {:induction false} FoundQuiet(text: string, key: string, i: nat)
    requires i <= |text| && LocateFrom(text, key, i, false).Some?
    ensures var l := LocateFrom(text, key, i, false).value;
            i <= l.start <= |text| && QuietTo(text, key, i, l.start) && LineMatch(text, key, l.start) == Some(l)
    decreases |text| - i
  {
    TableHides(text, key, NextLine(text, i));
    if LineMatch(text, key, i).None? || Header(text[i..LineEnd(text, i)]) {
      FoundQuiet(text, key, NextLine(text, i));
    }
  }

  lemma {:induction false} TrimStartAdd(s: string)
    ensures Header(s + "\n") <==> Header(s)
  {
    if s == "" {
      assert s + "\n" == "\n" && "\n"[1..] == "";
    } else {
      assert (s + "\n")[1..] == s[1..] + "\n";
      if White(s[0]) {
        TrimStartAdd(s[1..]);
      }
    }
  }

  lemma RawHeader(text: string, i: nat)
    requires i < |text|
    ensures Header(text[i..NextLine(text, i)]) <==> Header(text[i..LineEnd(text, i)])
  {
    var e := LineEnd(text, i);
    if e < |text| {
      assert text[i..e + 1] == text[i..e] + "\n";
      TrimStartAdd(text[i..e]);
    }
  }

  /** If the key is absent, all lines before the first table are quiet. */
  lemma {:induction false} AbsentQuiet(text: string, key: string, i: nat)
    requires i <= |text| && LocateFrom(text, key, i, false).None? && FirstHeader(text, i).Some?
    ensures QuietTo(text, key, i, FirstHeader(text, i).value)
    decreases |text| - i
  {
    RawHeader(text, i);
    if !Header(text[i..NextLine(text, i)]) {
      AbsentQuiet(text, key, NextLine(text, i));
    }
  }
}
