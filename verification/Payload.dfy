/** The recall payload as the JSON text an agent receives, and the conservative estimate of its tokens. */
module Payload {
  import opened Text
  import opened Wrappers

  // ---- JSON text ----

  function Digits(n: nat): (r: string)
    ensures r != ""
  {
    if n < 10 then [('0' as int + n) as char] else Digits(n / 10) + [('0' as int + n % 10) as char]
  }

  function HexDigit(n: nat): char
    requires n < 16
  {
    if n < 10 then ('0' as int + n) as char else ('a' as int + n - 10) as char
  }

  function JsonChar(c: char): string
  {
    if c == '"' then "\\\""
    else if c == '\\' then "\\\\"
    else if c == '\n' then "\\n"
    else if c == '\r' then "\\r"
    else if c == '\t' then "\\t"
    else if c == '\U{0008}' then "\\b"
    else if c == '\U{000C}' then "\\f"
    else if c < ' ' then "\\u00" + [HexDigit(c as int / 16), HexDigit(c as int % 16)]
    else [c]
  }

  function JsonBody(s: string): string
  {
    if s == "" then "" else JsonBody(s[..|s| - 1]) + JsonChar(s[|s| - 1])
  }

  function JsonString(s: string): string
  {
    "\"" + JsonBody(s) + "\""
  }

  function JsonBool(b: bool): string
  {
    if b then "true" else "false"
  }

  function JsonOption(s: Option<string>): string
  {
    if s.None? then "null" else JsonString(s.value)
  }

  /** `rest` is the serialised remainder of the claim. */
  datatype Claim = Claim(text: string, rest: string)

  /** `head` and `tail` are the serialised fields before the content and behind the claims; nothing here
      changes them. */
  datatype Item = Item(head: string, content: string, summary: string, claims: seq<Claim>, tail: string, truncated: bool)

  function ClaimJson(c: Claim): string
  {
    "{\"claim\":" + JsonString(c.text) + c.rest + "}"
  }

  function ClaimsJson(claims: seq<Claim>): string
  {
    if claims == [] then ""
    else if |claims| == 1 then ClaimJson(claims[0])
    else ClaimsJson(claims[..|claims| - 1]) + "," + ClaimJson(claims[|claims| - 1])
  }

  function ItemJson(r: Item): string
  {
    "{" + r.head + ",\"content\":" + JsonString(r.content) + ",\"summary\":" + JsonString(r.summary)
    + ",\"matched_claims\":[" + ClaimsJson(r.claims) + "]" + r.tail
    + (if r.truncated then ",\"content_truncated\":true" else "") + "}"
  }

  function ItemsJson(items: seq<Item>): string
  {
    if items == [] then ""
    else if |items| == 1 then ItemJson(items[0])
    else ItemsJson(items[..|items| - 1]) + "," + ItemJson(items[|items| - 1])
  }

  // ---- token estimate ----

  predicate Cjk(c: char)
  {
    '\U{3400}' <= c <= '\U{9FFF}'
  }

  function CjkCount(s: string): (n: nat)
    ensures n <= |s|
  {
    if s == "" then 0 else CjkCount(s[..|s| - 1]) + if Cjk(s[|s| - 1]) then 1 else 0
  }

  /** One token per CJK character, and one per three others, rounded up. */
  function Tokens(s: string): nat
  {
    CjkCount(s) + (|s| - CjkCount(s) + 2) / 3
  }

  method EstimateTokens(serialized: string) returns (tokens: nat)
    ensures tokens == Tokens(serialized)
  {
    var cjk := 0;
    for k := 0 to |serialized|
      invariant cjk == CjkCount(serialized[..k])
    {
      assert serialized[..k + 1][..k] == serialized[..k];
      if Cjk(serialized[k]) {
        cjk := cjk + 1;
      }
    }
    assert serialized[..|serialized|] == serialized;
    tokens := cjk + (|serialized| - cjk + 2) / 3;
  }

  lemma {:induction false} CjkAdd(a: string, b: string)
    ensures CjkCount(a + b) == CjkCount(a) + CjkCount(b)
  {
    if b == "" {
      assert a + b == a;
    } else {
      assert (a + b)[..|a + b| - 1] == a + b[..|b| - 1];
      CjkAdd(a, b[..|b| - 1]);
    }
  }

  predicate Plain(s: string)
  {
    forall i :: 0 <= i < |s| ==> !Cjk(s[i])
  }

  lemma {:induction false} PlainCount(s: string)
    requires Plain(s)
    ensures CjkCount(s) == 0
  {
    if s != "" {
      PlainCount(s[..|s| - 1]);
    }
  }

  lemma {:induction false} DigitsPlain(n: nat)
    ensures CjkCount(Digits(n)) == 0
  {
    if n >= 10 {
      DigitsPlain(n / 10);
    }
  }

  lemma {:induction false} DigitsGrow(m: nat, n: nat)
    requires m <= n
    ensures |Digits(m)| <= |Digits(n)|
  {
    if m >= 10 {
      DigitsGrow(m / 10, n / 10);
    }
  }

  lemma FiveDigits(n: nat)
    requires n < 100000
    ensures |Digits(n)| <= 5
  {
    DigitsGrow(n, 99999);
    assert |Digits(9)| == 1 && |Digits(99)| == 2 && |Digits(999)| == 3 && |Digits(9999)| == 4;
  }

  /** Exchanging a stretch without CJK characters for one at most `extra` characters longer. */
  lemma TokensExchange(a: string, x: string, y: string, b: string, extra: nat)
    requires CjkCount(x) == 0 && CjkCount(y) == 0 && |y| <= |x| + extra
    ensures Tokens(a + y + b) <= Tokens(a + x + b) + (extra + 2) / 3
  {
    CjkAdd(a + x, b);
    CjkAdd(a, x);
    CjkAdd(a + y, b);
    CjkAdd(a, y);
  }

  function CounterText(estimated: nat, truncated: bool): string
  {
    Digits(estimated) + (",\"truncated\":" + JsonBool(truncated) + "}}")
  }

  lemma CounterSize(estimated: nat, truncated: bool)
    requires estimated < 100000
    ensures CjkCount(CounterText(estimated, truncated)) == 0
    ensures |CounterText(estimated, truncated)| <= |CounterText(0, false)| + 4
  {
    var tail := ",\"truncated\":" + JsonBool(truncated) + "}}";
    assert Plain(tail);
    PlainCount(tail);
    DigitsPlain(estimated);
    CjkAdd(Digits(estimated), tail);
    FiveDigits(estimated);
  }

  /** Writing the final counters costs at most two tokens. */
  lemma CountersCost(front: string, estimated: nat, truncated: bool)
    requires estimated < 100000
    ensures Tokens(front + CounterText(estimated, truncated)) <= Tokens(front + CounterText(0, false)) + 2
  {
    CounterSize(estimated, truncated);
    CounterSize(0, false);
    TokensExchange(front, CounterText(0, false), CounterText(estimated, truncated), "", 4);
    assert front + CounterText(0, false) + "" == front + CounterText(0, false);
    assert front + CounterText(estimated, truncated) + "" == front + CounterText(estimated, truncated);
  }

  /** Writing a smaller count costs nothing. */
  lemma CountCost(a: string, m: nat, n: nat, b: string)
    requires m <= n
    ensures Tokens(a + Digits(m) + b) <= Tokens(a + Digits(n) + b)
  {
    DigitsPlain(m);
    DigitsPlain(n);
    DigitsGrow(m, n);
    TokensExchange(a, Digits(n), Digits(m), b, 0);
  }

  /** A payload's text: headers, a count, the body and the counters. */
  function Text4(headers: string, count: nat, body: string, counters: string): string
  {
    headers + Digits(count) + body + counters
  }

  lemma Text4Count(headers: string, m: nat, n: nat, body: string, counters: string)
    requires m <= n
    ensures Tokens(Text4(headers, m, body, counters)) <= Tokens(Text4(headers, n, body, counters))
  {
    CountCost(headers, m, n, body + counters);
    JoinRight(headers + Digits(m), body, counters);
    JoinRight(headers + Digits(n), body, counters);
  }

  lemma JoinRight(a: string, b: string, c: string)
    ensures a + b + c == a + (b + c)
  {
  }

  lemma Text4Counters(headers: string, count: nat, body: string, estimated: nat, truncated: bool)
    requires estimated < 100000
    ensures Tokens(Text4(headers, count, body, CounterText(estimated, truncated)))
         <= Tokens(Text4(headers, count, body, CounterText(0, false))) + 2
  {
    CountersCost(headers + Digits(count) + body, estimated, truncated);
  }

  // ---- shortening ----

  /** The text cut to at most `length` characters, ending in an ellipsis. */
  function Abbreviated(s: string, length: nat): (r: string)
    requires length >= 3
    ensures |r| <= length
  {
    TrimRight(if length - 3 <= |s| then s[..length - 3] else s) + "..."
  }

  function Larger(a: nat, b: nat): nat
  {
    if a < b then b else a
  }

  function ClaimLengths(claims: seq<Claim>): nat
  {
    if claims == [] then 0 else ClaimLengths(claims[..|claims| - 1]) + |claims[|claims| - 1].text|
  }

  function ItemSize(r: Item): nat
  {
    |r.claims| + |r.content| + |r.summary| + ClaimLengths(r.claims)
  }

  /** One shrinking step: drop the last of several claims, else halve the longest text if it exceeds 80
      characters. */
  function ShrinkItem(r: Item): Option<Item>
  {
    if |r.claims| > 1 then Some(r.(claims := r.claims[..|r.claims| - 1], truncated := true))
    else
      var claim := if r.claims == [] then "" else r.claims[0].text;
      if |claim| > |r.content| && |claim| > |r.summary| then
        if |claim| <= 80 then None
        else Some(r.(claims := [r.claims[0].(text := Abbreviated(claim, Larger(80, |claim| / 2)))], truncated := true))
      else if |r.summary| > |r.content| then
        if |r.summary| <= 80 then None
        else Some(r.(summary := Abbreviated(r.summary, Larger(80, |r.summary| / 2)), truncated := true))
      else if |r.content| <= 80 then None
      else Some(r.(content := Abbreviated(r.content, Larger(80, |r.content| / 2)), truncated := true))
  }

  lemma ShrinkItemSmaller(r: Item)
    ensures ShrinkItem(r).Some? ==> ItemSize(ShrinkItem(r).value) < ItemSize(r)
  {
    if |r.claims| == 1 {
      assert r.claims[..0] == [];
    }
  }

  /** At most one claim is left and no text exceeds 80 characters. */
  predicate ItemShort(r: Item)
  {
    |r.claims| <= 1 && |r.content| <= 80 && |r.summary| <= 80 && (r.claims != [] ==> |r.claims[0].text| <= 80)
  }

  /** Shrinking stops exactly there. */
  lemma ShrinkItemStops(r: Item)
    ensures ShrinkItem(r).None? <==> |r.claims| <= 1 && |r.content| <= 80 && |r.summary| <= 80
                                     && (r.claims != [] ==> |r.claims[0].text| <= 80)
  {
  }

  /** A header halved, down to 4 characters. */
  function ShrinkHeader(s: string): Option<string>
  {
    if |s| <= 4 then None else Some(Abbreviated(s, Larger(4, |s| / 2)))
  }
}
