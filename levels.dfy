/** Log levels (levels.go): four severities whose integer values double as
    ANSI colour codes, a 3-character display/wire token per level, and the
    JSON encoding and decoding of a level. */
module Levels {
  import opened Wrappers

  /** The closed set of levels; unknown levels are unrepresentable. */
  datatype Level = DBG | INF | WRN | ERR

  /** The Go integer value of each level constant, which is also the ANSI
      colour number used by the shell handlers. */
  function Code(l: Level): (c: int)
    ensures 30 <= c < 35
    ensures c != 32
  {
    match l
    case DBG => 30
    case INF => 34
    case WRN => 33
    case ERR => 31
  }

  /** The four constants are pairwise distinct. */
  lemma CodeInjective(a: Level, b: Level)
    ensures Code(a) == Code(b) <==> a == b
  {
  }

  /** The `levels` array: 35 slots indexed by level value, the slots of the
      four constants holding their tokens and every other slot empty. */
  function LevelTable(): (t: seq<string>)
    ensures |t| == 35
    ensures t[30] == "DBG" && t[34] == "INF" && t[33] == "WRN" && t[31] == "ERR"
    ensures forall i :: 0 <= i < 35 && i !in {30, 31, 33, 34} ==> t[i] == ""
  {
    seq(35, i =>
      if i == 30 then "DBG"
      else if i == 34 then "INF"
      else if i == 33 then "WRN"
      else if i == 31 then "ERR"
      else "")
  }

  /** The `reverse` map from tokens back to levels, built from LevelTable. */
  const Reverse: map<string, Level> :=
    map[LevelTable()[Code(DBG)] := DBG,
        LevelTable()[Code(INF)] := INF,
        LevelTable()[Code(WRN)] := WRN,
        LevelTable()[Code(ERR)] := ERR]

  /** Level.String: a lookup in the `levels` table. */
  function String(l: Level): (s: string)
    ensures |s| == 3
    ensures l == DBG ==> s == "DBG"
    ensures l == INF ==> s == "INF"
    ensures l == WRN ==> s == "WRN"
    ensures l == ERR ==> s == "ERR"
  {
    LevelTable()[Code(l)]
  }

  /** `reverse` inverts `levels` on the four levels, and holds nothing else. */
  lemma ReverseInvertsTable()
    ensures Reverse.Keys == {"DBG", "INF", "WRN", "ERR"}
    ensures forall l: Level :: String(l) in Reverse && Reverse[String(l)] == l
    ensures forall s :: s in Reverse ==> String(Reverse[s]) == s
  {
    assert String(DBG) == "DBG" && String(INF) == "INF";
    assert String(WRN) == "WRN" && String(ERR) == "ERR";
  }

  /** Level.MarshalJSON: the token in one pair of double quotes; the error
      result is always nil. */
  function MarshalJSON(l: Level): (r: (string, Option<Error>))
    ensures r.1 == None
    ensures |r.0| == 5 && r.0[0] == '"' && r.0[4] == '"' && r.0[1..4] == String(l)
    ensures multiset(r.0)['"'] == 2
  {
    QuoteCount(LevelTable()[Code(l)]);
    ("\"" + LevelTable()[Code(l)] + "\"", None)
  }

  /** Wrapping a quote-free token in quotes gives exactly two quotes. */
  lemma QuoteCount(tok: string)
    requires '"' !in tok
    ensures multiset("\"" + tok + "\"")['"'] == 2
  {
    assert multiset("\"" + tok + "\"") == multiset("\"") + multiset(tok) + multiset("\"");
  }

  /** The error UnmarshalJSON reports for an unknown token. */
  const InvalidLevel: Error := Error("log: invalid level")

  /** A run of n double-quote characters. */
  function Quotes(n: nat): (q: string)
    ensures |q| == n && forall i :: 0 <= i < n ==> q[i] == '"'
  {
    seq(n, _ => '"')
  }

  /** One more quote, at either end of a run. */
  lemma QuotesOneMore(n: nat)
    ensures Quotes(n + 1) == ['"'] + Quotes(n) == Quotes(n) + ['"']
  {
  }

  /** bytes.TrimLeft with cut-set `"`: drops every leading quote. */
  function TrimLeft(s: string): (r: string)
    ensures |r| <= |s| && s == Quotes(|s| - |r|) + r
    ensures r == [] || r[0] != '"'
  {
    if |s| > 0 && s[0] == '"' then
      var r := TrimLeft(s[1..]);
      QuotesOneMore(|s| - 1 - |r|);
      r
    else
      s
  }

  /** bytes.TrimRight with cut-set `"`: drops every trailing quote. */
  function TrimRight(s: string): (r: string)
    ensures |r| <= |s| && s == r + Quotes(|s| - |r|)
    ensures r == [] || r[|r| - 1] != '"'
  {
    if |s| > 0 && s[|s| - 1] == '"' then
      var r := TrimRight(s[..|s| - 1]);
      QuotesOneMore(|s| - 1 - |r|);
      r
    else
      s
  }

  /** bytes.Trim(b, `"`): strips every leading and trailing quote. */
  function Trim(s: string): string
  {
    TrimRight(TrimLeft(s))
  }

  /** Trim leaves neither a leading nor a trailing quote; it empties
      exactly the strings made only of quotes, and keeps a string with no
      quote as it is. */
  lemma TrimStrips(s: string)
    ensures var r := Trim(s); r == [] || (r[0] != '"' && r[|r| - 1] != '"')
    ensures Trim(s) == [] <==> forall i :: 0 <= i < |s| ==> s[i] == '"'
    ensures '"' !in s ==> Trim(s) == s
  {
    var t := TrimLeft(s);
    if t != [] {
      assert s[|s| - |t|] == t[0] != '"';
    }
    if '"' !in s {
      if |s| > 0 { assert s[0] in s; assert s[|s| - 1] in s; }
    }
  }

  /** ASCII upper-casing of one character. */
  function UpperChar(c: char): (u: char)
    ensures 'a' <= c <= 'z' ==> u as int == c as int - 32
    ensures !('a' <= c <= 'z') ==> u == c
  {
    if 'a' <= c <= 'z' then (c as int - 32) as char else c
  }

  /** strings.ToUpper restricted to ASCII letters. */
  function ToUpper(s: string): (u: string)
    ensures |u| == |s| && forall i :: 0 <= i < |s| ==> u[i] == UpperChar(s[i])
  {
    seq(|s|, i requires 0 <= i < |s| => UpperChar(s[i]))
  }

  /** Level.UnmarshalJSON on receiver `recv`: returns the receiver's new value
      and the error. On success the receiver becomes the level whose token is
      the quote-trimmed, upper-cased input; otherwise it keeps its value and
      the error is "log: invalid level". */
  function UnmarshalJSON(recv: Level, b: string): (r: (Level, Option<Error>))
    ensures r.1 == None <==> ToUpper(Trim(b)) in {"DBG", "INF", "WRN", "ERR"}
    ensures r.1 == None ==> String(r.0) == ToUpper(Trim(b))
    ensures r.1 != None ==> r.0 == recv && r.1 == Some(InvalidLevel)
  {
    ReverseInvertsTable();
    var key := ToUpper(Trim(b));
    if key !in Reverse then (recv, Some(InvalidLevel))
    else (Reverse[key], None)
  }

  /** `s` spells the token `t` in any mix of upper and lower case. */
  predicate EqualsIgnoringCase(s: string, t: string)
  {
    |s| == |t| && forall i :: 0 <= i < |s| ==> UpperChar(s[i]) == UpperChar(t[i])
  }

  lemma {:induction false} TrimLeftOfQuoted(n: nat, t: string)
    requires t == [] || t[0] != '"'
    ensures TrimLeft(Quotes(n) + t) == t
  {
    if n > 0 {
      assert (Quotes(n) + t)[1..] == Quotes(n - 1) + t;
      TrimLeftOfQuoted(n - 1, t);
    } else {
      assert Quotes(n) + t == t;
    }
  }

  lemma {:induction false} TrimRightOfQuoted(t: string, m: nat)
    requires t == [] || t[|t| - 1] != '"'
    ensures TrimRight(t + Quotes(m)) == t
  {
    if m > 0 {
      var s := t + Quotes(m);
      assert s[..|s| - 1] == t + Quotes(m - 1);
      TrimRightOfQuoted(t, m - 1);
    } else {
      assert t + Quotes(m) == t;
    }
  }

  /** Trim removes exactly the surrounding quote runs of a quote-free-ended text. */
  lemma TrimOfQuoted(n: nat, s: string, m: nat)
    requires s == [] || (s[0] != '"' && s[|s| - 1] != '"')
    ensures Trim(Quotes(n) + s + Quotes(m)) == s
  {
    if s == [] {
      assert Quotes(n) + s + Quotes(m) == Quotes(n) + Quotes(m);
      assert Quotes(n) + Quotes(m) == Quotes(n + m) + [];
      TrimLeftOfQuoted(n + m, []);
    } else {
      assert Quotes(n) + s + Quotes(m) == Quotes(n) + (s + Quotes(m));
      TrimLeftOfQuoted(n, s + Quotes(m));
      TrimRightOfQuoted(s, m);
    }
  }

  /** A case variant of a token upper-cases to that token. */
  lemma CaseVariantUpper(s: string, l: Level)
    ensures EqualsIgnoringCase(s, String(l)) ==> ToUpper(s) == String(l)
  {
    var t := String(l);
    assert forall i :: 0 <= i < 3 ==> UpperChar(t[i]) == t[i];
  }

  /** Conversely, a text that upper-cases to a token is a case variant of it. */
  lemma UpperIsVariant(s: string, l: Level)
    requires ToUpper(s) == String(l)
    ensures EqualsIgnoringCase(s, String(l))
  {
    var t := String(l);
    assert forall i :: 0 <= i < 3 ==> UpperChar(t[i]) == t[i];
  }

  /** Decoding ignores case and any number of surrounding quotes: for
      instance "wrn", `"Wrn"` and `""WRN"` all decode to WRN. */
  lemma DecodeIgnoresCaseAndQuotes(recv: Level, l: Level, s: string, n: nat, m: nat)
    requires EqualsIgnoringCase(s, String(l))
    ensures UnmarshalJSON(recv, Quotes(n) + s + Quotes(m)) == (l, None)
  {
    CaseVariantUpper(s, l);
    assert ToUpper(s)[0] == UpperChar(s[0]) && ToUpper(s)[2] == UpperChar(s[2]);
    TrimOfQuoted(n, s, m);
    ReverseInvertsTable();
  }

  /** Round trip: decoding the JSON encoding of a level yields that level,
      whatever the receiver held before. */
  lemma RoundTrip(recv: Level, l: Level)
    ensures UnmarshalJSON(recv, MarshalJSON(l).0) == (l, None)
  {
    assert MarshalJSON(l).0 == Quotes(1) + String(l) + Quotes(1);
    DecodeIgnoresCaseAndQuotes(recv, l, String(l), 1, 1);
  }

  /** Decoding succeeds exactly on case variants of the four tokens (after
      quote trimming), and then yields the level with that token. */
  lemma DecodeSucceedsOnlyOnTokens(recv: Level, b: string)
    ensures UnmarshalJSON(recv, b).1 == None <==>
            exists l: Level :: EqualsIgnoringCase(Trim(b), String(l))
    ensures UnmarshalJSON(recv, b).1 == None ==>
            EqualsIgnoringCase(Trim(b), String(UnmarshalJSON(recv, b).0))
  {
    var t := Trim(b);
    var r := UnmarshalJSON(recv, b);
    if r.1 == None {
      UpperIsVariant(t, r.0);
    } else {
      forall l: Level
        ensures !EqualsIgnoringCase(t, String(l))
      {
        CaseVariantUpper(t, l);
      }
    }
  }

  /** A longer spelling such as "DEBUG" is not a level. */
  lemma LongNameIsInvalid(recv: Level)
    ensures UnmarshalJSON(recv, "\"DEBUG\"") == (recv, Some(InvalidLevel))
  {
    assert Quotes(1) + "DEBUG" + Quotes(1) == "\"DEBUG\"";
    TrimOfQuoted(1, "DEBUG", 1);
  }
}
