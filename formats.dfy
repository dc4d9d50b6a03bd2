/** Log entries and the exact text lines of the text, shell and
    minimal-shell handlers (handlers.go), with ANSI colour escapes built
    from each level's integer value. */
module Formats {
  import opened Levels
  import opened Data

  /** An entry's timestamp, represented by the two renderings the handlers
      use: RFC 3339 in UTC (structured records) and local "15:04:05"
      (text and shell lines). */
  datatype Instant = Instant(rfc3339: string, clock: string)

  /** Entry: one log event. */
  datatype Entry = Entry(level: Level, message: string, data: M, time: Instant)

  const Esc: char := '\U{1B}'
  const Bullet: char := '\U{2022}'

  /** Decimal rendering of a natural number (the `%d` verb). */
  function Digits(n: nat): (s: string)
    ensures |s| >= 1 && forall i :: 0 <= i < |s| ==> '0' <= s[i] <= '9'
  {
    var d := ['0' + (n % 10) as char];
    if n < 10 then d else Digits(n / 10) + d
  }

  /** A two-digit number renders as its tens digit, then its units digit. */
  lemma TwoDigits(n: nat)
    requires 10 <= n < 100
    ensures Digits(n) == ['0' + (n / 10) as char, '0' + (n % 10) as char]
  {
    assert Digits(n / 10) == ['0' + (n / 10) as char];
  }

  /** The number a string of decimal digits spells. */
  function DecimalValue(s: string): nat
    requires forall i :: 0 <= i < |s| ==> '0' <= s[i] <= '9'
  {
    if s == [] then 0
    else 10 * DecimalValue(s[..|s| - 1]) + (s[|s| - 1] as int - '0' as int)
  }

  /** Digits is exact: the digits it writes spell n. */
  lemma {:induction false} DigitsSpell(n: nat)
    ensures DecimalValue(Digits(n)) == n
  {
    var s := Digits(n);
    assert s[..|s| - 1] == if n < 10 then [] else Digits(n / 10);
    if n >= 10 {
      DigitsSpell(n / 10);
    }
  }

  /** Each level's colour escape number is two digits, '3' and the level's
      last digit. */
  lemma LevelDigits(l: Level)
    ensures Digits(Code(l)) == ['3', ('0' as int + Code(l) - 30) as char]
  {
    assert Digits(Code(l) / 10) == ['3'];
  }

  /** ESC[1;<code>m: bold text in ANSI colour `code`. */
  function Sgr(code: nat): string
  {
    [Esc] + "[1;" + Digits(code) + "m"
  }

  /** ESC[0m: reset all attributes. */
  const Reset: string := [Esc] + "[0m"

  /** `s` in bold colour `code`, then reset. */
  function Painted(code: nat, s: string): string
  {
    Sgr(code) + s + Reset
  }

  /** All keys of the data map present: the precondition of the pair lists. */
  ghost predicate KeysIn(keys: seq<string>, data: M)
  {
    forall i :: 0 <= i < |keys| ==> keys[i] in data
  }

  /** One " key: value" segment of a text line. */
  function TextPair(k: string, v: Value): (r: string)
    ensures |r| == |k| + |v.shown| + 3 && r[0] == ' '
    ensures r[1..|k| + 1] == k && r[|k| + 1..|k| + 3] == ": " && r[|k| + 3..] == v.shown
  {
    " " + k + ": " + v.shown
  }

  /** One segment of a shell line: the "key:" is coloured with `code`. */
  function ShellPair(code: nat, k: string, v: Value): string
  {
    " " + Painted(code, k + ":") + " " + v.shown
  }

  /** A shell segment is the format " ESC[1;<code>m<key>:ESC[0m <value>". */
  lemma ShellPairSpelled(code: nat, k: string, v: Value)
    ensures ShellPair(code, k, v) == " " + [Esc] + "[1;" + Digits(code) + "m" + k + ":" + [Esc] + "[0m " + v.shown
  {
  }

  /** The text segments for `keys`, in order. */
  ghost function TextPairs(keys: seq<string>, data: M): string
    requires KeysIn(keys, data)
  {
    if keys == [] then []
    else
      var k := keys[|keys| - 1];
      TextPairs(keys[..|keys| - 1], data) + TextPair(k, data[k])
  }

  /** The shell segments for `keys`, in order. */
  ghost function ShellPairs(code: nat, keys: seq<string>, data: M): string
    requires KeysIn(keys, data)
  {
    if keys == [] then []
    else
      var k := keys[|keys| - 1];
      ShellPairs(code, keys[..|keys| - 1], data) + ShellPair(code, k, data[k])
  }

  /** Extending the key prefix by one key appends that key's text segment,
      also after any text already written. */
  lemma TextPairsOneMore(keys: seq<string>, i: nat, data: M, base: string)
    requires KeysIn(keys, data) && i < |keys|
    ensures KeysIn(keys[..i], data) && KeysIn(keys[..i + 1], data)
    ensures base + TextPairs(keys[..i], data) + TextPair(keys[i], data[keys[i]])
            == base + TextPairs(keys[..i + 1], data)
  {
    assert keys[..i + 1][..i] == keys[..i];
  }

  /** The same for the shell segments. */
  lemma ShellPairsOneMore(code: nat, keys: seq<string>, i: nat, data: M, base: string)
    requires KeysIn(keys, data) && i < |keys|
    ensures KeysIn(keys[..i], data) && KeysIn(keys[..i + 1], data)
    ensures base + ShellPairs(code, keys[..i], data) + ShellPair(code, keys[i], data[keys[i]])
            == base + ShellPairs(code, keys[..i + 1], data)
  {
    assert keys[..i + 1][..i] == keys[..i];
  }

  /** The first Fprintf of textHandler.Log: "<LVL> <time> <message>". */
  function TextHeader(e: Entry): (r: string)
    ensures |r| == |e.time.clock| + |e.message| + 5
    ensures r[..4] == String(e.level) + " " && r[4..|r| - |e.message| - 1] == e.time.clock
    ensures r[|r| - |e.message| - 1..] == " " + e.message
  {
    String(e.level) + " " + e.time.clock + " " + e.message
  }

  /** The first Fprintf of shellHandler.Log. */
  function ShellHeader(e: Entry): string
  {
    Painted(Code(e.level), String(e.level)) + " " + Sgr(30) + e.time.clock + " " + Painted(37, e.message)
  }

  /** The shell header is the format
      "ESC[1;<code>m<LVL>ESC[0m ESC[1;30m<time> ESC[1;37m<message>ESC[0m". */
  lemma ShellHeaderSpelled(e: Entry)
    ensures ShellHeader(e) == [Esc] + "[1;" + Digits(Code(e.level)) + "m" + String(e.level) + ([Esc] + "[0m") + " "
                              + ([Esc] + "[1;30m") + e.time.clock + " " + ([Esc] + "[1;37m" + e.message + ([Esc] + "[0m"))
  {
    assert Sgr(30) == [Esc] + "[1;30m" by { TwoDigits(30); }
    assert Sgr(37) == [Esc] + "[1;37m" by { TwoDigits(37); }
  }

  /** The first Fprintf of minimalShellHandler.Log. */
  function MinimalHeader(e: Entry): string
  {
    Painted(Code(e.level), [Bullet]) + " " + Painted(37, e.message)
  }

  /** The minimal header is the format "ESC[1;<code>m•ESC[0m ESC[1;37m<message>ESC[0m". */
  lemma MinimalHeaderSpelled(e: Entry)
    ensures MinimalHeader(e) == [Esc] + "[1;" + Digits(Code(e.level)) + "m" + [Bullet] + ([Esc] + "[0m") + " "
                                + ([Esc] + "[1;37m" + e.message + ([Esc] + "[0m"))
  {
    assert Sgr(37) == [Esc] + "[1;37m" by { TwoDigits(37); }
  }

  /** The whole line textHandler.Log writes. */
  ghost function TextLine(e: Entry): (r: string)
    ensures TextHeader(e) < r && r[|r| - 1] == '\n'
  {
    var keys := SortedKeys(e.data.Keys);
    TextHeader(e) + TextPairs(keys, e.data) + "\n"
  }

  /** The whole line shellHandler.Log writes. */
  ghost function ShellLine(e: Entry): (r: string)
    ensures ShellHeader(e) < r && r[|r| - 1] == '\n'
  {
    var keys := SortedKeys(e.data.Keys);
    ShellHeader(e) + ShellPairs(Code(e.level), keys, e.data) + "\n"
  }

  /** The whole line minimalShellHandler.Log writes. */
  ghost function MinimalLine(e: Entry): (r: string)
    ensures MinimalHeader(e) < r && r[|r| - 1] == '\n'
  {
    var keys := SortedKeys(e.data.Keys);
    MinimalHeader(e) + ShellPairs(Code(e.level), keys, e.data) + "\n"
  }

  /** Writing a header, then pairs, then a newline after `base` appends the
      line they form. */
  lemma LineAssoc(base: string, header: string, pairs: string)
    ensures base + header + pairs + "\n" == base + (header + pairs + "\n")
  {
  }

  /** The header, the pairs of the sorted keys and a newline, written in
      turn after `base`, add up to the text line. */
  lemma TextLineWritten(base: string, e: Entry, keys: seq<string>)
    requires keys == SortedKeys(e.data.Keys)
    ensures KeysIn(keys, e.data)
    ensures base + TextHeader(e) + TextPairs(keys, e.data) + "\n" == base + TextLine(e)
  {
    LineAssoc(base, TextHeader(e), TextPairs(keys, e.data));
  }

  /** The same for the shell line. */
  lemma ShellLineWritten(base: string, e: Entry, keys: seq<string>)
    requires keys == SortedKeys(e.data.Keys)
    ensures KeysIn(keys, e.data)
    ensures base + ShellHeader(e) + ShellPairs(Code(e.level), keys, e.data) + "\n" == base + ShellLine(e)
  {
    LineAssoc(base, ShellHeader(e), ShellPairs(Code(e.level), keys, e.data));
  }

  /** The same for the minimal-shell line. */
  lemma MinimalLineWritten(base: string, e: Entry, keys: seq<string>)
    requires keys == SortedKeys(e.data.Keys)
    ensures KeysIn(keys, e.data)
    ensures base + MinimalHeader(e) + ShellPairs(Code(e.level), keys, e.data) + "\n" == base + MinimalLine(e)
  {
    LineAssoc(base, MinimalHeader(e), ShellPairs(Code(e.level), keys, e.data));
  }

  /** Character `c` occurs in no message, timestamp, key or value of `e`. */
  ghost predicate Free(c: char, e: Entry)
  {
    && c !in e.message && c !in e.time.clock
    && forall k :: k in e.data ==> c !in k && c !in e.data[k].shown
  }

  // ---- What the lines say ----

  /** With no data the text line is "<LVL> <time> <message>\n": for
      instance an ERR entry "test" with no data at 12:00:00 gives
      "ERR 12:00:00 test" and a newline. */
  lemma TextLineWithoutData(e: Entry)
    requires e.data == map[]
    ensures TextLine(e) == String(e.level) + " " + e.time.clock + " " + e.message + "\n"
  {
    assert SortedKeys(e.data.Keys) == [];
  }

  lemma {:induction false} TextPairsFree(c: char, keys: seq<string>, e: Entry)
    requires KeysIn(keys, e.data) && Free(c, e) && c != ' ' && c != ':'
    ensures c !in TextPairs(keys, e.data)
  {
    if keys != [] {
      var k := keys[|keys| - 1];
      TextPairsFree(c, keys[..|keys| - 1], e);
      assert TextPair(k, e.data[k]) == [' '] + k + [':', ' '] + e.data[k].shown;
    }
  }

  /** A text line is exactly one line: when no message, timestamp, key or
      value holds a newline, its only newline is the final character. */
  lemma TextLineIsOneLine(e: Entry)
    requires Free('\n', e)
    ensures |TextLine(e)| > 0 && TextLine(e)[|TextLine(e)| - 1] == '\n'
    ensures '\n' !in TextLine(e)[..|TextLine(e)| - 1]
  {
    var keys := SortedKeys(e.data.Keys);
    TextPairsFree('\n', keys, e);
    var body := TextHeader(e) + TextPairs(keys, e.data);
    assert TextLine(e) == body + "\n";
    assert TextLine(e)[..|TextLine(e)| - 1] == body;
    assert '\n' !in String(e.level);
  }

  // ---- Removing colour ----

  /** Drops the rest of an escape sequence, through its final byte 'm'. */
  function SkipEscape(s: string): (r: string)
    ensures |r| <= |s| && (s != [] ==> |r| < |s|)
  {
    if s == [] then []
    else if s[0] == 'm' then s[1..]
    else SkipEscape(s[1..])
  }

  /** The text a terminal shows: every ESC...m sequence removed. */
  function StripAnsi(s: string): (r: string)
    ensures Esc !in r
    decreases |s|
  {
    if s == [] then []
    else if s[0] == Esc then StripAnsi(SkipEscape(s[1..]))
    else [s[0]] + StripAnsi(s[1..])
  }

  lemma {:induction false} StripPlain(p: string, r: string)
    requires Esc !in p
    ensures StripAnsi(p + r) == p + StripAnsi(r)
  {
    if p != [] {
      assert (p + r)[1..] == p[1..] + r;
      StripPlain(p[1..], r);
      assert p == [p[0]] + p[1..];
    } else {
      assert p + r == r;
    }
  }

  lemma {:induction false} SkipThrough(body: string, r: string)
    requires 'm' !in body
    ensures SkipEscape(body + "m" + r) == r
  {
    if body != [] {
      assert (body + "m" + r)[1..] == body[1..] + "m" + r;
      SkipThrough(body[1..], r);
    } else {
      assert body + "m" + r == "m" + r;
    }
  }

  /** An escape ESC <body> m disappears, whatever follows it. */
  lemma StripEscape(body: string, r: string)
    requires 'm' !in body
    ensures StripAnsi([Esc] + body + "m" + r) == StripAnsi(r)
  {
    var s := [Esc] + body + "m" + r;
    assert s[1..] == body + "m" + r;
    SkipThrough(body, r);
  }

  lemma StripSgr(code: nat, r: string)
    ensures StripAnsi(Sgr(code) + r) == StripAnsi(r)
  {
    var body := "[1;" + Digits(code);
    assert Sgr(code) + r == [Esc] + body + "m" + r;
    StripEscape(body, r);
  }

  lemma StripReset(r: string)
    ensures StripAnsi(Reset + r) == StripAnsi(r)
  {
    assert Reset + r == [Esc] + "[0" + "m" + r;
    StripEscape("[0", r);
  }

  /** A painted escape-free span strips to its text. */
  lemma StripPainted(code: nat, p: string, tail: string)
    requires Esc !in p
    ensures StripAnsi(Painted(code, p) + tail) == p + StripAnsi(tail)
  {
    assert Painted(code, p) + tail == Sgr(code) + (p + (Reset + tail));
    StripSgr(code, p + (Reset + tail));
    StripPlain(p, Reset + tail);
    StripReset(tail);
  }

  lemma PairStripsToText(code: nat, k: string, v: Value, r: string)
    requires Esc !in k && Esc !in v.shown
    ensures StripAnsi(ShellPair(code, k, v) + r) == TextPair(k, v) + StripAnsi(r)
  {
    var r1 := " " + v.shown + r;
    assert ShellPair(code, k, v) + r == " " + (Painted(code, k + ":") + r1);
    StripPlain(" ", Painted(code, k + ":") + r1);
    StripPainted(code, k + ":", r1);
    StripPlain(" " + v.shown, r);
  }

  lemma {:induction false} PairsStripToText(code: nat, keys: seq<string>, e: Entry, r: string)
    requires KeysIn(keys, e.data) && Free(Esc, e)
    ensures StripAnsi(ShellPairs(code, keys, e.data) + r) == TextPairs(keys, e.data) + StripAnsi(r)
  {
    if keys == [] {
      assert ShellPairs(code, keys, e.data) + r == r;
    } else {
      var init := keys[..|keys| - 1];
      var k := keys[|keys| - 1];
      var last := ShellPair(code, k, e.data[k]);
      assert ShellPairs(code, keys, e.data) + r == ShellPairs(code, init, e.data) + (last + r);
      PairsStripToText(code, init, e, last + r);
      PairStripsToText(code, k, e.data[k], r);
    }
  }

  lemma StripSpaceThenColoured(code: nat, p: string, r: string)
    requires Esc !in p
    ensures StripAnsi(" " + Sgr(code) + p + r) == " " + p + StripAnsi(r)
  {
    assert " " + Sgr(code) + p + r == " " + (Sgr(code) + (p + r));
    StripPlain(" ", Sgr(code) + (p + r));
    StripSgr(code, p + r);
    StripPlain(p, r);
  }

  lemma StripSpaceThenPainted(code: nat, p: string, r: string)
    requires Esc !in p
    ensures StripAnsi(" " + Painted(code, p) + r) == " " + p + StripAnsi(r)
  {
    assert " " + Painted(code, p) + r == " " + (Painted(code, p) + r);
    StripPlain(" ", Painted(code, p) + r);
    StripPainted(code, p, r);
  }

  /** Re-association of a header, its segments and the newline. */
  lemma Regroup3(h: string, p: string, n: string)
    ensures h + (p + n) == h + p + n
  {
  }

  /** Re-association of a shell header followed by a tail. */
  lemma RegroupHeader(p: string, s: string, c: string, q: string, tail: string)
    ensures p + " " + s + c + " " + q + tail == p + (" " + s + c + (" " + q + tail))
  {
  }

  /** Re-association of the stripped header. */
  lemma RegroupText(t: string, c: string, m: string, x: string)
    ensures t + (" " + c + (" " + m + x)) == t + " " + c + " " + m + x
  {
  }

  /** The shell header layout, over its parts, strips to the text layout. */
  lemma HeaderPartsStrip(code: nat, tok: string, clock: string, msg: string, tail: string)
    requires Esc !in tok && Esc !in clock && Esc !in msg
    ensures StripAnsi(Painted(code, tok) + " " + Sgr(30) + clock + " " + Painted(37, msg) + tail)
            == tok + " " + clock + " " + msg + StripAnsi(tail)
  {
    var r2 := " " + Painted(37, msg) + tail;
    var r1 := " " + Sgr(30) + clock + r2;
    RegroupHeader(Painted(code, tok), Sgr(30), clock, Painted(37, msg), tail);
    StripPainted(code, tok, r1);
    StripSpaceThenColoured(30, clock, r2);
    StripSpaceThenPainted(37, msg, tail);
    RegroupText(tok, clock, msg, StripAnsi(tail));
  }

  lemma ShellHeaderStrips(e: Entry, tail: string)
    requires Free(Esc, e)
    ensures StripAnsi(ShellHeader(e) + tail) == TextHeader(e) + StripAnsi(tail)
  {
    assert Esc !in String(e.level);
    HeaderPartsStrip(Code(e.level), String(e.level), e.time.clock, e.message, tail);
  }

  lemma MinimalHeaderStrips(e: Entry, tail: string)
    requires Free(Esc, e)
    ensures StripAnsi(MinimalHeader(e) + tail) == [Bullet] + " " + e.message + StripAnsi(tail)
  {
    var r1 := " " + Painted(37, e.message) + tail;
    assert MinimalHeader(e) + tail == Painted(Code(e.level), [Bullet]) + r1;
    StripPainted(Code(e.level), [Bullet], r1);
    StripSpaceThenPainted(37, e.message, tail);
  }

  lemma {:induction false} ShellStripsFor(e: Entry, keys: seq<string>)
    requires KeysIn(keys, e.data) && Free(Esc, e)
    ensures StripAnsi(ShellHeader(e) + ShellPairs(Code(e.level), keys, e.data) + "\n")
            == TextHeader(e) + TextPairs(keys, e.data) + "\n"
  {
    var tail := ShellPairs(Code(e.level), keys, e.data) + "\n";
    PairsStripToText(Code(e.level), keys, e, "\n");
    assert StripAnsi("\n") == "\n";
    Regroup3(ShellHeader(e), ShellPairs(Code(e.level), keys, e.data), "\n");
    ShellHeaderStrips(e, tail);
    Regroup3(TextHeader(e), TextPairs(keys, e.data), "\n");
  }

  lemma {:induction false} MinimalStripsFor(e: Entry, keys: seq<string>)
    requires KeysIn(keys, e.data) && Free(Esc, e)
    ensures StripAnsi(MinimalHeader(e) + ShellPairs(Code(e.level), keys, e.data) + "\n")
            == [Bullet] + " " + e.message + TextPairs(keys, e.data) + "\n"
  {
    var tail := ShellPairs(Code(e.level), keys, e.data) + "\n";
    PairsStripToText(Code(e.level), keys, e, "\n");
    assert StripAnsi("\n") == "\n";
    Regroup3(MinimalHeader(e), ShellPairs(Code(e.level), keys, e.data), "\n");
    MinimalHeaderStrips(e, tail);
    Regroup3([Bullet] + " " + e.message, TextPairs(keys, e.data), "\n");
  }

  /** Without its colour escapes, a shell line is exactly the text line of
      the same entry: the shell format only adds colour. */
  lemma ShellLineStripsToTextLine(e: Entry)
    requires Free(Esc, e)
    ensures StripAnsi(ShellLine(e)) == TextLine(e)
  {
    ShellStripsFor(e, SortedKeys(e.data.Keys));
  }

  /** Without its colour escapes, a minimal-shell line is the bullet, the
      message and the text segments: no timestamp and no level token. */
  lemma MinimalLineStripsToBulletLine(e: Entry)
    requires Free(Esc, e)
    ensures StripAnsi(MinimalLine(e)) ==
            [Bullet] + " " + e.message + TextPairs(SortedKeys(e.data.Keys), e.data) + "\n"
  {
    MinimalStripsFor(e, SortedKeys(e.data.Keys));
  }

  // ---- Worked examples ----

  /** A one-pair map has a one-key list and a single segment. */
  lemma SingleKey(code: nat, k: string, v: Value, data: M)
    requires data == map[k := v]
    ensures SortedKeys(data.Keys) == [k]
    ensures KeysIn([k], data) && TextPairs([k], data) == TextPair(k, v)
    ensures ShellPairs(code, [k], data) == ShellPair(code, k, v)
  {
    var keys := SortedKeys(data.Keys);
    assert data.Keys == {k};
    assert |keys| == 1 && keys[0] in data;
    assert [k][..0] == [];
  }

  /** The lines of an entry with one data pair. */
  lemma SinglePairLines(e: Entry, k: string, v: Value)
    requires e.data == map[k := v]
    ensures TextLine(e) == TextHeader(e) + TextPair(k, v) + "\n"
    ensures ShellLine(e) == ShellHeader(e) + ShellPair(Code(e.level), k, v) + "\n"
    ensures MinimalLine(e) == MinimalHeader(e) + ShellPair(Code(e.level), k, v) + "\n"
  {
    SingleKey(Code(e.level), k, v, e.data);
  }

  /** The shell line of a one-pair entry, escape by escape. */
  lemma ShellSinglePair(e: Entry, k: string, v: Value)
    requires e.data == map[k := v]
    ensures var c := Code(e.level);
            ShellLine(e) == Sgr(c) + String(e.level) + Reset + " " + Sgr(30) + e.time.clock + " "
                            + (Sgr(37) + e.message + Reset)
                            + (" " + (Sgr(c) + (k + ":") + Reset) + " " + v.shown) + "\n"
  {
    SinglePairLines(e, k, v);
  }

  /** The minimal line of a one-pair entry, escape by escape. */
  lemma MinimalSinglePair(e: Entry, k: string, v: Value)
    requires e.data == map[k := v]
    ensures var c := Code(e.level);
            MinimalLine(e) == Sgr(c) + [Bullet] + Reset + " " + (Sgr(37) + e.message + Reset)
                              + (" " + (Sgr(c) + (k + ":") + Reset) + " " + v.shown) + "\n"
  {
    SinglePairLines(e, k, v);
  }

  /** The example entry: a WRN with one data pair at 12:00:00. */
  const Sample: Entry := Entry(WRN, "disk low", map["free" := Value("5%")], Instant("2024-01-02T12:00:00Z", "12:00:00"))

  lemma TextLineExample()
    ensures TextLine(Sample) ==
            "WRN" + " " + "12:00:00" + " " + "disk low" + (" " + "free" + ": " + "5%") + "\n"
  {
    SinglePairLines(Sample, "free", Value("5%"));
    assert String(WRN) == "WRN";
  }

  lemma ShellLineExample()
    ensures ShellLine(Sample) ==
            "\U{1B}[1;33m" + "WRN" + "\U{1B}[0m" + " "
            + "\U{1B}[1;30m" + "12:00:00" + " "
            + ("\U{1B}[1;37m" + "disk low" + "\U{1B}[0m")
            + (" " + ("\U{1B}[1;33m" + "free:" + "\U{1B}[0m") + " " + "5%")
            + "\n"
  {
    ShellSinglePair(Sample, "free", Value("5%"));
    ColourExamples();
    assert "free" + ":" == "free:";
  }

  lemma MinimalLineExample()
    ensures MinimalLine(Sample) ==
            "\U{1B}[1;33m" + "\U{2022}" + "\U{1B}[0m" + " "
            + ("\U{1B}[1;37m" + "disk low" + "\U{1B}[0m")
            + (" " + ("\U{1B}[1;33m" + "free:" + "\U{1B}[0m") + " " + "5%")
            + "\n"
  {
    MinimalSinglePair(Sample, "free", Value("5%"));
    ColourExamples();
    assert "free" + ":" == "free:";
  }

  /** The escape sequences of the example's colours. */
  lemma ColourExamples()
    ensures Sgr(33) == "\U{1B}[1;33m" && Sgr(30) == "\U{1B}[1;30m" && Sgr(37) == "\U{1B}[1;37m"
    ensures Reset == "\U{1B}[0m"
  {
    TwoDigits(33);
    TwoDigits(30);
    TwoDigits(37);
  }
}
