/** JSON values of strings and objects as Python's `json` prints and reads them (RFC 8259,
    section 7): printing escapes everything but printable ASCII. */
module JsonText {
  import opened Options

  /** A code point of a Python string; surrogates may stand alone. */
  type Code = x: int | 0 <= x <= 0x10FFFF
  type Text = seq<Code>

  datatype Json = Str(text: Text) | Obj(members: Members)

  /** The members of an object in the order they are printed. */
  datatype Members = End | More(name: Text, value: Json, rest: Members)

  const QUOTE: Code := 0x22
  const BACKSLASH: Code := 0x5C
  const U: Code := 0x75

  function Ascii(s: string): Text {
    seq(|s|, i requires 0 <= i < |s| => s[i] as int)
  }

  predicate Printable(c: Code) { 0x20 <= c <= 0x7E }
  predicate High(c: Code) { 0xD800 <= c <= 0xDBFF }
  predicate Low(c: Code) { 0xDC00 <= c <= 0xDFFF }

  predicate PrintableText(t: Text) {
    forall i :: 0 <= i < |t| ==> Printable(t[i])
  }

  /** The code point a surrogate pair stands for. */
  function Pair(high: Code, low: Code): Code
    requires High(high) && Low(low)
  {
    0x10000 + (high - 0xD800) * 0x400 + (low - 0xDC00)
  }

  /** The surrogates that stand for a code point beyond the basic plane. */
  function HighOf(c: Code): (high: Code)
    requires 0x10000 <= c
    ensures High(high)
  {
    0xD800 + (c - 0x10000) / 0x400
  }

  function LowOf(c: Code): (low: Code)
    requires 0x10000 <= c
    ensures Low(low)
  {
    0xDC00 + (c - 0x10000) % 0x400
  }

  lemma PairOfHalves(c: Code)
    requires 0x10000 <= c
    ensures Pair(HighOf(c), LowOf(c)) == c
  {
  }

  // ------------------------------------------------------------------ escapes

  function HexDigit(n: int): Code
    requires 0 <= n < 16
  {
    if n < 10 then 0x30 + n else 0x61 + n - 10
  }

  function HexValue(c: Code): (r: Option<int>)
    ensures r.Some? ==> 0 <= r.value < 16
  {
    if 0x30 <= c <= 0x39 then Some(c - 0x30)
    else if 0x61 <= c <= 0x66 then Some(c - 0x61 + 10)
    else if 0x41 <= c <= 0x46 then Some(c - 0x41 + 10)
    else None
  }

  function UnicodeEscape(n: int): Text
    requires 0 <= n < 0x10000
  {
    var q := n / 16;
    var r := q / 16;
    [BACKSLASH, U, HexDigit(r / 16), HexDigit(r % 16), HexDigit(q % 16), HexDigit(n % 16)]
  }

  /** The letter after a backslash that stands for a code point, if it has a short escape. */
  function ShortEscape(c: Code): Option<Code> {
    if c == QUOTE || c == BACKSLASH then Some(c)
    else if c == 0x08 then Some(0x62)
    else if c == 0x0C then Some(0x66)
    else if c == 0x0A then Some(0x6E)
    else if c == 0x0D then Some(0x72)
    else if c == 0x09 then Some(0x74)
    else None
  }

  function ShortUnescape(e: Code): Option<Code> {
    if e == QUOTE || e == BACKSLASH || e == 0x2F then Some(e)
    else if e == 0x62 then Some(0x08)
    else if e == 0x66 then Some(0x0C)
    else if e == 0x6E then Some(0x0A)
    else if e == 0x72 then Some(0x0D)
    else if e == 0x74 then Some(0x09)
    else None
  }

  function Escape(c: Code): Text {
    if ShortEscape(c).Some? then [BACKSLASH, ShortEscape(c).value]
    else if Printable(c) then [c]
    else if c < 0x10000 then UnicodeEscape(c)
    else UnicodeEscape(HighOf(c)) + UnicodeEscape(LowOf(c))
  }

  function EscapeAll(t: Text): Text {
    if t == [] then [] else Escape(t[0]) + EscapeAll(t[1..])
  }

  /** The value of a \\uXXXX escape at the start of `s`. */
  function ReadUnicode(s: Text): Option<Code> {
    if |s| < 6 || s[0] != BACKSLASH || s[1] != U then None
    else
      var a, b, c, d := HexValue(s[2]), HexValue(s[3]), HexValue(s[4]), HexValue(s[5]);
      if a.None? || b.None? || c.None? || d.None? then None
      else Some(((a.value * 16 + b.value) * 16 + c.value) * 16 + d.value)
  }

  /** The first code point of `s` behind the opening quote, and how long its text is. A high
      surrogate directly followed by a low one is read as the pair. */
  function ReadCode(s: Text): (r: Option<(Code, nat)>)
    ensures r.Some? ==> 1 <= r.value.1 <= |s|
  {
    if s == [] || s[0] < 0x20 || s[0] == QUOTE then None
    else if s[0] != BACKSLASH then Some((s[0], 1))
    else if |s| >= 2 && ShortUnescape(s[1]).Some? then Some((ShortUnescape(s[1]).value, 2))
    else
      var u := ReadUnicode(s);
      if u.None? then None
      else
        var v := ReadUnicode(s[6..]);
        if High(u.value) && v.Some? && Low(v.value) then Some((Pair(u.value, v.value), 12)) else Some((u.value, 6))
  }

  /** The rest of a string literal, and what follows its closing quote. */
  function ReadString(s: Text): (r: Option<(Text, Text)>)
    ensures r.Some? ==> |r.value.1| < |s|
    decreases |s|
  {
    if s == [] then None
    else if s[0] == QUOTE then Some(([], s[1..]))
    else
      var first := ReadCode(s);
      if first.None? then None
      else
        var rest := ReadString(s[first.value.1..]);
        if rest.None? then None else Some(([first.value.0] + rest.value.0, rest.value.1))
  }

  /** What reading makes of a text: adjacent surrogate pairs become one code point. */
  function Joined(t: Text): (r: Text)
    ensures |r| <= |t|
    decreases |t|
  {
    if t == [] then []
    else if |t| >= 2 && High(t[0]) && Low(t[1]) then [Pair(t[0], t[1])] + Joined(t[2..])
    else [t[0]] + Joined(t[1..])
  }

  /** No high surrogate directly followed by a low one. */
  predicate PairFree(t: Text) {
    forall i :: 0 <= i < |t| - 1 ==> !(High(t[i]) && Low(t[i + 1]))
  }

  lemma PairFreeTail(t: Text)
    requires t != [] && !(|t| >= 2 && High(t[0]) && Low(t[1]))
    ensures PairFree(t) <==> PairFree(t[1..])
  {
    if PairFree(t[1..]) {
      forall i | 0 <= i < |t| - 1 ensures !(High(t[i]) && Low(t[i + 1])) {
        if i > 0 {
          assert t[i] == t[1..][i - 1] && t[i + 1] == t[1..][i - 1 + 1];
        }
      }
    } else {
      var i :| 0 <= i < |t[1..]| - 1 && High(t[1..][i]) && Low(t[1..][i + 1]);
      assert High(t[i + 1]) && Low(t[i + 1 + 1]);
    }
  }

  lemma {:induction false} JoinedIsSame(t: Text)
    ensures Joined(t) == t <==> PairFree(t)
    decreases |t|
  {
    if |t| >= 2 && High(t[0]) && Low(t[1]) {
      assert |Joined(t[2..])| <= |t| - 2;
    } else if t != [] {
      JoinedIsSame(t[1..]);
      PairFreeTail(t);
      assert t == [t[0]] + t[1..];
    }
  }

  lemma EscapeIsPrintable(c: Code)
    ensures PrintableText(Escape(c))
  {
  }

  lemma {:induction false} EscapeAllIsPrintable(t: Text)
    ensures PrintableText(EscapeAll(t))
  {
    if t != [] {
      EscapeIsPrintable(t[0]);
      EscapeAllIsPrintable(t[1..]);
    }
  }

  lemma DigitIsRead(n: int)
    requires 0 <= n < 16
    ensures HexValue(HexDigit(n)) == Some(n)
  {
  }

  lemma UnicodeIsRead(n: int, rest: Text)
    requires 0 <= n < 0x10000
    ensures ReadUnicode(UnicodeEscape(n) + rest) == Some(n)
    ensures (UnicodeEscape(n) + rest)[6..] == rest
  {
    hide HexDigit, HexValue;
    var s := UnicodeEscape(n) + rest;
    var q := n / 16;
    var r := q / 16;
    DigitIsRead(r / 16);
    DigitIsRead(r % 16);
    DigitIsRead(q % 16);
    DigitIsRead(n % 16);
    assert s[..6] == UnicodeEscape(n);
    assert s[0] == BACKSLASH && s[1] == U && s[2] == HexDigit(r / 16) && s[3] == HexDigit(r % 16);
    assert s[4] == HexDigit(q % 16) && s[5] == HexDigit(n % 16);
    assert n == q * 16 + n % 16 && q == r * 16 + q % 16 && r == r / 16 * 16 + r % 16;
  }

  /** What an escape looks like to a reader looking for a low surrogate. */
  lemma EscapeAfterHigh(c: Code, rest: Text)
    ensures Low(c) ==> ReadUnicode(Escape(c) + rest) == Some(c)
    ensures !Low(c) ==> ReadUnicode(Escape(c) + rest).None? || !Low(ReadUnicode(Escape(c) + rest).value)
  {
    var s := Escape(c) + rest;
    if ShortEscape(c).Some? {
      assert s[0] == BACKSLASH && s[1] == ShortEscape(c).value;
    } else if Printable(c) {
      assert s[0] == c;
    } else if c < 0x10000 {
      UnicodeIsRead(c, rest);
    } else {
      var high, low := HighOf(c), LowOf(c);
      assert s == UnicodeEscape(high) + (UnicodeEscape(low) + rest);
      UnicodeIsRead(high, UnicodeEscape(low) + rest);
    }
  }

  /** A plain \uXXXX escape is read as its value, unless a pair begins there. */
  lemma EscapedCodeIsRead(n: Code, rest: Text)
    requires 0x7F <= n < 0x10000 && (High(n) ==> ReadUnicode(rest).None? || !Low(ReadUnicode(rest).value))
    ensures ReadCode(UnicodeEscape(n) + rest) == Some((n, 6))
  {
    UnicodeIsRead(n, rest);
    hide ReadUnicode, HexDigit;
    var s := UnicodeEscape(n) + rest;
    assert s[0] == BACKSLASH && s[1] == U;
  }

  lemma ControlIsRead(n: Code, rest: Text)
    requires n < 0x20
    ensures ReadCode(UnicodeEscape(n) + rest) == Some((n, 6))
  {
    UnicodeIsRead(n, rest);
    hide ReadUnicode, HexDigit;
    var s := UnicodeEscape(n) + rest;
    assert s[0] == BACKSLASH && s[1] == U;
  }

  lemma AstralIsRead(c: Code, rest: Text)
    requires 0x10000 <= c
    ensures ReadCode(Escape(c) + rest) == Some((c, 12))
  {
    hide HighOf, LowOf;
    var high, low := HighOf(c), LowOf(c);
    var s := UnicodeEscape(high) + (UnicodeEscape(low) + rest);
    assert Escape(c) + rest == s;
    UnicodeIsRead(high, UnicodeEscape(low) + rest);
    UnicodeIsRead(low, rest);
    hide ReadUnicode, HexDigit, Escape, Pair;
    assert s[0] == BACKSLASH && s[1] == U;
    PairOfHalves(c);
  }

  /** A code point is read back, unless it is a high surrogate in front of a low one. */
  lemma EscapeIsRead(c: Code, rest: Text)
    requires High(c) ==> ReadUnicode(rest).None? || !Low(ReadUnicode(rest).value)
    ensures ReadCode(Escape(c) + rest) == Some((c, |Escape(c)|))
    ensures (Escape(c) + rest)[0] != QUOTE
  {
    hide ReadUnicode, UnicodeEscape;
    var s := Escape(c) + rest;
    if ShortEscape(c).Some? {
      assert s[0] == BACKSLASH && s[1] == ShortEscape(c).value;
    } else if Printable(c) {
      assert s[0] == c;
    } else {
      if c < 0x20 {
        ControlIsRead(c, rest);
      } else if c < 0x10000 {
        EscapedCodeIsRead(c, rest);
      } else {
        AstralIsRead(c, rest);
      }
      EscapeLength(c);
    }
  }

  lemma EscapeLength(c: Code)
    requires ShortEscape(c).None? && !Printable(c)
    ensures |Escape(c)| == (if c < 0x10000 then 6 else 12) && Escape(c)[0] == BACKSLASH
  {
  }

  lemma PairIsRead(high: Code, low: Code, rest: Text)
    requires High(high) && Low(low)
    ensures ReadCode(Escape(high) + (Escape(low) + rest)) == Some((Pair(high, low), 12))
    ensures |Escape(high) + Escape(low)| == 12
  {
    var s := Escape(high) + (Escape(low) + rest);
    UnicodeIsRead(high, Escape(low) + rest);
    UnicodeIsRead(low, rest);
    assert s[0] == BACKSLASH && s[1] == U;
  }

  /** Reading what was escaped gives the text with its surrogate pairs joined. */
  lemma {:induction false} StringIsRead(t: Text, rest: Text)
    ensures ReadString(EscapeAll(t) + [QUOTE] + rest) == Some((Joined(t), rest))
    decreases |t|
  {
    hide Escape, ReadCode, ReadUnicode, ShortUnescape;
    var s := EscapeAll(t) + [QUOTE] + rest;
    if t == [] {
      assert s[0] == QUOTE && s[1..] == rest;
    } else if |t| >= 2 && High(t[0]) && Low(t[1]) {
      var after := EscapeAll(t[2..]) + [QUOTE] + rest;
      assert EscapeAll(t) == Escape(t[0]) + (Escape(t[1]) + EscapeAll(t[2..])) by {
        assert t[1..][1..] == t[2..];
      }
      assert s == Escape(t[0]) + (Escape(t[1]) + after);
      PairIsRead(t[0], t[1], after);
      NotAQuote(s);
      assert s[12..] == after;
      StringIsRead(t[2..], rest);
    } else {
      var after := EscapeAll(t[1..]) + [QUOTE] + rest;
      assert s == Escape(t[0]) + after;
      if |t| >= 2 {
        assert after == Escape(t[1]) + (EscapeAll(t[1..][1..]) + [QUOTE] + rest);
        EscapeAfterHigh(t[1], EscapeAll(t[1..][1..]) + [QUOTE] + rest);
      } else {
        QuoteIsNoEscape(after);
      }
      EscapeIsRead(t[0], after);
      assert s[|Escape(t[0])|..] == after;
      StringIsRead(t[1..], rest);
    }
  }

  lemma QuoteIsNoEscape(s: Text)
    requires s != [] && s[0] == QUOTE
    ensures ReadUnicode(s).None?
  {
  }

  lemma NotAQuote(s: Text)
    requires ReadCode(s).Some?
    ensures s != [] && s[0] != QUOTE
  {
  }

  // ------------------------------------------------------------------- values

  const OPEN: Code := 0x7B
  const CLOSE: Code := 0x7D
  const COLON: Code := 0x3A
  const COMMA: Code := 0x2C

  function PrintString(t: Text): Text {
    [QUOTE] + EscapeAll(t) + [QUOTE]
  }

  /** `json.dumps` with compact separators. */
  function Print(j: Json): Text
    decreases j, 1
  {
    match j
    case Str(t) => PrintString(t)
    case Obj(members) => [OPEN] + PrintMembers(members) + [CLOSE]
  }

  function PrintMembers(m: Members): Text
    decreases m, 0
  {
    match m
    case End => []
    case More(name, value, rest) =>
      PrintString(name) + [COLON] + Print(value) + (if rest.End? then [] else [COMMA] + PrintMembers(rest))
  }

  /** Reads one value of strings and objects without white space, and what follows it. */
  function Parse(s: Text): (r: Option<(Json, Text)>)
    ensures r.Some? ==> |r.value.1| < |s|
    decreases |s|
  {
    if s == [] then None
    else if s[0] == QUOTE then
      var text := ReadString(s[1..]);
      if text.None? then None else Some((Str(text.value.0), text.value.1))
    else if s[0] == OPEN then
      if |s| >= 2 && s[1] == CLOSE then Some((Obj(End), s[2..]))
      else
        var members := ParseMembers(s[1..]);
        if members.None? then None else Some((Obj(members.value.0), members.value.1))
    else None
  }

  /** Reads the members of an object up to its closing brace. */
  function ParseMembers(s: Text): (r: Option<(Members, Text)>)
    ensures r.Some? ==> |r.value.1| < |s|
    decreases |s|
  {
    if s == [] || s[0] != QUOTE then None
    else
      var name := ReadString(s[1..]);
      if name.None? || name.value.1 == [] || name.value.1[0] != COLON then None
      else
        var value := Parse(name.value.1[1..]);
        if value.None? || value.value.1 == [] then None
        else
          var after := value.value.1;
          if after[0] == CLOSE then Some((More(name.value.0, value.value.0, End), after[1..]))
          else if after[0] != COMMA then None
          else
            var rest := ParseMembers(after[1..]);
            if rest.None? then None else Some((More(name.value.0, value.value.0, rest.value.0), rest.value.1))
  }

  function JoinedJson(j: Json): Json {
    match j
    case Str(t) => Str(Joined(t))
    case Obj(m) => Obj(JoinedMembers(m))
  }

  function JoinedMembers(m: Members): Members {
    match m
    case End => End
    case More(name, value, rest) => More(Joined(name), JoinedJson(value), JoinedMembers(rest))
  }

  predicate PairFreeJson(j: Json) {
    match j
    case Str(t) => PairFree(t)
    case Obj(m) => PairFreeMembers(m)
  }

  predicate PairFreeMembers(m: Members) {
    match m
    case End => true
    case More(name, value, rest) => PairFree(name) && PairFreeJson(value) && PairFreeMembers(rest)
  }

  /** A printed value is one line of printable ASCII. */
  lemma {:induction false} PrintIsPrintable(j: Json)
    ensures PrintableText(Print(j)) && Print(j) != []
    decreases j, 1
  {
    match j
    case Str(t) => EscapeAllIsPrintable(t);
    case Obj(m) => MembersArePrintable(m);
  }

  lemma {:induction false} MembersArePrintable(m: Members)
    ensures PrintableText(PrintMembers(m))
    decreases m, 0
  {
    match m
    case End =>
    case More(name, value, rest) =>
      EscapeAllIsPrintable(name);
      PrintIsPrintable(value);
      MembersArePrintable(rest);
  }

  /** Reading a printed value gives it back with the surrogate pairs of its texts joined. */
  lemma {:induction false} PrintedIsRead(j: Json, rest: Text)
    ensures Parse(Print(j) + rest) == Some((JoinedJson(j), rest))
    decreases j, 1
  {
    hide ReadString, EscapeAll;
    var s := Print(j) + rest;
    match j
    case Str(t) =>
      assert s[1..] == EscapeAll(t) + [QUOTE] + rest;
      StringIsRead(t, rest);
    case Obj(m) =>
      if m.End? {
        assert s == [OPEN, CLOSE] + rest;
      } else {
        assert s[1..] == PrintMembers(m) + [CLOSE] + rest;
        assert s[1] == QUOTE;
        MembersAreRead(m, rest);
      }
  }

  lemma {:induction false} MembersAreRead(m: Members, rest: Text)
    requires m.More?
    ensures ParseMembers(PrintMembers(m) + [CLOSE] + rest) == Some((JoinedMembers(m), rest))
    decreases m, 0
  {
    hide ReadString, EscapeAll, Parse, Print;
    var s := PrintMembers(m) + [CLOSE] + rest;
    var tail := (if m.rest.End? then [] else [COMMA] + PrintMembers(m.rest)) + [CLOSE] + rest;
    var value := Print(m.value) + tail;
    assert s[1..] == EscapeAll(m.name) + [QUOTE] + ([COLON] + value);
    StringIsRead(m.name, [COLON] + value);
    assert ([COLON] + value)[1..] == value;
    PrintedIsRead(m.value, tail);
    if m.rest.More? {
      assert tail[1..] == PrintMembers(m.rest) + [CLOSE] + rest;
      MembersAreRead(m.rest, rest);
    }
  }

  lemma {:induction false} JoinedJsonIsSame(j: Json)
    ensures JoinedJson(j) == j <==> PairFreeJson(j)
    decreases j, 1
  {
    match j
    case Str(t) => JoinedIsSame(t);
    case Obj(m) => JoinedMembersIsSame(m);
  }

  lemma {:induction false} JoinedMembersIsSame(m: Members)
    ensures JoinedMembers(m) == m <==> PairFreeMembers(m)
    decreases m, 0
  {
    match m
    case End =>
    case More(name, value, rest) =>
      JoinedIsSame(name);
      JoinedJsonIsSame(value);
      JoinedMembersIsSame(rest);
  }

  /** Printing and reading is the identity exactly on values without a high surrogate
      directly in front of a low one. */
  lemma RoundTrip(j: Json)
    ensures Parse(Print(j)) == Some((j, [])) <==> PairFreeJson(j)
    ensures Parse(Print(j)) == Some((JoinedJson(j), []))
  {
    PrintedIsRead(j, []);
    assert Print(j) + [] == Print(j);
    JoinedJsonIsSame(j);
  }

  /** The two surrogates of one character, stored apart, do not come back apart. */
  lemma AdjacentSurrogatesMerge() returns (t: Text)
    ensures t == [0xD83D, 0xDE00] && Parse(Print(Str(t))) != Some((Str(t), []))
  {
    t := [0xD83D, 0xDE00];
    RoundTrip(Str(t));
    hide Parse, Print, JoinedJson;
    assert High(t[0]) && Low(t[0 + 1]);
  }

  // -------------------------------------------------------------------- lines

  const NEWLINE: Code := 0x0A

  predicate LineBreak(c: Code) {
    0x0A <= c <= 0x0D || 0x1C <= c <= 0x1E || c == 0x85 || c == 0x2028 || c == 0x2029
  }

  /** `str.splitlines`: a carriage return and a newline after it are one break. */
  function SplitLines(t: Text, line: Text): seq<Text>
    decreases |t|
  {
    if t == [] then (if line == [] then [] else [line])
    else if t[0] == 0x0D && |t| >= 2 && t[1] == NEWLINE then [line] + SplitLines(t[2..], [])
    else if LineBreak(t[0]) then [line] + SplitLines(t[1..], [])
    else SplitLines(t[1..], line + [t[0]])
  }

  function JoinLines(lines: seq<Text>): Text {
    if lines == [] then [] else lines[0] + [NEWLINE] + JoinLines(lines[1..])
  }

  lemma {:induction false} LineIsSplit(line: Text, start: Text, rest: Text)
    requires PrintableText(line)
    ensures SplitLines(line + [NEWLINE] + rest, start) == [start + line] + SplitLines(rest, [])
    decreases |line|
  {
    var t := line + [NEWLINE] + rest;
    if line == [] {
      assert t[1..] == rest && start + line == start;
    } else {
      assert t[1..] == line[1..] + [NEWLINE] + rest;
      LineIsSplit(line[1..], start + [line[0]], rest);
      assert start + [line[0]] + line[1..] == start + line;
    }
  }

  /** Printable lines, each closed by a newline, are split where they were joined. */
  lemma {:induction false} LinesRoundTrip(lines: seq<Text>)
    requires forall i :: 0 <= i < |lines| ==> PrintableText(lines[i])
    ensures SplitLines(JoinLines(lines), []) == lines
  {
    if lines != [] {
      LineIsSplit(lines[0], [], JoinLines(lines[1..]));
      assert [] + lines[0] == lines[0];
      LinesRoundTrip(lines[1..]);
    }
  }
}
