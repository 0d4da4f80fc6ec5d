/**
 The Ruby core conversions the dump code relies on when it builds source text:
 Array#join, String#inspect, Integer#inspect and Symbol#inspect. Each writer comes
 with a reader that inverts it, so that the literals it produces can be shown to
 read back as the value they were written from.
 */
module RubyText {
  import opened Optional

  // ---------------------------------------------------------------------------
  // Array#join
  // ---------------------------------------------------------------------------

  /** `parts.join(sep)`: the parts in order, with `sep` between neighbours. */
  function Join(parts: seq<string>, sep: string): string
  {
    if |parts| == 0 then ""
    else if |parts| == 1 then parts[0]
    else parts[0] + sep + Join(parts[1..], sep)
  }

  /** Joining two non-empty lists equals joining each and putting one separator between. */
  lemma {:induction false} JoinAppend(a: seq<string>, b: seq<string>, sep: string)
    requires |a| > 0 && |b| > 0
    ensures Join(a + b, sep) == Join(a, sep) + sep + Join(b, sep)
  {
    if |a| == 1 {
      assert (a + b)[0] == a[0];
      assert (a + b)[1..] == b;
    } else {
      assert (a + b)[0] == a[0];
      assert (a + b)[1..] == a[1..] + b;
      JoinAppend(a[1..], b, sep);
    }
  }

  // ---------------------------------------------------------------------------
  // String#inspect
  // ---------------------------------------------------------------------------

  /** The letter after the backslash when String#inspect escapes `c` on its own. */
  function EscapeLetter(c: char): Option<char>
  {
    if c == '"' then Some('"')
    else if c == '\\' then Some('\\')
    else if c == '\n' then Some('n')
    else if c == '\t' then Some('t')
    else if c == '\r' then Some('r')
    else if c == '\U{0C}' then Some('f')
    else if c == '\U{0B}' then Some('v')
    else if c == '\U{08}' then Some('b')
    else if c == '\U{07}' then Some('a')
    else if c == '\U{1B}' then Some('e')
    else None
  }

  /** The character a Ruby double-quoted literal means by backslash + `x`. */
  function UnescapeLetter(x: char): Option<char>
  {
    if x == '"' then Some('"')
    else if x == '\\' then Some('\\')
    else if x == 'n' then Some('\n')
    else if x == 't' then Some('\t')
    else if x == 'r' then Some('\r')
    else if x == 'f' then Some('\U{0C}')
    else if x == 'v' then Some('\U{0B}')
    else if x == 'b' then Some('\U{08}')
    else if x == 'a' then Some('\U{07}')
    else if x == 'e' then Some('\U{1B}')
    else if x == '#' then Some('#')
    else None
  }

  /** A `#` that would start an interpolation (`#{`, `#$`, `#@`) is escaped by String#inspect. */
  predicate StartsInterpolation(next: Option<char>)
  {
    next.Some? && (next.value == '{' || next.value == '$' || next.value == '@')
  }

  /** The text String#inspect writes for `c`, given the character that follows it. */
  function EscapeChar(c: char, next: Option<char>): (r: string)
    ensures |r| == 1 ==> r[0] == c && c != '"' && c != '\\'
    ensures |r| == 2 ==> r[0] == '\\' && UnescapeLetter(r[1]) == Some(c)
    ensures |r| == 1 || |r| == 2
  {
    match EscapeLetter(c)
    case Some(x) => ['\\', x]
    case None => if c == '#' && StartsInterpolation(next) then ['\\', '#'] else [c]
  }

  /** The body of `s.inspect`, between its quotes. */
  function InspectBody(s: string): string
  {
    if |s| == 0 then ""
    else EscapeChar(s[0], if |s| > 1 then Some(s[1]) else None) + InspectBody(s[1..])
  }

  /** `s.inspect` for a String: a double-quoted literal. */
  function InspectString(s: string): (r: string)
    ensures |r| >= 2 && r[0] == '"' && r[|r| - 1] == '"'
  {
    "\"" + InspectBody(s) + "\""
  }

  /** Reads the body of a double-quoted literal back into the string it denotes;
      None when the body holds a bare quote, an unescaped `#` that Ruby would take as
      the start of an interpolation, or an escape this model does not write. */
  function UnescapeBody(t: string): Option<string>
  {
    if |t| == 0 then Some("")
    else if t[0] == '"' then None
    else if t[0] == '#' && |t| > 1 && StartsInterpolation(Some(t[1])) then None
    else if t[0] == '\\' then
      if |t| == 1 then None
      else match (UnescapeLetter(t[1]), UnescapeBody(t[2..]))
        case (Some(c), Some(rest)) => Some([c] + rest)
        case _ => None
    else match UnescapeBody(t[1..])
      case Some(rest) => Some([t[0]] + rest)
      case None => None
  }

  /** Reads a double-quoted literal; None when `r` is not one. */
  function Unquote(r: string): Option<string>
  {
    if |r| >= 2 && r[0] == '"' && r[|r| - 1] == '"' then UnescapeBody(r[1..|r| - 1]) else None
  }

  /** A body holding `#{` unescaped is not read as plain text: Ruby would interpolate. */
  lemma InterpolationIsNotText()
    ensures UnescapeBody("#{x}") == None
    ensures UnescapeBody("\\#{x}") == Some("#{x}")
  {
    assert UnescapeBody("}") == Some("}") by { assert "}"[1..] == "" && ['}'] + "" == "}"; }
    assert UnescapeBody("x}") == Some("x}") by { assert "x}"[1..] == "}" && ['x'] + "}" == "x}"; }
    assert UnescapeBody("{x}") == Some("{x}") by { assert "{x}"[1..] == "x}" && ['{'] + "x}" == "{x}"; }
    assert "\\#{x}"[2..] == "{x}";
    assert ['#'] + "{x}" == "#{x}";
  }

  lemma {:induction false} InspectBodyRoundTrip(s: string)
    ensures UnescapeBody(InspectBody(s)) == Some(s)
  {
    if |s| > 0 {
      var e := EscapeChar(s[0], if |s| > 1 then Some(s[1]) else None);
      var rest := InspectBody(s[1..]);
      InspectBodyRoundTrip(s[1..]);
      assert InspectBody(s) == e + rest;
      if |e| == 1 {
        assert (e + rest)[0] == s[0];
        assert (e + rest)[1..] == rest;
      } else {
        assert (e + rest)[0] == '\\';
        assert (e + rest)[1] == e[1];
        assert (e + rest)[2..] == rest;
      }
      assert [s[0]] + s[1..] == s;
    }
  }

  /** String#inspect loses nothing: the literal reads back as the original string. */
  lemma InspectRoundTrip(s: string)
    ensures Unquote(InspectString(s)) == Some(s)
  {
    var r := InspectString(s);
    assert r[1..|r| - 1] == InspectBody(s);
    InspectBodyRoundTrip(s);
  }

  // ---------------------------------------------------------------------------
  // Integer#inspect (decimal digits with a leading minus for negatives)
  // ---------------------------------------------------------------------------

  predicate IsDigit(c: char)
  {
    '0' <= c <= '9'
  }

  predicate AllDigits(t: string)
  {
    forall i :: 0 <= i < |t| ==> IsDigit(t[i])
  }

  function DigitChar(d: nat): (c: char)
    requires d < 10
    ensures IsDigit(c) && c as int - '0' as int == d
  {
    ('0' as int + d) as char
  }

  /** The decimal digits of `n`, most significant first. */
  function NatText(n: nat): (r: string)
    ensures |r| >= 1 && AllDigits(r)
    ensures |r| > 1 ==> r[0] != '0'
    decreases n
  {
    if n < 10 then [DigitChar(n)] else NatText(n / 10) + [DigitChar(n % 10)]
  }

  /** `i.inspect` for an Integer. */
  function IntegerText(i: int): string
  {
    if i < 0 then "-" + NatText(-i) else NatText(i)
  }

  /** The number a non-empty run of decimal digits denotes. */
  function DigitsValue(t: string): nat
    requires |t| >= 1 && AllDigits(t)
  {
    var d := t[|t| - 1] as int - '0' as int;
    if |t| == 1 then d else DigitsValue(t[..|t| - 1]) * 10 + d
  }

  /** Decimal digits as Ruby reads them in decimal: one digit, or several without a
      leading zero (Ruby reads `010` as an octal literal). */
  predicate DecimalDigits(t: string)
  {
    |t| >= 1 && AllDigits(t) && (|t| == 1 || t[0] != '0')
  }

  /** Reads a decimal Ruby integer literal made of an optional minus and digits. */
  function ParseInteger(t: string): Option<int>
  {
    if |t| >= 2 && t[0] == '-' && DecimalDigits(t[1..]) then Some(0 - DigitsValue(t[1..]) as int)
    else if DecimalDigits(t) then Some(DigitsValue(t))
    else None
  }

  lemma {:induction false} NatTextRoundTrip(n: nat)
    ensures DigitsValue(NatText(n)) == n
    decreases n
  {
    if n >= 10 {
      var t := NatText(n);
      assert t == NatText(n / 10) + [DigitChar(n % 10)];
      assert t[..|t| - 1] == NatText(n / 10);
      NatTextRoundTrip(n / 10);
    }
  }

  /** Integer#inspect reads back as the same integer. */
  lemma IntegerRoundTrip(i: int)
    ensures ParseInteger(IntegerText(i)) == Some(i)
  {
    if i < 0 {
      NegativeRoundTrip(i);
    } else {
      NonNegativeRoundTrip(i);
    }
  }

  lemma NegativeRoundTrip(i: int)
    requires i < 0
    ensures ParseInteger(IntegerText(i)) == Some(i)
  {
    var digits := NatText(-i);
    var t := "-" + digits;
    assert t[1..] == digits;
    assert |t| >= 2 && t[0] == '-';
    NatTextRoundTrip(-i);
  }

  lemma NonNegativeRoundTrip(i: int)
    requires i >= 0
    ensures ParseInteger(IntegerText(i)) == Some(i)
  {
    var t := NatText(i);
    assert IsDigit(t[0]);
    NatTextRoundTrip(i);
  }

  // ---------------------------------------------------------------------------
  // Symbol#inspect
  // ---------------------------------------------------------------------------

  predicate IsIdentifierStart(c: char)
  {
    ('a' <= c <= 'z') || ('A' <= c <= 'Z') || c == '_'
  }

  /** A name that Symbol#inspect writes without quotes: an ASCII identifier. */
  predicate IsPlainSymbolName(name: string)
  {
    && |name| > 0
    && IsIdentifierStart(name[0])
    && forall i :: 1 <= i < |name| ==> IsIdentifierStart(name[i]) || IsDigit(name[i])
  }

  /** `name.to_sym.inspect`: `:name`, or `:"name"` when the name is not an identifier. */
  function SymbolInspect(name: string): (r: string)
    ensures |r| >= 2 && r[0] == ':'
    ensures r[1] == '"' <==> !IsPlainSymbolName(name)
  {
    if IsPlainSymbolName(name) then ":" + name else ":" + InspectString(name)
  }

  /** Reads a symbol literal back into its name: a bare identifier, or a quoted name. */
  function SymbolName(r: string): Option<string>
  {
    if |r| >= 2 && r[0] == ':' then
      if r[1] == '"' then Unquote(r[1..])
      else if IsPlainSymbolName(r[1..]) then Some(r[1..])
      else None
    else None
  }

  /** Symbol#inspect reads back as the same name. */
  lemma SymbolRoundTrip(name: string)
    ensures SymbolName(SymbolInspect(name)) == Some(name)
  {
    var r := SymbolInspect(name);
    if IsPlainSymbolName(name) {
      assert r[1] == name[0];
      assert r[1..] == name;
    } else {
      assert r[1..] == InspectString(name);
      InspectRoundTrip(name);
    }
  }
}
