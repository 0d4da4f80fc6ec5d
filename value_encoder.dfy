/**
 The value encoder of SeedDump::DumpMethods (`value_to_s` and `range_to_string`):
 every attribute value becomes a Ruby literal. Decimals, IP addresses, dates and
 times, ranges and geometries are first turned into text and the text is then
 quoted with String#inspect; every other value is written by its own #inspect.

 The run-time class test of the source becomes the constructor of `Value`. The
 formats produced by library code (BigDecimal#to_s, IPAddr#to_s, to_s(:db), RGeo's
 to_s, and #inspect of objects this model does not know) are carried as text.
 */
module ValueEncoder {
  import opened Optional
  import opened RubyText

  /** A range endpoint: its `to_s`, or an infinite float (`infinite?` is true). */
  datatype Bound = Finite(text: string) | Infinite

  datatype Value =
    | Nil
    | Boolean(b: bool)
    | Integer(i: int)
    | Text(s: string)
    | BigDecimal(decimalText: string)       // BigDecimal#to_s
    | IpAddress(addressText: string)        // IPAddr#to_s
    | Temporal(dbText: string)              // Date, Time or DateTime, to_s(:db)
    | Range(lo: Bound, hi: Bound, excludeEnd: bool)
    | Geometry(geometryText: string)        // an RGeo::Feature::Instance, to_s
    | Other(inspected: string)              // any other object, its own #inspect

  /** The kinds `value_to_s` turns into text before calling #inspect. */
  predicate ConvertedBeforeInspect(v: Value)
  {
    v.BigDecimal? || v.IpAddress? || v.Temporal? || v.Range? || v.Geometry?
  }

  /** `"#{bound}"` inside `range_to_string`: an infinite endpoint is left empty. */
  function BoundText(b: Bound): string
  {
    match b
    case Finite(t) => t
    case Infinite => ""
  }

  /** `range_to_string`: the range in bracket notation, `[lo,hi]` or `[lo,hi)`. */
  function RangeToString(lo: Bound, hi: Bound, excludeEnd: bool): (r: string)
    ensures |r| >= 3 && r[0] == '['
    ensures r[|r| - 1] == ')' <==> excludeEnd
    ensures r[|r| - 1] == ']' <==> !excludeEnd
    ensures lo.Infinite? ==> r[1] == ','
    ensures hi.Infinite? ==> r[|r| - 2] == ','
    ensures |r| == |BoundText(lo)| + |BoundText(hi)| + 3
  {
    "[" + BoundText(lo) + "," + BoundText(hi) + (if excludeEnd then ")" else "]")
  }

  /** The text a converted value is turned into before it is quoted. */
  function ConvertedText(v: Value): string
    requires ConvertedBeforeInspect(v)
  {
    match v
    case BigDecimal(t) => t
    case IpAddress(t) => t
    case Temporal(t) => t
    case Range(lo, hi, excludeEnd) => RangeToString(lo, hi, excludeEnd)
    case Geometry(t) => t
  }

  /** `value_to_s`: the Ruby literal written for one attribute value. */
  function ValueToS(v: Value): (r: string)
    ensures ConvertedBeforeInspect(v) || v.Text? ==> |r| >= 2 && r[0] == '"' && r[|r| - 1] == '"'
    ensures v.Nil? ==> r == "nil"
    ensures v.Boolean? ==> r == (if v.b then "true" else "false")
    ensures v.Other? ==> r == v.inspected
  {
    match v
    case Nil => "nil"
    case Boolean(b) => if b then "true" else "false"
    case Integer(i) => IntegerText(i)
    case Text(s) => InspectString(s)
    case Other(t) => t
    case _ => InspectString(ConvertedText(v))
  }

  /** Every literal of a converted kind is a string literal reading back as the converted
      text; a String reads back as itself and an Integer as the same number. */
  lemma ValueToSReadsBack(v: Value)
    ensures ConvertedBeforeInspect(v) ==> Unquote(ValueToS(v)) == Some(ConvertedText(v))
    ensures v.Text? ==> Unquote(ValueToS(v)) == Some(v.s)
    ensures v.Integer? ==> ParseInteger(ValueToS(v)) == Some(v.i)
  {
    match v
    case Integer(i) => IntegerRoundTrip(i);
    case Text(s) => InspectRoundTrip(s);
    case Nil =>
    case Boolean(_) =>
    case Other(_) =>
    case _ => InspectRoundTrip(ConvertedText(v));
  }

  /** Only Nil is written as the bare `nil`; a quoted literal never comes from Nil,
      Boolean or Integer. */
  lemma NilStaysUnquoted(v: Value)
    ensures v.Nil? || v.Boolean? || v.Integer? ==> ValueToS(v)[0] != '"'
    ensures ConvertedBeforeInspect(v) || v.Text? ==> ValueToS(v) != "nil"
  {
    if v.Integer? {
      var t := IntegerText(v.i);
      if v.i >= 0 {
        assert IsDigit(t[0]);
      }
    }
  }

  // ---------------------------------------------------------------------------
  // Reading the bracket notation back
  // ---------------------------------------------------------------------------

  datatype RangeParts = RangeParts(loText: string, hiText: string, excludeEnd: bool)

  /** The position of the first `c` in `s`. */
  function FirstIndex(s: string, c: char): (k: Option<nat>)
    ensures k.Some? ==> k.value < |s| && s[k.value] == c && c !in s[..k.value]
    ensures k.None? ==> c !in s
  {
    if |s| == 0 then None
    else if s[0] == c then Some(0)
    else match FirstIndex(s[1..], c)
      case Some(j) => assert s[..j + 1] == [s[0]] + s[1..][..j]; Some(j + 1)
      case None => assert s == [s[0]] + s[1..]; None
  }

  /** Reads `[lo,hi]` / `[lo,hi)`, splitting at the first comma. */
  function ParseRange(t: string): Option<RangeParts>
  {
    if |t| >= 3 && t[0] == '[' && (t[|t| - 1] == ')' || t[|t| - 1] == ']') then
      var inner := t[1..|t| - 1];
      match FirstIndex(inner, ',')
      case Some(k) => Some(RangeParts(inner[..k], inner[k + 1..], t[|t| - 1] == ')'))
      case None => None
    else None
  }

  lemma FirstIndexAfter(a: string, b: string, c: char)
    requires c !in a
    ensures FirstIndex(a + [c] + b, c) == Some(|a|)
  {
    var s := a + [c] + b;
    assert s[|a|] == c;
    assert s[..|a|] == a;
  }

  /** The bracket notation reads back as both endpoints' text and the exclusivity
      of the end, provided the lower endpoint's text holds no comma. */
  lemma RangeRoundTrip(lo: Bound, hi: Bound, excludeEnd: bool)
    requires ',' !in BoundText(lo)
    ensures ParseRange(RangeToString(lo, hi, excludeEnd))
            == Some(RangeParts(BoundText(lo), BoundText(hi), excludeEnd))
  {
    var t := RangeToString(lo, hi, excludeEnd);
    var inner := t[1..|t| - 1];
    assert inner == BoundText(lo) + [','] + BoundText(hi);
    FirstIndexAfter(BoundText(lo), BoundText(hi), ',');
    assert inner[..|BoundText(lo)|] == BoundText(lo);
    assert inner[|BoundText(lo)| + 1..] == BoundText(hi);
  }

  /** Without the comma condition the notation is ambiguous: a comma inside a bound's
      text cannot be told from the separator, so two different ranges share one text. */
  lemma RangeNotationCollision()
    ensures Range(Finite("a,b"), Finite("c"), false) != Range(Finite("a"), Finite("b,c"), false)
    ensures RangeToString(Finite("a,b"), Finite("c"), false) == RangeToString(Finite("a"), Finite("b,c"), false)
    ensures RangeToString(Finite("a"), Finite("b,c"), false) == "[a,b,c]"
  {
  }

  /** A range attribute is written as a string literal holding its bracket notation. */
  lemma RangeLiteralReadsBack(lo: Bound, hi: Bound, excludeEnd: bool)
    requires ',' !in BoundText(lo)
    ensures Unquote(ValueToS(Range(lo, hi, excludeEnd))).Some?
    ensures ParseRange(Unquote(ValueToS(Range(lo, hi, excludeEnd))).value)
            == Some(RangeParts(BoundText(lo), BoundText(hi), excludeEnd))
  {
    ValueToSReadsBack(Range(lo, hi, excludeEnd));
    RangeRoundTrip(lo, hi, excludeEnd);
  }

  /** The examples of the bracket notation: 1..5, 1...5 and -Infinity..5. */
  lemma RangeExamples()
    ensures RangeToString(Finite("1"), Finite("5"), false) == "[1,5]"
    ensures RangeToString(Finite("1"), Finite("5"), true) == "[1,5)"
    ensures RangeToString(Infinite, Finite("5"), false) == "[,5]"
  {
  }
}
