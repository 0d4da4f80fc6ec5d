/**
 The record encoder of SeedDump::DumpMethods (`dump_record`, `dump_attribute_new`,
 and the name filter of `attribute_names`): one record becomes one literal, either a
 positional array `[v1, v2]` (import mode) or a keyword hash `{a: v1, b: v2}`, with
 the excluded attributes left out and the others kept in the record's own order.
 */
module RecordEncoder {
  import opened Optional
  import opened RubyText
  import opened ValueEncoder

  /** One attribute: its name and its value. */
  type Attribute = (string, Value)

  /** A record's `attributes` hash, in its own order; every key is a String. */
  datatype Record = Record(attributes: seq<Attribute>)

  /** The names of the attributes, in order (`record.attribute_names`). */
  function Names(attrs: seq<Attribute>): (r: seq<string>)
    ensures |r| == |attrs| && forall i :: 0 <= i < |attrs| ==> r[i] == attrs[i].0
  {
    seq(|attrs|, i requires 0 <= i < |attrs| => attrs[i].0)
  }

  /** The attributes whose names the exclude list does not hold, in their order. */
  function Kept(attrs: seq<Attribute>, exclude: seq<string>): (r: seq<Attribute>)
    ensures |r| <= |attrs|
    ensures forall i :: 0 <= i < |r| ==> r[i].0 !in exclude
    ensures forall i :: 0 <= i < |attrs| && attrs[i].0 !in exclude ==> attrs[i] in r
  {
    if |attrs| == 0 then []
    else
      var last := attrs[|attrs| - 1];
      Kept(attrs[..|attrs| - 1], exclude) + (if last.0 in exclude then [] else [last])
  }

  /** The names the exclude list does not hold, in their order (the `select` of `attribute_names`). */
  function KeptNames(names: seq<string>, exclude: seq<string>): (r: seq<string>)
    ensures |r| <= |names|
    ensures forall i :: 0 <= i < |r| ==> r[i] !in exclude
    ensures forall i :: 0 <= i < |names| && names[i] !in exclude ==> names[i] in r
  {
    if |names| == 0 then []
    else
      var last := names[|names| - 1];
      KeptNames(names[..|names| - 1], exclude) + (if last in exclude then [] else [last])
  }

  /** `a` occurs in `b` with its elements in the same order, possibly with gaps. */
  predicate IsSubsequence<T(==)>(a: seq<T>, b: seq<T>)
  {
    if |a| == 0 then true
    else if |b| == 0 then false
    else (a[|a| - 1] == b[|b| - 1] && IsSubsequence(a[..|a| - 1], b[..|b| - 1]))
         || IsSubsequence(a, b[..|b| - 1])
  }

  /** The kept attributes are in the record's order. */
  lemma {:induction false} KeptPreservesOrder(attrs: seq<Attribute>, exclude: seq<string>)
    ensures IsSubsequence(Kept(attrs, exclude), attrs)
  {
    if |attrs| > 0 {
      var init := attrs[..|attrs| - 1];
      var last := attrs[|attrs| - 1];
      KeptPreservesOrder(init, exclude);
      var k := Kept(init, exclude);
      if last.0 in exclude {
        assert Kept(attrs, exclude) == k;
        if |k| > 0 {
          assert IsSubsequence(k, attrs[..|attrs| - 1]);
        }
      } else {
        assert Kept(attrs, exclude) == k + [last];
        assert (k + [last])[..|k|] == k;
      }
    }
  }

  /** The kept names are in the given order. */
  lemma {:induction false} KeptNamesPreservesOrder(names: seq<string>, exclude: seq<string>)
    ensures IsSubsequence(KeptNames(names, exclude), names)
  {
    if |names| > 0 {
      var init := names[..|names| - 1];
      var last := names[|names| - 1];
      KeptNamesPreservesOrder(init, exclude);
      var k := KeptNames(init, exclude);
      if last in exclude {
        assert KeptNames(names, exclude) == k;
        if |k| > 0 {
          assert IsSubsequence(k, names[..|names| - 1]);
        }
      } else {
        assert KeptNames(names, exclude) == k + [last];
        assert (k + [last])[..|k|] == k;
      }
    }
  }

  /** Each attribute is kept exactly as often as the record holds it, unless its name
      is excluded; then it is not kept at all. */
  lemma {:induction false} KeptCounts(attrs: seq<Attribute>, exclude: seq<string>)
    ensures forall a :: multiset(Kept(attrs, exclude))[a] == if a.0 in exclude then 0 else multiset(attrs)[a]
  {
    if |attrs| > 0 {
      var init := attrs[..|attrs| - 1];
      var last := attrs[|attrs| - 1];
      KeptCounts(init, exclude);
      assert attrs == init + [last];
      assert multiset(attrs) == multiset(init) + multiset{last};
    }
  }

  /** Each name is selected exactly as often as it is given, unless it is excluded. */
  lemma {:induction false} KeptNamesCounts(names: seq<string>, exclude: seq<string>)
    ensures forall n :: multiset(KeptNames(names, exclude))[n] == if n in exclude then 0 else multiset(names)[n]
  {
    if |names| > 0 {
      var init := names[..|names| - 1];
      var last := names[|names| - 1];
      KeptNamesCounts(init, exclude);
      assert names == init + [last];
      assert multiset(names) == multiset(init) + multiset{last};
    }
  }

  /** The header's filtered names line up with the kept attributes of a record whose
      names they are. */
  lemma {:induction false} KeptNamesAlign(attrs: seq<Attribute>, exclude: seq<string>)
    ensures KeptNames(Names(attrs), exclude) == Names(Kept(attrs, exclude))
  {
    if |attrs| > 0 {
      var init := attrs[..|attrs| - 1];
      assert Names(attrs)[..|attrs| - 1] == Names(init);
      KeptNamesAlign(init, exclude);
      var last := attrs[|attrs| - 1];
      if last.0 !in exclude {
        assert Names(Kept(init, exclude) + [last]) == Names(Kept(init, exclude)) + [last.0];
      }
    }
  }

  /** `dump_attribute_new`: the bare value in import mode, `name: value` otherwise. */
  function DumpAttribute(name: string, value: Value, importMode: bool): (r: string)
    ensures importMode ==> r == ValueToS(value)
    ensures !importMode ==> |r| >= |name| + 2 && r[..|name| + 2] == name + ": " && r[|name| + 2..] == ValueToS(value)
  {
    if importMode then ValueToS(value) else name + ": " + ValueToS(value)
  }

  /** Reads a keyed entry `name: value` back, splitting at the first colon. */
  function SplitEntry(e: string): Option<(string, string)>
  {
    match FirstIndex(e, ':')
    case Some(k) =>
      if k + 1 < |e| && e[k + 1] == ' ' then Some((e[..k], e[k + 2..])) else None
    case None => None
  }

  /** Outside import mode an entry reads back as its attribute's name and value literal,
      for a name without a colon. */
  lemma DumpAttributeReadsBack(name: string, value: Value)
    requires ':' !in name
    ensures SplitEntry(DumpAttribute(name, value, false)) == Some((name, ValueToS(value)))
  {
    var v := ValueToS(value);
    var e := DumpAttribute(name, value, false);
    assert e == name + [':'] + (" " + v);
    FirstIndexAfter(name, " " + v, ':');
    assert e[..|name|] == name;
    assert e[|name| + 2..] == v;
  }

  /** The entry written for each kept attribute. */
  function Entries(kept: seq<Attribute>, importMode: bool): (r: seq<string>)
    ensures |r| == |kept|
  {
    seq(|kept|, i requires 0 <= i < |kept| => DumpAttribute(kept[i].0, kept[i].1, importMode))
  }

  function OpenCharacter(importMode: bool): string { if importMode then "[" else "{" }

  function CloseCharacter(importMode: bool): string { if importMode then "]" else "}" }

  /** The literal `dump_record` returns for `record`. */
  function RecordLiteral(record: Record, exclude: seq<string>, importMode: bool): string
  {
    OpenCharacter(importMode) + Join(Entries(Kept(record.attributes, exclude), importMode), ", ")
      + CloseCharacter(importMode)
  }

  /** `dump_record`: collects one entry per kept attribute in a loop, then wraps them. */
  method DumpRecord(record: Record, exclude: seq<string>, importMode: bool) returns (r: string)
    ensures r == RecordLiteral(record, exclude, importMode)
  {
    var attrs := record.attributes;
    var attributeStrings: seq<string> := [];
    var i := 0;
    while i < |attrs|
      invariant 0 <= i <= |attrs|
      invariant attributeStrings == Entries(Kept(attrs[..i], exclude), importMode)
    {
      var (name, value) := attrs[i];
      assert attrs[..i + 1][..i] == attrs[..i];
      if name !in exclude {
        ghost var k := Kept(attrs[..i], exclude);
        assert Entries(k + [(name, value)], importMode) == Entries(k, importMode) + [DumpAttribute(name, value, importMode)];
        attributeStrings := attributeStrings + [DumpAttribute(name, value, importMode)];
      }
      i := i + 1;
    }
    assert attrs[..i] == attrs;
    var openCharacter, closeCharacter := OpenCharacter(importMode), CloseCharacter(importMode);
    r := openCharacter + Join(attributeStrings, ", ") + closeCharacter;
  }

  /** The literal is bracketed in import mode and braced otherwise. */
  lemma RecordLiteralDelimiters(record: Record, exclude: seq<string>, importMode: bool)
    ensures var r := RecordLiteral(record, exclude, importMode);
            |r| >= 2 && (r[0] == '[' <==> importMode) && (r[0] == '{' <==> !importMode)
            && (r[|r| - 1] == ']' <==> importMode) && (r[|r| - 1] == '}' <==> !importMode)
  {
  }

  /** No entry comes from an excluded attribute, every other attribute has one, and
      the entries follow the record's order: the i-th entry is the i-th kept value,
      bare in import mode and keyed by its name otherwise. */
  lemma RecordEntries(record: Record, exclude: seq<string>, importMode: bool)
    ensures var kept := Kept(record.attributes, exclude);
            && IsSubsequence(kept, record.attributes)
            && (forall i :: 0 <= i < |kept| ==> kept[i].0 !in exclude)
            && (forall a :: a in record.attributes && a.0 !in exclude ==> a in kept)
            && (forall i :: 0 <= i < |kept| ==>
                  Entries(kept, importMode)[i]
                  == if importMode then ValueToS(kept[i].1) else kept[i].0 + ": " + ValueToS(kept[i].1))
  {
    KeptPreservesOrder(record.attributes, exclude);
  }

  /** Import mode: when a record has the same attribute names as the one the column
      list was taken from, its k-th positional value belongs to the k-th column. */
  lemma PositionalValuesMatchColumns(first: Record, record: Record, exclude: seq<string>)
    requires Names(record.attributes) == Names(first.attributes)
    ensures var columns := KeptNames(Names(first.attributes), exclude);
            var kept := Kept(record.attributes, exclude);
            && |Entries(kept, true)| == |columns|
            && forall k :: 0 <= k < |columns| ==>
                 kept[k].0 == columns[k] && Entries(kept, true)[k] == ValueToS(kept[k].1)
  {
    KeptNamesAlign(record.attributes, exclude);
  }

  /** The attributes of the example record below. */
  function ExampleAttributes(): seq<Attribute>
  {
    [("id", Integer(1)), ("name", Text("Al")), ("created_at", Temporal("2020-01-01 00:00:00"))]
  }

  /** Of `id`, `name` and `created_at`, the default exclude list keeps only `name`. */
  lemma ExampleKept()
    ensures Kept(ExampleAttributes(), ["id", "created_at", "updated_at"]) == [("name", Text("Al"))]
  {
    var attrs := ExampleAttributes();
    assert attrs[..2][..1] == [("id", Integer(1))];
    assert attrs[..2] == [("id", Integer(1)), ("name", Text("Al"))];
  }

  /** Outside import mode the kept attribute is written as `name: "Al"`. */
  lemma ExampleEntry()
    ensures DumpAttribute("name", Text("Al"), false) == "name: " + "\"Al\""
  {
    assert InspectBody("Al") == "Al";
  }

  /** The example record is written as a keyword hash holding only `name`. */
  lemma DefaultExcludeExample()
    ensures RecordLiteral(Record(ExampleAttributes()), ["id", "created_at", "updated_at"], false)
            == "{" + "name: " + "\"Al\"" + "}"
  {
    ExampleKept();
    ExampleEntry();
    var entries := Entries([("name", Text("Al"))], false);
    assert entries == [DumpAttribute("name", Text("Al"), false)];
  }
}
