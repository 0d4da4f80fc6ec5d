/**
 The statement composer of SeedDump::DumpMethods (`write_records_to_io`, `io_write`,
 `active_record_import_options`, `attribute_names`): it writes one call,
 `Model.create!([...])` or `Model.import([:a, :b], [...])`, into the output, piece by
 piece, each piece indented when an indentation is set.

 The output (a File or a StringIO) is a `Sink` holding the text written so far; the
 options hash is an `Options` object whose `exclude` and `indentation` entries are
 updated in place. The batches of encoded records, which the enumeration strategies
 produce, are an input. `String#indent` from the indentation gem is a parameter.
 */
module StatementComposer {
  import opened Optional
  import opened RubyText
  import opened ValueEncoder
  import opened RecordEncoder

  /** `options[:import]`: absent (nil or false), any other true value, or a Hash whose
      pairs (each key's and value's `to_s`) become extra arguments of `import`. */
  datatype ImportOption = NoImport | ImportFlag | ImportSettings(settings: seq<(string, string)>)
  {
    /** Ruby truthiness of `options[:import]`. */
    predicate Enabled() { !NoImport? }
  }

  /** What `dump` is given: an ActiveRecord class or relation (queried for its count and
      column names), or an in-memory collection of records. `model` is the text that
      `model_for` interpolates. */
  datatype Records =
    | Query(model: string, columnNames: seq<string>, size: nat)
    | Collection(model: string, items: seq<Record>)

  /** `records.count`. */
  function Count(records: Records): nat
  {
    match records
    case Query(_, _, size) => size
    case Collection(_, items) => |items|
  }

  /** One batch handed to the block of `write_records_to_io`: the encoded records and
      whether it is the last one. */
  datatype Batch = Batch(recordStrings: seq<string>, lastBatch: bool)

  /** `String#indent(n)` of the indentation gem. */
  type Indenter = (string, nat) -> string

  /** The output the dump writes to: a File (with a path) or a StringIO (without one). */
  class Sink {
    const path: Option<string>
    var text: string

    constructor (path: Option<string>)
      ensures this.path == path && text == ""
    {
      this.path := path;
      text := "";
    }

    /** `io.write(s)`. */
    method Write(s: string)
      modifies this
      ensures text == old(text) + s
    {
      text := text + s;
    }
  }

  /** The options hash. Only `exclude` and `indentation` are ever assigned. */
  class Options {
    const file: Option<string>
    const migration: bool
    const query: Option<string>
    const importOption: ImportOption
    var exclude: Option<seq<string>>
    var indentation: Option<nat>

    constructor (file: Option<string>, migration: bool, query: Option<string>,
                 importOption: ImportOption, exclude: Option<seq<string>>, indentation: Option<nat>)
      ensures this.file == file && this.migration == migration && this.query == query
      ensures this.importOption == importOption && this.exclude == exclude
      ensures this.indentation == indentation
    {
      this.file := file;
      this.migration := migration;
      this.query := query;
      this.importOption := importOption;
      this.exclude := exclude;
      this.indentation := indentation;
    }
  }

  predicate IsSpace(c: char)
  {
    c == ' ' || c == '\t' || c == '\n' || c == '\r' || c == '\U{0B}' || c == '\U{0C}'
  }

  /** ActiveSupport's `present?` on `options[:file]`: set, and not only white space. */
  predicate Present(file: Option<string>)
  {
    file.Some? && exists i :: 0 <= i < |file.value| && !IsSpace(file.value[i])
  }

  /** The exclude list used when none is given. */
  function DefaultExclude(): seq<string>
  {
    ["id", "created_at", "updated_at"]
  }

  /** `options[:exclude] ||= [:id, :created_at, :updated_at]`. */
  function Defaulted(exclude: Option<seq<string>>): (r: seq<string>)
    ensures exclude.Some? ==> r == exclude.value
    ensures exclude.None? ==> "id" in r && "created_at" in r && "updated_at" in r && |r| == 3
  {
    match exclude
    case Some(e) => e
    case None => DefaultExclude()
  }


  // ---------------------------------------------------------------------------
  // The text of the call
  // ---------------------------------------------------------------------------

  /** The text `io_write` writes for `sentence`: indented only when an indentation is set. */
  function Out(sentence: string, indentation: Option<nat>, indent: Indenter): (r: string)
    ensures indentation.None? ==> r == sentence
    ensures indentation.Some? ==> r == indent(sentence, indentation.value)
  {
    match indentation
    case Some(n) => indent(sentence, n)
    case None => sentence
  }

  /** `method` in `write_records_to_io`. */
  function MethodName(importOption: ImportOption): (r: string)
    ensures r == "import" <==> importOption.Enabled()
    ensures r == "create!" <==> !importOption.Enabled()
  {
    if importOption.Enabled() then "import" else "create!"
  }

  /** One `key: value` argument of `active_record_import_options`. */
  function SettingText(setting: (string, string)): string
  {
    setting.0 + ": " + setting.1
  }

  function SettingTexts(settings: seq<(string, string)>): (r: seq<string>)
    ensures |r| == |settings|
  {
    seq(|settings|, i requires 0 <= i < |settings| => SettingText(settings[i]))
  }

  /** `active_record_import_options`: nothing unless `options[:import]` is a Hash, then
      `", "` and its pairs as `key: value`, in the Hash's order. */
  function ImportOptionsText(importOption: ImportOption): (r: string)
    ensures r == "" <==> !importOption.ImportSettings?
    ensures importOption.ImportSettings? ==>
              |r| >= 2 && r[..2] == ", " && r[2..] == Join(SettingTexts(importOption.settings), ", ")
  {
    match importOption
    case ImportSettings(settings) =>
      var r := ", " + Join(SettingTexts(settings), ", ");
      assert r[2..] == Join(SettingTexts(settings), ", ");
      r
    case _ => ""
  }

  /** `attribute_names`: the class's or the first record's attribute names, without the
      excluded ones. */
  function AttributeNames(records: Records, exclude: seq<string>): seq<string>
    requires Count(records) > 0
  {
    match records
    case Query(_, columnNames, _) => KeptNames(columnNames, exclude)
    case Collection(_, items) => KeptNames(Names(items[0].attributes), exclude)
  }

  /** The column list holds exactly the names the exclude list does not hold, in the
      order the class or the first record gives them. */
  lemma AttributeNamesSelect(records: Records, exclude: seq<string>)
    requires Count(records) > 0
    ensures var columns := if records.Query? then records.columnNames else Names(records.items[0].attributes);
            var r := AttributeNames(records, exclude);
            && IsSubsequence(r, columns)
            && (forall i :: 0 <= i < |r| ==> r[i] !in exclude)
            && (forall i :: 0 <= i < |columns| && columns[i] !in exclude ==> columns[i] in r)
  {
    var columns := if records.Query? then records.columnNames else Names(records.items[0].attributes);
    KeptNamesPreservesOrder(columns, exclude);
  }

  /** `names.map { |name| name.to_sym.inspect }`. */
  function Symbols(names: seq<string>): (r: seq<string>)
    ensures |r| == |names|
  {
    seq(|names|, i requires 0 <= i < |names| => SymbolInspect(names[i]))
  }

  /** The column list written in import mode: `[:a, :b], `. */
  function SymbolList(names: seq<string>): string
  {
    "[" + Join(Symbols(names), ", ") + "], "
  }

  /** The text between batches, and between the records of one batch. */
  const Separator: string := ",\n  "

  /** The opening of the record array. */
  const ArrayOpen: string := "[\n  "

  /** `"#{model_for(records)}.#{method}("`. */
  function Head(records: Records, importOption: ImportOption): string
  {
    records.model + "." + MethodName(importOption) + "("
  }

  /** `"\n]#{active_record_import_options(options)})\n"`. */
  function ClosingText(importOption: ImportOption): string
  {
    "\n]" + ImportOptionsText(importOption) + ")\n"
  }

  /** What the block writes for one batch. */
  function BatchText(b: Batch, indentation: Option<nat>, indent: Indenter): string
  {
    Out(Join(b.recordStrings, Separator), indentation, indent)
      + (if b.lastBatch then "" else Out(Separator, indentation, indent))
  }

  /** What the block writes for all batches, in order. */
  function BatchesText(batches: seq<Batch>, indentation: Option<nat>, indent: Indenter): string
  {
    if |batches| == 0 then ""
    else BatchesText(batches[..|batches| - 1], indentation, indent)
         + BatchText(batches[|batches| - 1], indentation, indent)
  }

  /** The text before the record array: the receiver and method, and the column list in import mode. */
  function HeadText(records: Records, exclude: seq<string>, importOption: ImportOption,
                    indentation: Option<nat>, indent: Indenter): string
    requires Count(records) > 0
  {
    Out(Head(records, importOption), indentation, indent)
      + (if importOption.Enabled() then Out(SymbolList(AttributeNames(records, exclude)), indentation, indent) else "")
  }

  /** Everything `write_records_to_io` writes, each piece through `io_write`. */
  function StatementText(records: Records, exclude: seq<string>, importOption: ImportOption,
                         batches: seq<Batch>, indentation: Option<nat>, indent: Indenter): string
    requires Count(records) > 0
  {
    HeadText(records, exclude, importOption, indentation, indent)
      + Out(ArrayOpen, indentation, indent)
      + BatchesText(batches, indentation, indent)
      + Out(ClosingText(importOption), indentation, indent)
  }

  /** The records of all batches, in order. */
  function AllRecordStrings(batches: seq<Batch>): seq<string>
  {
    if |batches| == 0 then []
    else AllRecordStrings(batches[..|batches| - 1]) + batches[|batches| - 1].recordStrings
  }

  /** Batches as the enumeration strategies hand them over: at least one, none empty,
      and only the final one flagged last. */
  predicate WellFormedBatches(batches: seq<Batch>)
  {
    && |batches| > 0
    && (forall i :: 0 <= i < |batches| ==> |batches[i].recordStrings| > 0)
    && (forall i :: 0 <= i < |batches| ==> (batches[i].lastBatch <==> i == |batches| - 1))
  }

  lemma {:induction false} NonFinalBatchesLayout(batches: seq<Batch>, indent: Indenter)
    requires |batches| > 0
    requires forall i :: 0 <= i < |batches| ==> |batches[i].recordStrings| > 0 && !batches[i].lastBatch
    ensures |AllRecordStrings(batches)| > 0
    ensures BatchesText(batches, None, indent) == Join(AllRecordStrings(batches), Separator) + Separator
  {
    var init, b := batches[..|batches| - 1], batches[|batches| - 1];
    if |init| > 0 {
      NonFinalBatchesLayout(init, indent);
      JoinAppend(AllRecordStrings(init), b.recordStrings, Separator);
    } else {
      assert AllRecordStrings(batches) == b.recordStrings;
    }
  }

  /** Without indentation the batching leaves no trace: the records of all batches are
      written as one list separated by `",\n  "`, with no separator after the last. */
  lemma BatchesLayout(batches: seq<Batch>, indent: Indenter)
    requires WellFormedBatches(batches)
    ensures BatchesText(batches, None, indent) == Join(AllRecordStrings(batches), Separator)
  {
    var init, b := batches[..|batches| - 1], batches[|batches| - 1];
    if |init| > 0 {
      NonFinalBatchesLayout(init, indent);
      JoinAppend(AllRecordStrings(init), b.recordStrings, Separator);
    } else {
      assert AllRecordStrings(batches) == b.recordStrings;
    }
  }

  /** The whole call, unindented: head, column list in import mode, then every record
      of every batch in one `[ ... ]` list, the import options and `)`. */
  lemma StatementLayout(records: Records, exclude: seq<string>, importOption: ImportOption,
                        batches: seq<Batch>, indent: Indenter)
    requires Count(records) > 0
    requires WellFormedBatches(batches)
    ensures StatementText(records, exclude, importOption, batches, None, indent)
            == records.model + "." + (if importOption.Enabled() then "import" else "create!") + "("
               + (if importOption.Enabled() then SymbolList(AttributeNames(records, exclude)) else "")
               + "[\n  " + Join(AllRecordStrings(batches), ",\n  ") + "\n]"
               + ImportOptionsText(importOption) + ")\n"
  {
    BatchesLayout(batches, indent);
    var front := HeadText(records, exclude, importOption, None, indent) + ArrayOpen
                 + Join(AllRecordStrings(batches), Separator);
    assert StatementText(records, exclude, importOption, batches, None, indent)
           == front + (("\n]" + ImportOptionsText(importOption)) + ")\n");
    AppendAssociates(front, "\n]" + ImportOptionsText(importOption), ")\n");
    AppendAssociates(front, "\n]", ImportOptionsText(importOption));
  }

  /** The column list names every kept column, in order, each as a symbol reading back
      as that name. */
  lemma ColumnSymbols(names: seq<string>)
    ensures forall i :: 0 <= i < |names| ==> SymbolName(Symbols(names)[i]) == Some(names[i])
  {
    forall i | 0 <= i < |names|
      ensures SymbolName(Symbols(names)[i]) == Some(names[i])
    {
      SymbolRoundTrip(names[i]);
    }
  }

  /** The record `{name: "Al", age: 5}` of model `Model`, used by the example below. */
  function ExampleRecords(): (r: Records)
    ensures Count(r) == 1
  {
    Collection("Model", [Record([("name", Text("Al")), ("age", Integer(5))])])
  }

  /** The example's values as literals. */
  lemma ExampleValues()
    ensures ValueToS(Text("Al")) == "\"Al\"" && ValueToS(Integer(5)) == "5"
  {
    assert InspectBody("Al") == "Al";
  }

  /** In import mode the example record is written as a positional array. */
  lemma ExampleRecordLiteral()
    ensures RecordLiteral(ExampleRecords().items[0], DefaultExclude(), true) == "[" + "\"Al\", 5" + "]"
  {
    ExampleRecordKept();
    ExampleValues();
    var attrs := ExampleRecords().items[0].attributes;
    assert Entries(attrs, true) == ["\"Al\"", "5"];
  }

  /** Neither of the example's attributes is excluded by default. */
  lemma ExampleRecordKept()
    ensures Kept(ExampleRecords().items[0].attributes, DefaultExclude()) == ExampleRecords().items[0].attributes
  {
    var attrs := ExampleRecords().items[0].attributes;
    assert attrs[..1] == [("name", Text("Al"))];
  }

  /** The example's columns, neither of them excluded by default. */
  lemma ExampleAttributeNames()
    ensures AttributeNames(ExampleRecords(), DefaultExclude()) == ["name", "age"]
  {
    var names := Names(ExampleRecords().items[0].attributes);
    assert names == ["name", "age"];
    assert names[..1] == ["name"];
    assert KeptNames(names[..1], DefaultExclude()) == ["name"];
  }

  /** `name` is an identifier, so it is written as a bare symbol. */
  lemma ExampleNameSymbol()
    ensures SymbolInspect("name") == ":name"
  {
    assert "name"[1] == 'a' && "name"[2] == 'm' && "name"[3] == 'e';
  }

  /** `age` is an identifier, so it is written as a bare symbol. */
  lemma ExampleAgeSymbol()
    ensures SymbolInspect("age") == ":age"
  {
    assert "age"[1] == 'g' && "age"[2] == 'e';
  }

  /** The example's column list. */
  lemma ExampleSymbolList()
    ensures SymbolList(["name", "age"]) == "[" + ":name" + ", " + ":age" + "], "
  {
    ExampleNameSymbol();
    ExampleAgeSymbol();
    assert Symbols(["name", "age"]) == [":name", ":age"];
  }

  /** The import call written for the example record without indentation, its one
      batch holding the record's literal. */
  lemma ImportExample(indent: Indenter)
    ensures StatementText(ExampleRecords(), DefaultExclude(), ImportFlag, [Batch(["[\"Al\", 5]"], true)], None, indent)
            == "Model.import(" + ("[" + ":name" + ", " + ":age" + "], ") + "[\n  " + "[\"Al\", 5]" + "\n])\n"
  {
    ExampleHead(indent);
    ExampleBatches(indent);
    ExampleClosing();
  }

  lemma ExampleHead(indent: Indenter)
    ensures HeadText(ExampleRecords(), DefaultExclude(), ImportFlag, None, indent)
            == "Model.import(" + ("[" + ":name" + ", " + ":age" + "], ")
  {
    ExampleAttributeNames();
    ExampleSymbolList();
  }

  lemma ExampleBatches(indent: Indenter)
    ensures BatchesText([Batch(["[\"Al\", 5]"], true)], None, indent) == "[\"Al\", 5]"
  {
    var batches := [Batch(["[\"Al\", 5]"], true)];
    assert batches[..0] == [];
  }

  lemma ExampleClosing()
    ensures ClosingText(ImportFlag) == "\n])\n"
  {
    assert ImportOptionsText(ImportFlag) == "";
  }

  // ---------------------------------------------------------------------------
  // The methods that write
  // ---------------------------------------------------------------------------

  /** `io_write`: writes `sentence`, indented when `options[:indentation]` is set. */
  method IoWrite(io: Sink, sentence: string, options: Options, indent: Indenter)
    modifies io
    ensures io.text == old(io.text) + Out(sentence, options.indentation, indent)
  {
    if options.indentation.Some? {
      io.Write(indent(sentence, options.indentation.value));
    } else {
      io.Write(sentence);
    }
  }

  /** The block `write_records_to_io` hands to the enumeration, for one batch: the
      batch's records joined by `",\n  "`, then `",\n  "` unless it is the last batch. */
  method WriteBatch(io: Sink, options: Options, batch: Batch, indent: Indenter)
    modifies io
    ensures io.text == old(io.text) + BatchText(batch, options.indentation, indent)
  {
    ghost var start := io.text;
    ghost var records := Out(Join(batch.recordStrings, Separator), options.indentation, indent);
    IoWrite(io, Join(batch.recordStrings, Separator), options, indent);
    if !batch.lastBatch {
      ghost var separator := Out(Separator, options.indentation, indent);
      IoWrite(io, Separator, options, indent);
      AppendAssociates(start, records, separator);
    } else {
      assert records + "" == records;
    }
  }

  /** The enumeration running the block once per batch, in order. */
  method WriteBatches(io: Sink, options: Options, batches: seq<Batch>, indent: Indenter)
    modifies io
    ensures io.text == old(io.text) + BatchesText(batches, options.indentation, indent)
  {
    ghost var start := io.text;
    var i := 0;
    while i < |batches|
      invariant 0 <= i <= |batches|
      invariant io.text == start + BatchesText(batches[..i], options.indentation, indent)
    {
      ghost var done := BatchesText(batches[..i], options.indentation, indent);
      ghost var next := BatchText(batches[i], options.indentation, indent);
      WriteBatch(io, options, batches[i], indent);
      AppendAssociates(start, done, next);
      assert batches[..i + 1][..i] == batches[..i];
      i := i + 1;
    }
    assert batches[..i] == batches;
  }

  lemma AppendAssociates(a: string, b: string, c: string)
    ensures (a + b) + c == a + (b + c)
  {
  }

  /** The first writes of `write_records_to_io`: the head, then the column list in import mode. */
  method WriteHead(io: Sink, records: Records, exclude: seq<string>, options: Options, indent: Indenter)
    requires Count(records) > 0
    modifies io
    ensures io.text == old(io.text) + HeadText(records, exclude, options.importOption, options.indentation, indent)
  {
    ghost var start := io.text;
    ghost var head := Out(Head(records, options.importOption), options.indentation, indent);
    IoWrite(io, Head(records, options.importOption), options, indent);
    if options.importOption.Enabled() {
      ghost var columns := Out(SymbolList(AttributeNames(records, exclude)), options.indentation, indent);
      IoWrite(io, SymbolList(AttributeNames(records, exclude)), options, indent);
      AppendAssociates(start, head, columns);
    } else {
      assert head + "" == head;
    }
  }

  /** The writes of `write_records_to_io`, in order: head, column list in import mode,
      array opening, the batches, closing. */
  method WriteStatement(io: Sink, records: Records, exclude: seq<string>, options: Options,
                        batches: seq<Batch>, indent: Indenter)
    requires Count(records) > 0
    modifies io
    ensures io.text == old(io.text)
                       + StatementText(records, exclude, options.importOption, batches,
                                       options.indentation, indent)
  {
    var importOption := options.importOption;
    ghost var start := io.text;
    ghost var ind := options.indentation;
    ghost var head := HeadText(records, exclude, importOption, ind, indent);
    ghost var open := Out(ArrayOpen, ind, indent);
    ghost var body := BatchesText(batches, ind, indent);
    ghost var close := Out(ClosingText(importOption), ind, indent);

    WriteHead(io, records, exclude, options, indent);
    assert io.text == start + head;
    IoWrite(io, ArrayOpen, options, indent);
    AppendAssociates(start, head, open);
    assert io.text == start + (head + open);
    WriteBatches(io, options, batches, indent);
    AppendAssociates(start, head + open, body);
    assert io.text == start + (head + open + body);
    IoWrite(io, ClosingText(importOption), options, indent);
    AppendAssociates(start, head + open + body, close);
    assert StatementText(records, exclude, importOption, batches, ind, indent) == head + open + body + close;
  }

  /** `write_records_to_io`: fills in the default exclude list, writes the call, and
      returns the text read back from the StringIO, or nil when writing to a file. */
  method WriteRecordsToIo(records: Records, io: Sink, options: Options, batches: seq<Batch>,
                          indent: Indenter) returns (result: Option<string>)
    requires Count(records) > 0
    modifies io, options`exclude
    ensures options.exclude == Some(Defaulted(old(options.exclude)))
    ensures io.text == old(io.text)
                       + StatementText(records, options.exclude.value, options.importOption, batches,
                                       options.indentation, indent)
    ensures result == if Present(options.file) then None else Some(io.text)
  {
    if options.exclude.None? {
      options.exclude := Some(DefaultExclude());
    }
    WriteStatement(io, records, options.exclude.value, options, batches, indent);
    if Present(options.file) {
      result := None;
    } else {
      result := Some(io.text);
    }
  }
}
