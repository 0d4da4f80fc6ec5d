# seed_dump: the dump methods, modelled in Dafny

seed_dump turns the records of an ActiveRecord model into Ruby source that recreates
them. The file `lib/seed_dump/dump_methods.rb` does this in four layers, and the
model follows them:

- `value_encoder.dfy` models the value encoder, `value_to_s` and `range_to_string`.
  Each attribute value becomes a Ruby literal. Decimals, IP addresses, dates and
  times, ranges and geometries are turned into text first, then quoted with
  `String#inspect`. Every other value is written by its own `inspect`.
- `record_encoder.dfy` models the record encoder, `dump_record` and
  `dump_attribute_new`. A record loses its excluded attributes and becomes a
  positional `[v1, v2]` literal in import mode, or `{a: v1, b: v2}` otherwise.
- `statement_composer.dfy` models the statement composer: `write_records_to_io`,
  `io_write`, `active_record_import_options` and `attribute_names`. It writes one
  `Model.create!([...])` or `Model.import([:a, :b], [...])` call into the output,
  piece by piece, batch by batch.
- `dump_methods.dfy` models `dump` and `write_migration_to_io`. `dump` chooses
  between a bare call and a migration class around it. It also models `open_io`.

`ruby_text.dfy` models the Ruby core conversions the text is built from:
- `Array#join`;
- `String#inspect`, `Integer#inspect` and `Symbol#inspect`.

Each writer has a reader, so literals can be shown to read back as their values.
`optional.dfy` holds the `Option` type.

The output is a `Sink` object holding the text written so far. It is a File when
it has a path, and a StringIO when it has none. The options hash is an `Options`
object. Its `exclude` and `indentation` entries are assigned in place, as the
source assigns them. `dump_record` and the batch loop are methods with loops,
proved against the text functions that specify them. The value encoders are
functions.

The migration branch of `dump` (lines 13 and 37) returns what the final
`io.write("end\n")` returns, the 4 bytes it wrote. `WriteMigrationToIo` and `Dump`
state this value.

The following are parameters of the model rather than parts of it:
- the batches of encoded records, which the enumeration strategies hand to the
  block at line 109;
- `String#indent`, from the indentation gem;
- the class name a migration derives from its file name.

## Model

| member | source | states |
|---|---|---|
| RubyText.JoinAppend | lib/seed_dump/dump_methods.rb:110 | joining two non-empty lists is joining each with one separator between, which is why batch boundaries leave no trace in the output |
| RubyText.InspectRoundTrip | lib/seed_dump/dump_methods.rb:73 | `String#inspect` produces a double-quoted literal that reads back as the original string, under a reader that rejects bare quotes and an unescaped `#{`, `#$` or `#@` |
| RubyText.InterpolationIsNotText | lib/seed_dump/dump_methods.rb:73 | an unescaped `#{` does not read as plain text, while the escaped `\#{` does |
| RubyText.IntegerRoundTrip | lib/seed_dump/dump_methods.rb:73 | `Integer#inspect` reads back as the same integer, negatives included, under a reader that refuses leading zeros (octal in Ruby) |
| RubyText.NatText | lib/seed_dump/dump_methods.rb:73 | the digits of a number are decimal digits, at least one, with no leading zero |
| RubyText.SymbolInspect | lib/seed_dump/dump_methods.rb:98-99 | the symbol starts with `:`, and its name is quoted exactly when it is not an identifier |
| RubyText.SymbolRoundTrip | lib/seed_dump/dump_methods.rb:98-99 | `name.to_sym.inspect` reads back as the name, under a reader that accepts only identifiers bare and other names quoted |
| ValueEncoder.RangeToString | lib/seed_dump/dump_methods.rb:76-80 | the text opens with `[` and ends with `)` exactly when the end is excluded, else `]`; an infinite bound leaves its place before or after the comma empty; the length is both bounds' text plus 3 |
| ValueEncoder.ValueToS | lib/seed_dump/dump_methods.rb:59-74 | decimal, IP, date/time, range and geometry values and strings come out as quoted literals; nil is `nil`; booleans are `true`/`false`; other objects keep their own inspect text |
| ValueEncoder.ValueToSReadsBack | lib/seed_dump/dump_methods.rb:59-74 | a converted value's literal unquotes to the converted text; a String's literal to the string; an Integer's literal parses to the number |
| ValueEncoder.NilStaysUnquoted | lib/seed_dump/dump_methods.rb:69-73 | nil, booleans and integers are never quoted; a quoted kind is never written as `nil` |
| ValueEncoder.RangeRoundTrip | lib/seed_dump/dump_methods.rb:76-80 | the bracket notation splits back into the lower text, the upper text and the exclusivity, provided the lower text holds no comma |
| ValueEncoder.RangeNotationCollision | lib/seed_dump/dump_methods.rb:79 | `"a,b".."c"` and `"a".."b,c"` are different ranges written as the same text `[a,b,c]` |
| ValueEncoder.RangeLiteralReadsBack | lib/seed_dump/dump_methods.rb:65-66 | a range attribute is a string literal whose content is its bracket notation |
| ValueEncoder.RangeExamples | lib/seed_dump/dump_methods.rb:76-80 | `1..5` gives `[1,5]`, `1...5` gives `[1,5)`, and `-Infinity..5` gives `[,5]` |
| RecordEncoder.Kept | lib/seed_dump/dump_methods.rb:46-47 | no kept attribute is excluded, every attribute that is not excluded is kept, and there are no more kept than given |
| RecordEncoder.KeptNames | lib/seed_dump/dump_methods.rb:146 | the selected names hold no excluded name and every name not excluded |
| RecordEncoder.KeptCounts | lib/seed_dump/dump_methods.rb:46-47 | each attribute is kept exactly as often as the record holds it when its name is not excluded, and never when it is |
| RecordEncoder.KeptNamesCounts | lib/seed_dump/dump_methods.rb:146 | each name is selected exactly as often as it is given when not excluded, and never when excluded |
| RecordEncoder.KeptPreservesOrder | lib/seed_dump/dump_methods.rb:46-47 | the kept attributes are a subsequence of the record's attributes |
| RecordEncoder.KeptNamesPreservesOrder | lib/seed_dump/dump_methods.rb:146 | the selected names are a subsequence of the given names |
| RecordEncoder.KeptNamesAlign | lib/seed_dump/dump_methods.rb:139-147 | filtering a record's names gives the names of its kept attributes, so the column list matches the positional values |
| RecordEncoder.DumpAttribute | lib/seed_dump/dump_methods.rb:55-57 | in import mode the entry is the bare value literal; otherwise it is the name, `": "`, then the value literal |
| RecordEncoder.DumpAttributeReadsBack | lib/seed_dump/dump_methods.rb:55-57 | a keyed entry splits at its first colon back into the attribute's name and value literal, for a name without a colon |
| RecordEncoder.DumpRecord | lib/seed_dump/dump_methods.rb:40-53 | the loop builds exactly the entries of the kept attributes in order, joined by `", "` inside `[ ]` or `{ }` |
| RecordEncoder.RecordLiteralDelimiters | lib/seed_dump/dump_methods.rb:50-52 | the literal opens with `[` and closes with `]` exactly in import mode, and uses `{` and `}` otherwise |
| RecordEncoder.RecordEntries | lib/seed_dump/dump_methods.rb:46-52 | the entries come from the kept attributes, in record order: none excluded, every other one present, the i-th entry bare or keyed by its name |
| RecordEncoder.PositionalValuesMatchColumns | lib/seed_dump/dump_methods.rb:97-99 | in import mode, for a record with the same names as the first record, the k-th positional value belongs to the k-th column of the list |
| RecordEncoder.DefaultExcludeExample | lib/seed_dump/dump_methods.rb:47-52 | a record with `id`, `name` and `created_at` is written as `{name: "Al"}` under the default exclude list |
| StatementComposer.Defaulted | lib/seed_dump/dump_methods.rb:93 | a given exclude list is kept as it is; a missing one becomes exactly `id`, `created_at`, `updated_at` |
| StatementComposer.Out | lib/seed_dump/dump_methods.rb:125-131 | a piece is indented by the set indentation, and written unchanged when none is set |
| StatementComposer.MethodName | lib/seed_dump/dump_methods.rb:95 | the method is `import` exactly when the import option is set, and `create!` exactly when it is not |
| StatementComposer.ImportOptionsText | lib/seed_dump/dump_methods.rb:133-137 | the text is empty exactly when the import option is not a Hash; for a Hash it is `", "` and then the `key: value` pairs joined by `", "` in Hash order |
| StatementComposer.AttributeNamesSelect | lib/seed_dump/dump_methods.rb:139-147 | the column list is the class's or the first record's names without the excluded ones, in the same order, and none of the others are missing |
| StatementComposer.ColumnSymbols | lib/seed_dump/dump_methods.rb:98-99 | each written column symbol reads back as its column name, in order |
| StatementComposer.BatchesLayout | lib/seed_dump/dump_methods.rb:109-113 | unindented, the batches write all their records in order, joined by `",\n  "`, with no separator after the last batch |
| StatementComposer.NonFinalBatchesLayout | lib/seed_dump/dump_methods.rb:109-113 | batches none of which is flagged last write all their records joined by `",\n  "`, with one trailing separator |
| StatementComposer.StatementLayout | lib/seed_dump/dump_methods.rb:95-115 | unindented, the call is `Model.import(` or `Model.create!(`, then the symbol list in import mode, then `[\n  `, all records joined by `",\n  "`, then `\n]`, the import options and `)\n` |
| StatementComposer.ImportExample | lib/seed_dump/dump_methods.rb:95-115 | the import call for one record `{name: "Al", age: 5}` is `Model.import([:name, :age], [\n  ["Al", 5]\n])\n` |
| StatementComposer.ExampleRecordLiteral | lib/seed_dump/dump_methods.rb:50-56 | in import mode the record `{name: "Al", age: 5}` is written `["Al", 5]` |
| StatementComposer.IoWrite | lib/seed_dump/dump_methods.rb:125-131 | appends the piece, indented when an indentation is set |
| StatementComposer.WriteBatch | lib/seed_dump/dump_methods.rb:109-112 | the block appends the batch's records joined by `",\n  "`, and a separator only when the batch is not the last |
| StatementComposer.WriteBatches | lib/seed_dump/dump_methods.rb:109-113 | running the block over the batches in order appends the text of every batch, in order |
| StatementComposer.WriteRecordsToIo | lib/seed_dump/dump_methods.rb:92-123 | defaults the exclude list, appends the whole call text, and returns nil when a file is given and the whole output text otherwise |
| DumpMethods.MigrationIndentation | lib/seed_dump/dump_methods.rb:27-34 | the call is indented by 6 exactly when a query is given, and by 4 exactly when none is |
| DumpMethods.MigrationFrame | lib/seed_dump/dump_methods.rb:25-37 | the migration text starts with the `class ... < ActiveRecord::Migration` line and ends with a bare `end` |
| DumpMethods.MigrationBody | lib/seed_dump/dump_methods.rb:24-38 | between `def change` (indent 2) and its `end` (indent 2), the call sits inside an `if Model.where(query).empty?` guard at indent 4 when a query is given, at indentation 6; otherwise it sits alone at indentation 4 |
| DumpMethods.WriteMigrationToIo | lib/seed_dump/dump_methods.rb:24-38 | on a StringIO it raises NoMethodError before writing or changing anything; on a File it sets the indentation to 6 or 4, appends the migration text and returns 4 |
| DumpMethods.OpenIo | lib/seed_dump/dump_methods.rb:82-90 | the output is fresh and empty, and has the file's path exactly when the file option is present |
| DumpMethods.Dump | lib/seed_dump/dump_methods.rb:7-20 | returns nil for zero records with nothing opened or changed; otherwise writes a migration when asked for with a file option and the bare call in every other case, and returns what that path returns |
| DumpMethods.DumpedStatement | lib/seed_dump/dump_methods.rb:92-123 | without import and indentation, the text returned is `Model.create!(`, `[\n  `, every record of every batch joined by `",\n  "`, then `\n])\n` |

## Left out

- File I/O: `File.open`, the append (`a+`) or truncate (`w+`) mode, and `io.close` in the `ensure` clause. The output starts empty, so text a file held before is not modelled.
- The enumeration strategies (`active_record_enumeration`, `enumerable_enumeration`, including batch size and paging) are not part of this model. Their batches are an input, described by `WellFormedBatches`.
- `model_for`, the class and relation tests, and record introspection are carried as data. The `Records` datatype carries the model name, the column names and the records' attribute lists.
- `classify`, `File.basename` and `File.extname` of the migration file name are one opaque function passed in.
- `String#indent` from the indentation gem is a function passed in. Its per-line behaviour is not modelled.
- The key filter at line 46, which exists for the composite_primary_keys gem, is not modelled: every attribute name is a string.
- Names in the exclude list are compared as symbol names. The model does not capture that a list of strings would exclude nothing.
- The formats of library code (`BigDecimal#to_s`, `IPAddr#to_s`, `to_s(:db)`, RGeo's `to_s`, and `inspect` of other objects, floats included) are carried as text in the `Value` datatype.
- A value is an RGeo geometry by its constructor, not by the ancestry test on line 67.
- The `infinite?` test on range bounds is a constructor, `Infinite`, of `Bound`.
- RubyText.InspectString: covers the escapes `\" \\ \n \t \r \f \v \b \a \e` and `\#` before `{`, `$` or `@`. Other control characters, which Ruby writes as `\x..` or `\u....`, and the encoding-dependent handling of non-ASCII text are written verbatim.
- RubyText.SymbolInspect: treats only ASCII identifiers as bare symbol names. Operator names and names ending in `?`, `!` or `=`, which Ruby also leaves unquoted, are quoted here.
- StatementComposer.Present: treats only ASCII white space as blank, not the other Unicode spaces `present?` also ignores.
- `options[:import]`, `options[:query]`, `options[:exclude]` and `options[:file]` are modelled as absent or set. A value of `false` counts as absent.
- ValueEncoder.RangeRoundTrip: holds only when the lower bound's text has no comma. The bracket notation is ambiguous otherwise, as `RangeNotationCollision` shows.
