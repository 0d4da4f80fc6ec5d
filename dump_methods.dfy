/**
 The entry point of SeedDump::DumpMethods: `dump` opens the output, and either wraps
 the call in a migration class (`write_migration_to_io`) or writes the bare call
 (`write_records_to_io`), and returns what that produced.

 `open_io` is reduced to a fresh, empty `Sink`: a File when `options[:file]` is present
 (its path is that name), a StringIO (no path) otherwise. The class name a migration
 gets from its file name (`File.basename(...).classify`) and `String#indent` are
 collaborators passed in.
 */
module DumpMethods {
  import opened Optional
  import opened RubyText
  import opened RecordEncoder
  import opened StatementComposer

  /** The Ruby values `dump` can return. */
  datatype RubyValue = NilValue | StringValue(s: string) | IntegerValue(n: int)

  /** A call either returns a value or raises an exception, named by its class. */
  datatype Outcome = Returned(value: RubyValue) | Raised(error: string)

  /** Code outside this file that the dump calls: `String#indent`, and the class name
      `File.basename(path, File.extname(path)).classify` derived from a file path. */
  datatype Collaborators = Collaborators(indent: Indenter, className: string -> string)

  /** `io.path` on a StringIO: the method does not exist. */
  const PathMissing: string := "NoMethodError"

  /** The line that opens the migration class. */
  function ClassLine(className: string): string
  {
    "class " + className + " < ActiveRecord::Migration\n"
  }

  /** The emptiness guard written around the call when a query is given. */
  function GuardLine(model: string, query: string): string
  {
    "if " + model + ".where(" + query + ").empty?\n"
  }

  /** The indentation the call is written at inside the migration: 6 inside the guard,
      4 directly in `def change`. */
  function MigrationIndentation(query: Option<string>): (n: nat)
    ensures n == 6 <==> query.Some?
    ensures n == 4 <==> query.None?
  {
    if query.Some? then 6 else 4
  }

  /** What `write_migration_to_io` writes inside `def change`. */
  function ChangeBody(records: Records, exclude: seq<string>, importOption: ImportOption,
                      query: Option<string>, batches: seq<Batch>, indent: Indenter): string
    requires Count(records) > 0
  {
    var statement := StatementText(records, exclude, importOption, batches,
                                   Some(MigrationIndentation(query)), indent);
    match query
    case Some(q) => indent(GuardLine(records.model, q), 4) + statement + indent("end\n", 4)
    case None => statement
  }

  /** Everything `write_migration_to_io` writes. */
  function MigrationText(className: string, records: Records, exclude: seq<string>,
                         importOption: ImportOption, query: Option<string>, batches: seq<Batch>,
                         indent: Indenter): string
    requires Count(records) > 0
  {
    ClassLine(className) + indent("def change\n", 2)
      + ChangeBody(records, exclude, importOption, query, batches, indent)
      + indent("end\n", 2) + "end\n"
  }

  /** The migration opens with the class line and closes with a bare `end`. */
  lemma MigrationFrame(className: string, records: Records, exclude: seq<string>,
                       importOption: ImportOption, query: Option<string>, batches: seq<Batch>,
                       indent: Indenter)
    requires Count(records) > 0
    ensures var r := MigrationText(className, records, exclude, importOption, query, batches, indent);
            && |r| >= |ClassLine(className)| + 4
            && r[..|ClassLine(className)|] == ClassLine(className)
            && r[|r| - 4..] == "end\n"
  {
    Framed(ClassLine(className), indent("def change\n", 2),
           ChangeBody(records, exclude, importOption, query, batches, indent), indent("end\n", 2), "end\n");
  }

  lemma Framed(head: string, a: string, b: string, c: string, tail: string)
    ensures var r := head + a + b + c + tail;
            |r| >= |head| + |tail| && r[..|head|] == head && r[|r| - |tail|..] == tail
  {
  }

  /** Inside `def change` the call is written at indentation 6 within the guard
      `if Model.where(query).empty?` ... `end` (at indentation 4) when a query is given,
      and at indentation 4 on its own otherwise. */
  lemma MigrationBody(className: string, records: Records, exclude: seq<string>,
                      importOption: ImportOption, query: Option<string>, batches: seq<Batch>,
                      indent: Indenter)
    requires Count(records) > 0
    ensures var statement := StatementText(records, exclude, importOption, batches,
                                           Some(if query.Some? then 6 else 4), indent);
            MigrationText(className, records, exclude, importOption, query, batches, indent)
            == ClassLine(className) + indent("def change\n", 2)
               + (if query.Some?
                  then indent("if " + records.model + ".where(" + query.value + ").empty?\n", 4)
                       + statement + indent("end\n", 4)
                  else statement)
               + indent("end\n", 2) + "end\n"
  {
  }

  /** `write_migration_to_io`. It reads `io.path` first, which a StringIO does not
      have; otherwise it writes the class around the call and returns what the final
      `io.write("end\n")` returns, the number of bytes written, 4. */
  method WriteMigrationToIo(records: Records, io: Sink, options: Options, batches: seq<Batch>,
                            env: Collaborators) returns (outcome: Outcome)
    requires Count(records) > 0
    modifies io, options`exclude, options`indentation
    ensures io.path.None? ==>
              && outcome == Raised(PathMissing)
              && io.text == old(io.text)
              && options.exclude == old(options.exclude)
              && options.indentation == old(options.indentation)
    ensures io.path.Some? ==>
              && outcome == Returned(IntegerValue(|"end\n"|))
              && options.exclude == Some(Defaulted(old(options.exclude)))
              && options.indentation == Some(MigrationIndentation(options.query))
              && io.text == old(io.text)
                            + MigrationText(env.className(io.path.value), records, options.exclude.value,
                                            options.importOption, options.query, batches, env.indent)
  {
    if io.path.None? {
      return Raised(PathMissing);
    }
    ghost var start := io.text;
    var indent := env.indent;
    var head := ClassLine(env.className(io.path.value)) + indent("def change\n", 2);
    io.Write(ClassLine(env.className(io.path.value)));
    io.Write(indent("def change\n", 2));
    AppendAssociates(start, ClassLine(env.className(io.path.value)), indent("def change\n", 2));
    if options.query.Some? {
      var guard := indent(GuardLine(records.model, options.query.value), 4);
      io.Write(guard);
      options.indentation := Some(6);
      var _ := WriteRecordsToIo(records, io, options, batches, indent);
      ghost var statement := StatementText(records, options.exclude.value, options.importOption, batches,
                                           options.indentation, indent);
      io.Write(indent("end\n", 4));
      AppendAssociates(start, head, guard);
      AppendAssociates(start, head + guard, statement);
      AppendAssociates(start, head + guard + statement, indent("end\n", 4));
      AppendAssociates(head, guard + statement, indent("end\n", 4));
      AppendAssociates(head, guard, statement);
    } else {
      options.indentation := Some(4);
      var _ := WriteRecordsToIo(records, io, options, batches, indent);
      ghost var statement := StatementText(records, options.exclude.value, options.importOption, batches,
                                           options.indentation, indent);
      AppendAssociates(start, head, statement);
    }
    ghost var body := ChangeBody(records, options.exclude.value, options.importOption, options.query,
                                 batches, indent);
    assert io.text == start + (head + body);
    io.Write(indent("end\n", 2));
    AppendAssociates(start, head + body, indent("end\n", 2));
    io.Write("end\n");
    AppendAssociates(start, head + body + indent("end\n", 2), "end\n");
    return Returned(IntegerValue(|"end\n"|));
  }

  /** `open_io`: a File named by `options[:file]` when it is present, a StringIO otherwise;
      either way a fresh output holding no text yet. */
  method OpenIo(options: Options) returns (io: Sink)
    ensures fresh(io) && io.text == ""
    ensures io.path == if Present(options.file) then options.file else None
  {
    if Present(options.file) {
      io := new Sink(options.file);
    } else {
      io := new Sink(None);
    }
  }

  lemma EmptyPrefix(s: string)
    ensures "" + s == s
  {
  }

  /** `dump`: nothing for an empty set of records; otherwise a migration when one is
      asked for with a file option, the bare call in all other cases. The output is
      returned alongside the outcome so its text can be stated. */
  method Dump(records: Records, options: Options, batches: seq<Batch>, env: Collaborators)
    returns (outcome: Outcome, io: Sink?)
    modifies options`exclude, options`indentation
    ensures Count(records) == 0 ==>
              && outcome == Returned(NilValue) && io == null
              && options.exclude == old(options.exclude)
              && options.indentation == old(options.indentation)
    ensures Count(records) > 0 ==>
              && io != null && fresh(io)
              && io.path == (if Present(options.file) then options.file else None)
    ensures Count(records) > 0 && options.migration && options.file.Some? && !Present(options.file) ==>
              && outcome == Raised(PathMissing) && io != null && io.text == ""
              && options.exclude == old(options.exclude)
              && options.indentation == old(options.indentation)
    ensures Count(records) > 0 && options.migration && Present(options.file) ==>
              && outcome == Returned(IntegerValue(4))
              && options.exclude == Some(Defaulted(old(options.exclude)))
              && options.indentation == Some(MigrationIndentation(options.query))
              && io != null
              && io.text == MigrationText(env.className(options.file.value), records, options.exclude.value,
                                          options.importOption, options.query, batches, env.indent)
    ensures Count(records) > 0 && !(options.migration && options.file.Some?) ==>
              && options.exclude == Some(Defaulted(old(options.exclude)))
              && options.indentation == old(options.indentation)
              && io != null
              && io.text == StatementText(records, options.exclude.value, options.importOption, batches,
                                          options.indentation, env.indent)
              && outcome == Returned(if Present(options.file) then NilValue else StringValue(io.text))
  {
    if Count(records) == 0 {
      return Returned(NilValue), null;
    }
    io := OpenIo(options);
    if options.migration && options.file.Some? {
      outcome := WriteMigrationToIo(records, io, options, batches, env);
      if io.path.Some? {
        ghost var written := MigrationText(env.className(io.path.value), records, options.exclude.value,
                                           options.importOption, options.query, batches, env.indent);
        EmptyPrefix(written);
      }
    } else {
      var text := WriteRecordsToIo(records, io, options, batches, env.indent);
      ghost var written := StatementText(records, options.exclude.value, options.importOption, batches,
                                         options.indentation, env.indent);
      EmptyPrefix(written);
      outcome := Returned(if text.Some? then StringValue(text.value) else NilValue);
    }
  }

  /** Without a file and without indentation, `dump` returns the whole call: the head,
      every record of every batch in one list, and the closing. */
  lemma DumpedStatement(records: Records, exclude: seq<string>, importOption: ImportOption,
                        batches: seq<Batch>, indent: Indenter)
    requires Count(records) > 0
    requires WellFormedBatches(batches)
    requires !importOption.Enabled()
    ensures StatementText(records, exclude, importOption, batches, None, indent)
            == records.model + "." + "create!" + "(" + "[\n  " + Join(AllRecordStrings(batches), ",\n  ")
               + "\n]" + ")\n"
  {
    StatementLayout(records, exclude, importOption, batches, indent);
    var head := records.model + "." + "create!" + "(";
    assert head + "" == head;
    assert ImportOptionsText(importOption) == "";
    var front := head + "[\n  " + Join(AllRecordStrings(batches), ",\n  ") + "\n]";
    assert front + "" == front;
  }
}
