/**
 * What the recorders read and write per reading: the clock stamps, the battery
 * reading, the abstract number syntax of Python's `int()`/`float()`, and CSV
 * lines.
 */
module Readings {
  import opened Text

  /**
   * `int(s)` / `float(s)` succeed exactly when `isInt(s)` / `isFloat(s)`, and
   * `str()` of the value they return is `showInt(s)` / `showFloat(s)`.  The
   * model proves its properties for every such syntax.
   */
  datatype NumberSyntax = NumberSyntax(
    isInt: string -> bool,
    isFloat: string -> bool,
    showInt: string -> string,
    showFloat: string -> string)

  /** `str()` of a Python int or float never contains a comma. */
  ghost predicate CommaFreeOutput(ns: NumberSyntax)
  {
    forall s :: ',' !in ns.showInt(s) && ',' !in ns.showFloat(s)
  }

  /** `time.time()` as a number and as the text written to the CSV, and the formatted local clock time. */
  datatype Stamp = Stamp(time: real, epoch: string, clock: string)

  /** Neither part of the stamp contains a comma (true of both Python formats). */
  predicate CommaFreeStamp(st: Stamp)
  {
    ',' !in st.epoch && ',' !in st.clock
  }

  /**
   * One battery reading: `round(bus + shunt, 5)` as a number and as its `str()`
   * text, and `round(..., 2)` for the plot.
   */
  datatype Battery = Battery(value: real, text: string, value2: real)

  /** One CSV line as `f.write` receives it: the fields joined by commas, then a newline. */
  function CsvLine(fields: seq<string>): string
  {
    Joined(fields, ',') + "\n"
  }

  /** Reading a line back: drop the final newline and split on commas. */
  function Columns(line: string): seq<string>
  {
    Split(if |line| > 0 && line[|line| - 1] == '\n' then line[..|line| - 1] else line, ',')
  }

  /** A line written from comma-free fields reads back as exactly those fields. */
  lemma ColumnsOfCsvLine(fields: seq<string>)
    requires fields != [] && FreeOf(fields, ',')
    ensures Columns(CsvLine(fields)) == fields
  {
    var line := CsvLine(fields);
    assert line[..|line| - 1] == Joined(fields, ',');
    SplitJoin(fields, ',');
  }
}
