/** The rows `csv.reader(io.StringIO(content), delimiter=d)` yields for text
    that uses no quoting: one row per line, a blank line as the empty row,
    fields separated by the delimiter. */
module Csv {
  import opened Text

  /** A line without its `\r` terminator, as the reader takes `\r\n`. */
  function Chomp(line: string): string {
    if |line| > 0 && line[|line| - 1] == '\r' then line[..|line| - 1] else line
  }

  /** A blank line is the empty row; any other line is split at every
      delimiter. */
  function Fields(line: string, delim: char): seq<string> {
    var l := Chomp(line);
    if l == "" then [] else Split(l, delim)
  }

  /** The lines of the text: the piece after a final line break is not a
      line. */
  function Lines(content: string): seq<string> {
    var pieces := Split(content, '\n');
    if Last(pieces) == "" then pieces[..|pieces| - 1] else pieces
  }

  function Rows(content: string, delim: char): (rows: seq<seq<string>>)
    ensures |rows| == |Lines(content)|
  {
    var lines := Lines(content);
    seq(|lines|, i requires 0 <= i < |lines| => Fields(lines[i], delim))
  }

  /** Writing rows as lines: fields joined by the delimiter, each line ended
      by `\n`. */
  function Render(rows: seq<seq<string>>, delim: char): string
    decreases |rows|
  {
    if rows == [] then "" else Join(rows[0], [delim]) + "\n" + Render(rows[1..], delim)
  }

  /** A row that can be written without quoting and read back: fields free
      of the delimiter and of line-break characters, and a line that is not
      blank. */
  predicate Plain(row: seq<string>, delim: char) {
    |row| >= 1 && !(|row| == 1 && row[0] == "")
    && forall i :: 0 <= i < |row| ==> delim !in row[i] && '\n' !in row[i] && '\r' !in row[i]
  }

  lemma {:induction false} JoinFreeChar(parts: seq<string>, sep: char, c: char)
    requires c != sep
    requires forall i :: 0 <= i < |parts| ==> c !in parts[i]
    ensures c !in Join(parts, [sep])
    decreases |parts|
  {
    if |parts| > 1 {
      JoinFreeChar(parts[1..], sep, c);
    }
  }

  lemma {:induction false} JoinNonEmpty(parts: seq<string>, sep: char)
    requires |parts| >= 1 && !(|parts| == 1 && parts[0] == "")
    ensures Join(parts, [sep]) != ""
  {
    if |parts| > 1 {
      assert |Join(parts, [sep])| >= 1;
    }
  }

  /** A rendered row reads back as itself. */
  lemma FieldsOfRendered(row: seq<string>, delim: char)
    requires Plain(row, delim) && delim != '\r'
    ensures Fields(Join(row, [delim]), delim) == row
  {
    var l := Join(row, [delim]);
    JoinFreeChar(row, delim, '\r');
    JoinNonEmpty(row, delim);
    assert l[|l| - 1] in l;
    SplitJoin(row, delim);
  }

  /** The text of the rendered rows, split at line breaks. */
  lemma {:induction false} SplitRender(rows: seq<seq<string>>, delim: char)
    requires delim != '\n'
    requires forall i :: 0 <= i < |rows| ==> Plain(rows[i], delim)
    ensures Split(Render(rows, delim), '\n')
      == seq(|rows|, i requires 0 <= i < |rows| => Join(rows[i], [delim])) + [""]
    decreases |rows|
  {
    if rows != [] {
      var line := Join(rows[0], [delim]);
      JoinFreeChar(rows[0], delim, '\n');
      SplitRender(rows[1..], delim);
      assert Render(rows, delim) == line + ['\n'] + Render(rows[1..], delim);
      SplitCons(line, Render(rows[1..], delim), '\n');
    }
  }

  /** Reading back rendered rows gives the rows: the reader is a left
      inverse of writing for plain rows. */
  lemma ReadRendered(rows: seq<seq<string>>, delim: char)
    requires delim != '\n' && delim != '\r'
    requires forall i :: 0 <= i < |rows| ==> Plain(rows[i], delim)
    ensures Rows(Render(rows, delim), delim) == rows
  {
    SplitRender(rows, delim);
    var lines := Lines(Render(rows, delim));
    assert lines == seq(|rows|, i requires 0 <= i < |rows| => Join(rows[i], [delim]));
    forall i | 0 <= i < |rows| ensures Fields(lines[i], delim) == rows[i] {
      FieldsOfRendered(rows[i], delim);
    }
  }

  /** Blank lines are read as empty rows, which the mappers skip. */
  lemma BlankLine(line: string, delim: char)
    requires line == "" || line == "\r"
    ensures Fields(line, delim) == []
  {
  }
}
