/** The value transforms the mappings name by tag: the date reordering, the
    `C`/`I` indicator code and the current timestamp.  Two families exist:
    `transform_value` (tags `date`, `ippi`, `now`; the same code in
    s3-to-rds-v2/app.py, v1_leitura_py_padrao_sql.py and
    s3tords/chalicelib/services/processor.py) and
    `TransformadorDados.aplicar_transformacao` (tags `data`, `caracteres`,
    `dataatul`), plus the fixed converters of the two hard-coded importers. */
module Transforms {
  import opened Values
  import opened Text
  import opened Clock

  /** `f"{year}-{month}-{day} 00:00:00"`. */
  function Reorder(day: string, month: string, year: string): string {
    year + "-" + month + "-" + day + " 00:00:00"
  }

  /** `day, month, year = s.split('.')` succeeds exactly for three pieces. */
  predicate ThreeParts(s: string) {
    |Split(s, '.')| == 3
  }

  function Reordered(s: string): string
    requires |Split(s, '.')| >= 3
  {
    var p := Split(s, '.');
    Reorder(p[0], p[1], p[2])
  }

  /** `convert_date` of s3-to-rds/app.py, and the `date` rule on a string:
      the unpacking fails for any other number of pieces, which falls back
      to the current timestamp.  The pieces are not checked to be numeric. */
  function ConvertDate(s: string, now: Instant): string {
    if ThreeParts(s) then Reordered(s) else Timestamp(now)
  }

  /** `convert_date` of rds-generico/app.py: the fallback is the input itself. */
  function ConvertDateKeep(s: string): string {
    if ThreeParts(s) then Reordered(s) else s
  }

  /** The `date` rule on any value: `None` and integers have no `split`,
      which the bare `except` turns into the current timestamp. */
  function DateRule(value: Cell, now: Instant): string {
    if value.Str? then ConvertDate(value.s, now) else Timestamp(now)
  }

  /** `1 if value and value.upper() == 'C' else 2` (and the same test written
      `valor.upper() in ['C']` in `_transformar_caracteres`): a truthy
      integer has no `upper` and raises. */
  function IppiRule(value: Cell): Result<int> {
    if !Truthy(value) then Ok(2)
    else if value.Str? then Ok(if Upper(value.s) == "C" then 1 else 2)
    else Err(AttributeError)
  }

  function IntResult(r: Result<int>): Result<Cell> {
    match r
    case Ok(n) => Ok(Int(n))
    case Err(e) => Err(e)
  }

  /** `transform_value(value, transform_type)`. */
  function TransformValue(value: Cell, tag: string, now: Instant): Result<Cell> {
    if tag == "date" then Ok(Str(DateRule(value, now)))
    else if tag == "ippi" then IntResult(IppiRule(value))
    else if tag == "now" then Ok(Str(Timestamp(now)))
    else Ok(value)
  }

  /** `convert_ippi` of s3-to-rds/app.py: anything without `upper` gives 2. */
  function ConvertIppi(value: Cell): int {
    if value.Str? && Upper(value.s) == "C" then 1 else 2
  }

  /** `convert_ippi` of rds-generico/app.py, always given a CSV field. */
  function ConvertIppiText(s: string): int {
    if Upper(s) == "C" then 1 else 2
  }

  /** `_transformar_data`: pieces 2, 1 and 0 of `valor.split('.')`; fewer than
      three pieces raise IndexError, a non-string AttributeError, and both
      fall back to the current timestamp. */
  function TransformarData(valor: Cell, now: Instant): string {
    if valor.Str? && |Split(valor.s, '.')| >= 3 then Reordered(valor.s) else Timestamp(now)
  }

  /** `TransformadorDados.aplicar_transformacao(valor, tipo)`. */
  function AplicarTransformacao(valor: Cell, tipo: string, now: Instant): Result<Cell> {
    if tipo == "data" then Ok(Str(TransformarData(valor, now)))
    else if tipo == "caracteres" then IntResult(IppiRule(valor))
    else if tipo == "dataatul" then Ok(Str(Timestamp(now)))
    else Ok(valor)
  }

  // ---------------------------------------------------------------------
  // The date rules.

  lemma JoinThree(d: string, m: string, y: string)
    ensures Join([d, m, y], ".") == d + "." + m + "." + y
  {
    assert [d, m, y][1..] == [m, y];
    assert [m, y][1..] == [y];
    assert Join([y], ".") == y;
    assert Join([m, y], ".") == m + "." + y;
    assert Join([d, m, y], ".") == d + "." + (m + "." + y);
  }

  /** Three dot-free pieces joined by dots are reordered to `y-m-d 00:00:00`,
      whatever the pieces hold. */
  lemma ConvertDateParts(d: string, m: string, y: string, now: Instant)
    requires '.' !in d && '.' !in m && '.' !in y
    ensures ConvertDate(d + "." + m + "." + y, now) == Reorder(d, m, y)
    ensures ConvertDateKeep(d + "." + m + "." + y) == Reorder(d, m, y)
  {
    JoinThree(d, m, y);
    SplitJoin([d, m, y], '.');
  }

  /** The unpacking fails exactly when the text does not hold two dots; then
      the current timestamp is returned. */
  lemma ConvertDateFallback(s: string, now: Instant)
    ensures ThreeParts(s) <==> Count(s, '.') == 2
    ensures Count(s, '.') != 2 ==> ConvertDate(s, now) == Timestamp(now)
  {
    SplitCount(s, '.');
  }

  /** The rds-generico converter gives back a text without two dots
      unchanged, where the other converter takes the clock. */
  lemma ConvertDateKeepFallback(s: string)
    ensures Count(s, '.') != 2 ==> ConvertDateKeep(s) == s
    ensures Count(s, '.') == 2 ==> ThreeParts(s) && ConvertDateKeep(s) == Reordered(s)
  {
    SplitCount(s, '.');
  }

  /** The `date` tag: a string is converted as above; `None` or an integer
      gives the current timestamp. */
  lemma DateTag(value: Cell, now: Instant)
    ensures !value.Str? ==> TransformValue(value, "date", now) == Ok(Str(Timestamp(now)))
    ensures value.Str? && Count(value.s, '.') != 2 ==> TransformValue(value, "date", now) == Ok(Str(Timestamp(now)))
    ensures value.Str? && Count(value.s, '.') == 2 ==>
      ThreeParts(value.s) && TransformValue(value, "date", now) == Ok(Str(Reordered(value.s)))
  {
    if value.Str? {
      ConvertDateFallback(value.s, now);
    }
  }

  /** `_transformar_data` reads only the first three pieces: anything after a
      third dot is ignored. */
  lemma TransformarDataExtra(d: string, m: string, y: string, rest: string, now: Instant)
    requires '.' !in d && '.' !in m && '.' !in y
    ensures TransformarData(Str(d + "." + m + "." + y), now) == Reorder(d, m, y)
    ensures TransformarData(Str(d + "." + m + "." + y + "." + rest), now) == Reorder(d, m, y)
  {
    JoinThree(d, m, y);
    SplitJoin([d, m, y], '.');
    var s := d + "." + m + "." + y + "." + rest;
    assert s == d + ['.'] + (m + "." + y + "." + rest);
    SplitCons(d, m + "." + y + "." + rest, '.');
    assert m + "." + y + "." + rest == m + ['.'] + (y + "." + rest);
    SplitCons(m, y + "." + rest, '.');
    assert y + "." + rest == y + ['.'] + rest;
    SplitCons(y, rest, '.');
  }

  /** Fewer than two dots (or no string at all) give the current timestamp. */
  lemma TransformarDataFallback(valor: Cell, now: Instant)
    ensures (!valor.Str? || Count(valor.s, '.') < 2) ==> TransformarData(valor, now) == Timestamp(now)
    ensures valor.Str? && Count(valor.s, '.') >= 2 ==>
      |Split(valor.s, '.')| >= 3 && TransformarData(valor, now) == Reordered(valor.s)
  {
    if valor.Str? {
      SplitCount(valor.s, '.');
    }
  }

  // ---------------------------------------------------------------------
  // The indicator code.

  /** The code is 1 exactly for "C" and "c"; every string and `None` gets a
      code, and only a non-zero integer raises. */
  lemma IppiCodes(value: Cell)
    ensures IppiRule(value) == Ok(1) <==> value == Str("C") || value == Str("c")
    ensures IppiRule(value).Err? <==> value.Int? && value.i != 0
    ensures IppiRule(value).Ok? ==> IppiRule(value).value in {1, 2}
  {
    if value.Str? {
      UpperIsC(value.s);
    }
  }

  /** `convert_ippi` of s3-to-rds: 1 exactly for "C" and "c", 2 for every
      other value, including `None` and integers. */
  lemma ConvertIppiCodes(value: Cell)
    ensures ConvertIppi(value) == 1 <==> value == Str("C") || value == Str("c")
    ensures ConvertIppi(value) != 1 ==> ConvertIppi(value) == 2
  {
    if value.Str? {
      UpperIsC(value.s);
    }
  }

  /** `convert_ippi` of rds-generico: 1 exactly for "C" and "c", else 2. */
  lemma ConvertIppiTextCodes(s: string)
    ensures ConvertIppiText(s) == 1 <==> s == "C" || s == "c"
    ensures ConvertIppiText(s) != 1 ==> ConvertIppiText(s) == 2
  {
    UpperIsC(s);
  }

  // ---------------------------------------------------------------------
  // The dispatch on tags.

  /** `transform_value`: the `ippi` tag codes the value, `now` ignores it, and
      a tag other than the three hands the value back. */
  lemma TransformValueTags(value: Cell, other: Cell, tag: string, now: Instant)
    ensures TransformValue(value, "ippi", now) == Ok(Int(1)) <==> value == Str("C") || value == Str("c")
    ensures TransformValue(value, "ippi", now).Err? <==> value.Int? && value.i != 0
    ensures TransformValue(value, "now", now) == TransformValue(other, "now", now) == Ok(Str(Timestamp(now)))
    ensures tag !in {"date", "ippi", "now"} ==> TransformValue(value, tag, now) == Ok(value)
  {
    IppiCodes(value);
  }

  /** `aplicar_transformacao` dispatches only the three known tags;
      `caracteres` follows the indicator code and `dataatul` ignores its
      input. */
  lemma AplicarTransformacaoTags(valor: Cell, other: Cell, tipo: string, now: Instant)
    ensures tipo !in {"data", "caracteres", "dataatul"} ==> AplicarTransformacao(valor, tipo, now) == Ok(valor)
    ensures AplicarTransformacao(valor, "caracteres", now) == Ok(Int(1)) <==> valor == Str("C") || valor == Str("c")
    ensures AplicarTransformacao(valor, "dataatul", now) == AplicarTransformacao(other, "dataatul", now)
      == Ok(Str(Timestamp(now)))
  {
    IppiCodes(valor);
  }
}
