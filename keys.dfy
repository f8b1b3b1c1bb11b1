/** The keys a file is moved to.  The handlers rewrite the folder part of
    the key by `str.replace` on the configured prefixes, and some of them
    also stamp the file name with the time of the move (`%Y%m%d_%H%M%S`) or
    file it under a dated folder (`%Y-%m-%d`). */
module Keys {
  import opened Values
  import opened Text
  import opened Clock

  /** The `s3` section of the configuration: where files arrive, where
      processed files go and where failed files go. */
  datatype Prefixes = Prefixes(input: string, processed: string, error: string)

  /** The folders every variant configures. */
  const Folders: Prefixes := Prefixes("entrada/", "processados/", "erros/")

  /** `f"{name.split('.')[0]}_{stamp}.{name.split('.')[1]}"`: the text before
      the first dot, the stamp, and the text between the first and the
      second dot; a name without a dot raises IndexError. */
  function StampedName(name: string, stamp: string): Result<string> {
    var parts := Split(name, '.');
    if |parts| < 2 then Err(IndexError) else Ok(parts[0] + "_" + stamp + "." + parts[1])
  }

  /** The stamped name exists exactly when the name has a dot. */
  lemma StampedNameNeedsDot(name: string, stamp: string)
    ensures StampedName(name, stamp).Ok? <==> '.' in name
  {
    SplitCount(name, '.');
    CountZero(name, '.');
  }

  /** A name `stem.ext[.more…]` becomes `stem_<stamp>.ext`: whatever follows
      a second dot is dropped. */
  lemma StampedNameParts(parts: seq<string>, stamp: string)
    requires |parts| >= 2
    requires forall i :: 0 <= i < |parts| ==> '.' !in parts[i]
    ensures StampedName(Join(parts, "."), stamp) == Ok(parts[0] + "_" + stamp + "." + parts[1])
  {
    SplitJoin(parts, '.');
  }

  /** A character absent from a text is absent from each of its pieces. */
  lemma {:induction false} SplitKeeps(s: string, sep: char, c: char)
    requires c !in s
    ensures forall i :: 0 <= i < |Split(s, sep)| ==> c !in Split(s, sep)[i]
    decreases |s|
  {
    if |s| > 0 {
      assert c !in s[1..];
      SplitKeeps(s[1..], sep, c);
    }
  }

  /** The stamped name of a name without `/` has no `/` either. */
  lemma StampedNameSegment(name: string, now: Instant)
    requires '/' !in name && StampedName(name, Compact(now)).Ok?
    ensures '/' !in StampedName(name, Compact(now)).value
  {
    SplitKeeps(name, '.', '/');
    CompactLayout(now);
  }

  /** The last segment of a key has no `/`. */
  lemma BasenameSegment(key: string)
    ensures '/' !in Basename(key)
  {
    SplitPiecesFree(key, '/');
  }

  /** A name directly under a folder is the key's last segment. */
  lemma BasenameUnder(folder: string, name: string)
    requires '/' !in name
    ensures Basename(folder + "/" + name) == name
  {
    SplitAppend(folder, name, '/');
    SplitFree(name, '/');
    assert folder + "/" + name == folder + ['/'] + name;
  }

  // ---------------------------------------------------------------------
  // v1.1.py and v1_leitura_py_padrao_sql.py

  /** `key.replace(input, processed).replace(file_name, processed_file_name)`
      with `file_name = key.split('/')[-1]` stamped with `now`. */
  function RenamedKey(p: Prefixes, key: string, now: Instant): Result<string> {
    var name := Basename(key);
    var stamped := StampedName(name, Compact(now));
    if stamped.Err? then Err(stamped.error)
    else Ok(Replace(Replace(key, p.input, p.processed), name, stamped.value))
  }

  /** `key.replace(input, error)`: the key a failed file is moved to. */
  function ErrorKey(p: Prefixes, key: string): string {
    Replace(key, p.input, p.error)
  }

  /** `key.replace(input, processed)`. */
  function ProcessedKey(p: Prefixes, key: string): string {
    Replace(key, p.input, p.processed)
  }

  /** A text without `/` does not contain a pattern that has one. */
  lemma NoSlashContains(s: string, pat: string, k: nat)
    requires '/' !in s && k < |pat| && pat[k] == '/'
    ensures !Contains(s, pat)
  {
    forall i | 0 <= i <= |s|
      ensures !OccursAt(s, pat, i)
    {
      if i + |pat| <= |s| {
        assert s[i..i + |pat|][k] == s[i + k];
      }
    }
  }

  /** Replacing a folder prefix that occurs nowhere else. */
  lemma ReplaceLeading(pre: string, name: string, rep: string)
    requires |pre| > 0 && !Contains(name, pre)
    ensures Replace(pre + name, pre, rep) == rep + name
  {
    LeadingReplace(pre + name, pre, rep);
    assert (pre + name)[|pre|..] == name;
    ReplaceAbsent(name, pre, rep);
  }

  /** A dotted file name without `/` occurs in `<folder>/<name>` only as its
      last segment, when the folder has no dot. */
  lemma NameOnlyAtEnd(folder: string, stem: string, ext: string, rep: string)
    requires '.' !in folder && '/' !in stem && '/' !in ext
    ensures Replace(folder + "/" + (stem + "." + ext), stem + "." + ext, rep) == folder + "/" + rep
  {
    var name := stem + "." + ext;
    var pre := folder + "/";
    assert name[|stem|] == '.';
    forall i | 0 <= i < |pre|
      ensures !OccursAt(pre + name, name, i)
    {
      var s := pre + name;
      if i + |stem| < |folder| {
        assert s[i..i + |name|][|stem|] == folder[i + |stem|] != name[|stem|];
      } else if i + |stem| == |folder| {
        assert s[i..i + |name|][|stem|] == pre[|folder|] != name[|stem|];
      } else {
        var k := |folder| - i;
        assert |pre| == |folder| + 1 && 0 <= k < |stem|;
        assert s[i + k] == pre[|folder|] == '/';
        assert s[i..i + |name|][k] == '/' != stem[k] == name[k];
      }
    }
    ReplaceSuffix(pre, name, rep);
  }

  /** A file `stem.ext` directly under `entrada/` goes to
      `processados/stem_<YYYYMMDD_HHMMSS>.ext`. */
  lemma RenamedKeyLayout(stem: string, ext: string, now: Instant)
    requires '.' !in stem && '/' !in stem && '.' !in ext && '/' !in ext
    ensures RenamedKey(Folders, "entrada/" + (stem + "." + ext), now)
      == Ok("processados/" + (stem + "_" + Compact(now) + "." + ext))
  {
    var name := stem + "." + ext;
    assert '/' !in name;
    assert "entrada/" + name == "entrada" + "/" + name;
    BasenameUnder("entrada", name);
    StampedNameParts([stem, ext], Compact(now));
    assert Join([stem, ext], ".") == name;
    NoSlashContains(name, "entrada/", 7);
    ReplaceLeading("entrada/", name, "processados/");
    var stamped := stem + "_" + Compact(now) + "." + ext;
    assert StampedName(Basename("entrada/" + name), Compact(now)) == Ok(stamped);
    NameOnlyAtEnd("processados", stem, ext, stamped);
    assert "processados" + "/" + name == "processados/" + name;
    assert Replace("processados/" + name, name, stamped) == "processados/" + stamped;
  }

  // ---------------------------------------------------------------------
  // lambdaS3-RDS: GerenciadorS3.mover_arquivo

  /** The folder of the key with `entrada` replaced by the target folder,
      and the last segment replaced by the stamped file name; a file name
      without a dot raises IndexError. */
  function Destination(origin: string, input: string, folder: string, now: Instant): Result<string> {
    var stamped := StampedName(Basename(origin), Compact(now));
    if stamped.Err? then Err(stamped.error)
    else
      var dirs := Split(Replace(origin, input, folder), '/');
      Ok(Join(dirs[..|dirs| - 1] + [stamped.value], "/"))
  }

  /** The destination keeps the folders of the rewritten key and ends with
      the stamped name of the original file, as its own segment. */
  lemma DestinationSegments(origin: string, input: string, folder: string, now: Instant)
    requires Destination(origin, input, folder, now).Ok?
    ensures var dirs := Split(Replace(origin, input, folder), '/');
      Split(Destination(origin, input, folder, now).value, '/')
        == dirs[..|dirs| - 1] + [StampedName(Basename(origin), Compact(now)).value]
    ensures Basename(Destination(origin, input, folder, now).value)
        == StampedName(Basename(origin), Compact(now)).value
  {
    var dirs := Split(Replace(origin, input, folder), '/');
    var stamped := StampedName(Basename(origin), Compact(now)).value;
    BasenameSegment(origin);
    StampedNameSegment(Basename(origin), now);
    SplitPiecesFree(Replace(origin, input, folder), '/');
    var parts := dirs[..|dirs| - 1] + [stamped];
    assert forall i :: 0 <= i < |parts| ==> '/' !in parts[i] by {
      forall i | 0 <= i < |parts| ensures '/' !in parts[i] {
        if i < |dirs| - 1 {
          assert parts[i] == dirs[i];
        }
      }
    }
    SplitJoin(parts, '/');
  }

  // ---------------------------------------------------------------------
  // lambda-file-processor: generate_destination_key and the error key

  /** `f"{prefix}{now.strftime('%Y-%m-%d')}/{os.path.basename(key)}"`. */
  function DatedKey(prefix: string, now: Instant, key: string): string {
    prefix + Day(now) + "/" + Basename(key)
  }

  /** Under a one-segment prefix the dated key has three segments: the
      folder, the day and the file's own name. */
  lemma DatedKeySegments(folder: string, now: Instant, key: string)
    requires '/' !in folder
    ensures Split(DatedKey(folder + "/", now, key), '/') == [folder, Day(now), Basename(key)]
  {
    var day, base := Day(now), Basename(key);
    DayLayout(now);
    BasenameSegment(key);
    assert DatedKey(folder + "/", now, key) == folder + ['/'] + (day + ['/'] + base);
    SplitAppend(folder, day + ['/'] + base, '/');
    SplitAppend(day, base, '/');
    SplitFree(folder, '/');
    SplitFree(day, '/');
    SplitFree(base, '/');
  }

  /** The index of the last `c` in `s`, or -1 (`str.rfind`). */
  function RFind(s: string, c: char): (i: int)
    ensures -1 <= i < |s|
    ensures i >= 0 ==> s[i] == c
    ensures forall j :: i < j < |s| ==> s[j] != c
    decreases |s|
  {
    if |s| == 0 then -1
    else if s[|s| - 1] == c then |s| - 1
    else RFind(s[..|s| - 1], c)
  }

  /** `os.path.splitext(name)[0]` for a name without `/`: the text before
      the last dot, unless only dots precede it (a hidden file keeps its
      whole name). */
  function Root(name: string): string {
    var i := RFind(name, '.');
    if i > 0 && exists j :: 0 <= j < i && name[j] != '.' then name[..i] else name
  }

  /** `stem.ext` loses its extension; a name without a dot stays whole. */
  lemma RootOfName(stem: string, ext: string)
    requires '.' !in ext && |stem| > 0 && stem[0] != '.'
    ensures Root(stem + "." + ext) == stem
    ensures '.' !in stem ==> Root(stem) == stem
  {
    var name := stem + "." + ext;
    assert name[|stem|] == '.';
    var i := RFind(name, '.');
    assert forall j :: |stem| < j < |name| ==> name[j] == ext[j - |stem| - 1];
    assert i == |stem|;
    assert name[0] != '.';
    assert name[..i] == stem;
  }

  /** Where `upload_report` puts the report of a file. */
  function ReportKey(now: Instant, key: string): string {
    "relatorios/" + Day(now) + "/" + Root(Basename(key)) + "_report.csv"
  }
}
