/** The Python string operations the pipelines use, with the semantics of
    CPython's `str` methods for the inputs that occur here. */
module Text {

  /** `s.startswith(p)`. */
  predicate StartsWith(s: string, p: string) {
    |p| <= |s| && s[..|p|] == p
  }

  /** `s.endswith(p)`. */
  predicate EndsWith(s: string, p: string) {
    |p| <= |s| && s[|s| - |p|..] == p
  }

  /** `p` occurs in `s` starting at index `i`. */
  predicate OccursAt(s: string, p: string, i: int) {
    0 <= i && i + |p| <= |s| && s[i..i + |p|] == p
  }

  /** `p in s` for strings: `p` occurs somewhere in `s`. */
  predicate Contains(s: string, p: string) {
    exists i :: 0 <= i <= |s| && OccursAt(s, p, i)
  }

  /** `s.split(sep)` for a one-character separator: never empty, and every
      separator starts a new piece (so `"a..b"` gives three pieces). */
  function Split(s: string, sep: char): (parts: seq<string>)
    ensures |parts| >= 1
    decreases |s|
  {
    if |s| == 0 then [""]
    else
      var rest := Split(s[1..], sep);
      if s[0] == sep then [""] + rest
      else [[s[0]] + rest[0]] + rest[1..]
  }

  /** `sep.join(parts)`. */
  function Join(parts: seq<string>, sep: string): string
    decreases |parts|
  {
    if |parts| == 0 then ""
    else if |parts| == 1 then parts[0]
    else parts[0] + sep + Join(parts[1..], sep)
  }

  /** `s.count(c)` for a single character. */
  function Count(s: string, c: char): nat
    decreases |s|
  {
    if |s| == 0 then 0 else (if s[0] == c then 1 else 0) + Count(s[1..], c)
  }

  /** The last element of a non-empty sequence (Python's `xs[-1]`). */
  function Last<T>(xs: seq<T>): T
    requires |xs| > 0
  {
    xs[|xs| - 1]
  }

  /** The last `/`-separated segment: both `key.split('/')[-1]` and
      `os.path.basename(key)`. */
  function Basename(path: string): string {
    Last(Split(path, '/'))
  }

  /** `s.replace(pat, rep)`: every non-overlapping occurrence, scanning from
      the left; an empty pattern inserts `rep` around every character. */
  function Replace(s: string, pat: string, rep: string): string
    decreases |s|
  {
    if |pat| == 0 then
      (if |s| == 0 then rep else rep + [s[0]] + Replace(s[1..], pat, rep))
    else if |s| < |pat| then s
    else if s[..|pat|] == pat then rep + Replace(s[|pat|..], pat, rep)
    else [s[0]] + Replace(s[1..], pat, rep)
  }

  /** `s.replace(pat, rep, 1)`: only the first occurrence. */
  function ReplaceFirst(s: string, pat: string, rep: string): string
    decreases |s|
  {
    if StartsWith(s, pat) then rep + s[|pat|..]
    else if |s| == 0 then s
    else [s[0]] + ReplaceFirst(s[1..], pat, rep)
  }

  /** The sharp s, whose capital form is the two letters "SS". */
  const SharpS: char := 0xDF as char

  /** Python's `str.upper()` of one character of the Latin-1 range: the
      small letters `a`-`z` and `à`-`þ` (but not `÷`) go to their capitals,
      `ß` to "SS", `µ` to the Greek capital mu and `ÿ` to `Ÿ`. */
  function UpperOf(c: char): string {
    var n := c as int;
    if 'a' <= c <= 'z' || (0xE0 <= n <= 0xFE && n != 0xF7) then [(n - 32) as char]
    else if c == SharpS then "SS"
    else if n == 0xB5 then [0x39C as char]
    else if n == 0xFF then [0x178 as char]
    else [c]
  }

  /** Python's `str.lower()` of one character of the Latin-1 range: the
      capitals `A`-`Z` and `À`-`Þ` (but not `×`) go to their small letters. */
  function LowerChar(c: char): char {
    var n := c as int;
    if 'A' <= c <= 'Z' || (0xC0 <= n <= 0xDE && n != 0xD7) then (n + 32) as char else c
  }

  /** `s.upper()` for the Latin-1 range: never shorter than `s`, and longer
      exactly when `s` holds a `ß`. */
  function Upper(s: string): (r: string)
    ensures |r| >= |s|
    ensures |r| == |s| <==> SharpS !in s
    decreases |s|
  {
    if s == [] then [] else
      assert SharpS in s <==> s[0] == SharpS || SharpS in s[1..] by {
        assert s == [s[0]] + s[1..];
      }
      UpperOf(s[0]) + Upper(s[1..])
  }

  /** `s.lower()` for the Latin-1 range, where every character lowers to
      one character. */
  function Lower(s: string): (r: string)
    ensures |r| == |s|
  {
    seq(|s|, i requires 0 <= i < |s| => LowerChar(s[i]))
  }

  /** The characters for which CPython's `str.isspace()` holds. */
  predicate IsSpace(c: char) {
    var n := c as int;
    (9 <= n <= 13) || (28 <= n <= 32) || n == 0x85 || n == 0xA0 || n == 0x1680
    || (0x2000 <= n <= 0x200A) || n == 0x2028 || n == 0x2029 || n == 0x202F
    || n == 0x205F || n == 0x3000
  }

  function StripLeft(s: string): string
    decreases |s|
  {
    if |s| > 0 && IsSpace(s[0]) then StripLeft(s[1..]) else s
  }

  function StripRight(s: string): string
    decreases |s|
  {
    if |s| > 0 && IsSpace(s[|s| - 1]) then StripRight(s[..|s| - 1]) else s
  }

  /** `s.strip()`. */
  function Strip(s: string): string {
    StripRight(StripLeft(s))
  }

  // ---------------------------------------------------------------------
  // Split and Join are inverse to each other.

  /** Joining the pieces of a split with the same separator gives the input back. */
  lemma {:induction false} JoinSplit(s: string, sep: char)
    ensures Join(Split(s, sep), [sep]) == s
  {
    if |s| > 0 {
      JoinSplit(s[1..], sep);
      var rest := Split(s[1..], sep);
      if s[0] == sep {
        assert ([""] + rest)[1..] == rest;
        assert s == [sep] + s[1..];
      } else {
        var parts := [[s[0]] + rest[0]] + rest[1..];
        if |rest| == 1 {
          assert s == [s[0]] + s[1..];
        } else {
          assert parts[1..] == rest[1..];
          assert Join(rest, [sep]) == rest[0] + [sep] + Join(rest[1..], [sep]);
          assert s == [s[0]] + s[1..];
        }
      }
    }
  }

  /** A piece free of the separator splits to itself. */
  lemma {:induction false} SplitFree(p: string, sep: char)
    requires sep !in p
    ensures Split(p, sep) == [p]
  {
    if |p| > 0 {
      assert sep !in p[1..];
      SplitFree(p[1..], sep);
      assert [p[0]] + p[1..] == p;
    }
  }

  /** A separator-free piece followed by the separator contributes one piece. */
  lemma {:induction false} SplitCons(p: string, t: string, sep: char)
    requires sep !in p
    ensures Split(p + [sep] + t, sep) == [p] + Split(t, sep)
  {
    var s := p + [sep] + t;
    if |p| == 0 {
      assert s[1..] == t;
    } else {
      assert s[1..] == p[1..] + [sep] + t;
      assert sep !in p[1..];
      SplitCons(p[1..], t, sep);
      assert [p[0]] + p[1..] == p;
    }
  }

  /** Splitting a join of separator-free pieces gives the pieces back. */
  lemma {:induction false} SplitJoin(parts: seq<string>, sep: char)
    requires |parts| >= 1
    requires forall i :: 0 <= i < |parts| ==> sep !in parts[i]
    ensures Split(Join(parts, [sep]), sep) == parts
  {
    if |parts| == 1 {
      SplitFree(parts[0], sep);
    } else {
      SplitJoin(parts[1..], sep);
      SplitCons(parts[0], Join(parts[1..], [sep]), sep);
      assert [parts[0]] + parts[1..] == parts;
    }
  }

  /** No piece of a split contains the separator. */
  lemma {:induction false} SplitPiecesFree(s: string, sep: char)
    ensures forall i :: 0 <= i < |Split(s, sep)| ==> sep !in Split(s, sep)[i]
  {
    if |s| > 0 {
      SplitPiecesFree(s[1..], sep);
    }
  }

  // ---------------------------------------------------------------------
  // Facts about Replace, ReplaceFirst, Upper and Strip.

  /** A pattern that does not occur leaves the string unchanged. */
  lemma {:induction false} ReplaceAbsent(s: string, pat: string, rep: string)
    requires |pat| > 0 && !Contains(s, pat)
    ensures Replace(s, pat, rep) == s
    ensures ReplaceFirst(s, pat, rep) == s
    decreases |s|
  {
    if |s| > 0 {
      if Contains(s[1..], pat) {
        var i :| 0 <= i <= |s[1..]| && OccursAt(s[1..], pat, i);
        assert s[1..][i..i + |pat|] == s[i + 1..i + 1 + |pat|];
        assert OccursAt(s, pat, i + 1);
      }
      if |s| >= |pat| {
        assert s[0..|pat|] == s[..|pat|];
        assert !OccursAt(s, pat, 0);
      }
      ReplaceAbsent(s[1..], pat, rep);
      assert [s[0]] + s[1..] == s;
    }
  }

  /** A key that starts with the pattern has that occurrence replaced first, by
      both forms of `replace`. */
  lemma LeadingReplace(s: string, pat: string, rep: string)
    requires |pat| > 0 && StartsWith(s, pat)
    ensures Replace(s, pat, rep) == rep + Replace(s[|pat|..], pat, rep)
    ensures ReplaceFirst(s, pat, rep) == rep + s[|pat|..]
    ensures StartsWith(Replace(s, pat, rep), rep)
  {
  }

  /** `s.upper() == 'C'` holds exactly for "C" and "c". */
  lemma UpperIsC(s: string)
    ensures Upper(s) == "C" <==> s == "C" || s == "c"
  {
    if Upper(s) == "C" {
      assert |s| == 1;
      assert Upper(s) == UpperOf(s[0]) + Upper(s[1..]);
      assert s[1..] == [];
      assert s == [s[0]];
    }
    if s == "c" || s == "C" {
      assert s[1..] == [];
    }
  }

  lemma {:induction false} StripLeftBlank(s: string)
    ensures StripLeft(s) == "" <==> forall i :: 0 <= i < |s| ==> IsSpace(s[i])
    decreases |s|
  {
    if |s| > 0 {
      StripLeftBlank(s[1..]);
      if IsSpace(s[0]) {
        assert forall i :: 1 <= i < |s| ==> s[i] == s[1..][i - 1];
      }
    }
  }

  lemma {:induction false} StripRightBlank(s: string)
    ensures StripRight(s) == "" <==> forall i :: 0 <= i < |s| ==> IsSpace(s[i])
    decreases |s|
  {
    if |s| > 0 && IsSpace(s[|s| - 1]) {
      StripRightBlank(s[..|s| - 1]);
      assert forall i :: 0 <= i < |s| - 1 ==> s[i] == s[..|s| - 1][i];
    }
  }

  /** What `StripLeft` leaves does not start with whitespace. */
  lemma {:induction false} StripLeftHead(s: string)
    ensures StripLeft(s) == "" || !IsSpace(StripLeft(s)[0])
    decreases |s|
  {
    if |s| > 0 && IsSpace(s[0]) {
      StripLeftHead(s[1..]);
    }
  }

  /** `not s.strip()`: the stripped text is empty exactly when every character
      is whitespace. */
  lemma StripBlank(s: string)
    ensures Strip(s) == "" <==> forall i :: 0 <= i < |s| ==> IsSpace(s[i])
  {
    StripLeftBlank(s);
    StripLeftHead(s);
    StripRightBlank(StripLeft(s));
  }

  /** What `StripRight` leaves is a prefix of its input that does not end
      with whitespace. */
  lemma {:induction false} StripRightTail(s: string)
    ensures |StripRight(s)| <= |s| && StripRight(s) == s[..|StripRight(s)|]
    ensures StripRight(s) == "" || !IsSpace(StripRight(s)[|StripRight(s)| - 1])
    decreases |s|
  {
    if |s| > 0 && IsSpace(s[|s| - 1]) {
      var t := s[..|s| - 1];
      StripRightTail(t);
      assert t[..|StripRight(t)|] == s[..|StripRight(t)|];
    }
  }

  /** `s.strip()` neither starts nor ends with whitespace. */
  lemma StripEnds(s: string)
    ensures var t := Strip(s); t == "" || (!IsSpace(t[0]) && !IsSpace(t[|t| - 1]))
  {
    StripLeftHead(s);
    StripRightTail(StripLeft(s));
  }

  /** `s.lower()` has no upper-case letter left, and keeps every
      whitespace character where it was. */
  lemma LowerLower(s: string)
    ensures Lower(Lower(s)) == Lower(s)
    ensures forall i :: 0 <= i < |s| ==> (IsSpace(Lower(s)[i]) <==> IsSpace(s[i]))
  {
  }

  // ---------------------------------------------------------------------
  // Counting characters and finding pieces in joined text.

  lemma {:induction false} CountConcat(a: string, b: string, c: char)
    ensures Count(a + b, c) == Count(a, c) + Count(b, c)
    decreases |a|
  {
    if |a| > 0 {
      assert (a + b)[1..] == a[1..] + b;
      CountConcat(a[1..], b, c);
    } else {
      assert a + b == b;
    }
  }

  /** A joined text that contains `parts[i]` as a piece: whatever stands
      before and after it. */
  lemma {:induction false} JoinPiece(parts: seq<string>, sep: string, i: nat) returns (pre: string, post: string)
    requires i < |parts|
    ensures Join(parts, sep) == pre + parts[i] + post
    decreases |parts|
  {
    if |parts| == 1 {
      pre, post := "", "";
    } else if i == 0 {
      pre, post := "", sep + Join(parts[1..], sep);
    } else {
      var p, q := JoinPiece(parts[1..], sep, i - 1);
      pre, post := parts[0] + sep + p, q;
    }
  }

  /** Whatever is glued around a piece, the piece occurs in the result. */
  lemma ContainsPiece(pre: string, p: string, post: string)
    ensures Contains(pre + p + post, p)
  {
    assert (pre + p + post)[|pre|..|pre| + |p|] == p;
    assert OccursAt(pre + p + post, p, |pre|);
  }

  /** `s.split(sep)` has one piece more than `s` has separators. */
  lemma {:induction false} SplitCount(s: string, sep: char)
    ensures |Split(s, sep)| == Count(s, sep) + 1
    decreases |s|
  {
    if |s| > 0 {
      SplitCount(s[1..], sep);
    }
  }
  /** Splitting at a separator between two texts splits each of them. */
  lemma {:induction false} SplitAppend(a: string, b: string, sep: char)
    ensures Split(a + [sep] + b, sep) == Split(a, sep) + Split(b, sep)
    decreases |a|
  {
    var s := a + [sep] + b;
    if |a| == 0 {
      assert s[1..] == b;
    } else {
      assert s[1..] == a[1..] + [sep] + b;
      SplitAppend(a[1..], b, sep);
    }
  }

  /** A text has none of a character exactly when it counts none. */
  lemma {:induction false} CountZero(s: string, c: char)
    ensures Count(s, c) == 0 <==> c !in s
    decreases |s|
  {
    if |s| > 0 {
      CountZero(s[1..], c);
      assert s == [s[0]] + s[1..];
    }
  }

  /** A pattern that occurs only at the very end of a text: only that
      occurrence is replaced. */
  lemma {:induction false} ReplaceSuffix(pre: string, pat: string, rep: string)
    requires |pat| > 0
    requires forall i :: 0 <= i < |pre| ==> !OccursAt(pre + pat, pat, i)
    ensures Replace(pre + pat, pat, rep) == pre + rep
    decreases |pre|
  {
    var s := pre + pat;
    if |pre| == 0 {
      assert s == pat && s[|pat|..] == [];
    } else {
      assert s[0..|pat|] == s[..|pat|];
      assert !OccursAt(s, pat, 0);
      assert s[1..] == pre[1..] + pat;
      forall i | 0 <= i < |pre[1..]|
        ensures !OccursAt(pre[1..] + pat, pat, i)
      {
        assert !OccursAt(s, pat, i + 1);
        assert s[i + 1..i + 1 + |pat|] == (pre[1..] + pat)[i..i + |pat|];
      }
      ReplaceSuffix(pre[1..], pat, rep);
    }
  }
}
