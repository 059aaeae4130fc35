/**
 * The string operations the loaders apply to fetched and generated text:
 * Python's `str.strip()`, `str.startswith`, `str.endswith`, `str.split(sep)`
 * with a one-character separator, `sep.join(parts)` and the blank-line test
 * `line.strip()` used as a condition.
 */
module Text {

  /** The characters Python's `str.strip()` with no argument removes (`str.isspace`). */
  predicate IsSpace(c: char) {
    c == ' ' || c == '\t' || c == '\n' || c == '\r' || c == '\U{0B}' || c == '\U{0C}'
    || ('\U{1C}' <= c <= '\U{1F}') || c == '\U{85}' || c == '\U{A0}' || c == '\U{1680}'
    || ('\U{2000}' <= c <= '\U{200A}') || c == '\U{2028}' || c == '\U{2029}'
    || c == '\U{202F}' || c == '\U{205F}' || c == '\U{3000}'
  }

  /** Every character of `s` is whitespace (so is the empty string). */
  predicate AllSpace(s: string) {
    forall k :: 0 <= k < |s| ==> IsSpace(s[k])
  }

  /** `s` neither starts nor ends with whitespace. */
  predicate Trimmed(s: string) {
    s == [] || (!IsSpace(s[0]) && !IsSpace(s[|s| - 1]))
  }

  predicate StartsWith(s: string, prefix: string) {
    |prefix| <= |s| && s[..|prefix|] == prefix
  }

  predicate EndsWith(s: string, suffix: string) {
    |suffix| <= |s| && s[|s| - |suffix|..] == suffix
  }

  /** `s` with its leading whitespace removed. */
  function TrimStart(s: string): string {
    if s != [] && IsSpace(s[0]) then TrimStart(s[1..]) else s
  }

  /** `s` with its trailing whitespace removed. */
  function TrimEnd(s: string): string {
    if s != [] && IsSpace(s[|s| - 1]) then TrimEnd(s[..|s| - 1]) else s
  }

  /** Whitespace followed by whitespace is whitespace. */
  lemma AllSpaceConcat(a: string, b: string)
    requires AllSpace(a) && AllSpace(b)
    ensures AllSpace(a + b)
  {
    forall k | 0 <= k < |a + b| ensures IsSpace((a + b)[k]) {
      if k >= |a| { assert (a + b)[k] == b[k - |a|]; }
    }
  }

  /** TrimStart keeps a suffix of `s` that does not start with whitespace and drops only whitespace. */
  lemma {:induction false} TrimStartSpec(s: string)
    ensures |TrimStart(s)| <= |s| && TrimStart(s) == s[|s| - |TrimStart(s)|..]
    ensures AllSpace(s[..|s| - |TrimStart(s)|])
    ensures TrimStart(s) == [] || !IsSpace(TrimStart(s)[0])
  {
    if s != [] && IsSpace(s[0]) {
      var rest := s[1..];
      TrimStartSpec(rest);
      var t := TrimStart(rest);
      assert TrimStart(s) == t;
      var m := |rest| - |t|;
      assert t == s[m + 1..];
      assert s[..m + 1] == [s[0]] + rest[..m];
      AllSpaceConcat([s[0]], rest[..m]);
    }
  }

  /** TrimEnd keeps a prefix of `s` that does not end with whitespace and drops only whitespace. */
  lemma {:induction false} TrimEndSpec(s: string)
    ensures |TrimEnd(s)| <= |s| && TrimEnd(s) == s[..|TrimEnd(s)|]
    ensures AllSpace(s[|TrimEnd(s)|..])
    ensures TrimEnd(s) == [] || !IsSpace(TrimEnd(s)[|TrimEnd(s)| - 1])
  {
    if s != [] && IsSpace(s[|s| - 1]) {
      var p := s[..|s| - 1];
      TrimEndSpec(p);
      var n := |TrimEnd(p)|;
      assert p[..n] == s[..n];
      assert s[n..] == p[n..] + [s[|s| - 1]];
      AllSpaceConcat(p[n..], [s[|s| - 1]]);
    }
  }

  /**
   * `r` is the slice of `s` starting at `i`, it neither starts nor ends with
   * whitespace, and everything of `s` around it is whitespace.
   */
  predicate StrippedAt(s: string, r: string, i: int) {
    0 <= i && i + |r| <= |s| && r == s[i..i + |r|] && Trimmed(r) && AllSpace(s[..i]) && AllSpace(s[i + |r|..])
  }

  /** Python's `s.strip()`: whitespace removed at both ends. */
  function Strip(s: string): string {
    TrimEnd(TrimStart(s))
  }

  /**
   * What `Strip` computes: the slice of `s` that neither starts nor ends with
   * whitespace and outside which `s` is whitespace only. StripUnique shows that
   * this determines the result.
   */
  lemma StripSpec(s: string)
    ensures exists i :: StrippedAt(s, Strip(s), i)
  {
    var t := TrimStart(s);
    var r := TrimEnd(t);
    TrimStartSpec(s);
    TrimEndSpec(t);
    var i := |s| - |t|;
    assert r == s[i..i + |r|];
    assert s[i + |r|..] == t[|r|..];
    assert r == Strip(s);
    assert StrippedAt(s, Strip(s), i);
  }

  /** A stripped string is empty exactly when the original was whitespace only. */
  lemma StripEmptyIffAllSpace(s: string)
    ensures Strip(s) == [] <==> AllSpace(s)
  {
    var r := Strip(s);
    StripSpec(s);
    var i :| StrippedAt(s, r, i);
    if r == [] {
      forall k | 0 <= k < |s| ensures IsSpace(s[k]) {
        if k < i { assert s[k] == s[..i][k]; } else { assert s[k] == s[i..][k - i]; }
      }
    } else {
      assert s[i] == r[0];
    }
  }

  /** Two positions that are each the first non-whitespace character of `s` coincide. */
  lemma FirstNonSpaceUnique(s: string, i: nat, j: nat)
    requires i < |s| && j < |s|
    requires AllSpace(s[..i]) && !IsSpace(s[i]) && AllSpace(s[..j]) && !IsSpace(s[j])
    ensures i == j
  {
  }

  /** Two positions that are each the last non-whitespace character of `s` coincide. */
  lemma LastNonSpaceUnique(s: string, e: nat, f: nat)
    requires e < |s| && f < |s|
    requires AllSpace(s[e + 1..]) && !IsSpace(s[e]) && AllSpace(s[f + 1..]) && !IsSpace(s[f])
    ensures e == f
  {
  }

  /** The characterisation in StripSpec has exactly one solution. */
  lemma StripUnique(s: string, r: string, i: int)
    requires StrippedAt(s, r, i)
    ensures r == Strip(s)
  {
    var q := Strip(s);
    StripSpec(s);
    var j :| StrippedAt(s, q, j);
    StripEmptyIffAllSpace(s);
    if r == [] {
      assert s == s[..i] + s[i..];
      AllSpaceConcat(s[..i], s[i..]);
    } else {
      assert s[i] == r[0];
      assert q != [];
      assert s[j] == q[0];
      FirstNonSpaceUnique(s, i, j);
      assert s[i + |r| - 1] == r[|r| - 1] && s[j + |q| - 1] == q[|q| - 1];
      LastNonSpaceUnique(s, i + |r| - 1, j + |q| - 1);
    }
  }

  /** Stripping twice is stripping once. */
  lemma StripIdempotent(s: string)
    ensures Strip(Strip(s)) == Strip(s)
  {
    var r := Strip(s);
    StripSpec(s);
    var i :| StrippedAt(s, r, i);
    assert r[0..0 + |r|] == r;
    assert StrippedAt(r, r, 0);
    StripUnique(r, r, 0);
  }

  /** Python's `s.split(sep)` for a one-character separator: never empty, no piece holds `sep`. */
  function Split(s: string, sep: char): (r: seq<string>)
    ensures |r| >= 1
    ensures forall i :: 0 <= i < |r| ==> sep !in r[i]
  {
    if s == [] then [""]
    else
      var rest := Split(s[1..], sep);
      if s[0] == sep then [""] + rest
      else [[s[0]] + rest[0]] + rest[1..]
  }

  /** Python's `sep.join(parts)`. */
  function Join(parts: seq<string>, sep: string): string {
    if |parts| == 0 then ""
    else if |parts| == 1 then parts[0]
    else parts[0] + sep + Join(parts[1..], sep)
  }

  /** The sum of the lengths of `parts`. */
  function TotalLength(parts: seq<string>): nat {
    if parts == [] then 0 else |parts[0]| + TotalLength(parts[1..])
  }

  /** A join is as long as its parts plus one separator between each two of them. */
  lemma {:induction false} JoinLength(parts: seq<string>, sep: string)
    requires |parts| >= 1
    ensures |Join(parts, sep)| == TotalLength(parts) + |sep| * (|parts| - 1)
  {
    if |parts| > 1 {
      JoinLength(parts[1..], sep);
      assert |sep| * (|parts| - 1) == |sep| + |sep| * (|parts| - 2);
    }
  }

  /** Joining the pieces of a split with the separator gives back the string. */
  lemma {:induction false} JoinSplit(s: string, sep: char)
    ensures Join(Split(s, sep), [sep]) == s
  {
    if s != [] {
      var rest := Split(s[1..], sep);
      JoinSplit(s[1..], sep);
      if s[0] == sep {
        assert ([""] + rest)[1..] == rest;
      } else {
        var head := [[s[0]] + rest[0]] + rest[1..];
        assert head[1..] == rest[1..];
        if |rest| > 1 {
          assert Join(rest, [sep]) == rest[0] + [sep] + Join(rest[1..], [sep]);
        }
        assert s == [s[0]] + s[1..];
      }
    }
  }

  /** Splitting a string that holds no separator gives that string alone. */
  lemma {:induction false} SplitNoSeparator(s: string, sep: char)
    requires sep !in s
    ensures Split(s, sep) == [s]
  {
    if s != [] {
      assert sep !in s[1..] by { assert forall k :: 0 <= k < |s[1..]| ==> s[1..][k] == s[k + 1]; }
      SplitNoSeparator(s[1..], sep);
      assert [s[0]] + s[1..] == s;
    }
  }

  /** A separator-free piece followed by the separator splits off as one piece. */
  lemma {:induction false} SplitPiece(p: string, sep: char, t: string)
    requires sep !in p
    ensures Split(p + [sep] + t, sep) == [p] + Split(t, sep)
  {
    if p == [] {
      assert p + [sep] + t == [sep] + t;
      assert ([sep] + t)[1..] == t;
    } else {
      var s := p + [sep] + t;
      assert s[1..] == p[1..] + [sep] + t;
      assert sep !in p[1..] by { assert forall k :: 0 <= k < |p[1..]| ==> p[1..][k] == p[k + 1]; }
      SplitPiece(p[1..], sep, t);
      assert [p[0]] + p[1..] == p;
    }
  }

  /** Splitting a join of separator-free pieces gives back the pieces. */
  lemma {:induction false} SplitJoin(parts: seq<string>, sep: char)
    requires |parts| >= 1
    requires forall i :: 0 <= i < |parts| ==> sep !in parts[i]
    ensures Split(Join(parts, [sep]), sep) == parts
  {
    if |parts| == 1 {
      SplitNoSeparator(parts[0], sep);
    } else {
      SplitJoin(parts[1..], sep);
      SplitPiece(parts[0], sep, Join(parts[1..], [sep]));
      assert [parts[0]] + parts[1..] == parts;
    }
  }

  /** The lines Python keeps with `if line.strip()`, in their original order and unchanged. */
  function NonBlankLines(lines: seq<string>): (r: seq<string>)
    ensures |r| <= |lines|
  {
    if lines == [] then []
    else if Strip(lines[0]) != [] then [lines[0]] + NonBlankLines(lines[1..])
    else NonBlankLines(lines[1..])
  }

  /** Every kept line is a non-blank line of the input, and every non-blank line is kept. */
  lemma {:induction false} NonBlankLinesMembers(lines: seq<string>)
    ensures forall i :: 0 <= i < |NonBlankLines(lines)| ==>
      NonBlankLines(lines)[i] in lines && !AllSpace(NonBlankLines(lines)[i])
    ensures forall j :: 0 <= j < |lines| && !AllSpace(lines[j]) ==> lines[j] in NonBlankLines(lines)
  {
    if lines != [] {
      NonBlankLinesMembers(lines[1..]);
      StripEmptyIffAllSpace(lines[0]);
      var r, tail := NonBlankLines(lines), NonBlankLines(lines[1..]);
      forall j | 0 <= j < |lines| && !AllSpace(lines[j]) ensures lines[j] in r {
        if j > 0 { assert lines[j] == lines[1..][j - 1]; }
      }
      forall i | 0 <= i < |r| ensures r[i] in lines && !AllSpace(r[i]) {
        if Strip(lines[0]) != [] && i == 0 {
        } else if Strip(lines[0]) != [] {
          assert r[i] == tail[i - 1];
        } else {
          assert r[i] == tail[i];
        }
      }
    }
  }

  /** The filter distributes over concatenation: it keeps the order of the lines it keeps. */
  lemma {:induction false} NonBlankLinesAppend(a: seq<string>, b: seq<string>)
    ensures NonBlankLines(a + b) == NonBlankLines(a) + NonBlankLines(b)
  {
    if a != [] {
      assert (a + b)[0] == a[0];
      assert (a + b)[1..] == a[1..] + b;
      NonBlankLinesAppend(a[1..], b);
      var tail := NonBlankLines(a[1..]);
      if Strip(a[0]) != [] {
        calc {
          NonBlankLines(a + b);
          [a[0]] + NonBlankLines(a[1..] + b);
          [a[0]] + (tail + NonBlankLines(b));
          ([a[0]] + tail) + NonBlankLines(b);
        }
      }
    } else {
      assert a + b == b;
    }
  }

  /** One line is kept exactly when it is not whitespace only. */
  lemma NonBlankLinesSingle(line: string)
    ensures NonBlankLines([line]) == if AllSpace(line) then [] else [line]
  {
    StripEmptyIffAllSpace(line);
    assert [line][1..] == [];
  }
}
