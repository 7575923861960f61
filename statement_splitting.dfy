/** The statement splitter of the `cql.execute` command: the editor text is
    split into one statement per line, and empty lines and lines that begin
    with `//` are dropped.  The source writes it as one expression chain:
    every CR and every LF is replaced by CRLF, the text is split on CRLF,
    and two filters run over the pieces. */
module StatementSplitting {

  const CR: char := '\r'
  const LF: char := '\n'
  const CRLF: string := "\r\n"
  const CommentPrefix: string := "//"

  predicate IsBreak(c: char) { c == CR || c == LF }

  /** No CR and no LF anywhere in `s`. */
  predicate BreakFree(s: string) { forall i :: 0 <= i < |s| ==> !IsBreak(s[i]) }

  /** JavaScript's `s.startsWith(p)`: an exact prefix test. */
  predicate StartsWith(s: string, p: string) { |p| <= |s| && s[..|p|] == p }

  /** The first filter: `statementString != ""`. */
  predicate NonEmpty(s: string) { s != "" }

  /** The second filter: `!statementString.startsWith("//")`. */
  predicate NotComment(s: string) { !StartsWith(s, CommentPrefix) }

  /** What survives both filters. */
  predicate IsStatement(s: string) { NonEmpty(s) && NotComment(s) }

  // ---------------------------------------------------------------------------
  // The three stages of the source's expression chain

  /** `s.replace(/(\n|\r)/gm, "\r\n")`: every CR and every LF, wherever it
      stands, becomes the pair CRLF.  In the result every CR is followed by an
      LF and every LF follows a CR. */
  function NormalizeBreaks(s: string): (r: string)
    ensures r == [] <==> s == []
    ensures |r| >= |s|
    ensures forall i :: 0 <= i < |r| && r[i] == CR ==> i + 1 < |r| && r[i + 1] == LF
    ensures forall i :: 0 <= i < |r| && r[i] == LF ==> 0 < i && r[i - 1] == CR
  {
    if s == [] then []
    else
      var rest := NormalizeBreaks(s[1..]);
      var r := (if IsBreak(s[0]) then CRLF else [s[0]]) + rest;
      assert forall i :: 0 <= i < |rest| ==> r[i + |r| - |rest|] == rest[i];
      r
  }

  /** JavaScript's `s.split(sep)` for a non-empty separator and no limit:
      the text between successive leftmost, non-overlapping occurrences of
      `sep`, including the (possibly empty) pieces before the first and after
      the last one.  There is always at least one piece. */
  function Split(s: string, sep: string): (r: seq<string>)
    requires |sep| > 0
    ensures |r| >= 1
    ensures |s| < |sep| ==> r == [s]
    decreases |s|
  {
    if |s| < |sep| then [s]
    else if s[..|sep|] == sep then [""] + Split(s[|sep|..], sep)
    else
      var rest := Split(s[1..], sep);
      [[s[0]] + rest[0]] + rest[1..]
  }

  /** `xs.filter(keep)`: the elements of `xs` that satisfy `keep`, in order. */
  function Filter(xs: seq<string>, keep: string -> bool): (r: seq<string>)
    ensures |r| <= |xs|
    ensures forall x :: x in r <==> x in xs && keep(x)
  {
    if xs == [] then []
    else (if keep(xs[0]) then [xs[0]] else []) + Filter(xs[1..], keep)
  }

  /** The statements the command executes, src/cqlExecutor.ts lines 22-24. */
  function Statements(text: string): (r: seq<string>)
    ensures forall x :: x in r ==> IsStatement(x)
  {
    Filter(Filter(Split(NormalizeBreaks(text), CRLF), NonEmpty), NotComment)
  }

  // ---------------------------------------------------------------------------
  // An independent reference: the lines of a text

  /** The maximal CR/LF-free segments of `s`, in order: `s` cut at every
      single CR and every single LF.  A text with k breaks has k + 1 lines. */
  function Lines(s: string): (r: seq<string>)
    ensures |r| >= 1
    ensures forall i :: 0 <= i < |r| ==> BreakFree(r[i])
  {
    if s == [] then [""]
    else
      var rest := Lines(s[1..]);
      if IsBreak(s[0]) then [""] + rest
      else
        assert BreakFree([s[0]] + rest[0]) by {
          assert forall i :: 1 <= i < |rest[0]| + 1 ==> ([s[0]] + rest[0])[i] == rest[0][i - 1];
        }
        [[s[0]] + rest[0]] + rest[1..]
  }

  /** The break characters of `s`, in order. */
  function Breaks(s: string): (r: string)
    ensures |r| <= |s|
    ensures forall i :: 0 <= i < |r| ==> IsBreak(r[i])
  {
    if s == [] then []
    else (if IsBreak(s[0]) then [s[0]] else []) + Breaks(s[1..])
  }

  /** `parts[0] + seps[0] + parts[1] + ... + parts[n]`. */
  function Interleave(parts: seq<string>, seps: string): (s: string)
    requires |parts| == |seps| + 1
    decreases |seps|
  {
    if |seps| == 0 then parts[0]
    else parts[0] + [seps[0]] + Interleave(parts[1..], seps[1..])
  }

  /** JavaScript's `xs.join(sep)`; the empty list joins to "". */
  function Join(xs: seq<string>, sep: string): (s: string)
  {
    if xs == [] then ""
    else if |xs| == 1 then xs[0]
    else xs[0] + sep + Join(xs[1..], sep)
  }

  // ---------------------------------------------------------------------------
  // Lemmas about the reference

  lemma {:induction false} LinesOfBreakFree(s: string)
    requires BreakFree(s)
    ensures Lines(s) == [s]
  {
    if s != [] {
      assert BreakFree(s[1..]) by {
        assert forall i :: 0 <= i < |s| - 1 ==> s[1..][i] == s[i + 1];
      }
      LinesOfBreakFree(s[1..]);
      assert [s[0]] + s[1..] == s;
    }
  }

  /** Cutting at one break character splits the list of lines in two. */
  lemma {:induction false} LinesAtBreak(a: string, c: char, b: string)
    requires IsBreak(c)
    ensures Lines(a + [c] + b) == Lines(a) + Lines(b)
  {
    if a == [] {
      assert a + [c] + b == [c] + b;
      assert ([c] + b)[1..] == b;
    } else {
      var s := a + [c] + b;
      assert s[0] == a[0];
      assert s[1..] == a[1..] + [c] + b;
      LinesAtBreak(a[1..], c, b);
    }
  }

  /** Nothing is lost: the lines put back together with the breaks that
      separated them give the text again, and there is one more line than
      there are breaks. */
  lemma {:induction false} InterleaveLines(s: string)
    ensures |Lines(s)| == |Breaks(s)| + 1
    ensures Interleave(Lines(s), Breaks(s)) == s
  {
    if s != [] {
      InterleaveLines(s[1..]);
      var rest := Lines(s[1..]);
      var bs := Breaks(s[1..]);
      if IsBreak(s[0]) {
        assert Lines(s) == [""] + rest;
        assert Breaks(s) == [s[0]] + bs;
        assert (Breaks(s))[1..] == bs;
        assert ([""] + rest)[1..] == rest;
        assert s == [] + [s[0]] + s[1..];
      } else {
        assert Breaks(s) == bs;
        assert Lines(s) == [[s[0]] + rest[0]] + rest[1..];
        if |bs| == 0 {
          assert s == [s[0]] + s[1..];
        } else {
          assert Interleave(rest, bs) == rest[0] + [bs[0]] + Interleave(rest[1..], bs[1..]);
          assert ([[s[0]] + rest[0]] + rest[1..])[1..] == rest[1..];
          assert s == [s[0]] + s[1..];
        }
      }
    }
  }

  /** Conversely, the lines are the only way to cut a text into CR/LF-free
      pieces at its breaks: the segments are maximal. */
  lemma {:induction false} LinesOfInterleave(parts: seq<string>, seps: string)
    requires |parts| == |seps| + 1
    requires forall i :: 0 <= i < |parts| ==> BreakFree(parts[i])
    requires forall i :: 0 <= i < |seps| ==> IsBreak(seps[i])
    ensures Lines(Interleave(parts, seps)) == parts
    decreases |seps|
  {
    LinesOfBreakFree(parts[0]);
    if |seps| > 0 {
      LinesOfInterleave(parts[1..], seps[1..]);
      LinesAtBreak(parts[0], seps[0], Interleave(parts[1..], seps[1..]));
      assert parts == [parts[0]] + parts[1..];
    }
  }

  /** Nothing is lost by `split`: joining the pieces with the separator
      gives the text back. */
  lemma {:induction false} JoinSplit(s: string, sep: string)
    requires |sep| > 0
    ensures Join(Split(s, sep), sep) == s
    decreases |s|
  {
    if |s| >= |sep| {
      if s[..|sep|] == sep {
        var rest := Split(s[|sep|..], sep);
        JoinSplit(s[|sep|..], sep);
        assert ([""] + rest)[1..] == rest;
        assert s == s[..|sep|] + s[|sep|..];
      } else {
        var rest := Split(s[1..], sep);
        JoinSplit(s[1..], sep);
        var r := [[s[0]] + rest[0]] + rest[1..];
        assert r[1..] == rest[1..];
        assert s == [s[0]] + s[1..];
        if |rest| > 1 {
          assert Join(rest, sep) == rest[0] + sep + Join(rest[1..], sep);
        }
      }
    }
  }

  /** `sep` occurs in `p` at offset `k`. */
  predicate OccursAt(p: string, sep: string, k: int)
  {
    0 <= k && k + |sep| <= |p| && p[k..k + |sep|] == sep
  }

  /** The first piece of `split` is a prefix of the text. */
  lemma {:induction false} SplitHeadIsPrefix(s: string, sep: string)
    requires |sep| > 0
    ensures StartsWith(s, Split(s, sep)[0])
    decreases |s|
  {
    if |s| >= |sep| && s[..|sep|] != sep {
      SplitHeadIsPrefix(s[1..], sep);
      var h := Split(s[1..], sep)[0];
      assert ([s[0]] + h) == s[..|h| + 1] by {
        assert h == s[1..][..|h|];
      }
    }
  }

  /** No piece of `split` contains the separator: every occurrence of it
      in the text is cut. */
  lemma {:induction false} SplitPiecesAvoidSeparator(s: string, sep: string)
    requires |sep| > 0
    ensures forall i, k :: 0 <= i < |Split(s, sep)| ==> !OccursAt(Split(s, sep)[i], sep, k)
    decreases |s|
  {
    if |s| >= |sep| {
      if s[..|sep|] == sep {
        SplitPiecesAvoidSeparator(s[|sep|..], sep);
        var rest := Split(s[|sep|..], sep);
        assert forall i :: 1 <= i < |rest| + 1 ==> ([""] + rest)[i] == rest[i - 1];
      } else {
        SplitPiecesAvoidSeparator(s[1..], sep);
        var rest := Split(s[1..], sep);
        var head := [s[0]] + rest[0];
        SplitHeadIsPrefix(s[1..], sep);
        forall k ensures !OccursAt(head, sep, k) {
          if k == 0 && |sep| <= |head| {
            assert head[..|sep|] == s[..|sep|];
          } else if 0 < k && k + |sep| <= |head| {
            assert head[k..k + |sep|] == rest[0][k - 1..k - 1 + |sep|];
            assert !OccursAt(rest[0], sep, k - 1);
          }
        }
        var r := [head] + rest[1..];
        assert forall i :: 1 <= i < |r| ==> r[i] == rest[i];
      }
    }
  }

  // ---------------------------------------------------------------------------
  // The source's chain agrees with the reference

  /** Splitting the normalised text on CRLF gives exactly the lines. */
  lemma {:induction false} SplitNormalizedIsLines(s: string)
    ensures Split(NormalizeBreaks(s), CRLF) == Lines(s)
  {
    if s != [] {
      SplitNormalizedIsLines(s[1..]);
      var t := NormalizeBreaks(s[1..]);
      var n := NormalizeBreaks(s);
      if IsBreak(s[0]) {
        assert n == CRLF + t;
        assert n[..2] == CRLF;
        assert n[2..] == t;
      } else {
        assert n == [s[0]] + t;
        if |n| >= 2 {
          assert n[..2] != CRLF by { assert n[0] == s[0]; }
          assert n[1..] == t;
        } else {
          assert t == [];
          assert s[1..] == [];
        }
      }
    }
  }

  lemma {:induction false} FilterConcat(a: seq<string>, b: seq<string>, keep: string -> bool)
    ensures Filter(a + b, keep) == Filter(a, keep) + Filter(b, keep)
  {
    if a != [] {
      assert (a + b)[0] == a[0];
      assert (a + b)[1..] == a[1..] + b;
      FilterConcat(a[1..], b, keep);
    } else {
      assert a + b == b;
    }
  }

  lemma {:induction false} FilterTwice(xs: seq<string>)
    ensures Filter(Filter(xs, NonEmpty), NotComment) == Filter(xs, IsStatement)
  {
    if xs != [] {
      FilterTwice(xs[1..]);
      FilterConcat(if NonEmpty(xs[0]) then [xs[0]] else [], Filter(xs[1..], NonEmpty), NotComment);
    }
  }

  /** Completeness and order: the statements are exactly the lines of the
      text that are non-empty and do not begin with `//`, in text order. */
  lemma StatementsAreKeptLines(text: string)
    ensures Statements(text) == Filter(Lines(text), IsStatement)
  {
    SplitNormalizedIsLines(text);
    FilterTwice(Lines(text));
  }

  /** Every statement is non-empty, does not begin with `//` and holds no
      line break.  A line with blanks before `//` is a statement: the test
      is an exact prefix test. */
  lemma StatementsWellFormed(text: string)
    ensures forall i :: 0 <= i < |Statements(text)| ==>
      Statements(text)[i] != "" && !StartsWith(Statements(text)[i], "//") && BreakFree(Statements(text)[i])
  {
    StatementsAreKeptLines(text);
    var st := Statements(text);
    forall i | 0 <= i < |st|
      ensures st[i] != "" && !StartsWith(st[i], "//") && BreakFree(st[i])
    {
      assert st[i] in Filter(Lines(text), IsStatement);
      assert st[i] in Lines(text) && IsStatement(st[i]);
    }
  }

  /** A CRLF pair yields one extra, empty line. */
  lemma LinesAtCrLf(a: string, b: string)
    ensures Lines(a + "\r\n" + b) == Lines(a) + [""] + Lines(b)
  {
    assert a + "\r\n" + b == a + [CR] + ([LF] + b);
    LinesAtBreak(a, CR, [LF] + b);
    assert ([LF] + b)[1..] == b;
  }

  /** An empty line never reaches the statements. */
  lemma FilterSkipsEmpty(xs: seq<string>, ys: seq<string>)
    ensures Filter(xs + [""] + ys, IsStatement) == Filter(xs + ys, IsStatement)
  {
    FilterConcat(xs + [""], ys, IsStatement);
    FilterConcat(xs, [""], IsStatement);
    FilterConcat(xs, ys, IsStatement);
  }

  /** LF, CR and CRLF line endings give the same statements. */
  lemma LineEndingsAgree(a: string, b: string)
    ensures Statements(a + "\r\n" + b) == Statements(a + "\n" + b)
    ensures Statements(a + "\r" + b) == Statements(a + "\n" + b)
  {
    StatementsAreKeptLines(a + "\r\n" + b);
    StatementsAreKeptLines(a + "\n" + b);
    StatementsAreKeptLines(a + "\r" + b);
    LinesAtCrLf(a, b);
    assert a + "\n" + b == a + [LF] + b;
    assert a + "\r" + b == a + [CR] + b;
    LinesAtBreak(a, LF, b);
    LinesAtBreak(a, CR, b);
    FilterSkipsEmpty(Lines(a), Lines(b));
  }

  /** Joining well-formed statements with CRLF and splitting again gives
      them back. */
  lemma {:induction false} KeptLinesOfJoin(xs: seq<string>)
    requires forall i :: 0 <= i < |xs| ==> IsStatement(xs[i]) && BreakFree(xs[i])
    ensures Filter(Lines(Join(xs, CRLF)), IsStatement) == xs
  {
    if xs == [] {
    } else if |xs| == 1 {
      LinesOfBreakFree(xs[0]);
    } else {
      var rest := Join(xs[1..], CRLF);
      KeptLinesOfJoin(xs[1..]);
      assert Join(xs, CRLF) == xs[0] + "\r\n" + rest;
      LinesAtCrLf(xs[0], rest);
      LinesOfBreakFree(xs[0]);
      FilterSkipsEmpty([xs[0]], Lines(rest));
      FilterConcat([xs[0]], Lines(rest), IsStatement);
      assert xs == [xs[0]] + xs[1..];
    }
  }

  lemma StatementsOfJoin(xs: seq<string>)
    requires forall i :: 0 <= i < |xs| ==> IsStatement(xs[i]) && BreakFree(xs[i])
    ensures Statements(Join(xs, CRLF)) == xs
  {
    StatementsAreKeptLines(Join(xs, CRLF));
    KeptLinesOfJoin(xs);
  }

  /** Idempotence: splitting is a fixed point after one round of join. */
  lemma SplitIdempotent(text: string)
    ensures Statements(Join(Statements(text), CRLF)) == Statements(text)
  {
    StatementsWellFormed(text);
    StatementsOfJoin(Statements(text));
  }
}
