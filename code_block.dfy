/**
 * `CodeBlock`: the text shown for a code sample. A header comment is
 * prepended unless the sample already mentions the product, every line
 * loses its leading whitespace (`split('\n').map(trimStart).join('\n')`),
 * and the whole text is trimmed.
 *
 * Despite the source comment about preserving the indentation structure,
 * all indentation is removed; the model follows the code.
 */
module CodeBlock {

  const Marker := "FraudGuard AI"
  const Header := "// " + Marker + " Fraud Detection API Example\n"

  /**
   * What `trim`/`trimStart` remove: ECMAScript WhiteSpace (tab, vertical
   * tab, form feed, space, no-break space, byte order mark, the Unicode
   * space separators) and LineTerminator (LF, CR, LS, PS).
   */
  predicate IsWhitespace(c: char)
  {
    || c == '\t' || c == '\n' || c == '\U{B}' || c == '\U{C}' || c == '\r' || c == ' '
    || c == '\U{A0}' || c == '\U{1680}' || ('\U{2000}' <= c <= '\U{200A}')
    || c == '\U{2028}' || c == '\U{2029}' || c == '\U{202F}' || c == '\U{205F}'
    || c == '\U{3000}' || c == '\U{FEFF}'
  }

  predicate AllWhitespace(s: string)
  {
    forall i :: 0 <= i < |s| ==> IsWhitespace(s[i])
  }

  /** `s.includes(t)` */
  predicate Contains(s: string, t: string)
  {
    exists i :: 0 <= i <= |s| - |t| && OccursAt(s, t, i)
  }

  predicate OccursAt(s: string, t: string, i: int)
  {
    0 <= i <= |s| - |t| && s[i..i + |t|] == t
  }

  /** A line "starts with whitespace" unless it is empty or its first character is not whitespace. */
  predicate StartsUnindented(line: string)
  {
    line == [] || !IsWhitespace(line[0])
  }

  // ---------------------------------------------------------------- lines

  /** `s.split('\n')`: never empty; the pieces hold no line feed. */
  function Split(s: string): (lines: seq<string>)
    ensures |lines| >= 1
    ensures forall j :: 0 <= j < |lines| ==> '\n' !in lines[j]
    decreases |s|
  {
    if s == [] then [[]]
    else
      var rest := Split(s[1..]);
      if s[0] == '\n' then [[]] + rest
      else [[s[0]] + rest[0]] + rest[1..]
  }

  /** `lines.join('\n')` */
  function Join(lines: seq<string>): (text: string)
  {
    if |lines| == 0 then []
    else if |lines| == 1 then lines[0]
    else lines[0] + "\n" + Join(lines[1..])
  }

  predicate NoLineFeeds(lines: seq<string>)
  {
    forall j :: 0 <= j < |lines| ==> '\n' !in lines[j]
  }

  /** Joining the pieces of a split gives the text back. */
  lemma {:induction false} JoinSplit(s: string)
    ensures Join(Split(s)) == s
    decreases |s|
  {
    if s != [] {
      JoinSplit(s[1..]);
      var rest := Split(s[1..]);
      if s[0] == '\n' {
        assert Split(s)[1..] == rest;
      } else if |rest| > 1 {
        assert Split(s)[1..] == rest[1..];
        assert Join(rest) == rest[0] + "\n" + Join(rest[1..]);
      }
    }
  }

  /** Splitting after a prefix without line feeds extends the first piece. */
  lemma {:induction false} SplitAfterPrefix(a: string, b: string)
    requires '\n' !in a
    ensures Split(a + b) == [a + Split(b)[0]] + Split(b)[1..]
    decreases |a|
  {
    if a != [] {
      assert (a + b)[0] == a[0] && a[0] != '\n';
      assert (a + b)[1..] == a[1..] + b;
      SplitAfterPrefix(a[1..], b);
      assert [a[0]] + (a[1..] + Split(b)[0]) == a + Split(b)[0];
    } else {
      assert a + b == b && a + Split(b)[0] == Split(b)[0];
      assert Split(b) == [Split(b)[0]] + Split(b)[1..];
    }
  }

  /** Splitting the join of lines without line feeds gives the lines back. */
  lemma {:induction false} SplitJoin(lines: seq<string>)
    requires |lines| >= 1 && NoLineFeeds(lines)
    ensures Split(Join(lines)) == lines
  {
    if |lines| == 1 {
      SplitAfterPrefix(lines[0], []);
      assert lines[0] + [] == lines[0];
    } else {
      var tail := Join(lines[1..]);
      SplitJoin(lines[1..]);
      var nl := "\n" + tail;
      assert nl[0] == '\n' && nl[1..] == tail;
      assert Split(nl) == [[]] + Split(tail);
      assert Join(lines) == lines[0] + nl;
      SplitAfterPrefix(lines[0], nl);
      assert lines[0] + [] == lines[0];
      assert lines == [lines[0]] + lines[1..];
    }
  }

  // ------------------------------------------------------------- trimming

  /** The number of leading whitespace characters. */
  function LeadingWhitespace(s: string): (k: nat)
    ensures k <= |s|
    ensures forall i :: 0 <= i < k ==> IsWhitespace(s[i])
    ensures k < |s| ==> !IsWhitespace(s[k])
  {
    if s != [] && IsWhitespace(s[0]) then 1 + LeadingWhitespace(s[1..]) else 0
  }

  /** The number of trailing whitespace characters. */
  function TrailingWhitespace(s: string): (k: nat)
    ensures k <= |s|
    ensures forall i :: |s| - k <= i < |s| ==> IsWhitespace(s[i])
    ensures k < |s| ==> !IsWhitespace(s[|s| - 1 - k])
  {
    if s != [] && IsWhitespace(s[|s| - 1]) then 1 + TrailingWhitespace(s[..|s| - 1]) else 0
  }

  /** `s.trimStart()` */
  function TrimStart(s: string): (r: string)
  {
    s[LeadingWhitespace(s)..]
  }

  /**
   * `s.trim()`: the span of `s` between its leading and its trailing
   * whitespace, which neither begins nor ends with whitespace.
   */
  function Trim(s: string): (r: string)
    ensures r == [] || (!IsWhitespace(r[0]) && !IsWhitespace(r[|r| - 1]))
    ensures var a := LeadingWhitespace(s);
      && a + |r| <= |s| && r == s[a..a + |r|]
      && AllWhitespace(s[..a]) && AllWhitespace(s[a + |r|..])
  {
    var a := LeadingWhitespace(s);
    var b := TrailingWhitespace(s[a..]);
    TrimSpan(s, a, b);
    s[a..][..|s| - a - b]
  }

  /** The facts behind `Trim`'s contract, for the spans `Trim` cuts. */
  lemma TrimSpan(s: string, a: nat, b: nat)
    requires a == LeadingWhitespace(s) && b == TrailingWhitespace(s[a..])
    ensures var r := s[a..][..|s| - a - b];
      && (r == [] || (!IsWhitespace(r[0]) && !IsWhitespace(r[|r| - 1])))
      && a + |r| <= |s| && r == s[a..a + |r|]
      && AllWhitespace(s[..a]) && AllWhitespace(s[a + |r|..])
  {
    var t := s[a..];
    var r := t[..|t| - b];
    assert r == s[a..a + |r|];
    var before, after := s[..a], s[a + |r|..];
    forall i | 0 <= i < a ensures IsWhitespace(before[i]) {
      assert before[i] == s[i];
    }
    forall i | 0 <= i < b ensures IsWhitespace(after[i]) {
      assert after[i] == t[|r| + i];
    }
    if r != [] {
      assert r[0] == s[a];
      assert r[|r| - 1] == t[|t| - 1 - b];
    }
  }

  /** A text that neither begins nor ends with whitespace is its own trim. */
  lemma TrimOfTrimmed(s: string)
    requires s == [] || (!IsWhitespace(s[0]) && !IsWhitespace(s[|s| - 1]))
    ensures Trim(s) == s
  {
    assert LeadingWhitespace(s) == 0;
    assert TrailingWhitespace(s) == 0;
  }

  /** An unindented line is its own `trimStart`. */
  lemma TrimStartOfUnindented(line: string)
    requires StartsUnindented(line)
    ensures TrimStart(line) == line
  {
    assert LeadingWhitespace(line) == 0;
  }

  // ------------------------------------------------- the transformation

  /** `processedCode`: the header is added unless the sample mentions the product. */
  function WithHeader(code: string): (r: string)
    ensures r == Header + code <==> !Contains(code, Marker)
    ensures Contains(code, Marker) ==> r == code
    ensures Contains(r, Marker)
  {
    if Contains(code, Marker) then code
    else
      var rest := " Fraud Detection API Example\n" + code;
      assert Header + code == "// " + Marker + rest;
      assert ("// " + Marker + rest)[3..3 + |Marker|] == Marker;
      assert OccursAt(Header + code, Marker, 3);
      Header + code
  }

  function TrimLines(lines: seq<string>): (r: seq<string>)
    ensures |r| == |lines|
  {
    seq(|lines|, j requires 0 <= j < |lines| => TrimStart(lines[j]))
  }

  /** The text before the final trim: every line with its indentation removed. */
  function Dedented(code: string): (text: string)
  {
    Join(TrimLines(Split(WithHeader(code))))
  }

  /** `trimmedCode` */
  function Normalize(code: string): (out: string)
  {
    Trim(Dedented(code))
  }

  // --------------------------------------- line starts, character by character

  /** Every character that follows a line feed is a line feed or not whitespace. */
  predicate LineStartsOk(s: string)
  {
    forall i :: 0 < i < |s| && s[i - 1] == '\n' ==> s[i] == '\n' || !IsWhitespace(s[i])
  }

  /** The first line of `s` does not start with whitespace. */
  predicate FirstOk(s: string)
  {
    s == [] || s[0] == '\n' || !IsWhitespace(s[0])
  }

  /** The joined text has no indented line exactly when none of the lines is indented. */
  lemma {:induction false} JoinUnindented(lines: seq<string>)
    requires |lines| >= 1 && NoLineFeeds(lines)
    ensures FirstOk(Join(lines)) && LineStartsOk(Join(lines)) <==>
      forall j :: 0 <= j < |lines| ==> StartsUnindented(lines[j])
  {
    if |lines| > 1 {
      var l0, rest := lines[0], lines[1..];
      var tail := Join(rest);
      var s := Join(lines);
      JoinUnindented(rest);
      assert s == l0 + "\n" + tail;
      assert forall i :: 0 <= i < |l0| ==> s[i] == l0[i];
      assert s[|l0|] == '\n';
      assert forall i :: |l0| < i < |s| ==> s[i] == tail[i - |l0| - 1];
      assert FirstOk(s) <==> StartsUnindented(l0) by {
        if l0 != [] { assert s[0] == l0[0] && l0[0] != '\n'; }
      }
      if FirstOk(s) && LineStartsOk(s) {
        assert FirstOk(tail) by {
          if tail != [] { assert s[|l0| + 1] == tail[0]; }
        }
        assert LineStartsOk(tail) by {
          forall i | 0 < i < |tail| && tail[i - 1] == '\n'
            ensures tail[i] == '\n' || !IsWhitespace(tail[i])
          {
            assert s[|l0| + 1 + i] == tail[i] && s[|l0| + i] == tail[i - 1];
          }
        }
        forall j | 0 <= j < |lines| ensures StartsUnindented(lines[j]) {
          if j > 0 { assert lines[j] == rest[j - 1]; }
        }
      }
      if forall j :: 0 <= j < |lines| ==> StartsUnindented(lines[j]) {
        assert forall j :: 0 <= j < |rest| ==> StartsUnindented(rest[j]) by {
          forall j | 0 <= j < |rest| ensures StartsUnindented(rest[j]) {
            assert rest[j] == lines[j + 1];
          }
        }
        forall i | 0 < i < |s| && s[i - 1] == '\n'
          ensures s[i] == '\n' || !IsWhitespace(s[i])
        {
          if i - 1 < |l0| {
            assert s[i - 1] == l0[i - 1];
          } else if i - 1 == |l0| {
            assert s[i] == tail[0];
          } else {
            assert s[i - 1] == tail[i - |l0| - 2];
          }
        }
      }
    }
  }

  /** Trimming keeps every line start unindented, and the first as well. */
  lemma TrimKeepsLineStarts(s: string)
    requires LineStartsOk(s)
    ensures FirstOk(Trim(s)) && LineStartsOk(Trim(s))
  {
    var r := Trim(s);
    var a := LeadingWhitespace(s);
    forall i | 0 < i < |r| && r[i - 1] == '\n'
      ensures r[i] == '\n' || !IsWhitespace(r[i])
    {
      assert r[i] == s[a + i] && r[i - 1] == s[a + i - 1];
    }
  }

  // ---------------------------------------------------- keeping the marker

  /** An occurrence of a text without line feeds lies wholly before or wholly after a line feed. */
  lemma NoLineFeedStraddled(s: string, t: string, i: int, p: int)
    requires OccursAt(s, t, i) && '\n' !in t
    requires 0 <= p < |s| && s[p] == '\n'
    ensures p < i || i + |t| <= p
  {
  }

  /** An occurrence of a text without line feeds in a join lies inside one line. */
  lemma {:induction false} OccurrenceInSomeLine(lines: seq<string>, t: string, i: int)
    requires |lines| >= 1 && NoLineFeeds(lines) && '\n' !in t
    requires 0 <= i <= |Join(lines)| - |t| && Join(lines)[i..i + |t|] == t
    ensures exists j :: 0 <= j < |lines| && Contains(lines[j], t)
  {
    if |lines| == 1 {
      assert OccursAt(lines[0], t, i);
    } else {
      var l0, tail := lines[0], Join(lines[1..]);
      var s := Join(lines);
      assert s == l0 + "\n" + tail;
      NoLineFeedStraddled(s, t, i, |l0|);
      if i + |t| <= |l0| {
        assert l0[i..i + |t|] == s[i..i + |t|];
        assert OccursAt(lines[0], t, i);
      } else {
        assert tail[i - |l0| - 1..i - |l0| - 1 + |t|] == s[i..i + |t|];
        OccurrenceInSomeLine(lines[1..], t, i - |l0| - 1);
        var j :| 0 <= j < |lines[1..]| && Contains(lines[1..][j], t);
        assert lines[j + 1] == lines[1..][j];
      }
    }
  }

  /** A line of a list occurs in the join of the list. */
  lemma {:induction false} LineInJoin(lines: seq<string>, j: int, t: string)
    requires 0 <= j < |lines| && Contains(lines[j], t)
    ensures Contains(Join(lines), t)
  {
    var s := Join(lines);
    if j == 0 {
      var l0 := lines[0];
      var i :| 0 <= i <= |l0| - |t| && OccursAt(l0, t, i);
      if |lines| > 1 {
        var tail := Join(lines[1..]);
        assert s == l0 + ("\n" + tail);
        assert s[i..i + |t|] == l0[i..i + |t|];
      }
      assert OccursAt(s, t, i);
    } else {
      var l0, tail := lines[0], Join(lines[1..]);
      assert s == l0 + "\n" + tail;
      assert lines[1..][j - 1] == lines[j];
      LineInJoin(lines[1..], j - 1, t);
      var k :| 0 <= k <= |tail| - |t| && OccursAt(tail, t, k);
      var m := |l0| + 1 + k;
      assert s[m..m + |t|] == tail[k..k + |t|];
      assert OccursAt(s, t, m);
    }
  }

  /** An occurrence of a text that begins and ends with non-whitespace lies inside the trimmed span. */
  lemma OccurrenceWithinTrim(s: string, t: string, i: int)
    requires |t| > 0 && !IsWhitespace(t[0]) && !IsWhitespace(t[|t| - 1])
    requires OccursAt(s, t, i)
    ensures LeadingWhitespace(s) <= i && i + |t| <= LeadingWhitespace(s) + |Trim(s)|
  {
    var e := i + |t| - 1;
    assert s[i] == t[0] && s[e] == t[|t| - 1] by {
      assert s[i..i + |t|][0] == s[i];
      assert s[i..i + |t|][|t| - 1] == s[e];
    }
  }

  /** An occurrence inside the span `s[a..a + n]` is an occurrence in that span. */
  lemma OccursInSpan(s: string, t: string, i: int, a: int, n: int)
    requires OccursAt(s, t, i) && 0 <= a <= i && i + |t| <= a + n <= |s|
    ensures OccursAt(s[a..a + n], t, i - a)
  {
    var u := s[a..a + n];
    var v, w := u[i - a..i - a + |t|], s[i..i + |t|];
    forall k | 0 <= k < |t| ensures v[k] == w[k] {
      assert v[k] == u[i - a + k] == s[i + k];
    }
    assert v == w;
  }

  /** Trimming keeps an occurrence of a text that begins and ends with non-whitespace. */
  lemma TrimKeepsOccurrence(s: string, t: string)
    requires |t| > 0 && !IsWhitespace(t[0]) && !IsWhitespace(t[|t| - 1])
    requires Contains(s, t)
    ensures Contains(TrimStart(s), t) && Contains(Trim(s), t)
  {
    var i :| 0 <= i <= |s| - |t| && OccursAt(s, t, i);
    OccurrenceWithinTrim(s, t, i);
    var a, n := LeadingWhitespace(s), |Trim(s)|;
    OccursInSpan(s, t, i, a, |s| - a);
    assert s[a..a + (|s| - a)] == TrimStart(s);
    OccursInSpan(s, t, i, a, n);
    assert s[a..a + n] == Trim(s);
  }

  // -------------------------------------------------------- the promises

  /** The output neither begins nor ends with whitespace. */
  lemma OutputTrimmed(code: string)
    ensures var out := Normalize(code);
      out == [] || (!IsWhitespace(out[0]) && !IsWhitespace(out[|out| - 1]))
  {
    var r := Trim(Dedented(code));
    assert r == [] || (!IsWhitespace(r[0]) && !IsWhitespace(r[|r| - 1]));
  }

  /** The line structure survives dedenting: the lines of the dedented text are the dedented lines, in order. */
  lemma LinesKept(code: string)
    ensures Split(Dedented(code)) == TrimLines(Split(WithHeader(code)))
    ensures forall j :: 0 <= j < |Split(Dedented(code))| ==>
      Split(Dedented(code))[j] == TrimStart(Split(WithHeader(code))[j])
  {
    var lines := Split(WithHeader(code));
    var trimmed := TrimLines(lines);
    assert NoLineFeeds(trimmed) by {
      forall j | 0 <= j < |trimmed| ensures '\n' !in trimmed[j] {
        var k := LeadingWhitespace(lines[j]);
        assert trimmed[j] == lines[j][k..];
      }
    }
    SplitJoin(trimmed);
  }

  /** The dedented text has no indented line. */
  lemma DedentedUnindented(code: string)
    ensures FirstOk(Dedented(code)) && LineStartsOk(Dedented(code))
  {
    var trimmed := TrimLines(Split(WithHeader(code)));
    LinesKept(code);
    assert NoLineFeeds(trimmed);
    forall j | 0 <= j < |trimmed| ensures StartsUnindented(trimmed[j]) {
      var l := Split(WithHeader(code))[j];
      var k := LeadingWhitespace(l);
      assert trimmed[j] == l[k..];
    }
    JoinUnindented(trimmed);
  }

  /** No line of the output starts with whitespace. */
  lemma NoOutputLineIndented(code: string)
    ensures forall j :: 0 <= j < |Split(Normalize(code))| ==> StartsUnindented(Split(Normalize(code))[j])
  {
    var out := Normalize(code);
    DedentedUnindented(code);
    TrimKeepsLineStarts(Dedented(code));
    JoinSplit(out);
    JoinUnindented(Split(out));
  }

  /** The output always mentions the product. */
  lemma OutputMentionsMarker(code: string)
    ensures Contains(Normalize(code), Marker)
  {
    var processed := WithHeader(code);
    var lines := Split(processed);
    var i :| 0 <= i <= |processed| - |Marker| && OccursAt(processed, Marker, i);
    JoinSplit(processed);
    OccurrenceInSomeLine(lines, Marker, i);
    var j :| 0 <= j < |lines| && Contains(lines[j], Marker);
    assert Marker[0] == 'F' && Marker[|Marker| - 1] == 'I';
    TrimKeepsOccurrence(lines[j], Marker);
    var trimmed := TrimLines(lines);
    assert trimmed[j] == TrimStart(lines[j]);
    LineInJoin(trimmed, j, Marker);
    TrimKeepsOccurrence(Dedented(code), Marker);
  }

  /** A text that mentions the product and has no indented line is its own dedented form. */
  lemma DedentedOfUnindented(s: string)
    requires Contains(s, Marker)
    requires forall j :: 0 <= j < |Split(s)| ==> StartsUnindented(Split(s)[j])
    ensures Dedented(s) == s
  {
    var lines := Split(s);
    assert WithHeader(s) == s;
    forall j | 0 <= j < |lines| ensures TrimStart(lines[j]) == lines[j] {
      TrimStartOfUnindented(lines[j]);
    }
    assert TrimLines(lines) == lines;
    JoinSplit(s);
  }

  /** Normalising a normalised sample changes nothing. */
  lemma NormalizeIdempotent(code: string)
    ensures Normalize(Normalize(code)) == Normalize(code)
  {
    var out := Normalize(code);
    OutputMentionsMarker(code);
    NoOutputLineIndented(code);
    DedentedOfUnindented(out);
    OutputTrimmed(code);
    TrimOfTrimmed(out);
  }
}
