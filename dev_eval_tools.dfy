/** tools/devEvalTools.py, `extract_clean_code`: keeps only the body of the first
    function definition in a model's answer, without its docstrings, re-indented
    to multiples of four spaces. The input is the answer after its markdown
    fences were removed. */
module DevEvalTools {
  import opened Text

  /** What the tool returns when no body of at least five characters is left. */
  const Fallback: string := "    pass  # No implementation extracted"
  const TripleDouble: string := "\"\"\""
  const TripleSingle: string := "'''"
  const DefKeyword: string := "def "
  const CommentMark: string := "#"

  /** A source line with what the loop computes from it first: `line.strip()`
      and `len(line) - len(line.lstrip())`. */
  datatype Line = Line(raw: string, stripped: string, indent: nat)

  function Analyse(raw: string): (l: Line)
    ensures l.raw == raw && l.indent <= |raw|
    ensures l.stripped == [] <==> AllSpace(raw)
    ensures l.stripped == [] || !IsSpace(l.stripped[0])
  {
    Line(raw, Strip(raw), Indentation(raw))
  }

  function AnalyseAll(raws: seq<string>): (r: seq<Line>)
    ensures |r| == |raws|
  {
    seq(|raws|, i requires 0 <= i < |raws| => Analyse(raws[i]))
  }

  /** A stripped line that starts a function definition: `def ` with a `(` and a `:`. */
  predicate OpensFunction(stripped: string) {
    StartsWith(stripped, DefKeyword) && '(' in stripped && ':' in stripped
  }

  /** A stripped line that opens a docstring. */
  predicate OpensDocstring(stripped: string) {
    StartsWith(stripped, TripleDouble) || StartsWith(stripped, TripleSingle)
  }

  /** `docstring_char`: the quote a docstring line opens with. */
  function Quote(stripped: string): (q: string)
    ensures |q| == 3
  {
    if StartsWith(stripped, TripleDouble) then TripleDouble else TripleSingle
  }

  /** `max(4, 4 + (relative // 4) * 4)`. With a positive divisor Dafny's `/` is
      Python's floor division, negative operands included. */
  function NewIndent(relative: int): (n: nat)
    ensures n >= 4 && n % 4 == 0
    ensures relative >= 0 ==> relative < n <= relative + 4
    ensures relative < 0 ==> n == 4
  {
    var k := 4 + (relative / 4) * 4;
    if k < 4 then 4 else k
  }

  /** The line the body keeps for a source line, `function_indent` being the
      indentation of the `def` line: a blank line becomes empty. */
  function Emit(l: Line, functionIndent: nat): string {
    if l.stripped == [] then [] else Spaces(NewIndent(l.indent - functionIndent)) + l.stripped
  }

  /** The loop's variables: `inside_function`, `function_indent`, `in_docstring`,
      `docstring_char` (empty for `None`) and `cleaned_lines`, plus whether the
      loop has left through a `break`. */
  datatype Scan = Scan(inside: bool, functionIndent: nat, inDocstring: bool, docstringChar: string,
                       cleaned: seq<string>, stopped: bool)

  const Start: Scan := Scan(false, 0, false, [], [], false)

  /** Whether a line, after the `def` line and outside a docstring, ends the body:
      code at or left of the `def` line that is not a comment. */
  predicate EndsBody(l: Line, functionIndent: nat) {
    l.stripped != [] && l.indent <= functionIndent && !StartsWith(l.stripped, CommentMark)
  }

  /** One iteration of the loop over the lines. */
  function Step(s: Scan, l: Line): Scan {
    if s.stopped then s
    else if !s.inside && OpensFunction(l.stripped) then s.(inside := true, functionIndent := l.indent)
    else if !s.inside then s
    else if s.inDocstring then
      if s.docstringChar != [] && Contains(l.raw, s.docstringChar) then s.(inDocstring := false, docstringChar := [])
      else s
    else if OpensDocstring(l.stripped) then
      var quote := Quote(l.stripped);
      if Count(l.stripped, quote) >= 2 then s.(docstringChar := quote)
      else s.(inDocstring := true, docstringChar := quote)
    else if EndsBody(l, s.functionIndent) then s.(stopped := true)
    else s.(cleaned := s.cleaned + [Emit(l, s.functionIndent)])
  }

  /** What one iteration does. Before the `def` line nothing is kept and the first
      such line fixes `function_indent`; after it the indent stays; a line is kept,
      as `Emit` renders it, exactly when it is outside a docstring, opens none, and
      does not end the body, and the loop stops exactly at a line that ends it. */
  lemma StepSpec(s: Scan, l: Line)
    ensures var r := Step(s, l);
            && (s.stopped ==> r == s)
            && (s.inside ==> r.inside && r.functionIndent == s.functionIndent)
            && (!s.inside && !s.stopped ==>
                  && r.cleaned == s.cleaned && !r.stopped
                  && (r.inside <==> OpensFunction(l.stripped))
                  && (r.inside ==> r.functionIndent == l.indent && r.inDocstring == s.inDocstring))
            && (r.cleaned == s.cleaned || r.cleaned == s.cleaned + [Emit(l, s.functionIndent)])
            && (r.cleaned != s.cleaned <==>
                  !s.stopped && s.inside && !s.inDocstring && !OpensDocstring(l.stripped) && !EndsBody(l, s.functionIndent))
            && (r.stopped <==>
                  s.stopped || (s.inside && !s.inDocstring && !OpensDocstring(l.stripped) && EndsBody(l, s.functionIndent)))
  {
  }

  /** The loop's state after the given lines. */
  function ScanLines(lines: seq<Line>): Scan
    decreases |lines|
  {
    if lines == [] then Start else Step(ScanLines(lines[..|lines| - 1]), lines[|lines| - 1])
  }

  // A line is blank, `not line.strip()`, when it is all whitespace.

  /** How many lines remain once the `while` loop has popped the blank lines off
      the end: the last remaining line is not blank, all removed ones are. */
  function KeptLength(lines: seq<string>): (n: nat)
    ensures n <= |lines|
    ensures n == 0 || !AllSpace(lines[n - 1])
    ensures forall i :: n <= i < |lines| ==> AllSpace(lines[i])
  {
    if lines != [] && AllSpace(lines[|lines| - 1]) then KeptLength(lines[..|lines| - 1]) else |lines|
  }

  /** The lines left by the loop that pops blank lines off the end. */
  function DropTrailingBlanks(lines: seq<string>): seq<string> {
    lines[..KeptLength(lines)]
  }

  /** The final pass over one line: a non-blank line indented by fewer than four
      characters is given four spaces; a blank line becomes empty. */
  function EnsureIndent(line: string): string {
    if AllSpace(line) then [] else if Indentation(line) < 4 then "    " + Strip(line) else line
  }

  /** The final pass over all lines. */
  function Reindented(lines: seq<string>): (r: seq<string>)
    ensures |r| == |lines|
  {
    if lines == [] then [] else Reindented(lines[..|lines| - 1]) + [EnsureIndent(lines[|lines| - 1])]
  }

  /** The body lines kept from the input lines, trailing blank lines removed. */
  function KeptLines(raws: seq<string>): seq<string> {
    DropTrailingBlanks(ScanLines(AnalyseAll(raws)).cleaned)
  }

  /** The body lines kept for `code`. */
  function Kept(code: string): seq<string> {
    KeptLines(Split(code, '\n'))
  }

  /** What `extract_clean_code` returns for the (fence-free) `code`. */
  function CleanCode(code: string): (r: string)
    ensures r == Fallback || Split(r, '\n') == Kept(code)
  {
    var result := Join(Kept(code), "\n");
    if Strip(result) == [] || |Strip(result)| < 5 then Fallback
    else
      KeptLinesFinal(code);
      assert Kept(code) != [];
      SplitJoin(Kept(code), '\n');
      ReindentedIdentity(Kept(code));
      Join(Reindented(Split(result, '\n')), "\n")
  }

  // ---------------------------------------------------------------- the tool

  /** `extract_clean_code(action_context, raw_output)` on the answer without its
      markdown fences. */
  method ExtractCleanCode(code: string) returns (r: string)
    ensures r == CleanCode(code)
  {
    var cleaned := ScanBody(Split(code, '\n'));
    cleaned := DropBlanks(cleaned);
    var result := Join(cleaned, "\n");
    if Strip(result) == [] || |Strip(result)| < 5 {
      return Fallback;
    }
    var finalLines := ReindentLines(Split(result, '\n'));
    r := Join(finalLines, "\n");
  }

  /** The `for line in lines` loop: the kept lines of the first function's body. */
  method ScanBody(lines: seq<string>) returns (cleaned: seq<string>)
    ensures cleaned == ScanLines(AnalyseAll(lines)).cleaned
  {
    ghost var analysed := AnalyseAll(lines);
    cleaned := [];
    var inside: bool, functionIndent: nat, inDocstring: bool, docstringChar: string := false, 0, false, [];
    var i := 0;
    while i < |lines|
      invariant i <= |lines|
      invariant ScanLines(analysed[..i]) == Scan(inside, functionIndent, inDocstring, docstringChar, cleaned, false)
    {
      ScanLinesStep(analysed, i);
      assert analysed[i] == Analyse(lines[i]);
      ghost var next := ScanLines(analysed[..i + 1]);
      var stop: bool;
      inside, functionIndent, inDocstring, docstringChar, cleaned, stop :=
        ScanLine(inside, functionIndent, inDocstring, docstringChar, cleaned, lines[i]);
      if stop {
        assert next.stopped && next.cleaned == cleaned;
        StoppedStays(analysed, i);
        return;
      }
      assert next == Scan(inside, functionIndent, inDocstring, docstringChar, cleaned, false);
      i := i + 1;
    }
    assert analysed[..i] == analysed;
  }

  /** The body of the loop for one line; `stop` is its `break`. */
  method ScanLine(inside0: bool, functionIndent0: nat, inDocstring0: bool, docstringChar0: string,
                  cleaned0: seq<string>, line: string)
    returns (inside: bool, functionIndent: nat, inDocstring: bool, docstringChar: string,
             cleaned: seq<string>, stop: bool)
    ensures var next := Step(Scan(inside0, functionIndent0, inDocstring0, docstringChar0, cleaned0, false), Analyse(line));
            && stop == next.stopped
            && (stop ==> next.cleaned == cleaned0 == cleaned)
            && (!stop ==> next == Scan(inside, functionIndent, inDocstring, docstringChar, cleaned, false))
  {
    ghost var s0 := Scan(inside0, functionIndent0, inDocstring0, docstringChar0, cleaned0, false);
    var stripped := Strip(line);
    var indent := Indentation(line);
    var l := Line(line, stripped, indent);
    assert l == Analyse(line);
    if inside0 {
      inDocstring, docstringChar, cleaned, stop :=
        ScanInside(functionIndent0, inDocstring0, docstringChar0, cleaned0, l);
      inside, functionIndent := true, functionIndent0;
    } else if OpensFunction(stripped) {
      inside, functionIndent, inDocstring, docstringChar, cleaned, stop :=
        true, indent, inDocstring0, docstringChar0, cleaned0, false;
      assert Step(s0, l) == s0.(inside := true, functionIndent := indent);
    } else {
      inside, functionIndent, inDocstring, docstringChar, cleaned, stop :=
        false, functionIndent0, inDocstring0, docstringChar0, cleaned0, false;
      assert Step(s0, l) == s0;
    }
  }

  /** The loop body once the `def` line has been seen. */
  method ScanInside(functionIndent: nat, inDocstring0: bool, docstringChar0: string, cleaned0: seq<string>,
                    l: Line)
    returns (inDocstring: bool, docstringChar: string, cleaned: seq<string>, stop: bool)
    ensures var next := Step(Scan(true, functionIndent, inDocstring0, docstringChar0, cleaned0, false), l);
            && stop == next.stopped
            && (stop ==> next.cleaned == cleaned0 == cleaned)
            && (!stop ==> next == Scan(true, functionIndent, inDocstring, docstringChar, cleaned, false))
  {
    inDocstring, docstringChar, cleaned, stop := inDocstring0, docstringChar0, cleaned0, false;
    ghost var s0 := Scan(true, functionIndent, inDocstring0, docstringChar0, cleaned0, false);
    if inDocstring {
      if docstringChar != [] && Contains(l.raw, docstringChar) {
        inDocstring, docstringChar := false, [];
        assert Step(s0, l) == s0.(inDocstring := false, docstringChar := []);
      } else {
        assert Step(s0, l) == s0;
      }
    } else if StartsWith(l.stripped, TripleDouble) || StartsWith(l.stripped, TripleSingle) {
      docstringChar := if StartsWith(l.stripped, TripleDouble) then TripleDouble else TripleSingle;
      if Count(l.stripped, docstringChar) < 2 {
        inDocstring := true;
        assert Step(s0, l) == s0.(inDocstring := true, docstringChar := docstringChar);
      } else {
        assert Step(s0, l) == s0.(docstringChar := docstringChar);
      }
    } else if l.stripped != [] && l.indent <= functionIndent && !StartsWith(l.stripped, CommentMark) {
      stop := true;
      assert Step(s0, l) == s0.(stopped := true);
    } else if l.stripped != [] {
      var relative := l.indent - functionIndent;
      cleaned := cleaned + [Spaces(NewIndent(relative)) + l.stripped];
      assert Step(s0, l) == s0.(cleaned := cleaned);
    } else {
      cleaned := cleaned + [[]];
      assert Step(s0, l) == s0.(cleaned := cleaned);
    }
  }

  lemma ScanLinesStep(lines: seq<Line>, i: nat)
    requires i < |lines|
    ensures ScanLines(lines[..i + 1]) == Step(ScanLines(lines[..i]), lines[i])
  {
    assert lines[..i + 1][..i] == lines[..i];
  }

  /** Once the loop has left through `break`, no later line changes anything. */
  lemma {:induction false} StoppedStays(lines: seq<Line>, i: nat)
    requires i < |lines| && ScanLines(lines[..i + 1]).stopped
    ensures ScanLines(lines) == ScanLines(lines[..i + 1])
    decreases |lines| - i
  {
    if i + 1 < |lines| {
      ScanLinesStep(lines, i + 1);
      StoppedStays(lines, i + 1);
    } else {
      assert lines[..i + 1] == lines;
    }
  }

  /** The `while` loop that pops the blank lines off the end. */
  method DropBlanks(lines: seq<string>) returns (kept: seq<string>)
    ensures kept == DropTrailingBlanks(lines)
  {
    kept := lines;
    while kept != [] && Strip(kept[|kept| - 1]) == []
      invariant |kept| <= |lines| && kept == lines[..|kept|]
      invariant DropTrailingBlanks(kept) == DropTrailingBlanks(lines)
    {
      assert kept[..|kept| - 1] == lines[..|kept| - 1];
      kept := kept[..|kept| - 1];
    }
    assert KeptLength(kept) == |kept| && kept[..|kept|] == kept;
  }

  /** The final `for line in result_lines` loop. */
  method ReindentLines(lines: seq<string>) returns (finalLines: seq<string>)
    ensures finalLines == Reindented(lines)
  {
    finalLines := [];
    for j := 0 to |lines|
      invariant finalLines == Reindented(lines[..j])
    {
      ReindentedStep(lines, j);
      var line := lines[j];
      var fixed: string;
      if Strip(line) != [] {
        if Indentation(line) < 4 {
          fixed := "    " + Strip(line);
        } else {
          fixed := line;
        }
      } else {
        fixed := [];
      }
      assert fixed == EnsureIndent(line);
      finalLines := finalLines + [fixed];
    }
    assert lines[..|lines|] == lines;
  }

  lemma ReindentedStep(lines: seq<string>, j: nat)
    requires j < |lines|
    ensures Reindented(lines[..j + 1]) == Reindented(lines[..j]) + [EnsureIndent(lines[j])]
  {
    assert lines[..j + 1][..j] == lines[..j];
  }

  // ------------------------------------------------------- what the loop keeps

  /** The index of the first line that opens a function, or the number of lines. */
  function FirstDef(lines: seq<Line>): (d: nat)
    ensures d <= |lines|
    ensures d < |lines| ==> OpensFunction(lines[d].stripped)
    ensures forall i :: 0 <= i < d ==> !OpensFunction(lines[i].stripped)
  {
    if lines == [] then 0
    else
      var d := FirstDef(lines[..|lines| - 1]);
      if d < |lines| - 1 || OpensFunction(lines[|lines| - 1].stripped) then d else |lines|
  }

  /** For each kept line, the index of the source line it was made from. */
  function Origins(lines: seq<Line>): seq<nat>
    decreases |lines|
  {
    if lines == [] then []
    else
      var before := lines[..|lines| - 1];
      var o := Origins(before);
      if ScanLines(lines).cleaned != ScanLines(before).cleaned then o + [|lines| - 1] else o
  }

  /** Nothing happens before the first `def` line, which fixes `function_indent`;
      every kept line is `Emit` of a distinct later source line, in source order. */
  lemma {:induction false} ScanProvenance(lines: seq<Line>)
    ensures var s := ScanLines(lines);
            var d := FirstDef(lines);
            var o := Origins(lines);
            && (s.inside <==> d < |lines|)
            && (!s.inside ==> s == Start)
            && (s.inside ==> s.functionIndent == lines[d].indent)
            && |o| == |s.cleaned|
            && (forall k :: 0 <= k < |o| ==> d < o[k] < |lines| && s.cleaned[k] == Emit(lines[o[k]], s.functionIndent))
            && (forall k, m :: 0 <= k < m < |o| ==> o[k] < o[m])
    decreases |lines|
  {
    if lines != [] {
      var n := |lines| - 1;
      var before := lines[..n];
      ScanProvenance(before);
      var p := ScanLines(before);
      var s := ScanLines(lines);
      assert s == Step(p, lines[n]);
      StepSpec(p, lines[n]);
      var d0 := FirstDef(before);
      var d := FirstDef(lines);
      var o0 := Origins(before);
      var o := Origins(lines);
      assert forall i :: 0 <= i < n ==> before[i] == lines[i];
      if p.inside {
        assert d == d0 < n;
        assert s.inside && s.functionIndent == p.functionIndent;
      } else {
        assert p == Start;
        if OpensFunction(lines[n].stripped) {
          assert d == n;
        } else {
          assert d == |lines| && s == Start;
        }
      }
      if s.cleaned != p.cleaned {
        assert s.cleaned == p.cleaned + [Emit(lines[n], p.functionIndent)];
        assert o == o0 + [n];
        assert p.inside;
      } else {
        assert o == o0;
      }
    }
  }

  /** A line that ends the body (the `break`) ends the scan: neither it nor any
      later line is kept. */
  lemma StopsAt(lines: seq<Line>, i: nat)
    requires i < |lines| && Breaks(ScanLines(lines[..i]), lines[i])
    ensures ScanLines(lines).cleaned == ScanLines(lines[..i]).cleaned
  {
    BreakStep(lines, i);
    StoppedStays(lines, i);
  }

  lemma BreakStep(lines: seq<Line>, i: nat)
    requires i < |lines| && Breaks(ScanLines(lines[..i]), lines[i])
    ensures ScanLines(lines[..i + 1]).stopped && ScanLines(lines[..i + 1]).cleaned == ScanLines(lines[..i]).cleaned
  {
    StepStops(ScanLines(lines[..i]), lines[i]);
    ScanLinesStep(lines, i);
  }

  /** The loop reaches its `break` at line `l` in state `s`. */
  predicate Breaks(s: Scan, l: Line) {
    s.inside && !s.inDocstring && !s.stopped && !OpensDocstring(l.stripped) && EndsBody(l, s.functionIndent)
  }

  lemma StepStops(s: Scan, l: Line)
    requires Breaks(s, l)
    ensures Step(s, l) == s.(stopped := true)
  {
  }

  lemma StepOpensDocstring(s: Scan, l: Line)
    requires s.inside && !s.inDocstring && !s.stopped
    requires OpensDocstring(l.stripped) && Count(l.stripped, Quote(l.stripped)) < 2
    ensures Step(s, l) == s.(inDocstring := true, docstringChar := Quote(l.stripped))
  {
  }

  lemma StepInDocstring(s: Scan, l: Line)
    requires s.inside && s.inDocstring && !s.stopped && s.docstringChar != []
    ensures Step(s, l).cleaned == s.cleaned
    ensures !Contains(l.raw, s.docstringChar) ==> Step(s, l) == s
  {
  }

  /** The state right after a line opening a docstring that does not close on it. */
  function Opened(s: Scan, l: Line): Scan {
    s.(inDocstring := true, docstringChar := Quote(l.stripped))
  }

  /** A docstring that opens on a line of its own without closing there: the state
      stays as that line left it while no line contains its quote. */
  lemma {:induction false} DocstringOpen(lines: seq<Line>, i: nat, j: nat)
    requires i < j <= |lines|
    requires var s := ScanLines(lines[..i]);
             && s.inside && !s.inDocstring && !s.stopped
             && OpensDocstring(lines[i].stripped) && Count(lines[i].stripped, Quote(lines[i].stripped)) < 2
             && forall k :: i < k < j ==> !Contains(lines[k].raw, Quote(lines[i].stripped))
    ensures ScanLines(lines[..j]) == Opened(ScanLines(lines[..i]), lines[i])
    decreases j
  {
    var open := Opened(ScanLines(lines[..i]), lines[i]);
    if j == i + 1 {
      ScanLinesStep(lines, i);
      StepOpensDocstring(ScanLines(lines[..i]), lines[i]);
    } else {
      DocstringOpen(lines, i, j - 1);
      assert open.docstringChar == Quote(lines[i].stripped);
      assert !Contains(lines[j - 1].raw, open.docstringChar);
      StepInDocstring(open, lines[j - 1]);
      ScanLinesStep(lines, j - 1);
    }
  }

  /** Such a docstring is dropped from its opening line up to and including the
      first line that contains its quote. */
  lemma DocstringSkipped(lines: seq<Line>, i: nat, j: nat)
    requires i < j <= |lines|
    requires var s := ScanLines(lines[..i]);
             && s.inside && !s.inDocstring && !s.stopped
             && OpensDocstring(lines[i].stripped) && Count(lines[i].stripped, Quote(lines[i].stripped)) < 2
             && forall k :: i < k < j - 1 ==> !Contains(lines[k].raw, Quote(lines[i].stripped))
    ensures ScanLines(lines[..j]).cleaned == ScanLines(lines[..i]).cleaned
  {
    var open := Opened(ScanLines(lines[..i]), lines[i]);
    if j - 1 == i {
      DocstringOpen(lines, i, j);
      assert ScanLines(lines[..j]) == open;
    } else {
      DocstringOpen(lines, i, j - 1);
      assert ScanLines(lines[..j - 1]) == open;
      StepInDocstring(open, lines[j - 1]);
      ScanLinesStep(lines, j - 1);
      assert ScanLines(lines[..j]) == Step(open, lines[j - 1]);
    }
  }

  /** A function-less answer gives the placeholder body. */
  lemma NoFunctionFallback(code: string)
    requires var lines := AnalyseAll(Split(code, '\n')); FirstDef(lines) == |lines|
    ensures CleanCode(code) == Fallback
  {
    var lines := AnalyseAll(Split(code, '\n'));
    ScanProvenance(lines);
    assert Kept(code) == [];
  }

  // ------------------------------------------------------------ the final pass

  /** `strip` only removes characters. */
  lemma StripKeeps(s: string, c: char)
    requires c !in s
    ensures c !in Strip(s)
  {
    var l := LStrip(s);
    var k := |s| - |l|;
    assert l == s[k..];
    var r := RStrip(l);
    assert r == l[..|r|];
    assert Strip(s) == r;
    forall i | 0 <= i < |r|
      ensures r[i] != c
    {
      assert r[i] == l[i] == s[k + i];
    }
  }

  /** The indentation of `n` spaces put before text that starts with no space is `n`. */
  lemma IndentationOfSpaces(n: nat, t: string)
    requires t == [] || !IsSpace(t[0])
    ensures Indentation(Spaces(n) + t) == n
  {
    var e := Spaces(n) + t;
    var m := Indentation(e);
    if m < n {
      assert false;
    } else if m > n {
      SpaceAt(e[..m], n);
      assert false;
    }
  }

  lemma SpaceAt(s: string, i: nat)
    requires AllSpace(s) && i < |s|
    ensures IsSpace(s[i])
  {
  }

  /** A line made by `Emit` from a line of the input holds no newline, and a
      non-blank one is indented by a positive multiple of four spaces; so the final
      pass leaves it as it is. */
  lemma EmitIsFinal(raw: string, functionIndent: nat)
    requires '\n' !in raw
    ensures var e := Emit(Analyse(raw), functionIndent);
            && '\n' !in e
            && (!AllSpace(e) ==> Indentation(e) >= 4 && Indentation(e) % 4 == 0)
            && EnsureIndent(e) == e
  {
    var l := Analyse(raw);
    if l.stripped != [] {
      var n := NewIndent(l.indent - functionIndent);
      EmitNonBlank(l, functionIndent);
      StripKeeps(raw, '\n');
      IndentedShape(n, l.stripped);
    } else {
      assert Emit(l, functionIndent) == [];
    }
  }

  lemma EmitNonBlank(l: Line, functionIndent: nat)
    requires l.stripped != []
    ensures Emit(l, functionIndent) == Spaces(NewIndent(l.indent - functionIndent)) + l.stripped
  {
  }

  /** Text with no leading space and no newline, put after `n >= 4` spaces. */
  lemma IndentedShape(n: nat, t: string)
    requires n >= 4 && t != [] && !IsSpace(t[0]) && '\n' !in t
    ensures var e := Spaces(n) + t;
            && '\n' !in e && !AllSpace(e) && Indentation(e) == n && EnsureIndent(e) == e
  {
    var e := Spaces(n) + t;
    IndentationOfSpaces(n, t);
    assert e[n] == t[0];
  }

  /** Splitting joined lines that hold no separator gives the lines back. */
  lemma {:induction false} SplitJoin(parts: seq<string>, sep: char)
    requires |parts| >= 1 && forall i :: 0 <= i < |parts| ==> sep !in parts[i]
    ensures Split(Join(parts, [sep]), sep) == parts
    decreases |parts|
  {
    if |parts| > 1 {
      var rest := Join(parts[1..], [sep]);
      var s := Join(parts, [sep]);
      assert s == parts[0] + [sep] + rest;
      assert s[|parts[0]|] == sep;
      var k := FirstIndex(s, sep);
      assert s[..k] == parts[0] && s[k + 1..] == rest;
      SplitJoin(parts[1..], sep);
    }
  }

  /** The final pass changes no line it leaves as it is. */
  lemma {:induction false} ReindentedIdentity(lines: seq<string>)
    requires forall i {:trigger EnsureIndent(lines[i])} :: 0 <= i < |lines| ==> EnsureIndent(lines[i]) == lines[i]
    ensures Reindented(lines) == lines
    decreases |lines|
  {
    if lines != [] {
      var before := lines[..|lines| - 1];
      ReindentedIdentity(before);
      assert before + [lines[|lines| - 1]] == lines;
    }
  }

  /** Every kept line comes from a line of the input after the `def` line and is
      final: no newline, and the final pass leaves it unchanged. */
  lemma KeptLinesFinal(code: string)
    ensures var kept := Kept(code);
            forall k :: 0 <= k < |kept| ==> '\n' !in kept[k] && EnsureIndent(kept[k]) == kept[k]
  {
    var raws := Split(code, '\n');
    var lines := AnalyseAll(raws);
    var s := ScanLines(lines);
    ScanProvenance(lines);
    var o := Origins(lines);
    forall k | 0 <= k < |s.cleaned|
      ensures '\n' !in s.cleaned[k] && EnsureIndent(s.cleaned[k]) == s.cleaned[k]
    {
      EmitIsFinal(raws[o[k]], s.functionIndent);
    }
  }

  /** `extract_clean_code` returns the kept lines joined, or the placeholder when
      their text is shorter than five characters: the final re-indenting pass never
      changes a line. */
  lemma CleanCodeResult(code: string)
    ensures var result := Join(Kept(code), "\n");
            && CleanCode(code) == (if |Strip(result)| < 5 then Fallback else result)
            && (|Strip(result)| >= 5 ==> Split(CleanCode(code), '\n') == Kept(code))
  {
    var kept := Kept(code);
    var result := Join(kept, "\n");
    if |Strip(result)| >= 5 {
      KeptLinesFinal(code);
      assert kept != [];
      SplitJoin(kept, '\n');
      ReindentedIdentity(kept);
    }
  }
}
