/**
 * `fix_indentation` (fix.py): rewrite a source text line by line, turning
 * each line's leading whitespace into as many spaces and cutting any line
 * that starts with `if not tokens:` back to exactly that text.
 */
module Fix {
  import opened PyStr

  /** `' ' * n`. */
  function Spaces(n: nat): (s: string)
    ensures |s| == n && forall i :: 0 <= i < n ==> s[i] == ' '
  {
    seq(n, _ => ' ')
  }

  /** The statement whose line is cut back. */
  const Marker: string := "if not tokens:"

  /** `len(line) - len(line.lstrip())`. */
  function Indent(line: string): nat {
    LStripShape(line);
    |line| - |LStrip(line)|
  }

  /** The line the loop body appends for `line`. */
  function FixLine(line: string): string {
    var stripped := LStrip(line);
    if StartsWith(stripped, Marker) then Spaces(Indent(line)) + Marker
    else Spaces(Indent(line)) + stripped
  }

  /** The rewritten lines, one per input line. */
  function FixedLines(lines: seq<string>): (fixed: seq<string>)
    ensures |fixed| == |lines|
  {
    seq(|lines|, i requires 0 <= i < |lines| => FixLine(lines[i]))
  }

  /** The text `fix_indentation(content)` returns. */
  function FixedText(content: string): string {
    Join(FixedLines(SplitLines(content)), "\n")
  }

  /** The loop's lines after one more input line. */
  lemma FixedLinesSnoc(lines: seq<string>, i: nat)
    requires i < |lines|
    ensures FixedLines(lines[..i + 1]) == FixedLines(lines[..i]) + [FixLine(lines[i])]
  {
  }

  /**
   * `fix_indentation`. `indentLevel` is kept as in the loop it models; the
   * postcondition shows the result does not depend on it.
   */
  method FixIndentation(content: string) returns (fixed: string)
    ensures fixed == FixedText(content)
  {
    var lines := SplitLines(content);
    var fixedLines: seq<string> := [];
    var indentLevel: int := -1;  // Python's `None`
    var i := 0;
    while i < |lines|
      invariant 0 <= i <= |lines|
      invariant fixedLines == FixedLines(lines[..i])
    {
      var line := lines[i];
      FixedLinesSnoc(lines, i);
      var strippedLine := LStrip(line);
      var leadingSpaces := Indent(line);
      if StartsWith(strippedLine, Marker) {
        fixedLines := fixedLines + [Spaces(leadingSpaces) + Marker];
        indentLevel := leadingSpaces + 4;
      } else {
        fixedLines := fixedLines + [Spaces(leadingSpaces) + strippedLine];
      }
      i := i + 1;
    }
    assert lines[..i] == lines;
    fixed := Join(fixedLines, "\n");
  }

  /**
   * A rewritten line is indented by exactly as many characters as the
   * original, all of them spaces, whatever whitespace the original used;
   * after the indent comes the original's stripped text, or just the marker.
   */
  lemma FixLineIndent(line: string)
    ensures Indent(FixLine(line)) == Indent(line)
    ensures forall k :: 0 <= k < Indent(line) ==> FixLine(line)[k] == ' '
    ensures LStrip(FixLine(line)) == if StartsWith(LStrip(line), Marker) then Marker else LStrip(line)
  {
    LStripShape(line);
    var t := if StartsWith(LStrip(line), Marker) then Marker else LStrip(line);
    assert Marker[0] == 'i';
    LStripPrefix(Spaces(Indent(line)), t);
    assert FixLine(line) == Spaces(Indent(line)) + t;
  }

  /** Rewriting is idempotent. */
  lemma FixLineIdempotent(line: string)
    ensures FixLine(FixLine(line)) == FixLine(line)
  {
    FixLineIndent(line);
  }

  /** A line of the input never gains a newline by being rewritten. */
  lemma FixLineNoNewline(line: string)
    requires forall k :: 0 <= k < |line| ==> !IsLineBreak(line[k])
    ensures '\n' !in FixLine(line)
  {
    LStripShape(line);
    var stripped := LStrip(line);
    assert forall k :: 0 <= k < |stripped| ==> stripped[k] == line[|line| - |stripped| + k];
    assert '\n' !in Marker;
  }

  /**
   * The output holds exactly one line per line of `content.splitlines()`:
   * splitting it at `\n` gives the rewritten lines back, with no trailing
   * empty line. An input with no lines gives the empty text.
   */
  lemma FixedTextLines(content: string)
    ensures SplitLines(content) == [] ==> FixedText(content) == ""
    ensures SplitLines(content) != [] ==> Split(FixedText(content), "\n") == FixedLines(SplitLines(content))
  {
    var lines := SplitLines(content);
    var fixed := FixedLines(lines);
    forall i | 0 <= i < |fixed| ensures '\n' !in fixed[i] {
      FixLineNoNewline(lines[i]);
    }
    if lines != [] {
      SplitJoinChar(fixed, '\n');
    }
  }

  /** Text after the marker is dropped: the rewritten line ends with the marker itself. */
  lemma MarkerLineCut(indent: string, rest: string)
    requires forall k :: 0 <= k < |indent| ==> IsSpace(indent[k])
    ensures FixLine(indent + Marker + rest) == Spaces(|indent|) + Marker
  {
    var line := indent + Marker + rest;
    LStripPrefix(indent, Marker + rest);
    assert line == indent + (Marker + rest);
    assert (Marker + rest)[..|Marker|] == Marker;
  }

  /** `lstrip` removes a whitespace prefix in front of text that does not start with whitespace. */
  lemma {:induction false} LStripPrefix(ws: string, t: string)
    requires forall k :: 0 <= k < |ws| ==> IsSpace(ws[k])
    requires t == [] || !IsSpace(t[0])
    ensures LStrip(ws + t) == t
    decreases |ws|
  {
    if ws == [] {
      assert ws + t == t;
    } else {
      assert (ws + t)[1..] == ws[1..] + t;
      LStripPrefix(ws[1..], t);
    }
  }
}
