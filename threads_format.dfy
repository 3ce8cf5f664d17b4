/**
 * The text formatting rule both Threads adapters apply before posting:
 * keep the non-blank lines, stripped, join them with a blank line between
 * each, and cap the result at 500 characters with a trailing "...".
 */
module ThreadsFormat {
  import opened Text

  /** The longest text the formatter returns. */
  const MaxFormatted := 500

  /** How much of an over-long text is kept before the ellipsis. */
  const KeptPrefix := 497

  const Ellipsis := "..."

  const LineBreak := "\n"

  const ParagraphBreak := "\n\n"

  /** What one input line contributes: itself stripped, or nothing when blank. */
  function KeepLine(line: string): (r: seq<string>)
    ensures |r| <= 1
  {
    var t := Strip(line);
    if t == [] then [] else [t]
  }

  /** The non-blank lines, stripped, in their original order. */
  function Kept(lines: seq<string>): (r: seq<string>)
    ensures |r| <= |lines|
  {
    if lines == [] then [] else KeepLine(lines[0]) + Kept(lines[1..])
  }

  /** The formatted text before the length cap. */
  function Joined(content: string): string
  {
    Join(Kept(SplitOn(content, LineBreak)), ParagraphBreak)
  }

  /** The length cap: over 500 characters, keep 497 and append "...". */
  function Cap(t: string): (r: string)
    ensures |r| <= MaxFormatted
    ensures |t| <= MaxFormatted ==> r == t
    ensures |t| > MaxFormatted ==> |r| == MaxFormatted && r[..KeptPrefix] == t[..KeptPrefix] && r[KeptPrefix..] == Ellipsis
  {
    if |t| > MaxFormatted then t[..KeptPrefix] + Ellipsis else t
  }

  /** What `_format_content` returns for `content`. */
  function Formatted(content: string): string
  {
    Cap(Joined(content))
  }

  /** `_format_content`: the line loop, the join and the cap. */
  method FormatContent(content: string) returns (formatted: string)
    ensures formatted == Formatted(content)
    ensures |formatted| <= MaxFormatted
  {
    var lines := SplitOn(content, LineBreak);
    var formattedLines: seq<string> := [];
    for i := 0 to |lines|
      invariant formattedLines == Kept(lines[..i])
    {
      var line := Strip(lines[i]);
      KeptStep(lines, i);
      if line != [] {
        formattedLines := formattedLines + [line];
      }
    }
    assert lines[..|lines|] == lines;
    formatted := Join(formattedLines, ParagraphBreak);
    if |formatted| > MaxFormatted {
      formatted := formatted[..KeptPrefix] + Ellipsis;
    }
  }

  /** Keeping lines one at a time from the front builds the same list. */
  lemma {:induction false} KeptAppend(lines: seq<string>, line: string)
    ensures Kept(lines + [line]) == Kept(lines) + KeepLine(line)
    decreases |lines|
  {
    if lines == [] {
      assert [line][1..] == [];
    } else {
      assert (lines + [line])[1..] == lines[1..] + [line];
      KeptAppend(lines[1..], line);
    }
  }

  /** One turn of the formatter's loop. */
  lemma KeptStep(lines: seq<string>, i: nat)
    requires i < |lines|
    ensures Kept(lines[..i + 1]) == Kept(lines[..i]) + if Strip(lines[i]) == [] then [] else [Strip(lines[i])]
  {
    KeptAppend(lines[..i], lines[i]);
    assert lines[..i + 1] == lines[..i] + [lines[i]];
  }

  /** Every kept line is stripped and non-blank. */
  lemma {:induction false} KeptStripped(lines: seq<string>)
    ensures forall k :: 0 <= k < |Kept(lines)| ==> IsStrippedNonBlank(Kept(lines)[k])
    decreases |lines|
  {
    if lines != [] {
      StripShape(lines[0]);
      KeptStripped(lines[1..]);
    }
  }

  /** No kept line holds a line break when no input line does. */
  lemma {:induction false} KeptLackBreak(lines: seq<string>)
    requires forall k :: 0 <= k < |lines| ==> Lacks(lines[k], '\n')
    ensures forall k :: 0 <= k < |Kept(lines)| ==> Lacks(Kept(lines)[k], '\n')
    decreases |lines|
  {
    if lines != [] {
      StripKeepsLack(lines[0], '\n');
      KeptLackBreak(lines[1..]);
    }
  }

  lemma LacksOneChar(s: string, c: char)
    requires !Contains(s, [c])
    ensures Lacks(s, c)
  {
    forall i | 0 <= i < |s|
      ensures s[i] != c
    {
      if s[i] == c {
        assert s[i..i + 1] == [c];
        assert OccursAt(s, [c], i);
      }
    }
  }

  /** The kept lines of any text are stripped, non-blank and free of line breaks. */
  lemma KeptOfContent(content: string)
    ensures forall k :: 0 <= k < |Kept(SplitOn(content, LineBreak))| ==>
      IsStrippedNonBlank(Kept(SplitOn(content, LineBreak))[k]) && Lacks(Kept(SplitOn(content, LineBreak))[k], '\n')
  {
    var lines := SplitOn(content, LineBreak);
    SplitPiecesLackSep(content, LineBreak);
    forall k | 0 <= k < |lines|
      ensures Lacks(lines[k], '\n')
    {
      LacksOneChar(lines[k], '\n');
    }
    KeptLackBreak(lines);
    KeptStripped(lines);
  }

  /** A text that starts with a line break splits into an empty line and the split of the rest. */
  lemma SplitLeadingBreak(rest: string)
    ensures SplitOn(LineBreak + rest, LineBreak) == [""] + SplitOn(rest, LineBreak)
  {
    var s := LineBreak + rest;
    assert s[..1] == LineBreak && s[1..] == rest;
  }

  /** A joined text splits on line breaks into its first line, an empty line and the split of the rest. */
  lemma JoinedPieces(ks: seq<string>)
    requires |ks| >= 2 && Lacks(ks[0], '\n')
    ensures SplitOn(Join(ks, ParagraphBreak), LineBreak)
      == [ks[0]] + ([""] + SplitOn(Join(ks[1..], ParagraphBreak), LineBreak))
  {
    var first, rest := ks[0], Join(ks[1..], ParagraphBreak);
    var tail := LineBreak + rest;
    assert Join(ks, ParagraphBreak) == first + ParagraphBreak + rest;
    assert first + ParagraphBreak + rest == first + LineBreak + tail;
    SplitAfterLacking(first, tail, LineBreak);
    SplitLeadingBreak(rest);
  }

  /** Keeping lines works line by line. */
  lemma KeptCons(line: string, lines: seq<string>)
    ensures Kept([line] + lines) == KeepLine(line) + Kept(lines)
  {
    assert ([line] + lines)[1..] == lines;
  }

  /**
   * Re-splitting a joined text on line breaks yields each kept line
   * followed by the empty line between paragraphs, so keeping its
   * non-blank lines gives back the same list.
   */
  lemma {:induction false} KeptOfJoined(ks: seq<string>)
    requires forall k :: 0 <= k < |ks| ==> IsStrippedNonBlank(ks[k]) && Lacks(ks[k], '\n')
    ensures Kept(SplitOn(Join(ks, ParagraphBreak), LineBreak)) == ks
    decreases |ks|
  {
    if ks == [] {
      assert SplitOn("", LineBreak) == [""];
      KeptCons("", []);
    } else if |ks| == 1 {
      SplitLacking(ks[0], LineBreak);
      StripFixed(ks[0]);
      KeptCons(ks[0], []);
    } else {
      var restLines := SplitOn(Join(ks[1..], ParagraphBreak), LineBreak);
      JoinedPieces(ks);
      KeptOfJoined(ks[1..]);
      StripFixed(ks[0]);
      KeptCons("", restLines);
      KeptCons(ks[0], [""] + restLines);
      assert [ks[0]] + ks[1..] == ks;
    }
  }


  /** The text is the kept lines joined by a blank line: every kept line comes back when it is split. */
  lemma FormattedParagraphs(content: string)
    requires |Joined(content)| <= MaxFormatted
    requires Kept(SplitOn(content, LineBreak)) != []
    ensures SplitOn(Formatted(content), ParagraphBreak) == Kept(SplitOn(content, LineBreak))
  {
    var ks := Kept(SplitOn(content, LineBreak));
    KeptOfContent(content);
    JoinSplit(ks, ParagraphBreak);
  }

  /** Formatting a text the formatter did not have to cut changes nothing more. */
  lemma FormatIdempotent(content: string)
    requires |Joined(content)| <= MaxFormatted
    ensures Formatted(Formatted(content)) == Formatted(content)
  {
    var ks := Kept(SplitOn(content, LineBreak));
    KeptOfContent(content);
    KeptOfJoined(ks);
  }

  /** A text of blank lines only formats to the empty string. */
  lemma {:induction false} BlankFormatsEmpty(content: string)
    requires forall i :: 0 <= i < |content| ==> IsSpace(content[i]) && content[i] != '\n'
    ensures Formatted(content) == ""
  {
    SplitLacking(content, LineBreak);
    StripBlank(content);
    assert Kept([content]) == KeepLine(content) + Kept([]);
  }
}
