/**
 The word-processor document the converter writes into, reduced to what the
 converter touches: an ordered list of paragraphs, each with a style and an
 ordered list of runs, and each run with its text and three style flags.
 A flag that is `false` stands for a flag the converter never set.
 Paragraphs and runs are addressed by their position, which plays the part
 of the paragraph and run objects the document library hands back.
 */
module Docx {

  /** The paragraph styles the converter uses (level 0 is the library's title style). */
  datatype Style = Normal | Title | Heading(level: nat) | ListBullet | ListNumber

  datatype Run = Run(text: string, bold: bool, italic: bool, underline: bool)

  datatype Paragraph = Paragraph(style: Style, runs: seq<Run>)

  /** A run as `add_run` creates it: the text and no style set. */
  function PlainRun(text: string): Run {
    Run(text, false, false, false)
  }

  /** The style `add_heading` gives a heading of `level`. */
  function HeadingStyle(level: nat): (s: Style)
    ensures level == 0 <==> s == Title
    ensures level > 0 <==> s == Heading(level)
  {
    if level == 0 then Title else Heading(level)
  }

  /** `paragraphs` with `runs` appended to the runs of paragraph `p`. */
  function AppendRuns(paragraphs: seq<Paragraph>, p: nat, runs: seq<Run>): (r: seq<Paragraph>)
    requires p < |paragraphs|
    ensures |r| == |paragraphs|
    ensures r[p].style == paragraphs[p].style
    ensures |r[p].runs| == |paragraphs[p].runs| + |runs|
    ensures r[p].runs[..|paragraphs[p].runs|] == paragraphs[p].runs && r[p].runs[|paragraphs[p].runs|..] == runs
    ensures forall q :: 0 <= q < |r| && q != p ==> r[q] == paragraphs[q]
  {
    paragraphs[p := paragraphs[p].(runs := paragraphs[p].runs + runs)]
  }

  lemma AppendNoRuns(paragraphs: seq<Paragraph>, p: nat)
    requires p < |paragraphs|
    ensures AppendRuns(paragraphs, p, []) == paragraphs
  {
    assert paragraphs[p].runs + [] == paragraphs[p].runs;
  }

  lemma AppendRunsTwice(paragraphs: seq<Paragraph>, p: nat, first: seq<Run>, second: seq<Run>)
    requires p < |paragraphs|
    ensures AppendRuns(AppendRuns(paragraphs, p, first), p, second) == AppendRuns(paragraphs, p, first + second)
  {
    assert paragraphs[p].runs + first + second == paragraphs[p].runs + (first + second);
  }

  /** Replacing the run just appended to paragraph `p` is the same as appending the replacement. */
  lemma ReplaceAppendedRun(paragraphs: seq<Paragraph>, p: nat, appended: Run, replacement: Run)
    requires p < |paragraphs|
    ensures var q := AppendRuns(paragraphs, p, [appended]);
      q[p := q[p].(runs := q[p].runs[|paragraphs[p].runs| := replacement])] == AppendRuns(paragraphs, p, [replacement])
  {
    assert (paragraphs[p].runs + [appended])[|paragraphs[p].runs| := replacement] == paragraphs[p].runs + [replacement];
  }

  /** Appending runs to a paragraph just added with none gives that paragraph those runs. */
  lemma AppendToNewParagraph(paragraphs: seq<Paragraph>, style: Style, runs: seq<Run>)
    ensures AppendRuns(paragraphs + [Paragraph(style, [])], |paragraphs|, runs) == paragraphs + [Paragraph(style, runs)]
  {
    assert [] + runs == runs;
  }

  /** The concatenated text of a sequence of runs. */
  function TextOfRuns(runs: seq<Run>): string {
    if runs == [] then "" else TextOfRuns(runs[..|runs| - 1]) + runs[|runs| - 1].text
  }

  class Document {
    var paragraphs: seq<Paragraph>

    /** A new, empty document. */
    constructor ()
      ensures paragraphs == []
    {
      paragraphs := [];
    }

    /** `add_heading('', level)`: a new last paragraph in the heading style, with no runs. */
    method AddHeading(level: nat) returns (p: nat)
      requires level <= 9
      modifies this
      ensures p == |old(paragraphs)|
      ensures paragraphs == old(paragraphs) + [Paragraph(HeadingStyle(level), [])]
    {
      p := |paragraphs|;
      paragraphs := paragraphs + [Paragraph(HeadingStyle(level), [])];
    }

    /** `add_paragraph(style=...)`: a new last paragraph in `style`, with no runs. */
    method AddParagraph(style: Style) returns (p: nat)
      modifies this
      ensures p == |old(paragraphs)|
      ensures paragraphs == old(paragraphs) + [Paragraph(style, [])]
    {
      p := |paragraphs|;
      paragraphs := paragraphs + [Paragraph(style, [])];
    }

    /** `add_run(text)` on paragraph `p`: a new last unstyled run of that paragraph. */
    method AddRun(p: nat, text: string) returns (r: nat)
      requires p < |paragraphs|
      modifies this
      ensures r == |old(paragraphs)[p].runs|
      ensures paragraphs == AppendRuns(old(paragraphs), p, [PlainRun(text)])
    {
      r := |paragraphs[p].runs|;
      paragraphs := AppendRuns(paragraphs, p, [PlainRun(text)]);
    }

    /** `run.bold = True` for run `r` of paragraph `p`. */
    method SetBold(p: nat, r: nat)
      requires p < |paragraphs| && r < |paragraphs[p].runs|
      modifies this
      ensures paragraphs == old(paragraphs)[p := old(paragraphs)[p].(runs := old(paragraphs)[p].runs[r := old(paragraphs)[p].runs[r].(bold := true)])]
    {
      var para := paragraphs[p];
      paragraphs := paragraphs[p := para.(runs := para.runs[r := para.runs[r].(bold := true)])];
    }

    /** `run.italic = True` for run `r` of paragraph `p`. */
    method SetItalic(p: nat, r: nat)
      requires p < |paragraphs| && r < |paragraphs[p].runs|
      modifies this
      ensures paragraphs == old(paragraphs)[p := old(paragraphs)[p].(runs := old(paragraphs)[p].runs[r := old(paragraphs)[p].runs[r].(italic := true)])]
    {
      var para := paragraphs[p];
      paragraphs := paragraphs[p := para.(runs := para.runs[r := para.runs[r].(italic := true)])];
    }

    /** `run.underline = True` for run `r` of paragraph `p`. */
    method SetUnderline(p: nat, r: nat)
      requires p < |paragraphs| && r < |paragraphs[p].runs|
      modifies this
      ensures paragraphs == old(paragraphs)[p := old(paragraphs)[p].(runs := old(paragraphs)[p].runs[r := old(paragraphs)[p].runs[r].(underline := true)])]
    {
      var para := paragraphs[p];
      paragraphs := paragraphs[p := para.(runs := para.runs[r := para.runs[r].(underline := true)])];
    }
  }
}
