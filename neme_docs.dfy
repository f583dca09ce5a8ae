/**
 * NemeDocs (components/apps/NemeDocs.tsx): the Markdown-like preview, which
 * renders one block per line of the content, the footer's word and
 * character counts, and the editor/preview toggle.
 */
module NemeDocs {
  import opened Seqs
  import opened Text

  // ---------------------------------------------------------------------
  // Splitting
  // ---------------------------------------------------------------------

  /** The number of characters of `s` that satisfy `p`. */
  function CountWhere(s: string, p: char -> bool): nat {
    if s == [] then 0 else (if p(s[0]) then 1 else 0) + CountWhere(s[1..], p)
  }

  /**
   * `s.split(sep)` for a one-character separator class: the pieces between
   * consecutive separators, one more than there are separators, none of
   * them containing a separator. The first piece is empty exactly when `s`
   * is empty or starts with a separator.
   */
  function SplitWhere(s: string, isSep: char -> bool): (r: seq<string>)
    ensures |r| == CountWhere(s, isSep) + 1
    ensures forall i, j :: 0 <= i < |r| && 0 <= j < |r[i]| ==> !isSep(r[i][j])
    ensures r[0] == [] <==> s == [] || isSep(s[0])
  {
    if s == [] then [[]]
    else
      var rest := SplitWhere(s[1..], isSep);
      if isSep(s[0]) then [[]] + rest
      else
        var r := [[s[0]] + rest[0]] + rest[1..];
        assert forall i :: 1 <= i < |r| ==> r[i] == rest[i];
        r
  }

  predicate IsNewline(c: char) {
    c == '\n'
  }

  /** `content.split('\n')`. */
  function Lines(content: string): (r: seq<string>)
    ensures |r| == CountWhere(content, IsNewline) + 1
    ensures forall i, j :: 0 <= i < |r| && 0 <= j < |r[i]| ==> r[i][j] != '\n'
  {
    SplitWhere(content, IsNewline)
  }

  /** `lines.join('\n')`, the inverse of `Lines`. */
  function JoinLines(lines: seq<string>): string {
    if lines == [] then []
    else if |lines| == 1 then lines[0]
    else lines[0] + "\n" + JoinLines(lines[1..])
  }

  /** Splitting the content at its newlines and joining the pieces back gives the content. */
  lemma {:induction false} JoinLinesOfLines(content: string)
    ensures JoinLines(Lines(content)) == content
  {
    if content != [] {
      var rest := Lines(content[1..]);
      JoinLinesOfLines(content[1..]);
      if !IsNewline(content[0]) {
        var ls := Lines(content);
        assert ls[0] == [content[0]] + rest[0] && ls[1..] == rest[1..];
        if |rest| > 1 {
          assert JoinLines(rest) == rest[0] + "\n" + JoinLines(rest[1..]);
          assert JoinLines(ls) == [content[0]] + rest[0] + "\n" + JoinLines(rest[1..]);
        }
        assert JoinLines(ls) == [content[0]] + JoinLines(rest);
      } else {
        assert Lines(content)[1..] == rest;
      }
      assert content == [content[0]] + content[1..];
    }
  }

  // ---------------------------------------------------------------------
  // Preview
  // ---------------------------------------------------------------------

  /** The four kinds of preview block: `h1`, list row, `blockquote` and `p`. */
  datatype Block = Heading(text: string) | ListItem(text: string) | Quote(text: string) | Paragraph(text: string)

  /**
   * The classification of one line, tried in order heading ("# "), list item
   * ("- "), quote ("> "), paragraph. `line.replace(prefix, '')` removes the
   * first occurrence of the prefix, which for a line starting with it is the
   * prefix itself; a paragraph keeps the line verbatim.
   */
  function Classify(line: string): (b: Block)
    ensures b.Heading? <==> StartsWith(line, "# ")
    ensures b.ListItem? <==> !StartsWith(line, "# ") && StartsWith(line, "- ")
    ensures b.Quote? <==> !StartsWith(line, "# ") && !StartsWith(line, "- ") && StartsWith(line, "> ")
    ensures b.Paragraph? ==> b.text == line
    ensures !b.Paragraph? ==> |line| >= 2 && b.text == line[2..]
  {
    if StartsWith(line, "# ") then Heading(ReplaceFirst(line, "# ", ""))
    else if StartsWith(line, "- ") then ListItem(ReplaceFirst(line, "- ", ""))
    else if StartsWith(line, "> ") then Quote(ReplaceFirst(line, "> ", ""))
    else Paragraph(line)
  }

  /** The Markdown line a block stands for. */
  function Source(b: Block): string {
    match b
    case Heading(t) => "# " + t
    case ListItem(t) => "- " + t
    case Quote(t) => "> " + t
    case Paragraph(t) => t
  }

  /** Classification loses nothing: the line can be rebuilt from its block. */
  lemma SourceOfClassify(line: string)
    ensures Source(Classify(line)) == line
  {
    var b := Classify(line);
    if !b.Paragraph? {
      assert line == line[..2] + line[2..];
    }
  }

  /** The blocks of the preview, one per line of the content. */
  function Preview(content: string): (r: seq<Block>)
    ensures |r| == CountWhere(content, IsNewline) + 1
    ensures forall i :: 0 <= i < |r| ==> r[i] == Classify(Lines(content)[i])
  {
    var lines := Lines(content);
    seq(|lines|, i requires 0 <= i < |lines| => Classify(lines[i]))
  }

  /** The sources of the preview's blocks, joined by newlines, are the content again. */
  lemma PreviewRoundTrip(content: string)
    ensures var blocks := Preview(content);
            JoinLines(seq(|blocks|, i requires 0 <= i < |blocks| => Source(blocks[i]))) == content
  {
    var blocks := Preview(content);
    var lines := Lines(content);
    forall i | 0 <= i < |blocks| {
      SourceOfClassify(lines[i]);
    }
    assert seq(|blocks|, i requires 0 <= i < |blocks| => Source(blocks[i])) == lines;
    JoinLinesOfLines(content);
  }

  // ---------------------------------------------------------------------
  // Footer
  // ---------------------------------------------------------------------

  function IsNonEmpty(piece: string): bool {
    |piece| > 0
  }

  /**
   * `content.split(/\s+/).filter(x => x.length > 0)`. Splitting at every
   * whitespace character instead of at every maximal whitespace run only
   * adds empty pieces between adjacent whitespace characters, which the
   * filter removes, so the words are the same.
   */
  function Words(content: string): (r: seq<string>)
    ensures forall i :: 0 <= i < |r| ==> |r[i]| > 0
    ensures forall i, j :: 0 <= i < |r| && 0 <= j < |r[i]| ==> !IsSpace(r[i][j])
  {
    var pieces := SplitWhere(content, IsSpace);
    var r := Filter(pieces, IsNonEmpty);
    assert forall i :: 0 <= i < |r| ==> r[i] in pieces;
    r
  }

  /** Reference count: the number of maximal non-whitespace runs, counted at their last character. */
  function RunEnds(s: string): nat {
    if s == [] then 0
    else (if !IsSpace(s[0]) && (|s| == 1 || IsSpace(s[1])) then 1 else 0) + RunEnds(s[1..])
  }

  /** The word count is the number of maximal runs of non-whitespace characters. */
  lemma {:induction false} WordCountIsRunCount(s: string)
    ensures |Words(s)| == RunEnds(s)
  {
    if s != [] {
      WordCountIsRunCount(s[1..]);
      var rest := SplitWhere(s[1..], IsSpace);
      var pieces := SplitWhere(s, IsSpace);
      assert Filter(rest, IsNonEmpty) == (if IsNonEmpty(rest[0]) then [rest[0]] else []) + Filter(rest[1..], IsNonEmpty);
      if IsSpace(s[0]) {
        assert pieces[1..] == rest;
      } else {
        assert pieces[1..] == rest[1..];
      }
    }
  }

  /** Content made only of whitespace has no words. */
  lemma {:induction false} BlankHasNoWords(s: string)
    requires AllSpace(s)
    ensures |Words(s)| == 0
  {
    WordCountIsRunCount(s);
    BlankHasNoRuns(s);
  }

  lemma {:induction false} BlankHasNoRuns(s: string)
    requires AllSpace(s)
    ensures RunEnds(s) == 0
  {
    if s != [] {
      BlankHasNoRuns(s[1..]);
    }
  }

  /** The footer: `WORDS` and `CHARS`. */
  datatype Stats = Stats(words: nat, chars: nat)

  function Footer(content: string): (r: Stats)
    ensures r.words == RunEnds(content)
    ensures r.chars == |content|
  {
    WordCountIsRunCount(content);
    Stats(|Words(content)|, |content|)
  }

  /** A heading, a blank line and a list item: the blank line adds no word. */
  lemma FooterScenario()
    ensures Footer("# Hi\n\n- yo").words == 4
  {
  }

  // ---------------------------------------------------------------------
  // The editor
  // ---------------------------------------------------------------------

  /** The component state: the document text and whether the preview is shown. */
  class DocsEditor {
    var content: string
    var isPreview: bool

    constructor (initial: string)
      ensures content == initial && !isPreview
    {
      content := initial;
      isPreview := false;
    }

    /** What the editor area shows: the textarea, or the preview blocks. */
    function Shown(): (r: seq<Block>)
      reads this
      ensures isPreview ==> r == Preview(content)
      ensures !isPreview ==> r == []
    {
      if isPreview then Preview(content) else []
    }

    /** The textarea's `onChange`: the content is replaced, the mode kept. */
    method Edit(text: string)
      modifies this
      ensures content == text && isPreview == old(isPreview)
    {
      content := text;
    }

    /** The PREVIEW_MODE / EDIT_MODE button flips the mode and keeps the content. */
    method TogglePreview()
      modifies this
      ensures isPreview == !old(isPreview) && content == old(content)
    {
      isPreview := !isPreview;
    }
  }

  /** Toggling the preview twice restores the editor exactly. */
  method ToggleTwiceRestores(d: DocsEditor)
    modifies d
    ensures d.isPreview == old(d.isPreview) && d.content == old(d.content)
  {
    d.TogglePreview();
    d.TogglePreview();
  }
}
