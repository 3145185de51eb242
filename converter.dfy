/**
 The HTML-tree to word-processor-document conversion of `ApplicationRunner`:
 the block walker (`HtmlToDocx`) and the inline formatter
 (`ProcessTextElement`), each proved against a specification function
 (`Blocks` and `RunsOf`) whose properties are proved in module `Properties`.
 */
module Converter {
  import opened Dom
  import opened Docx

  // ---------------------------------------------------------------------------
  // Specification of the inline formatter

  /** The runs the inline formatter appends for one child node. */
  function RunsOfNode(child: Node): seq<Run>
    decreases child
  {
    match child
    case Text(s) => [PlainRun(s)]
    case Elem(tag, children) =>
      if tag == "strong" then [Run(TextOf(child), true, false, false)]
      else if tag == "em" then [Run(TextOf(child), false, true, false)]
      else if tag == "u" then [Run(TextOf(child), false, false, true)]
      else if tag == "a" then [Run(TextOf(child), false, false, true)]
      else RunsOf(children)
  }

  /** The runs the inline formatter appends for a sequence of children, in order. */
  function RunsOf(children: seq<Node>): seq<Run>
    decreases children
  {
    if children == [] then []
    else RunsOf(children[..|children| - 1]) + RunsOfNode(children[|children| - 1])
  }

  // ---------------------------------------------------------------------------
  // Specification of the block walker

  /** `tag.startswith('h')`. */
  predicate StartsWithH(tag: string) {
    |tag| > 0 && tag[0] == 'h'
  }

  /** The heading level named by the digit after the `h` of a heading tag. */
  function HeadingLevel(tag: string): (level: nat)
    requires tag in ALLOW_LIST && StartsWithH(tag)
    ensures 1 <= level <= 6
    ensures tag == ['h', ('0' as int + level) as char]
  {
    assert tag in ["h1", "h2", "h3", "h4", "h5", "h6"];
    (tag[1] as int) - ('0' as int)
  }

  /** The list-item paragraphs a list in `style` adds for `items`, one per item, in order. */
  function ListItems(style: Style, items: seq<Node>): seq<Paragraph>
    decreases items
  {
    if items == [] then []
    else ListItems(style, items[..|items| - 1]) + [Paragraph(style, RunsOf(ChildrenOf(items[|items| - 1])))]
  }

  /**
   The paragraphs the block walker adds when it visits `e`; a node it never
   visits (one that is not an allow-listed element) adds none.
   */
  function BlockOf(e: Node): seq<Paragraph> {
    if !Matches(e, ALLOW_LIST) then []
    else if StartsWithH(e.tag) then [Paragraph(HeadingStyle(HeadingLevel(e.tag)), RunsOf(e.children))]
    else if e.tag == "p" then [Paragraph(Normal, RunsOf(e.children))]
    else if e.tag == "ul" || e.tag == "ol" then
      ListItems(if e.tag == "ul" then ListBullet else ListNumber, DirectChildren(e.children, "li"))
    else []
  }

  /** The paragraphs the block walker adds for the visited elements `es`, in order. */
  function BlocksOf(es: seq<Node>): seq<Paragraph>
    decreases es
  {
    if es == [] then [] else BlocksOf(es[..|es| - 1]) + BlockOf(es[|es| - 1])
  }

  /** The paragraphs of the document converted from the document whose top-level nodes are `forest`. */
  function Blocks(forest: seq<Node>): seq<Paragraph> {
    BlocksOf(FindAll(forest, ALLOW_LIST))
  }

  // ---------------------------------------------------------------------------
  // The conversion itself

  /**
   Appends to paragraph `p` of `doc` the runs for the children of `element`:
   a text child as an unstyled run, a `strong`, `em`, `u` or `a` child as one
   run of its flattened text with bold, italic, underline or underline set,
   and any other element child by recursing into it in place.
   */
  method ProcessTextElement(element: Node, doc: Document, p: nat)
    requires p < |doc.paragraphs|
    modifies doc
    ensures doc.paragraphs == AppendRuns(old(doc.paragraphs), p, RunsOf(ChildrenOf(element)))
    decreases element
  {
    var children := ChildrenOf(element);
    var i := 0;
    assert children[..0] == [];
    AppendNoRuns(doc.paragraphs, p);
    while i < |children|
      invariant 0 <= i <= |children|
      invariant doc.paragraphs == AppendRuns(old(doc.paragraphs), p, RunsOf(children[..i]))
    {
      var child := children[i];
      ghost var before := doc.paragraphs;
      match child {
        case Text(s) =>
          var run := doc.AddRun(p, s);
        case Elem(tag, _) =>
          if tag == "strong" {
            var run := doc.AddRun(p, TextOf(child));
            doc.SetBold(p, run);
            ReplaceAppendedRun(before, p, PlainRun(TextOf(child)), Run(TextOf(child), true, false, false));
          } else if tag == "em" {
            var run := doc.AddRun(p, TextOf(child));
            doc.SetItalic(p, run);
            ReplaceAppendedRun(before, p, PlainRun(TextOf(child)), Run(TextOf(child), false, true, false));
          } else if tag == "u" {
            var run := doc.AddRun(p, TextOf(child));
            doc.SetUnderline(p, run);
            ReplaceAppendedRun(before, p, PlainRun(TextOf(child)), Run(TextOf(child), false, false, true));
          } else if tag == "a" {
            var run := doc.AddRun(p, TextOf(child));
            doc.SetUnderline(p, run);
            ReplaceAppendedRun(before, p, PlainRun(TextOf(child)), Run(TextOf(child), false, false, true));
          } else {
            ProcessTextElement(child, doc, p);
          }
      }
      assert doc.paragraphs == AppendRuns(before, p, RunsOfNode(child));
      assert children[..i + 1][..i] == children[..i];
      AppendRunsTwice(old(doc.paragraphs), p, RunsOf(children[..i]), RunsOfNode(child));
      i := i + 1;
    }
    assert children[..i] == children;
  }

  /**
   The inner loop of the block walker over the direct `li` children of a list:
   one new paragraph in `style` per item, in order, filled by the inline
   formatter from that item's children.
   */
  method AddListItems(doc: Document, style: Style, items: seq<Node>)
    modifies doc
    ensures doc.paragraphs == old(doc.paragraphs) + ListItems(style, items)
  {
    var j := 0;
    assert items[..0] == [];
    while j < |items|
      invariant 0 <= j <= |items|
      invariant doc.paragraphs == old(doc.paragraphs) + ListItems(style, items[..j])
    {
      ghost var before := doc.paragraphs;
      var paragraph := doc.AddParagraph(style);
      ProcessTextElement(items[j], doc, paragraph);
      AppendToNewParagraph(before, style, RunsOf(ChildrenOf(items[j])));
      assert items[..j + 1][..j] == items[..j];
      j := j + 1;
    }
    assert items[..j] == items;
  }

  /**
   What the block walker does for one visited element `element`: a heading
   for `h1`..`h6`, a plain paragraph for `p`, one list paragraph per direct
   `li` child for `ul` and `ol`, each filled by the inline formatter, and
   nothing for the other allow-listed tags.
   */
  method AddBlock(doc: Document, element: Node)
    requires Matches(element, ALLOW_LIST)
    modifies doc
    ensures doc.paragraphs == old(doc.paragraphs) + BlockOf(element)
  {
    ghost var done := doc.paragraphs;
    if StartsWithH(element.tag) {
      var level := HeadingLevel(element.tag);
      var heading := doc.AddHeading(level);
      ProcessTextElement(element, doc, heading);
      AppendToNewParagraph(done, HeadingStyle(level), RunsOf(element.children));
    } else if element.tag == "p" {
      var paragraph := doc.AddParagraph(Normal);
      ProcessTextElement(element, doc, paragraph);
      AppendToNewParagraph(done, Normal, RunsOf(element.children));
    } else if element.tag == "ul" || element.tag == "ol" {
      var unordered := element.tag == "ul";
      var style := if unordered then ListBullet else ListNumber;
      var items := DirectChildren(element.children, "li");
      AddListItems(doc, style, items);
    }
  }

  /**
   Converts the parsed document whose top-level nodes are `forest` and returns
   the paragraphs of the resulting document: every allow-listed element, in
   document order, adds its block.
   */
  method HtmlToDocx(forest: seq<Node>) returns (paragraphs: seq<Paragraph>)
    ensures paragraphs == Blocks(forest)
  {
    var doc := new Document();
    var elements := FindAll(forest, ALLOW_LIST);
    var i := 0;
    while i < |elements|
      invariant 0 <= i <= |elements|
      invariant doc.paragraphs == BlocksOf(elements[..i])
    {
      AddBlock(doc, elements[i]);
      assert elements[..i + 1][..i] == elements[..i];
      i := i + 1;
    }
    assert elements[..i] == elements;
    paragraphs := doc.paragraphs;
  }
}
