/**
 Worked conversions of small documents, including the two places where the
 converter repeats content: a list nested in a list item, and a `p` inside
 an `li`. Each document is a parameter fixed by a `requires` clause, and each
 conversion is assembled from the conversions of its parts.
 */
module Scenarios {
  import opened Dom
  import opened Docx
  import opened Converter
  import opened Properties

  // ---------------------------------------------------------------------------
  // Small facts the scenarios are assembled from

  /** Two sibling top-level nodes convert one after the other. */
  lemma TwoNodeBlocks(x: Node, y: Node)
    ensures Blocks([x, y]) == Blocks([x]) + Blocks([y])
  {
    assert [x, y] == [x] + [y];
    BlocksAppend([x], [y]);
  }

  /** The runs for two sibling children, in order. */
  lemma TwoNodeRuns(x: Node, y: Node)
    ensures RunsOf([x, y]) == RunsOfNode(x) + RunsOfNode(y)
  {
    assert [x, y][..1] == [x];
    OneNodeRuns(x);
  }

  /** The runs for one child. */
  lemma OneNodeRuns(x: Node)
    ensures RunsOf([x]) == RunsOfNode(x)
  {
    assert [x][..0] == [];
  }

  /** The flattened text of a lone text node. */
  lemma LoneTextText(s: string)
    ensures TextOfAll([Text(s)]) == s
  {
    assert [Text(s)][..0] == [];
  }

  /**
   Appending nothing, before or after, changes nothing. A generic helper:
   over sequences of paragraphs the solver is slow to find this by itself.
   */
  lemma NothingAppended<T>(x: seq<T>)
    ensures x + [] == x && [] + x == x
  {
  }

  /** A `ul` with one `li` child has one bullet paragraph holding that item's runs. */
  lemma OneItemList(list: Node, runs: seq<Run>)
    requires list.Elem? && list.tag == "ul" && |list.children| == 1
    requires list.children[0].Elem? && list.children[0].tag == "li"
    requires RunsOf(list.children[0].children) == runs
    ensures BlockOf(list) == [Paragraph(ListBullet, runs)]
  {
    var item := list.children[0];
    assert list.children == [item];
    assert [item][..0] == [];
    assert DirectChildren([item], "li") == [item];
    assert BlockOf(list) == ListItems(ListBullet, [item]);
  }

  /** An `li` holding only text adds no paragraph of its own. */
  lemma TextItemAddsNothing(item: Node)
    requires item.Elem? && item.tag == "li" && forall n :: n in item.children ==> n.Text?
    ensures Blocks([item]) == []
  {
    SingleNodeBlocks(item);
    TextOnlyBlocks(item.children);
    InlineTagBlock(item);
  }

  // ---------------------------------------------------------------------------
  // <h1>Name</h1><p>Hello <strong>World</strong></p>

  /** A heading, then a paragraph whose text before `strong`, space included, is its own plain run. */
  lemma HeadingAndParagraph(h1: Node, p: Node)
    requires h1 == Elem("h1", [Text("Name")])
    requires p == Elem("p", [Text("Hello "), Elem("strong", [Text("World")])])
    ensures Blocks([h1, p])
         == [Paragraph(Heading(1), [Run("Name", false, false, false)]),
             Paragraph(Normal, [Run("Hello ", false, false, false), Run("World", true, false, false)])]
  {
    TwoNodeBlocks(h1, p);
    NameHeading(h1);
    HelloWorldParagraph(p);
  }

  /** `<h1>Name</h1>`: one level-1 heading with one plain run. */
  lemma NameHeading(h1: Node)
    requires h1 == Elem("h1", [Text("Name")])
    ensures Blocks([h1]) == [Paragraph(Heading(1), [PlainRun("Name")])]
  {
    SingleNodeBlocks(h1);
    TextOnlyBlocks(h1.children);
    OneNodeRuns(h1.children[0]);
    assert HeadingLevel(h1.tag) == 1;
  }

  /** `<p>Hello <strong>World</strong></p>`: one paragraph with a plain run, then a bold run. */
  lemma HelloWorldParagraph(p: Node)
    requires p == Elem("p", [Text("Hello "), Elem("strong", [Text("World")])])
    ensures Blocks([p]) == [Paragraph(Normal, [PlainRun("Hello "), Run("World", true, false, false)])]
  {
    SingleNodeBlocks(p);
    ParagraphBlock(p);
    HelloWorldRuns(p.children);
    HelloWorldAddsNothingMore(p.children);
  }

  lemma HelloWorldRuns(children: seq<Node>)
    requires children == [Text("Hello "), Elem("strong", [Text("World")])]
    ensures RunsOf(children) == [PlainRun("Hello "), Run("World", true, false, false)]
  {
    TwoNodeRuns(children[0], children[1]);
    LoneTextText("World");
  }

  lemma HelloWorldAddsNothingMore(children: seq<Node>)
    requires children == [Text("Hello "), Elem("strong", [Text("World")])]
    ensures Blocks(children) == []
  {
    var strong := children[1];
    TwoNodeBlocks(children[0], strong);
    TextOnlyBlocks([children[0]]);
    SingleNodeBlocks(strong);
    InlineTagBlock(strong);
    TextOnlyBlocks(strong.children);
  }

  // ---------------------------------------------------------------------------
  // <ul><li>a</li><li>b</li></ul>

  /** Two bullet paragraphs, in item order. */
  lemma TwoItemList(list: Node)
    requires list == Elem("ul", [Elem("li", [Text("a")]), Elem("li", [Text("b")])])
    ensures Blocks([list])
         == [Paragraph(ListBullet, [Run("a", false, false, false)]),
             Paragraph(ListBullet, [Run("b", false, false, false)])]
  {
    var own, inner := BlockOf(list), Blocks(list.children);
    assert Blocks([list]) == own + inner by {
      SingleNodeBlocks(list);
    }
    assert inner == [] by {
      TwoNodeBlocks(list.children[0], list.children[1]);
      TextItemAddsNothing(list.children[0]);
      TextItemAddsNothing(list.children[1]);
    }
    TwoItemListOwnBlock(list);
    NothingAppended(own);
  }

  /** The list's own paragraphs: one per item. */
  lemma TwoItemListOwnBlock(list: Node)
    requires list == Elem("ul", [Elem("li", [Text("a")]), Elem("li", [Text("b")])])
    ensures BlockOf(list) == [Paragraph(ListBullet, [PlainRun("a")]), Paragraph(ListBullet, [PlainRun("b")])]
  {
    var a, b := list.children[0], list.children[1];
    assert [a, b][..1] == [a] && [a][..0] == [];
    assert DirectChildren(list.children, "li") == [a, b];
    assert BlockOf(list) == ListItems(ListBullet, [a, b]);
    OneNodeRuns(a.children[0]);
    OneNodeRuns(b.children[0]);
    assert ListItems(ListBullet, [a]) == [Paragraph(ListBullet, [PlainRun("a")])];
  }

  // ---------------------------------------------------------------------------
  // <ul><li>x<ul><li>y</li></ul></li></ul>

  /**
   The outer item's paragraph holds both `x` and the nested item's `y`, and
   the nested list, visited after it, adds its own paragraph for `y`.
   */
  lemma NestedListRepeatsInnerItems(outerList: Node)
    requires outerList == Elem("ul", [Elem("li", [Text("x"), Elem("ul", [Elem("li", [Text("y")])])])])
    ensures Blocks([outerList])
         == [Paragraph(ListBullet, [Run("x", false, false, false), Run("y", false, false, false)]),
             Paragraph(ListBullet, [Run("y", false, false, false)])]
  {
    var outer := outerList.children[0];
    SingleNodeBlocks(outerList);
    OuterItemRuns(outer);
    OneItemList(outerList, [PlainRun("x"), PlainRun("y")]);
    OuterItemBlocks(outer);
  }

  /** The runs of the outer item: its own text, then the nested item's, unstyled and in place. */
  lemma OuterItemRuns(outer: Node)
    requires outer == Elem("li", [Text("x"), Elem("ul", [Elem("li", [Text("y")])])])
    ensures RunsOf(outer.children) == [PlainRun("x"), PlainRun("y")]
  {
    var innerList := outer.children[1];
    TwoNodeRuns(outer.children[0], innerList);
    OneNodeRuns(innerList.children[0]);
    OneNodeRuns(innerList.children[0].children[0]);
  }

  /** Visited on its own, the outer item adds nothing, and the nested list adds one paragraph for `y`. */
  lemma OuterItemBlocks(outer: Node)
    requires outer == Elem("li", [Text("x"), Elem("ul", [Elem("li", [Text("y")])])])
    ensures Blocks([outer]) == [Paragraph(ListBullet, [PlainRun("y")])]
  {
    var innerList := outer.children[1];
    var inner := innerList.children[0];
    SingleNodeBlocks(outer);
    InlineTagBlock(outer);
    TwoNodeBlocks(outer.children[0], innerList);
    TextOnlyBlocks([outer.children[0]]);
    SingleNodeBlocks(innerList);
    OneNodeRuns(inner.children[0]);
    OneItemList(innerList, [PlainRun("y")]);
    TextItemAddsNothing(inner);
  }

  // ---------------------------------------------------------------------------
  // <ul><li><p>t</p></li></ul>

  /** The text appears in the list paragraph and again in a plain paragraph after it. */
  lemma ParagraphInItemRepeats(list: Node)
    requires list == Elem("ul", [Elem("li", [Elem("p", [Text("t")])])])
    ensures Blocks([list])
         == [Paragraph(ListBullet, [Run("t", false, false, false)]),
             Paragraph(Normal, [Run("t", false, false, false)])]
  {
    var item := list.children[0];
    var p := item.children[0];
    SingleNodeBlocks(list);
    OneNodeRuns(p);
    OneNodeRuns(p.children[0]);
    OneItemList(list, [PlainRun("t")]);
    ItemWithParagraphBlocks(item);
  }

  /** Visited on its own, `<li><p>t</p></li>` adds nothing, and its `p` adds one plain paragraph. */
  lemma ItemWithParagraphBlocks(item: Node)
    requires item == Elem("li", [Elem("p", [Text("t")])])
    ensures Blocks([item]) == [Paragraph(Normal, [PlainRun("t")])]
  {
    var p := item.children[0];
    assert Blocks([item]) == BlockOf(item) + Blocks([p]) by {
      SingleNodeBlocks(item);
    }
    assert BlockOf(item) == [] by {
      InlineTagBlock(item);
    }
    var own := BlockOf(p);
    assert Blocks([p]) == own + Blocks(p.children) by {
      SingleNodeBlocks(p);
    }
    assert Blocks(p.children) == [] by {
      TextOnlyBlocks(p.children);
    }
    assert own == [Paragraph(Normal, [PlainRun("t")])] by {
      ParagraphBlock(p);
      OneNodeRuns(p.children[0]);
    }
    NothingAppended(own);
  }

  // ---------------------------------------------------------------------------
  // <p><strong>a<em>b</em></strong></p>

  /** One bold run of all the text; the italic inside the bold is lost. */
  lemma NestedFormattingFlattened(p: Node)
    requires p == Elem("p", [Elem("strong", [Text("a"), Elem("em", [Text("b")])])])
    ensures Blocks([p]) == [Paragraph(Normal, [Run("ab", true, false, false)])]
  {
    var strong := p.children[0];
    SingleNodeBlocks(p);
    ParagraphBlock(p);
    StrongRuns(strong);
    StrongAddsNothing(strong);
  }

  /** As a child, `<strong>a<em>b</em></strong>` gives one bold run of `ab`. */
  lemma StrongRuns(strong: Node)
    requires strong == Elem("strong", [Text("a"), Elem("em", [Text("b")])])
    ensures RunsOf([strong]) == [Run("ab", true, false, false)]
  {
    OneNodeRuns(strong);
    var em := strong.children[1];
    assert strong.children[..1] == [Text("a")];
    LoneTextText("a");
    LoneTextText("b");
    assert TextOf(em) == "b";
    assert TextOfAll(strong.children) == TextOfAll([Text("a")]) + TextOf(em);
    assert "a" + "b" == "ab";
    assert TextOf(strong) == "ab";
  }

  /** Visited on their own, `strong` and `em` add nothing. */
  lemma StrongAddsNothing(strong: Node)
    requires strong == Elem("strong", [Text("a"), Elem("em", [Text("b")])])
    ensures Blocks([strong]) == []
  {
    var em := strong.children[1];
    SingleNodeBlocks(strong);
    InlineTagBlock(strong);
    TwoNodeBlocks(strong.children[0], em);
    TextOnlyBlocks([strong.children[0]]);
    SingleNodeBlocks(em);
    InlineTagBlock(em);
    TextOnlyBlocks(em.children);
  }
}
