/**
 What the conversion promises, proved about the specification functions that
 the block walker and the inline formatter are verified against.
 */
module Properties {
  import opened Dom
  import opened Docx
  import opened Converter

  // ---------------------------------------------------------------------------
  // Tree queries

  /** Searching a document made of two runs of top-level nodes finds the first run's matches, then the second's. */
  lemma {:induction false} FindAllAppend(a: seq<Node>, b: seq<Node>, names: seq<string>)
    ensures FindAll(a + b, names) == FindAll(a, names) + FindAll(b, names)
    decreases |b|
  {
    if b == [] {
      assert a + b == a;
    } else {
      assert (a + b)[..|a + b| - 1] == a + b[..|b| - 1];
      FindAllAppend(a, b[..|b| - 1], names);
    }
  }

  /** The direct `name` children of two runs of children are the first run's, then the second's, in order. */
  lemma {:induction false} DirectChildrenAppend(a: seq<Node>, b: seq<Node>, name: string)
    ensures DirectChildren(a + b, name) == DirectChildren(a, name) + DirectChildren(b, name)
    decreases |b|
  {
    if b == [] {
      assert a + b == a;
    } else {
      var last := b[|b| - 1];
      assert (a + b)[..|a + b| - 1] == a + b[..|b| - 1] && (a + b)[|a + b| - 1] == last;
      DirectChildrenAppend(a, b[..|b| - 1], name);
      ConcatAssociative(DirectChildren(a, name), DirectChildren(b[..|b| - 1], name),
                        if last.Elem? && last.tag == name then [last] else []);
    }
  }

  /**
   One child is kept exactly once when it is an element named `name`, and
   dropped otherwise; with `DirectChildrenAppend` this fixes the order and the
   number of the items `find_all(name, recursive=False)` returns, repeated
   equal items included.
   */
  lemma DirectChildrenOne(c: Node, name: string)
    ensures DirectChildren([c], name) == if c.Elem? && c.tag == name then [c] else []
  {
    assert [c][..0] == [];
  }

  /**
   Pre-order: the matches of a document are the matches before an element,
   then the element itself when its tag is asked for, then the matches inside
   it, then the matches after it.
   */
  lemma FindAllPreOrder(before: seq<Node>, tag: string, children: seq<Node>, after: seq<Node>, names: seq<string>)
    ensures FindAll(before + [Elem(tag, children)] + after, names)
         == FindAll(before, names) + (if tag in names then [Elem(tag, children)] else []) + FindAll(children, names) + FindAll(after, names)
  {
    FindAllAppend(before + [Elem(tag, children)], after, names);
    FindAllAppend(before, [Elem(tag, children)], names);
    assert [Elem(tag, children)][..0] == [];
  }

  /** A node is found in a subtree exactly when it matches and occurs in that subtree. */
  lemma {:induction false} FindAllFromExactly(e: Node, n: Node, names: seq<string>)
    ensures e in FindAllFrom(n, names) <==> Matches(e, names) && OccursAt(e, n)
    decreases n
  {
    match n
    case Text(_) =>
    case Elem(tag, children) =>
      FindAllExactly(e, children, names);
  }

  /** `find_all` visits every element of the document whose tag is asked for, and nothing else. */
  lemma {:induction false} FindAllExactly(e: Node, forest: seq<Node>, names: seq<string>)
    ensures e in FindAll(forest, names) <==> Matches(e, names) && OccursIn(e, forest)
    decreases forest
  {
    if forest != [] {
      FindAllExactly(e, forest[..|forest| - 1], names);
      FindAllFromExactly(e, forest[|forest| - 1], names);
    }
  }

  // ---------------------------------------------------------------------------
  // Inline formatter

  /** The runs of two runs of children are the runs of the first followed by those of the second. */
  lemma {:induction false} RunsOfAppend(a: seq<Node>, b: seq<Node>)
    ensures RunsOf(a + b) == RunsOf(a) + RunsOf(b)
    decreases |b|
  {
    if b == [] {
      assert a + b == a;
    } else {
      assert (a + b)[..|a + b| - 1] == a + b[..|b| - 1];
      RunsOfAppend(a, b[..|b| - 1]);
    }
  }

  /**
   Runs are appended in child order, and each child contributes by its kind: a
   text node exactly one unstyled run of its own text; a `strong`, `em`, `u` or
   `a` element exactly one run of its whole flattened text with only bold, only
   italic or only underline set, whatever formatting lies inside it; any other
   element its own children's runs, in place and with no style added.
   */
  lemma ChildRuns(before: seq<Node>, child: Node, after: seq<Node>)
    ensures child.Text? ==>
      RunsOf(before + [child] + after) == RunsOf(before) + [Run(child.s, false, false, false)] + RunsOf(after)
    ensures child.Elem? && child.tag == "strong" ==>
      RunsOf(before + [child] + after) == RunsOf(before) + [Run(TextOfAll(child.children), true, false, false)] + RunsOf(after)
    ensures child.Elem? && child.tag == "em" ==>
      RunsOf(before + [child] + after) == RunsOf(before) + [Run(TextOfAll(child.children), false, true, false)] + RunsOf(after)
    ensures child.Elem? && (child.tag == "u" || child.tag == "a") ==>
      RunsOf(before + [child] + after) == RunsOf(before) + [Run(TextOfAll(child.children), false, false, true)] + RunsOf(after)
    ensures child.Elem? && child.tag !in ["strong", "em", "u", "a"] ==>
      RunsOf(before + [child] + after) == RunsOf(before) + RunsOf(child.children) + RunsOf(after)
  {
    RunsOfAppend(before + [child], after);
    RunsOfAppend(before, [child]);
    assert [child][..0] == [];
  }

  /** The text of runs laid end to end is the text of the first runs, then that of the second. */
  lemma {:induction false} TextOfRunsAppend(a: seq<Run>, b: seq<Run>)
    ensures TextOfRuns(a + b) == TextOfRuns(a) + TextOfRuns(b)
    decreases |b|
  {
    if b == [] {
      assert a + b == a;
    } else {
      assert (a + b)[..|a + b| - 1] == a + b[..|b| - 1];
      TextOfRunsAppend(a, b[..|b| - 1]);
    }
  }

  /** No text is lost or invented: the runs of a child spell out its flattened text. */
  lemma {:induction false} NodeRunsSpellText(child: Node)
    ensures TextOfRuns(RunsOfNode(child)) == TextOf(child)
    decreases child
  {
    match child
    case Text(s) =>
      assert TextOfRuns([PlainRun(s)]) == TextOfRuns([]) + s;
    case Elem(tag, children) =>
      if tag in ["strong", "em", "u", "a"] {
        assert TextOfRuns(RunsOfNode(child)) == TextOfRuns([]) + TextOf(child);
      } else {
        RunsSpellText(children);
      }
  }

  /** The concatenated text of all runs for an element's children equals the element's flattened text. */
  lemma {:induction false} RunsSpellText(children: seq<Node>)
    ensures TextOfRuns(RunsOf(children)) == TextOfAll(children)
    decreases children
  {
    if children != [] {
      var last := children[|children| - 1];
      RunsSpellText(children[..|children| - 1]);
      NodeRunsSpellText(last);
      TextOfRunsAppend(RunsOf(children[..|children| - 1]), RunsOfNode(last));
    }
  }

  /** At most one of bold, italic and underline is set: nested formatting never combines. */
  predicate AtMostOneStyle(run: Run) {
    !(run.bold && run.italic) && !(run.bold && run.underline) && !(run.italic && run.underline)
  }

  /** Every run the inline formatter makes for one child carries at most one style flag. */
  lemma {:induction false} NodeRunsSingleStyle(child: Node)
    ensures forall run :: run in RunsOfNode(child) ==> AtMostOneStyle(run)
    decreases child
  {
    match child
    case Text(_) =>
    case Elem(tag, children) =>
      if tag !in ["strong", "em", "u", "a"] {
        RunsSingleStyle(children);
      }
  }

  /** Every run the inline formatter appends for an element carries at most one style flag. */
  lemma {:induction false} RunsSingleStyle(children: seq<Node>)
    ensures forall run :: run in RunsOf(children) ==> AtMostOneStyle(run)
    decreases children
  {
    if children != [] {
      RunsSingleStyle(children[..|children| - 1]);
      NodeRunsSingleStyle(children[|children| - 1]);
    }
  }

  // ---------------------------------------------------------------------------
  // Block walker

  /** The `k`-th list paragraph is the `k`-th item's, in the list's style. */
  lemma {:induction false} ListItemsAt(style: Style, items: seq<Node>, k: nat)
    requires k < |items|
    ensures |ListItems(style, items)| == |items|
    ensures ListItems(style, items)[k] == Paragraph(style, RunsOf(ChildrenOf(items[k])))
    decreases |items|
  {
    if k < |items| - 1 {
      ListItemsAt(style, items[..|items| - 1], k);
    } else if |items| > 1 {
      ListItemsAt(style, items[..|items| - 1], 0);
    }
  }

  /** An empty list of items adds no paragraph. */
  lemma ListItemsEmpty(style: Style)
    ensures ListItems(style, []) == []
  {
  }

  /**
   Visiting `h1`..`h6` adds exactly one paragraph: a heading whose level is
   the digit of the tag (always 1 to 6), whose runs spell out the element's text.
   */
  lemma HeadingBlock(e: Node)
    requires Matches(e, ALLOW_LIST) && StartsWithH(e.tag)
    ensures exists level ::
              1 <= level <= 6 && e.tag == ['h', ('0' as int + level) as char] &&
              BlockOf(e) == [Paragraph(Heading(level), RunsOf(e.children))]
    ensures |BlockOf(e)| == 1 && TextOfRuns(BlockOf(e)[0].runs) == TextOf(e)
  {
    var level := HeadingLevel(e.tag);
    assert BlockOf(e) == [Paragraph(Heading(level), RunsOf(e.children))];
    RunsSpellText(e.children);
  }

  /** Visiting `p` adds exactly one plain paragraph whose runs spell out the element's text. */
  lemma ParagraphBlock(e: Node)
    requires Matches(e, ALLOW_LIST) && e.tag == "p"
    ensures BlockOf(e) == [Paragraph(Normal, RunsOf(e.children))]
    ensures TextOfRuns(BlockOf(e)[0].runs) == TextOf(e)
  {
    RunsSpellText(e.children);
  }

  /**
   Visiting `ul` or `ol` adds one paragraph per direct `li` child, in child
   order, in `List Bullet` exactly when the tag is `ul` and `List Number`
   otherwise, each with its item's runs, which spell out the item's text.
   */
  lemma ListBlock(e: Node)
    requires Matches(e, ALLOW_LIST) && (e.tag == "ul" || e.tag == "ol")
    ensures var items := DirectChildren(e.children, "li");
      |BlockOf(e)| == |items| &&
      forall k :: 0 <= k < |items| ==>
        BlockOf(e)[k].style == (if e.tag == "ul" then ListBullet else ListNumber) &&
        BlockOf(e)[k].runs == RunsOf(items[k].children) &&
        TextOfRuns(BlockOf(e)[k].runs) == TextOf(items[k])
  {
    var items := DirectChildren(e.children, "li");
    var style := if e.tag == "ul" then ListBullet else ListNumber;
    assert BlockOf(e) == ListItems(style, items);
    if items == [] {
      ListItemsEmpty(style);
    }
    forall k | 0 <= k < |items|
      ensures |ListItems(style, items)| == |items|
      ensures ListItems(style, items)[k].style == style && ListItems(style, items)[k].runs == RunsOf(items[k].children)
      ensures TextOfRuns(ListItems(style, items)[k].runs) == TextOf(items[k])
    {
      ListItemsAt(style, items, k);
      RunsSpellText(items[k].children);
    }
  }

  /** Visiting `li`, `strong`, `em`, `u` or `a` adds nothing by itself. */
  lemma InlineTagBlock(e: Node)
    requires Matches(e, ALLOW_LIST) && e.tag in ["li", "strong", "em", "u", "a"]
    ensures BlockOf(e) == []
  {
  }

  /** The paragraphs for two runs of visited elements are those of the first, then those of the second. */
  lemma {:induction false} BlocksOfAppend(a: seq<Node>, b: seq<Node>)
    ensures BlocksOf(a + b) == BlocksOf(a) + BlocksOf(b)
    decreases |b|
  {
    if b == [] {
      assert a + b == a;
    } else {
      var last := b[|b| - 1];
      assert (a + b)[..|a + b| - 1] == a + b[..|b| - 1] && (a + b)[|a + b| - 1] == last;
      BlocksOfAppend(a, b[..|b| - 1]);
      var front, middle, back := BlocksOf(a), BlocksOf(b[..|b| - 1]), BlockOf(last);
      assert BlocksOf(b) == middle + back;
      ConcatAssociative(front, middle, back);
    }
  }

  /**
   Regrouping a concatenation. Stated once for any element type, so that
   callers over sequences of paragraphs or nodes get the fact without the
   solver searching for it, which is slow there.
   */
  lemma ConcatAssociative<T>(x: seq<T>, y: seq<T>, z: seq<T>)
    ensures x + y + z == x + (y + z)
  {
  }

  /** Converting two runs of top-level nodes gives the first run's paragraphs, then the second's. */
  lemma BlocksAppend(a: seq<Node>, b: seq<Node>)
    ensures Blocks(a + b) == Blocks(a) + Blocks(b)
  {
    FindAllAppend(a, b, ALLOW_LIST);
    BlocksOfAppend(FindAll(a, ALLOW_LIST), FindAll(b, ALLOW_LIST));
  }

  /**
   Document order: an element's own paragraphs come right after those of
   everything before it, and are followed by the paragraphs of the matching
   elements nested inside it (a list nested in a list item, a `p` inside an
   `li`), which are emitted again on their own, and then by those of
   everything after it.
   */
  lemma BlocksPreOrder(before: seq<Node>, tag: string, children: seq<Node>, after: seq<Node>)
    ensures Blocks(before + [Elem(tag, children)] + after)
         == Blocks(before) + BlockOf(Elem(tag, children)) + Blocks(children) + Blocks(after)
  {
    var e := Elem(tag, children);
    FindAllPreOrder(before, tag, children, after, ALLOW_LIST);
    var own := if tag in ALLOW_LIST then [e] else [];
    BlocksOfAppend(FindAll(before, ALLOW_LIST) + own + FindAll(children, ALLOW_LIST), FindAll(after, ALLOW_LIST));
    BlocksOfAppend(FindAll(before, ALLOW_LIST) + own, FindAll(children, ALLOW_LIST));
    BlocksOfAppend(FindAll(before, ALLOW_LIST), own);
    assert BlocksOf(own) == BlockOf(e) by {
      if tag in ALLOW_LIST {
        assert own[..0] == [];
      }
    }
  }

  /** A single top-level node converts to its own block followed by the blocks of what lies inside it. */
  lemma SingleNodeBlocks(n: Node)
    ensures Blocks([n]) == BlockOf(n) + Blocks(ChildrenOf(n))
  {
    if n.Text? {
      TextNodeBlocks(n);
    } else {
      ElemNodeBlocks(n);
    }
  }

  lemma TextNodeBlocks(n: Node)
    requires n.Text?
    ensures Blocks([n]) == [] && BlockOf(n) == [] && Blocks(ChildrenOf(n)) == []
  {
    assert [n][..0] == [];
    assert FindAll([n], ALLOW_LIST) == [];
  }

  lemma ElemNodeBlocks(e: Node)
    requires e.Elem?
    ensures Blocks([e]) == BlockOf(e) + Blocks(e.children)
  {
    var none := Blocks([]);
    assert Blocks([e]) == none + BlockOf(e) + Blocks(e.children) + none by {
      BlocksPreOrder([], e.tag, e.children, []);
      assert [] + [e] + [] == [e];
    }
    NoNodesNoBlocks();
    DropEmptyEnds(BlockOf(e), Blocks(e.children));
  }

  /** Empty ends of a concatenation drop out; a generic helper for the same reason as `ConcatAssociative`. */
  lemma DropEmptyEnds<T>(x: seq<T>, y: seq<T>)
    ensures [] + x + y + [] == x + y
  {
  }

  lemma NoNodesNoBlocks()
    ensures Blocks([]) == []
  {
  }

  /** Text nodes alone add no paragraph. */
  lemma {:induction false} TextOnlyBlocks(forest: seq<Node>)
    requires forall n :: n in forest ==> n.Text?
    ensures Blocks(forest) == []
    decreases |forest|
  {
    if forest != [] {
      var init := forest[..|forest| - 1];
      var last := forest[|forest| - 1];
      assert forest == init + [last];
      TextOnlyBlocks(init);
      BlocksAppend(init, [last]);
      SingleNodeBlocks(last);
      assert last.Text?;
      assert BlockOf(last) == [] && ChildrenOf(last) == [];
      assert Blocks([]) == [];
    }
  }
}
