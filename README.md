# ResumeIO: HTML to word-processor conversion, modelled in Dafny

ResumeIO fetches a resume as server-rendered HTML and converts it to PDF and
to a word-processor document. This project models the word-processor
conversion of `ApplicationRunner`:

- the **block walker** `html_to_docx`. It visits every element whose tag is in
  the allow-list (`h1`..`h6`, `p`, `ul`, `ol`, `li`, `strong`, `em`, `u`, `a`),
  in document order. A heading adds a heading paragraph. A `p` adds a plain
  paragraph. A `ul` or `ol` adds one `List Bullet` or `List Number` paragraph
  for each of its direct `li` children.
- the **inline formatter** `_process_text_element`. It fills a paragraph with
  runs taken from an element's children:
  - a text child becomes one unstyled run;
  - `strong`, `em`, `u` and `a` children become one run of their flattened
    text, with bold, italic or underline set (`a` sets underline);
  - any other element child is expanded in place.

The modules:

- `Dom` is the parsed tree (`Node`). It also defines `get_text` (`TextOf`),
  the pre-order `find_all` (`FindAll`), and `find_all(..., recursive=False)`
  (`DirectChildren`).
- `Docx` is the document written into. The `Document` class has a sequence of
  paragraphs, each with a style and runs, and the methods the converter calls
  on it.
- `Converter` has the two converter methods. `ProcessTextElement` and
  `HtmlToDocx` are loops over a mutable `Document`. Each is proved against a
  specification function:
  - `RunsOf` gives the runs appended to a paragraph;
  - `Blocks` gives the paragraphs of the converted document.
- `Properties` proves what those functions promise: pre-order visiting, one
  paragraph per block element, text preservation, single-flag runs, and
  repetition of nested content.
- `Scenarios` works through small documents. These include the two places
  where content appears twice.

`HtmlToDocx` returns the list of paragraphs of the finished document, and
that list is a function of the input tree. Converting the same tree twice
therefore gives the same document.

Two behaviours of `app.py` are not what a reader of the loop might expect.
Both are modelled as written:

- **Nested content is emitted twice.** `find_all` visits every matching
  descendant. The inline formatter also expands every unformatted element in
  place. So `<ul><li>x<ul><li>y</li></ul></li></ul>` gives a bullet
  paragraph `x`,`y` and then a second bullet paragraph `y`. Likewise,
  `<ul><li><p>t</p></li></ul>` gives a bullet paragraph `t` and then a plain
  paragraph `t`.
- **No fault isolation per element.** An exception anywhere in `html_to_docx`
  abandons the whole conversion and returns `None` (app.py:85-87). An
  exception in `_process_text_element` drops the remaining children of that
  element (app.py:116-117). Such exceptions do occur: `add_run` rejects text
  holding a character XML does not allow (a control character such as
  U+000B, which the parser passes through), and very deep nesting of
  unformatted elements exceeds Python's recursion limit. The model assumes
  neither happens and therefore has no error path; see "## Left out".

## Model

| member | source | states |
|---|---|---|
| Dom.FindAll | app.py:59 | every node returned is an element whose tag is asked for |
| Dom.FindAllFrom | app.py:59 | the matches in one subtree, root first; all of them are elements with a tag asked for |
| Dom.DirectChildren | app.py:74 | the `li` children of a list: at most as many as there are children; each is an element child with that tag; every such child is included; `DirectChildrenAppend` and `DirectChildrenOne` fix their order and number |
| Dom.TextOf | app.py:98 | `get_text` of a node; `NodeRunsSpellText` states that a child's runs spell it out |
| Dom.TextOfAll | app.py:98-110 | the flattened text of sibling nodes, in order; `RunsSpellText` states that an element's runs spell it out |
| Docx.AppendRuns | app.py:95 | appending runs to paragraph `p` keeps every paragraph's style and the other paragraphs unchanged; `p` keeps its old runs as a prefix and gets the new runs as suffix |
| Docx.AppendNoRuns | app.py:92 | appending no runs changes nothing |
| Docx.AppendRunsTwice | app.py:92-115 | appending two batches of runs equals appending their concatenation |
| Docx.ReplaceAppendedRun | app.py:98-111 | setting a flag on the run just added equals adding the styled run directly |
| Docx.AppendToNewParagraph | app.py:63-64 | filling a just-added empty paragraph gives that paragraph exactly the appended runs |
| Docx.Document.constructor | app.py:55 | a new document has no paragraphs |
| Docx.Document.AddHeading | app.py:63 | adds one last, empty paragraph in the heading style of the level; returns its position |
| Docx.Document.AddParagraph | app.py:68 | adds one last, empty paragraph in the given style; returns its position |
| Docx.Document.AddRun | app.py:95 | appends one unstyled run of the text to paragraph `p` and nothing else; returns the run's position |
| Docx.Document.SetBold | app.py:99 | sets bold on exactly one run; nothing else changes |
| Docx.Document.SetItalic | app.py:103 | sets italic on exactly one run; nothing else changes |
| Docx.Document.SetUnderline | app.py:107 | sets underline on exactly one run; nothing else changes |
| Converter.RunsOfNode | app.py:93-115 | the runs one child adds, by kind; `ChildRuns` states each kind's contribution and `NodeRunsSpellText`/`NodeRunsSingleStyle` its text and flags |
| Converter.RunsOf | app.py:92-115 | the runs for a sequence of children, in child order; `RunsOfAppend`, `RunsSpellText` and `RunsSingleStyle` state its promises and `ProcessTextElement` is proved to append exactly these runs |
| Converter.ListItems | app.py:74-78 | the list paragraphs for the items; `ListItemsAt` states one paragraph per item, in order and in the list style |
| Converter.BlockOf | app.py:60-78 | the paragraphs one visited element adds; `HeadingBlock`, `ParagraphBlock`, `ListBlock` and `InlineTagBlock` state them tag by tag |
| Converter.BlocksOf | app.py:59-78 | the paragraphs for the visited elements, in visiting order; `BlocksOfAppend` states that it splits over concatenation |
| Converter.Blocks | app.py:52-79 | the paragraphs of the converted document; `BlocksPreOrder` and `BlocksAppend` state its document order, and `HtmlToDocx` is proved to produce it |
| Converter.HeadingLevel | app.py:60-62 | the level read from an allow-listed tag starting with `h` is between 1 and 6 and is the digit of the tag |
| Converter.ProcessTextElement | app.py:89-115 | appends exactly the runs `RunsOf` gives for the element's children to paragraph `p`, and changes nothing else in the document |
| Converter.AddListItems | app.py:74-78 | adds one paragraph per item, in item order, in the list style, each filled with that item's runs |
| Converter.AddBlock | app.py:60-78 | one visited element adds exactly its block: a heading, a plain paragraph, or the list paragraphs |
| Converter.HtmlToDocx | app.py:52-79 | the resulting paragraphs are `Blocks` of the input: each allow-listed element's block, in document order |
| Properties.FindAllAppend | app.py:59 | searching two runs of top-level nodes returns the first run's matches, then the second's |
| Properties.DirectChildrenAppend | app.py:74 | the direct `li` children of two runs of children are the first run's, then the second's, in child order |
| Properties.DirectChildrenOne | app.py:74 | a single child is returned exactly once when it is an `li` element and not at all otherwise, so with `DirectChildrenAppend` each `li` child, equal ones included, gives exactly one item in child order |
| Properties.FindAllPreOrder | app.py:59 | pre-order: the matches before an element, then the element when it matches, then the matches inside it, then the matches after it |
| Properties.FindAllFromExactly | app.py:59 | a node is among a subtree's matches iff it matches and occurs in that subtree |
| Properties.FindAllExactly | app.py:59 | a node is visited iff it is an allow-listed element occurring in the document |
| Properties.RunsOfAppend | app.py:92 | the runs for two runs of children are the first's runs, then the second's |
| Properties.ChildRuns | app.py:92-115 | each child adds runs in child order, by kind: a text node adds one unstyled run of its text; `strong`, `em`, `u`/`a` add one run of the flattened text with only bold, only italic or only underline set; any other element adds its own children's runs in place |
| Properties.TextOfRunsAppend | app.py:92-115 | the text of runs laid end to end is the concatenation of their texts |
| Properties.NodeRunsSpellText | app.py:93-115 | a child's runs spell out exactly its flattened text |
| Properties.RunsSpellText | app.py:92-115 | the runs for an element's children spell out exactly the element's flattened text: no text is lost, repeated or invented |
| Properties.NodeRunsSingleStyle | app.py:96-111 | no run made for one child has two style flags set |
| Properties.RunsSingleStyle | app.py:92-115 | no run the inline formatter makes has two style flags set: nested formatting never combines |
| Properties.ListItemsAt | app.py:74-78 | the list adds as many paragraphs as items; the `k`-th paragraph is in the list style and holds the `k`-th item's runs |
| Properties.ListItemsEmpty | app.py:74 | a list with no `li` children adds nothing |
| Properties.HeadingBlock | app.py:60-64 | an `h1`..`h6` element adds exactly one paragraph: a heading whose level (1 to 6) is the tag's digit, with runs that spell out the element's text |
| Properties.ParagraphBlock | app.py:66-69 | a `p` element adds exactly one plain paragraph whose runs spell out its text |
| Properties.ListBlock | app.py:71-78 | a `ul`/`ol` element adds one paragraph per direct `li` child, in order; the style is `List Bullet` exactly when the tag is `ul`; each paragraph's runs spell out its item's text |
| Properties.InlineTagBlock | app.py:59-78 | visiting `li`, `strong`, `em`, `u` or `a` adds no paragraph by itself |
| Properties.BlocksOfAppend | app.py:59 | the paragraphs for two runs of visited elements are the first's, then the second's |
| Properties.BlocksAppend | app.py:59-78 | converting two runs of top-level nodes gives the first run's paragraphs, then the second's |
| Properties.BlocksPreOrder | app.py:59-78 | an element's block follows the blocks of everything before it. It is followed by the blocks of the elements nested inside it, which are emitted again, and then by the blocks of everything after it |
| Properties.SingleNodeBlocks | app.py:59-78 | a lone node converts to its own block, then the blocks of what lies inside it |
| Properties.TextNodeBlocks | app.py:59 | a lone text node adds no paragraph |
| Properties.ElemNodeBlocks | app.py:59-78 | a lone element converts to its own block, then the blocks of its descendants |
| Properties.NoNodesNoBlocks | app.py:52-59 | an empty document converts to a document with no paragraphs |
| Properties.TextOnlyBlocks | app.py:59 | a document with only text at the top level gives no paragraphs |
| Scenarios.TwoNodeBlocks | app.py:59-78 | two sibling top-level nodes convert one after the other |
| Scenarios.TwoNodeRuns | app.py:92-115 | two sibling children give their runs in order |
| Scenarios.OneNodeRuns | app.py:92-115 | a lone child gives exactly its own runs |
| Scenarios.LoneTextText | app.py:98 | the flattened text of a lone text node is that text |
| Scenarios.OneItemList | app.py:71-78 | a `ul` with one `li` gives one bullet paragraph holding the item's runs |
| Scenarios.TextItemAddsNothing | app.py:59-78 | an `li` holding only text adds no paragraph when visited itself |
| Scenarios.HeadingAndParagraph | app.py:59-69 | `<h1>Name</h1><p>Hello <strong>World</strong></p>` gives a level-1 heading `Name`, then a paragraph with a plain run `Hello ` (space kept) and a bold run `World` |
| Scenarios.NameHeading | app.py:60-64 | `<h1>Name</h1>` gives one level-1 heading with one plain run |
| Scenarios.HelloWorldParagraph | app.py:66-69 | `<p>Hello <strong>World</strong></p>` gives one plain paragraph with a plain run, then a bold run |
| Scenarios.HelloWorldRuns | app.py:92-99 | the runs of `Hello <strong>World</strong>` are `Hello ` unstyled and `World` bold |
| Scenarios.HelloWorldAddsNothingMore | app.py:59-78 | the `strong` inside the paragraph adds no paragraph of its own |
| Scenarios.TwoItemList | app.py:71-78 | `<ul><li>a</li><li>b</li></ul>` gives exactly two bullet paragraphs, `a` then `b` |
| Scenarios.TwoItemListOwnBlock | app.py:74-78 | the list itself gives one bullet paragraph per item, in order |
| Scenarios.NestedListRepeatsInnerItems | app.py:59-78 | `<ul><li>x<ul><li>y</li></ul></li></ul>` gives a bullet paragraph `x`,`y`, then a second bullet paragraph `y` |
| Scenarios.OuterItemRuns | app.py:113-115 | the outer item's runs include the nested list's text, unstyled and in place |
| Scenarios.OuterItemBlocks | app.py:59-78 | the outer item adds nothing itself; the nested list it contains adds its own paragraph |
| Scenarios.ParagraphInItemRepeats | app.py:59-78 | `<ul><li><p>t</p></li></ul>` gives a bullet paragraph `t`, then a plain paragraph `t` |
| Scenarios.ItemWithParagraphBlocks | app.py:59-69 | the `li` adds nothing itself; the `p` inside it adds a plain paragraph |
| Scenarios.NestedFormattingFlattened | app.py:96-99 | `<p><strong>a<em>b</em></strong></p>` gives one paragraph with a single bold run `ab`; the inner italic is lost |
| Scenarios.StrongRuns | app.py:96-99 | a `strong` holding text and an `em` gives one bold run of all its text |
| Scenarios.StrongAddsNothing | app.py:59-78 | neither `strong` nor the `em` inside it adds a paragraph when visited |

## Left out

- `get_resume_html` (app.py:21-39) is not modelled because it is an HTTP request and JSON decoding.
- `html_to_pdf` (app.py:41-50) is not modelled because it hands the HTML to a third-party PDF renderer.
- HTML parsing (app.py:56) is not modelled.
  - The model's input is the parsed tree, given as its sequence of top-level nodes.
  - Comment, CDATA and doctype nodes are not modelled. The source would add them as plain runs even though `get_text` leaves them out.
- Serialization (app.py:80-84) is not modelled. `doc.save` into a byte buffer is replaced by returning the paragraph list.
- The exception handlers and their logging (app.py:85-87, 116-117) are not modelled, because the model assumes the two faults below never occur.
- Run text is assumed to hold only characters XML allows. For text holding a control character such as U+0001 or U+000B, python-docx's `add_run` raises after creating the run. The handler at app.py:116-117 then leaves that run empty and unstyled in the paragraph and drops the element's remaining children. For `<p>a<strong>x&#11;</strong>b</p>` the source gives `a` and an empty run, where the model gives `a`, a bold `x` with U+000B, and `b`.
- Nesting depth is assumed to stay below Python's recursion limit. The recursive call at app.py:115 fails on deeper nesting, with the same handler behaviour.
- Logging setup and unused imports (app.py:1-12) are not modelled because they have no effect on the conversion.
- Run flags: python-docx distinguishes an unset flag (`None`) from `False`. The model uses `false` for "never set", since the converter only ever sets a flag to `True`.
- Run text is kept as a string. python-docx's translation of tab and newline characters into tab and break elements is not modelled.
- Paragraphs and runs are identified by their position in the document, not by the objects python-docx returns. Aliasing between those objects is not modelled.
- The heading's title text is not modelled. `add_heading('', level)` adds no run for an empty title, and the model starts the heading with no runs.
- The default template's styles and section settings are not modelled. Only paragraph styles by name (`Normal`, `Title`, heading levels, `List Bullet`, `List Number`) are kept.
- Docx.Document.AddHeading: requires `level <= 9`, where python-docx raises an error for a larger level. The converter only passes 1 to 6, so this error path is not modelled.
