# Rubric scoring of a student web page, modelled in Dafny

The program scores a student's HTML page and its stylesheet against a fixed rubric of 100
points. `check_html` awards up to 56 points over eight items (page title, author metadata,
stylesheet link, top-level heading, four subtitled sections, navigation panel, footer, image
in section T01). `check_css` awards up to 44 points over four items (Reddit Mono import,
universal font rule, `#titulo` rule, `.imagen` rule). Each item awards full, partial or no
credit. Unless it awards full credit, it appends exactly one feedback string. `main` adds
the two scores.

The model replaces the two parsers with datatypes:

- `Tree.Element` is one element of the parsed page. It has a tag, an attribute map, `.string`,
  `.text` and its ordered children. `.string` is the element's only string child or, when
  its only child is a tag, that child's `.string`; so `<title><b>N</b></title>` has the
  string "N". It is nothing when the element has no child or several.
- `Tree.Find`, `Tree.FindAll` and `Tree.FindParent` are `find`, `find_all` and `find_parent`.
  Every search result is a `Hit` that carries the element's ancestors up to the document
  root. This lets `find_parent` climb above the element the search started from. The root
  is the parser's top-level object, whose tag is "[document]", so `find_parent('div')` never
  answers with it.
- `Stylesheet.Rule` is an import rule (with its URL), a style rule (with its selector text
  and serialised declarations) or any other rule.
- `Rubric.Mark` is one item's outcome: points awarded, full value, and an optional note.
  `Total` and `Notes` give an evaluator's score and its feedback list.

Each item is a specification function (`TitleMark`, `SelectorMark`, …). `HtmlMarks` and
`CssMarks` list the items in checking order. The evaluators are methods that add points to a
running score and append notes to a feedback list, one item at a time, as the source does.
Their contracts tie the result to the specification functions. The rubric's promises are
proved about those functions:

- each item awards only its listed values;
- the scores stay within 56, 44 and 100;
- full credit holds exactly when there is no feedback;
- `find` is the first result of `find_all`;
- `find_parent` returns the nearest ancestor with the given tag.

Four details of `check_html` shape the model:

- It checks eight items, grouped under six numbered headings (prueba.py:13, 39, 46, 57, 67,
  74); the first heading covers the title, the author metadata and the stylesheet link.
- The title is compared through `.string` (prueba.py:18), not `.text`. A title with several
  child strings therefore gets partial credit even if its text is the student's name.
- Navigation looks for the `ul` only inside the first `nav` (prueba.py:58-61); without a
  `nav` the item scores 0.
- The `div` around the T01 image may be any ancestor of the image (prueba.py:78),
  including one outside the section.

## Model

| member | source | states |
|---|---|---|
| Text.Contains | prueba.py:69 | Python's `sub in s`: the empty string occurs in every string, and nothing longer than `s` occurs in it |
| Text.ContainsIffOccurs | prueba.py:69 | Python's `sub in s` holds exactly when some slice of `s` equals `sub` |
| Tree.Select | prueba.py:47 | the `find_all` filter keeps exactly the hits that match the tag and attributes, in order |
| Tree.FindAll | prueba.py:47 | `find_all` returns exactly the descendants that match the tag and attributes, no more of them than there are descendants |
| Tree.Find | prueba.py:14-16 | `find` returns the first result of `find_all` with the same filter, and nothing exactly when `find_all` finds nothing |
| Tree.FirstInIsFirstOfWalk | prueba.py:15-16 | the depth-first search that stops at the first match returns the first match in document order |
| Tree.LastWithTag | prueba.py:78 | returns the index of an ancestor with the tag such that no later ancestor has it, and nothing exactly when no ancestor has the tag |
| Tree.FindParent | prueba.py:78 | `find_parent` answers with an ancestor carrying the tag, and with nothing exactly when no ancestor carries it |
| Tree.WalkLineage | prueba.py:47 | every element listed in document order carries its real ancestor chain, which extends the chain the search started from |
| Tree.FindAllLineage | prueba.py:77 | results of `find_all` from an element found in the page have ancestor chains that pass through that element up to the root |
| Tree.FindLineage | prueba.py:77-78 | the same for `find`, so `find_parent` on the T01 image climbs past the section |
| Tree.SelectAppend | prueba.py:47 | filtering two runs of hits one after the other gives the two filtered runs joined |
| Stylesheet.StyleRules | prueba.py:106 | the style-rule list holds exactly the style rules of the sheet, in order |
| Stylesheet.ImportRules | prueba.py:96-98 | the import-rule list holds exactly the import rules of the sheet, in order |
| Stylesheet.WithSelector | prueba.py:113 | keeps exactly the style rules whose selector text equals the given one, in order |
| Stylesheet.FirstWithSelectorStable | prueba.py:113-115 | rules added after the first rule for a selector never change which rule is first |
| Stylesheet.NonStyleDropped | prueba.py:106 | inserting a rule that is not a style rule leaves the style-rule list unchanged |
| Stylesheet.NonImportDropped | prueba.py:96-98 | inserting a rule that is not an import rule leaves the import-rule list unchanged |
| Stylesheet.OtherDropped | prueba.py:96-106 | inserting a rule that is neither an import nor a style rule changes neither listing |
| Rubric.FairItemsAddUp | prueba.py:18-86 | if no item awards more than its full value and each emits a note exactly when it falls short, then the score is at most the sum of full values, reaches it exactly when there is no feedback, and there is at most one note per item |
| Rubric.NotesFromShortfalls | prueba.py:18-86 | every feedback string comes from an item that withheld points |
| Rubric.Concat | prueba.py:10-11 | scoring two runs of items one after the other adds their scores and joins their feedback |
| HtmlCheck.TitleMark | prueba.py:18-24 | awards 0, 5 or 7; 7 exactly without a note; 0 exactly when the page has no `title` |
| HtmlCheck.AuthorMark | prueba.py:26-32 | awards 0, 5 or 7; 7 exactly without a note; 0 exactly when there is no `meta name="author"` |
| HtmlCheck.LinkMark | prueba.py:34-37 | awards 0 or 6; 6 exactly when some `link` has `href="stylesheets/estilo.css"` |
| HtmlCheck.HeadingMark | prueba.py:40-44 | awards 0 or 3; 3 exactly without a note |
| HtmlCheck.Subtitled | prueba.py:49 | a section's first `h2` reads T01 to T04, with the same verdict whether it is taken from `find` or from `find_all` |
| HtmlCheck.SectionsMark | prueba.py:47-55 | awards 0, 7 or 10; 10 exactly without a note |
| HtmlCheck.NavMark | prueba.py:58-65 | awards 0, 8 or 10; 10 exactly without a note |
| HtmlCheck.FooterMark | prueba.py:68-72 | awards 0 or 3; 3 exactly without a note |
| HtmlCheck.ImageMark | prueba.py:75-86 | awards 0, 7 or 10; 10 exactly without a note |
| HtmlCheck.HtmlMarks | prueba.py:13-86 | the eight HTML items, in checking order, each of them fair |
| HtmlCheck.HtmlMarksAddUp | prueba.py:10-86 | the HTML score is the sum of the eight items' points, and the feedback is their notes in item order |
| HtmlCheck.HtmlScoreBounds | prueba.py:8-88 | every page scores at most 56, scores 56 exactly when there is no feedback, and gets at most eight feedback strings |
| HtmlCheck.SectionsCases | prueba.py:47-55 | 10 exactly when there are four sections and each one's first `h2` reads T01 to T04; 7 exactly when there are four and that fails; 0 exactly when the count is not four |
| HtmlCheck.RepeatedSubtitlesAccepted | prueba.py:48-50 | four sections all subtitled T01 still earn 10: subtitles are not checked against each other |
| HtmlCheck.NavCases | prueba.py:58-65 | 10 exactly when the first `nav` has a `ul` and exactly four `a`; 8 exactly when it has a `ul` and another number of links; 0 exactly when there is no `nav` or no `ul` |
| HtmlCheck.ImageCases | prueba.py:75-86 | "Falta la sección T01" exactly when there is no T01 section; inside it, the distinct missing-image message exactly when no image has the alt text; 10 exactly when the image has a `div` ancestor; 7 exactly when it has none |
| HtmlCheck.DivAroundSectionCounts | prueba.py:77-79 | a `div` enclosing the T01 section itself earns the image full credit |
| HtmlCheck.MissingTitleOnly | prueba.py:14-24 | a page that is correct except for a missing title scores 49, with "Falta el título de página" as its only feedback |
| HtmlCheck.ScoreTitle | prueba.py:18-24 | adds the title item's points to the running score and appends its note |
| HtmlCheck.ScoreAuthor | prueba.py:26-32 | adds the author item's points and appends its note |
| HtmlCheck.ScoreLink | prueba.py:34-37 | adds the stylesheet-link item's points and appends its note |
| HtmlCheck.ScoreHeading | prueba.py:40-44 | adds the heading item's points and appends its note |
| HtmlCheck.ScoreSections | prueba.py:47-55 | adds the sections item's points and appends its note |
| HtmlCheck.ScoreNav | prueba.py:58-65 | adds the navigation item's points and appends its note |
| HtmlCheck.ScoreFooter | prueba.py:68-72 | adds the footer item's points and appends its note |
| HtmlCheck.ScoreImage | prueba.py:75-86 | adds the T01 image item's points and appends its note |
| HtmlCheck.CheckHtml | prueba.py:8-88 | returns the rubric's HTML score and feedback: at most 56, exactly 56 when the feedback is empty, at most eight strings |
| CssCheck.ImportsFont | prueba.py:96-99 | some import rule's URL contains the Reddit Mono address, looking only at the import rules |
| CssCheck.UniversalFontRule | prueba.py:107 | some style rule for `*` sets the Reddit Mono font, any such rule and not only the first |
| CssCheck.Declares | prueba.py:115-119 | every required declaration occurs in the block: an empty list always holds, and no declaration longer than the block can occur in it |
| CssCheck.ImportMark | prueba.py:96-103 | awards 0 or 5; 5 exactly without a note |
| CssCheck.UniversalMark | prueba.py:106-110 | awards 0 or 9; 9 exactly without a note |
| CssCheck.SelectorMark | prueba.py:113-142 | awards 0, 10 or 15; 0 exactly when no style rule has the selector; 15 exactly when the first rule with the selector has every required declaration |
| CssCheck.TituloMark | prueba.py:113-125 | awards 0, 10 or 15; 0 exactly when there is no `#titulo` rule, with the missing-selector message; 15 exactly when the first `#titulo` rule has all three declarations |
| CssCheck.ImagenMark | prueba.py:128-142 | awards 0, 10 or 15; 0 exactly when there is no `.imagen` rule, with the missing-selector message; 15 exactly when the first `.imagen` rule has all four declarations |
| CssCheck.CssMarks | prueba.py:95-142 | the four CSS items, in checking order, each of them fair |
| CssCheck.CssMarksAddUp | prueba.py:91-142 | the CSS score is the sum of the four items' points, and the feedback is their notes in item order |
| CssCheck.CssScoreBounds | prueba.py:90-144 | every stylesheet scores at most 44, scores 44 exactly when there is no feedback, and gets at most four feedback strings |
| CssCheck.LaterRulesIgnored | prueba.py:128-136 | rules after the first rule for `#titulo` or `.imagen` never change that item |
| CssCheck.OnlyImportsCount | prueba.py:96-99 | two sheets with the same import rules score the import item alike |
| CssCheck.OnlyStylesCount | prueba.py:106-107 | two sheets with the same style rules score the other three items alike |
| CssCheck.ImportIgnoredByStyleItems | prueba.py:106-142 | inserting an import rule anywhere, whatever its URL, leaves the universal, `#titulo` and `.imagen` items unchanged |
| CssCheck.StyleIgnoredByImportItem | prueba.py:96-103 | inserting a style rule anywhere leaves the font import item unchanged |
| CssCheck.OtherRulesIgnored | prueba.py:95-142 | inserting a rule of any other kind anywhere leaves every CSS item unchanged |
| CssCheck.IncompleteTituloNoImagen | prueba.py:112-142 | import and universal rule present, `#titulo` incomplete, no `.imagen`: 24 points, with exactly the `#titulo` and `.imagen` complaints |
| CssCheck.ScoreImport | prueba.py:96-103 | adds the import item's points and appends its note |
| CssCheck.ScoreUniversal | prueba.py:106-110 | adds the universal-rule item's points and appends its note |
| CssCheck.ScoreSelector | prueba.py:113-125 | adds the points of a selector item (`#titulo`, or `.imagen` at lines 128-142) and appends its note |
| CssCheck.CheckCss | prueba.py:90-144 | returns the rubric's CSS score and feedback: at most 44, exactly 44 when the feedback is empty, at most four strings |
| Grading.Grade | prueba.py:153-156 | the total is the HTML score plus the CSS score; it is at most 100, and exactly 100 when both feedback lists are empty |

## Left out

- Parsing the page and the stylesheet (prueba.py:9, 93) is done by external libraries. The
  model takes their output as given datatypes, including `.string`, `.text` and the
  serialised declaration block `cssText`.
- The global configuration of the stylesheet parser's logger and serialiser (prueba.py:5-6).
  It only affects what the parser reports and how it serialises, which the model takes as given.
- Reading the two files, printing the report, and the script's entry point (prueba.py:147-151,
  158-168). These are input and output.
- Tree.Query matches each requested attribute by plain string equality. The parser treats
  multi-valued attributes such as `class` differently; no query in the program uses one.
