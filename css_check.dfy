/** The CSS half of the rubric (44 points): four items checked in a fixed order over the
    parsed rule list, each awarding full, partial or no credit and, unless it awards full
    credit, one feedback string. Every declaration test is a substring test on the parser's
    serialisation of the block, so spelling, spacing and quoting must match exactly. */
module CssCheck {
  import opened Wrappers
  import opened Text
  import opened Stylesheet
  import opened Rubric

  const FontUrl := "https://fonts.googleapis.com/css?family=Reddit+Mono"
  const UniversalSelector := "*"
  const UniversalFont := "font-family: \"Reddit Mono\""
  const TituloSelector := "#titulo"
  const TituloDeclarations: seq<string> :=
    ["font-family: \"Segoe UI\", sans-serif", "font-size: 1.1rem", "color: #53F072"]
  const ImagenSelector := ".imagen"
  const ImagenDeclarations: seq<string> :=
    ["margin: 0.2px 1.2rem", "padding: 0 25%", "border: 1px blue double", "background-color: #E2F3DF"]

  /** The most the CSS items can award together. */
  const CssFull := 44

  // The feedback strings, one per way an item can fall short.
  const FontImportMissing := "Falta importar la fuente Reddit Mono"
  const UniversalMissing := "Falta el selector universal con la propiedad de fuente"
  const TituloIncomplete := "Estilos del #titulo incompletos"
  const TituloMissing := "Falta el selector de identificación para #titulo"
  const ImagenIncomplete := "Propiedades de la imagen incompletas"
  const ImagenMissing := "Falta el selector de clase para .imagen"

  /** Some import rule's URL contains the Reddit Mono font address; only the import rules
      of the stylesheet are looked at. */
  predicate ImportsFont(rules: seq<Rule>)
    ensures ImportsFont(rules) <==> exists r :: r in ImportRules(rules) && Contains(r.href, FontUrl)
  {
    exists r :: r in rules && r.Import? && Contains(r.href, FontUrl)
  }

  /** Some style rule has the selector `*` and sets the Reddit Mono font: any of the rules
      for `*` will do, not only the first. */
  predicate UniversalFontRule(styles: seq<Rule>)
    ensures UniversalFontRule(styles) <==>
      exists r :: r in WithSelector(styles, UniversalSelector) && Contains(r.cssText, UniversalFont)
  {
    exists r :: r in styles && r.Style? && r.selectorText == UniversalSelector
      && Contains(r.cssText, UniversalFont)
  }

  /** Every one of `required` occurs in the serialised declaration block `css`; so an empty
      list is declared by any block, and no block shorter than one of the declarations
      declares the list. */
  predicate Declares(css: string, required: seq<string>)
    ensures required == [] ==> Declares(css, required)
    ensures Declares(css, required) ==> forall p :: p in required ==> |p| <= |css|
  {
    forall p :: p in required ==> Contains(css, p)
  }

  /** Item 1, font import: 5 when some import rule brings in Reddit Mono. */
  function ImportMark(rules: seq<Rule>): (m: Mark)
    ensures Fair(m) && m.full == 5 && m.points in {0, 5}
  {
    if ImportsFont(rules) then Mark(5, 5, None) else Mark(0, 5, Some(FontImportMissing))
  }

  /** Item 2, universal selector: 9 when some style rule `*` sets the font. */
  function UniversalMark(rules: seq<Rule>): (m: Mark)
    ensures Fair(m) && m.full == 9 && m.points in {0, 9}
  {
    if UniversalFontRule(StyleRules(rules)) then Mark(9, 9, None)
    else Mark(0, 9, Some(UniversalMissing))
  }

  /** Items 3 and 4, a selector with required declarations: only the first style rule whose
      selector text is exactly `selector` is read; 15 when its block contains every required
      declaration, 10 when it lacks one, 0 when there is no such rule. */
  function SelectorMark(rules: seq<Rule>, selector: string, required: seq<string>,
                        incomplete: string, missing: string): (m: Mark)
    ensures Fair(m) && m.full == 15 && m.points in {0, 10, 15}
    ensures m.points == 0 <==> WithSelector(StyleRules(rules), selector) == []
    ensures m.points == 15 <==> var matching := WithSelector(StyleRules(rules), selector);
      matching != [] && Declares(matching[0].cssText, required)
  {
    var matching := WithSelector(StyleRules(rules), selector);
    if matching != [] then
      if Declares(matching[0].cssText, required) then Mark(15, 15, None)
      else Mark(10, 15, Some(incomplete))
    else Mark(0, 15, Some(missing))
  }

  /** Item 3, the `#titulo` rule: 15 when the first `#titulo` rule has the font family,
      size and colour, 10 when it lacks one, 0 when there is none. */
  function TituloMark(rules: seq<Rule>): (m: Mark)
    ensures Fair(m) && m.full == 15 && m.points in {0, 10, 15}
    ensures m.points == 0 <==> m.note == Some(TituloMissing)
    ensures m.points == 0 <==> WithSelector(StyleRules(rules), TituloSelector) == []
    ensures m.points == 15 <==> var matching := WithSelector(StyleRules(rules), TituloSelector);
      matching != [] && Declares(matching[0].cssText, TituloDeclarations)
  {
    SelectorMark(rules, TituloSelector, TituloDeclarations, TituloIncomplete, TituloMissing)
  }

  /** Item 4, the `.imagen` rule: 15 when the first `.imagen` rule has the margin, padding,
      border and background colour, 10 when it lacks one, 0 when there is none. */
  function ImagenMark(rules: seq<Rule>): (m: Mark)
    ensures Fair(m) && m.full == 15 && m.points in {0, 10, 15}
    ensures m.points == 0 <==> m.note == Some(ImagenMissing)
    ensures m.points == 0 <==> WithSelector(StyleRules(rules), ImagenSelector) == []
    ensures m.points == 15 <==> var matching := WithSelector(StyleRules(rules), ImagenSelector);
      matching != [] && Declares(matching[0].cssText, ImagenDeclarations)
  {
    SelectorMark(rules, ImagenSelector, ImagenDeclarations, ImagenIncomplete, ImagenMissing)
  }

  /** The four items in the order the evaluator checks them. */
  function CssMarks(rules: seq<Rule>): (ms: seq<Mark>)
    ensures |ms| == 4
    ensures forall m :: m in ms ==> Fair(m)
  {
    [ImportMark(rules), UniversalMark(rules), TituloMark(rules), ImagenMark(rules)]
  }

  /** The score is the sum of the four items' points and the feedback their notes, in order. */
  lemma CssMarksAddUp(rules: seq<Rule>)
    ensures Total(CssMarks(rules)) == ImportMark(rules).points + UniversalMark(rules).points
                                    + TituloMark(rules).points + ImagenMark(rules).points
    ensures Notes(CssMarks(rules)) == NoteOf(ImportMark(rules)) + NoteOf(UniversalMark(rules))
                                    + NoteOf(TituloMark(rules)) + NoteOf(ImagenMark(rules))
  {
    Unroll4(CssMarks(rules));
  }

  /** Every stylesheet earns between 0 and 44 points; 44 exactly when there is no feedback;
      and there are at most four feedback strings. */
  lemma CssScoreBounds(rules: seq<Rule>)
    ensures Total(CssMarks(rules)) <= CssFull
    ensures Total(CssMarks(rules)) == CssFull <==> Notes(CssMarks(rules)) == []
    ensures |Notes(CssMarks(rules))| <= 4
  {
    Unroll4(CssMarks(rules));
    FairItemsAddUp(CssMarks(rules));
  }

  /** Style rules added after the first rule for a selector do not change that selector's
      item, whatever their declarations. */
  lemma LaterRulesIgnored(rules: seq<Rule>, later: seq<Rule>, selector: string,
                          required: seq<string>, incomplete: string, missing: string)
    requires WithSelector(StyleRules(rules), selector) != []
    ensures SelectorMark(rules + later, selector, required, incomplete, missing)
         == SelectorMark(rules, selector, required, incomplete, missing)
  {
    FirstWithSelectorStable(rules, later, selector);
  }

  /** The import item reads only import rules: two stylesheets with the same import rules
      score it alike. */
  lemma OnlyImportsCount(a: seq<Rule>, b: seq<Rule>)
    requires ImportRules(a) == ImportRules(b)
    ensures ImportMark(a) == ImportMark(b)
  {
  }

  /** The other three items read only style rules: two stylesheets with the same style
      rules, in the same order, score them alike. This holds by construction, since each of
      the three items is computed from the style listing alone. */
  lemma OnlyStylesCount(a: seq<Rule>, b: seq<Rule>)
    requires StyleRules(a) == StyleRules(b)
    ensures UniversalMark(a) == UniversalMark(b)
    ensures TituloMark(a) == TituloMark(b) && ImagenMark(a) == ImagenMark(b)
  {
  }

  /** Rules of any other kind change nothing: inserting one anywhere leaves every item as
      it was. */
  lemma OtherRulesIgnored(a: seq<Rule>, b: seq<Rule>)
    ensures CssMarks(a + [Other] + b) == CssMarks(a + b)
  {
    OtherDropped(a, b);
    OnlyImportsCount(a + [Other] + b, a + b);
    OnlyStylesCount(a + [Other] + b, a + b);
  }

  /** An import rule inserted anywhere, whatever its URL, leaves the three style items as
      they were. */
  lemma ImportIgnoredByStyleItems(a: seq<Rule>, href: string, b: seq<Rule>)
    ensures UniversalMark(a + [Import(href)] + b) == UniversalMark(a + b)
    ensures TituloMark(a + [Import(href)] + b) == TituloMark(a + b)
    ensures ImagenMark(a + [Import(href)] + b) == ImagenMark(a + b)
  {
    NonStyleDropped(a, Import(href), b);
  }

  /** A style rule inserted anywhere, whatever its selector and declarations, leaves the
      font import item as it was. */
  lemma StyleIgnoredByImportItem(a: seq<Rule>, selector: string, css: string, b: seq<Rule>)
    ensures ImportMark(a + [Style(selector, css)] + b) == ImportMark(a + b)
  {
    NonImportDropped(a, Style(selector, css), b);
  }

  /** A stylesheet with the font import and the universal rule, an incomplete `#titulo` rule
      and no `.imagen` rule scores 5 + 9 + 10 + 0 = 24, with exactly those two complaints. */
  lemma IncompleteTituloNoImagen(rules: seq<Rule>)
    requires ImportsFont(rules) && UniversalFontRule(StyleRules(rules))
    requires WithSelector(StyleRules(rules), TituloSelector) != []
    requires !Declares(WithSelector(StyleRules(rules), TituloSelector)[0].cssText, TituloDeclarations)
    requires WithSelector(StyleRules(rules), ImagenSelector) == []
    ensures Total(CssMarks(rules)) == 24
    ensures Notes(CssMarks(rules)) == [TituloIncomplete, ImagenMissing]
  {
    CssMarksAddUp(rules);
  }

  /** Item 1 of `check_css`: scores the font import onto the running score and feedback. */
  method ScoreImport(rules: seq<Rule>, score: nat, feedback: seq<string>)
    returns (score': nat, feedback': seq<string>)
    ensures score' == score + ImportMark(rules).points
    ensures feedback' == feedback + NoteOf(ImportMark(rules))
  {
    score', feedback' := score, feedback;
    var importFound := ImportsFont(rules);
    if importFound {
      score' := score' + 5;
    } else {
      feedback' := feedback' + [FontImportMissing];
    }
  }

  /** Item 2 of `check_css`: the universal selector with the font. */
  method ScoreUniversal(rules: seq<Rule>, score: nat, feedback: seq<string>)
    returns (score': nat, feedback': seq<string>)
    ensures score' == score + UniversalMark(rules).points
    ensures feedback' == feedback + NoteOf(UniversalMark(rules))
  {
    score', feedback' := score, feedback;
    var styles := StyleRules(rules);
    if UniversalFontRule(styles) {
      score' := score' + 9;
    } else {
      feedback' := feedback' + [UniversalMissing];
    }
  }

  /** Items 3 and 4 of `check_css`: the first rule for `selector` and its declarations. */
  method ScoreSelector(rules: seq<Rule>, selector: string, required: seq<string>,
                       incomplete: string, missing: string, score: nat, feedback: seq<string>)
    returns (score': nat, feedback': seq<string>)
    ensures score' == score + SelectorMark(rules, selector, required, incomplete, missing).points
    ensures feedback' == feedback + NoteOf(SelectorMark(rules, selector, required, incomplete, missing))
  {
    score', feedback' := score, feedback;
    var matching := WithSelector(StyleRules(rules), selector);
    if matching != [] {
      if Declares(matching[0].cssText, required) {
        score' := score' + 15;
      } else {
        score' := score' + 10;
        feedback' := feedback' + [incomplete];
      }
    } else {
      feedback' := feedback' + [missing];
    }
  }

  /** `check_css`: runs the four checks in order on a score starting at 0 and an empty
      feedback list. The result is the rubric's sum and list of notes, so it is at most 44,
      exactly 44 when there is no feedback, with at most one feedback string per item. */
  method CheckCss(rules: seq<Rule>) returns (score: nat, feedback: seq<string>)
    ensures score == Total(CssMarks(rules))
    ensures feedback == Notes(CssMarks(rules))
    ensures score <= CssFull && (score == CssFull <==> feedback == []) && |feedback| <= 4
  {
    score, feedback := 0, [];
    score, feedback := ScoreImport(rules, score, feedback);
    assert feedback == NoteOf(ImportMark(rules));
    score, feedback := ScoreUniversal(rules, score, feedback);
    score, feedback := ScoreSelector(rules, TituloSelector, TituloDeclarations,
                                     TituloIncomplete, TituloMissing, score, feedback);
    score, feedback := ScoreSelector(rules, ImagenSelector, ImagenDeclarations,
                                     ImagenIncomplete, ImagenMissing, score, feedback);
    CssMarksAddUp(rules);
    CssScoreBounds(rules);
  }
}
