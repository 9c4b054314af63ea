/** The HTML half of the rubric (56 points): eight items checked in a fixed order over the
    parsed document, each awarding full, partial or no credit and, unless it awards full
    credit, one feedback string. */
module HtmlCheck {
  import opened Wrappers
  import opened Text
  import opened Tree
  import opened Rubric

  const StylesheetPath := "stylesheets/estilo.css"
  const ExpectedSubtitles: seq<string> := ["T01", "T02", "T03", "T04"]
  const FooterCourse := "P02 - PAO I 2024"
  const PearsAlt := "How to Grow and Care for 'Bosc' Pears"

  /** The most the HTML items can award together. */
  const HtmlFull := 56

  // The feedback strings, one per way an item can fall short.
  const TitleWrong := "Título de página incorrecto"
  const TitleMissing := "Falta el título de página"
  const AuthorWrong := "Etiqueta de autor incorrecta"
  const AuthorMissing := "Falta la etiqueta de autor"
  const LinkMissing := "Falta la referencia al archivo CSS"
  const HeadingWrong := "Falta o es incorrecto el título de primer nivel"
  const SubtitlesWrong := "Secciones presentes pero con subtítulos incorrectos"
  const SectionsWrong := "Faltan secciones o están mal estructuradas"
  const NavIncomplete := "Panel de navegación incompleto"
  const NavMissing := "Falta el panel de navegación o está mal estructurado"
  const FooterWrong := "Falta el pie de página o es incorrecto"
  const ImageOutsideContainer := "Imagen presente pero no dentro de un contenedor"
  const ImageMissing := "Falta la imagen en la sección T01 o tiene un texto alternativo incorrecto"
  const SectionT01Missing := "Falta la sección T01"

  /** Item 1, page title: 7 when the first `title` element's single string is the student's
      name, 5 when there is a title with anything else, 0 without one. */
  function TitleMark(doc: Element, studentName: string): (m: Mark)
    ensures Fair(m) && m.full == 7 && m.points in {0, 5, 7}
    ensures m.points == 0 <==> Find(Root(doc), Tag("title")).None?
  {
    var title := Find(Root(doc), Tag("title"));
    if title.Some? && title.value.node.str == Some(studentName) then Mark(7, 7, None)
    else if title.Some? then Mark(5, 7, Some(TitleWrong))
    else Mark(0, 7, Some(TitleMissing))
  }

  /** Item 2, author metadata: 7 when the first `meta name="author"` has the student's name
      as its `content`, 5 when it has another or no `content`, 0 without one. */
  function AuthorMark(doc: Element, studentName: string): (m: Mark)
    ensures Fair(m) && m.full == 7 && m.points in {0, 5, 7}
    ensures m.points == 0 <==> Find(Root(doc), Query("meta", map["name" := "author"])).None?
  {
    var author := Find(Root(doc), Query("meta", map["name" := "author"]));
    if author.Some? && "content" in author.value.node.attrs
       && author.value.node.attrs["content"] == studentName
    then Mark(7, 7, None)
    else if author.Some? then Mark(5, 7, Some(AuthorWrong))
    else Mark(0, 7, Some(AuthorMissing))
  }

  /** Item 3, stylesheet link: 6 when some `link` has exactly the expected `href`. */
  function LinkMark(doc: Element): (m: Mark)
    ensures Fair(m) && m.full == 6 && m.points in {0, 6}
    ensures m.points == 6 <==> FindAll(Root(doc), Query("link", map["href" := StylesheetPath])) != []
  {
    var link := Find(Root(doc), Query("link", map["href" := StylesheetPath]));
    if link.Some? then Mark(6, 6, None)
    else Mark(0, 6, Some(LinkMissing))
  }

  /** Item 4, top-level heading: 3 when the first `h1`'s text is exactly the student's name. */
  function HeadingMark(doc: Element, studentName: string): (m: Mark)
    ensures Fair(m) && m.full == 3 && m.points in {0, 3}
  {
    var h1 := Find(Root(doc), Tag("h1"));
    if h1.Some? && h1.value.node.text == studentName then Mark(3, 3, None)
    else Mark(0, 3, Some(HeadingWrong))
  }

  /** A section is subtitled when its first `h2` reads one of T01 to T04: the same verdict
      whether that `h2` is taken from `find` or as the first result of `find_all`. */
  predicate Subtitled(section: Hit)
    ensures Subtitled(section) <==> FirstSubtitleExpected(section)
  {
    var h2 := Find(section, Tag("h2"));
    h2.Some? && h2.value.node.text in ExpectedSubtitles
  }

  /** Item 5, sections: 10 for exactly four sections that are all subtitled, 7 for exactly
      four otherwise, 0 for any other number of sections. */
  function SectionsMark(doc: Element): (m: Mark)
    ensures Fair(m) && m.full == 10 && m.points in {0, 7, 10}
  {
    var sections := FindAll(Root(doc), Tag("section"));
    if |sections| == 4 && forall s :: s in sections ==> Subtitled(s) then Mark(10, 10, None)
    else if |sections| == 4 then Mark(7, 10, Some(SubtitlesWrong))
    else Mark(0, 10, Some(SectionsWrong))
  }

  /** Item 6, navigation: 10 when the first `nav` holds a `ul` and exactly four `a`
      elements, 8 when it holds a `ul` and any other number of links, 0 otherwise. */
  function NavMark(doc: Element): (m: Mark)
    ensures Fair(m) && m.full == 10 && m.points in {0, 8, 10}
  {
    var nav := Find(Root(doc), Tag("nav"));
    if nav.Some? && Find(nav.value, Tag("ul")).Some? && |FindAll(nav.value, Tag("a"))| == 4
    then Mark(10, 10, None)
    else if nav.Some? && Find(nav.value, Tag("ul")).Some?
    then Mark(8, 10, Some(NavIncomplete))
    else Mark(0, 10, Some(NavMissing))
  }

  /** Item 7, footer: 3 when the first `footer`'s text contains the course tag. */
  function FooterMark(doc: Element): (m: Mark)
    ensures Fair(m) && m.full == 3 && m.points in {0, 3}
  {
    var footer := Find(Root(doc), Tag("footer"));
    if footer.Some? && Contains(footer.value.node.text, FooterCourse) then Mark(3, 3, None)
    else Mark(0, 3, Some(FooterWrong))
  }

  /** Item 8, image in section T01: inside the first `section id="T01"`, the first `img`
      with the exact alternative text earns 10 when some ancestor of it is a `div` and 7 when
      none is; a missing image and a missing section earn 0, each with its own feedback. */
  function ImageMark(doc: Element): (m: Mark)
    ensures Fair(m) && m.full == 10 && m.points in {0, 7, 10}
  {
    var t01 := Find(Root(doc), Query("section", map["id" := "T01"]));
    if t01.Some? then
      var img := Find(t01.value, Query("img", map["alt" := PearsAlt]));
      if img.Some? && FindParent(img.value, "div").Some? then Mark(10, 10, None)
      else if img.Some? then Mark(7, 10, Some(ImageOutsideContainer))
      else Mark(0, 10, Some(ImageMissing))
    else Mark(0, 10, Some(SectionT01Missing))
  }

  /** The eight items in the order the evaluator checks them. */
  function HtmlMarks(doc: Element, studentName: string): (ms: seq<Mark>)
    ensures |ms| == 8
    ensures forall m :: m in ms ==> Fair(m)
  {
    [ TitleMark(doc, studentName), AuthorMark(doc, studentName), LinkMark(doc),
      HeadingMark(doc, studentName), SectionsMark(doc), NavMark(doc), FooterMark(doc),
      ImageMark(doc) ]
  }

  /** The score is the sum of the eight items' points and the feedback their notes, in
      item order. */
  lemma HtmlMarksAddUp(doc: Element, studentName: string)
    ensures Total(HtmlMarks(doc, studentName))
         == TitleMark(doc, studentName).points + AuthorMark(doc, studentName).points + LinkMark(doc).points + HeadingMark(doc, studentName).points
                + SectionsMark(doc).points + NavMark(doc).points + FooterMark(doc).points + ImageMark(doc).points
    ensures Notes(HtmlMarks(doc, studentName))
         == NoteOf(TitleMark(doc, studentName)) + NoteOf(AuthorMark(doc, studentName)) + NoteOf(LinkMark(doc)) + NoteOf(HeadingMark(doc, studentName))
                  + NoteOf(SectionsMark(doc)) + NoteOf(NavMark(doc)) + NoteOf(FooterMark(doc)) + NoteOf(ImageMark(doc))
  {
    Unroll8(HtmlMarks(doc, studentName));
  }

  /** Every document earns between 0 and 56 points; 56 exactly when there is no feedback;
      and there are at most eight feedback strings. */
  lemma HtmlScoreBounds(doc: Element, studentName: string)
    ensures Total(HtmlMarks(doc, studentName)) <= HtmlFull
    ensures Total(HtmlMarks(doc, studentName)) == HtmlFull <==> Notes(HtmlMarks(doc, studentName)) == []
    ensures |Notes(HtmlMarks(doc, studentName))| <= 8
  {
    Unroll8(HtmlMarks(doc, studentName));
    FairItemsAddUp(HtmlMarks(doc, studentName));
  }

  /** The first `h2` below a section, read through `find_all`, is one of T01 to T04. */
  predicate FirstSubtitleExpected(section: Hit) {
    var h2s := FindAll(section, Tag("h2"));
    h2s != [] && h2s[0].node.text in ExpectedSubtitles
  }

  /** Sections score 10 exactly when there are four sections and each one's first `h2`
      reads T01, T02, T03 or T04; 7 exactly when there are four and that fails; 0 exactly
      when the count is not four. */
  lemma SectionsCases(doc: Element)
    ensures var sections := FindAll(Root(doc), Tag("section"));
      && (SectionsMark(doc).points == 10 <==>
            |sections| == 4 && forall s :: s in sections ==> FirstSubtitleExpected(s))
      && (SectionsMark(doc).points == 7 <==>
            |sections| == 4 && exists s :: s in sections && !FirstSubtitleExpected(s))
      && (SectionsMark(doc).points == 0 <==> |sections| != 4)
  {
  }

  /** Subtitles are checked one section at a time, never against each other: four sections
      all subtitled T01 earn full credit. */
  lemma RepeatedSubtitlesAccepted(doc: Element)
    requires |FindAll(Root(doc), Tag("section"))| == 4
    requires forall s :: s in FindAll(Root(doc), Tag("section")) ==>
      FindAll(s, Tag("h2")) != [] && FindAll(s, Tag("h2"))[0].node.text == "T01"
    ensures SectionsMark(doc).points == 10
  {
    SectionsCases(doc);
  }

  /** Navigation scores 10 exactly when the first `nav` has a `ul` below it and exactly four
      `a` elements; 8 exactly when it has a `ul` but another number of links; 0 exactly when
      there is no `nav` or no `ul` in it. */
  lemma NavCases(doc: Element)
    ensures var navs := FindAll(Root(doc), Tag("nav"));
      && (NavMark(doc).points == 10 <==>
            navs != [] && FindAll(navs[0], Tag("ul")) != [] && |FindAll(navs[0], Tag("a"))| == 4)
      && (NavMark(doc).points == 8 <==>
            navs != [] && FindAll(navs[0], Tag("ul")) != [] && |FindAll(navs[0], Tag("a"))| != 4)
      && (NavMark(doc).points == 0 <==> navs == [] || FindAll(navs[0], Tag("ul")) == [])
  {
  }

  /** The T01 image: with no `section id="T01"` the one feedback is that the section is
      missing; inside the first such section, no matching image gives the other, distinct
      message; a matching image earns 10 exactly when some ancestor of it is a `div`, and 7
      exactly when none is. */
  lemma ImageCases(doc: Element)
    ensures var t01s := FindAll(Root(doc), Query("section", map["id" := "T01"]));
      && (ImageMark(doc).note == Some(SectionT01Missing) <==> t01s == [])
      && (t01s != [] ==>
            var imgs := FindAll(t01s[0], Query("img", map["alt" := PearsAlt]));
            && (ImageMark(doc).note == Some(ImageMissing) <==> imgs == [])
            && (ImageMark(doc).points == 10 <==>
                  imgs != [] && exists a :: a in imgs[0].ancestors && a.tag == "div")
            && (ImageMark(doc).points == 7 <==>
                  imgs != [] && forall a :: a in imgs[0].ancestors ==> a.tag != "div"))
  {
    assert SectionT01Missing != ImageMissing by {
      assert |SectionT01Missing| != |ImageMissing|;
    }
  }

  /** The `div` around the T01 image need not be inside the section: a `div` enclosing the
      section itself already earns full credit, because the ancestors of anything found in
      the section run through the section's own ancestors. */
  lemma DivAroundSectionCounts(doc: Element)
    requires Find(Root(doc), Query("section", map["id" := "T01"])).Some?
    requires var t01 := Find(Root(doc), Query("section", map["id" := "T01"])).value;
      && Find(t01, Query("img", map["alt" := PearsAlt])).Some?
      && exists a :: a in t01.ancestors && a.tag == "div"
    ensures ImageMark(doc).points == 10
  {
    var t01 := Find(Root(doc), Query("section", map["id" := "T01"])).value;
    var img := Find(t01, Query("img", map["alt" := PearsAlt])).value;
    assert Lineage(Root(doc).ancestors + [doc]);
    FindLineage(Root(doc), Query("section", map["id" := "T01"]));
    FindLineage(t01, Query("img", map["alt" := PearsAlt]));
    var a :| a in t01.ancestors && a.tag == "div";
    assert a in img.ancestors by {
      assert t01.ancestors <= t01.ancestors + [t01.node] <= img.ancestors;
    }
  }

  /** A page that satisfies every item except that it has no title scores 49, and its
      only feedback is that the title is missing. */
  lemma MissingTitleOnly(doc: Element, studentName: string)
    requires Find(Root(doc), Tag("title")).None?
    requires AuthorMark(doc, studentName).points == 7 && LinkMark(doc).points == 6
    requires HeadingMark(doc, studentName).points == 3 && SectionsMark(doc).points == 10
    requires NavMark(doc).points == 10 && FooterMark(doc).points == 3 && ImageMark(doc).points == 10
    ensures Total(HtmlMarks(doc, studentName)) == 49
    ensures Notes(HtmlMarks(doc, studentName)) == [TitleMissing]
  {
    HtmlMarksAddUp(doc, studentName);
  }

  /** Item 1 of `check_html`: scores the page title onto the running score and feedback. */
  method ScoreTitle(doc: Element, studentName: string, score: nat, feedback: seq<string>)
    returns (score': nat, feedback': seq<string>)
    ensures score' == score + TitleMark(doc, studentName).points
    ensures feedback' == feedback + NoteOf(TitleMark(doc, studentName))
  {
    score', feedback' := score, feedback;
    var title := Find(Root(doc), Tag("title"));
    if title.Some? && title.value.node.str == Some(studentName) {
      score' := score' + 7;
    } else if title.Some? {
      score' := score' + 5;
      feedback' := feedback' + [TitleWrong];
    } else {
      feedback' := feedback' + [TitleMissing];
    }
  }

  /** Item 2 of `check_html`: the author metadata. */
  method ScoreAuthor(doc: Element, studentName: string, score: nat, feedback: seq<string>)
    returns (score': nat, feedback': seq<string>)
    ensures score' == score + AuthorMark(doc, studentName).points
    ensures feedback' == feedback + NoteOf(AuthorMark(doc, studentName))
  {
    score', feedback' := score, feedback;
    var author := Find(Root(doc), Query("meta", map["name" := "author"]));
    if author.Some? && "content" in author.value.node.attrs
       && author.value.node.attrs["content"] == studentName {
      score' := score' + 7;
    } else if author.Some? {
      score' := score' + 5;
      feedback' := feedback' + [AuthorWrong];
    } else {
      feedback' := feedback' + [AuthorMissing];
    }
  }

  /** Item 3 of `check_html`: the stylesheet link. */
  method ScoreLink(doc: Element, score: nat, feedback: seq<string>)
    returns (score': nat, feedback': seq<string>)
    ensures score' == score + LinkMark(doc).points
    ensures feedback' == feedback + NoteOf(LinkMark(doc))
  {
    score', feedback' := score, feedback;
    var cssLink := Find(Root(doc), Query("link", map["href" := StylesheetPath]));
    if cssLink.Some? {
      score' := score' + 6;
    } else {
      feedback' := feedback' + [LinkMissing];
    }
  }

  /** Item 4 of `check_html`: the top-level heading. */
  method ScoreHeading(doc: Element, studentName: string, score: nat, feedback: seq<string>)
    returns (score': nat, feedback': seq<string>)
    ensures score' == score + HeadingMark(doc, studentName).points
    ensures feedback' == feedback + NoteOf(HeadingMark(doc, studentName))
  {
    score', feedback' := score, feedback;
    var h1 := Find(Root(doc), Tag("h1"));
    if h1.Some? && h1.value.node.text == studentName {
      score' := score' + 3;
    } else {
      feedback' := feedback' + [HeadingWrong];
    }
  }

  /** Item 5 of `check_html`: the four subtitled sections. */
  method ScoreSections(doc: Element, score: nat, feedback: seq<string>)
    returns (score': nat, feedback': seq<string>)
    ensures score' == score + SectionsMark(doc).points
    ensures feedback' == feedback + NoteOf(SectionsMark(doc))
  {
    score', feedback' := score, feedback;
    var sections := FindAll(Root(doc), Tag("section"));
    if |sections| == 4 && forall s :: s in sections ==> Subtitled(s) {
      score' := score' + 10;
    } else if |sections| == 4 {
      score' := score' + 7;
      feedback' := feedback' + [SubtitlesWrong];
    } else {
      feedback' := feedback' + [SectionsWrong];
    }
  }

  /** Item 6 of `check_html`: the navigation panel. */
  method ScoreNav(doc: Element, score: nat, feedback: seq<string>)
    returns (score': nat, feedback': seq<string>)
    ensures score' == score + NavMark(doc).points
    ensures feedback' == feedback + NoteOf(NavMark(doc))
  {
    score', feedback' := score, feedback;
    var nav := Find(Root(doc), Tag("nav"));
    if nav.Some? && Find(nav.value, Tag("ul")).Some? && |FindAll(nav.value, Tag("a"))| == 4 {
      score' := score' + 10;
    } else if nav.Some? && Find(nav.value, Tag("ul")).Some? {
      score' := score' + 8;
      feedback' := feedback' + [NavIncomplete];
    } else {
      feedback' := feedback' + [NavMissing];
    }
  }

  /** Item 7 of `check_html`: the footer. */
  method ScoreFooter(doc: Element, score: nat, feedback: seq<string>)
    returns (score': nat, feedback': seq<string>)
    ensures score' == score + FooterMark(doc).points
    ensures feedback' == feedback + NoteOf(FooterMark(doc))
  {
    score', feedback' := score, feedback;
    var footer := Find(Root(doc), Tag("footer"));
    if footer.Some? && Contains(footer.value.node.text, FooterCourse) {
      score' := score' + 3;
    } else {
      feedback' := feedback' + [FooterWrong];
    }
  }

  /** Item 8 of `check_html`: the image in section T01. */
  method ScoreImage(doc: Element, score: nat, feedback: seq<string>)
    returns (score': nat, feedback': seq<string>)
    ensures score' == score + ImageMark(doc).points
    ensures feedback' == feedback + NoteOf(ImageMark(doc))
  {
    score', feedback' := score, feedback;
    var t01 := Find(Root(doc), Query("section", map["id" := "T01"]));
    if t01.Some? {
      var img := Find(t01.value, Query("img", map["alt" := PearsAlt]));
      if img.Some? && FindParent(img.value, "div").Some? {
        score' := score' + 10;
      } else if img.Some? {
        score' := score' + 7;
        feedback' := feedback' + [ImageOutsideContainer];
      } else {
        feedback' := feedback' + [ImageMissing];
      }
    } else {
      feedback' := feedback' + [SectionT01Missing];
    }
  }

  /** `check_html`: runs the eight checks in order on a score starting at 0 and an empty
      feedback list. The result is the rubric's sum and list of notes, so it is at most 56,
      exactly 56 when there is no feedback, with at most one feedback string per item. */
  method CheckHtml(doc: Element, studentName: string) returns (score: nat, feedback: seq<string>)
    ensures score == Total(HtmlMarks(doc, studentName))
    ensures feedback == Notes(HtmlMarks(doc, studentName))
    ensures score <= HtmlFull && (score == HtmlFull <==> feedback == []) && |feedback| <= 8
  {
    score, feedback := 0, [];
    score, feedback := ScoreTitle(doc, studentName, score, feedback);
    assert feedback == NoteOf(TitleMark(doc, studentName));
    score, feedback := ScoreAuthor(doc, studentName, score, feedback);
    score, feedback := ScoreLink(doc, score, feedback);
    score, feedback := ScoreHeading(doc, studentName, score, feedback);
    score, feedback := ScoreSections(doc, score, feedback);
    score, feedback := ScoreNav(doc, score, feedback);
    score, feedback := ScoreFooter(doc, score, feedback);
    score, feedback := ScoreImage(doc, score, feedback);
    HtmlMarksAddUp(doc, studentName);
    HtmlScoreBounds(doc, studentName);
  }
}
