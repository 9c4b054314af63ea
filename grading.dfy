/** The grading run without its input and output: both evaluators, then the total. */
module Grading {
  import opened Tree
  import opened Stylesheet
  import opened Rubric
  import opened HtmlCheck
  import opened CssCheck

  /** The most a submission can score. */
  const FullScore := 100

  /** `main` after reading the two files: grades the document and the stylesheet and adds
      the two scores. The total never exceeds 100 and reaches it exactly when neither
      evaluator has any feedback. */
  method Grade(doc: Element, rules: seq<Rule>, studentName: string)
    returns (total: nat, htmlFeedback: seq<string>, cssFeedback: seq<string>)
    ensures total == Total(HtmlMarks(doc, studentName)) + Total(CssMarks(rules))
    ensures htmlFeedback == Notes(HtmlMarks(doc, studentName))
    ensures cssFeedback == Notes(CssMarks(rules))
    ensures total <= FullScore
    ensures total == FullScore <==> htmlFeedback == [] && cssFeedback == []
  {
    var htmlScore, cssScore;
    htmlScore, htmlFeedback := CheckHtml(doc, studentName);
    cssScore, cssFeedback := CheckCss(rules);
    total := htmlScore + cssScore;
  }
}
