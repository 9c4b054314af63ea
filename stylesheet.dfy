/** The parsed stylesheet as the program reads it: an ordered list of rules, each an import
    rule, a style rule, or any other kind, which the program never looks at. */
module Stylesheet {

  /** `Import` carries the imported URL (`href`); `Style` carries the selector text exactly
      as written and the parser's serialisation of the declaration block (`style.cssText`). */
  datatype Rule = Import(href: string) | Style(selectorText: string, cssText: string) | Other

  /** The style rules, in stylesheet order. */
  function StyleRules(rules: seq<Rule>): (r: seq<Rule>)
    ensures |r| <= |rules|
    ensures forall x :: x in r <==> x in rules && x.Style?
  {
    if rules == [] then []
    else if rules[0].Style? then [rules[0]] + StyleRules(rules[1..])
    else StyleRules(rules[1..])
  }

  /** The import rules, in stylesheet order. */
  function ImportRules(rules: seq<Rule>): (r: seq<Rule>)
    ensures |r| <= |rules|
    ensures forall x :: x in r <==> x in rules && x.Import?
  {
    if rules == [] then []
    else if rules[0].Import? then [rules[0]] + ImportRules(rules[1..])
    else ImportRules(rules[1..])
  }

  /** The style rules among `styles` whose selector text is exactly `selector`, in order. */
  function WithSelector(styles: seq<Rule>, selector: string): (r: seq<Rule>)
    ensures |r| <= |styles|
    ensures forall x :: x in r <==> x in styles && x.Style? && x.selectorText == selector
  {
    if styles == [] then []
    else if styles[0].Style? && styles[0].selectorText == selector
    then [styles[0]] + WithSelector(styles[1..], selector)
    else WithSelector(styles[1..], selector)
  }

  lemma {:induction false} StyleRulesAppend(a: seq<Rule>, b: seq<Rule>)
    ensures StyleRules(a + b) == StyleRules(a) + StyleRules(b)
  {
    if a == [] {
      assert a + b == b;
    } else {
      assert (a + b)[0] == a[0];
      assert (a + b)[1..] == a[1..] + b;
      StyleRulesAppend(a[1..], b);
    }
  }

  lemma {:induction false} ImportRulesAppend(a: seq<Rule>, b: seq<Rule>)
    ensures ImportRules(a + b) == ImportRules(a) + ImportRules(b)
  {
    if a == [] {
      assert a + b == b;
    } else {
      assert (a + b)[0] == a[0];
      assert (a + b)[1..] == a[1..] + b;
      ImportRulesAppend(a[1..], b);
    }
  }

  lemma {:induction false} WithSelectorAppend(a: seq<Rule>, b: seq<Rule>, selector: string)
    ensures WithSelector(a + b, selector) == WithSelector(a, selector) + WithSelector(b, selector)
  {
    if a == [] {
      assert a + b == b;
    } else {
      assert (a + b)[0] == a[0];
      assert (a + b)[1..] == a[1..] + b;
      WithSelectorAppend(a[1..], b, selector);
    }
  }

  /** Rules added after a style rule with the given selector never change which such rule
      comes first. */
  lemma FirstWithSelectorStable(rules: seq<Rule>, later: seq<Rule>, selector: string)
    requires WithSelector(StyleRules(rules), selector) != []
    ensures WithSelector(StyleRules(rules + later), selector) != []
    ensures WithSelector(StyleRules(rules + later), selector)[0]
         == WithSelector(StyleRules(rules), selector)[0]
  {
    StyleRulesAppend(rules, later);
    WithSelectorAppend(StyleRules(rules), StyleRules(later), selector);
  }

  /** A rule that is not a style rule, inserted anywhere, leaves the style listing as it was. */
  lemma NonStyleDropped(a: seq<Rule>, r: Rule, b: seq<Rule>)
    requires !r.Style?
    ensures StyleRules(a + [r] + b) == StyleRules(a + b)
  {
    assert StyleRules([r]) == [];
    StyleRulesAppend(a + [r], b);
    StyleRulesAppend(a, [r]);
    StyleRulesAppend(a, b);
    assert StyleRules(a) + [] == StyleRules(a);
  }

  /** A rule that is not an import rule, inserted anywhere, leaves the import listing as it was. */
  lemma NonImportDropped(a: seq<Rule>, r: Rule, b: seq<Rule>)
    requires !r.Import?
    ensures ImportRules(a + [r] + b) == ImportRules(a + b)
  {
    assert ImportRules([r]) == [];
    ImportRulesAppend(a + [r], b);
    ImportRulesAppend(a, [r]);
    ImportRulesAppend(a, b);
    assert ImportRules(a) + [] == ImportRules(a);
  }

  /** A rule that is neither an import nor a style rule disappears from both listings. */
  lemma OtherDropped(a: seq<Rule>, b: seq<Rule>)
    ensures StyleRules(a + [Other] + b) == StyleRules(a + b)
    ensures ImportRules(a + [Other] + b) == ImportRules(a + b)
  {
    NonStyleDropped(a, Other, b);
    NonImportDropped(a, Other, b);
  }
}
