/** The clause matcher (`analisar_clausulas`, clara5.py:70-130): every rule of
    the catalogue is run over the text, and every occurrence of its pattern
    becomes one finding with a snippet of the surrounding text. */
module ClauseMatcher {
  import opened Text
  import opened RuleCatalog

  /** One occurrence reported by `re.finditer`: `match.start()` and
      `match.end()`. */
  datatype Span = Span(start: nat, end: nat)

  /** The regular-expression engine, left abstract: given a pattern and the
      text, the occurrences `re.finditer(pattern, text, re.IGNORECASE)`
      yields, in the order it yields them. */
  type Matcher = (string, string) -> seq<Span>

  /** One result entry: the rule it came from (its pattern, `padrao`, and all
      its metadata) and the `contexto` snippet. */
  datatype Finding = Finding(rule: Rule, context: string)

  /** Characters of text kept on each side of a match. */
  const Radius: nat := 50

  /** Snippets longer than this are wrapped in "...". */
  const WrapThreshold: nat := 100

  /** Where the snippet starts: `max(0, match.start() - 50)`. */
  function WindowStart(m: Span): nat {
    if m.start < Radius then 0 else m.start - Radius
  }

  /** `texto[max(0, start - 50):end + 50].replace("\n", " ")`. */
  function Snippet(text: string, m: Span): (c: string)
    ensures '\n' !in c
  {
    ReplaceChar(Slice(text, WindowStart(m), m.end + Radius), '\n', ' ')
  }

  /** The `contexto` of a finding: the snippet, wrapped in "..." when it is
      longer than 100 characters. */
  function Context(text: string, m: Span): (c: string)
    ensures '\n' !in c
  {
    var s := Snippet(text, m);
    if |s| > WrapThreshold then "..." + s + "..." else s
  }

  /** The snippet of an occurrence inside the text covers `max(0, start - 50)`
      up to `min(len(text), end + 50)`, with each newline turned into a space;
      the matched text sits in it at offset `start - max(0, start - 50)`. */
  lemma SnippetWindow(text: string, m: Span)
    requires m.start <= m.end <= |text|
    ensures |Snippet(text, m)| == Min(|text|, m.end + Radius) - WindowStart(m)
    ensures forall k :: 0 <= k < |Snippet(text, m)| ==>
              Snippet(text, m)[k] == if text[WindowStart(m) + k] == '\n' then ' ' else text[WindowStart(m) + k]
    ensures var off := m.start - WindowStart(m);
            off + (m.end - m.start) <= |Snippet(text, m)|
            && Snippet(text, m)[off..off + (m.end - m.start)] == ReplaceChar(text[m.start..m.end], '\n', ' ')
  {
    var lo := WindowStart(m);
    var s := Snippet(text, m);
    var off := m.start - lo;
    var r := ReplaceChar(text[m.start..m.end], '\n', ' ');
    assert |s| == Min(|text|, m.end + Radius) - lo;
    forall k | 0 <= k < m.end - m.start ensures s[off + k] == r[k] {
      assert text[m.start..m.end][k] == text[lo + off + k];
    }
  }

  /** With 50 characters of text on both sides of the occurrence the snippet
      is exactly the match plus 100 characters. */
  lemma InteriorSnippet(text: string, m: Span)
    requires Radius <= m.start <= m.end && m.end + Radius <= |text|
    ensures |Snippet(text, m)| == m.end - m.start + 2 * Radius
    ensures |Context(text, m)| == if m.start < m.end then m.end - m.start + 2 * Radius + 6
                                  else 2 * Radius
  {
  }

  /** The snippet is wrapped in "..." exactly when it is longer than 100
      characters, and is kept as it is otherwise. */
  lemma ContextWrapping(text: string, m: Span)
    ensures |Snippet(text, m)| > WrapThreshold <==> |Context(text, m)| == |Snippet(text, m)| + 6
    ensures |Snippet(text, m)| > WrapThreshold ==>
              Context(text, m)[..3] == "..." && Context(text, m)[|Context(text, m)| - 3..] == "..."
              && Context(text, m)[3..|Context(text, m)| - 3] == Snippet(text, m)
    ensures |Snippet(text, m)| <= WrapThreshold <==> Context(text, m) == Snippet(text, m)
  {
  }

  /** The findings of one rule: one per occurrence, in occurrence order. */
  function RuleFindings(rule: Rule, text: string, spans: seq<Span>): seq<Finding> {
    seq(|spans|, k requires 0 <= k < |spans| => Finding(rule, Context(text, spans[k])))
  }

  /** What the scan over `rules` produces: the findings of each rule in turn,
      in rule order. */
  function Scan(rules: seq<Rule>, text: string, find: Matcher): seq<Finding> {
    if rules == [] then []
    else
      var last := rules[|rules| - 1];
      Scan(rules[..|rules| - 1], text, find) + RuleFindings(last, text, find(last.pattern, text))
  }

  /** The number of occurrences the engine reports over all `rules`. */
  function MatchCount(rules: seq<Rule>, text: string, find: Matcher): nat {
    if rules == [] then 0
    else
      var last := rules[|rules| - 1];
      MatchCount(rules[..|rules| - 1], text, find) + |find(last.pattern, text)|
  }

  /** `analisar_clausulas`: for each rule of the catalogue in order, for each
      occurrence of its pattern, append a finding. */
  method AnalyseClauses(text: string, find: Matcher) returns (findings: seq<Finding>)
    ensures findings == Scan(Rules, text, find)
    ensures |findings| == MatchCount(Rules, text, find)
  {
    findings := [];
    var i := 0;
    while i < |Rules|
      invariant 0 <= i <= |Rules|
      invariant findings == Scan(Rules[..i], text, find)
    {
      var rule := Rules[i];
      findings := AppendRuleFindings(findings, rule, text, find(rule.pattern, text));
      ScanStep(Rules, text, find, i);
      i := i + 1;
    }
    assert Rules[..i] == Rules;
    ScanCount(Rules, text, find);
  }

  /** The inner loop of `analisar_clausulas`: one finding per occurrence of
      `rule`, appended in occurrence order. */
  method AppendRuleFindings(findings: seq<Finding>, rule: Rule, text: string, matches: seq<Span>)
    returns (out: seq<Finding>)
    ensures out == findings + RuleFindings(rule, text, matches)
  {
    out := findings;
    var k := 0;
    while k < |matches|
      invariant 0 <= k <= |matches|
      invariant out == findings + RuleFindings(rule, text, matches[..k])
    {
      var contexto := Snippet(text, matches[k]);
      RuleFindingsStep(rule, text, matches, k);
      out := out + [Finding(rule, if |contexto| > WrapThreshold then "..." + contexto + "..." else contexto)];
      k := k + 1;
    }
    assert matches[..k] == matches;
  }

  /** Appending one occurrence appends its finding. */
  lemma RuleFindingsStep(rule: Rule, text: string, spans: seq<Span>, k: nat)
    requires k < |spans|
    ensures RuleFindings(rule, text, spans[..k + 1])
            == RuleFindings(rule, text, spans[..k]) + [Finding(rule, Context(text, spans[k]))]
  {
  }

  /** Scanning one more rule appends that rule's findings. */
  lemma ScanStep(rules: seq<Rule>, text: string, find: Matcher, i: nat)
    requires i < |rules|
    ensures Scan(rules[..i + 1], text, find)
            == Scan(rules[..i], text, find) + RuleFindings(rules[i], text, find(rules[i].pattern, text))
  {
    assert rules[..i + 1][..i] == rules[..i];
  }

  /** One finding per occurrence: the scan is as long as the total number of
      occurrences over all rules. */
  lemma {:induction false} ScanCount(rules: seq<Rule>, text: string, find: Matcher)
    ensures |Scan(rules, text, find)| == MatchCount(rules, text, find)
    decreases |rules|
  {
    if rules != [] {
      ScanCount(rules[..|rules| - 1], text, find);
    }
  }

  /** The scan over `rules` is the scan over all rules but the last, then the
      last rule's findings. */
  lemma ScanSplit(rules: seq<Rule>, text: string, find: Matcher)
    requires rules != []
    ensures var init, last := rules[..|rules| - 1], rules[|rules| - 1];
            Scan(rules, text, find) == Scan(init, text, find) + RuleFindings(last, text, find(last.pattern, text))
            && |Scan(init, text, find)| == MatchCount(init, text, find)
  {
    ScanCount(rules[..|rules| - 1], text, find);
  }

  /** Grouping and order: the `k`-th occurrence of rule `i` is the finding
      right after all the occurrences of the rules before it, and it carries
      rule `i` unchanged together with the context of that occurrence. */
  lemma {:induction false} ScanAt(rules: seq<Rule>, text: string, find: Matcher, i: nat, k: nat)
    requires i < |rules| && k < |find(rules[i].pattern, text)|
    ensures MatchCount(rules[..i], text, find) + k < |Scan(rules, text, find)|
    ensures Scan(rules, text, find)[MatchCount(rules[..i], text, find) + k]
            == Finding(rules[i], Context(text, find(rules[i].pattern, text)[k]))
    decreases |rules|
  {
    var init := rules[..|rules| - 1];
    ScanSplit(rules, text, find);
    if i == |rules| - 1 {
      assert rules[..i] == init;
    } else {
      assert init[..i] == rules[..i];
      ScanAt(init, text, find, i, k);
    }
  }

  /** Every finding of the scan comes from one of the rules scanned. */
  lemma {:induction false} ScanRules(rules: seq<Rule>, text: string, find: Matcher)
    ensures forall f :: f in Scan(rules, text, find) ==> f.rule in rules
    decreases |rules|
  {
    if rules != [] {
      var init := rules[..|rules| - 1];
      ScanRules(init, text, find);
      forall f | f in Scan(rules, text, find) ensures f.rule in rules {
        if f in Scan(init, text, find) {
          assert f.rule in init;
        }
      }
    }
  }

  /** Only rules with occurrences contribute: text in which the engine finds
      nothing gives no finding. */
  lemma {:induction false} ScanEmpty(rules: seq<Rule>, text: string, find: Matcher)
    requires forall r :: r in rules ==> find(r.pattern, text) == []
    ensures Scan(rules, text, find) == []
    decreases |rules|
  {
    if rules != [] {
      ScanEmpty(rules[..|rules| - 1], text, find);
    }
  }
}
