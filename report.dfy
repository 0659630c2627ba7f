/** The parts of the downloadable report that carry logic (clara5.py:382-387):
    the risk line with its markup stripped and one line per finding. */
module Report {
  import opened Text
  import opened ClauseMatcher
  import opened RiskAggregator

  /** `f"- {mensagem} ({pontuacao} pts): {explicacao}"`. */
  function FindingLine(f: Finding): string {
    "- " + f.rule.message + " (" + IntToString(f.rule.score) + " pts): " + f.rule.explanation
  }

  /** Every field of a finding can be read back from its line: the message,
      then the score, written so that it parses back to the same number,
      then the explanation. */
  lemma FindingLineFields(f: Finding)
    ensures var line, m, s := FindingLine(f), |f.rule.message|, IntToString(f.rule.score);
            |line| == 4 + m + |s| + 7 + |f.rule.explanation|
            && line[..2] == "- " && line[2..2 + m] == f.rule.message
            && line[2 + m..4 + m] == " (" && line[4 + m..4 + m + |s|] == s
            && line[4 + m + |s|..11 + m + |s|] == " pts): "
            && line[11 + m + |s|..] == f.rule.explanation
    ensures ParseInt(IntToString(f.rule.score)) == f.rule.score
  {
    IntToStringRoundTrip(f.rule.score);
  }

  /** `chr(10).join(lines)`. */
  function JoinLines(lines: seq<string>): string
    decreases |lines|
  {
    if lines == [] then ""
    else if |lines| == 1 then lines[0]
    else lines[0] + "\n" + JoinLines(lines[1..])
  }

  /** The findings block of the report: one line per finding, in order. */
  function FindingsBlock(fs: seq<Finding>): string {
    JoinLines(seq(|fs|, k requires 0 <= k < |fs| => FindingLine(fs[k])))
  }

  /** How many times `c` occurs in `s`. */
  function CountChar(s: string, c: char): nat
    decreases |s|
  {
    if s == [] then 0 else (if s[0] == c then 1 else 0) + CountChar(s[1..], c)
  }

  lemma {:induction false} CountCharAppend(a: string, b: string, c: char)
    ensures CountChar(a + b, c) == CountChar(a, c) + CountChar(b, c)
    decreases |a|
  {
    if a == [] {
      assert a + b == b;
    } else {
      assert (a + b)[1..] == a[1..] + b;
      CountCharAppend(a[1..], b, c);
    }
  }

  lemma {:induction false} CountCharAbsent(s: string, c: char)
    requires c !in s
    ensures CountChar(s, c) == 0
    decreases |s|
  {
    if s != [] {
      CountCharAbsent(s[1..], c);
    }
  }

  /** Joining single-line texts gives exactly one line per text: one newline
      fewer than there are texts. */
  lemma {:induction false} JoinLinesNewlines(lines: seq<string>)
    requires lines != []
    requires forall k :: 0 <= k < |lines| ==> '\n' !in lines[k]
    ensures CountChar(JoinLines(lines), '\n') == |lines| - 1
    decreases |lines|
  {
    CountCharAbsent(lines[0], '\n');
    if |lines| > 1 {
      JoinLinesNewlines(lines[1..]);
      CountCharAppend(lines[0] + "\n", JoinLines(lines[1..]), '\n');
      CountCharAppend(lines[0], "\n", '\n');
    }
  }

  /** A finding's line is a single line when its message and explanation
      are. */
  lemma FindingLineOneLine(f: Finding)
    requires '\n' !in f.rule.message && '\n' !in f.rule.explanation
    ensures '\n' !in FindingLine(f)
  {
    var s := IntToString(f.rule.score);
    IntToStringRoundTrip(f.rule.score);
    assert '\n' !in s by {
      forall k | 0 <= k < |s| ensures s[k] != '\n' {
        if s[0] != '-' || k > 0 { assert IsDigit(s[k]); }
      }
    }
  }

  /** The findings block has one line per finding: exactly one newline fewer
      than there are findings, when no message or explanation spans lines. */
  lemma FindingsBlockLines(fs: seq<Finding>)
    requires fs != []
    requires forall f :: f in fs ==> '\n' !in f.rule.message && '\n' !in f.rule.explanation
    ensures CountChar(FindingsBlock(fs), '\n') == |fs| - 1
  {
    var lines := seq(|fs|, k requires 0 <= k < |fs| => FindingLine(fs[k]));
    forall k | 0 <= k < |lines| ensures '\n' !in lines[k] {
      assert fs[k] in fs;
      FindingLineOneLine(fs[k]);
    }
    JoinLinesNewlines(lines);
  }

  /** The double-quoted tag the report strips: it is not the tag the tier
      markup uses, which is written with single quotes. */
  const DoubleQuotedHighTag := "<span class=\"risk-high\">"

  /** `risco.replace('<span class="risk-high">', '').replace('</span>', '')`. */
  function RiskLineAsWritten(t: Tier): string {
    Replace(Replace(RiskMarkup(t), DoubleQuotedHighTag, ""), ClosingTag, "")
  }

  /** The closing tag occurs only at the end of `x + ClosingTag` when `x`
      holds no '/' and does not end in '<'. */
  lemma ClosingTagOnlyAtEnd(x: string)
    requires '/' !in x && (x == [] || x[|x| - 1] != '<')
    ensures forall i :: 0 <= i < |x| ==> !OccursAt(x + ClosingTag, ClosingTag, i)
  {
    var m := x + ClosingTag;
    forall i | 0 <= i < |x| ensures !OccursAt(m, ClosingTag, i) {
      if i + 1 < |x| {
        assert m[i..i + |ClosingTag|][1] == x[i + 1];
      } else {
        assert m[i..i + |ClosingTag|][0] == x[i];
      }
    }
  }

  /** What the removals rely on: a badge's text has no double quote and no
      '/', its opening tag quotes the class name with single quotes, and its
      label is non-empty and free of quotes and angle brackets. */
  predicate PlainBadge(open: string, name: string) {
    '"' !in open && '/' !in open && |open| > 12 && open[12] == '\''
    && '"' !in name && '/' !in name && '\'' !in name && '<' !in name && '>' !in name
    && |name| > 0
  }

  lemma BadgeText(t: Tier)
    ensures PlainBadge(OpeningTag(t), TierLabel(t))
  {
    match t
    case Alto => PlainBadgeLiteral("<span class='risk-high'>", "ALTO RISCO");
    case Moderado => PlainBadgeLiteral("<span class='risk-medium'>", "RISCO MODERADO");
    case Baixo => PlainBadgeLiteral("<span class='risk-low'>", "BAIXO RISCO");
  }

  /** The badge conditions, checked character by character. */
  lemma PlainBadgeLiteral(open: string, name: string)
    requires |open| > 12 && open[12] == '\'' && |name| > 0
    requires forall k :: 0 <= k < |open| ==> open[k] != '"' && open[k] != '/'
    requires forall k :: 0 <= k < |name| ==> name[k] !in "\"/'<>"
    ensures PlainBadge(open, name)
  {
  }

  /** The double-quoted tag never occurs in a markup without double quotes. */
  lemma NoDoubleQuotedTag(x: string)
    requires '"' !in x
    ensures Replace(x + ClosingTag, DoubleQuotedHighTag, "") == x + ClosingTag
  {
    var m := x + ClosingTag;
    assert '"' !in ClosingTag;
    assert DoubleQuotedHighTag[12] == '"';
    MissingCharBlocks(m, DoubleQuotedHighTag, 12);
    ReplaceAbsent(m, DoubleQuotedHighTag, "");
  }

  /** Removing the closing tag from `x + ClosingTag` gives `x` back. */
  lemma DropClosingTag(x: string)
    requires '/' !in x && (x == [] || x[|x| - 1] != '<')
    ensures Replace(x + ClosingTag, ClosingTag, "") == x
  {
    ClosingTagOnlyAtEnd(x);
    ReplaceTrailing(x, ClosingTag);
  }

  /** Removing the double-quoted tag and then the closing tag from a markup
      without double quotes only removes the closing tag. */
  lemma StripAsWritten(x: string)
    requires '"' !in x && '/' !in x && x != [] && x[|x| - 1] != '<'
    ensures Replace(Replace(x + ClosingTag, DoubleQuotedHighTag, ""), ClosingTag, "") == x
  {
    NoDoubleQuotedTag(x);
    DropClosingTag(x);
  }

  /** The report's risk line keeps the opening badge tag: the double-quoted
      tag never occurs in the single-quoted markup, so only the closing tag
      is removed, for every tier. */
  lemma OpeningTagSurvives(t: Tier)
    ensures RiskLineAsWritten(t) == OpeningTag(t) + TierLabel(t)
    ensures RiskLineAsWritten(t) != TierLabel(t)
  {
    BadgeText(t);
    var x := OpeningTag(t) + TierLabel(t);
    assert RiskMarkup(t) == x + ClosingTag;
    assert x[|x| - 1] == TierLabel(t)[|TierLabel(t)| - 1];
    StripAsWritten(x);
    assert |x| > |TierLabel(t)|;
  }

  /** The risk line as evidently intended: the tier's own badge tags
      removed. */
  function RiskLine(t: Tier): string {
    Replace(Replace(RiskMarkup(t), OpeningTag(t), ""), ClosingTag, "")
  }

  /** Removing the opening tag from the markup leaves the label and the
      closing tag. */
  lemma DropOpeningTag(t: Tier)
    ensures Replace(RiskMarkup(t), OpeningTag(t), "") == TierLabel(t) + ClosingTag
  {
  }

  /** The intended risk line is the bare tier label, free of markup. */
  lemma RiskLineIsPlainLabel(t: Tier)
    ensures RiskLine(t) == TierLabel(t)
    ensures '<' !in RiskLine(t) && '>' !in RiskLine(t)
  {
    BadgeText(t);
    DropOpeningTag(t);
    DropClosingTag(TierLabel(t));
  }
}
