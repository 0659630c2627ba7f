/** Score aggregation, the problematic/favourable split and risk tiering
    (clara5.py:256-270, 290, 306, 403-411). */
module RiskAggregator {
  import opened Text
  import opened RuleCatalog
  import opened ClauseMatcher

  /** `item["tipo"] == "favoravel"`. */
  predicate IsFavourable(f: Finding) {
    f.rule.category == Favoravel
  }

  /** `item["pontuacao"] > 0`. */
  predicate RaisesRisk(f: Finding) {
    f.rule.score > 0
  }

  /** A list comprehension `[item for item in fs if keep(item)]`. */
  function Filter(fs: seq<Finding>, keep: Finding -> bool): (r: seq<Finding>)
    decreases |fs|
    ensures |r| <= |fs|
    ensures forall f :: f in r <==> f in fs && keep(f)
  {
    if fs == [] then []
    else (if keep(fs[0]) then [fs[0]] else []) + Filter(fs[1..], keep)
  }

  lemma {:induction false} FilterAppend(a: seq<Finding>, b: seq<Finding>, keep: Finding -> bool)
    ensures Filter(a + b, keep) == Filter(a, keep) + Filter(b, keep)
    decreases |a|
  {
    if a == [] {
      assert a + b == b;
    } else {
      assert (a + b)[1..] == a[1..] + b;
      FilterAppend(a[1..], b, keep);
    }
  }

  /** The sum of the scores of `fs`. */
  function SumScores(fs: seq<Finding>): int
    decreases |fs|
  {
    if fs == [] then 0 else fs[0].rule.score + SumScores(fs[1..])
  }

  lemma {:induction false} SumScoresAppend(a: seq<Finding>, b: seq<Finding>)
    ensures SumScores(a + b) == SumScores(a) + SumScores(b)
    decreases |a|
  {
    if a == [] {
      assert a + b == b;
    } else {
      assert (a + b)[1..] == a[1..] + b;
      SumScoresAppend(a[1..], b);
    }
  }

  /** `pontuacao_total`: the sum of the positive scores only. */
  function TotalScore(fs: seq<Finding>): int {
    SumScores(Filter(fs, RaisesRisk))
  }

  /** `clausulas_favoraveis` as a count: one for each favourable finding. */
  function FavourableCount(fs: seq<Finding>): nat
    decreases |fs|
  {
    if fs == [] then 0 else (if IsFavourable(fs[0]) then 1 else 0) + FavourableCount(fs[1..])
  }

  /** The "Cláusulas Problemáticas" tab: the findings that are not favourable. */
  function Problematic(fs: seq<Finding>): seq<Finding> {
    Filter(fs, f => !IsFavourable(f))
  }

  /** The "Cláusulas Favoráveis" tab: the favourable findings. */
  function Favourable(fs: seq<Finding>): seq<Finding> {
    Filter(fs, IsFavourable)
  }

  /** A sum of positive scores is never negative. */
  lemma {:induction false} PositiveSumNonNegative(fs: seq<Finding>)
    requires forall f :: f in fs ==> RaisesRisk(f)
    ensures SumScores(fs) >= 0
    decreases |fs|
  {
    if fs != [] {
      assert fs[0] in fs;
      PositiveSumNonNegative(fs[1..]);
    }
  }

  /** The total risk score is never negative. */
  lemma TotalScoreNonNegative(fs: seq<Finding>)
    ensures TotalScore(fs) >= 0
  {
    PositiveSumNonNegative(Filter(fs, RaisesRisk));
  }

  /** The total of two runs of findings is the sum of their totals. */
  lemma TotalScoreAppend(a: seq<Finding>, b: seq<Finding>)
    ensures TotalScore(a + b) == TotalScore(a) + TotalScore(b)
  {
    FilterAppend(a, b, RaisesRisk);
    SumScoresAppend(Filter(a, RaisesRisk), Filter(b, RaisesRisk));
  }

  /** One more finding, wherever it falls in the list, adds its score when
      that is positive and leaves the total unchanged otherwise: adding
      findings never lowers the total, and the favourable rule's negative
      score never reduces it. */
  lemma TotalScoreInsert(a: seq<Finding>, f: Finding, b: seq<Finding>)
    ensures TotalScore(a + [f] + b) == TotalScore(a + b) + Max(0, f.rule.score)
  {
    TotalScoreAppend(a + [f], b);
    TotalScoreAppend(a, [f]);
    TotalScoreAppend(a, b);
    assert [f][1..] == [];
    assert Filter([f], RaisesRisk) == if RaisesRisk(f) then [f] else [];
    assert SumScores(Filter([f], RaisesRisk)) == Max(0, f.rule.score);
  }

  /** The favourable count (clara5.py:259) is the size of the favourable tab
      (clara5.py:306). */
  lemma {:induction false} FavourableCountIsTabSize(fs: seq<Finding>)
    ensures FavourableCount(fs) == |Favourable(fs)|
    decreases |fs|
  {
    if fs != [] {
      FavourableCountIsTabSize(fs[1..]);
    }
  }

  /** `s` is `a` and `b` shuffled together, each keeping its own order. */
  ghost predicate Interleaving(s: seq<Finding>, a: seq<Finding>, b: seq<Finding>)
    decreases |s|
  {
    if s == [] then a == [] && b == []
    else
      (a != [] && a[0] == s[0] && Interleaving(s[1..], a[1..], b))
      || (b != [] && b[0] == s[0] && Interleaving(s[1..], a, b[1..]))
  }

  lemma {:induction false} InterleavingLength(s: seq<Finding>, a: seq<Finding>, b: seq<Finding>)
    requires Interleaving(s, a, b)
    ensures |a| + |b| == |s|
    decreases |s|
  {
    if s != [] {
      if a != [] && a[0] == s[0] && Interleaving(s[1..], a[1..], b) {
        InterleavingLength(s[1..], a[1..], b);
      } else {
        InterleavingLength(s[1..], a, b[1..]);
      }
    }
  }

  /** The two tabs partition the findings: every finding is in exactly one of
      them, and each tab keeps the findings in their original order. */
  lemma {:induction false} TabsPartition(fs: seq<Finding>)
    ensures Interleaving(fs, Problematic(fs), Favourable(fs))
    ensures |Problematic(fs)| + |Favourable(fs)| == |fs|
    ensures forall f :: f in Problematic(fs) ==> !IsFavourable(f)
    ensures forall f :: f in Favourable(fs) ==> IsFavourable(f)
    decreases |fs|
  {
    if fs != [] {
      TabsPartition(fs[1..]);
      var p, q := Problematic(fs), Favourable(fs);
      if IsFavourable(fs[0]) {
        assert p == Problematic(fs[1..]);
        assert q == [fs[0]] + Favourable(fs[1..]);
        assert q[1..] == Favourable(fs[1..]);
      } else {
        assert q == Favourable(fs[1..]);
        assert p == [fs[0]] + Problematic(fs[1..]);
        assert p[1..] == Problematic(fs[1..]);
      }
    }
    InterleavingLength(fs, Problematic(fs), Favourable(fs));
  }

  /** The risk tier (`risco`). */
  datatype Tier = Alto | Moderado | Baixo

  const HighThreshold: int := 30
  const ModerateThreshold: int := 15

  /** The tier of a total score, from the if/elif chain at clara5.py:262-270. */
  function TierOf(total: int): Tier {
    if total >= HighThreshold then Alto
    else if total >= ModerateThreshold then Moderado
    else Baixo
  }

  /** How serious a tier is. */
  function Severity(t: Tier): nat {
    match t
    case Baixo => 0
    case Moderado => 1
    case Alto => 2
  }

  /** The three bands, their inclusive lower bounds and the boundary cases. */
  lemma TierBands(total: int)
    ensures TierOf(total) == Alto <==> total >= 30
    ensures TierOf(total) == Moderado <==> 15 <= total < 30
    ensures TierOf(total) == Baixo <==> total < 15
    ensures TierOf(14) == Baixo && TierOf(15) == Moderado && TierOf(29) == Moderado && TierOf(30) == Alto
  {
  }

  /** A higher score never gives a less serious tier. */
  lemma TierMonotone(x: int, y: int)
    requires x <= y
    ensures Severity(TierOf(x)) <= Severity(TierOf(y))
  {
  }

  /** The opening tag of the tier's badge. */
  function OpeningTag(t: Tier): string {
    match t
    case Alto => "<span class='risk-high'>"
    case Moderado => "<span class='risk-medium'>"
    case Baixo => "<span class='risk-low'>"
  }

  /** The tier's label. */
  function TierLabel(t: Tier): string {
    match t
    case Alto => "ALTO RISCO"
    case Moderado => "RISCO MODERADO"
    case Baixo => "BAIXO RISCO"
  }

  const ClosingTag: string := "</span>"

  /** The `risco` markup: the label inside its badge. */
  function RiskMarkup(t: Tier): string {
    OpeningTag(t) + TierLabel(t) + ClosingTag
  }

  /** The fixed `recomendacao` of each tier. */
  function Recommendation(t: Tier): string {
    match t
    case Alto => "⚠️ Contrato com múltiplas cláusulas abusivas. Recomendamos NÃO ASSINAR e consultar um advogado para revisão completa."
    case Moderado => "🔍 Contrato com algumas cláusulas problemáticas. Recomendamos negociar alterações antes de assinar."
    case Baixo => "✅ Contrato parece razoável, mas revise cuidadosamente as observações abaixo."
  }

  /** The outcome of the analysis: the all-clear branch when nothing was
      found, otherwise the total, the favourable count, the tier and the
      tier's recommendation. */
  datatype Assessment = AllClear | Rated(total: int, favourable: nat, tier: Tier, recommendation: string)

  function Assess(fs: seq<Finding>): Assessment {
    if fs == [] then AllClear
    else
      var total := TotalScore(fs);
      Rated(total, FavourableCount(fs), TierOf(total), Recommendation(TierOf(total)))
  }

  /** Adding a finding anywhere never lowers the tier. */
  lemma MoreFindingsNeverLowerTier(a: seq<Finding>, f: Finding, b: seq<Finding>)
    requires a + b != []
    ensures Assess(a + [f] + b).Rated? && Assess(a + b).Rated?
    ensures Assess(a + b).total <= Assess(a + [f] + b).total
    ensures Severity(Assess(a + b).tier) <= Severity(Assess(a + [f] + b).tier)
  {
    TotalScoreInsert(a, f, b);
    assert |a + [f] + b| > 0;
    TierMonotone(TotalScore(a + b), TotalScore(a + [f] + b));
  }

  /** A text whose only findings are of the favourable catalogue rule scores
      zero, is rated low, and counts every finding as favourable. */
  lemma OnlyFavourableFindings(fs: seq<Finding>)
    requires fs != []
    requires forall f :: f in fs ==> f.rule in Rules && IsFavourable(f)
    ensures Assess(fs) == Rated(0, |fs|, Baixo, Recommendation(Baixo))
  {
    CatalogShape();
    OnlyFavourableParts(fs);
  }

  /** Findings that are all favourable and carry no positive score add
      nothing to the total and all count as favourable. */
  lemma {:induction false} OnlyFavourableParts(fs: seq<Finding>)
    requires forall f :: f in fs ==> IsFavourable(f) && f.rule.score <= 0
    ensures TotalScore(fs) == 0 && FavourableCount(fs) == |fs|
    decreases |fs|
  {
    if fs != [] {
      assert fs[0] in fs;
      assert fs == [] + [fs[0]] + fs[1..];
      TotalScoreInsert([], fs[0], fs[1..]);
      OnlyFavourableParts(fs[1..]);
    }
  }

  /** An absolute cancellation ban and a foreign forum together reach the
      high-risk tier, whatever else was found. */
  lemma CancellationAndForeignForumAreHighRisk(fs: seq<Finding>, i: nat, j: nat)
    requires i < |fs| && j < |fs| && i != j
    requires fs[i].rule == Rules[0] && fs[j].rule == Rules[4]
    ensures Assess(fs).Rated? && Assess(fs).total >= 30 && Assess(fs).tier == Alto
  {
    var lo := Min(i, j);
    var hi := Max(i, j);
    var a, b, c := fs[..lo], fs[lo + 1..hi], fs[hi + 1..];
    assert fs == a + [fs[lo]] + (b + [fs[hi]] + c);
    TotalScoreInsert(a, fs[lo], b + [fs[hi]] + c);
    TotalScoreInsert(a + b, fs[hi], c);
    assert a + (b + [fs[hi]] + c) == a + b + [fs[hi]] + c;
    TotalScoreNonNegative(a + b + c);
  }
}
