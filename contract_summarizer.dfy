/** The contract summariser (`gerar_resumo_contrato`, clara5.py:132-168): the
    contract type, the two parties, the amount and the duration, each found
    by a single first-match search over the text.

    Case-insensitive matching is left abstract: `up` maps each character to
    its upper-case form, `texto.upper()` is `up` applied to every character,
    and a literal of an `re.IGNORECASE` pattern matches where the upper-cased
    text equals the upper-cased literal. */
module ContractSummarizer {
  import opened Text

  type CaseFold = char -> char

  /** `s.upper()`, one character at a time. */
  function Upper(up: CaseFold, s: string): string {
    seq(|s|, k requires 0 <= k < |s| => up(s[k]))
  }

  /** Every literal of a list upper-cased. */
  function UpperAll(up: CaseFold, ws: seq<string>): seq<string> {
    seq(|ws|, k requires 0 <= k < |ws| => Upper(up, ws[k]))
  }

  lemma UpperSlice(up: CaseFold, s: string, lo: nat, hi: nat)
    requires lo <= hi <= |s|
    ensures Upper(up, s[lo..hi]) == Upper(up, s)[lo..hi]
  {
  }

  lemma UpperAppend(up: CaseFold, a: string, b: string)
    ensures Upper(up, a + b) == Upper(up, a) + Upper(up, b)
  {
  }

  // ---------------------------------------------------------------------
  // Contract type (clara5.py:134-140)

  datatype ContractKind = Educacional | Locacao | PrestacaoServicos | Generico {
    /** The `tipo` string of the summary. */
    function Name(): string {
      match this
      case Educacional => "Contrato Educacional"
      case Locacao => "Contrato de Locação"
      case PrestacaoServicos => "Contrato de Prestação de Serviços"
      case Generico => "Contrato Genérico"
    }

    /** The position of the kind's check in the if/elif chain. */
    function Priority(): nat {
      match this
      case Educacional => 0
      case Locacao => 1
      case PrestacaoServicos => 2
      case Generico => 3
    }
  }

  const EducationalMarker := "EDUCACIONAIS"
  const LeaseMarker := "LOCAÇÃO"
  const ServicesMarker := "PRESTAÇÃO DE SERVIÇOS"

  /** The first marker found in the upper-cased text decides the type. */
  function ContractType(up: CaseFold, text: string): ContractKind {
    var u := Upper(up, text);
    if Contains(u, EducationalMarker) then Educacional
    else if Contains(u, LeaseMarker) then Locacao
    else if Contains(u, ServicesMarker) then PrestacaoServicos
    else Generico
  }

  /** The markers are checked in priority order: a kind is chosen exactly
      when its marker is present and no earlier marker is. */
  lemma ContractTypeMarkers(up: CaseFold, text: string)
    ensures var u := Upper(up, text);
            (ContractType(up, text) == Educacional <==> Contains(u, EducationalMarker))
            && ((ContractType(up, text) == Locacao)
                <==> !Contains(u, EducationalMarker) && Contains(u, LeaseMarker))
            && ((ContractType(up, text) == PrestacaoServicos)
                <==> !Contains(u, EducationalMarker) && !Contains(u, LeaseMarker) && Contains(u, ServicesMarker))
            && ((ContractType(up, text) == Generico)
                <==> !Contains(u, EducationalMarker) && !Contains(u, LeaseMarker) && !Contains(u, ServicesMarker))
  {
  }

  /** More text can only move the type to a kind checked earlier: a marker
      found in part of the text is still found in the whole. */
  lemma ContractTypeOnlyPromotes(up: CaseFold, a: string, b: string)
    ensures ContractType(up, a + b).Priority() <= ContractType(up, a).Priority()
    ensures ContractType(up, a + b).Priority() <= ContractType(up, b).Priority()
  {
    UpperAppend(up, a, b);
    var ua, ub := Upper(up, a), Upper(up, b);
    if Contains(ua, EducationalMarker) { ContainsExtend(ua, EducationalMarker, ub); }
    if Contains(ua, LeaseMarker) { ContainsExtend(ua, LeaseMarker, ub); }
    if Contains(ua, ServicesMarker) { ContainsExtend(ua, ServicesMarker, ub); }
    if Contains(ub, EducationalMarker) { ContainsExtend(ub, EducationalMarker, ua); }
    if Contains(ub, LeaseMarker) { ContainsExtend(ub, LeaseMarker, ua); }
    if Contains(ub, ServicesMarker) { ContainsExtend(ub, ServicesMarker, ua); }
  }

  // ---------------------------------------------------------------------
  // Parties: CONTRATANTE:(.*?)CONTRATADA:(.*?)CLÁUSULAS: with re.DOTALL
  // (clara5.py:143-145)

  const ContratanteTag := "CONTRATANTE:"
  const ContratadaTag := "CONTRATADA:"
  const ClausulasTag := "CLÁUSULAS:"

  /** The pattern matches with its three literals at `i`, `j` and `k`. */
  ghost predicate PartiesMatch(up: CaseFold, text: string, i: nat, j: nat, k: nat) {
    var u := Upper(up, text);
    OccursAt(u, Upper(up, ContratanteTag), i) && i + |ContratanteTag| <= j
    && OccursAt(u, Upper(up, ContratadaTag), j) && j + |ContratadaTag| <= k
    && OccursAt(u, Upper(up, ClausulasTag), k)
  }

  /** Lexicographic order on positions. */
  predicate LexLeq(x: (nat, nat, nat), y: (nat, nat, nat)) {
    x.0 < y.0 || (x.0 == y.0 && (x.1 < y.1 || (x.1 == y.1 && x.2 <= y.2)))
  }

  /** The match `re.search` reports: the leftmost start, and for it the
      shortest lazy groups, which is the least match in lexicographic order.
      It is found by three successive first-occurrence searches. */
  function PartiesSpan(up: CaseFold, text: string): (r: Option<(nat, nat, nat)>)
    ensures r.Some? ==> PartiesMatch(up, text, r.value.0, r.value.1, r.value.2)
    ensures r.Some? ==> forall i, j, k :: PartiesMatch(up, text, i, j, k) ==> LexLeq(r.value, (i, j, k))
    ensures r.None? ==> forall i, j, k :: !PartiesMatch(up, text, i, j, k)
  {
    var u := Upper(up, text);
    match FindFrom(u, Upper(up, ContratanteTag), 0)
    case None => None
    case Some(i) =>
      match FindFrom(u, Upper(up, ContratadaTag), i + |ContratanteTag|)
      case None => None
      case Some(j) =>
        match FindFrom(u, Upper(up, ClausulasTag), j + |ContratadaTag|)
        case None => None
        case Some(k) => Some((i, j, k))
  }

  /** The two groups of a match at `(i, j, k)`, stripped. */
  function PartyTexts(text: string, i: nat, j: nat, k: nat): (r: (string, string))
    ensures r.0 == Strip(r.0) && r.1 == Strip(r.1)
  {
    var a, b := Slice(text, i + |ContratanteTag|, j), Slice(text, j + |ContratadaTag|, k);
    StripIdempotent(a);
    StripIdempotent(b);
    (Strip(a), Strip(b))
  }

  /** `contratante` and `contratada`: the stripped texts of the two groups of
      the reported match, or nothing for both when the pattern does not
      match. */
  function Parties(up: CaseFold, text: string): (r: Option<(string, string)>)
    ensures r.None? <==> forall i, j, k :: !PartiesMatch(up, text, i, j, k)
    ensures r.Some? ==> PartiesSpan(up, text).Some?
    ensures r.Some? ==>
              var s := PartiesSpan(up, text).value;
              r.value == (Strip(Slice(text, s.0 + |ContratanteTag|, s.1)), Strip(Slice(text, s.1 + |ContratadaTag|, s.2)))
    ensures r.Some? ==> r.value.0 == Strip(r.value.0) && r.value.1 == Strip(r.value.1)
  {
    var s := PartiesSpan(up, text);
    if s.None? then None else Some(PartyTexts(text, s.value.0, s.value.1, s.value.2))
  }

  // ---------------------------------------------------------------------
  // Single-line lazy searches: (A1|A2|...).*?X without re.DOTALL, where `.`
  // does not match a newline (clara5.py:148 and 152)

  /** No newline between `e` and `p`: what `.*?` may skip. */
  ghost predicate SameLine(text: string, e: nat, p: nat) {
    e <= p <= |text| && forall m :: e <= m < p ==> text[m] != '\n'
  }

  /** The pattern matches with alternative `a` of the anchor group at `i`
      and the rest (`at`) at `p`. */
  ghost predicate LazyMatch(text: string, u: string, anchors: seq<string>, at: nat -> bool, i: nat, a: nat, p: nat) {
    a < |anchors| && OccursAt(u, anchors[a], i) && SameLine(text, i + |anchors[a]|, p) && at(p)
  }

  /** The first position from `p` on, before the end of the line, where `at`
      holds: how the lazy `.*?` extends one character at a time. */
  function ScanLine(text: string, p: nat, at: nat -> bool): (r: Option<nat>)
    requires p <= |text|
    decreases |text| - p
    ensures r.Some? ==> SameLine(text, p, r.value) && at(r.value)
    ensures r.Some? ==> forall q :: p <= q < r.value ==> !at(q)
    ensures r.None? ==> forall q :: SameLine(text, p, q) ==> !at(q)
  {
    if at(p) then Some(p)
    else if p == |text| || text[p] == '\n' then None
    else ScanLine(text, p + 1, at)
  }

  /** The alternatives of the anchor group tried in order at `i`, from the
      `a`-th on. */
  function TryAnchors(text: string, u: string, anchors: seq<string>, at: nat -> bool, i: nat, a: nat): (r: Option<(nat, nat)>)
    requires |u| == |text| && a <= |anchors|
    decreases |anchors| - a
    ensures r.Some? ==> a <= r.value.0 && LazyMatch(text, u, anchors, at, i, r.value.0, r.value.1)
    ensures r.Some? ==> forall b, p :: a <= b && LazyMatch(text, u, anchors, at, i, b, p) ==>
                          r.value.0 < b || (r.value.0 == b && r.value.1 <= p)
    ensures r.None? ==> forall b, p :: a <= b ==> !LazyMatch(text, u, anchors, at, i, b, p)
  {
    if a == |anchors| then None
    else if OccursAt(u, anchors[a], i) then
      match ScanLine(text, i + |anchors[a]|, at)
      case Some(p) => Some((a, p))
      case None => TryAnchors(text, u, anchors, at, i, a + 1)
    else TryAnchors(text, u, anchors, at, i, a + 1)
  }

  /** `re.search` for the pattern from `i` on: the leftmost start, then the
      first alternative of the anchor group, then the shortest lazy skip. */
  function SearchFrom(text: string, u: string, anchors: seq<string>, at: nat -> bool, i: nat): (r: Option<(nat, nat, nat)>)
    requires |u| == |text| && i <= |text|
    decreases |text| - i
    ensures r.Some? ==> i <= r.value.0 && LazyMatch(text, u, anchors, at, r.value.0, r.value.1, r.value.2)
    ensures r.Some? ==> forall i', a, p :: i <= i' && LazyMatch(text, u, anchors, at, i', a, p) ==>
                          LexLeq(r.value, (i', a, p))
    ensures r.None? ==> forall i', a, p :: i <= i' ==> !LazyMatch(text, u, anchors, at, i', a, p)
  {
    match TryAnchors(text, u, anchors, at, i, 0)
    case Some((a, p)) => Some((i, a, p))
    case None => if i == |text| then None else SearchFrom(text, u, anchors, at, i + 1)
  }

  // ---------------------------------------------------------------------
  // Amount: (valor total|valor do curso).*?R\$\s*([\d.,]+)  (clara5.py:148-149)

  const AmountAnchors: seq<string> := ["valor total", "valor do curso"]
  const CurrencyTag := "R$"

  /** `[\d.,]`. */
  predicate IsAmountChar(c: char) {
    IsDigit(c) || c == '.' || c == ','
  }

  /** `R\$\s*[\d.,]` matches at `p` (`u` is the upper-cased text). */
  predicate AmountAt(up: CaseFold, text: string, u: string, p: nat) {
    p + |CurrencyTag| <= |text| && OccursAt(u, Upper(up, CurrencyTag), p)
    && var q := SkipSpaces(text, p + |CurrencyTag|);
       q < |text| && IsAmountChar(text[q])
  }

  function AmountProbe(up: CaseFold, text: string): nat -> bool {
    (p: nat) => AmountAt(up, text, Upper(up, text), p)
  }

  /** Where the amount pattern matches: the leftmost match, as `re.search`
      reports it. */
  function AmountMatch(up: CaseFold, text: string): (r: Option<(nat, nat, nat)>)
    ensures var u, anchors := Upper(up, text), UpperAll(up, AmountAnchors);
            (r.Some? ==> LazyMatch(text, u, anchors, AmountProbe(up, text), r.value.0, r.value.1, r.value.2))
            && (r.Some? ==> forall i, a, p :: LazyMatch(text, u, anchors, AmountProbe(up, text), i, a, p) ==>
                              LexLeq(r.value, (i, a, p)))
            && (r.None? <==> forall i, a, p :: !LazyMatch(text, u, anchors, AmountProbe(up, text), i, a, p))
  {
    SearchFrom(text, Upper(up, text), UpperAll(up, AmountAnchors), AmountProbe(up, text), 0)
  }

  /** `t` is the whole run of `[\d.,]` that starts after `R$` at `p` of
      `text` and the whitespace after it. */
  ghost predicate WholeTokenAt(text: string, p: nat, t: string) {
    p + |CurrencyTag| <= |text|
    && var q := SkipSpaces(text, p + |CurrencyTag|);
       q + |t| <= |text| && text[q..q + |t|] == t
       && (q + |t| == |text| || !IsAmountChar(text[q + |t|]))
  }

  function AmountToken(text: string, p: nat): (t: string)
    requires p + |CurrencyTag| <= |text|
    ensures WholeTokenAt(text, p, t)
    ensures forall k :: 0 <= k < |t| ==> IsAmountChar(t[k])
  {
    var q := SkipSpaces(text, p + |CurrencyTag|);
    text[q..RunEnd(text, q, IsAmountChar)]
  }

  /** Group 2 of the amount pattern: the whole run of `[\d.,]` after `R$`
      and any whitespace, at the reported match. */
  function Amount(up: CaseFold, text: string): (r: Option<string>)
    ensures r.None? <==> AmountMatch(up, text).None?
    ensures r.Some? ==> |r.value| > 0 && forall k :: 0 <= k < |r.value| ==> IsAmountChar(r.value[k])
    ensures r.Some? ==> WholeTokenAt(text, AmountMatch(up, text).value.2, r.value)
  {
    match AmountMatch(up, text)
    case None => None
    case Some((i, a, p)) =>
      assert AmountProbe(up, text)(p);
      Some(AmountToken(text, p))
  }

  // ---------------------------------------------------------------------
  // Duration: (duração|prazo).*?(\d+)\s*(meses|anos|dias)  (clara5.py:152-153)

  const DurationAnchors: seq<string> := ["duração", "prazo"]
  const Units: seq<string> := ["meses", "anos", "dias"]

  /** The first of `ws`, from the `x`-th on, that occurs at `q` in `u`. */
  function FirstAt(u: string, ws: seq<string>, q: nat, x: nat): (r: Option<nat>)
    requires x <= |ws|
    decreases |ws| - x
    ensures r.Some? ==> x <= r.value < |ws| && OccursAt(u, ws[r.value], q)
    ensures r.Some? ==> forall y :: x <= y < r.value ==> !OccursAt(u, ws[y], q)
    ensures r.None? ==> forall y :: x <= y < |ws| ==> !OccursAt(u, ws[y], q)
  {
    if x == |ws| then None
    else if OccursAt(u, ws[x], q) then Some(x)
    else FirstAt(u, ws, q, x + 1)
  }

  /** `\s*(meses|anos|dias)` after position `d`: the unit as written in the
      text, the first alternative that matches once the whitespace run is
      skipped. */
  function UnitAfter(up: CaseFold, text: string, d: nat): (r: Option<string>)
    requires d <= |text|
    ensures r.None? <==> forall y :: 0 <= y < |Units| ==> !OccursAt(Upper(up, text), Upper(up, Units[y]), SkipSpaces(text, d))
    ensures r.Some? ==>
              var q := SkipSpaces(text, d);
              q + |r.value| <= |text| && text[q..q + |r.value|] == r.value
    ensures r.Some? ==> Upper(up, r.value) in UpperAll(up, Units)
  {
    var q := SkipSpaces(text, d);
    var units := UpperAll(up, Units);
    match FirstAt(Upper(up, text), units, q, 0)
    case None =>
      assert forall y :: 0 <= y < |Units| ==> units[y] == Upper(up, Units[y]);
      None
    case Some(x) =>
      UpperSlice(up, text, q, q + |units[x]|);
      Some(text[q..q + |units[x]|])
  }

  /** `(\d+)\s*(meses|anos|dias)` matches at `p`, with both runs taken whole. */
  predicate DurationAt(up: CaseFold, text: string, p: nat) {
    p < |text| && IsDigit(text[p]) && UnitAfter(up, text, RunEnd(text, p, IsDigit)).Some?
  }

  function DurationProbe(up: CaseFold, text: string): nat -> bool {
    (p: nat) => DurationAt(up, text, p)
  }

  /** Where the duration pattern matches: the leftmost match. */
  function DurationMatch(up: CaseFold, text: string): (r: Option<(nat, nat, nat)>)
    ensures var u, anchors := Upper(up, text), UpperAll(up, DurationAnchors);
            (r.Some? ==> LazyMatch(text, u, anchors, DurationProbe(up, text), r.value.0, r.value.1, r.value.2))
            && (r.Some? ==> forall i, a, p :: LazyMatch(text, u, anchors, DurationProbe(up, text), i, a, p) ==>
                              LexLeq(r.value, (i, a, p)))
            && (r.None? <==> forall i, a, p :: !LazyMatch(text, u, anchors, DurationProbe(up, text), i, a, p))
  {
    SearchFrom(text, Upper(up, text), UpperAll(up, DurationAnchors), DurationProbe(up, text), 0)
  }

  /** `n` is the whole digit run at `p` of `text`, and `w` is the text right
      after the whitespace run that follows it. */
  ghost predicate WholeRunsAt(text: string, p: nat, n: string, w: string) {
    p + |n| <= |text| && text[p..p + |n|] == n
    && (p + |n| == |text| || !IsDigit(text[p + |n|]))
    && var q := SkipSpaces(text, p + |n|);
       q + |w| <= |text| && text[q..q + |w|] == w
  }

  /** Groups 2 and 3 at a position where `(\d+)\s*(meses|anos|dias)`
      matches: the whole digit run, and the unit as written right after the
      whitespace run that follows it. */
  function DurationGroups(up: CaseFold, text: string, p: nat): (r: (string, string))
    requires DurationAt(up, text, p)
    ensures WholeRunsAt(text, p, r.0, r.1)
    ensures |r.0| > 0 && forall k :: 0 <= k < |r.0| ==> IsDigit(r.0[k])
    ensures Upper(up, r.1) in UpperAll(up, Units)
  {
    var d := RunEnd(text, p, IsDigit);
    (text[p..d], UnitAfter(up, text, d).value)
  }

  /** Groups 2 and 3 of the duration pattern: the digits and the unit as
      written in the text, at the reported match. */
  function Duration(up: CaseFold, text: string): (r: Option<(string, string)>)
    ensures r.None? <==> DurationMatch(up, text).None?
    ensures r.Some? ==> |r.value.0| > 0 && forall k :: 0 <= k < |r.value.0| ==> IsDigit(r.value.0[k])
    ensures r.Some? ==> Upper(up, r.value.1) in UpperAll(up, Units)
    ensures r.Some? ==> WholeRunsAt(text, DurationMatch(up, text).value.2, r.value.0, r.value.1)
  {
    match DurationMatch(up, text)
    case None => None
    case Some((i, a, p)) =>
      assert DurationProbe(up, text)(p);
      Some(DurationGroups(up, text, p))
  }

  /** What case folding must respect for the greedy runs above to be exact:
      it keeps digits digits and whitespace whitespace. */
  ghost predicate FoldSound(up: CaseFold) {
    forall c: char :: (IsDigit(up(c)) <==> IsDigit(c)) && (IsSpace(up(c)) <==> IsSpace(c))
  }

  /** Backtracking never helps `(\d+)\s*(meses|anos|dias)`: a unit can only
      start where the whole digit run and the whole whitespace run after it
      end, so taking both runs whole is what the regex engine does. */
  lemma GreedyRunsAreForced(up: CaseFold, text: string, p: nat, d: nat, q: nat, x: nat)
    requires FoldSound(up)
    requires p < |text| && p < d <= RunEnd(text, p, IsDigit)
    requires d <= q <= SkipSpaces(text, d) && x < |Units|
    requires OccursAt(Upper(up, text), Upper(up, Units[x]), q)
    ensures d == RunEnd(text, p, IsDigit) && q == SkipSpaces(text, d)
  {
    var u := Upper(up, text);
    var w := Upper(up, Units[x]);
    assert Units[x][0] in "mad";
    assert !IsDigit(Units[x][0]) && !IsSpace(Units[x][0]);
    assert u[q] == w[0] == up(Units[x][0]);
    if d < RunEnd(text, p, IsDigit) {
      assert false;
    }
    if q < SkipSpaces(text, d) {
      assert false;
    }
  }

  // ---------------------------------------------------------------------
  // The summary and its sentinels (clara5.py:144-168)

  /** What the summariser extracts; absence is explicit. */
  datatype Summary = Summary(
    kind: ContractKind,
    parties: Option<(string, string)>,
    amount: Option<string>,
    duration: Option<(string, string)>)

  function Summarise(up: CaseFold, text: string): Summary {
    Summary(ContractType(up, text), Parties(up, text), Amount(up, text), Duration(up, text))
  }

  const NotIdentified := "Não identificado"
  const NotSpecified := "Não especificado"
  const NotSpecifiedFem := "Não especificada"

  /** The summary's string fields as returned: `tipo`, `contratante`,
      `contratada`, `valor`, `duracao`. */
  datatype SummaryFields = SummaryFields(tipo: string, contratante: string, contratada: string, valor: string, duracao: string)

  /** The strings, with each absent field replaced by its sentinel. */
  function Render(s: Summary): (f: SummaryFields)
  {
    SummaryFields(
      s.kind.Name(),
      if s.parties.Some? then s.parties.value.0 else NotIdentified,
      if s.parties.Some? then s.parties.value.1 else NotIdentified,
      if s.amount.Some? then "R$ " + s.amount.value else NotSpecified,
      if s.duration.Some? then s.duration.value.0 + " " + s.duration.value.1 else NotSpecifiedFem)
  }

  /** The party fields are both "Não identificado" when the labels do not
      appear in order, and otherwise the stripped texts between the labels of
      the reported match. */
  lemma PartyFields(up: CaseFold, text: string)
    ensures var f := Render(Summarise(up, text));
            (PartiesSpan(up, text).None? ==> f.contratante == NotIdentified && f.contratada == NotIdentified)
            && (PartiesSpan(up, text).Some? ==>
                  var s := PartiesSpan(up, text).value;
                  f.contratante == Strip(Slice(text, s.0 + |ContratanteTag|, s.1))
                  && f.contratada == Strip(Slice(text, s.1 + |ContratadaTag|, s.2)))
  {
  }

  /** The amount field is the sentinel exactly when no amount was found, and
      otherwise "R$ " followed by a non-empty token of digits, dots and
      commas. */
  lemma AmountField(up: CaseFold, text: string)
    ensures var f := Render(Summarise(up, text));
            (f.valor == NotSpecified <==> Amount(up, text).None?)
            && (Amount(up, text).Some? ==>
                  |f.valor| > 3 && f.valor[..3] == "R$ " && forall k :: 3 <= k < |f.valor| ==> IsAmountChar(f.valor[k]))
  {
    var amount := Amount(up, text);
    var f := Render(Summarise(up, text));
    if amount.Some? {
      var t := amount.value;
      assert f.valor == "R$ " + t;
      forall k | 3 <= k < |f.valor| ensures IsAmountChar(f.valor[k]) {
        assert f.valor[k] == t[k - 3];
      }
      assert f.valor[0] == 'R' != NotSpecified[0];
    }
  }

  /** The duration field is the sentinel exactly when no duration was found,
      and otherwise digits, one space, and a unit as written in the text. */
  lemma DurationField(up: CaseFold, text: string)
    ensures var f := Render(Summarise(up, text));
            (f.duracao == NotSpecifiedFem <==> Duration(up, text).None?)
            && (Duration(up, text).Some? ==>
                  exists n :: 0 < n < |f.duracao| && f.duracao[n] == ' '
                    && (forall k :: 0 <= k < n ==> IsDigit(f.duracao[k]))
                    && Upper(up, f.duracao[n + 1..]) in UpperAll(up, Units))
  {
    var duration := Duration(up, text);
    var f := Render(Summarise(up, text));
    assert f.duracao == if duration.Some? then duration.value.0 + " " + duration.value.1 else NotSpecifiedFem;
    if duration.Some? {
      var digits, unit := duration.value.0, duration.value.1;
      DigitsSpaceUnit(up, digits, unit);
      assert f.duracao[0] == digits[0];
      assert IsDigit(f.duracao[0]) && !IsDigit(NotSpecifiedFem[0]);
    }
  }

  lemma DigitsSpaceUnit(up: CaseFold, digits: string, unit: string)
    requires |digits| > 0 && forall k :: 0 <= k < |digits| ==> IsDigit(digits[k])
    requires Upper(up, unit) in UpperAll(up, Units)
    ensures var t := digits + " " + unit;
            exists n :: 0 < n < |t| && t[n] == ' '
              && (forall k :: 0 <= k < n ==> IsDigit(t[k]))
              && Upper(up, t[n + 1..]) in UpperAll(up, Units)
  {
    var t := digits + " " + unit;
    var n := |digits|;
    assert t[n + 1..] == unit;
    assert forall k :: 0 <= k < n ==> t[k] == digits[k];
    assert 0 < n < |t| && t[n] == ' ' && (forall k :: 0 <= k < n ==> IsDigit(t[k]))
           && Upper(up, t[n + 1..]) in UpperAll(up, Units);
  }

  /** Text without any anchor gives every sentinel and the generic type. */
  lemma NoAnchorsGivesSentinels(up: CaseFold, text: string)
    requires forall i :: !OccursAt(Upper(up, text), Upper(up, ContratanteTag), i)
    requires forall i, a :: 0 <= a < |AmountAnchors| ==> !OccursAt(Upper(up, text), Upper(up, AmountAnchors[a]), i)
    requires forall i, a :: 0 <= a < |DurationAnchors| ==> !OccursAt(Upper(up, text), Upper(up, DurationAnchors[a]), i)
    requires !Contains(Upper(up, text), EducationalMarker) && !Contains(Upper(up, text), LeaseMarker)
    requires !Contains(Upper(up, text), ServicesMarker)
    ensures Render(Summarise(up, text))
            == SummaryFields("Contrato Genérico", NotIdentified, NotIdentified, NotSpecified, NotSpecifiedFem)
  {
    var u := Upper(up, text);
    assert Parties(up, text).None?;
    var amountAnchors := UpperAll(up, AmountAnchors);
    forall i: nat, a: nat, p: nat ensures !LazyMatch(text, u, amountAnchors, AmountProbe(up, text), i, a, p) {
      if a < |amountAnchors| { assert amountAnchors[a] == Upper(up, AmountAnchors[a]); }
    }
    var durationAnchors := UpperAll(up, DurationAnchors);
    forall i: nat, a: nat, p: nat ensures !LazyMatch(text, u, durationAnchors, DurationProbe(up, text), i, a, p) {
      if a < |durationAnchors| { assert durationAnchors[a] == Upper(up, DurationAnchors[a]); }
    }
  }

  /** Empty text: the generic type and every sentinel. */
  lemma EmptyTextSummary(up: CaseFold)
    ensures Render(Summarise(up, ""))
            == SummaryFields("Contrato Genérico", NotIdentified, NotIdentified, NotSpecified, NotSpecifiedFem)
  {
  }
}
