/** The fixed, ordered catalogue of clause rules that the screen runs
    (clara5.py:71-117). Each rule pairs a case-insensitive regular expression
    with the advice shown for every clause it matches. */
module RuleCatalog {

  /** The `tipo` of a rule: "abusiva", "potencial" or "favoravel". */
  datatype Category = Abusiva | Potencial | Favoravel

  /** One entry of the catalogue: the pattern (the dictionary key) and its
      metadata (`mensagem`, `explicacao`, `pontuacao`, `tipo`,
      `recomendacao`). */
  datatype Rule = Rule(
    pattern: string,
    message: string,
    explanation: string,
    score: int,
    category: Category,
    recommendation: string)

  /** The catalogue in definition order, which is the order a Python dict
      iterates its keys in. */
  const Rules: seq<Rule> := [
    Rule(
      "(não poderá cancelar|proibido cancelar|vedado rescindir).*(qualquer hipótese|mesmo em caso)",
      "Proibição Total de Cancelamento",
      "Cláusula que impede o cancelamento em qualquer circunstância é considerada abusiva pelo CDC (Art. 51, IV).",
      15, Abusiva,
      "Solicite a modificação para permitir cancelamento com aviso prévio de 30 dias."),
    Rule(
      "(renovação automática|prorrogado automaticamente).*(sem aviso|não notifica)",
      "Renovação Automática sem Aviso",
      "Contratos devem prever aviso prévio de pelo menos 30 dias para renovação automática (Art. 9º, Lei 8.245/91).",
      10, Abusiva,
      "Exija cláusula que obrigue notificação com antecedência mínima de 30 dias."),
    Rule(
      "(multa|juros).*(superior a 2%|acima de 10%|20%)",
      "Multa/Juros Abusivos",
      "Multas superiores a 2% ao mês ou juros acima da taxa média do mercado são considerados abusivos (Súmula 54 do STJ).",
      12, Abusiva,
      "Negocie redução para no máximo 2% de multa e juros de 1% ao mês."),
    Rule(
      "(não se responsabiliza|isenção de responsabilidade).*(qualquer falha|indisponibilidade)",
      "Isenção Total de Responsabilidade",
      "Empresas não podem se eximir totalmente de responsabilidade por falhas na prestação de serviços (Art. 14, CDC).",
      15, Abusiva,
      "Exija redação que limite responsabilidade apenas a casos de força maior."),
    Rule(
      "(foro|jurisdição).*(Luxemburgo|exterior|estrangeiro)",
      "Foro em País Estrangeiro",
      "Contratos com consumidores brasileiros devem prever foro no Brasil (Art. 78, CDC).",
      15, Abusiva,
      "Insista em foro no local de sua residência no Brasil."),
    Rule(
      "(direito ao arrependimento|desistência|7 dias)",
      "Direito ao Arrependimento",
      "Cláusula que respeita o direito legal de arrependimento em 7 dias (Art. 49, CDC).",
      -5, Favoravel,
      "Mantenha esta cláusula que protege seus direitos.")
  ]

  /** The catalogue's shape: six rules with distinct patterns (a dictionary
      cannot hold a key twice); the last is the only favourable one and the
      only one with a non-positive score. */
  lemma CatalogShape()
    ensures |Rules| == 6
    ensures forall i, j :: 0 <= i < j < |Rules| ==> Rules[i].pattern != Rules[j].pattern
    ensures forall r :: r in Rules ==> (r.category == Favoravel <==> r.score <= 0)
    ensures forall r :: r in Rules && r.category == Favoravel ==> r == Rules[5] && r.score == -5
    ensures forall r :: r in Rules ==> r.category != Potencial
  {
  }
}
