# Clara contract screening engine — a Dafny model

Clara (`clara5.py`) reads the text of a Brazilian consumer contract and does four things:

- It runs a fixed catalogue of six clause rules over the text (`analisar_clausulas`). Each rule carries a message, an explanation, a score, a category (`abusiva` or `favoravel`) and a recommendation. Every occurrence of a rule's pattern becomes one finding, with a snippet of the text around it.
- It sums the positive scores of the findings into a total and counts the favourable findings. It maps the total to a risk tier:
  - ALTO RISCO from 30 points;
  - RISCO MODERADO from 15 points;
  - BAIXO RISCO below 15 points.
- It splits the findings into a "problematic" tab and a "favourable" tab.
- It extracts a summary (`gerar_resumo_contrato`):
  - the contract type, from marker words in the upper-cased text;
  - the two parties, between the `CONTRATANTE:`, `CONTRATADA:` and `CLÁUSULAS:` labels;
  - the total amount, after `R$`;
  - the duration, as a number and a unit.

  Missing fields get fixed sentinel strings.

A plain-text report lists one line per finding and the tier line.

The model has six modules:

- `Text` (text.dfy) holds the Python string built-ins the engine relies on:
  - slicing with clipping;
  - `str.replace`;
  - `in`, through `FindFrom`, which also finds the three labels of the parties pattern (the amount and duration anchors are located by `SearchFrom`);
  - `str.strip`;
  - `str(int)`;
  - the `\d` and `\s` classes.
- `RuleCatalog` (rule_catalog.dfy) holds the six rules with their exact texts and scores.
- `ClauseMatcher` (clause_matcher.dfy) holds the matcher:
  - the snippet window;
  - the specification function `Scan`;
  - the nested loop as the methods `AnalyseClauses` and `AppendRuleFindings`.
- `RiskAggregator` (risk_aggregator.dfy) holds the total, the favourable count, the two tabs, the tiers and their markup, and the all-clear branch.
- `ContractSummarizer` (contract_summarizer.dfy) holds the summary. The three `re.search` calls are modelled as the regex engine resolves them: the leftmost match, then the first alternative of the anchor group, then the shortest lazy skip, and greedy runs of digits and whitespace. `\d` covers the ASCII digits only (see "## Left out").
- `Report` (report.dfy) holds the finding lines and the tier line.

The regular-expression engine that runs the six catalogue patterns is a parameter of the model, `Matcher`. It takes a pattern and a text and returns the occurrences `re.finditer` yields. Case folding is a parameter as well (`CaseFold`). `texto.upper()` is modelled as that folding applied to each character. A case-insensitive literal match means that the folded text equals the folded literal at that position.

Two behaviours of the code are worth noting:

- With no finding, the code shows the all-clear message and computes no total and no tier (clara5.py:256, 403). `Assess` returns `AllClear` for an empty list.
- A single +15 finding is already RISCO MODERADO, because the bound is inclusive (clara5.py:265). `TierBands` states the boundary.

## Model

| member | source | states |
|---|---|---|
| RuleCatalog.CatalogShape | clara5.py:71-117 | six rules with distinct patterns; a rule is favourable exactly when its score is not positive; the only favourable rule is the withdrawal-right rule, with -5; no rule has the `potencial` category |
| ClauseMatcher.AnalyseClauses | clara5.py:119-130 | the nested loop returns exactly `Scan` over the catalogue, one finding per reported occurrence |
| ClauseMatcher.AppendRuleFindings | clara5.py:122-128 | the inner loop appends one finding per occurrence of the rule, in occurrence order, after the findings already collected |
| ClauseMatcher.Context | clara5.py:123-126 | the `contexto` snippet never contains a newline |
| ClauseMatcher.SnippetWindow | clara5.py:123 | the snippet spans `max(0, start-50)` up to `min(len, end+50)`, maps each newline to a space and keeps everything else, and holds the matched text at offset `start - max(0, start-50)` |
| ClauseMatcher.InteriorSnippet | clara5.py:123-126 | with 50 characters on both sides the snippet is the match plus 100 characters, and the context adds 6 dots when the match is non-empty |
| ClauseMatcher.ContextWrapping | clara5.py:126 | the context is `"..." + snippet + "..."` exactly when the snippet is longer than 100 characters, and the snippet itself otherwise |
| ClauseMatcher.ScanCount | clara5.py:119-130 | the number of findings equals the total number of occurrences over all rules |
| ClauseMatcher.ScanAt | clara5.py:120-128 | findings are grouped by rule in catalogue order and by occurrence order within a rule; the k-th occurrence of rule i sits right after all occurrences of earlier rules and carries rule i unchanged with that occurrence's context |
| ClauseMatcher.ScanRules | clara5.py:120-128 | every finding carries one of the scanned rules |
| ClauseMatcher.ScanEmpty | clara5.py:119-130 | text in which no pattern occurs gives no finding |
| RiskAggregator.TotalScoreNonNegative | clara5.py:258 | the total, which sums only positive scores, is never negative |
| RiskAggregator.TotalScoreAppend | clara5.py:258 | the total of two runs of findings is the sum of their totals |
| RiskAggregator.TotalScoreInsert | clara5.py:258 | one more finding anywhere adds `max(0, score)` to the total: the favourable rule's -5 never lowers it |
| RiskAggregator.FavourableCountIsTabSize | clara5.py:259 | the favourable count equals the number of findings in the favourable tab |
| RiskAggregator.TabsPartition | clara5.py:290-306 | the problematic and favourable tabs interleave to the full findings list, each keeping finding order; their sizes add up and each holds only its own category |
| RiskAggregator.InterleavingLength | clara5.py:290-306 | an interleaving of two lists is as long as both together |
| RiskAggregator.TierBands | clara5.py:262-270 | ALTO exactly from 30, MODERADO exactly for 15 to 29, BAIXO exactly below 15, with the boundary cases 14, 15, 29 and 30 |
| RiskAggregator.TierMonotone | clara5.py:262-270 | a higher total never gives a less serious tier |
| RiskAggregator.MoreFindingsNeverLowerTier | clara5.py:256-270 | adding a finding anywhere keeps the analysis rated, never lowers the total and never lowers the tier |
| RiskAggregator.OnlyFavourableFindings | clara5.py:256-270 | findings that are all of the favourable catalogue rule give total 0, tier BAIXO with its recommendation, and a favourable count equal to their number |
| RiskAggregator.OnlyFavourableParts | clara5.py:258-259 | favourable findings with non-positive scores add nothing to the total and all count as favourable |
| RiskAggregator.CancellationAndForeignForumAreHighRisk | clara5.py:258-263 | a cancellation-ban finding and a foreign-forum finding together reach at least 30 points and ALTO, whatever else was found |
| ContractSummarizer.ContractTypeMarkers | clara5.py:134-140 | each contract type is chosen exactly when its marker is in the upper-cased text and no marker checked earlier is |
| ContractSummarizer.ContractTypeOnlyPromotes | clara5.py:134-140 | more text only moves the type to a kind checked earlier |
| ContractSummarizer.PartiesSpan | clara5.py:143 | the reported match of the parties pattern is a match, and it is the least in the (start, second label, third label) order; nothing is reported exactly when no match exists |
| ContractSummarizer.Parties | clara5.py:143-145 | the parties are absent exactly when the pattern has no match; otherwise they are the stripped texts between `CONTRATANTE:` and `CONTRATADA:` and between `CONTRATADA:` and `CLÁUSULAS:` of the reported match |
| ContractSummarizer.ScanLine | clara5.py:148-152 | the lazy `.*?` stops at the first position on the same line where the rest of the pattern matches, and reports nothing when no such position exists on the line |
| ContractSummarizer.TryAnchors | clara5.py:148-152 | the alternatives of the anchor group are tried in order, and the first one that leads to a match wins |
| ContractSummarizer.SearchFrom | clara5.py:148-152 | `re.search` without DOTALL: the reported match is the least by (start, alternative, lazy end), and nothing is reported exactly when there is no match |
| ContractSummarizer.AmountMatch | clara5.py:148 | the amount pattern's reported match is its leftmost and least match, and it is absent exactly when the pattern cannot match |
| ContractSummarizer.AmountToken | clara5.py:148 | the token at a match is the whole run of `[\d.,]` right after `R$` and its whitespace, copied from the text |
| ContractSummarizer.Amount | clara5.py:148-149 | group 2 is present exactly when the pattern matches; it is a non-empty run of digits, dots and commas, and it is the whole such run after `R$` and its whitespace at the reported match, copied from the text |
| ContractSummarizer.FirstAt | clara5.py:152 | the unit alternatives are tried in order, and the first one that occurs wins |
| ContractSummarizer.UnitAfter | clara5.py:152 | after the whitespace run, a unit is found exactly when one of `meses`, `anos`, `dias` occurs there case-insensitively, and the unit returned is the text at that position |
| ContractSummarizer.DurationMatch | clara5.py:152 | the duration pattern's reported match is its leftmost and least match, and it is absent exactly when the pattern cannot match |
| ContractSummarizer.DurationGroups | clara5.py:152-153 | at a match, the number is the whole digit run and the unit is the text right after the whitespace run that follows it |
| ContractSummarizer.Duration | clara5.py:152-153 | groups 2 and 3 are present exactly when the pattern matches; the number is the whole digit run at the reported match and the unit is the text right after the whitespace that follows it |
| ContractSummarizer.GreedyRunsAreForced | clara5.py:152 | a unit can start only after the whole digit run and the whole whitespace run, so taking both runs whole is what the backtracking engine does |
| ContractSummarizer.PartyFields | clara5.py:143-145 | both party fields are "Não identificado" when the labels do not appear in order, and otherwise the stripped texts between the labels of the reported match |
| ContractSummarizer.AmountField | clara5.py:148-149 | `valor` is "Não especificado" exactly when no amount was found, and otherwise "R$ " and a non-empty token of digits, dots and commas |
| ContractSummarizer.DurationField | clara5.py:152-153 | `duracao` is "Não especificada" exactly when no duration was found, and otherwise digits, one space and a unit |
| ContractSummarizer.NoAnchorsGivesSentinels | clara5.py:132-153 | text without markers or anchors gives "Contrato Genérico" and every sentinel |
| ContractSummarizer.EmptyTextSummary | clara5.py:132-153 | empty text gives "Contrato Genérico" and every sentinel |
| Report.FindingLineFields | clara5.py:387 | a finding line is `- `, the message, ` (`, the score, ` pts): `, then the explanation, and the score parses back to the same integer |
| Report.JoinLinesNewlines | clara5.py:387 | joining single-line texts gives exactly one newline fewer than there are lines |
| Report.FindingLineOneLine | clara5.py:387 | a finding line has no newline when its message and explanation have none |
| Report.FindingsBlockLines | clara5.py:387 | the findings block has exactly one line per finding when no message or explanation spans lines |
| Report.OpeningTagSurvives | clara5.py:383 | as written, the tier line keeps the opening badge tag for every tier: the strip removes only `</span>` |
| Report.RiskLineIsPlainLabel | clara5.py:383 | the corrected tier line is the bare tier label, with no angle brackets |
| Text.ReplaceOneChar | clara5.py:123 | `replace` with a one-character pattern is a per-character map |
| Text.StripIdempotent | clara5.py:144-145 | stripping twice is stripping once |
| Text.StripBounds | clara5.py:144-145 | `strip()` keeps a contiguous block and drops only whitespace on both sides |
| Text.IntToStringRoundTrip | clara5.py:387 | `str(score)` parses back to the same integer, negative scores included |

## Left out

- The Streamlit page, its CSS, sidebar, tabs, cards and columns are not modelled. They are presentation only.
- File ingestion is not modelled: PDF text extraction, DOCX paragraphs and UTF-8 decoding of uploads. It is I/O and calls into third-party libraries.
- The matplotlib chart and its per-category counts are not modelled. They are presentation only, and the `potencial` count is always zero (`RuleCatalog.CatalogShape`).
- The report's timestamp is not modelled, since `datetime.now()` is a clock.
- The remaining fixed text of the report template and the markdown `resumo` string are not modelled. They only interpolate values that are modelled.
- The download button and the all-clear message text are not modelled.
- ClauseMatcher.AnalyseClauses: the regular-expression engine for the six catalogue patterns is a parameter. The model does not state which spans `re.finditer` returns for each pattern, only what the matcher does with them.
- ContractSummarizer.ContractType: `str.upper()` is a per-character fold. Uppercasing that changes the length (for example "ß" to "SS") is not modelled.
- ContractSummarizer.Duration: `\d` is modelled as the ASCII digits. Python also accepts other Unicode decimal digits.
- ContractSummarizer.Amount: the `\d` in `[\d.,]` is modelled as the ASCII digits, for the same reason.
- Report.FindingsBlockLines: it takes as a hypothesis that the catalogue's messages and explanations have no newline. That is visible in the six literals of `RuleCatalog.Rules`, but it is not proved about them, because checking each character of the long explanation literals is too costly for the verifier.
- ContractSummarizer.GreedyRunsAreForced: assumes the case fold keeps digits as digits and whitespace as whitespace. Any real fold does.

## Findings

| source | as written | input that shows it | evidently intended | confidence | as-written member | corrected member |
|---|---|---|---|---|---|---|
| clara5.py:383 | the tier line strips `<span class="risk-high">` with double quotes, but every tier's markup uses single quotes, so only `</span>` is removed | any rated analysis, for example one cancellation-ban and one foreign-forum finding (total 30): the report line reads `<span class='risk-high'>ALTO RISCO` | the report shows the bare label, e.g. `ALTO RISCO` | not executed | Report.OpeningTagSurvives | Report.RiskLineIsPlainLabel |
