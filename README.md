# MyDolla budgeting assistant — a Dafny model of its core

MyDolla is a budgeting web application. A user enters a monthly income, expenses in seven
categories (rent, food, transportation, utilities, entertainment, savings, other) and a goal.
The back end computes a breakdown and insights. It asks a language model for narrative
advice and parses the answer into sections, or builds a rule-based answer when the model is
unavailable. The front end keeps the submitted budget as a baseline and lets the user type
"what-if" commands such as "Save 5% more" or "Cut entertainment by $50". It also compares
spending with the 50/30/20 rule. A glossary service serves, filters and explains financial terms.

This project models four parts of that system and proves properties of the model:

- **The what-if engine and the root component** (`frontend/src/App.jsx`).
  - Modules `Scenario` (pure), `Patterns` and `WhatIf`.
  - `Scenario` covers normalising the command, the three command patterns in their priority
    order, the two regular expressions (modelled as scanners), the alias table, the default
    of 10% of the category, the clamp at zero, and the captions.
  - `WhatIf` holds the class `App`. Its fields are the component's state slots. Its methods
    `SubmitBudget` and `SubmitWhatIf` are the two submit handlers.
  - Key property: the baseline never changes, so what-ifs never compound.
- **Parsing the model's answer and the rule-based fallback** (`backend/app/services/ai_service.py`).
  - Module `AiSections` covers section extraction, bullet lists and the two-phase saving plan.
  - Module `AiService` covers the breakdown (sorted by amount, descending and stable), the
    insights, `parse_ai_response` and `generate_fallback_response`.
- **The 50/30/20 comparison** (`frontend/src/components/BudgetComparison.jsx`).
  - Module `Comparison` covers the bucket filters, the sums, the shares of income, the targets
    and the over/under flags.
- **The glossary routes** (`backend/app/routes/glossary.py`).
  - Module `Glossary` covers the category and search filters, lookup by id, and the
    normalisation and rule-based fallback of the explain endpoint.

Shared modules:

- `Wrappers` defines `Option` and `Result`.
- `Text` holds string helpers with the JavaScript and Python meanings: lower-casing, trimming,
  substring search, split and join.
- `BudgetModel` holds the front end's budget.

The outside world enters the model as parameters:

- An HTTP analysis request is a function `Budget -> Result<R, Option<string>>`.
- The language model's answer is a string parameter, or `None` when the call fails.
- Number formatting (`toFixed(2)`, `:.1f`, `:.2f`) is a function parameter `real -> string`.
- Rendering an id in decimal is a function parameter.

## Model

| member | source | states |
|---|---|---|
| BudgetModel.CategoryKey | frontend/src/App.jsx:66-76 | every category key is a non-empty lower-case word without `_`, so the caption's `replace('_', ' ')` leaves it unchanged |
| Text.Lower | frontend/src/App.jsx:49 | lower-casing keeps the length and maps each character on its own |
| Text.Trim | frontend/src/App.jsx:49 | the result is the input with leading and trailing whitespace removed, and neither of its ends is whitespace |
| Text.Contains | frontend/src/App.jsx:52 | `includes` holds iff the text occurs at some position |
| Text.ContainsAny | frontend/src/components/BudgetComparison.jsx:11-13 | `some(includes)` holds iff one of the words occurs |
| Text.Split | backend/app/services/ai_service.py:142 | the pieces of `split("\n")` are at least one and contain no separator |
| Text.JoinSplit | backend/app/services/ai_service.py:142 | joining the pieces with the separator gives back the text |
| Text.SplitJoin | backend/app/services/ai_service.py:333 | splitting a join of separator-free pieces gives back the pieces |
| Scenario.Normalize | frontend/src/App.jsx:49 | the normalised command has no upper-case letter and no whitespace at either end |
| Scenario.NormalizeIdempotent | frontend/src/App.jsx:49 | normalising twice is normalising once |
| Patterns.PercentToken | frontend/src/App.jsx:53 | `/(\d+(?:\.\d+)?)\s*%/`: none iff no position starts a numeral followed by optional spaces and `%`; otherwise the captured numeral |
| Patterns.FindPercentFrom | frontend/src/App.jsx:53 | the leftmost match position and its end, with no match before it |
| Patterns.PercentAt | frontend/src/App.jsx:53 | a match at a fixed position exists iff the scanner finds it |
| Patterns.PercentMatchUnique | frontend/src/App.jsx:53 | a match at a position has one end: the greedy numeral |
| Patterns.PercentAtOnly | frontend/src/App.jsx:53 | a match's numeral is the longest numeral there, followed by spaces and `%` |
| Patterns.SpacesThenPercentAt | frontend/src/App.jsx:53 | the `%` after the spaces is the first non-space |
| Patterns.NumeralEnd | frontend/src/App.jsx:53 | `\d+(?:\.\d+)?` read greedily from a digit is a numeral |
| Patterns.NumeralEndLongest | frontend/src/App.jsx:53 | no numeral starting there is longer than the greedy one |
| Patterns.FractionLongest | frontend/src/App.jsx:53 | a numeral with a fraction is covered by the greedy read |
| Patterns.NumeralEndChars | frontend/src/App.jsx:53 | the greedy numeral holds only digits and a dot |
| Patterns.DigitsEnd | frontend/src/App.jsx:53 | the maximal run of digits from a position |
| Patterns.DigitsEndAtLeast | frontend/src/App.jsx:53 | any run of digits ends no later than the maximal one |
| Patterns.DollarToken | frontend/src/App.jsx:63 | `/\$(\d+(?:\.\d+)?)/`: none iff no `$` is followed by a digit; otherwise the captured numeral |
| Patterns.DollarAt | frontend/src/App.jsx:63 | a match at a fixed position exists iff the scanner finds it |
| Patterns.FindDollarFrom | frontend/src/App.jsx:111 | the leftmost match, with no match before it |
| Patterns.Pow10 | frontend/src/App.jsx:55 | the place value of a fraction digit is positive |
| Patterns.NumeralValue | frontend/src/App.jsx:64 | `parseFloat` of a captured numeral is non-negative |
| Scenario.FirstMention | frontend/src/App.jsx:79-84 | the index of the first alias the text contains; no earlier alias occurs |
| Scenario.FirstAlias | frontend/src/App.jsx:78-84 | none iff no alias occurs; otherwise the category of the first alias in table order |
| Scenario.FirstAliasEarliest | frontend/src/App.jsx:79-84 | any alias that occurs yields a category; the one returned is the earliest that occurs |
| Scenario.SynonymAliases | frontend/src/App.jsx:66-76 | "housing" selects rent and "groceries" selects food when no earlier alias occurs |
| Scenario.ExplicitAmount | frontend/src/App.jsx:63-64 | the dollar amount is non-negative, and 0 without a `$` numeral |
| Scenario.ResolvedAmount | frontend/src/App.jsx:86-90 | a zero amount falls back to 10% of the category's current value (0 for a missing key) |
| Scenario.Parse | frontend/src/App.jsx:49-152 | The command is parsed in priority order: save (needs "save" and "%"), then decrease, then increase. A matching but unusable pattern does not fall through. The result is none iff no label would be produced. |
| Scenario.ParseValid | frontend/src/App.jsx:49-147 | every parsed intent has a non-negative percent or a positive amount |
| Scenario.ParseDependsOnMentions | frontend/src/App.jsx:49-147 | two commands with the same triggers, tokens and first alias parse alike |
| Scenario.PercentOf | frontend/src/App.jsx:55-56 | the extra saving is non-negative for non-negative income and percent |
| Scenario.Apply | frontend/src/App.jsx:52-147 | Only the target category changes, and income and goal stay. A save adds the share of income to savings. A decrease clamps at zero. An increase adds the amount. |
| Scenario.Adjusted | frontend/src/App.jsx:91-95 | a decrease by at most the current amount subtracts it, a larger one leaves 0; a decreased amount is never negative and never above the current one; an increase adds exactly the amount |
| Scenario.ApplyWellFormed | frontend/src/App.jsx:46-147 | a valid intent keeps a budget with non-negative amounts well-formed |
| Scenario.DecreaseVerb | frontend/src/App.jsx:96-102 | the verb is "cut" iff "cut" occurs; "reduced" iff "reduce" occurs and "cut" does not; "lowered" iff "lower" or "less" occurs and neither earlier word does; otherwise "decreased" |
| Scenario.Label | frontend/src/App.jsx:58-144 | every caption starts "What if you " and ends in "?"; a save caption starts "What if you saved " and names the percent token; an adjust caption starts with the chosen verb (the decrease verb or "increased") and names the category and formatted amount |
| Scenario.SaveCaption | frontend/src/App.jsx:58 | the caption is "What if you saved " followed by the captured percent token and "% more?", and nothing else |
| Scenario.AdjustCaption | frontend/src/App.jsx:103-105 | the caption is "What if you ", the verb and a space, followed by the category, " by $", the formatted amount and "?", and nothing else |
| Scenario.ParseErrorMessage | frontend/src/App.jsx:149-151 | the message quotes the command and both example commands |
| Scenario.TrimUnchanged | frontend/src/App.jsx:49 | trimming text without whitespace ends is the identity |
| WhatIf.ErrorText | frontend/src/App.jsx:27-29 | `message \|\| fallback`: a non-empty server message is shown; an absent or empty one is replaced by the fallback |
| WhatIf.ResolveCategory | frontend/src/App.jsx:78-84 | the loop over the alias table returns the first alias's category |
| WhatIf.Derive | frontend/src/App.jsx:49-147 | the branch bodies compute `Apply` of the parsed intent with its non-empty caption, or an empty caption and the unchanged copy |
| WhatIf.SaveBranch | frontend/src/App.jsx:52-60 | without a percent token nothing changes; otherwise savings grow by the share of income |
| WhatIf.AdjustBranch | frontend/src/App.jsx:61-147 | without a category or with a non-positive amount nothing changes; otherwise the category is adjusted |
| WhatIf.App.constructor | frontend/src/App.jsx:7-12 | the initial state: no analysis, baseline, caption or error; income 0; not loading |
| WhatIf.App.SubmitBudget | frontend/src/App.jsx:14-40 | The budget becomes the baseline and its income the income shown, and the caption is cleared. Success replaces the analysis. Failure keeps it and sets the server's message or the fallback. |
| WhatIf.App.SubmitWhatIf | frontend/src/App.jsx:42-178 | The baseline and income never change. With no baseline or an empty command nothing happens. A command that does not parse sets only the parse error. Otherwise `Apply` of the intent is sent, its caption is shown, and the analysis or the error follows the outcome. A well-formed baseline yields a well-formed request. |
| WhatIf.App.Send | frontend/src/App.jsx:154-177 | the caption is shown and the baseline kept; success replaces the analysis, failure keeps it and sets the server's message or "Failed to analyze scenario" |
| AiSections.Lines | backend/app/services/ai_service.py:131 | the response splits into lines without newlines |
| AiSections.HeaderFrom | backend/app/services/ai_service.py:131 | a header match exists iff the `##` and name occur with only spaces between |
| AiSections.FirstHeader | backend/app/services/ai_service.py:129-133 | the first header line of the section followed by a line; no earlier one |
| AiSections.FirstFilled | backend/app/services/ai_service.py:131 | the first non-blank line after the header; all lines before it are blank |
| AiSections.SectionEnd | backend/app/services/ai_service.py:131 | the section ends at the first next `## `, `Disclaimer:` line or the end of text |
| AiSections.SectionEndFrom | backend/app/services/ai_service.py:131 | the same stop, searched from any line |
| AiSections.SectionOf | backend/app/services/ai_service.py:129-133 | the section is stripped, and empty when the header is absent |
| AiSections.FindSection | backend/app/services/ai_service.py:129-133 | `find_section` on the text returns a stripped string |
| AiSections.SectionBetween | backend/app/services/ai_service.py:129-133 | a header at `h` and a stop at `e` (or the end of the text) give the stripped lines between them |
| AiSections.FirstHeaderIs | backend/app/services/ai_service.py:129-133 | the first header line is found |
| AiSections.SectionEndIs | backend/app/services/ai_service.py:131 | the first stop line is where the section ends |
| AiSections.ExactHeaderIsPrefixHeader | backend/app/services/ai_service.py:131 | a header matching exactly also matches as a prefix |
| AiSections.PlanHeaderRest | backend/app/services/ai_service.py:114 | the prompt's plan header is the name followed by " (3-6 MONTHS)" |
| AiSections.PlanHeaderMissed | backend/app/services/ai_service.py:114-137 | the prompt's plan header does not match `find_section("SAVING PLAN")` as written |
| AiSections.PlanHeaderFound | backend/app/services/ai_service.py:114 | the plan header matches when the name may be followed by more text on the line |
| AiSections.SavingPlanSection | backend/app/services/ai_service.py:131-137 | for an answer that follows the prompt, the as-written rule yields no plan section and the corrected rule yields the plan text |
| AiSections.BulletStart | backend/app/services/ai_service.py:143 | the run of leading spaces, dashes, stars and bullets |
| AiSections.StripBullet | backend/app/services/ai_service.py:143 | the stripped line is empty or an item (no whitespace ends, not starting with a bullet character) |
| AiSections.BulletItems | backend/app/services/ai_service.py:141-145 | one item at most per line, each a non-empty stripped line |
| AiSections.BulletItemsAppend | backend/app/services/ai_service.py:141-145 | the items of two blocks are the items of each, concatenated |
| AiSections.BulletItemsSingle | backend/app/services/ai_service.py:144-145 | a line contributes its stripped text iff that is non-empty |
| AiSections.BulletItemsStep | backend/app/services/ai_service.py:141-145 | one more line adds at most its own item |
| AiSections.BulletList | backend/app/services/ai_service.py:141-145 | the loop collects exactly the bullet items of the section |
| AiSections.TagAt | backend/app/services/ai_service.py:151-152 | a tag is "month" in any case, an optional "s", only whitespace, then the range; it ends after the range |
| AiSections.FindTag | backend/app/services/ai_service.py:151-152 | the first tag position; no tag before it |
| AiSections.SkipSeparator | backend/app/services/ai_service.py:151-152 | one character is skipped exactly when it is `:` or `-`; nothing else is skipped |
| AiSections.FirstPhase | backend/app/services/ai_service.py:151-162 | the first phase exists iff its tag occurs, and is stripped |
| AiSections.SecondPhase | backend/app/services/ai_service.py:152-171 | the second phase exists iff its tag occurs, and is stripped |
| AiSections.EmptySectionNoPlan | backend/app/services/ai_service.py:148-149 | an empty plan section yields no plan |
| AiSections.SavingPlan | backend/app/services/ai_service.py:147-171 | the plan holds the bullet items of each phase found, and is absent when none is |
| AiService.Get | backend/app/services/ai_service.py:197 | `expenses.get(key, 0)`: the value under the key, or 0 when missing |
| AiService.Rate | backend/app/services/ai_service.py:178 | 0 without positive income; otherwise `rate * income == part * 100` |
| AiService.Abs | backend/app/services/ai_service.py:195 | the absolute value is non-negative and is `x` or `-x` |
| AiService.Insert | backend/app/services/ai_service.py:175-177 | insertion keeps every element |
| AiService.InsertSorted | backend/app/services/ai_service.py:175-177 | insertion keeps a descending sequence descending |
| AiService.SortDesc | backend/app/services/ai_service.py:175-177 | `sorted(..., reverse=True)` by amount: descending and a permutation |
| AiService.InsertWithAmount | backend/app/services/ai_service.py:175-177 | insertion places an element before equal amounts |
| AiService.SortDescStable | backend/app/services/ai_service.py:175-177 | equal amounts keep their original order (Python's sort is stable) |
| AiService.Unscore | backend/app/services/ai_service.py:180 | every `_` becomes a space and nothing else changes |
| AiService.TitleFrom | backend/app/services/ai_service.py:180 | `title()`: a letter after a non-letter is upper-case, other letters lower-case |
| AiService.DisplayName | backend/app/services/ai_service.py:180 | the display name has the key's length and reads as the key with spaces |
| AiService.RoundHalfEven | backend/app/services/ai_service.py:182 | rounding is within half a unit and exact on integers |
| AiService.Round1 | backend/app/services/ai_service.py:182 | `round(pct, 1)` is within 0.05, has one decimal, and keeps a one-decimal value |
| AiService.BreakdownOrdered | backend/app/services/ai_service.py:173-183 | one row per expense, amounts descending, categories paired with their amounts |
| AiService.BreakdownPercentages | backend/app/services/ai_service.py:178-182 | each percentage is the rounded share of income, 0 without positive income |
| AiService.BuildBreakdown | backend/app/services/ai_service.py:173-183 | the loop builds exactly the breakdown |
| AiService.RateInsight | backend/app/services/ai_service.py:197-203 | "excellent" iff the savings rate is at least 20, "aim higher" iff below 10, the guideline otherwise |
| AiService.InsightsShape | backend/app/services/ai_service.py:185-203 | The total line appears iff income is positive. A remaining or over-budget line appears iff remaining is non-zero. The savings line always comes last. |
| AiService.AnalysisInsights | backend/app/services/ai_service.py:185-203 | the loop builds exactly those insights |
| AiService.ParseAiResponse | backend/app/services/ai_service.py:127-214 | Each field is its section under the given header rule (`Exact` as written, `Prefix` corrected); advice falls back to the first 500 characters, the tips are its bullets, and the plan follows the rule above. The breakdown, insights and goal are computed in code. |
| AiService.Dashed | backend/app/services/ai_service.py:333 | each tip is prefixed with "- " |
| AiService.AdviceOpens | backend/app/services/ai_service.py:257-260 | the fallback advice opens with the income |
| AiService.AdviceHolds | backend/app/services/ai_service.py:256-274 | whatever a middle clause says is in the advice |
| AiService.AdviceWarnsOverBudget | backend/app/services/ai_service.py:261-265 | over budget, the advice states the excess |
| AiService.AdviceFlagsHousing | backend/app/services/ai_service.py:266-269 | within budget, housing above 30% is flagged |
| AiService.AdviceNotesSavings | backend/app/services/ai_service.py:270-273 | a savings rate in [0, 20) within budget is noted |
| AiService.AdviceCloses | backend/app/services/ai_service.py:274 | the advice always ends with the closing sentence |
| AiService.BuildAdvice | backend/app/services/ai_service.py:256-274 | the `+=` steps build exactly the advice |
| AiService.FallbackTips | backend/app/services/ai_service.py:276-285 | The transfer and emergency tips are always present. The review tip is present iff over budget, and first. The increase tip is present iff savings are below 20%. The count is exact. |
| AiService.FallbackInsights | backend/app/services/ai_service.py:319-330 | which insights appear, in order, by income, remaining and savings rate |
| AiService.FallbackPlan | backend/app/services/ai_service.py:287-299 | the fallback plan has both phases with three steps each; the first steps start from the savings rate and aim 2 and 5 points higher |
| AiService.FallbackResponse | backend/app/services/ai_service.py:246-341 | The whole rule-based response: advice, tips, a two-phase plan starting from the savings rate, the fixed "where savings could go" text, breakdown, insights, and analysis as advice plus dashed tips. |
| Comparison.Filter | frontend/src/components/BudgetComparison.jsx:9-14 | the kept rows are exactly the rows of the bucket |
| Comparison.TotalAppend | frontend/src/components/BudgetComparison.jsx:15 | the sum of two row lists is the sum of their sums |
| Comparison.FilterAppend | frontend/src/components/BudgetComparison.jsx:9-14 | filtering distributes over concatenation |
| Comparison.BucketSumSnoc | frontend/src/components/BudgetComparison.jsx:9-15 | one more row adds its amount iff it is in the bucket |
| Comparison.BucketSumBounds | frontend/src/components/BudgetComparison.jsx:9-31 | with non-negative amounts a bucket sum lies between 0 and all spending |
| Comparison.Target | frontend/src/components/BudgetComparison.jsx:41-57 | every target is positive |
| Comparison.KeyInOwnBucket | frontend/src/components/BudgetComparison.jsx:5-7 | each of the seven categories falls in its 50/30/20 bucket |
| Comparison.KnownRowInBucket | frontend/src/components/BudgetComparison.jsx:5-31 | a row named after a known category is counted in some bucket |
| Comparison.DisplayNameKnown | backend/app/services/ai_service.py:180 | a back-end display name lower-cases back to its key, so the front end's `toLowerCase().includes` finds it |
| Comparison.BucketsCover | frontend/src/components/BudgetComparison.jsx:9-31 | when every row is in a bucket, the three bucket sums together cover all spending |
| Comparison.BarOf | frontend/src/components/BudgetComparison.jsx:33-62 | a bar's amount is its bucket sum, its target fixed, its share `amount / income * 100` |
| Comparison.Compare | frontend/src/components/BudgetComparison.jsx:1-62 | Nothing is shown iff there is no breakdown or income is zero. Otherwise there are three bars (needs, wants, savings) with targets 50/30/20 and their bucket sums and shares. |
| Comparison.Flags | frontend/src/components/BudgetComparison.jsx:73-74 | "over" iff above the target, "under" iff below 80% of it; never both |
| Comparison.BarWidth | frontend/src/components/BudgetComparison.jsx:131 | the bar width is the share capped at 100 |
| Comparison.SharesCoverSpending | frontend/src/components/BudgetComparison.jsx:5-35 | for known categories and positive income, the three shares add up to at least total spending as a share of income |
| Glossary.ByCategory | backend/app/routes/glossary.py:100-101 | the category filter keeps, in order, exactly the terms of the category |
| Glossary.BySearch | backend/app/routes/glossary.py:104-107 | the search filter keeps, in order, exactly the terms whose lower-cased name or definition contains the query |
| Glossary.SubsequenceTrans | backend/app/routes/glossary.py:97-107 | filtering a filtered list keeps the original order |
| Glossary.GetGlossary | backend/app/routes/glossary.py:86-112 | No filter returns every term. Otherwise each filter that is given holds for every term returned, and every term satisfying them is returned, in order. The count is the number of terms. |
| Glossary.FindId | backend/app/routes/glossary.py:118 | the first term with the id; none iff no term has it |
| Glossary.GetTerm | backend/app/routes/glossary.py:115-126 | found iff some term has the id; otherwise the 404 body naming the id |
| Glossary.GlossaryIds | backend/app/routes/glossary.py:23-84 | the ids found are exactly 1 to 10, each the term at that position |
| Glossary.Stripped | backend/app/routes/glossary.py:150-152 | an absent value reads as empty, a present one is stripped |
| Glossary.Complexity | backend/app/routes/glossary.py:151-161 | the level is one of the three: the lower-cased value when it is one, otherwise "beginner" |
| Glossary.BaseDefinition | backend/app/routes/glossary.py:164-168 | the definition of the first term equal to the name ignoring case, or empty |
| Glossary.FallbackExplanation | backend/app/routes/glossary.py:221-227 | With a definition, the text starts with the heading and contains it; a question adds the question and ends with the definition again. Without one, the generic sentence. |
| Glossary.ExplainTerm | backend/app/routes/glossary.py:129-233 | 503 when the model is unavailable, 400 for an empty term, and success in every other case. A success holds the stripped term, a valid level, and the model's stripped answer or the rule-based explanation. |
| Glossary.FallbackUsesGlossary | backend/app/routes/glossary.py:163-225 | without the model, a glossary term is explained with its definition |
| Glossary.FallbackUsesBase | backend/app/routes/glossary.py:163-225 | for any term list with definitions, a matching name is explained with the definition of the first match |
| Glossary.FallbackOutsideGlossary | backend/app/routes/glossary.py:226-227 | without the model, a term outside the glossary gets the generic sentence |

## Left out

- The HTTP round trips (`fetch`, Flask routing and JSON encoding) are parameters. So are the language model call and its prompt text (`build_budget_prompt`). The JSON `response.text or ""` is the string parameter.
- `isLoading` is set and cleared within one call. The interleaving of two concurrent handlers is not modelled.
- Floating point is modelled with exact reals. Number formatting (`toFixed`, `:.1f`, `:.2f`) and `str(term_id)` are function parameters. `round(pct, 1)` is half-even on the exact decimal value. The binary rounding of the float is not modelled.
- AiSections.FindSection: the regular expression `##\s*NAME\s*\n(.*?)(?=\n##\s|\nDisclaimer:|$)` is modelled line by line, ignoring case as the code does. Its `\s*` could also span newlines between `##` and the name. Matching across such line breaks is not modelled.
- Glossary.GetGlossary: it takes the glossary as a parameter; the route applies it to `Glossary.GlossaryTerms`. Fixing the literal list inside the contract costs the verifier more than its resource limit.
- Text.Trim: whitespace is the ASCII set of `Text.IsSpace`. Python's `str.strip` and `\s` and JavaScript's `trim` also remove Unicode spaces such as U+00A0, U+2028 and U+FEFF; `Text.Trim` keeps them.
- Lower-casing and title-casing cover ASCII letters. Python's and JavaScript's full Unicode case mappings are not modelled.
- Scenario.Apply: a save of "0%" is accepted and labelled, because App.jsx:52-58 never checks the sign of the percent.
- Comparison: the buckets are not proved to be disjoint. Proving that a category's name contains no word of another bucket costs more than the verifier's resource limit for literal strings. Only coverage is proved, so the three shares together are at least all spending, not exactly it.
- `app/models/budget.py` is not part of this model. Its derived fields `total_expenses` and `remaining` are given fields of `AiService.BudgetInput`.
- `analyze_budget` only chooses between the two modelled responses, and that choice is left out. So are the console logging in both the front end and the back end, and the React rendering apart from the flags and bar width.

## Findings

| source | as written | input that shows it | evidently intended | confidence | as-written member | corrected member |
|---|---|---|---|---|---|---|
| backend/app/services/ai_service.py:131-137 | `find_section("SAVING PLAN")` requires only whitespace and then a newline after the name | an answer that follows the prompt's own header `## SAVING PLAN (3-6 MONTHS)` (line 114) | the plan section is found, so `saving_plan` is not always `None` | not executed | AiSections.PlanHeaderMissed | AiSections.PlanHeaderFound |
