/**
 * The state of the front end's root component (frontend/src/App.jsx) and its two
 * submit handlers. The component's `useState` slots are the fields of `App`; a
 * handler runs to completion in one call, the analysis request being the function
 * parameter `analyze` (the HTTP round trip: `Ok` with the analysis, or `Err` with
 * the error body's `message`, when there is one).
 */
module WhatIf {
  import opened Wrappers
  import opened Text
  import opened Patterns
  import opened BudgetModel
  import opened Scenario

  /** An analysis request: the analysis, or the failure with the server's message if it sent one. */
  type Analyzer<R> = Budget -> Result<R, Option<string>>

  /** `message || fallback`: an absent or empty message is replaced by the fallback. */
  function ErrorText(message: Option<string>, fallback: string): (text: string)
    ensures message.Some? && message.value != [] ==> text == message.value
    ensures message.None? || message.value == [] ==> text == fallback
    ensures text == [] ==> fallback == []
  {
    if message.Some? && message.value != [] then message.value else fallback
  }

  /**
   * The alias scan of the decrease and increase branches: the table is walked in
   * order and the walk stops at the first alias the text contains.
   */
  method ResolveCategory(lower: string) returns (category: Option<Category>)
    ensures category == FirstAlias(lower)
  {
    category := None;
    var k := 0;
    while k < |Aliases|
      invariant 0 <= k <= |Aliases|
      invariant category.None?
      invariant forall j :: 0 <= j < k ==> !Contains(lower, Aliases[j].0)
    {
      if Contains(lower, Aliases[k].0) {
        category := Some(Aliases[k].1);
        break;
      }
      k := k + 1;
    }
  }

  /**
   * The body of the three branches of `handleWhatIfSubmit` on a copy of the
   * baseline: the derived budget and its caption, the caption left empty when
   * the command does not parse.
   */
  method Derive(lower: string, base: Budget, fixed2: real -> string) returns (updated: Budget, caption: string)
    ensures Parse(lower, base).None? ==> caption == "" && updated == base
    ensures Parse(lower, base).Some? ==>
      updated == Apply(base, Parse(lower, base).value) &&
      caption == Label(lower, Parse(lower, base).value, fixed2) && caption != ""
  {
    if SaveTriggered(lower) {
      updated, caption := SaveBranch(lower, base, fixed2);
    } else if DecreaseTriggered(lower) {
      updated, caption := AdjustBranch(lower, base, Decrease, fixed2);
    } else if IncreaseTriggered(lower) {
      updated, caption := AdjustBranch(lower, base, Increase, fixed2);
    } else {
      updated, caption := base, "";
    }
  }

  /** A save intent adds its percent of income to savings and is captioned by its token. */
  lemma SaveIntent(lower: string, base: Budget, token: string, extra: real, fixed2: real -> string)
    requires extra == PercentOf(base.monthlyIncome, NumeralValue(token))
    ensures var intent := SavePercent(NumeralValue(token), token);
      Apply(base, intent) == base.(expenses := base.expenses[Savings := Amount(base, Savings) + extra]) &&
      Label(lower, intent, fixed2) == SaveCaption(token)
  {
  }

  /** Pattern 1: add the typed percent of income to savings. */
  method SaveBranch(lower: string, base: Budget, fixed2: real -> string) returns (updated: Budget, caption: string)
    ensures PercentToken(lower).None? ==> caption == "" && updated == base
    ensures PercentToken(lower).Some? ==>
      var intent := SavePercent(NumeralValue(PercentToken(lower).value), PercentToken(lower).value);
      updated == Apply(base, intent) && caption == Label(lower, intent, fixed2)
  {
    var income := base.monthlyIncome;
    updated, caption := base, "";
    var token := PercentToken(lower);
    if token.Some? {
      var extra := PercentOf(income, NumeralValue(token.value));
      SaveIntent(lower, base, token.value, extra, fixed2);
      updated := updated.(expenses := updated.expenses[Savings := Amount(updated, Savings) + extra]);
      caption := SaveCaption(token.value);
    }
  }

  /**
   * Patterns 2 and 3, which differ only in the direction of the change and in the
   * verb of the caption: resolve the alias, default a missing amount to 10% of the
   * category, and change the category when the amount is positive.
   */
  method AdjustBranch(lower: string, base: Budget, dir: Direction, fixed2: real -> string)
    returns (updated: Budget, caption: string)
    ensures AdjustIntent(lower, base, dir).None? ==> caption == "" && updated == base
    ensures AdjustIntent(lower, base, dir).Some? ==>
      updated == Apply(base, AdjustIntent(lower, base, dir).value) &&
      caption == Label(lower, AdjustIntent(lower, base, dir).value, fixed2)
  {
    updated, caption := base, "";
    var amount := ExplicitAmount(lower);
    var category := ResolveCategory(lower);
    if category.Some? {
      var c := category.value;
      if amount == 0.0 && Amount(updated, c) != 0.0 {
        amount := Amount(updated, c) * 0.1;
      }
      assert amount == ResolvedAmount(lower, base, c);
      if amount > 0.0 {
        ghost var intent := AdjustCategory(c, dir, amount);
        assert AdjustIntent(lower, base, dir) == Some(intent);
        var next, verb;
        if dir == Decrease {
          next, verb := Max(0.0, Amount(updated, c) - amount), DecreaseVerb(lower);
        } else {
          next, verb := Amount(updated, c) + amount, "increased";
        }
        assert next == Adjusted(Amount(base, c), dir, amount);
        updated := updated.(expenses := updated.expenses[c := next]);
        caption := AdjustCaption(verb, CategoryKey(c), fixed2(amount));
      }
    }
  }

  class App<R> {
    /** The analysis on screen: of the baseline or of the last what-if. */
    var analysisResult: Option<R>
    /** The baseline budget every what-if starts from. */
    var lastBudget: Option<Budget>
    /** The caption of the what-if on screen, if the analysis shown is one. */
    var scenarioLabel: Option<string>
    /** The baseline's income, as the comparison view reads it. */
    var monthlyIncome: real
    var isLoading: bool
    var error: Option<string>

    /**
     * Between handler runs nothing is loading; until a budget has been submitted
     * there is no baseline, no analysis and no caption; the income shown is the
     * baseline's.
     */
    ghost predicate Valid()
      reads this
    {
      !isLoading &&
      (lastBudget.None? ==> analysisResult.None? && scenarioLabel.None? && monthlyIncome == 0.0) &&
      (lastBudget.Some? ==> monthlyIncome == lastBudget.value.monthlyIncome)
    }

    constructor()
      ensures Valid()
      ensures analysisResult.None? && lastBudget.None? && scenarioLabel.None?
      ensures monthlyIncome == 0.0 && !isLoading && error.None?
    {
      analysisResult := None;
      lastBudget := None;
      scenarioLabel := None;
      monthlyIncome := 0.0;
      isLoading := false;
      error := None;
    }

    /**
     * `handleBudgetSubmit`: the submitted budget becomes the baseline, the caption
     * is cleared, and the analysis replaces the one on screen, or an error is shown
     * and the previous analysis stays.
     */
    method SubmitBudget(budget: Budget, analyze: Analyzer<R>)
      requires Valid()
      modifies this
      ensures Valid()
      ensures lastBudget == Some(budget) && monthlyIncome == budget.monthlyIncome
      ensures scenarioLabel.None?
      ensures analyze(budget).Ok? ==> analysisResult == Some(analyze(budget).value) && error.None?
      ensures analyze(budget).Err? ==>
        analysisResult == old(analysisResult) &&
        error == Some(ErrorText(analyze(budget).error, "Failed to analyze budget"))
    {
      isLoading := true;
      error := None;
      scenarioLabel := None;
      lastBudget := Some(budget);
      monthlyIncome := budget.monthlyIncome;
      var response := analyze(budget);
      match response {
        case Ok(result) =>
          analysisResult := Some(result);
        case Err(message) =>
          error := Some(ErrorText(message, "Failed to analyze budget"));
      }
      isLoading := false;
    }

    /**
     * `handleWhatIfSubmit`: derive a budget from the baseline as the command says
     * and analyze it. Returns the budget sent for analysis, or `None` when nothing
     * was sent. The baseline and its income never change, so what-ifs never
     * compound; a command that does not parse sets the error and nothing else.
     */
    method SubmitWhatIf(scenario: string, analyze: Analyzer<R>, fixed2: real -> string)
      returns (sent: Option<Budget>)
      requires Valid()
      modifies this
      ensures Valid()
      ensures lastBudget == old(lastBudget) && monthlyIncome == old(monthlyIncome)
      // no baseline or an empty command: nothing happens
      ensures old(lastBudget).None? || scenario == [] ==>
        sent.None? && analysisResult == old(analysisResult) && scenarioLabel == old(scenarioLabel) &&
        error == old(error)
      // a command that does not parse: the error names it, the screen keeps what it had
      ensures old(lastBudget).Some? && scenario != [] && Parse(Normalize(scenario), old(lastBudget).value).None? ==>
        sent.None? && error == Some(ParseErrorMessage(scenario)) &&
        analysisResult == old(analysisResult) && scenarioLabel == old(scenarioLabel)
      // a parsed command: the derived budget is sent and its caption shown, whatever the outcome
      ensures old(lastBudget).Some? && scenario != [] && Parse(Normalize(scenario), old(lastBudget).value).Some? ==>
        var lower := Normalize(scenario);
        var intent := Parse(lower, old(lastBudget).value).value;
        var updated := Apply(old(lastBudget).value, intent);
        sent == Some(updated) &&
        scenarioLabel == Some(Label(lower, intent, fixed2)) &&
        (analyze(updated).Ok? ==> analysisResult == Some(analyze(updated).value) && error.None?) &&
        (analyze(updated).Err? ==>
          analysisResult == old(analysisResult) &&
          error == Some(ErrorText(analyze(updated).error, "Failed to analyze scenario")))
      // a well-formed baseline yields a well-formed request
      ensures sent.Some? && WellFormed(old(lastBudget).value) ==> WellFormed(sent.value)
    {
      if lastBudget.None? || scenario == [] {
        return None;
      }
      var base := lastBudget.value;
      var lower := Normalize(scenario);
      var updated, caption := Derive(lower, base, fixed2);

      if caption == "" {
        error := Some(ParseErrorMessage(scenario));
        return None;
      }
      ghost var intent := Parse(lower, base).value;
      ParseValid(lower, base);
      if WellFormed(base) {
        ApplyWellFormed(base, intent);
      }

      Send(updated, caption, analyze);
      sent := Some(updated);
    }

    /**
     * The request half of `handleWhatIfSubmit`: show the caption, send the derived
     * budget, and show its analysis or the error; the baseline stays.
     */
    method Send(updated: Budget, caption: string, analyze: Analyzer<R>)
      requires Valid() && lastBudget.Some?
      modifies this
      ensures Valid()
      ensures lastBudget == old(lastBudget) && monthlyIncome == old(monthlyIncome)
      ensures scenarioLabel == Some(caption)
      ensures analyze(updated).Ok? ==> analysisResult == Some(analyze(updated).value) && error.None?
      ensures analyze(updated).Err? ==>
        analysisResult == old(analysisResult) &&
        error == Some(ErrorText(analyze(updated).error, "Failed to analyze scenario"))
    {
      isLoading := true;
      error := None;
      scenarioLabel := Some(caption);
      var response := analyze(updated);
      match response {
        case Ok(result) =>
          analysisResult := Some(result);
        case Err(message) =>
          error := Some(ErrorText(message, "Failed to analyze scenario"));
      }
      isLoading := false;
    }
  }
}
