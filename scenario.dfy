/**
 * The what-if engine of frontend/src/App.jsx (`handleWhatIfSubmit`) as pure
 * functions: the command is normalised, one of three branches is chosen by a
 * fixed priority (save-percent, decrease, increase), the chosen branch yields an
 * intent or fails, the intent is applied to the baseline budget, and a caption
 * is derived from it. The orchestrator in module WhatIf runs the same steps
 * imperatively and is proved to agree with these functions.
 */
module Scenario {
  import opened Wrappers
  import opened Text
  import opened Patterns
  import opened BudgetModel

  datatype Direction = Increase | Decrease

  /** What a parsed command asks for. `token` is the percent text exactly as typed. */
  datatype Intent =
    | SavePercent(percent: real, token: string)
    | AdjustCategory(category: Category, direction: Direction, amount: real)

  /** The alias table, scanned in this order; the first alias the text contains decides. */
  const Aliases: seq<(string, Category)> := [
    ("rent", Rent), ("housing", Rent), ("food", Food), ("groceries", Food),
    ("entertainment", Entertainment), ("transportation", Transportation),
    ("utilities", Utilities), ("savings", Savings), ("other", Other)
  ]

  /** The alternatives of `/(cut|reduce|lower|decrease|less)/`. */
  const DecreaseWords: seq<string> := ["cut", "reduce", "lower", "decrease", "less"]

  /** The alternatives of `/(increase|add|raise|more)/`. */
  const IncreaseWords: seq<string> := ["increase", "add", "raise", "more"]

  /** `scenario.toLowerCase().trim()`. */
  function Normalize(scenario: string): (lower: string)
    ensures lower == [] || (!IsSpace(lower[0]) && !IsSpace(lower[|lower| - 1]))
    ensures forall i :: 0 <= i < |lower| ==> !IsUpper(lower[i])
  {
    var low := Lower(scenario);
    var t := Trim(low);
    assert forall i :: 0 <= i < |t| ==> t[i] == low[SkipSpaces(low, 0) + i];
    t
  }

  predicate SaveTriggered(lower: string) {
    Contains(lower, "save") && Contains(lower, "%")
  }

  predicate DecreaseTriggered(lower: string) {
    ContainsAny(lower, DecreaseWords)
  }

  predicate IncreaseTriggered(lower: string) {
    ContainsAny(lower, IncreaseWords)
  }

  /** Index of the first alias contained in `text`, or `|aliases|` when none is. */
  function FirstMention(text: string, aliases: seq<(string, Category)>): (k: nat)
    ensures k <= |aliases|
    ensures forall j :: 0 <= j < k ==> !Contains(text, aliases[j].0)
    ensures k < |aliases| ==> Contains(text, aliases[k].0)
  {
    if |aliases| == 0 then 0
    else if Contains(text, aliases[0].0) then 0
    else 1 + FirstMention(text, aliases[1..])
  }

  /** The category of the first alias in `Aliases` that the text contains. */
  function FirstAlias(text: string): (r: Option<Category>)
    ensures r.None? <==> forall k :: 0 <= k < |Aliases| ==> !Contains(text, Aliases[k].0)
    ensures r.Some? ==> var k := FirstMention(text, Aliases);
      k < |Aliases| && Aliases[k].1 == r.value
  {
    var k := FirstMention(text, Aliases);
    if k < |Aliases| then Some(Aliases[k].1) else None
  }

  /** `parseFloat` of the dollar token, or 0 when there is none. */
  function ExplicitAmount(lower: string): (a: real)
    ensures a >= 0.0
    ensures DollarToken(lower).None? ==> a == 0.0
  {
    match DollarToken(lower)
    case Some(tok) => NumeralValue(tok)
    case None => 0.0
  }

  /**
   * The amount of an adjustment: the explicit dollar amount, except that a zero
   * one (`!amount`) is replaced by 10% of the category's baseline value when that
   * value is non-zero.
   */
  function ResolvedAmount(lower: string, base: Budget, c: Category): (a: real)
    ensures ExplicitAmount(lower) != 0.0 ==> a == ExplicitAmount(lower)
    ensures ExplicitAmount(lower) == 0.0 ==> a == Amount(base, c) / 10.0
  {
    var explicit := ExplicitAmount(lower);
    if explicit == 0.0 && Amount(base, c) != 0.0 then Amount(base, c) * 0.1 else explicit
  }

  /** Branches two and three: resolve the category and the amount, fail on either. */
  function AdjustIntent(lower: string, base: Budget, dir: Direction): (r: Option<Intent>)
  {
    match FirstAlias(lower)
    case None => None
    case Some(c) =>
      var amount := ResolvedAmount(lower, base, c);
      if amount > 0.0 then Some(AdjustCategory(c, dir, amount)) else None
  }

  /**
   * The parser. The branches are tried in priority order, and the first whose
   * trigger words occur commits: when it cannot produce an intent the parse fails
   * rather than trying a later branch.
   */
  function Parse(lower: string, base: Budget): (r: Option<Intent>)
    // a save-percent intent comes only from a save trigger, and carries the leftmost percent token
    ensures r.Some? && r.value.SavePercent? ==>
      SaveTriggered(lower) && PercentToken(lower) == Some(r.value.token) &&
      r.value.percent == NumeralValue(r.value.token)
    // an adjustment comes only when no save trigger is present, names the first alias, and is positive
    ensures r.Some? && r.value.AdjustCategory? ==>
      !SaveTriggered(lower) && FirstAlias(lower) == Some(r.value.category) &&
      r.value.amount == ResolvedAmount(lower, base, r.value.category) && r.value.amount > 0.0
    // a decrease word outranks an increase word
    ensures r.Some? && r.value.AdjustCategory? ==>
      (r.value.direction == Decrease <==> DecreaseTriggered(lower)) &&
      (r.value.direction == Increase ==> IncreaseTriggered(lower))
    // failure: nothing triggered, or the triggered branch lacked its data (no fall-through)
    ensures r.None? <==>
      (SaveTriggered(lower) && PercentToken(lower).None?) ||
      (!SaveTriggered(lower) && !DecreaseTriggered(lower) && !IncreaseTriggered(lower)) ||
      (!SaveTriggered(lower) && (DecreaseTriggered(lower) || IncreaseTriggered(lower)) &&
       (FirstAlias(lower).None? || ResolvedAmount(lower, base, FirstAlias(lower).value) <= 0.0))
  {
    if SaveTriggered(lower) then
      match PercentToken(lower)
      case Some(tok) => Some(SavePercent(NumeralValue(tok), tok))
      case None => None
    else if DecreaseTriggered(lower) then
      AdjustIntent(lower, base, Decrease)
    else if IncreaseTriggered(lower) then
      AdjustIntent(lower, base, Increase)
    else
      None
  }

  /** The category an intent changes. */
  function Target(i: Intent): Category {
    match i
    case SavePercent(_, _) => Savings
    case AdjustCategory(c, _, _) => c
  }

  /** `percent`% of `income`: `income * (percent / 100)`. */
  function PercentOf(income: real, percent: real): (x: real)
    ensures income >= 0.0 && percent >= 0.0 ==> x >= 0.0
  {
    income * (percent / 100.0)
  }

  function Max(a: real, b: real): real {
    if a >= b then a else b
  }

  /**
   * The derived budget: a new value built from the baseline, changing the target
   * category only. Savings grow by `percent` of income; a decrease is clamped at
   * zero; an increase has no upper bound.
   */
  function Apply(b: Budget, i: Intent): (r: Budget)
    ensures r.monthlyIncome == b.monthlyIncome && r.goal == b.goal
    ensures r.expenses.Keys == b.expenses.Keys + {Target(i)}
    ensures forall c :: c != Target(i) ==> Amount(r, c) == Amount(b, c)
    ensures i.SavePercent? ==>
      Amount(r, Savings) == Amount(b, Savings) + b.monthlyIncome * (i.percent / 100.0)
    ensures i.AdjustCategory? && i.direction == Decrease ==>
      Amount(r, i.category) == (if i.amount <= Amount(b, i.category) then Amount(b, i.category) - i.amount else 0.0)
    ensures i.AdjustCategory? && i.direction == Increase ==>
      Amount(r, i.category) == Amount(b, i.category) + i.amount
  {
    match i
    case SavePercent(p, _) =>
      b.(expenses := b.expenses[Savings := Amount(b, Savings) + PercentOf(b.monthlyIncome, p)])
    case AdjustCategory(c, dir, a) =>
      b.(expenses := b.expenses[c := Adjusted(Amount(b, c), dir, a)])
  }

  /** The new amount of an adjusted category: clamped at zero when decreased. */
  function Adjusted(current: real, dir: Direction, amount: real): (r: real)
    ensures dir == Decrease && amount <= current ==> r == current - amount
    ensures dir == Decrease && current < amount ==> r == 0.0
    ensures dir == Decrease ==> 0.0 <= r
    ensures dir == Decrease && 0.0 <= amount && 0.0 <= current ==> r <= current
    ensures dir == Increase ==> r - current == amount
  {
    if dir == Decrease then Max(0.0, current - amount) else current + amount
  }

  /** The verb of a decrease caption, by the priority cut, reduce, lower/less, otherwise "decreased". */
  function DecreaseVerb(lower: string): (verb: string)
    ensures Contains(lower, "cut") <==> verb == "cut"
    ensures verb == "reduced" <==> !Contains(lower, "cut") && Contains(lower, "reduce")
    ensures verb == "lowered" <==>
      !Contains(lower, "cut") && !Contains(lower, "reduce") && (Contains(lower, "lower") || Contains(lower, "less"))
    ensures verb in {"cut", "reduced", "lowered", "decreased"}
  {
    if Contains(lower, "cut") then "cut"
    else if Contains(lower, "reduce") then "reduced"
    else if Contains(lower, "lower") || Contains(lower, "less") then "lowered"
    else "decreased"
  }

  /**
   * The caption. A save-percent caption repeats the typed token verbatim; an
   * adjustment caption names the verb, the category and the amount, the amount
   * rendered by `fixed2` (`toFixed(2)`). `category.replace('_', ' ')` leaves every
   * category key as it is, since none contains an underscore.
   */
  function Label(lower: string, i: Intent, fixed2: real -> string): (caption: string)
    ensures StartsWith(caption, "What if you ") && caption[|caption| - 1] == '?'
    ensures i.SavePercent? ==> StartsWith(caption, "What if you saved ")
    ensures i.AdjustCategory? ==>
      StartsWith(caption, "What if you " + (if i.direction == Decrease then DecreaseVerb(lower) else "increased") + " ")
    ensures i.SavePercent? ==> Contains(caption, i.token + "% more?")
    ensures i.AdjustCategory? ==> Contains(caption, " " + CategoryKey(i.category) + " by $" + fixed2(i.amount) + "?")
  {
    match i
    case SavePercent(_, tok) => SaveCaption(tok)
    case AdjustCategory(c, dir, a) =>
      AdjustCaption(if dir == Decrease then DecreaseVerb(lower) else "increased", CategoryKey(c), fixed2(a))
  }

  /** `What if you saved ${token}% more?` */
  function SaveCaption(token: string): (caption: string)
    ensures StartsWith(caption, "What if you ") && caption[|caption| - 1] == '?'
    ensures Contains(caption, token + "% more?")
    ensures StartsWith(caption, "What if you saved ") && EndsWith(caption, token + "% more?")
    ensures |caption| == |"What if you saved "| + |token + "% more?"|
  {
    var head := "What if you saved ";
    var tail := token + "% more?";
    EndsWithAppend(head, tail);
    ContainsConcat(head, tail, "");
    assert head + tail + "" == head + tail;
    assert (head + tail)[..|head|] == head;
    head + tail
  }

  /**
   * `What if you ${verb} ${category} by $${amount}?`: the verb and a space, then
   * the category, " by $", the amount and the question mark.
   */
  function AdjustCaption(verb: string, key: string, amountText: string): (caption: string)
    ensures StartsWith(caption, "What if you ") && caption[|caption| - 1] == '?'
    ensures Contains(caption, " " + key + " by $" + amountText + "?")
    ensures StartsWith(caption, "What if you " + verb + " ") && EndsWith(caption, key + " by $" + amountText + "?")
    ensures |caption| == |"What if you " + verb + " "| + |key + " by $" + amountText + "?"|
  {
    var head := "What if you " + verb + " ";
    var tail := key + " by $" + amountText + "?";
    EndsWithAppend(head, tail);
    ContainsConcat("What if you " + verb, " " + tail, "");
    assert "What if you " + verb + (" " + tail) + "" == head + tail;
    assert " " + tail == " " + key + " by $" + amountText + "?";
    assert (head + tail)[..|head|] == head;
    assert head[..12] == "What if you ";
    head + tail
  }

  /** The message shown when a command cannot be parsed: the command as typed and two examples. */
  function ParseErrorMessage(scenario: string): (msg: string)
    ensures Contains(msg, "\"" + scenario + "\"")
    ensures Contains(msg, "\"Save 5% more\"") && Contains(msg, "\"Cut entertainment by $50\"")
  {
    var head := "Couldn't parse scenario: ";
    var quoted := "\"" + scenario + "\"";
    var middle := ". Try: ";
    var ex1 := "\"Save 5% more\"";
    var or := " or ";
    var ex2 := "\"Cut entertainment by $50\"";
    MessageParts(head, quoted, middle, ex1, or, ex2);
    head + quoted + middle + ex1 + or + ex2
  }

  /** The quoted command and both examples are parts of the message. */
  lemma MessageParts(head: string, quoted: string, middle: string, ex1: string, or: string, ex2: string)
    ensures Contains(head + quoted + middle + ex1 + or + ex2, quoted)
    ensures Contains(head + quoted + middle + ex1 + or + ex2, ex1)
    ensures Contains(head + quoted + middle + ex1 + or + ex2, ex2)
  {
    var p1 := head + quoted;
    var p2 := p1 + middle;
    var p3 := p2 + ex1;
    var p4 := p3 + or;
    SelfContains(quoted);
    SelfContains(ex1);
    SelfContains(ex2);
    ContainsRight(head, quoted, quoted);
    ContainsLeft(p1, middle, quoted);
    ContainsLeft(p2, ex1, quoted);
    ContainsRight(p2, ex1, ex1);
    ContainsLeft(p3, or, quoted);
    ContainsLeft(p3, or, ex1);
    ContainsLeft(p4, ex2, quoted);
    ContainsLeft(p4, ex2, ex1);
    ContainsRight(p4, ex2, ex2);
  }

  /** An intent the parser can produce: a non-negative percent, a positive amount. */
  predicate ValidIntent(i: Intent) {
    match i
    case SavePercent(p, _) => p >= 0.0
    case AdjustCategory(_, _, a) => a > 0.0
  }

  /** Every intent the parser yields is valid. */
  lemma ParseValid(lower: string, base: Budget)
    ensures Parse(lower, base).Some? ==> ValidIntent(Parse(lower, base).value)
  {
  }

  /** Applying a valid intent to a well-formed budget keeps it well formed. */
  lemma ApplyWellFormed(b: Budget, i: Intent)
    requires WellFormed(b) && ValidIntent(i)
    ensures WellFormed(Apply(b, i))
  {
    var r := Apply(b, i);
    forall c
      ensures c in r.expenses && r.expenses[c] >= 0.0
    {
      assert c in b.expenses;
      assert Amount(r, c) >= 0.0;
    }
  }

  /** A text that already went through `Normalize` is left unchanged by it. */
  lemma {:induction false} NormalizeIdempotent(scenario: string)
    ensures Normalize(Normalize(scenario)) == Normalize(scenario)
  {
    var t := Normalize(scenario);
    assert Lower(t) == t;
    TrimUnchanged(t);
  }

  /** `Trim` leaves a text alone that neither starts nor ends with whitespace. */
  lemma TrimUnchanged(s: string)
    requires s == [] || (!IsSpace(s[0]) && !IsSpace(s[|s| - 1]))
    ensures Trim(s) == s
  {
    if s != [] {
      assert SkipSpaces(s, 0) == 0;
      assert SkipSpacesBack(s, 0, |s|) == |s|;
    }
  }

  /**
   * Earlier aliases win: when the text mentions alias `k`, the alias that decides
   * is at `k` or before it, and it is exactly `k` when nothing before `k` is mentioned.
   */
  lemma FirstAliasEarliest(text: string, k: nat)
    requires k < |Aliases| && Contains(text, Aliases[k].0)
    ensures FirstAlias(text).Some?
    ensures FirstMention(text, Aliases) <= k
    ensures (forall j :: 0 <= j < k ==> !Contains(text, Aliases[j].0)) ==>
      FirstAlias(text) == Some(Aliases[k].1)
  {
  }

  /** "housing" is an alias of rent, and "groceries" of food. */
  lemma SynonymAliases(text: string)
    ensures Contains(text, "housing") && !Contains(text, "rent") ==> FirstAlias(text) == Some(Rent)
    ensures (Contains(text, "groceries") && !Contains(text, "rent") && !Contains(text, "housing") &&
             !Contains(text, "food")) ==> FirstAlias(text) == Some(Food)
  {
    if Contains(text, "housing") && !Contains(text, "rent") {
      FirstAliasEarliest(text, 1);
    }
    if Contains(text, "groceries") && !Contains(text, "rent") && !Contains(text, "housing") && !Contains(text, "food") {
      FirstAliasEarliest(text, 3);
    }
  }

  /** Nothing but the percent token, the alias and the trigger words decide the parse. */
  lemma ParseDependsOnMentions(l1: string, l2: string, base: Budget)
    requires SaveTriggered(l1) == SaveTriggered(l2) && PercentToken(l1) == PercentToken(l2)
    requires DecreaseTriggered(l1) == DecreaseTriggered(l2) && IncreaseTriggered(l1) == IncreaseTriggered(l2)
    requires FirstAlias(l1) == FirstAlias(l2) && DollarToken(l1) == DollarToken(l2)
    ensures Parse(l1, base) == Parse(l2, base)
  {
  }
}
