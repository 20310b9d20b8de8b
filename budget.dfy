/**
 * The budget the front end submits: monthly income, one amount per expense
 * category and a goal (frontend/src/components/BudgetForm.jsx builds it, App.jsx
 * keeps the last one as the baseline for what-ifs).
 */
module BudgetModel {

  /** The seven expense categories of the budget form. */
  datatype Category = Rent | Food | Transportation | Utilities | Entertainment | Savings | Other

  /** The goal chosen on the form, passed through to the analyzer unchanged. */
  datatype Goal = General | EmergencyFund | DebtPayoff | BigPurchase

  datatype Budget = Budget(monthlyIncome: real, expenses: map<Category, real>, goal: Goal)

  /** The key of a category in the `expenses` object. */
  function CategoryKey(c: Category): (key: string)
    ensures |key| > 0 && '_' !in key
    ensures forall i :: 0 <= i < |key| ==> 'a' <= key[i] <= 'z'
  {
    match c
    case Rent => "rent"
    case Food => "food"
    case Transportation => "transportation"
    case Utilities => "utilities"
    case Entertainment => "entertainment"
    case Savings => "savings"
    case Other => "other"
  }

  /** `expenses[c] || 0`: the amount of a category, a missing entry reading as zero. */
  function Amount(b: Budget, c: Category): real {
    if c in b.expenses then b.expenses[c] else 0.0
  }

  /** The invariant the budget form produces: every category present, nothing negative. */
  ghost predicate WellFormed(b: Budget) {
    b.monthlyIncome >= 0.0 && forall c :: c in b.expenses && b.expenses[c] >= 0.0
  }
}
