/**
 * The 50/30/20 comparison of frontend/src/components/BudgetComparison.jsx: the
 * rows of the analysis breakdown are put in the needs, wants and savings buckets
 * by the words their category contains, each bucket is summed and taken as a
 * percentage of income, and each percentage is compared with its fixed target.
 */
module Comparison {
  import opened Wrappers
  import opened Text
  import opened BudgetModel
  import AiService

  /** A breakdown row as the component reads it. */
  datatype Item = Item(category: string, amount: real)

  /** One bucket as displayed: its share of income, its target share and its sum. */
  datatype Bar = Bar(name: string, current: real, target: real, amount: real)

  const NeedsCategories: seq<string> := ["rent", "utilities", "food", "transportation"]
  const WantsCategories: seq<string> := ["entertainment", "other"]
  const SavingsCategories: seq<string> := ["savings"]

  /** `cats.some(cat => item.category.toLowerCase().includes(cat))`. */
  predicate InBucket(item: Item, cats: seq<string>) {
    ContainsAny(Lower(item.category), cats)
  }

  /** `rows.filter(item => InBucket(item, cats))`: the rows of the bucket, in their order. */
  function Filter(rows: seq<Item>, cats: seq<string>): (kept: seq<Item>)
    ensures |kept| <= |rows|
    ensures forall k :: 0 <= k < |kept| ==> InBucket(kept[k], cats) && kept[k] in rows
    ensures forall x :: x in rows && InBucket(x, cats) ==> x in kept
  {
    if |rows| == 0 then []
    else (if InBucket(rows[0], cats) then [rows[0]] else []) + Filter(rows[1..], cats)
  }

  /** `rows.reduce((sum, item) => sum + item.amount, 0)`, added from the left. */
  function Total(rows: seq<Item>): real {
    if |rows| == 0 then 0.0 else Total(rows[..|rows| - 1]) + rows[|rows| - 1].amount
  }

  /** The sum of the amounts of the rows in a bucket. */
  function BucketSum(rows: seq<Item>, cats: seq<string>): real {
    Total(Filter(rows, cats))
  }

  lemma {:induction false} TotalAppend(a: seq<Item>, b: seq<Item>)
    ensures Total(a + b) == Total(a) + Total(b)
    decreases |b|
  {
    if |b| == 0 {
      assert a + b == a;
    } else {
      var front := b[..|b| - 1];
      assert (a + b)[..|a + b| - 1] == a + front;
      TotalAppend(a, front);
    }
  }

  lemma {:induction false} FilterAppend(a: seq<Item>, b: seq<Item>, cats: seq<string>)
    ensures Filter(a + b, cats) == Filter(a, cats) + Filter(b, cats)
    decreases |a|
  {
    if |a| == 0 {
      assert a + b == b;
    } else {
      assert (a + b)[0] == a[0];
      assert (a + b)[1..] == a[1..] + b;
      FilterAppend(a[1..], b, cats);
    }
  }

  /**
   * A bucket's sum grows by a row's amount exactly when the row belongs to the
   * bucket: a row counts in the sum if and only if its category matches.
   */
  lemma BucketSumSnoc(rows: seq<Item>, x: Item, cats: seq<string>)
    ensures BucketSum(rows + [x], cats) == BucketSum(rows, cats) + (if InBucket(x, cats) then x.amount else 0.0)
  {
    FilterAppend(rows, [x], cats);
    assert Filter([x], cats) == (if InBucket(x, cats) then [x] else []) + Filter([], cats);
    TotalAppend(Filter(rows, cats), Filter([x], cats));
    assert Total([x]) == Total([]) + x.amount;
  }

  /** With non-negative amounts a bucket's sum lies between 0 and the sum of all rows. */
  lemma {:induction false} BucketSumBounds(rows: seq<Item>, cats: seq<string>)
    requires forall k :: 0 <= k < |rows| ==> rows[k].amount >= 0.0
    ensures 0.0 <= BucketSum(rows, cats) <= Total(rows)
    decreases |rows|
  {
    if |rows| > 0 {
      var front := rows[..|rows| - 1];
      BucketSumBounds(front, cats);
      assert front + [rows[|rows| - 1]] == rows;
      BucketSumSnoc(front, rows[|rows| - 1], cats);
    }
  }

  /** The three buckets of the rule, and its fixed targets 50, 30 and 20. */
  datatype Bucket = Needs | Wants | SavingsBucket

  function Words(b: Bucket): seq<string> {
    match b
    case Needs => NeedsCategories
    case Wants => WantsCategories
    case SavingsBucket => SavingsCategories
  }

  function Target(b: Bucket): (t: real)
    ensures t > 0.0
  {
    match b
    case Needs => 50.0
    case Wants => 30.0
    case SavingsBucket => 20.0
  }

  /** The bucket a budget category is meant for. */
  function BucketOf(c: Category): Bucket {
    match c
    case Rent => Needs
    case Utilities => Needs
    case Food => Needs
    case Transportation => Needs
    case Entertainment => Wants
    case Other => Wants
    case Savings => SavingsBucket
  }

  /** Each of the seven category keys matches a word of the bucket it is meant for. */
  lemma KeyInOwnBucket(c: Category)
    ensures ContainsAny(CategoryKey(c), Words(BucketOf(c)))
  {
    var key := CategoryKey(c);
    StartsWithContains(key, key);
    var j := match c
      case Rent => 0 case Utilities => 1 case Food => 2 case Transportation => 3
      case Entertainment => 0 case Other => 1 case Savings => 0;
    assert Words(BucketOf(c))[j] == key;
  }

  /** The row's category, lower-cased, is one of the seven keys. */
  ghost predicate KnownRow(x: Item) {
    exists c :: Lower(x.category) == CategoryKey(c)
  }

  /** A row of one of the seven categories belongs to the bucket of its category. */
  lemma KnownRowInBucket(x: Item)
    requires KnownRow(x)
    ensures InBucket(x, NeedsCategories) || InBucket(x, WantsCategories) || InBucket(x, SavingsCategories)
  {
    var c :| Lower(x.category) == CategoryKey(c);
    KeyInOwnBucket(c);
    var b := BucketOf(c);
    assert InBucket(x, Words(b));
    match b
    case Needs =>
    case Wants =>
    case SavingsBucket =>
  }

  /** The sum of three bucket sums. */
  function BucketsTotal(rows: seq<Item>, a: seq<string>, b: seq<string>, c: seq<string>): real {
    BucketSum(rows, a) + BucketSum(rows, b) + BucketSum(rows, c)
  }

  /** Every row has a non-negative amount and belongs to at least one of the three buckets. */
  ghost predicate Covered(rows: seq<Item>, a: seq<string>, b: seq<string>, c: seq<string>) {
    forall k :: 0 <= k < |rows| ==>
      rows[k].amount >= 0.0 && (InBucket(rows[k], a) || InBucket(rows[k], b) || InBucket(rows[k], c))
  }

  /** When every row is covered by the three buckets, the three sums together cover all the rows. */
  lemma {:induction false} BucketsCover(rows: seq<Item>, a: seq<string>, b: seq<string>, c: seq<string>)
    requires Covered(rows, a, b, c)
    ensures BucketsTotal(rows, a, b, c) >= Total(rows)
    decreases |rows|
  {
    if |rows| > 0 {
      var front, x := rows[..|rows| - 1], rows[|rows| - 1];
      CoveredParts(rows, a, b, c);
      BucketsCover(front, a, b, c);
      CoverLast(rows, a, b, c);
    }
  }

  /** The rows before the last of a covered sequence are covered, and so is the last. */
  lemma CoveredParts(rows: seq<Item>, a: seq<string>, b: seq<string>, c: seq<string>)
    requires Covered(rows, a, b, c) && |rows| > 0
    ensures Covered(rows[..|rows| - 1], a, b, c)
    ensures var x := rows[|rows| - 1]; x.amount >= 0.0 && (InBucket(x, a) || InBucket(x, b) || InBucket(x, c))
  {
    var front := rows[..|rows| - 1];
    forall k | 0 <= k < |front| ensures front[k] == rows[k] { }
  }

  /** A covered last row adds at least its amount to the three sums together. */
  lemma CoverLast(rows: seq<Item>, a: seq<string>, b: seq<string>, c: seq<string>)
    requires |rows| > 0
    requires var x := rows[|rows| - 1]; x.amount >= 0.0 && (InBucket(x, a) || InBucket(x, b) || InBucket(x, c))
    ensures BucketsTotal(rows, a, b, c) >= BucketsTotal(rows[..|rows| - 1], a, b, c) + rows[|rows| - 1].amount
  {
    var front, x := rows[..|rows| - 1], rows[|rows| - 1];
    assert front + [x] == rows;
    CoverSnoc(front, x, a, b, c);
  }

  /** A covered row appended adds at least its amount to the three sums together. */
  lemma CoverSnoc(front: seq<Item>, x: Item, a: seq<string>, b: seq<string>, c: seq<string>)
    requires x.amount >= 0.0 && (InBucket(x, a) || InBucket(x, b) || InBucket(x, c))
    ensures BucketsTotal(front + [x], a, b, c) >= BucketsTotal(front, a, b, c) + x.amount
  {
    BucketSumSnoc(front, x, a);
    BucketSumSnoc(front, x, b);
    BucketSumSnoc(front, x, c);
    CoverStep(InBucket(x, a), InBucket(x, b), InBucket(x, c), x.amount);
  }

  /** The row's amount, counted once per bucket it belongs to, is at least the amount. */
  lemma CoverStep(inA: bool, inB: bool, inC: bool, amount: real)
    requires amount >= 0.0 && (inA || inB || inC)
    ensures (if inA then amount else 0.0) + (if inB then amount else 0.0) + (if inC then amount else 0.0) >= amount
  {
  }

  /** The backend's display name of a category key lower-cases back to the key. */
  lemma DisplayNameKnown(c: Category)
    ensures Lower(AiService.DisplayName(CategoryKey(c))) == CategoryKey(c)
  {
    var key := CategoryKey(c);
    assert AiService.Unscore(key) == key;
    assert Lower(key) == key;
  }

  /** A bucket's bar: its sum as a percentage of income, against its target. */
  function BarOf(rows: seq<Item>, income: real, name: string, b: Bucket): (bar: Bar)
    requires income != 0.0
    ensures bar.amount == BucketSum(rows, Words(b)) && bar.target == Target(b)
    ensures bar.current == bar.amount / income * 100.0
    ensures bar.current * income == bar.amount * 100.0
  {
    var sum := BucketSum(rows, Words(b));
    Bar(name, sum / income * 100.0, Target(b), sum)
  }

  /**
   * The component: nothing without a breakdown or with zero income; otherwise the
   * needs, wants and savings bars in that order.
   */
  function Compare(breakdown: Option<seq<Item>>, income: real): (bars: Option<seq<Bar>>)
    ensures bars.None? <==> breakdown.None? || income == 0.0
    ensures bars.Some? ==> |bars.value| == 3
    ensures bars.Some? ==>
      bars.value[0].target == 50.0 && bars.value[1].target == 30.0 && bars.value[2].target == 20.0
    ensures bars.Some? ==>
      bars.value[0].amount == BucketSum(breakdown.value, NeedsCategories) &&
      bars.value[1].amount == BucketSum(breakdown.value, WantsCategories) &&
      bars.value[2].amount == BucketSum(breakdown.value, SavingsCategories)
    ensures bars.Some? ==>
      forall k :: 0 <= k < 3 ==> bars.value[k].current == bars.value[k].amount / income * 100.0
  {
    if breakdown.None? || income == 0.0 then None
    else
      var rows := breakdown.value;
      Some([BarOf(rows, income, "Needs", Needs), BarOf(rows, income, "Wants", Wants),
            BarOf(rows, income, "Savings", SavingsBucket)])
  }

  /** "Higher than target" and "Lower than target": above the target, below 80% of it; never both. */
  function Flags(bar: Bar): (flags: (bool, bool))
    ensures flags.0 <==> bar.current > bar.target
    ensures flags.1 <==> bar.current < bar.target * 0.8
    ensures bar.target > 0.0 ==> !(flags.0 && flags.1)
  {
    (bar.current > bar.target, bar.current < bar.target * 0.8)
  }

  /** The width of the progress bar, in percent: the share, capped at 100. */
  function BarWidth(bar: Bar): (width: real)
    ensures width <= 100.0 && width <= bar.current
    ensures width == bar.current || width == 100.0
  {
    if bar.current <= 100.0 then bar.current else 100.0
  }

  /**
   * With non-negative amounts and every row one of the seven categories, the
   * three shares together are at least all spending as a share of positive income.
   */
  lemma SharesCoverSpending(rows: seq<Item>, income: real)
    requires income > 0.0
    requires forall k :: 0 <= k < |rows| ==> KnownRow(rows[k]) && rows[k].amount >= 0.0
    ensures var bars := Compare(Some(rows), income).value;
      bars[0].current + bars[1].current + bars[2].current >= Total(rows) / income * 100.0
  {
    forall k | 0 <= k < |rows|
      ensures InBucket(rows[k], NeedsCategories) || InBucket(rows[k], WantsCategories) ||
              InBucket(rows[k], SavingsCategories)
    {
      KnownRowInBucket(rows[k]);
    }
    assert Covered(rows, NeedsCategories, WantsCategories, SavingsCategories);
    BucketsCover(rows, NeedsCategories, WantsCategories, SavingsCategories);
    var bars := Compare(Some(rows), income).value;
    ShareSum(bars[0].amount, bars[1].amount, bars[2].amount, Total(rows), income);
  }

  /** Shares of one income add up like the amounts they are shares of. */
  lemma ShareSum(a: real, b: real, c: real, total: real, income: real)
    requires income > 0.0 && a + b + c >= total
    ensures a / income * 100.0 + b / income * 100.0 + c / income * 100.0 >= total / income * 100.0
  {
    assert a / income + b / income + c / income == (a + b + c) / income;
  }
}
