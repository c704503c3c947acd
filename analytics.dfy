/**
 * The analytics page (`Analytics.jsx`): monthly totals of income and
 * expenses, per-category spending, the two grand totals, the planned
 * budgets derived from the categories, and the spending tips. Amounts are
 * whole cents and dates are reduced to their calendar month.
 */
module Analytics {
  import opened Wrappers
  import opened JsNumbers

  /** The calendar month of a date, the key `YYYY-MM` the page groups by. */
  datatype YearMonth = YearMonth(year: int, month: int)

  /** `a.localeCompare(b) < 0` on the two `YYYY-MM` keys, for four-digit years: the earlier month first. */
  predicate Before(a: YearMonth, b: YearMonth) {
    a.year < b.year || (a.year == b.year && a.month < b.month)
  }

  /** A row as the monthly summary reads it: the month of its date field and its amount. */
  datatype Dated = Dated(month: YearMonth, amount: int)

  /** One entry of the monthly summary. */
  datatype MonthTotal = MonthTotal(month: YearMonth, total: int)

  /** `reduce((sum, item) => sum + Number(item.amount), 0)`. */
  function Total(data: seq<Dated>): int {
    if data == [] then 0 else Total(data[..|data| - 1]) + data[|data| - 1].amount
  }

  /** Totals add up over concatenation. */
  lemma {:induction false} TotalAppend(a: seq<Dated>, b: seq<Dated>)
    ensures Total(a + b) == Total(a) + Total(b)
    decreases |b|
  {
    if b != [] {
      assert (a + b)[..|a + b| - 1] == a + b[..|b| - 1];
      TotalAppend(a, b[..|b| - 1]);
    } else {
      assert a + b == a;
    }
  }

  /** The sum of the amounts of the rows dated in month `m`. */
  function SumFor(data: seq<Dated>, m: YearMonth): int {
    if data == [] then 0
    else SumFor(data[..|data| - 1], m) + (if data[|data| - 1].month == m then data[|data| - 1].amount else 0)
  }

  /** The months in which some row is dated. */
  function MonthsOf(data: seq<Dated>): set<YearMonth> {
    set i | 0 <= i < |data| :: data[i].month
  }

  /** A month without rows sums to zero. */
  lemma {:induction false} SumForAbsent(data: seq<Dated>, m: YearMonth)
    requires m !in MonthsOf(data)
    ensures SumFor(data, m) == 0
    decreases |data|
  {
    if data != [] {
      var init := data[..|data| - 1];
      assert MonthsOf(init) <= MonthsOf(data) by {
        forall k | k in MonthsOf(init) ensures k in MonthsOf(data) {
          var i :| 0 <= i < |init| && init[i].month == k;
          assert data[i].month == k;
        }
      }
      assert data[|data| - 1].month in MonthsOf(data);
      SumForAbsent(init, m);
    }
  }

  /** Entries in strictly ascending month order, hence one entry per month. */
  predicate Ascending(s: seq<MonthTotal>) {
    forall i, j :: 0 <= i < j < |s| ==> Before(s[i].month, s[j].month)
  }

  /** The months that have an entry. */
  function MonthSet(s: seq<MonthTotal>): set<YearMonth> {
    set i | 0 <= i < |s| :: s[i].month
  }

  /** The sum of the totals of the entries for month `m`. */
  function TotalOf(s: seq<MonthTotal>, m: YearMonth): int {
    if s == [] then 0 else (if s[0].month == m then s[0].total else 0) + TotalOf(s[1..], m)
  }

  /** The sum of all the entries' totals. */
  function SumTotals(s: seq<MonthTotal>): int {
    if s == [] then 0 else s[0].total + SumTotals(s[1..])
  }

  lemma {:induction false} MonthSetCons(s: seq<MonthTotal>)
    requires s != []
    ensures MonthSet(s) == {s[0].month} + MonthSet(s[1..])
  {
    forall k | k in MonthSet(s) ensures k in {s[0].month} + MonthSet(s[1..]) {
      var i :| 0 <= i < |s| && s[i].month == k;
      if i > 0 { assert s[1..][i - 1].month == k; }
    }
    forall k | k in MonthSet(s[1..]) ensures k in MonthSet(s) {
      var i :| 0 <= i < |s[1..]| && s[1..][i].month == k;
      assert s[i + 1].month == k;
    }
  }

  /** A month without an entry totals zero. */
  lemma {:induction false} TotalOfAbsent(s: seq<MonthTotal>, m: YearMonth)
    requires m !in MonthSet(s)
    ensures TotalOf(s, m) == 0
    decreases |s|
  {
    if s != [] {
      MonthSetCons(s);
      TotalOfAbsent(s[1..], m);
    }
  }

  /** In an ascending summary every later month comes after the first one. */
  lemma HeadIsLeast(s: seq<MonthTotal>)
    requires Ascending(s) && s != []
    ensures forall k :: k in MonthSet(s[1..]) ==> Before(s[0].month, k)
    ensures s[0].month !in MonthSet(s[1..])
  {
    forall k | k in MonthSet(s[1..]) ensures Before(s[0].month, k) {
      var j :| 0 <= j < |s[1..]| && s[1..][j].month == k;
      assert s[j + 1].month == k;
    }
  }

  /** An entry whose month comes before every month of an ascending summary can be put in front of it. */
  lemma ConsAscending(x: MonthTotal, rest: seq<MonthTotal>)
    requires Ascending(rest)
    requires forall k :: k in MonthSet(rest) ==> Before(x.month, k)
    ensures Ascending([x] + rest)
  {
    var r := [x] + rest;
    forall i, j | 0 <= i < j < |r| ensures Before(r[i].month, r[j].month) {
      assert r[j] == rest[j - 1];
      if i == 0 {
        assert rest[j - 1].month in MonthSet(rest);
      } else {
        assert r[i] == rest[i - 1];
      }
    }
  }

  /** In an ascending summary an entry's month occurs nowhere else, so its total is that month's total. */
  lemma {:induction false} EntryTotal(s: seq<MonthTotal>, i: nat)
    requires Ascending(s) && i < |s|
    ensures TotalOf(s, s[i].month) == s[i].total
    decreases i
  {
    MonthSetCons(s);
    if i == 0 {
      HeadIsLeast(s);
      TotalOfAbsent(s[1..], s[0].month);
    } else {
      assert Before(s[0].month, s[i].month);
      EntryTotal(s[1..], i - 1);
    }
  }

  /**
   * The accumulator step for one row, kept in month order: add the amount
   * to the month's entry, or insert a new entry where its month belongs.
   */
  function AddTo(s: seq<MonthTotal>, m: YearMonth, amount: int): seq<MonthTotal> {
    if s == [] then [MonthTotal(m, amount)]
    else if s[0].month == m then [MonthTotal(m, s[0].total + amount)] + s[1..]
    else if Before(m, s[0].month) then [MonthTotal(m, amount)] + s
    else [s[0]] + AddTo(s[1..], m, amount)
  }

  /** Adding a row keeps the order, adds its month, and adds its amount to that month and to the grand total. */
  lemma {:induction false} AddToSpec(s: seq<MonthTotal>, m: YearMonth, amount: int)
    requires Ascending(s)
    ensures var r := AddTo(s, m, amount);
      && Ascending(r)
      && MonthSet(r) == MonthSet(s) + {m}
      && (forall k :: TotalOf(r, k) == TotalOf(s, k) + (if k == m then amount else 0))
      && SumTotals(r) == SumTotals(s) + amount
    decreases |s|
  {
    var r := AddTo(s, m, amount);
    if s == [] {
      assert r[1..] == [];
      MonthSetCons(r);
    } else if s[0].month == m {
      assert r[1..] == s[1..];
      MonthSetCons(r);
      MonthSetCons(s);
    } else if Before(m, s[0].month) {
      assert r[1..] == s;
      MonthSetCons(r);
    } else {
      var rest := AddTo(s[1..], m, amount);
      AddToSpec(s[1..], m, amount);
      assert r[1..] == rest;
      MonthSetCons(r);
      MonthSetCons(s);
      HeadIsLeast(s);
      assert Before(s[0].month, m);
      ConsAscending(s[0], rest);
    }
  }

  /** The whole reduce: every row added in turn, starting from no entries. */
  function Monthly(data: seq<Dated>): seq<MonthTotal> {
    if data == [] then [] else AddTo(Monthly(data[..|data| - 1]), data[|data| - 1].month, data[|data| - 1].amount)
  }

  /**
   * The monthly summary has one entry per month that has rows, in
   * ascending month order; each month's entry is the sum of that month's
   * amounts, and the entries add up to the grand total.
   */
  lemma {:induction false} MonthlySpec(data: seq<Dated>)
    ensures var s := Monthly(data);
      && Ascending(s)
      && MonthSet(s) == MonthsOf(data)
      && (forall k :: TotalOf(s, k) == SumFor(data, k))
      && SumTotals(s) == Total(data)
    decreases |data|
  {
    if data != [] {
      var init := data[..|data| - 1];
      var last := data[|data| - 1];
      MonthlySpec(init);
      AddToSpec(Monthly(init), last.month, last.amount);
      assert MonthsOf(data) == MonthsOf(init) + {last.month} by {
        forall k | k in MonthsOf(data) ensures k in MonthsOf(init) + {last.month} {
          var i :| 0 <= i < |data| && data[i].month == k;
          if i < |init| { assert init[i].month == k; }
        }
        forall k | k in MonthsOf(init) ensures k in MonthsOf(data) {
          var i :| 0 <= i < |init| && init[i].month == k;
          assert data[i].month == k;
        }
      }
    }
  }

  /** Each entry of the monthly summary carries exactly its month's sum. */
  lemma MonthlyEntries(data: seq<Dated>)
    ensures forall i :: 0 <= i < |Monthly(data)| ==> Monthly(data)[i].total == SumFor(data, Monthly(data)[i].month)
  {
    MonthlySpec(data);
    forall i | 0 <= i < |Monthly(data)| ensures Monthly(data)[i].total == SumFor(data, Monthly(data)[i].month) {
      EntryTotal(Monthly(data), i);
    }
  }

  /** Two ascending summaries with the same months and the same totals are the same summary. */
  lemma {:induction false} SummaryUnique(s1: seq<MonthTotal>, s2: seq<MonthTotal>)
    requires Ascending(s1) && Ascending(s2) && MonthSet(s1) == MonthSet(s2)
    requires forall k :: TotalOf(s1, k) == TotalOf(s2, k)
    ensures s1 == s2
    decreases |s1|
  {
    assert s2 == [] || s2[0].month in MonthSet(s2);
    assert s1 == [] || s1[0].month in MonthSet(s1);
    if s1 != [] {
      MonthSetCons(s1);
      MonthSetCons(s2);
      HeadIsLeast(s1);
      HeadIsLeast(s2);
      var m := s1[0].month;
      assert s2[0].month == m;
      EntryTotal(s1, 0);
      EntryTotal(s2, 0);
      forall k ensures TotalOf(s1[1..], k) == TotalOf(s2[1..], k) {
        assert TotalOf(s1, k) == (if s1[0].month == k then s1[0].total else 0) + TotalOf(s1[1..], k);
        assert TotalOf(s2, k) == (if s2[0].month == k then s2[0].total else 0) + TotalOf(s2[1..], k);
      }
      SummaryUnique(s1[1..], s2[1..]);
      assert s1 == [s1[0]] + s1[1..] && s2 == [s2[0]] + s2[1..];
    }
  }

  /** One more row adds its month. */
  lemma MonthsOfStep(data: seq<Dated>, i: nat)
    requires i < |data|
    ensures data[..i + 1][..i] == data[..i]
    ensures MonthsOf(data[..i + 1]) == MonthsOf(data[..i]) + {data[i].month}
  {
    assert data[..i + 1][..i] == data[..i];
    forall k | k in MonthsOf(data[..i + 1]) ensures k in MonthsOf(data[..i]) + {data[i].month} {
      var j :| 0 <= j < i + 1 && data[..i + 1][j].month == k;
      if j < i { assert data[..i][j].month == k; }
    }
    forall k | k in MonthsOf(data[..i]) ensures k in MonthsOf(data[..i + 1]) {
      var j :| 0 <= j < i && data[..i][j].month == k;
      assert data[..i + 1][j].month == k;
    }
  }

  /**
   * The `reduce` of `processMonthlyData`: a dictionary from month to the
   * running total of its rows, and its keys in insertion order.
   */
  method MonthAccumulator(data: seq<Dated>) returns (acc: map<YearMonth, int>, order: seq<YearMonth>)
    ensures acc.Keys == MonthsOf(data)
    ensures forall k :: k in acc ==> acc[k] == SumFor(data, k)
    ensures forall k :: k in acc <==> k in order
    ensures forall a, b :: 0 <= a < b < |order| ==> order[a] != order[b]
  {
    acc, order := map[], [];
    var i := 0;
    while i < |data|
      invariant 0 <= i <= |data|
      invariant acc.Keys == MonthsOf(data[..i])
      invariant forall k :: k in acc ==> acc[k] == SumFor(data[..i], k)
      invariant forall k :: k in acc <==> k in order
      invariant forall a, b :: 0 <= a < b < |order| ==> order[a] != order[b]
    {
      var key := data[i].month;
      MonthsOfStep(data, i);
      if key !in acc {
        acc := acc[key := 0];
        order := order + [key];
        SumForAbsent(data[..i], key);
      }
      acc := acc[key := acc[key] + data[i].amount];
      i := i + 1;
    }
    assert data[..i] == data;
  }

  /**
   * `Object.values(...).sort(...)`: the dictionary's entries, each put in
   * its place by month.
   */
  method InsertInOrder(acc: map<YearMonth, int>, order: seq<YearMonth>) returns (out: seq<MonthTotal>)
    requires forall k :: k in order ==> k in acc
    requires forall a, b :: 0 <= a < b < |order| ==> order[a] != order[b]
    ensures Ascending(out)
    ensures forall k :: k in MonthSet(out) <==> k in order
    ensures forall k :: TotalOf(out, k) == if k in order then acc[k] else 0
  {
    out := [];
    var j := 0;
    while j < |order|
      invariant 0 <= j <= |order|
      invariant Ascending(out)
      invariant forall k :: k in MonthSet(out) <==> k in order[..j]
      invariant forall k :: TotalOf(out, k) == if k in order[..j] then acc[k] else 0
    {
      var key := order[j];
      AddToSpec(out, key, acc[key]);
      assert order[..j + 1] == order[..j] + [key];
      out := AddTo(out, key, acc[key]);
      j := j + 1;
    }
    assert order[..j] == order;
  }

  /**
   * `processMonthlyData`: one pass over the rows builds a dictionary from
   * month to running total (keys kept in insertion order, as
   * `Object.values` lists them), then the entries are put in month order.
   * The result is the ascending monthly summary of the rows.
   */
  method ProcessMonthlyData(data: seq<Dated>) returns (out: seq<MonthTotal>)
    ensures Ascending(out)
    ensures MonthSet(out) == MonthsOf(data)
    ensures forall i :: 0 <= i < |out| ==> out[i].total == SumFor(data, out[i].month)
    ensures out == Monthly(data)
  {
    var acc, order := MonthAccumulator(data);
    out := InsertInOrder(acc, order);
    assert MonthSet(out) == MonthsOf(data) by {
      forall k | k in MonthsOf(data) ensures k in MonthSet(out) {
        assert k in order;
      }
    }
    forall k ensures TotalOf(out, k) == SumFor(data, k) {
      if k !in MonthsOf(data) {
        SumForAbsent(data, k);
      }
    }
    forall l | 0 <= l < |out| ensures out[l].total == SumFor(data, out[l].month) {
      EntryTotal(out, l);
    }
    MonthlySpec(data);
    SummaryUnique(out, Monthly(data));
  }

  /** An expense row with its category (`expense_categories (id, name)`), month and amount. */
  datatype Expense = Expense(categoryId: string, categoryName: string, month: YearMonth, amount: int)

  /** The expense rows as the monthly summary and the totals read them. */
  function Dates(expenses: seq<Expense>): (r: seq<Dated>)
    ensures |r| == |expenses|
    ensures forall i :: 0 <= i < |r| ==> r[i] == Dated(expenses[i].month, expenses[i].amount)
  {
    seq(|expenses|, i requires 0 <= i < |expenses| => Dated(expenses[i].month, expenses[i].amount))
  }

  /** One entry of `categoryTotals`. */
  datatype Category = Category(id: string, name: string, spent: int, planned: int)

  /** The category ids the expense rows mention. */
  function CategoryIds(expenses: seq<Expense>): set<string> {
    set i | 0 <= i < |expenses| :: expenses[i].categoryId
  }

  /** The sum of the amounts of the expense rows in category `id`. */
  function SpentOn(expenses: seq<Expense>, id: string): int {
    if expenses == [] then 0
    else
      var last := expenses[|expenses| - 1];
      SpentOn(expenses[..|expenses| - 1], id) + (if last.categoryId == id then last.amount else 0)
  }

  /** The position of the first expense row in category `id`. */
  function FirstIndex(expenses: seq<Expense>, id: string): (k: nat)
    requires id in CategoryIds(expenses)
    ensures k < |expenses| && expenses[k].categoryId == id
    decreases |expenses|
  {
    if expenses[0].categoryId == id then 0
    else
      assert id in CategoryIds(expenses[1..]) by {
        var i :| 0 <= i < |expenses| && expenses[i].categoryId == id;
        assert expenses[1..][i - 1].categoryId == id;
      }
      1 + FirstIndex(expenses[1..], id)
  }

  /** No row before the first row of a category is in that category. */
  lemma {:induction false} FirstIndexIsFirst(expenses: seq<Expense>, id: string, j: nat)
    requires id in CategoryIds(expenses) && j < FirstIndex(expenses, id)
    ensures expenses[j].categoryId != id
    decreases |expenses|
  {
    if j > 0 {
      assert id in CategoryIds(expenses[1..]) by {
        var i :| 0 <= i < |expenses| && expenses[i].categoryId == id;
        assert expenses[1..][i - 1].categoryId == id;
      }
      FirstIndexIsFirst(expenses[1..], id, j - 1);
    }
  }

  /**
   * What `categoryTotals` promises: one entry per category id the rows
   * mention, listed in the order the ids first appear; each entry carries
   * the name on that category's first row, the sum of its amounts as
   * `spent`, and 0 as `planned`.
   */
  predicate CategorySummary(categories: seq<Category>, expenses: seq<Expense>) {
    && (forall i :: 0 <= i < |categories| ==> categories[i].id in CategoryIds(expenses))
    && (forall k :: k in CategoryIds(expenses) ==> exists i :: 0 <= i < |categories| && categories[i].id == k)
    && (forall i :: 0 <= i < |categories| ==>
          var id := categories[i].id;
          categories[i] == Category(id, expenses[FirstIndex(expenses, id)].categoryName, SpentOn(expenses, id), 0))
    && (forall a, b :: 0 <= a < b < |categories| ==> FirstRowBefore(expenses, categories[a].id, categories[b].id))
  }

  /** One more row adds its category id. */
  lemma CategoryIdsStep(expenses: seq<Expense>, i: nat)
    requires i < |expenses|
    ensures expenses[..i + 1][..i] == expenses[..i]
    ensures CategoryIds(expenses[..i + 1]) == CategoryIds(expenses[..i]) + {expenses[i].categoryId}
  {
    assert expenses[..i + 1][..i] == expenses[..i];
    forall k | k in CategoryIds(expenses[..i + 1]) ensures k in CategoryIds(expenses[..i]) + {expenses[i].categoryId} {
      var j :| 0 <= j < i + 1 && expenses[..i + 1][j].categoryId == k;
      if j < i { assert expenses[..i][j].categoryId == k; }
    }
    forall k | k in CategoryIds(expenses[..i]) ensures k in CategoryIds(expenses[..i + 1]) {
      var j :| 0 <= j < i && expenses[..i][j].categoryId == k;
      assert expenses[..i + 1][j].categoryId == k;
    }
  }

  /** One more row adds its amount to its own category only. */
  lemma SpentOnStep(expenses: seq<Expense>, i: nat)
    requires i < |expenses|
    ensures forall k :: SpentOn(expenses[..i + 1], k)
                     == SpentOn(expenses[..i], k) + (if expenses[i].categoryId == k then expenses[i].amount else 0)
  {
    assert expenses[..i + 1][..i] == expenses[..i];
  }

  /** A row whose category no earlier row has is that category's first row. */
  lemma FirstIndexOfNew(expenses: seq<Expense>, i: nat)
    requires i < |expenses| && expenses[i].categoryId !in CategoryIds(expenses[..i])
    ensures expenses[i].categoryId in CategoryIds(expenses)
    ensures FirstIndex(expenses, expenses[i].categoryId) == i
  {
    var key := expenses[i].categoryId;
    assert key in CategoryIds(expenses);
    var f := FirstIndex(expenses, key);
    assert f >= i by {
      assert expenses[..i] == expenses[..i];
      forall j | 0 <= j < i ensures expenses[j].categoryId != key {
        assert expenses[..i][j].categoryId == expenses[j].categoryId;
      }
    }
    if f > i {
      FirstIndexIsFirst(expenses, key, i);
    }
  }

  /** The entry for category `id` once the first `n` rows have been added. */
  function EntryAfter(expenses: seq<Expense>, n: nat, id: string): Category
    requires n <= |expenses| && id in CategoryIds(expenses)
  {
    Category(id, expenses[FirstIndex(expenses, id)].categoryName, SpentOn(expenses[..n], id), 0)
  }

  /** Category `x` has its first row before category `y` does. */
  predicate FirstRowBefore(expenses: seq<Expense>, x: string, y: string) {
    x in CategoryIds(expenses) && y in CategoryIds(expenses) && FirstIndex(expenses, x) < FirstIndex(expenses, y)
  }

  /**
   * The `categoryTotals` reduce: a dictionary from category id to its
   * running entry, and its keys in insertion order (the order
   * `Object.values` lists them in for keys that are not array indices).
   */
  method CategoryAccumulator(expenses: seq<Expense>) returns (acc: map<string, Category>, order: seq<string>)
    ensures acc.Keys == CategoryIds(expenses)
    ensures forall k :: k in acc <==> k in order
    ensures forall k :: k in acc ==> acc[k] == EntryAfter(expenses, |expenses|, k)
    ensures forall a, b :: 0 <= a < b < |order| ==> FirstRowBefore(expenses, order[a], order[b])
  {
    acc, order := map[], [];
    var i := 0;
    while i < |expenses|
      invariant 0 <= i <= |expenses|
      invariant AccumulatedUpTo(expenses, i, acc, order)
    {
      acc, order := AddRow(expenses, i, acc, order);
      i := i + 1;
    }
    assert expenses[..i] == expenses;
  }

  /** What the accumulator holds once the first `i` rows have been added. */
  ghost predicate AccumulatedUpTo(expenses: seq<Expense>, i: nat, acc: map<string, Category>, order: seq<string>)
    requires i <= |expenses|
  {
    && acc.Keys == CategoryIds(expenses[..i])
    && (forall k :: k in acc <==> k in order)
    && (forall k :: k in acc ==> k in CategoryIds(expenses) && FirstIndex(expenses, k) < i)
    && (forall k :: k in acc ==> acc[k] == EntryAfter(expenses, i, k))
    && (forall a, b :: 0 <= a < b < |order| ==> FirstRowBefore(expenses, order[a], order[b]))
  }

  /** One step of the reduce: row `i` opens its category's entry if needed and adds its amount to it. */
  method AddRow(expenses: seq<Expense>, i: nat, acc: map<string, Category>, order: seq<string>)
    returns (acc': map<string, Category>, order': seq<string>)
    requires i < |expenses| && AccumulatedUpTo(expenses, i, acc, order)
    ensures AccumulatedUpTo(expenses, i + 1, acc', order')
  {
    var expense := expenses[i];
    var key := expense.categoryId;
    var entry: Category;
    order' := order;
    if key in acc {
      entry := acc[key];
      KnownCategoryStep(expenses, i, acc, order);
    } else {
      entry := Category(key, expense.categoryName, 0, 0);
      NewCategoryStep(expenses, i, acc, order);
      order' := order + [key];
    }
    acc' := acc[key := entry.(spent := entry.spent + expense.amount)];
  }

  /** A row of a category already in the dictionary adds its amount to that entry. */
  lemma KnownCategoryStep(expenses: seq<Expense>, i: nat, acc: map<string, Category>, order: seq<string>)
    requires i < |expenses| && AccumulatedUpTo(expenses, i, acc, order) && expenses[i].categoryId in acc
    ensures var key := expenses[i].categoryId;
      AccumulatedUpTo(expenses, i + 1, acc[key := acc[key].(spent := acc[key].spent + expenses[i].amount)], order)
  {
    var key := expenses[i].categoryId;
    var acc' := acc[key := acc[key].(spent := acc[key].spent + expenses[i].amount)];
    CategoryIdsStep(expenses, i);
    SpentOnStep(expenses, i);
    assert acc'.Keys == CategoryIds(expenses[..i + 1]);
    forall k | k in acc' ensures acc'[k] == EntryAfter(expenses, i + 1, k) {
      if k != key {
        assert acc'[k] == acc[k];
        assert SpentOn(expenses[..i + 1], k) == SpentOn(expenses[..i], k);
      } else {
        assert acc[key] == EntryAfter(expenses, i, key);
        assert SpentOn(expenses[..i + 1], key) == SpentOn(expenses[..i], key) + expenses[i].amount;
      }
    }
  }

  /** A row of a new category opens its entry with the row's amount and lists the category last. */
  lemma NewCategoryStep(expenses: seq<Expense>, i: nat, acc: map<string, Category>, order: seq<string>)
    requires i < |expenses| && AccumulatedUpTo(expenses, i, acc, order) && expenses[i].categoryId !in acc
    ensures var key := expenses[i].categoryId;
      AccumulatedUpTo(expenses, i + 1, acc[key := Category(key, expenses[i].categoryName, expenses[i].amount, 0)],
                      order + [key])
  {
    var key := expenses[i].categoryId;
    var acc' := acc[key := Category(key, expenses[i].categoryName, expenses[i].amount, 0)];
    CategoryIdsStep(expenses, i);
    SpentOnStep(expenses, i);
    FirstIndexOfNew(expenses, i);
    SpentOnAbsent(expenses[..i], key);
    AppendLaterCategory(expenses, order, key, i);
    assert acc'.Keys == acc.Keys + {key};
    forall k | k in acc' ensures acc'[k] == EntryAfter(expenses, i + 1, k) {
      if k != key {
        assert acc'[k] == acc[k];
      }
    }
  }

  /** A category whose first row comes after every listed category's first row can be listed last. */
  lemma AppendLaterCategory(expenses: seq<Expense>, order: seq<string>, key: string, i: nat)
    requires key in CategoryIds(expenses) && FirstIndex(expenses, key) == i
    requires forall k :: k in order ==> k in CategoryIds(expenses) && FirstIndex(expenses, k) < i
    requires forall a, b :: 0 <= a < b < |order| ==> FirstRowBefore(expenses, order[a], order[b])
    ensures forall a, b :: 0 <= a < b < |order + [key]| ==> FirstRowBefore(expenses, (order + [key])[a], (order + [key])[b])
  {
    forall a, b | 0 <= a < b < |order + [key]|
      ensures FirstRowBefore(expenses, (order + [key])[a], (order + [key])[b])
    {
      assert (order + [key])[a] == order[a];
      if b < |order| {
        assert (order + [key])[b] == order[b];
      } else {
        assert order[a] in order;
      }
    }
  }

  /** `Object.values(categoryTotals)`: the entries in key order. */
  method CategoryTotals(expenses: seq<Expense>) returns (categories: seq<Category>)
    ensures CategorySummary(categories, expenses)
  {
    var acc, order := CategoryAccumulator(expenses);
    assert expenses[..|expenses|] == expenses;
    categories := [];
    var j := 0;
    while j < |order|
      invariant 0 <= j <= |order|
      invariant |categories| == j
      invariant forall l :: 0 <= l < j ==> order[l] in acc && categories[l] == acc[order[l]]
    {
      categories := categories + [acc[order[j]]];
      j := j + 1;
    }
    forall k | k in CategoryIds(expenses)
      ensures exists l :: 0 <= l < |categories| && categories[l].id == k
    {
      var l :| 0 <= l < |order| && order[l] == k;
      assert categories[l].id == k;
    }
  }

  /** A category without rows has spent nothing. */
  lemma {:induction false} SpentOnAbsent(expenses: seq<Expense>, id: string)
    requires id !in CategoryIds(expenses)
    ensures SpentOn(expenses, id) == 0
    decreases |expenses|
  {
    if expenses != [] {
      var init := expenses[..|expenses| - 1];
      assert CategoryIds(init) <= CategoryIds(expenses) by {
        forall k | k in CategoryIds(init) ensures k in CategoryIds(expenses) {
          var i :| 0 <= i < |init| && init[i].categoryId == k;
          assert expenses[i].categoryId == k;
        }
      }
      assert expenses[|expenses| - 1].categoryId in CategoryIds(expenses);
      SpentOnAbsent(init, id);
    }
  }

  /** A category entry with what is left of its plan and how much of the plan is used. */
  datatype Budget = Budget(category: Category, remaining: int, percentage: real)

  /** The budget view of one category. */
  function BudgetFor(c: Category): (b: Budget)
    ensures b.category == c
    ensures b.remaining + c.spent == c.planned
    ensures c.planned > 0 ==> b.percentage * c.planned as real == c.spent as real * 100.0
    ensures c.planned <= 0 ==> b.percentage == 0.0
  {
    Budget(c, c.planned - c.spent,
           if c.planned > 0 then c.spent as real / c.planned as real * 100.0 else 0.0)
  }

  /** `plannedBudgets`: one budget per category, in the same order. */
  function PlannedBudgets(categories: seq<Category>): (r: seq<Budget>)
    ensures |r| == |categories|
    ensures forall i :: 0 <= i < |r| ==> r[i] == BudgetFor(categories[i])
  {
    seq(|categories|, i requires 0 <= i < |categories| => BudgetFor(categories[i]))
  }

  /**
   * Every category built from the expense rows plans 0, so every budget
   * shows the spending as a deficit and 0 percent used.
   */
  lemma UnplannedBudgets(categories: seq<Category>, expenses: seq<Expense>)
    requires CategorySummary(categories, expenses)
    ensures forall i :: 0 <= i < |categories| ==>
      PlannedBudgets(categories)[i].remaining == -categories[i].spent
      && PlannedBudgets(categories)[i].percentage == 0.0
  {
    forall i | 0 <= i < |categories|
      ensures PlannedBudgets(categories)[i].remaining == -categories[i].spent
      ensures PlannedBudgets(categories)[i].percentage == 0.0
    {
      assert categories[i].planned == 0;
    }
  }

  /** A suggestion the user has been given (`user_tips` joined with its template). */
  datatype ActiveTip = ActiveTip(title: string, description: string, isActedUpon: bool)

  /** The joined `expense_categories (id, name)`; null when the row's category is gone. */
  datatype CategoryRef = CategoryRef(id: string, name: string)

  /** An `expenses` row as the query returns it. */
  datatype ExpenseRow = ExpenseRow(category: Option<CategoryRef>, month: YearMonth, amount: int)

  /** The joined `tip_templates (title, description)`; null when the template is gone. */
  datatype TipTemplate = TipTemplate(title: string, description: string)

  /** A `user_tips` row as the query returns it. */
  datatype TipRow = TipRow(template: Option<TipTemplate>, isActedUpon: bool)

  /**
   * The expense rows with their categories read, or None when some row's
   * category is null (reading `.name` of it throws).
   */
  function JoinedExpenses(rows: seq<ExpenseRow>): (r: Option<seq<Expense>>)
    ensures r.Some? <==> forall i :: 0 <= i < |rows| ==> rows[i].category.Some?
    ensures r.Some? ==> |r.value| == |rows|
    ensures r.Some? ==> forall i :: 0 <= i < |rows| ==>
      r.value[i] == Expense(rows[i].category.value.id, rows[i].category.value.name, rows[i].month, rows[i].amount)
  {
    if forall i :: 0 <= i < |rows| ==> rows[i].category.Some? then
      Some(seq(|rows|, i requires 0 <= i < |rows| =>
        Expense(rows[i].category.value.id, rows[i].category.value.name, rows[i].month, rows[i].amount)))
    else
      None
  }

  /**
   * `tipsData?.map(...) || []`: no tips when the query gave none, None when
   * some row's template is null (reading `.title` of it throws).
   */
  function JoinedTips(rows: Option<seq<TipRow>>): (r: Option<seq<ActiveTip>>)
    ensures rows.None? ==> r == Some([])
    ensures rows.Some? ==> (r.Some? <==> forall i :: 0 <= i < |rows.value| ==> rows.value[i].template.Some?)
    ensures rows.Some? && r.Some? ==> |r.value| == |rows.value|
    ensures rows.Some? && r.Some? ==> forall i :: 0 <= i < |rows.value| ==>
      r.value[i] == ActiveTip(rows.value[i].template.value.title, rows.value[i].template.value.description,
                              rows.value[i].isActedUpon)
  {
    match rows
    case None => Some([])
    case Some(ts) =>
      if forall i :: 0 <= i < |ts| ==> ts[i].template.Some? then
        Some(seq(|ts|, i requires 0 <= i < |ts| =>
          ActiveTip(ts[i].template.value.title, ts[i].template.value.description, ts[i].isActedUpon)))
      else
        None
  }

  /**
   * Whether `fetchData` throws once the queries have answered: a failed
   * income or expenses query leaves its data null and `.reduce` of it
   * throws, and so does reading a null join.
   */
  predicate FetchThrows(incomeRows: Option<seq<Dated>>, expenseRows: Option<seq<ExpenseRow>>, tipRows: Option<seq<TipRow>>)
  {
    || incomeRows.None? || expenseRows.None?
    || JoinedExpenses(expenseRows.value).None?
    || JoinedTips(tipRows).None?
  }

  /** The state the page hands to its cards and charts (`setData`). */
  datatype PageData = PageData(
    income: seq<MonthTotal>, expenses: seq<MonthTotal>, categories: seq<Category>,
    totalIncome: int, totalExpenses: int, plannedBudgets: seq<Budget>,
    activeTips: seq<ActiveTip>, spending: int, transactions: seq<Expense>)

  /**
   * The body of `fetchData` once the three queries have answered (None for
   * a query that failed). When it throws, the catch leaves the page data
   * `current` as it was; otherwise the new page data is built from the rows.
   */
  method BuildPageData(current: PageData, incomeRows: Option<seq<Dated>>, expenseRows: Option<seq<ExpenseRow>>,
                       tipRows: Option<seq<TipRow>>)
    returns (d: PageData)
    ensures FetchThrows(incomeRows, expenseRows, tipRows) ==> d == current
    ensures !FetchThrows(incomeRows, expenseRows, tipRows) ==>
      var income, expenses := incomeRows.value, JoinedExpenses(expenseRows.value).value;
      && d.income == Monthly(income) && d.expenses == Monthly(Dates(expenses))
      && CategorySummary(d.categories, expenses)
      && d.totalIncome == Total(income) && d.totalExpenses == Total(Dates(expenses))
      && d.spending == d.totalExpenses
      && d.plannedBudgets == PlannedBudgets(d.categories)
      && d.activeTips == JoinedTips(tipRows).value
      && d.transactions == expenses
  {
    if FetchThrows(incomeRows, expenseRows, tipRows) {
      return current;
    }
    var expenseData := JoinedExpenses(expenseRows.value).value;
    var incomeData := incomeRows.value;
    var categories := CategoryTotals(expenseData);
    var totalIncome := Total(incomeData);
    var totalExpenses := Total(Dates(expenseData));
    var income := ProcessMonthlyData(incomeData);
    var expenses := ProcessMonthlyData(Dates(expenseData));
    d := PageData(
      income := income,
      expenses := expenses,
      categories := categories,
      totalIncome := totalIncome,
      totalExpenses := totalExpenses,
      plannedBudgets := PlannedBudgets(categories),
      activeTips := JoinedTips(tipRows).value,
      spending := totalExpenses,
      transactions := expenseData);
  }

  /** The monthly charts and the totals agree: the monthly entries add up to the totals shown. */
  lemma MonthlyMatchesTotals(incomeRows: seq<Dated>, expenseRows: seq<Expense>)
    ensures SumTotals(Monthly(incomeRows)) == Total(incomeRows)
    ensures SumTotals(Monthly(Dates(expenseRows))) == Total(Dates(expenseRows))
  {
    MonthlySpec(incomeRows);
    MonthlySpec(Dates(expenseRows));
  }

  const PlanTip := "Plan your monthly budget before the month begins"
  const EmergencyFundTip := "Set aside emergency funds first"
  const HighExpenseTip := "Your expenses are high relative to income. Consider reviewing non-essential spending."

  /** The tip naming the category with the highest spending. */
  function HighestCategoryTip(name: string): string {
    "Highest spending category is " + name + ". Consider setting a lower budget for this category."
  }

  /** `spendingRatio > 0.8` with `spendingRatio = totalExpenses / totalIncome`. */
  predicate SpendingIsHigh(totalExpenses: int, totalIncome: int) {
    GreaterThan(Divide(totalExpenses as real, totalIncome as real), 0.8)
  }

  /**
   * The ratio test in whole numbers: more than four fifths of a positive
   * income, below four fifths of a negative one, or any positive spending
   * with no income at all (the ratio is then Infinity).
   */
  lemma SpendingIsHighIff(totalExpenses: int, totalIncome: int)
    ensures SpendingIsHigh(totalExpenses, totalIncome) <==>
      || (totalIncome > 0 && 5 * totalExpenses > 4 * totalIncome)
      || (totalIncome < 0 && 5 * totalExpenses < 4 * totalIncome)
      || (totalIncome == 0 && totalExpenses > 0)
  {
    var e, i := totalExpenses as real, totalIncome as real;
    if totalIncome != 0 {
      RatioAboveFourFifths(Divide(e, i).r, e, i);
    }
  }

  /** For `r * i == e` with `i != 0`: `r > 0.8` exactly when `5e` lies beyond `4i` on the side of `i`'s sign. */
  lemma RatioAboveFourFifths(r: real, e: real, i: real)
    requires i != 0.0 && r * i == e
    ensures i > 0.0 ==> (r > 0.8 <==> 5.0 * e > 4.0 * i)
    ensures i < 0.0 ==> (r > 0.8 <==> 5.0 * e < 4.0 * i)
  {
    assert (r - 0.8) * i == e - 0.8 * i;
  }

  /**
   * The category the tip names: the first one with the largest `spent`,
   * which is what a stable sort by descending `spent` puts in front.
   */
  function HighestSpending(categories: seq<Category>): (k: nat)
    requires |categories| > 0
    ensures k < |categories|
    ensures forall j :: 0 <= j < |categories| ==> categories[j].spent <= categories[k].spent
    ensures forall j :: 0 <= j < k ==> categories[j].spent < categories[k].spent
  {
    if |categories| == 1 then 0
    else
      var rest := 1 + HighestSpending(categories[1..]);
      assert forall j :: 1 <= j < |categories| ==> categories[j] == categories[1..][j - 1];
      if categories[0].spent >= categories[rest].spent then 0 else rest
  }

  /**
   * `generateTips`: the two fixed tips; the high-spending tip exactly when
   * the ratio test holds; a tip naming the highest-spending category when
   * there are categories; then every active tip's description in order.
   */
  method GenerateTips(data: PageData) returns (tips: seq<string>)
    ensures var high := if SpendingIsHigh(data.totalExpenses, data.totalIncome) then 1 else 0;
      var named := if |data.categories| > 0 then 1 else 0;
      && |tips| == 2 + high + named + |data.activeTips|
      && tips[0] == PlanTip && tips[1] == EmergencyFundTip
      && (high == 1 ==> tips[2] == HighExpenseTip)
      && (named == 1 ==> tips[2 + high] == HighestCategoryTip(data.categories[HighestSpending(data.categories)].name))
      && (forall i :: 0 <= i < |data.activeTips| ==> tips[2 + high + named + i] == data.activeTips[i].description)
  {
    var high := SpendingIsHigh(data.totalExpenses, data.totalIncome);
    tips := [];
    tips := tips + [PlanTip];
    tips := tips + [EmergencyFundTip];
    if high {
      tips := tips + [HighExpenseTip];
    }
    if |data.categories| > 0 {
      var highest := data.categories[HighestSpending(data.categories)];
      tips := tips + [HighestCategoryTip(highest.name)];
    }
    tips := AppendDescriptions(tips, data.activeTips);
  }

  /** The loop over the active tips: each one's description, in order, after the tips so far. */
  method AppendDescriptions(before: seq<string>, active: seq<ActiveTip>) returns (tips: seq<string>)
    ensures |tips| == |before| + |active|
    ensures forall j :: 0 <= j < |before| ==> tips[j] == before[j]
    ensures forall j :: 0 <= j < |active| ==> tips[|before| + j] == active[j].description
  {
    tips := before;
    var i := 0;
    while i < |active|
      invariant 0 <= i <= |active|
      invariant |tips| == |before| + i
      invariant tips[..|before|] == before
      invariant forall j :: 0 <= j < i ==> tips[|before| + j] == active[j].description
    {
      tips := tips + [active[i].description];
      i := i + 1;
    }
  }
}
