/**
 * The body of `fetchDashboardData`: from one user's transactions, already ordered newest first, and the
 * bounds of the current month, compute the dashboard summary.
 */
module Aggregation {
  import opened Optional
  import opened Dictionary
  import opened Records
  import opened CategoryRanking
  import AuthSlice

  /** How many records `recentTransactions` keeps (`slice(0, 10)`). */
  const RecentCount := 10
  /** The expense-map key of a record whose category is empty or missing. */
  const OtherCategory := "Outros"
  const NotAuthenticated := "User not authenticated"

  /**
   * The bounds `startOfMonth` and `endOfMonth`, in milliseconds. The source derives them from the clock:
   * `endOfMonth` is midnight at the START of the month's last day, and both bounds are inclusive.
   */
  datatype Window = Window(startOfMonth: int, endOfMonth: int)

  predicate InWindow(w: Window, t: Transaction)
  {
    w.startOfMonth <= t.createdAt <= w.endOfMonth
  }

  function InWindowOf(w: Window): Transaction -> bool
  {
    t => InWindow(w, t)
  }

  /** `monthlyTransactions`: the records inside the window, in their original order. */
  function Monthly(ts: seq<Transaction>, w: Window): seq<Transaction>
  {
    Filter(ts, InWindowOf(w))
  }

  /** `categoria || 'Outros'`. */
  function ExpenseCategory(t: Transaction): string
  {
    OrElse(t.category, OtherCategory)
  }

  /** `categoryExpenses` after the all-time `forEach` over `ts`. */
  function CategoryExpenses(ts: seq<Transaction>): map<string, int>
  {
    if ts == [] then map[]
    else
      var m := CategoryExpenses(ts[..|ts| - 1]);
      var t := ts[|ts| - 1];
      if IsIncome(t) then m else m[ExpenseCategory(t) := Lookup(m, ExpenseCategory(t)) + Amount(t)]
  }

  function FiledUnder(k: string): Transaction -> bool
  {
    t => ExpenseCategory(t) == k
  }

  /** The expense records filed under key `k`. */
  function ExpensesUnder(ts: seq<Transaction>, k: string): seq<Transaction>
  {
    Filter(Expenses(ts), FiledUnder(k))
  }

  datatype DashboardData = DashboardData(
    totalBalance: int,
    monthlyIncome: int,
    monthlyExpenses: int,
    recentTransactions: seq<Transaction>,
    categoryExpenses: map<string, int>,
    incomeTransactionCount: nat,
    expenseTransactionCount: nat,
    topIncomeCategories: seq<string>,
    topExpenseCategories: seq<string>)

  function Min(a: int, b: int): int
  {
    if a < b then a else b
  }

  /** The summary the thunk returns for the records `all` and the window `w`. */
  function Summarize(all: seq<Transaction>, w: Window): DashboardData
  {
    var monthly := Monthly(all, w);
    DashboardData(
      Total(Incomes(all)) - Total(Expenses(all)),
      Total(Incomes(monthly)),
      Total(Expenses(monthly)),
      all[..Min(RecentCount, |all|)],
      CategoryExpenses(all),
      |Incomes(monthly)|,
      |Expenses(monthly)|,
      TopCategories(Incomes(all)),
      TopCategories(Outflows(all)))
  }

  lemma TotalSnoc(ts: seq<Transaction>, t: Transaction)
    ensures Total(ts + [t]) == Total(ts) + Amount(t)
  {
    assert (ts + [t])[..|ts|] == ts;
  }

  /** The three values the all-time loop carries. */
  datatype Running = Running(income: int, expenses: int, categories: map<string, int>)

  /** The running values after the all-time loop has seen `ts`, one record at a time. */
  function AllTime(ts: seq<Transaction>): Running
  {
    if ts == [] then Running(0, 0, map[])
    else
      var r := AllTime(ts[..|ts| - 1]);
      var t := ts[|ts| - 1];
      if IsIncome(t) then r.(income := r.income + Amount(t))
      else r.(expenses := r.expenses + Amount(t),
              categories := r.categories[ExpenseCategory(t) := Lookup(r.categories, ExpenseCategory(t)) + Amount(t)])
  }

  /** The loop's running values are the income total, the expense total and `CategoryExpenses`. */
  lemma {:induction false} AllTimeIsTotals(ts: seq<Transaction>)
    ensures AllTime(ts) == Running(Total(Incomes(ts)), Total(Expenses(ts)), CategoryExpenses(ts))
  {
    if ts != [] {
      AllTimeIsTotals(ts[..|ts| - 1]);
      KindLast(ts);
    }
  }

  /** The first `forEach`: all-time income and expense totals and the per-category expense map. */
  method AllTimeTotals(all: seq<Transaction>) returns (totalIncome: int, totalExpenses: int, categoryExpenses: map<string, int>)
    ensures totalIncome == Total(Incomes(all)) && totalExpenses == Total(Expenses(all))
    ensures categoryExpenses == CategoryExpenses(all)
  {
    totalIncome, totalExpenses := 0, 0;
    categoryExpenses := map[];
    var i := 0;
    while i < |all|
      invariant 0 <= i <= |all|
      invariant Running(totalIncome, totalExpenses, categoryExpenses) == AllTime(all[..i])
    {
      var t := all[i];
      assert all[..i + 1][..i] == all[..i];
      if IsIncome(t) {
        totalIncome := totalIncome + Amount(t);
      } else {
        totalExpenses := totalExpenses + Amount(t);
        var category := ExpenseCategory(t);
        categoryExpenses := categoryExpenses[category := Lookup(categoryExpenses, category) + Amount(t)];
      }
      i := i + 1;
    }
    assert all[..|all|] == all;
    AllTimeIsTotals(all);
  }

  /** The four values the monthly loop carries. */
  datatype MonthRunning = MonthRunning(income: int, expenses: int, incomeCount: nat, expenseCount: nat)

  /** The running values after the monthly loop has seen `ts`, one record at a time. */
  function ThisMonth(ts: seq<Transaction>): MonthRunning
  {
    if ts == [] then MonthRunning(0, 0, 0, 0)
    else
      var r := ThisMonth(ts[..|ts| - 1]);
      var t := ts[|ts| - 1];
      if IsIncome(t) then r.(income := r.income + Amount(t), incomeCount := r.incomeCount + 1)
      else r.(expenses := r.expenses + Amount(t), expenseCount := r.expenseCount + 1)
  }

  /** The monthly loop's running values are the totals and the numbers of the income and expense records. */
  lemma {:induction false} ThisMonthIsTotals(ts: seq<Transaction>)
    ensures ThisMonth(ts)
         == MonthRunning(Total(Incomes(ts)), Total(Expenses(ts)), |Incomes(ts)|, |Expenses(ts)|)
  {
    if ts != [] {
      ThisMonthIsTotals(ts[..|ts| - 1]);
      KindLast(ts);
    }
  }

  /** The second `forEach`, over the records of the window: totals and counts per kind. */
  method MonthlyTotals(monthly: seq<Transaction>)
    returns (monthlyIncome: int, monthlyExpenses: int, incomeCount: nat, expenseCount: nat)
    ensures monthlyIncome == Total(Incomes(monthly)) && incomeCount == |Incomes(monthly)|
    ensures monthlyExpenses == Total(Expenses(monthly)) && expenseCount == |Expenses(monthly)|
  {
    monthlyIncome, monthlyExpenses := 0, 0;
    incomeCount, expenseCount := 0, 0;
    var j := 0;
    while j < |monthly|
      invariant 0 <= j <= |monthly|
      invariant MonthRunning(monthlyIncome, monthlyExpenses, incomeCount, expenseCount) == ThisMonth(monthly[..j])
    {
      var t := monthly[j];
      assert monthly[..j + 1][..j] == monthly[..j];
      if IsIncome(t) {
        monthlyIncome := monthlyIncome + Amount(t);
        incomeCount := incomeCount + 1;
      } else {
        monthlyExpenses := monthlyExpenses + Amount(t);
        expenseCount := expenseCount + 1;
      }
      j := j + 1;
    }
    assert monthly[..|monthly|] == monthly;
    ThisMonthIsTotals(monthly);
  }

  /** The aggregation as the source runs it: the window filter, the two loops and the two rankings. */
  method ComputeDashboard(all: seq<Transaction>, w: Window) returns (d: DashboardData)
    ensures d == Summarize(all, w)
    ensures |d.recentTransactions| == Min(RecentCount, |all|) && d.recentTransactions <= all
  {
    var monthly := Monthly(all, w);
    var totalIncome, totalExpenses, categoryExpenses := AllTimeTotals(all);
    var monthlyIncome, monthlyExpenses, incomeCount, expenseCount := MonthlyTotals(monthly);
    var topIncome := GetTopCategories(Incomes(all));
    var topExpense := GetTopCategories(Outflows(all));
    d := DashboardData(
      totalIncome - totalExpenses,
      monthlyIncome,
      monthlyExpenses,
      all[..Min(RecentCount, |all|)],
      categoryExpenses,
      incomeCount,
      expenseCount,
      topIncome,
      topExpense);
  }

  /**
   * The thunk: with no signed-in user it fails before fetching; a failed query fails with the query's
   * error; otherwise it returns the summary of the fetched rows.
   */
  method FetchDashboardData(auth: AuthSlice.AuthState, fetched: Result<seq<Transaction>>, w: Window)
    returns (r: Result<DashboardData>)
    ensures auth.user.None? ==> r == Err(Some(NotAuthenticated))
    ensures auth.user.Some? && fetched.Err? ==> r == Err(fetched.message)
    ensures auth.user.Some? && fetched.Ok? ==> r == Ok(Summarize(fetched.value, w))
  {
    if auth.user.None? {
      return Err(Some(NotAuthenticated));
    }
    match fetched
    case Err(m) =>
      r := Err(m);
    case Ok(rows) =>
      var d := ComputeDashboard(rows, w);
      r := Ok(d);
  }

  /** A record is in the window's list exactly when it is one of the records and lies within both bounds. */
  lemma MonthlyMembers(all: seq<Transaction>, w: Window, t: Transaction)
    ensures t in Monthly(all, w) <==> t in all && InWindow(w, t)
  {
    FilterMembers(all, InWindowOf(w), t);
  }

  /** The balance is the signed sum of all records: incomes added, every other kind subtracted. */
  lemma BalanceIsNet(all: seq<Transaction>, w: Window)
    ensures Summarize(all, w).totalBalance == Net(all)
  {
    IncomeMinusExpensesIsNet(all);
  }

  /** The values of `categoryExpenses` add up to the all-time expense total. */
  lemma {:induction false} CategoryExpensesSum(ts: seq<Transaction>)
    ensures ValueSum(CategoryExpenses(ts)) == Total(Expenses(ts))
  {
    if ts != [] {
      var init := ts[..|ts| - 1];
      var t := ts[|ts| - 1];
      CategoryExpensesSum(init);
      if IsExpense(t) {
        ValueSumAdd(CategoryExpenses(init), ExpenseCategory(t), Amount(t));
        TotalSnoc(Expenses(init), t);
      }
    }
  }

  /**
   * A key of `categoryExpenses` is exactly the label (or 'Outros') of some expense record, and its value is
   * the total of the expense records filed under it.
   */
  lemma {:induction false} CategoryExpensesPerKey(ts: seq<Transaction>, k: string)
    ensures k in CategoryExpenses(ts) <==> ExpensesUnder(ts, k) != []
    ensures Lookup(CategoryExpenses(ts), k) == Total(ExpensesUnder(ts, k))
  {
    if ts != [] {
      var init, t := ts[..|ts| - 1], ts[|ts| - 1];
      CategoryExpensesPerKey(init, k);
      ExpensesUnderLast(ts, k);
      if IsExpense(t) && ExpenseCategory(t) == k {
        TotalSnoc(ExpensesUnder(init, k), t);
      }
    }
  }

  /** The last record joins the records filed under `k` exactly when it is an expense filed under `k`. */
  lemma ExpensesUnderLast(ts: seq<Transaction>, k: string)
    requires ts != []
    ensures var init, t := ts[..|ts| - 1], ts[|ts| - 1];
      ExpensesUnder(ts, k)
      == if IsExpense(t) && ExpenseCategory(t) == k then ExpensesUnder(init, k) + [t] else ExpensesUnder(init, k)
  {
    var init, t := ts[..|ts| - 1], ts[|ts| - 1];
    if IsExpense(t) {
      assert Expenses(ts)[..|Expenses(ts)| - 1] == Expenses(init);
    }
  }

  /** `incomeTransactionCount + expenseTransactionCount` is the number of records in the window. */
  lemma MonthlyCountsPartition(all: seq<Transaction>, w: Window)
    ensures Summarize(all, w).incomeTransactionCount + Summarize(all, w).expenseTransactionCount == |Monthly(all, w)|
    ensures Summarize(all, w).monthlyIncome + Summarize(all, w).monthlyExpenses == Total(Monthly(all, w))
  {
    KindsPartition(Monthly(all, w));
  }

  lemma FilterInsert(before: seq<Transaction>, t: Transaction, after: seq<Transaction>, p: Transaction -> bool)
    ensures Filter(before + [t] + after, p) == Filter(before, p) + (if p(t) then [t] else []) + Filter(after, p)
    ensures Filter(before + after, p) == Filter(before, p) + Filter(after, p)
  {
    FilterConcat(before + [t], after, p);
    FilterConcat(before, [t], p);
    FilterConcat(before, after, p);
    assert [t][..0] == [];
  }

  /** How inserting `t` anywhere changes the count and the total of the records kept by `p`. */
  lemma FilterInsertTotals(before: seq<Transaction>, t: Transaction, after: seq<Transaction>, p: Transaction -> bool)
    ensures |Filter(before + [t] + after, p)| == |Filter(before + after, p)| + (if p(t) then 1 else 0)
    ensures Total(Filter(before + [t] + after, p)) == Total(Filter(before + after, p)) + (if p(t) then Amount(t) else 0)
  {
    FilterInsert(before, t, after, p);
    var b, a := Filter(before, p), Filter(after, p);
    if p(t) {
      TotalConcat(b + [t], a);
      TotalSnoc(b, t);
      TotalConcat(b, a);
    } else {
      assert b + [] + a == b + a;
    }
  }

  /**
   * Adding one record anywhere in the list always moves the balance by its signed amount, and the sum of
   * `categoryExpenses` by its amount when it is an expense, wherever its timestamp lies.
   */
  lemma RecordEffectAllTime(before: seq<Transaction>, t: Transaction, after: seq<Transaction>, w: Window)
    ensures var d, d' := Summarize(before + after, w), Summarize(before + [t] + after, w);
      && d'.totalBalance == d.totalBalance + (if IsIncome(t) then Amount(t) else -Amount(t))
      && ValueSum(d'.categoryExpenses) == ValueSum(d.categoryExpenses) + (if IsExpense(t) then Amount(t) else 0)
  {
    var x, y := before + after, before + [t] + after;
    FilterInsertTotals(before, t, after, IsIncome);
    FilterInsertTotals(before, t, after, IsExpense);
    CategoryExpensesSum(x);
    CategoryExpensesSum(y);
  }

  /**
   * Adding one record changes the monthly fields only when its timestamp lies in the window (both bounds
   * included), and then only the total and the count of its own kind.
   */
  lemma RecordEffectMonthly(before: seq<Transaction>, t: Transaction, after: seq<Transaction>, w: Window)
    ensures var m, m' := Monthly(before + after, w), Monthly(before + [t] + after, w);
      && Total(Incomes(m')) == Total(Incomes(m)) + (if InWindow(w, t) && IsIncome(t) then Amount(t) else 0)
      && Total(Expenses(m')) == Total(Expenses(m)) + (if InWindow(w, t) && IsExpense(t) then Amount(t) else 0)
      && |Incomes(m')| == |Incomes(m)| + (if InWindow(w, t) && IsIncome(t) then 1 else 0)
      && |Expenses(m')| == |Expenses(m)| + (if InWindow(w, t) && IsExpense(t) then 1 else 0)
  {
    var x, y := before + after, before + [t] + after;
    FilterInsert(before, t, after, InWindowOf(w));
    var mb, ma := Monthly(before, w), Monthly(after, w);
    if InWindow(w, t) {
      assert Monthly(y, w) == mb + [t] + ma;
      FilterInsertTotals(mb, t, ma, IsIncome);
      FilterInsertTotals(mb, t, ma, IsExpense);
    } else {
      assert Monthly(y, w) == Monthly(x, w);
    }
  }

  /**
   * An expense record with an empty or missing category is counted under 'Outros' in `categoryExpenses`
   * but leaves both rankings unchanged.
   */
  lemma UncategorisedExpense(ts: seq<Transaction>, t: Transaction, w: Window)
    requires IsExpense(t) && !Truthy(t.category)
    ensures Lookup(Summarize(ts + [t], w).categoryExpenses, OtherCategory)
         == Lookup(Summarize(ts, w).categoryExpenses, OtherCategory) + Amount(t)
    ensures Summarize(ts + [t], w).topExpenseCategories == Summarize(ts, w).topExpenseCategories
    ensures Summarize(ts + [t], w).topIncomeCategories == Summarize(ts, w).topIncomeCategories
  {
    var y := ts + [t];
    assert y[..|ts|] == ts;
    assert Incomes(y) == Incomes(ts);
    if IsOutflow(t) {
      assert Outflows(y) == Outflows(ts) + [t];
      assert (Outflows(ts) + [t])[..|Outflows(ts)|] == Outflows(ts);
      assert TallyOf(Outflows(y)) == TallyOf(Outflows(ts));
    } else {
      assert Outflows(y) == Outflows(ts);
    }
  }

  // A salary this month without a category, a 'Food' expense this month and a 'Food' expense last month.
  const ExampleWindow := Window(1000, 2000)
  const Salary := Transaction("1", 1500, "Salario", None, Entrada, Some(1000), "u")
  const Market := Transaction("2", 1200, "Mercado", Some("Food"), Saida, Some(300), "u")
  const Fair := Transaction("3", 500, "Feira", Some("Food"), Saida, Some(200), "u")

  lemma FilterThree(a: Transaction, b: Transaction, c: Transaction, p: Transaction -> bool)
    ensures Filter([a, b], p) == (if p(a) then [a] else []) + (if p(b) then [b] else [])
    ensures Filter([a, b, c], p) == Filter([a, b], p) + (if p(c) then [c] else [])
  {
    var s1 := [a];
    var s2 := s1 + [b];
    var s3 := s2 + [c];
    assert s1[..0] == [] && s2[..1] == s1 && s3[..2] == s2;
    assert Filter(s1, p) == if p(a) then [a] else [];
    assert s2 == [a, b] && s3 == [a, b, c];
  }

  lemma ExampleMonthly()
    ensures Monthly([Salary, Market, Fair], ExampleWindow) == [Salary, Market]
    ensures Incomes([Salary, Market]) == [Salary] && Expenses([Salary, Market]) == [Market]
  {
    FilterThree(Salary, Market, Fair, InWindowOf(ExampleWindow));
    FilterThree(Salary, Market, Fair, IsIncome);
    FilterThree(Salary, Market, Fair, IsExpense);
  }

  lemma ExampleKinds()
    ensures Incomes([Salary, Market, Fair]) == [Salary]
    ensures Expenses([Salary, Market, Fair]) == [Market, Fair] && Outflows([Salary, Market, Fair]) == [Market, Fair]
  {
    FilterThree(Salary, Market, Fair, IsIncome);
    FilterThree(Salary, Market, Fair, IsExpense);
    FilterThree(Salary, Market, Fair, IsOutflow);
  }

  /**
   * For the three records: the balance is 500, the month holds one income of 1000 and one expense of 300,
   * and all three records are recent.
   */
  lemma ExampleTotals()
    ensures var d := Summarize([Salary, Market, Fair], ExampleWindow);
      && d.totalBalance == 500
      && d.monthlyIncome == 1000 && d.monthlyExpenses == 300
      && d.incomeTransactionCount == 1 && d.expenseTransactionCount == 1
      && d.recentTransactions == [Salary, Market, Fair]
  {
    ExampleMonthly();
    ExampleKinds();
    assert [Market, Fair][..1] == [Market] && [Market][..0] == [] && [Salary][..0] == [];
    assert Total([Salary]) == 1000 && Total([Market]) == 300 && Total([Market, Fair]) == 500;
  }

  /**
   * For the three records: 'Food' totals 500 in the expense map and is the only ranked expense category,
   * and the uncategorised income is not ranked at all.
   */
  lemma ExampleCategories()
    ensures var d := Summarize([Salary, Market, Fair], ExampleWindow);
      && d.categoryExpenses == map["Food" := 500]
      && d.topExpenseCategories == ["Food"]
      && d.topIncomeCategories == []
  {
    ExampleKinds();
    var all := [Salary, Market, Fair];
    assert all[..2] == [Salary, Market] && all[..2][..1] == [Salary] && [Salary][..0] == [];
    assert CategoryExpenses([Salary]) == map[];
    assert CategoryExpenses([Salary, Market]) == map["Food" := 300];
    assert [Market, Fair][..1] == [Market] && [Market][..0] == [];
    assert TallyOf([Market]) == Tally(["Food"], map["Food" := 300]);
    assert TallyOf([Market, Fair]) == Tally(["Food"], map["Food" := 500]);
    assert Entries(Tally(["Food"], map["Food" := 500])) == [Entry("Food", 500)];
    assert TallyOf([Salary]) == Tally([], map[]);
    assert Entries(Tally([], map[])) == [];
  }
}
