/** The summary engine: income and expense totals, the net balance, and
    the per-category expense map that feeds the doughnut chart. */
module SummaryEngine {
  import opened Transactions

  /** What the summary cards and the chart display, recomputed from the
      whole (unfiltered) ledger after every change. */
  datatype Summary = Summary(
    income: real,
    expenses: real,
    balance: real,
    byCategory: map<string, real>)

  /** One step of the chart's `reduce`: the record's amount is added to
      its category's entry, which counts as 0 while the category is
      absent. */
  function AddTo(m: map<string, real>, t: Transaction): map<string, real>
  {
    m[t.category := (if t.category in m then m[t.category] else 0.0) + t.amount]
  }

  /** The category map as the chart's `reduce` builds it, from the first
      record to the last, starting from the empty object. */
  function Group(s: Ledger): map<string, real>
    decreases |s|
  {
    if s == [] then map[] else AddTo(Group(s[..|s| - 1]), s[|s| - 1])
  }

  /** The sum of the values of a map, in no particular key order. */
  ghost function MapSum(m: map<string, real>): real
    decreases |m|
  {
    if m == map[] then 0.0
    else
      assert exists k :: k in m by {
        var k :| k in m.Keys;
      }
      var k :| k in m;
      m[k] + MapSum(m - {k})
  }

  /** The categories of the records of a ledger. */
  ghost function Categories(s: Ledger): set<string>
  {
    set t | t in s :: t.category
  }

  /** The total of the records carrying one type label: the source's
      `filter(t => t.type === kind).reduce(..., 0)`. */
  function Total(ledger: Ledger, kind: string): (r: real)
    ensures r == AmountWhere(ledger, IsKind(kind))
  {
    SumOfKept(ledger, IsKind(kind));
    SumAmounts(Keep(ledger, IsKind(kind)))
  }

  /** The chart's data: the expense records grouped by category. */
  function ExpensesByCategory(ledger: Ledger): (m: map<string, real>)
    ensures m.Keys == set t | t in ledger && t.kind == Expense :: t.category
    ensures forall c :: c in m ==> m[c] == AmountWhere(ledger, IsExpenseIn(c))
    ensures MapSum(m) == AmountWhere(ledger, IsKind(Expense))
  {
    var expenseRecords := Keep(ledger, IsKind(Expense));
    var m := Group(expenseRecords);
    ExpenseCategories(ledger);
    GroupSum(expenseRecords);
    SumOfKept(ledger, IsKind(Expense));
    assert forall c :: c in m ==> m[c] == AmountWhere(ledger, IsExpenseIn(c)) by {
      forall c | c in m
        ensures m[c] == AmountWhere(ledger, IsExpenseIn(c))
      {
        GroupValue(expenseRecords, c);
        ExpensesInCategory(ledger, c);
      }
    }
    m
  }

  /** The summary of a ledger. Records whose type label is neither
      "Income" nor "Expense" contribute to nothing. */
  function Summarize(ledger: Ledger): (r: Summary)
    ensures r.income == AmountWhere(ledger, IsKind(Income))
    ensures r.expenses == AmountWhere(ledger, IsKind(Expense))
    ensures r.balance == r.income - r.expenses
    ensures r.byCategory.Keys == set t | t in ledger && t.kind == Expense :: t.category
    ensures forall c :: c in r.byCategory ==> r.byCategory[c] == AmountWhere(ledger, IsExpenseIn(c))
    ensures MapSum(r.byCategory) == r.expenses
  {
    var income := Total(ledger, Income);
    var expenses := Total(ledger, Expense);
    Summary(income, expenses, income - expenses, ExpensesByCategory(ledger))
  }

  /** `initChart` hides the chart when the category map has no key. */
  predicate ChartHidden(byCategory: map<string, real>)
  {
    |byCategory.Keys| == 0
  }

  /** Removing one key takes exactly that key's value out of the sum,
      whichever key the sum happened to take first. */
  lemma {:induction false} MapSumRemove(m: map<string, real>, k: string)
    requires k in m
    ensures MapSum(m) == m[k] + MapSum(m - {k})
    decreases |m|
  {
    var j :| j in m && MapSum(m) == m[j] + MapSum(m - {j});
    if j != k {
      var mj := m - {j};
      var mk := m - {k};
      assert |mj| < |m| by { assert mj.Keys == m.Keys - {j}; }
      assert |mk| < |m| by { assert mk.Keys == m.Keys - {k}; }
      MapSumRemove(mj, k);
      MapSumRemove(mk, j);
      assert mj - {k} == mk - {j};
    }
  }

  /** Setting a key replaces its old contribution (0 if absent) by the
      new value. */
  lemma MapSumUpdate(m: map<string, real>, k: string, v: real)
    ensures MapSum(m[k := v]) == MapSum(m) - (if k in m then m[k] else 0.0) + v
  {
    var m' := m[k := v];
    MapSumRemove(m', k);
    assert m' - {k} == m - {k};
    if k in m {
      MapSumRemove(m, k);
    } else {
      assert m - {k} == m;
    }
  }

  /** The keys of the grouped map are the categories of the grouped records. */
  lemma {:induction false} GroupKeys(s: Ledger)
    ensures Group(s).Keys == Categories(s)
    decreases |s|
  {
    if s != [] {
      var s' := s[..|s| - 1];
      var t := s[|s| - 1];
      GroupKeys(s');
      assert s == s' + [t];
      assert Categories(s) == Categories(s') + {t.category} by {
        forall c | c in Categories(s) ensures c in Categories(s') + {t.category} {
          var u :| u in s && u.category == c;
          if u != t {
            assert u in s';
          }
        }
        forall c | c in Categories(s') ensures c in Categories(s) {
          var u :| u in s' && u.category == c;
          assert u in s;
        }
      }
    }
  }

  /** Each entry of the grouped map is the total of its category's records. */
  lemma {:induction false} GroupValue(s: Ledger, c: string)
    ensures (if c in Group(s) then Group(s)[c] else 0.0) == AmountWhere(s, InCategory(c))
    decreases |s|
  {
    if s == [] {
    } else {
      var s' := s[..|s| - 1];
      var t := s[|s| - 1];
      assert s == s' + [t];
      GroupValue(s', c);
      AmountWhereSnoc(s', t, InCategory(c));
    }
  }

  /** The grouped map's values add up to the total of the grouped records. */
  lemma {:induction false} GroupSum(s: Ledger)
    ensures MapSum(Group(s)) == SumAmounts(s)
    decreases |s|
  {
    if s != [] {
      var s' := s[..|s| - 1];
      var t := s[|s| - 1];
      var m := Group(s');
      GroupSum(s');
      MapSumUpdate(m, t.category, (if t.category in m then m[t.category] else 0.0) + t.amount);
    }
  }

  /** The categories of the kept expense records are the categories of
      the ledger's expense records. */
  lemma ExpenseCategories(ledger: Ledger)
    ensures Group(Keep(ledger, IsKind(Expense))).Keys
         == set t | t in ledger && t.kind == Expense :: t.category
  {
    var e := Keep(ledger, IsKind(Expense));
    GroupKeys(e);
    forall t ensures t in e <==> t in ledger && t.kind == Expense {
      assert multiset(e)[t] == if IsKind(Expense)(t) then multiset(ledger)[t] else 0;
    }
  }

  /** Restricting the kept expenses to one category selects the ledger's
      expenses in that category. */
  lemma {:induction false} ExpensesInCategory(ledger: Ledger, c: string)
    ensures AmountWhere(Keep(ledger, IsKind(Expense)), InCategory(c)) == AmountWhere(ledger, IsExpenseIn(c))
    decreases |ledger|
  {
    if ledger != [] {
      var t := ledger[0];
      var rest := Keep(ledger[1..], IsKind(Expense));
      ExpensesInCategory(ledger[1..], c);
      if t.kind == Expense {
        assert Keep(ledger, IsKind(Expense)) == [t] + rest;
        assert ([t] + rest)[1..] == rest;
      }
    }
  }

  /** The chart is hidden exactly when the ledger holds no expense. */
  lemma ChartHiddenIffNoExpense(ledger: Ledger)
    ensures ChartHidden(Summarize(ledger).byCategory) <==> forall t :: t in ledger ==> t.kind != Expense
  {
    var m := Summarize(ledger).byCategory;
    if exists t :: t in ledger && t.kind == Expense {
      var t :| t in ledger && t.kind == Expense;
      assert t.category in m.Keys;
    }
  }

  /** The empty ledger: every figure is zero and the chart is hidden. */
  lemma EmptyLedger()
    ensures Summarize([]) == Summary(0.0, 0.0, 0.0, map[])
    ensures ChartHidden(Summarize([]).byCategory)
  {
  }

  /** Appending a record moves the totals by its own amount, under its
      own type label only, and touches only its own category's entry. */
  lemma SummaryAfterAppend(ledger: Ledger, t: Transaction)
    ensures Summarize(ledger + [t]).income
         == Summarize(ledger).income + (if t.kind == Income then t.amount else 0.0)
    ensures Summarize(ledger + [t]).expenses
         == Summarize(ledger).expenses + (if t.kind == Expense then t.amount else 0.0)
    ensures t.kind != Expense ==> Summarize(ledger + [t]).byCategory == Summarize(ledger).byCategory
    ensures t.kind == Expense ==> Summarize(ledger + [t]).byCategory == AddTo(Summarize(ledger).byCategory, t)
  {
    AmountWhereSnoc(ledger, t, IsKind(Income));
    AmountWhereSnoc(ledger, t, IsKind(Expense));
    ExpensesAfterAppend(ledger, t);
  }

  lemma ExpensesAfterAppend(ledger: Ledger, t: Transaction)
    ensures t.kind != Expense ==> ExpensesByCategory(ledger + [t]) == ExpensesByCategory(ledger)
    ensures t.kind == Expense ==> ExpensesByCategory(ledger + [t]) == AddTo(ExpensesByCategory(ledger), t)
  {
    var e := Keep(ledger, IsKind(Expense));
    KeepAppend(ledger, [t], IsKind(Expense));
    assert [t][1..] == [];
    if t.kind != Expense {
      assert Keep([t], IsKind(Expense)) == [];
      assert Keep(ledger + [t], IsKind(Expense)) == e;
    } else {
      assert Keep([t], IsKind(Expense)) == [t];
      assert Keep(ledger + [t], IsKind(Expense)) == e + [t];
      GroupSnoc(e, t);
    }
  }

  /** One more record adds its amount to its own category's entry. */
  lemma GroupSnoc(s: Ledger, t: Transaction)
    ensures Group(s + [t]) == AddTo(Group(s), t)
  {
  }

  /** Splicing one record out moves the totals back by its own amount,
      under its own type label only. */
  lemma SummaryAfterSplice(ledger: Ledger, i: nat)
    requires i < |ledger|
    ensures Summarize(ledger[..i] + ledger[i + 1..]).income
         == Summarize(ledger).income - (if ledger[i].kind == Income then ledger[i].amount else 0.0)
    ensures Summarize(ledger[..i] + ledger[i + 1..]).expenses
         == Summarize(ledger).expenses - (if ledger[i].kind == Expense then ledger[i].amount else 0.0)
  {
    var a := ledger[..i];
    var b := ledger[i + 1..];
    var t := ledger[i];
    assert ledger == a + ([t] + b);
    AmountWhereAppend(a, [t] + b, IsKind(Income));
    AmountWhereAppend([t], b, IsKind(Income));
    AmountWhereAppend(a, b, IsKind(Income));
    AmountWhereAppend(a, [t] + b, IsKind(Expense));
    AmountWhereAppend([t], b, IsKind(Expense));
    AmountWhereAppend(a, b, IsKind(Expense));
    assert [t][1..] == [];
  }

  /** The worked example: a salary of 3000 then a rent of 1200. */
  lemma SalaryAndRent()
    ensures var ledger := [
        Transaction(1, "2024-01-01", "Salary", "Wages", 3000.0, Income),
        Transaction(2, "2024-01-02", "Rent", "Housing", 1200.0, Expense)];
      Summarize(ledger) == Summary(3000.0, 1200.0, 1800.0, map["Housing" := 1200.0])
  {
    var salary := Transaction(1, "2024-01-01", "Salary", "Wages", 3000.0, Income);
    var rent := Transaction(2, "2024-01-02", "Rent", "Housing", 1200.0, Expense);
    var ledger := [salary, rent];
    assert ledger[1..] == [rent];
    assert Keep(ledger, IsKind(Income)) == [salary];
    assert Keep(ledger, IsKind(Expense)) == [rent];
    assert [salary][..0] == [] && [rent][..0] == [];
    assert Group([rent]) == map["Housing" := 1200.0];
  }
}
