/**
 * The read-only views over one user's transactions: dashboard totals, the
 * expense-by-category chart, the income and expense histories, the five most
 * recent transactions and the CSV export rows. Every function takes the
 * user's transactions as a sequence; the store supplies them.
 */
module Reports {
  import opened Common
  import opened Models

  // ---------------------------------------------------------------------------
  // Totals by kind
  // ---------------------------------------------------------------------------

  /** What `t` adds to the total of kind `k`. */
  function AmountOf(t: Transaction, k: TxType): int {
    if t.kind == k then t.amount else 0
  }

  /** Sum of the amounts of the transactions of kind `k`, 0 when there are none. */
  function TotalOf(s: seq<Transaction>, k: TxType): int {
    if s == [] then 0 else TotalOf(s[..|s| - 1], k) + AmountOf(s[|s| - 1], k)
  }

  lemma {:induction false} TotalOfAppend(a: seq<Transaction>, b: seq<Transaction>, k: TxType)
    ensures TotalOf(a + b, k) == TotalOf(a, k) + TotalOf(b, k)
  {
    if b == [] {
      assert a + b == a;
    } else {
      assert (a + b)[..|a + b| - 1] == a + b[..|b| - 1];
      TotalOfAppend(a, b[..|b| - 1], k);
    }
  }

  /** Taking out the transaction at `i` takes its amount out of the total. */
  lemma TotalOfRemove(b: seq<Transaction>, i: nat, k: TxType)
    requires i < |b|
    ensures TotalOf(b, k) == TotalOf(b[..i] + b[i + 1..], k) + AmountOf(b[i], k)
  {
    assert TotalOf([b[i]], k) == AmountOf(b[i], k) by {
      assert [b[i]][..0] == [];
    }
    assert b == b[..i] + [b[i]] + b[i + 1..];
    TotalOfAppend(b[..i], [b[i]], k);
    TotalOfAppend(b[..i] + [b[i]], b[i + 1..], k);
    TotalOfAppend(b[..i], b[i + 1..], k);
  }

  /** Removing the same element from two permutations of each other leaves permutations. */
  lemma PermutationRemove(a: seq<Transaction>, x: Transaction, b: seq<Transaction>, i: nat)
    requires multiset(a + [x]) == multiset(b) && i < |b| && b[i] == x
    ensures multiset(a) == multiset(b[..i] + b[i + 1..])
  {
    assert b == b[..i] + [x] + b[i + 1..];
    assert multiset(b) == multiset(b[..i]) + multiset{x} + multiset(b[i + 1..]);
    assert multiset(a + [x]) == multiset(a) + multiset{x};
    assert multiset(b[..i] + b[i + 1..]) == multiset(b[..i]) + multiset(b[i + 1..]);
    assert multiset(a) == multiset(a + [x]) - multiset{x};
  }

  /** A total does not depend on the order the transactions are read in. */
  lemma {:induction false} TotalOfPermutation(a: seq<Transaction>, b: seq<Transaction>, k: TxType)
    requires multiset(a) == multiset(b)
    ensures TotalOf(a, k) == TotalOf(b, k)
  {
    if a == [] {
      assert |b| == |multiset(b)| == 0;
    } else {
      var x := a[|a| - 1];
      var a' := a[..|a| - 1];
      assert a == a' + [x];
      assert x in multiset(b);
      var i :| 0 <= i < |b| && b[i] == x;
      PermutationRemove(a', x, b, i);
      TotalOfPermutation(a', b[..i] + b[i + 1..], k);
      TotalOfRemove(b, i, k);
    }
  }

  /** With no transaction of kind `k`, the total of that kind is 0. */
  lemma {:induction false} TotalOfAbsent(s: seq<Transaction>, k: TxType)
    requires forall i :: 0 <= i < |s| ==> s[i].kind != k
    ensures TotalOf(s, k) == 0
  {
    if s != [] {
      TotalOfAbsent(s[..|s| - 1], k);
    }
  }

  /** Income counted positive, expense negative: an independent definition of the balance. */
  function Net(s: seq<Transaction>): int {
    if s == [] then 0
    else Net(s[..|s| - 1]) + (match s[|s| - 1].kind case Income => s[|s| - 1].amount case Expense => -s[|s| - 1].amount)
  }

  datatype Summary = Summary(totalIncome: int, totalExpense: int, balance: int)

  /** The dashboard totals. */
  function Summarize(s: seq<Transaction>): (r: Summary)
    ensures r.totalIncome == TotalOf(s, Income) && r.totalExpense == TotalOf(s, Expense)
    ensures r.balance == r.totalIncome - r.totalExpense
  {
    var income := TotalOf(s, Income);
    var expense := TotalOf(s, Expense);
    Summary(income, expense, income - expense)
  }

  /** The balance is the net of all transactions, income in and expense out. */
  lemma {:induction false} BalanceIsNet(s: seq<Transaction>)
    ensures Summarize(s).balance == Net(s)
  {
    if s != [] {
      BalanceIsNet(s[..|s| - 1]);
    }
  }

  /** One income of 100 and expenses of 30 and 20 give income 100, expense 50, balance 50. */
  lemma SummaryExample(owner: UserId, d: Date)
    ensures Summarize([
      Transaction(owner, None, "Salary", 10000, Income, d, 1),
      Transaction(owner, None, "Food", 3000, Expense, d, 2),
      Transaction(owner, None, "Rent", 2000, Expense, d, 3)]) == Summary(10000, 5000, 5000)
  {
    var t1 := Transaction(owner, None, "Salary", 10000, Income, d, 1);
    var t2 := Transaction(owner, None, "Food", 3000, Expense, d, 2);
    var t3 := Transaction(owner, None, "Rent", 2000, Expense, d, 3);
    var s, b, a := [t1, t2, t3], [t1, t2], [t1];
    assert a[..0] == [] && b[..1] == a && s[..2] == b;
    assert TotalOf(a, Income) == TotalOf(a[..0], Income) + AmountOf(t1, Income);
    assert TotalOf(a, Expense) == TotalOf(a[..0], Expense) + AmountOf(t1, Expense);
    assert TotalOf(a, Income) == 10000 && TotalOf(a, Expense) == 0;
    assert TotalOf(b, Income) == 10000 && TotalOf(b, Expense) == 3000;
  }

  // ---------------------------------------------------------------------------
  // Expenses by category
  // ---------------------------------------------------------------------------

  /** The name the chart groups by: the category's name, or None for an uncategorised transaction. */
  function CategoryName(cats: map<CategoryId, Category>, t: Transaction): Option<string> {
    if t.category.Some? && t.category.value in cats then Some(cats[t.category.value].name) else None
  }

  /** One bar of the chart: a category name (None for uncategorised) and its expense total. */
  datatype Group = Group(key: Option<string>, total: int)

  predicate HasKey(gs: seq<Group>, key: Option<string>) {
    exists i :: 0 <= i < |gs| && gs[i].key == key
  }

  predicate KeysDistinct(gs: seq<Group>) {
    forall i, j :: 0 <= i < j < |gs| ==> gs[i].key != gs[j].key
  }

  function Sum(xs: seq<int>): int {
    if xs == [] then 0 else xs[0] + Sum(xs[1..])
  }

  lemma {:induction false} SumAppend(xs: seq<int>, ys: seq<int>)
    ensures Sum(xs + ys) == Sum(xs) + Sum(ys)
  {
    if xs == [] {
      assert xs + ys == ys;
    } else {
      assert (xs + ys)[1..] == xs[1..] + ys;
      SumAppend(xs[1..], ys);
    }
  }

  lemma {:induction false} SumUpdate(xs: seq<int>, j: nat, v: int)
    requires j < |xs|
    ensures Sum(xs[j := v]) == Sum(xs) - xs[j] + v
  {
    if j > 0 {
      assert xs[j := v][1..] == xs[1..][j - 1 := v];
      SumUpdate(xs[1..], j - 1, v);
    }
  }

  function Totals(gs: seq<Group>): (r: seq<int>)
    ensures |r| == |gs| && forall i :: 0 <= i < |gs| ==> r[i] == gs[i].total
  {
    seq(|gs|, i requires 0 <= i < |gs| => gs[i].total)
  }

  /** Position of the group of `key`, or |gs| when there is none. */
  function KeyIndex(gs: seq<Group>, key: Option<string>): (j: nat)
    ensures j <= |gs|
    ensures j < |gs| ==> gs[j].key == key
    ensures forall i :: 0 <= i < j ==> gs[i].key != key
    ensures j < |gs| <==> HasKey(gs, key)
  {
    if gs == [] then 0
    else if gs[0].key == key then 0
    else 1 + KeyIndex(gs[1..], key)
  }

  /** Adds `amount` to the group of `key`, opening a new group at the end when there is none. */
  function AddToGroup(gs: seq<Group>, key: Option<string>, amount: int): (r: seq<Group>)
    requires KeysDistinct(gs)
    ensures KeysDistinct(r)
    ensures |r| == if HasKey(gs, key) then |gs| else |gs| + 1
    ensures forall i :: 0 <= i < |gs| ==> r[i].key == gs[i].key
    ensures !HasKey(gs, key) ==> r[|gs|].key == key
    ensures forall i :: 0 <= i < |r| ==>
      r[i].total == (if i < |gs| then gs[i].total else 0) + (if r[i].key == key then amount else 0)
    ensures Sum(Totals(r)) == Sum(Totals(gs)) + amount
  {
    var j := KeyIndex(gs, key);
    if j < |gs| then
      var r := gs[j := Group(key, gs[j].total + amount)];
      assert Totals(r) == Totals(gs)[j := gs[j].total + amount];
      SumUpdate(Totals(gs), j, gs[j].total + amount);
      r
    else
      var r := gs + [Group(key, amount)];
      assert Totals(r) == Totals(gs) + [amount];
      SumAppend(Totals(gs), [amount]);
      assert Sum([amount]) == amount by {
        assert [amount][1..] == [];
      }
      r
  }

  /** Sum of the expenses whose category name is `key`. */
  function KeyTotal(cats: map<CategoryId, Category>, s: seq<Transaction>, key: Option<string>): int {
    if s == [] then 0
    else
      var t := s[|s| - 1];
      KeyTotal(cats, s[..|s| - 1], key) + (if t.kind == Expense && CategoryName(cats, t) == key then t.amount else 0)
  }

  /** Some expense in `s` has category name `key`. */
  predicate HasExpenseWith(cats: map<CategoryId, Category>, s: seq<Transaction>, key: Option<string>) {
    exists i :: 0 <= i < |s| && s[i].kind == Expense && CategoryName(cats, s[i]) == key
  }

  /** The expenses grouped by category name, groups in order of first appearance. */
  function ExpenseGroups(cats: map<CategoryId, Category>, s: seq<Transaction>): (gs: seq<Group>)
    ensures KeysDistinct(gs)
  {
    if s == [] then []
    else
      var gs := ExpenseGroups(cats, s[..|s| - 1]);
      var t := s[|s| - 1];
      if t.kind == Expense then AddToGroup(gs, CategoryName(cats, t), t.amount) else gs
  }

  lemma {:induction false} KeyTotalAbsent(cats: map<CategoryId, Category>, s: seq<Transaction>, key: Option<string>)
    requires !HasExpenseWith(cats, s, key)
    ensures KeyTotal(cats, s, key) == 0
  {
    if s != [] {
      var p := s[..|s| - 1];
      assert forall i :: 0 <= i < |p| ==> p[i] == s[i];
      KeyTotalAbsent(cats, p, key);
    }
  }

  /**
   * One group per distinct category name among the expenses and no other;
   * each group's total is the sum of that category's expenses; the group
   * totals add up to the total expense.
   */
  lemma {:induction false} ExpenseGroupsCorrect(cats: map<CategoryId, Category>, s: seq<Transaction>)
    ensures forall key :: HasKey(ExpenseGroups(cats, s), key) <==> HasExpenseWith(cats, s, key)
    ensures forall i :: 0 <= i < |ExpenseGroups(cats, s)| ==>
      ExpenseGroups(cats, s)[i].total == KeyTotal(cats, s, ExpenseGroups(cats, s)[i].key)
    ensures Sum(Totals(ExpenseGroups(cats, s))) == TotalOf(s, Expense)
  {
    if s != [] {
      var p := s[..|s| - 1];
      var t := s[|s| - 1];
      var gs := ExpenseGroups(cats, p);
      var r := ExpenseGroups(cats, s);
      ExpenseGroupsCorrect(cats, p);
      forall key
        ensures HasExpenseWith(cats, s, key) <==> HasExpenseWith(cats, p, key) || (t.kind == Expense && CategoryName(cats, t) == key)
      {
        if HasExpenseWith(cats, s, key) {
          var i :| 0 <= i < |s| && s[i].kind == Expense && CategoryName(cats, s[i]) == key;
          if i < |p| {
            assert p[i] == s[i];
          }
        }
        if HasExpenseWith(cats, p, key) {
          var i :| 0 <= i < |p| && p[i].kind == Expense && CategoryName(cats, p[i]) == key;
          assert s[i] == p[i];
        }
      }
      if t.kind == Expense {
        var k := CategoryName(cats, t);
        forall key
          ensures HasKey(r, key) <==> HasKey(gs, key) || key == k
        {
          if HasKey(r, key) {
            var i :| 0 <= i < |r| && r[i].key == key;
            if i < |gs| {
              assert gs[i].key == key;
            }
          }
          if HasKey(gs, key) {
            var i :| 0 <= i < |gs| && gs[i].key == key;
            assert r[i].key == key;
          }
          if key == k && !HasKey(gs, k) {
            assert r[|gs|].key == k;
          }
        }
        forall i | 0 <= i < |r|
          ensures r[i].total == KeyTotal(cats, s, r[i].key)
        {
          if i == |gs| {
            KeyTotalAbsent(cats, p, k);
          }
        }
      } else {
        TotalOfAbsent([t], Expense);
      }
    }
  }

  datatype Chart = Chart(labels: seq<string>, values: seq<int>)

  /** A missing (or empty) category name is shown as `UncategorizedLabel`. */
  function Label(key: Option<string>): string {
    match key
    case None => UncategorizedLabel
    case Some(name) => if name == "" then UncategorizedLabel else name
  }

  function Labels(gs: seq<Group>): (r: seq<string>)
    ensures |r| == |gs| && forall i :: 0 <= i < |gs| ==> r[i] == Label(gs[i].key)
  {
    if gs == [] then [] else [Label(gs[0].key)] + Labels(gs[1..])
  }

  /** The chart data: parallel labels and totals, one per expense group. */
  function ExpenseChart(cats: map<CategoryId, Category>, s: seq<Transaction>): Chart {
    var gs := ExpenseGroups(cats, s);
    Chart(Labels(gs), Totals(gs))
  }

  /**
   * Labels and values have equal length, the values add up to the total
   * expense, and each value is the expense total of its category.
   */
  lemma ExpenseChartCorrect(cats: map<CategoryId, Category>, s: seq<Transaction>)
    ensures |ExpenseChart(cats, s).labels| == |ExpenseChart(cats, s).values|
    ensures Sum(ExpenseChart(cats, s).values) == Summarize(s).totalExpense
    ensures forall i :: 0 <= i < |ExpenseChart(cats, s).values| ==>
      exists key :: HasExpenseWith(cats, s, key) && ExpenseChart(cats, s).labels[i] == Label(key)
                    && ExpenseChart(cats, s).values[i] == KeyTotal(cats, s, key)
  {
    var gs := ExpenseGroups(cats, s);
    ExpenseGroupsCorrect(cats, s);
    forall i | 0 <= i < |gs|
      ensures HasExpenseWith(cats, s, gs[i].key)
    {
      assert HasKey(gs, gs[i].key);
    }
  }

  /**
   * When no category is named `UncategorizedLabel` (or has an empty name), the
   * chart shows each label once.
   */
  lemma ChartLabelsDistinct(cats: map<CategoryId, Category>, s: seq<Transaction>)
    requires forall c :: c in cats ==> cats[c].name != "" && cats[c].name != UncategorizedLabel
    ensures forall i, j :: 0 <= i < j < |ExpenseChart(cats, s).labels| ==>
      ExpenseChart(cats, s).labels[i] != ExpenseChart(cats, s).labels[j]
  {
    var gs := ExpenseGroups(cats, s);
    ExpenseGroupsCorrect(cats, s);
    forall i | 0 <= i < |gs|
      ensures gs[i].key.Some? ==> gs[i].key.value != "" && gs[i].key.value != UncategorizedLabel
    {
      assert HasKey(gs, gs[i].key);
      var k :| 0 <= k < |s| && s[k].kind == Expense && CategoryName(cats, s[k]) == gs[i].key;
    }
  }

  // ---------------------------------------------------------------------------
  // Histories and the recent list
  // ---------------------------------------------------------------------------

  /** The transactions of kind `k`, in their original order. */
  function OfKind(s: seq<Transaction>, k: TxType): (r: seq<Transaction>)
    ensures forall i :: 0 <= i < |r| ==> r[i].kind == k
    ensures forall x :: multiset(r)[x] == if x.kind == k then multiset(s)[x] else 0
  {
    if s == [] then []
    else
      var p := s[..|s| - 1];
      assert s == p + [s[|s| - 1]];
      if s[|s| - 1].kind == k then OfKind(p, k) + [s[|s| - 1]] else OfKind(p, k)
  }

  /** The income or expense history: the transactions of that kind, in listing order. */
  function History(s: seq<Transaction>, k: TxType): (r: seq<Transaction>)
    ensures InListingOrder(r)
    ensures forall i :: 0 <= i < |r| ==> r[i].kind == k
    ensures forall x :: multiset(r)[x] == if x.kind == k then multiset(s)[x] else 0
  {
    var r := SortListing(OfKind(s, k));
    assert forall i :: 0 <= i < |r| ==> r[i] in multiset(OfKind(s, k));
    r
  }

  const RecentCount: nat := 5

  /** The first five transactions of a listing. */
  function Recent(listing: seq<Transaction>): seq<Transaction> {
    if |listing| <= RecentCount then listing else listing[..RecentCount]
  }

  /** The recent list holds up to five transactions, none older than one left out. */
  lemma RecentAreNewest(listing: seq<Transaction>)
    requires InListingOrder(listing)
    ensures |Recent(listing)| == if |listing| < RecentCount then |listing| else RecentCount
    ensures Recent(listing) <= listing
    ensures forall i, j :: 0 <= i < |Recent(listing)| <= j < |listing| ==> ListedBefore(listing[i], listing[j])
  {
  }

  datatype Dashboard = Dashboard(recent: seq<Transaction>, summary: Summary, chart: Chart)

  /** The dashboard of a user whose transactions are `ledger`. */
  function DashboardOf(cats: map<CategoryId, Category>, ledger: seq<Transaction>): Dashboard {
    Dashboard(Recent(SortListing(ledger)), Summarize(ledger), ExpenseChart(cats, ledger))
  }

  /**
   * Taken from a listing of `ledger`, the recent list holds transactions of
   * the ledger, and each of them is listed before every one left out.
   */
  lemma RecentOfLedger(listing: seq<Transaction>, ledger: seq<Transaction>)
    requires InListingOrder(listing) && multiset(listing) == multiset(ledger)
    ensures multiset(Recent(listing)) <= multiset(ledger)
    ensures forall i :: 0 <= i < |Recent(listing)| ==> Recent(listing)[i] in ledger
    ensures forall i, t :: 0 <= i < |Recent(listing)| && t in multiset(ledger) - multiset(Recent(listing)) ==>
      ListedBefore(Recent(listing)[i], t)
  {
    var recent := Recent(listing);
    var rest := listing[|recent|..];
    assert listing == recent + rest;
    assert multiset(listing) == multiset(recent) + multiset(rest);
    forall i | 0 <= i < |recent|
      ensures recent[i] in ledger
    {
      assert recent[i] in multiset(listing);
    }
    forall i, t | 0 <= i < |recent| && t in multiset(ledger) - multiset(recent)
      ensures ListedBefore(recent[i], t)
    {
      assert t in multiset(rest);
      var j :| 0 <= j < |rest| && rest[j] == t;
      assert listing[|recent| + j] == t;
    }
  }

  /**
   * The dashboard shows at most five of the user's transactions, the newest
   * in listing order; totals whose difference is the net balance; and a chart
   * whose values add up to the expense total.
   */
  lemma DashboardOfCorrect(cats: map<CategoryId, Category>, ledger: seq<Transaction>)
    ensures |DashboardOf(cats, ledger).recent| == if |ledger| < RecentCount then |ledger| else RecentCount
    ensures multiset(DashboardOf(cats, ledger).recent) <= multiset(ledger)
    ensures forall i :: 0 <= i < |DashboardOf(cats, ledger).recent| ==> DashboardOf(cats, ledger).recent[i] in ledger
    ensures forall i, t :: 0 <= i < |DashboardOf(cats, ledger).recent| && t in multiset(ledger) - multiset(DashboardOf(cats, ledger).recent) ==>
      ListedBefore(DashboardOf(cats, ledger).recent[i], t)
    ensures DashboardOf(cats, ledger).summary.balance == Net(ledger)
    ensures Sum(DashboardOf(cats, ledger).chart.values) == DashboardOf(cats, ledger).summary.totalExpense
  {
    var listing := SortListing(ledger);
    assert |listing| == |multiset(listing)| == |ledger|;
    RecentOfLedger(listing, ledger);
    BalanceIsNet(ledger);
    ExpenseChartCorrect(cats, ledger);
  }

  // ---------------------------------------------------------------------------
  // CSV export
  // ---------------------------------------------------------------------------

  const ExportHeader: seq<string> := ["Date", "Title", "Category", "Type", "Amount"]

  /** A row of the export: the header, or one transaction's date, title, category, type code and amount. */
  datatype ExportRow =
    | Header(columns: seq<string>)
    | Record(date: Date, title: string, category: string, kind: string, amount: Cents)

  function TypeCode(k: TxType): string {
    match k
    case Income => "INCOME"
    case Expense => "EXPENSE"
  }

  function ExportRecord(cats: map<CategoryId, Category>, t: Transaction): ExportRow {
    var category := match CategoryName(cats, t) case None => "None" case Some(name) => name;
    Record(t.date, t.title, category, TypeCode(t.kind), t.amount)
  }

  function Records(cats: map<CategoryId, Category>, s: seq<Transaction>): (rows: seq<ExportRow>)
    ensures |rows| == |s| && forall i :: 0 <= i < |s| ==> rows[i] == ExportRecord(cats, s[i])
  {
    if s == [] then [] else Records(cats, s[..|s| - 1]) + [ExportRecord(cats, s[|s| - 1])]
  }

  /** The export: the header, then one row per transaction in the order given. */
  function Export(cats: map<CategoryId, Category>, s: seq<Transaction>): (rows: seq<ExportRow>)
    ensures |rows| == |s| + 1 && rows[0] == Header(ExportHeader)
    ensures forall i :: 0 <= i < |s| ==> rows[i + 1] == ExportRecord(cats, s[i])
    ensures s == [] ==> rows == [Header(ExportHeader)]
  {
    [Header(ExportHeader)] + Records(cats, s)
  }

  /** Sum of the Amount column over the rows whose Type column is `code`. */
  function ExportedTotal(rows: seq<ExportRow>, code: string): int {
    if rows == [] then 0
    else
      var row := rows[|rows| - 1];
      ExportedTotal(rows[..|rows| - 1], code) + (if row.Record? && row.kind == code then row.amount else 0)
  }

  lemma TypeCodeInjective(j: TxType, k: TxType)
    ensures TypeCode(j) == TypeCode(k) <==> j == k
  {
    assert "INCOME"[0] != "EXPENSE"[0];
  }

  /** Summing the Amount column of the data rows typed `k` gives the total of kind `k`. */
  lemma {:induction false} RecordsTotalOf(cats: map<CategoryId, Category>, s: seq<Transaction>, k: TxType)
    ensures ExportedTotal(Records(cats, s), TypeCode(k)) == TotalOf(s, k)
  {
    if s != [] {
      var p := s[..|s| - 1];
      var t := s[|s| - 1];
      var rows := Records(cats, s);
      assert rows == Records(cats, p) + [ExportRecord(cats, t)];
      assert rows[..|rows| - 1] == Records(cats, p);
      RecordsTotalOf(cats, p, k);
      TypeCodeInjective(t.kind, k);
      assert ExportedTotal(rows, TypeCode(k)) == TotalOf(p, k) + AmountOf(t, k);
    }
  }

  /** The header row adds nothing to a column total. */
  lemma {:induction false} HeaderAddsNothing(rows: seq<ExportRow>, code: string)
    ensures ExportedTotal([Header(ExportHeader)] + rows, code) == ExportedTotal(rows, code)
  {
    var all := [Header(ExportHeader)] + rows;
    if rows == [] {
      assert all[..0] == [];
    } else {
      assert all[..|all| - 1] == [Header(ExportHeader)] + rows[..|rows| - 1];
      HeaderAddsNothing(rows[..|rows| - 1], code);
    }
  }

  /** Reading the export back gives the dashboard totals. */
  lemma ExportMatchesSummary(cats: map<CategoryId, Category>, s: seq<Transaction>)
    ensures ExportedTotal(Export(cats, s), "INCOME") == Summarize(s).totalIncome
    ensures ExportedTotal(Export(cats, s), "EXPENSE") == Summarize(s).totalExpense
  {
    RecordsTotalOf(cats, s, Income);
    RecordsTotalOf(cats, s, Expense);
    HeaderAddsNothing(Records(cats, s), "INCOME");
    HeaderAddsNothing(Records(cats, s), "EXPENSE");
  }
}
