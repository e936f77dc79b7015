/** Two independent per-currency aggregators over the same rows, and how far they agree.
    Amounts are exact reals. */
module Aggregation {
  import opened Wrappers
  import opened Collections

  datatype Row = Row(amount: real, currency: string, kind: string, category: Option<string>)

  datatype Kind = Income | Expense | Other

  /** What `aggregate` reports for one currency. */
  datatype Monthly = Monthly(currency: string, income: real, expenses: real, net: real,
                             top: seq<Entry>, count: nat, largest: real)

  /** What `aggregate_rows` reports for one currency. */
  datatype CurrencyTotals = CurrencyTotals(currency: string, income: real, expense: real, count: nat)

  datatype Entry = Entry(name: string, amount: real)

  const TOP := 5

  function KindOf(r: Row): Kind {
    if r.kind == "income" then Income else if r.kind == "expense" then Expense else Other
  }

  // ---------- the string order ----------

  /** Python's order on strings: by code point, a prefix first. */
  predicate Less(a: string, b: string) {
    b != "" && (a == "" || a[0] < b[0] || (a[0] == b[0] && Less(a[1..], b[1..])))
  }

  lemma {:induction false} LessIsTotal(a: string, b: string)
    ensures a == b ==> !Less(a, b)
    ensures a != b ==> (Less(a, b) <==> !Less(b, a))
  {
    if a != "" && b != "" && a[0] == b[0] {
      LessIsTotal(a[1..], b[1..]);
      assert a == [a[0]] + a[1..] && b == [b[0]] + b[1..];
    }
  }

  lemma {:induction false} LessIsTransitive(a: string, b: string, c: string)
    requires Less(a, b) && Less(b, c)
    ensures Less(a, c)
  {
    if a != "" && a[0] == b[0] == c[0] {
      LessIsTransitive(a[1..], b[1..], c[1..]);
    }
  }

  predicate StrictlySorted(keys: seq<string>) {
    forall i, j :: 0 <= i < j < |keys| ==> Less(keys[i], keys[j])
  }

  lemma {:induction false} SortedTail(a: seq<string>)
    requires StrictlySorted(a) && a != []
    ensures forall k :: k in a[1..] <==> k in a && k != a[0]
  {
    LessIsTotal(a[0], a[0]);
    assert a == [a[0]] + a[1..];
  }

  lemma {:induction false} HasFirst(keys: seq<string>)
    ensures keys == [] || keys[0] in keys
  {
  }

  /** There is only one way to list a set of keys in order. */
  lemma {:induction false} SortedListIsUnique(a: seq<string>, b: seq<string>)
    requires StrictlySorted(a) && StrictlySorted(b)
    requires forall k :: k in a <==> k in b
    ensures a == b
  {
    HasFirst(a);
    HasFirst(b);
    if a != [] {
      LessIsTotal(a[0], b[0]);
      SortedTail(a);
      SortedTail(b);
      SortedListIsUnique(a[1..], b[1..]);
    }
  }

  method SortedKeys(keys: set<string>) returns (sorted: seq<string>)
    ensures StrictlySorted(sorted)
    ensures forall k :: k in sorted <==> k in keys
  {
    var left := keys;
    sorted := [];
    while left != {}
      invariant left <= keys
      invariant forall k :: k in sorted <==> k in keys - left
      invariant StrictlySorted(sorted)
      invariant forall i, k :: 0 <= i < |sorted| && k in left ==> Less(sorted[i], k)
      decreases |left|
    {
      var low := Least(left);
      left := left - {low};
      sorted := sorted + [low];
    }
  }

  method Least(keys: set<string>) returns (low: string)
    requires keys != {}
    ensures low in keys && forall k :: k in keys && k != low ==> Less(low, k)
  {
    low :| low in keys;
    var left := keys - {low};
    while left != {}
      invariant left <= keys && low in keys - left
      invariant forall k :: k in keys - left && k != low ==> Less(low, k)
      decreases |left|
    {
      var k :| k in left;
      ghost var was := low;
      LessIsTotal(k, low);
      if Less(k, low) {
        forall j | j in keys - left && j != was ensures Less(k, j) {
          LessIsTransitive(k, was, j);
        }
        low := k;
      }
      left := left - {k};
    }
  }

  // ---------- what the rows say ----------

  function Of(rows: seq<Row>, c: string): seq<Row> {
    if rows == [] then []
    else
      var last := rows[|rows| - 1];
      Of(rows[..|rows| - 1], c) + (if last.currency == c then [last] else [])
  }

  function Sum(rows: seq<Row>, k: Kind): real {
    if rows == [] then 0.0
    else
      var last := rows[|rows| - 1];
      Sum(rows[..|rows| - 1], k) + (if KindOf(last) == k then last.amount else 0.0)
  }

  predicate Labelled(r: Row) {
    KindOf(r) == Expense && r.category.Some? && r.category.value != ""
  }

  function CategorySum(rows: seq<Row>, name: string): real {
    if rows == [] then 0.0
    else
      var last := rows[|rows| - 1];
      CategorySum(rows[..|rows| - 1], name)
      + (if Labelled(last) && last.category.value == name then last.amount else 0.0)
  }

  /** The labelled expense categories in order of first appearance, as a dictionary keeps them. */
  function Names(rows: seq<Row>): seq<string> {
    if rows == [] then []
    else
      var front := Names(rows[..|rows| - 1]);
      var last := rows[|rows| - 1];
      if Labelled(last) && last.category.value !in front then front + [last.category.value] else front
  }

  /** What one more row adds: to its currency's rows, to the income or the expenses, and, with a
      label, to its category; the names come in order of first appearance. */
  lemma {:induction false} OneMoreRow(rows: seq<Row>, r: Row, c: string, name: string)
    ensures Of(rows + [r], c) == Of(rows, c) + (if r.currency == c then [r] else [])
    ensures Sum(rows + [r], Income) == Sum(rows, Income) + (if r.kind == "income" then r.amount else 0.0)
    ensures Sum(rows + [r], Expense) == Sum(rows, Expense) + (if r.kind == "expense" then r.amount else 0.0)
    ensures var mine := r.kind == "expense" && r.category == Some(name) && name != "";
            CategorySum(rows + [r], name) == CategorySum(rows, name) + (if mine then r.amount else 0.0)
    ensures Names(rows + [r])
         == Names(rows) + if r.kind == "expense" && r.category.Some? && r.category.value != ""
                             && r.category.value !in Names(rows) then [r.category.value] else []
  {
    assert (rows + [r])[..|rows|] == rows;
    assert Names(rows) + [] == Names(rows);
  }

  lemma {:induction false} NoRowsAtAll(rows: seq<Row>, c: string, k: Kind, name: string)
    requires rows == []
    ensures Of(rows, c) == [] && Sum(rows, k) == 0.0 && CategorySum(rows, name) == 0.0 && Names(rows) == []
  {
  }

  /** The names are exactly the categories of the labelled expenses. */
  lemma {:induction false} NamesAreCategories(rows: seq<Row>, name: string)
    ensures name in Names(rows) <==> exists i :: 0 <= i < |rows| && rows[i].kind == "expense"
                                                 && rows[i].category == Some(name) && name != ""
  {
    if rows != [] {
      var n := |rows| - 1;
      NamesAreCategories(rows[..n], name);
      if i :| 0 <= i < |rows| && rows[i].kind == "expense" && rows[i].category == Some(name) && name != "" {
        if i < n {
          assert rows[..n][i] == rows[i];
        }
      }
      if i :| 0 <= i < n && rows[..n][i].kind == "expense" && rows[..n][i].category == Some(name) && name != "" {
        assert rows[i] == rows[..n][i];
      }
    }
  }

  function Entries(rows: seq<Row>, names: seq<string>): seq<Entry> {
    seq(|names|, i requires 0 <= i < |names| => Entry(names[i], CategorySum(rows, names[i])))
  }

  /** The stable descending sort: a new entry goes behind all that are at least as large. */
  function Insert(sorted: seq<Entry>, e: Entry): seq<Entry> {
    if sorted != [] && sorted[|sorted| - 1].amount < e.amount
    then Insert(sorted[..|sorted| - 1], e) + [sorted[|sorted| - 1]]
    else sorted + [e]
  }

  function Ranked(entries: seq<Entry>): seq<Entry> {
    if entries == [] then [] else Insert(Ranked(entries[..|entries| - 1]), entries[|entries| - 1])
  }

  function Top(rows: seq<Row>): seq<Entry> {
    var ranked := Ranked(Entries(rows, Names(rows)));
    if |ranked| <= TOP then ranked else ranked[..TOP]
  }

  /** `max(expenses, default=0)`. */
  predicate IsLargest(rows: seq<Row>, m: real) {
    if forall i :: 0 <= i < |rows| ==> KindOf(rows[i]) != Expense then m == 0.0
    else
      && (forall i :: 0 <= i < |rows| && KindOf(rows[i]) == Expense ==> rows[i].amount <= m)
      && (exists i :: 0 <= i < |rows| && KindOf(rows[i]) == Expense && rows[i].amount == m)
  }

  // ---------- aggregate ----------

  predicate IsMonthly(rows: seq<Row>, m: Monthly) {
    var txs := Of(rows, m.currency);
    && m.income == Sum(txs, Income) && m.expenses == Sum(txs, Expense) && m.net == m.income - m.expenses
    && m.top == Top(txs) && m.count == |txs| && IsLargest(txs, m.largest)
  }

  /** The currencies of the rows, in order. */
  ghost predicate IsKeys(rows: seq<Row>, keys: seq<string>) {
    StrictlySorted(keys) && forall c :: c in keys <==> Of(rows, c) != []
  }

  function MonthlyKeys(result: seq<Monthly>): seq<string> {
    seq(|result|, i requires 0 <= i < |result| => result[i].currency)
  }

  ghost predicate IsAggregate(rows: seq<Row>, result: seq<Monthly>) {
    IsKeys(rows, MonthlyKeys(result)) && forall i :: 0 <= i < |result| ==> IsMonthly(rows, result[i])
  }

  lemma {:induction false} OfStep(rows: seq<Row>, r: Row, c: string)
    ensures Of(rows + [r], c) == if r.currency == c then Of(rows, c) + [r] else Of(rows, c)
  {
    assert (rows + [r])[..|rows|] == rows;
  }

  method GroupByCurrency(rows: seq<Row>) returns (groups: map<string, seq<Row>>)
    ensures forall c :: c in groups <==> Of(rows, c) != []
    ensures forall c :: c in groups ==> groups[c] == Of(rows, c)
  {
    groups := map[];
    assert rows[..0] == [];
    for n := 0 to |rows|
      invariant forall c :: c in groups <==> Of(rows[..n], c) != []
      invariant forall c :: c in groups ==> groups[c] == Of(rows[..n], c)
    {
      var r := rows[n];
      assert rows[..n + 1] == rows[..n] + [r];
      forall c ensures Of(rows[..n + 1], c) == if r.currency == c then Of(rows[..n], c) + [r] else Of(rows[..n], c) {
        OfStep(rows[..n], r, c);
      }
      groups := groups[r.currency := (if r.currency in groups then groups[r.currency] else []) + [r]];
    }
    assert rows[..|rows|] == rows;
  }

  method Totals(txs: seq<Row>) returns (income: real, expenses: real, largest: real)
    ensures income == Sum(txs, Income) && expenses == Sum(txs, Expense) && IsLargest(txs, largest)
  {
    income, expenses, largest := 0.0, 0.0, 0.0;
    var any := false;
    assert txs[..0] == [];
    for n := 0 to |txs|
      invariant income == Sum(txs[..n], Income) && expenses == Sum(txs[..n], Expense)
      invariant any <==> exists i :: 0 <= i < n && KindOf(txs[i]) == Expense
      invariant !any ==> largest == 0.0
      invariant forall i :: 0 <= i < n && KindOf(txs[i]) == Expense ==> txs[i].amount <= largest
      invariant any ==> exists i :: 0 <= i < n && KindOf(txs[i]) == Expense && txs[i].amount == largest
    {
      assert txs[..n + 1][..n] == txs[..n];
      var t := txs[n];
      if t.kind == "income" {
        income := income + t.amount;
      } else if t.kind == "expense" {
        expenses := expenses + t.amount;
        if !any || t.amount > largest { largest := t.amount; }
        any := true;
      }
    }
    assert txs[..|txs|] == txs;
  }

  /** The dictionary of category totals, then the five largest. */
  method TopCategories(txs: seq<Row>) returns (top: seq<Entry>)
    ensures top == Top(txs)
  {
    var names: seq<string>, sums: map<string, real> := [], map[];
    assert txs[..0] == [];
    for n := 0 to |txs|
      invariant names == Names(txs[..n])
      invariant forall l :: l in sums <==> l in names
      invariant forall l :: CategorySum(txs[..n], l) == if l in sums then sums[l] else 0.0
    {
      var t := txs[n];
      assert txs[..n + 1][..n] == txs[..n];
      if t.kind == "expense" && t.category.Some? && t.category.value != "" {
        var l := t.category.value;
        if l in sums {
          sums := sums[l := sums[l] + t.amount];
        } else {
          sums := sums[l := t.amount];
          names := names + [l];
        }
      }
    }
    assert txs[..|txs|] == txs;
    var entries := seq(|names|, i requires 0 <= i < |names| && names[i] in sums => Entry(names[i], sums[names[i]]));
    assert entries == Entries(txs, Names(txs));
    var ranked := Ranked(entries);
    top := if |ranked| <= TOP then ranked else ranked[..TOP];
  }

  lemma {:induction false} KeysStep(result: seq<Monthly>, m: Monthly)
    ensures MonthlyKeys(result + [m]) == MonthlyKeys(result) + [m.currency]
  {
  }

  method Aggregate(rows: seq<Row>) returns (result: seq<Monthly>)
    ensures IsAggregate(rows, result)
  {
    var groups := GroupByCurrency(rows);
    var keys := SortedKeys(groups.Keys);
    result := [];
    for n := 0 to |keys|
      invariant MonthlyKeys(result) == keys[..n]
      invariant forall i :: 0 <= i < |result| ==> IsMonthly(rows, result[i])
    {
      var m := Summarise(rows, keys[n], groups[keys[n]]);
      KeysStep(result, m);
      TakeOneMore(keys, n);
      result := result + [m];
    }
    assert keys[..|keys|] == keys;
  }

  method Summarise(rows: seq<Row>, c: string, txs: seq<Row>) returns (m: Monthly)
    requires txs == Of(rows, c)
    ensures m.currency == c && IsMonthly(rows, m)
  {
    var income, expenses, largest := Totals(txs);
    var top := TopCategories(txs);
    m := Monthly(c, income, expenses, income - expenses, top, |txs|, largest);
  }

  // ---------- aggregate_rows ----------

  /** Everything that is not income. */
  function Outgoing(rows: seq<Row>): real {
    if rows == [] then 0.0
    else
      var last := rows[|rows| - 1];
      Outgoing(rows[..|rows| - 1]) + (if KindOf(last) != Income then last.amount else 0.0)
  }

  lemma {:induction false} OutgoingIsExpenseAndOther(rows: seq<Row>)
    ensures Outgoing(rows) == Sum(rows, Expense) + Sum(rows, Other)
  {
    if rows != [] {
      OutgoingIsExpenseAndOther(rows[..|rows| - 1]);
    }
  }

  predicate IsTotals(rows: seq<Row>, t: CurrencyTotals) {
    var txs := Of(rows, t.currency);
    t.income == Sum(txs, Income) && t.expense == Outgoing(txs) && t.count == |txs|
  }

  function TotalsKeys(result: seq<CurrencyTotals>): seq<string> {
    seq(|result|, i requires 0 <= i < |result| => result[i].currency)
  }

  ghost predicate IsSnapshot(rows: seq<Row>, result: Option<seq<CurrencyTotals>>) {
    && (result.None? <==> rows == [])
    && (result.Some? ==>
          && IsKeys(rows, TotalsKeys(result.value))
          && forall i :: 0 <= i < |result.value| ==> IsTotals(rows, result.value[i]))
  }

  /** The three running dictionaries; a missing key counts as zero. */
  datatype Tally = Tally(income: map<string, real>, expense: map<string, real>, count: map<string, nat>) {
    function Income(c: string): real { if c in income then income[c] else 0.0 }

    function Expense(c: string): real { if c in expense then expense[c] else 0.0 }
  }

  predicate CountAt(rows: seq<Row>, t: Tally, c: string) {
    (c in t.count <==> Of(rows, c) != []) && (c in t.count ==> t.count[c] == |Of(rows, c)|)
  }

  predicate IncomeAt(rows: seq<Row>, t: Tally, c: string) {
    t.Income(c) == Sum(Of(rows, c), Kind.Income)
  }

  predicate ExpenseAt(rows: seq<Row>, t: Tally, c: string) {
    t.Expense(c) == Outgoing(Of(rows, c))
  }

  predicate TallyAt(rows: seq<Row>, t: Tally, c: string) {
    CountAt(rows, t, c) && IncomeAt(rows, t, c) && ExpenseAt(rows, t, c)
  }

  function Tallied(t: Tally, r: Row): Tally {
    var c := r.currency;
    var counted := t.count[c := (if c in t.count then t.count[c] else 0) + 1];
    if r.kind == "income" then Tally(t.income[c := t.Income(c) + r.amount], t.expense, counted)
    else Tally(t.income, t.expense[c := t.Expense(c) + r.amount], counted)
  }

  lemma {:induction false} CountStep(rows: seq<Row>, t: Tally, r: Row, c: string)
    requires CountAt(rows, t, c)
    ensures CountAt(rows + [r], Tallied(t, r), c)
  {
    OfStep(rows, r, c);
  }

  lemma {:induction false} SumStep(txs: seq<Row>, r: Row)
    ensures Sum(txs + [r], Kind.Income)
         == if KindOf(r) == Kind.Income then Sum(txs, Kind.Income) + r.amount else Sum(txs, Kind.Income)
    ensures Outgoing(txs + [r]) == if KindOf(r) == Kind.Income then Outgoing(txs) else Outgoing(txs) + r.amount
  {
    assert (txs + [r])[..|txs|] == txs;
  }

  lemma {:induction false} TalliedIncome(t: Tally, r: Row, c: string)
    ensures Tallied(t, r).Income(c)
         == if r.currency == c && KindOf(r) == Kind.Income then t.Income(c) + r.amount else t.Income(c)
  {
  }

  lemma {:induction false} TalliedExpense(t: Tally, r: Row, c: string)
    ensures Tallied(t, r).Expense(c)
         == if r.currency == c && KindOf(r) != Kind.Income then t.Expense(c) + r.amount else t.Expense(c)
  {
  }

  lemma {:induction false} IncomeStep(rows: seq<Row>, t: Tally, r: Row, c: string)
    requires IncomeAt(rows, t, c)
    ensures IncomeAt(rows + [r], Tallied(t, r), c)
  {
    OfStep(rows, r, c);
    TalliedIncome(t, r, c);
    if r.currency == c {
      SumStep(Of(rows, c), r);
    }
  }

  lemma {:induction false} ExpenseStep(rows: seq<Row>, t: Tally, r: Row, c: string)
    requires ExpenseAt(rows, t, c)
    ensures ExpenseAt(rows + [r], Tallied(t, r), c)
  {
    OfStep(rows, r, c);
    TalliedExpense(t, r, c);
    if r.currency == c {
      SumStep(Of(rows, c), r);
    }
  }

  method TallyRows(rows: seq<Row>) returns (t: Tally, seen: bool)
    ensures seen <==> rows != []
    ensures forall c :: TallyAt(rows, t, c)
  {
    t, seen := Tally(map[], map[], map[]), false;
    assert rows[..0] == [];
    for n := 0 to |rows|
      invariant seen <==> n > 0
      invariant forall c :: TallyAt(rows[..n], t, c)
    {
      ghost var was := t;
      seen := true;
      t := Tallied(t, rows[n]);
      ghost var now := rows[..n + 1];
      assert now == rows[..n] + [rows[n]];
      forall c ensures TallyAt(now, t, c) {
        assert TallyAt(rows[..n], was, c);
        CountStep(rows[..n], was, rows[n], c);
        IncomeStep(rows[..n], was, rows[n], c);
        ExpenseStep(rows[..n], was, rows[n], c);
      }
    }
    assert rows[..|rows|] == rows;
  }

  lemma {:induction false} TotalsKeysStep(result: seq<CurrencyTotals>, t: CurrencyTotals)
    ensures TotalsKeys(result + [t]) == TotalsKeys(result) + [t.currency]
  {
  }

  method AggregateRows(rows: seq<Row>) returns (result: Option<seq<CurrencyTotals>>)
    ensures IsSnapshot(rows, result)
  {
    var t, seen := TallyRows(rows);
    if !seen { return None; }
    forall c ensures c in t.count.Keys <==> Of(rows, c) != [] {
      assert TallyAt(rows, t, c);
    }
    var keys := SortedKeys(t.count.Keys);
    var totals: seq<CurrencyTotals> := [];
    for n := 0 to |keys|
      invariant TotalsKeys(totals) == keys[..n]
      invariant forall i :: 0 <= i < |totals| ==> IsTotals(rows, totals[i])
    {
      var c := keys[n];
      assert TallyAt(rows, t, c);
      var total := CurrencyTotals(c, t.Income(c), t.Expense(c), t.count[c]);
      TotalsKeysStep(totals, total);
      TakeOneMore(keys, n);
      totals := totals + [total];
    }
    assert keys[..|keys|] == keys;
    result := Some(totals);
  }

  // ---------- the two agree ----------

  lemma {:induction false} EmptyTogether(rows: seq<Row>, a: seq<Monthly>)
    requires IsAggregate(rows, a)
    ensures a == [] <==> rows == []
  {
    RowsHaveKeys(rows);
    if a != [] {
      assert MonthlyKeys(a)[0] in MonthlyKeys(a);
      assert Of(rows, a[0].currency) != [];
    }
    if rows != [] {
      assert rows[0] in rows;
      assert rows[0].currency in MonthlyKeys(a);
    }
  }

  /** Both list the same currencies in the same order with the same income and count; the
      expenses differ by exactly the rows that are neither income nor expense, which
      `aggregate` leaves out of its totals and `aggregate_rows` takes for expenses. */
  lemma {:induction false} AggregatorsAgreeIff(rows: seq<Row>, a: seq<Monthly>, b: Option<seq<CurrencyTotals>>)
    requires IsAggregate(rows, a) && IsSnapshot(rows, b)
    ensures b.None? <==> a == []
    ensures b.Some? ==> |b.value| == |a|
    ensures b.Some? ==> forall i :: 0 <= i < |a| ==>
              && a[i].currency == b.value[i].currency
              && a[i].income == b.value[i].income && a[i].count == b.value[i].count
              && b.value[i].expense == a[i].expenses + Sum(Of(rows, a[i].currency), Other)
              && (a[i].expenses == b.value[i].expense <==> Sum(Of(rows, a[i].currency), Other) == 0.0)
  {
    EmptyTogether(rows, a);
    if b.Some? {
      SortedListIsUnique(MonthlyKeys(a), TotalsKeys(b.value));
      assert |a| == |MonthlyKeys(a)| == |b.value|;
      forall i | 0 <= i < |a| ensures a[i].currency == b.value[i].currency {
        assert MonthlyKeys(a)[i] == TotalsKeys(b.value)[i];
      }
      forall i | 0 <= i < |a|
        ensures Outgoing(Of(rows, a[i].currency)) == a[i].expenses + Sum(Of(rows, a[i].currency), Other)
      {
        OutgoingIsExpenseAndOther(Of(rows, a[i].currency));
      }
    }
  }

  lemma {:induction false} RowsHaveKeys(rows: seq<Row>)
    ensures forall r :: r in rows ==> Of(rows, r.currency) != []
  {
    if rows != [] {
      var n := |rows| - 1;
      RowsHaveKeys(rows[..n]);
      assert rows == rows[..n] + [rows[n]];
    }
  }

  lemma {:induction false} NoOthers(txs: seq<Row>)
    requires forall i :: 0 <= i < |txs| ==> KindOf(txs[i]) != Other
    ensures Sum(txs, Other) == 0.0
  {
    if txs != [] {
      NoOthers(txs[..|txs| - 1]);
    }
  }

  lemma {:induction false} OfHoldsOnly(rows: seq<Row>, c: string)
    ensures forall r :: r in Of(rows, c) ==> r in rows && r.currency == c
  {
    if rows != [] {
      OfHoldsOnly(rows[..|rows| - 1], c);
    }
  }

  /** On the rows the system stores, income and expenses, they agree on everything. */
  lemma {:induction false} StoredRowsAgree(rows: seq<Row>, a: seq<Monthly>, b: seq<CurrencyTotals>)
    requires forall i :: 0 <= i < |rows| ==> KindOf(rows[i]) != Other
    requires IsAggregate(rows, a) && IsSnapshot(rows, Some(b))
    ensures b == seq(|a|, i requires 0 <= i < |a| =>
                            CurrencyTotals(a[i].currency, a[i].income, a[i].expenses, a[i].count))
  {
    AggregatorsAgreeIff(rows, a, Some(b));
    forall i | 0 <= i < |a| ensures Sum(Of(rows, a[i].currency), Other) == 0.0 {
      OfHoldsOnly(rows, a[i].currency);
      NoOthers(Of(rows, a[i].currency));
    }
  }

  // ---------- every row is counted once ----------

  function Counts(rows: seq<Row>, keys: seq<string>): nat {
    if keys == [] then 0 else Counts(rows, keys[..|keys| - 1]) + |Of(rows, keys[|keys| - 1])|
  }

  lemma {:induction false} CountsStep(rows: seq<Row>, r: Row, keys: seq<string>)
    requires StrictlySorted(keys)
    ensures Counts(rows + [r], keys) == Counts(rows, keys) + if r.currency in keys then 1 else 0
    decreases |keys|
  {
    if keys != [] {
      var n := |keys| - 1;
      CountsStep(rows, r, keys[..n]);
      OfStep(rows, r, keys[n]);
      LessIsTotal(keys[n], keys[n]);
      assert keys == keys[..n] + [keys[n]];
    }
  }

  lemma {:induction false} NoRows(rows: seq<Row>, keys: seq<string>)
    requires rows == []
    ensures Counts(rows, keys) == 0
    decreases |keys|
  {
    if keys != [] {
      NoRows(rows, keys[..|keys| - 1]);
    }
  }

  lemma {:induction false} CountsCover(rows: seq<Row>, keys: seq<string>)
    requires StrictlySorted(keys) && forall r :: r in rows ==> r.currency in keys
    ensures Counts(rows, keys) == |rows|
  {
    if rows == [] {
      NoRows(rows, keys);
    } else {
      var n := |rows| - 1;
      CountsCover(rows[..n], keys);
      CountsStep(rows[..n], rows[n], keys);
      assert rows == rows[..n] + [rows[n]];
    }
  }

  function TotalCount(result: seq<Monthly>): nat {
    if result == [] then 0 else TotalCount(result[..|result| - 1]) + result[|result| - 1].count
  }

  lemma {:induction false} TotalCountIsCounts(rows: seq<Row>, result: seq<Monthly>)
    requires forall i :: 0 <= i < |result| ==> result[i].count == |Of(rows, result[i].currency)|
    ensures TotalCount(result) == Counts(rows, MonthlyKeys(result))
  {
    if result != [] {
      var n := |result| - 1;
      TotalCountIsCounts(rows, result[..n]);
      assert MonthlyKeys(result)[..n] == MonthlyKeys(result[..n]);
    }
  }

  /** The transaction counts of all currencies add up to the number of rows. */
  lemma {:induction false} EveryRowIsCountedOnce(rows: seq<Row>, result: seq<Monthly>)
    requires IsAggregate(rows, result)
    ensures TotalCount(result) == |rows|
  {
    RowsHaveKeys(rows);
    TotalCountIsCounts(rows, result);
    CountsCover(rows, MonthlyKeys(result));
  }

  // ---------- the order of the rows does not matter ----------

  lemma {:induction false} OfAppend(a: seq<Row>, b: seq<Row>, c: string)
    ensures Of(a + b, c) == Of(a, c) + Of(b, c)
  {
    if b == [] {
      assert a + b == a;
    } else {
      assert (a + b)[..|a + b| - 1] == a + b[..|b| - 1];
      OfAppend(a, b[..|b| - 1], c);
    }
  }

  lemma {:induction false} SumAppend(a: seq<Row>, b: seq<Row>, k: Kind)
    ensures Sum(a + b, k) == Sum(a, k) + Sum(b, k)
  {
    if b == [] {
      assert a + b == a;
    } else {
      assert (a + b)[..|a + b| - 1] == a + b[..|b| - 1];
      SumAppend(a, b[..|b| - 1], k);
    }
  }

  /** Of and Sum along a sequence cut in two, for one currency and kind. */
  lemma {:induction false} CutAt(a: seq<Row>, b: seq<Row>, c: string, k: Kind)
    ensures Sum(Of(a + b, c), k) == Sum(Of(a, c), k) + Sum(Of(b, c), k)
    ensures |Of(a + b, c)| == |Of(a, c)| + |Of(b, c)|
  {
    OfAppend(a, b, c);
    SumAppend(Of(a, c), Of(b, c), k);
  }

  lemma {:induction false} TakeOut(b: seq<Row>, i: nat, c: string, k: Kind) returns (rest: seq<Row>)
    requires i < |b|
    ensures |rest| == |b| - 1 && multiset(b) == multiset(rest) + multiset{b[i]}
    ensures Sum(Of(b, c), k) == Sum(Of(rest, c), k) + Sum(Of([b[i]], c), k)
    ensures |Of(b, c)| == |Of(rest, c)| + |Of([b[i]], c)|
  {
    var front, back := b[..i], b[i + 1..];
    rest := front + back;
    assert b == front + ([b[i]] + back);
    CutAt(front, [b[i]] + back, c, k);
    CutAt([b[i]], back, c, k);
    CutAt(front, back, c, k);
  }

  /** Totals and counts depend on the rows only as a multiset, so on no query order. */
  lemma {:induction false} OrderDoesNotMatter(a: seq<Row>, b: seq<Row>, c: string, k: Kind)
    requires multiset(a) == multiset(b)
    ensures Sum(Of(a, c), k) == Sum(Of(b, c), k) && |Of(a, c)| == |Of(b, c)|
    decreases |a|
  {
    if a == [] {
      assert |b| == |multiset(b)| == 0;
    } else {
      assert a[0] in multiset(b);
      var i :| 0 <= i < |b| && b[i] == a[0];
      var a' := TakeOut(a, 0, c, k);
      var b' := TakeOut(b, i, c, k);
      Cancel(multiset(a'), multiset(b'), a[0]);
      OrderDoesNotMatter(a', b', c, k);
    }
  }

  // ---------- the five largest categories ----------

  predicate Descending(es: seq<Entry>) {
    forall i, j :: 0 <= i < j < |es| ==> es[i].amount >= es[j].amount
  }

  lemma {:induction false} InsertAdds(sorted: seq<Entry>, e: Entry)
    ensures multiset(Insert(sorted, e)) == multiset(sorted) + multiset{e}
  {
    var n := |sorted| - 1;
    if sorted != [] && sorted[n].amount < e.amount {
      InsertAdds(sorted[..n], e);
      assert sorted == sorted[..n] + [sorted[n]];
    }
  }

  lemma {:induction false} InsertSorts(sorted: seq<Entry>, e: Entry)
    requires Descending(sorted)
    ensures Descending(Insert(sorted, e))
  {
    var n := |sorted| - 1;
    if sorted != [] && sorted[n].amount < e.amount {
      InsertSorts(sorted[..n], e);
      InsertAdds(sorted[..n], e);
      forall x | x in Insert(sorted[..n], e) ensures x.amount >= sorted[n].amount {
        assert x in multiset(Insert(sorted[..n], e));
        assert x == e || x in sorted[..n];
      }
    }
  }

  lemma {:induction false} RankedSorts(es: seq<Entry>)
    ensures Descending(Ranked(es)) && multiset(Ranked(es)) == multiset(es)
  {
    if es != [] {
      var n := |es| - 1;
      RankedSorts(es[..n]);
      InsertSorts(Ranked(es[..n]), es[n]);
      InsertAdds(Ranked(es[..n]), es[n]);
      assert es == es[..n] + [es[n]];
    }
  }

  function WithAmount(es: seq<Entry>, v: real): seq<Entry> {
    if es == [] then []
    else WithAmount(es[..|es| - 1], v) + (if es[|es| - 1].amount == v then [es[|es| - 1]] else [])
  }

  lemma {:induction false} InsertIsStable(sorted: seq<Entry>, e: Entry, v: real)
    ensures WithAmount(Insert(sorted, e), v) == WithAmount(sorted, v) + if e.amount == v then [e] else []
  {
    var n := |sorted| - 1;
    if sorted != [] && sorted[n].amount < e.amount {
      InsertIsStable(sorted[..n], e, v);
      assert (Insert(sorted[..n], e) + [sorted[n]])[..|Insert(sorted[..n], e)|] == Insert(sorted[..n], e);
    } else {
      assert (sorted + [e])[..|sorted|] == sorted;
    }
  }

  /** Categories with equal totals keep their order of first appearance. */
  lemma {:induction false} RankingIsStable(es: seq<Entry>, v: real)
    ensures WithAmount(Ranked(es), v) == WithAmount(es, v)
  {
    if es != [] {
      RankingIsStable(es[..|es| - 1], v);
      InsertIsStable(Ranked(es[..|es| - 1]), es[|es| - 1], v);
    }
  }

  lemma {:induction false} InPrefix(es: seq<Entry>, n: nat, i: nat)
    requires n <= |es|
    ensures i < n ==> es[i] in es[..n]
  {
    if i < n {
      assert es[..n][i] == es[i];
    }
  }

  lemma {:induction false} PrefixDominates(ranked: seq<Entry>, n: nat, e: Entry, kept: Entry)
    requires Descending(ranked) && n <= |ranked| && e in ranked && e !in ranked[..n] && kept in ranked[..n]
    ensures e.amount <= kept.amount
  {
    var i :| 0 <= i < |ranked| && ranked[i] == e;
    var j :| 0 <= j < n && ranked[..n][j] == kept;
    InPrefix(ranked, n, i);
  }

  lemma {:induction false} RankedHolds(es: seq<Entry>)
    ensures |Ranked(es)| == |es| && forall e :: e in Ranked(es) <==> e in es
  {
    RankedSorts(es);
    assert |Ranked(es)| == |multiset(Ranked(es))| == |multiset(es)|;
    forall e ensures e in Ranked(es) <==> e in es {
      assert e in Ranked(es) <==> e in multiset(Ranked(es));
      assert e in es <==> e in multiset(es);
    }
  }

  /** Five categories, or all there are; every one left out is no larger than any kept. */
  lemma {:induction false} TopDominates(rows: seq<Row>, e: Entry, kept: Entry)
    ensures |Top(rows)| == if |Names(rows)| < 5 then |Names(rows)| else 5
    ensures Descending(Top(rows))
    ensures kept in Top(rows) ==> kept in Entries(rows, Names(rows))
    ensures kept in Top(rows) ==> kept.name in Names(rows) && kept.amount == CategorySum(rows, kept.name)
    ensures e in Entries(rows, Names(rows)) && e !in Top(rows) && kept in Top(rows) ==> e.amount <= kept.amount
  {
    var es := Entries(rows, Names(rows));
    var ranked := Ranked(es);
    RankedSorts(es);
    RankedHolds(es);
    assert Top(rows) == ranked[..|Top(rows)|];
    if e in es && e !in Top(rows) && kept in Top(rows) {
      PrefixDominates(ranked, |Top(rows)|, e, kept);
    }
  }

  // ---------- the five largest stay within the expenses ----------

  function Amounts(es: seq<Entry>): real {
    if es == [] then 0.0 else Amounts(es[..|es| - 1]) + es[|es| - 1].amount
  }

  lemma {:induction false} InsertAmounts(sorted: seq<Entry>, e: Entry)
    ensures Amounts(Insert(sorted, e)) == Amounts(sorted) + e.amount
  {
    var n := |sorted| - 1;
    if sorted != [] && sorted[n].amount < e.amount {
      InsertAmounts(sorted[..n], e);
      assert (Insert(sorted[..n], e) + [sorted[n]])[..|Insert(sorted[..n], e)|] == Insert(sorted[..n], e);
    } else {
      assert (sorted + [e])[..|sorted|] == sorted;
    }
  }

  lemma {:induction false} RankedAmounts(es: seq<Entry>)
    ensures Amounts(Ranked(es)) == Amounts(es)
  {
    if es != [] {
      RankedAmounts(es[..|es| - 1]);
      InsertAmounts(Ranked(es[..|es| - 1]), es[|es| - 1]);
    }
  }

  lemma {:induction false} PrefixAmounts(es: seq<Entry>, n: nat)
    requires n <= |es| && forall e :: e in es ==> e.amount >= 0.0
    ensures Amounts(es[..n]) <= Amounts(es)
    decreases |es|
  {
    if n == |es| {
      assert es[..n] == es;
    } else {
      var m := |es| - 1;
      PrefixAmounts(es[..m], n);
      assert es[..m][..n] == es[..n];
    }
  }

  lemma {:induction false} NamesAreDistinct(rows: seq<Row>)
    ensures forall i, j :: 0 <= i < j < |Names(rows)| ==> Names(rows)[i] != Names(rows)[j]
  {
    if rows != [] {
      NamesAreDistinct(rows[..|rows| - 1]);
    }
  }

  lemma {:induction false} OneMoreEntry(rows: seq<Row>, names: seq<string>)
    requires names != []
    ensures Amounts(Entries(rows, names))
         == Amounts(Entries(rows, names[..|names| - 1])) + CategorySum(rows, names[|names| - 1])
  {
    assert Entries(rows, names)[..|names| - 1] == Entries(rows, names[..|names| - 1]);
  }

  /** One more row adds its amount to its own category's entry and to no other. */
  lemma {:induction false} EntriesStep(rows: seq<Row>, names: seq<string>)
    requires rows != [] && forall i, j :: 0 <= i < j < |names| ==> names[i] != names[j]
    ensures var r := rows[|rows| - 1];
            Amounts(Entries(rows, names)) == Amounts(Entries(rows[..|rows| - 1], names))
                                             + if Labelled(r) && r.category.value in names then r.amount else 0.0
    decreases |names|
  {
    if names != [] {
      var n := |names| - 1;
      EntriesStep(rows, names[..n]);
      OneMoreEntry(rows, names);
      OneMoreEntry(rows[..|rows| - 1], names);
      assert names == names[..n] + [names[n]];
    }
  }

  predicate NoNegativeExpense(rows: seq<Row>) {
    forall i :: 0 <= i < |rows| && KindOf(rows[i]) == Expense ==> rows[i].amount >= 0.0
  }

  lemma {:induction false} EntriesWithinExpenses(rows: seq<Row>, names: seq<string>)
    requires NoNegativeExpense(rows) && forall i, j :: 0 <= i < j < |names| ==> names[i] != names[j]
    ensures Amounts(Entries(rows, names)) <= Sum(rows, Expense)
    ensures forall e :: e in Entries(rows, names) ==> e.amount >= 0.0
  {
    if rows == [] {
      NoAmounts(rows, names);
    } else {
      var n := |rows| - 1;
      EntriesWithinExpenses(rows[..n], names);
      EntriesStep(rows, names);
      forall i | 0 <= i < |names| ensures Entries(rows, names)[i].amount >= 0.0 {
        assert Entries(rows[..n], names)[i] in Entries(rows[..n], names);
      }
    }
  }

  lemma {:induction false} NoAmounts(rows: seq<Row>, names: seq<string>)
    requires rows == []
    ensures Amounts(Entries(rows, names)) == 0.0
    decreases |names|
  {
    if names != [] {
      var n := |names| - 1;
      NoAmounts(rows, names[..n]);
      assert Entries(rows, names)[..n] == Entries(rows, names[..n]);
    }
  }

  /** With no negative expense, the categories shown never add up to more than the expenses. */
  lemma {:induction false} TopWithinExpenses(rows: seq<Row>)
    requires NoNegativeExpense(rows)
    ensures Amounts(Top(rows)) <= Sum(rows, Expense)
  {
    var es := Entries(rows, Names(rows));
    NamesAreDistinct(rows);
    EntriesWithinExpenses(rows, Names(rows));
    RankedSorts(es);
    RankedAmounts(es);
    forall e | e in Ranked(es) ensures e.amount >= 0.0 {
      assert e in multiset(Ranked(es)) && e in multiset(es) && e in es;
    }
    if |Ranked(es)| > TOP {
      PrefixAmounts(Ranked(es), TOP);
    }
  }
}
