/** Reading a user's transactions month by month: one range scan bucketed by month, next
    to one scan per month, and the month arithmetic both rest on. */
module BudgetReader {
  import opened Wrappers
  import opened Calendar
  import opened Collections

  type Month = (int, int)

  // ---------- month arithmetic ----------

  function PrevMonth(today: Date): Month {
    if today.month == 1 then (today.year - 1, 12) else (today.year, today.month - 1)
  }

  function AddMonth(m: Month): Month {
    if m.1 == 12 then (m.0 + 1, 1) else (m.0, m.1 + 1)
  }

  /** Python's `//` and `%`, which floor. */
  function SubMonths(m: Month, n: int): Month {
    var idx := m.0 * 12 + (m.1 - 1) - n;
    (idx / 12, idx % 12 + 1)
  }

  /** Months counted from year 0. */
  function MonthIndex(m: Month): int {
    m.0 * 12 + m.1 - 1
  }

  predicate IsMonth(m: Month) {
    1 <= m.1 <= 12
  }

  /** Month arithmetic is integer arithmetic on the month index, in both directions and
      across any number of year ends. */
  lemma {:induction false} MonthArithmetic(m: Month, n: int, today: Date)
    ensures IsMonth(SubMonths(m, n)) && MonthIndex(SubMonths(m, n)) == MonthIndex(m) - n
    ensures IsMonth(m) ==> IsMonth(AddMonth(m)) && MonthIndex(AddMonth(m)) == MonthIndex(m) + 1
    ensures ValidDate(today) ==> PrevMonth(today) == SubMonths((today.year, today.month), 1)
    ensures IsMonth(m) ==> SubMonths(AddMonth(m), 1) == m
  {
    var idx := m.0 * 12 + (m.1 - 1) - n;
    assert idx == idx / 12 * 12 + idx % 12;
    if ValidDate(today) {
      MonthIndexInjective(PrevMonth(today), SubMonths((today.year, today.month), 1));
    }
    if IsMonth(m) {
      MonthIndexInjective(SubMonths(AddMonth(m), 1), m);
    }
  }

  lemma {:induction false} MonthIndexInjective(a: Month, b: Month)
    requires IsMonth(a) && IsMonth(b) && MonthIndex(a) == MonthIndex(b)
    ensures a == b
  {
  }

  function StepBack(m: Month): Month {
    if m.1 - 1 == 0 then (m.0 - 1, 12) else (m.0, m.1 - 1)
  }

  function Walk(m: Month, k: nat): Month {
    if k == 0 then m else StepBack(Walk(m, k - 1))
  }

  /** The step-by-step walk is the closed form. */
  lemma {:induction false} WalkIsSubMonths(m: Month, k: nat)
    requires 1 <= m.1 <= 13 && k >= 1
    ensures Walk(m, k) == SubMonths(m, k)
    ensures IsMonth(Walk(m, k)) && MonthIndex(Walk(m, k)) == MonthIndex(m) - k
  {
    MonthArithmetic(m, k, Date(1, 1, 1));
    assert Walk(m, 0) == m;
    assert Walk(m, k) == StepBack(Walk(m, k - 1));
    if k > 1 {
      WalkIsSubMonths(m, k - 1);
    }
    MonthIndexInjective(Walk(m, k), SubMonths(m, k));
  }

  /** The n months before the given one. */
  predicate InWindow(before: Month, n: int, key: Month) {
    IsMonth(key) && 1 <= MonthIndex(before) - MonthIndex(key) <= n
  }

  // ---------- the transactions ----------

  datatype TxRow = TxRow(
    user: string,
    date: Date,
    amount: real,
    currency: string,
    kind: string,
    category: Option<string>)

  datatype BudgetRow = BudgetRow(
    amount: real,
    currency: string,
    kind: string,
    category: Option<string>,
    dayOfMonth: int)

  function Project(r: TxRow): BudgetRow {
    BudgetRow(r.amount, r.currency, r.kind, r.category, r.date.day)
  }

  function MonthOf(d: Date): Month {
    (d.year, d.month)
  }

  function FirstDay(m: Month): Date { Date(m.0, m.1, 1) }

  function LastDay(m: Month): Date { Date(m.0, m.1, DaysIn(m.0, m.1)) }

  /** What `date(year, month, 1)` accepts. */
  predicate Representable(m: Month) {
    1 <= m.0 <= 9999 && IsMonth(m)
  }

  function InRange(table: seq<TxRow>, user: string, first: Date, last: Date): seq<TxRow> {
    if table == [] then []
    else
      var r := table[|table| - 1];
      InRange(table[..|table| - 1], user, first, last)
      + (if r.user == user && NotAfter(first, r.date) && NotAfter(r.date, last) then [r] else [])
  }

  /** The reference: the user's rows dated in this month, by year and month number. */
  function MonthRows(table: seq<TxRow>, user: string, m: Month): seq<BudgetRow> {
    if table == [] then []
    else
      var r := table[|table| - 1];
      MonthRows(table[..|table| - 1], user, m) + (if r.user == user && MonthOf(r.date) == m then [Project(r)] else [])
  }

  /** The rows of a scan that fall into one bucket, in scan order. */
  function Bucket(raw: seq<TxRow>, m: Month): seq<BudgetRow> {
    if raw == [] then []
    else
      var r := raw[|raw| - 1];
      Bucket(raw[..|raw| - 1], m) + (if MonthOf(r.date) == m then [Project(r)] else [])
  }

  /** One more row of the table is one more row of its owner's month, with these fields. */
  lemma {:induction false} OneMoreRow(table: seq<TxRow>, r: TxRow, user: string, m: Month)
    ensures MonthRows(table + [r], user, m)
         == MonthRows(table, user, m)
            + if r.user == user && r.date.year == m.0 && r.date.month == m.1
              then [BudgetRow(r.amount, r.currency, r.kind, r.category, r.date.day)] else []
    ensures table == [] ==> MonthRows(table, user, m) == []
  {
    assert (table + [r])[..|table|] == table;
  }

  predicate ValidDates(rows: seq<TxRow>) {
    forall k :: 0 <= k < |rows| ==> ValidDate(rows[k].date)
  }

  // ---------- ranges of days and ranges of months ----------

  /** The days from the first of one month to the last of another are exactly the days of
      the months between them. */
  lemma {:induction false} RangeIsMonths(d: Date, earliest: Month, latest: Month)
    requires ValidDate(d) && Representable(earliest) && Representable(latest)
    ensures NotAfter(FirstDay(earliest), d) && NotAfter(d, LastDay(latest))
       <==> MonthIndex(earliest) <= MonthIndex(MonthOf(d)) <= MonthIndex(latest)
  {
  }

  // ---------- one scan, many buckets ----------

  lemma {:induction false} BucketAppend(a: seq<TxRow>, b: seq<TxRow>, m: Month)
    ensures Bucket(a + b, m) == Bucket(a, m) + Bucket(b, m)
  {
    if b == [] {
      assert a + b == a;
    } else {
      assert (a + b)[..|a + b| - 1] == a + b[..|b| - 1];
      BucketAppend(a, b[..|b| - 1], m);
    }
  }

  lemma {:induction false} BucketWithout(b: seq<TxRow>, i: nat, m: Month) returns (rest: seq<TxRow>)
    requires i < |b|
    ensures |rest| == |b| - 1 && multiset(b) == multiset(rest) + multiset{b[i]}
    ensures multiset(Bucket(b, m)) == multiset(Bucket(rest, m)) + multiset(Bucket([b[i]], m))
  {
    rest := b[..i] + b[i + 1..];
    assert b == b[..i] + ([b[i]] + b[i + 1..]);
    BucketAppend(b[..i], [b[i]] + b[i + 1..], m);
    BucketAppend([b[i]], b[i + 1..], m);
    BucketAppend(b[..i], b[i + 1..], m);
  }

  /** The database may return the rows in any order. */
  lemma {:induction false} BucketOfPermutation(a: seq<TxRow>, b: seq<TxRow>, m: Month)
    requires multiset(a) == multiset(b)
    ensures multiset(Bucket(a, m)) == multiset(Bucket(b, m))
    decreases |a|
  {
    if a == [] {
      assert |b| == |multiset(b)| == 0;
    } else {
      assert a[0] in multiset(b);
      var i :| 0 <= i < |b| && b[i] == a[0];
      var a' := BucketWithout(a, 0, m);
      var b' := BucketWithout(b, i, m);
      Cancel(multiset(a'), multiset(b'), a[0]);
      BucketOfPermutation(a', b', m);
    }
  }

  /** Bucketing a range scan that covers the month loses and adds nothing. */
  lemma {:induction false} BucketOfRange(table: seq<TxRow>, user: string, earliest: Month, latest: Month, m: Month)
    requires ValidDates(table) && Representable(earliest) && Representable(latest) && IsMonth(m)
    requires MonthIndex(earliest) <= MonthIndex(m) <= MonthIndex(latest)
    ensures Bucket(InRange(table, user, FirstDay(earliest), LastDay(latest)), m) == MonthRows(table, user, m)
  {
    if table != [] {
      var n := |table| - 1;
      var r := table[n];
      BucketOfRange(table[..n], user, earliest, latest, m);
      RangeIsMonths(r.date, earliest, latest);
      var front := InRange(table[..n], user, FirstDay(earliest), LastDay(latest));
      var mine := if MonthOf(r.date) == m then [Project(r)] else [];
      assert Bucket([r], m) == Bucket([r][..0], m) + mine == mine;
      BucketAppend(front, [r], m);
      if r.user == user && MonthIndex(earliest) <= MonthIndex(MonthOf(r.date)) <= MonthIndex(latest) {
        assert InRange(table, user, FirstDay(earliest), LastDay(latest)) == front + [r];
      } else {
        assert InRange(table, user, FirstDay(earliest), LastDay(latest)) == front + [] == front;
      }
    }
  }

  /** One range scan over many months refines one scan per month: whatever order either
      scan came in, the bucket of a month holds exactly that month's scan. */
  lemma {:induction false} RangeScanRefinesMonthScans(table: seq<TxRow>, user: string, earliest: Month,
      latest: Month, m: Month, range: seq<TxRow>, month: seq<TxRow>)
    requires ValidDates(table) && Representable(earliest) && Representable(latest) && Representable(m)
    requires MonthIndex(earliest) <= MonthIndex(m) <= MonthIndex(latest)
    requires multiset(range) == multiset(InRange(table, user, FirstDay(earliest), LastDay(latest)))
    requires multiset(month) == multiset(InRange(table, user, FirstDay(m), LastDay(m)))
    ensures multiset(Bucket(range, m)) == multiset(Bucket(month, m)) == multiset(MonthRows(table, user, m))
  {
    BucketOfPermutation(range, InRange(table, user, FirstDay(earliest), LastDay(latest)), m);
    BucketOfPermutation(month, InRange(table, user, FirstDay(m), LastDay(m)), m);
    BucketOfRange(table, user, earliest, latest, m);
    BucketOfRange(table, user, m, m, m);
  }

  lemma {:induction false} ScanHoldsOnly(table: seq<TxRow>, user: string, first: Date, last: Date, r: TxRow)
    requires r in InRange(table, user, first, last)
    ensures r in table && r.user == user && NotAfter(first, r.date) && NotAfter(r.date, last)
  {
    var n := |table| - 1;
    if r in InRange(table[..n], user, first, last) {
      ScanHoldsOnly(table[..n], user, first, last, r);
    }
  }

  // ---------- the reader ----------

  datatype Error = InvalidDate | NoMonths

  class BudgetSummaryReader {
    var table: seq<TxRow>

    ghost predicate Valid()
      reads this
    {
      ValidDates(table)
    }

    constructor (rows: seq<TxRow>)
      requires ValidDates(rows)
      ensures table == rows && Valid()
    {
      table := rows;
    }

    /** The database query; nothing is promised about the order of its rows. */
    method Fetch(user: string, first: Date, last: Date) returns (rows: seq<TxRow>)
      ensures multiset(rows) == multiset(InRange(table, user, first, last))
    {
      rows := [];
      assert table[..0] == [];
      for n := 0 to |table|
        invariant rows == InRange(table[..n], user, first, last)
      {
        assert table[..n + 1][..n] == table[..n];
        var r := table[n];
        if r.user == user && NotAfter(first, r.date) && NotAfter(r.date, last) { rows := rows + [r]; }
      }
      assert table[..|table|] == table;
    }

    method ReadMonth(user: string, m: Month) returns (r: Result<seq<BudgetRow>, Error>)
      requires Valid()
      ensures r.Err? <==> !(1 <= m.0 <= 9999 && 1 <= m.1 <= 12)
      ensures r.Ok? ==> multiset(r.value) == multiset(MonthRows(table, user, m))
    {
      if !Representable(m) { return Err(InvalidDate); }
      var raw := Fetch(user, FirstDay(m), LastDay(m));
      var rows := [];
      assert raw[..0] == [];
      for n := 0 to |raw|
        invariant rows == Bucket(raw[..n], m)
      {
        assert raw[..n + 1][..n] == raw[..n];
        assert raw[n] in multiset(raw);
        ScanHoldsOnly(table, user, FirstDay(m), LastDay(m), raw[n]);
        RangeIsMonths(raw[n].date, m, m);
        MonthIndexInjective(MonthOf(raw[n].date), m);
        rows := rows + [Project(raw[n])];
      }
      assert raw[..|raw|] == raw;
      RangeScanRefinesMonthScans(table, user, m, m, m, raw, raw);
      r := Ok(rows);
    }

    method WalkBack(m: Month, n: nat) returns (months: seq<Month>)
      ensures |months| == n && forall k :: 0 <= k < n ==> months[k] == Walk(m, k + 1)
    {
      months := [];
      var year, month := m.0, m.1;
      for i := 0 to n
        invariant |months| == i && forall k :: 0 <= k < i ==> months[k] == Walk(m, k + 1)
        invariant (year, month) == Walk(m, i)
      {
        month := month - 1;
        if month == 0 {
          month := 12;
          year := year - 1;
        }
        months := months + [(year, month)];
      }
    }

    /** The n months before the given one, in one scan. */
    method ReadHistoryMonths(user: string, before: Month, n: int) returns (r: Result<map<Month, seq<BudgetRow>>, Error>)
      requires Valid()
      ensures n == 0 ==> r == Ok(map[])
      ensures r.Err? <==> n < 0 || (n > 0 && !(Representable(Walk(before, n)) && Representable(Walk(before, 1))))
      ensures r.Ok? && n > 0 ==>
                && (forall key: Month :: key in r.value <==>
                      1 <= key.1 <= 12 && 1 <= (12 * before.0 + before.1) - (12 * key.0 + key.1) <= n)
                && (forall key :: key in r.value ==> multiset(r.value[key]) == multiset(MonthRows(table, user, key)))
    {
      if n == 0 { return Ok(map[]); }
      if n < 0 { return Err(NoMonths); }
      var months := WalkBack(before, n);
      var earliest, latest := months[n - 1], months[0];
      if !Representable(earliest) || !Representable(latest) { return Err(InvalidDate); }
      var raw := Fetch(user, FirstDay(earliest), LastDay(latest));
      var result := FillBuckets(months, raw);
      KeysAreWindow(before, n, months);
      forall key: Month ensures InWindow(before, n, key) <==>
          1 <= key.1 <= 12 && 1 <= (12 * before.0 + before.1) - (12 * key.0 + key.1) <= n {
      }
      WalkIsSubMonths(before, n);
      WalkIsSubMonths(before, 1);
      forall key | key in result ensures multiset(result[key]) == multiset(MonthRows(table, user, key)) {
        BucketOfPermutation(raw, InRange(table, user, FirstDay(earliest), LastDay(latest)), key);
        BucketOfRange(table, user, earliest, latest, key);
      }
      r := Ok(result);
    }
  }

  method FillBuckets(months: seq<Month>, raw: seq<TxRow>) returns (result: map<Month, seq<BudgetRow>>)
    ensures forall key :: key in result <==> key in months
    ensures forall key :: key in result ==> result[key] == Bucket(raw, key)
  {
    result := map m | m in months :: [];
    assert raw[..0] == [];
    for n := 0 to |raw|
      invariant forall key :: key in result <==> key in months
      invariant forall key :: key in result ==> result[key] == Bucket(raw[..n], key)
    {
      assert raw[..n + 1][..n] == raw[..n];
      var key := MonthOf(raw[n].date);
      if key in result {
        result := result[key := result[key] + [Project(raw[n])]];
      }
    }
    assert raw[..|raw|] == raw;
  }

  lemma {:induction false} KeysAreWindow(before: Month, n: nat, months: seq<Month>)
    requires n >= 1 && |months| == n && forall k :: 0 <= k < n ==> months[k] == Walk(before, k + 1)
    requires Representable(months[0])
    ensures 1 <= before.1 <= 13
    ensures forall key :: key in months <==> InWindow(before, n, key)
  {
    FirstStep(before);
    forall key ensures key in months <==> InWindow(before, n, key) {
      KeyIsInWindow(before, n, months, key);
    }
  }

  lemma {:induction false} KeyIsInWindow(before: Month, n: nat, months: seq<Month>, key: Month)
    requires 1 <= before.1 <= 13
    requires n >= 1 && |months| == n && forall k :: 0 <= k < n ==> months[k] == Walk(before, k + 1)
    ensures key in months <==> InWindow(before, n, key)
  {
    if key in months {
      var i :| 0 <= i < n && months[i] == key;
      WalkIsSubMonths(before, i + 1);
    }
    if InWindow(before, n, key) {
      var k := MonthIndex(before) - MonthIndex(key);
      WalkIsSubMonths(before, k);
      MonthIndexInjective(key, Walk(before, k));
      assert months[k - 1] in months;
    }
  }

  lemma {:induction false} FirstStep(before: Month)
    requires Representable(Walk(before, 1))
    ensures 1 <= before.1 <= 13
  {
    assert Walk(before, 1) == StepBack(Walk(before, 0));
  }

  /** Every row of the range scan has a bucket: the `if key in result` guard never drops one. */
  lemma {:induction false} NoRowIsDropped(table: seq<TxRow>, user: string, before: Month, n: nat, r: TxRow)
    requires ValidDates(table) && n >= 1
    requires Representable(Walk(before, n)) && Representable(Walk(before, 1))
    requires r in InRange(table, user, FirstDay(Walk(before, n)), LastDay(Walk(before, 1)))
    ensures InWindow(before, n, MonthOf(r.date))
  {
    ScanHoldsOnly(table, user, FirstDay(Walk(before, n)), LastDay(Walk(before, 1)), r);
    FirstStep(before);
    WalkIsSubMonths(before, n);
    WalkIsSubMonths(before, 1);
    RangeIsMonths(r.date, Walk(before, n), Walk(before, 1));
  }
}
