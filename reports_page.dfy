/** The reports page: revenue, expenses, profit and transaction count over a
    date range, the sales per day and the number of sales per payment method. */
module ReportsPage {
  import opened Common
  import opened Types
  import opened Seqs

  function SaleTotal(s: Sale): real
  {
    s.record.total
  }

  function ExpenseAmount(e: Expense): real
  {
    e.amount
  }

  /** `totalRevenue`: every loaded sale counts, whatever its status. */
  function Revenue(sales: seq<Sale>): real
  {
    SumReal(sales, SaleTotal)
  }

  function ExpenseTotal(expenses: seq<Expense>): real
  {
    SumReal(expenses, ExpenseAmount)
  }

  function Profit(sales: seq<Sale>, expenses: seq<Expense>): (p: real)
    ensures p + ExpenseTotal(expenses) == Revenue(sales)
  {
    Revenue(sales) - ExpenseTotal(expenses)
  }

  predicate Completed(s: Sale)
  {
    s.record.status == "completed"
  }

  predicate NotCompleted(s: Sale)
  {
    s.record.status != "completed"
  }

  /** Refunded sales are not taken out: the revenue is the completed sales'
      totals plus the others'. */
  lemma RevenueIncludesRefunds(sales: seq<Sale>)
    ensures Revenue(sales) == SumReal(Keep(sales, Completed), SaleTotal) + SumReal(Keep(sales, NotCompleted), SaleTotal)
  {
    SumKeepSplit(sales, SaleTotal, Completed, NotCompleted);
  }

  /** The margin line, only when there is revenue: profit as a percentage of it. */
  function Margin(sales: seq<Sale>, expenses: seq<Expense>): (m: Option<real>)
    ensures m.Some? <==> Revenue(sales) > 0.0
    ensures m.Some? ==> m.value * Revenue(sales) == Profit(sales, expenses) * 100.0
  {
    if Revenue(sales) > 0.0 then Some(Profit(sales, expenses) / Revenue(sales) * 100.0) else None
  }

  /** The average sale, only when there is a transaction ('0.00' is shown otherwise). */
  function Average(sales: seq<Sale>): (a: Option<real>)
    ensures a.Some? <==> |sales| > 0
    ensures a.Some? ==> a.value * (|sales| as real) == Revenue(sales)
  {
    if |sales| > 0 then Some(Revenue(sales) / (|sales| as real)) else None
  }

  /** The bounds of the sales query: from the first second of the start day to
      the last second of the end day. Expenses are queried by the plain dates. */
  function SalesRange(startDate: string, endDate: string): (r: (string, string))
    ensures |r.0| == |startDate| + 9 && r.0[..|startDate|] == startDate && r.0[|startDate|..] == "T00:00:00"
    ensures |r.1| == |endDate| + 9 && r.1[..|endDate|] == endDate && r.1[|endDate|..] == "T23:59:59"
  {
    (startDate + "T00:00:00", endDate + "T23:59:59")
  }

  // ---------------------------------------------------------------------
  // Grouping into a JavaScript Map: `m.set(k, (m.get(k) || 0) + amount)`
  // for every element that has a key, in order.

  /** One `forEach` step: an element with a key adds its amount to that key. */
  function AddTo<T>(m: seq<(string, real)>, x: T, key: T -> Option<string>, amount: T -> real): seq<(string, real)>
  {
    match key(x)
    case None => m
    case Some(k) => Put(m, k, Lookup(m, k).GetOr(0.0) + amount(x))
  }

  function Grouped<T>(xs: seq<T>, key: T -> Option<string>, amount: T -> real): seq<(string, real)>
  {
    if xs == [] then [] else AddTo(Grouped(xs[..|xs| - 1], key, amount), xs[|xs| - 1], key, amount)
  }

  /** A step keeps the keys distinct and changes only the element's key. */
  lemma AddToLookup<T>(m: seq<(string, real)>, x: T, key: T -> Option<string>, amount: T -> real, k: string)
    requires DistinctKeys(m)
    ensures DistinctKeys(AddTo(m, x, key, amount))
    ensures Lookup(AddTo(m, x, key, amount), k) ==
      if key(x) == Some(k) then Some(Lookup(m, k).GetOr(0.0) + amount(x)) else Lookup(m, k)
  {
    if key(x).Some? {
      var k', v := key(x).value, Lookup(m, key(x).value).GetOr(0.0) + amount(x);
      var r := Put(m, k', v);
      assert AddTo(m, x, key, amount) == r;
      PutProperties(m, k', v);
      if k == k' {
        assert Lookup(r, k) == Some(v);
      } else {
        assert Lookup(r, k) == Lookup(m, k);
      }
    }
  }

  function KeyIs<T>(key: T -> Option<string>, k: string): T -> bool
  {
    (x: T) => key(x) == Some(k)
  }

  function HasKey<T>(key: T -> Option<string>): T -> bool
  {
    (x: T) => key(x).Some?
  }

  function Amount(entry: (string, real)): real
  {
    entry.1
  }

  lemma {:induction false} GroupedDistinct<T>(xs: seq<T>, key: T -> Option<string>, amount: T -> real)
    ensures DistinctKeys(Grouped(xs, key, amount))
  {
    if xs != [] {
      GroupedDistinct(xs[..|xs| - 1], key, amount);
      AddToLookup(Grouped(xs[..|xs| - 1], key, amount), xs[|xs| - 1], key, amount, "");
    }
  }

  /** Splitting off the last element of a filter and of a sum. */
  lemma KeepLast<T>(xs: seq<T>, p: T -> bool, f: T -> real)
    requires xs != []
    ensures Keep(xs, p) == Keep(xs[..|xs| - 1], p) + (if p(xs[|xs| - 1]) then [xs[|xs| - 1]] else [])
    ensures SumReal(Keep(xs, p), f) ==
      SumReal(Keep(xs[..|xs| - 1], p), f) + (if p(xs[|xs| - 1]) then f(xs[|xs| - 1]) else 0.0)
  {
    var init, x := xs[..|xs| - 1], xs[|xs| - 1];
    assert xs == init + [x];
    KeepAppend(init, [x], p);
    assert Keep([x], p) == (if p(x) then [x] else []) by {
      assert [x][1..] == [];
    }
    SumAppend(Keep(init, p), Keep([x], p), f);
    assert SumReal([x], f) == f(x) by {
      assert [x][1..] == [];
    }
  }

  /** The value under a key is the total amount of the elements with that key;
      a key is present exactly when some element has it. */
  lemma {:induction false} GroupedLookup<T>(xs: seq<T>, key: T -> Option<string>, amount: T -> real, k: string)
    ensures Lookup(Grouped(xs, key, amount), k) ==
      if Keep(xs, KeyIs(key, k)) == [] then None else Some(SumReal(Keep(xs, KeyIs(key, k)), amount))
  {
    if xs != [] {
      var init, x := xs[..|xs| - 1], xs[|xs| - 1];
      var m := Grouped(init, key, amount);
      GroupedLookup(init, key, amount, k);
      GroupedDistinct(init, key, amount);
      AddToLookup(m, x, key, amount, k);
      KeepLast(xs, KeyIs(key, k), amount);
    }
  }

  /** Putting a value under a key changes the sum of the values by the difference. */
  lemma SumPut(m: seq<(string, real)>, k: string, v: real)
    requires DistinctKeys(m)
    ensures SumReal(Put(m, k, v), Amount) == SumReal(m, Amount) - Lookup(m, k).GetOr(0.0) + v
  {
    match IndexOf(m, k)
    case Some(i) =>
      LookupUnique(m, k);
      SumUpdate(m, i, (k, v), Amount);
    case None =>
      SumAppend(m, [(k, v)], Amount);
      assert SumReal([(k, v)], Amount) == v by {
        assert [(k, v)][1..] == [];
      }
  }

  /** The values add up to the total amount of the elements that have a key. */
  lemma {:induction false} GroupedSum<T>(xs: seq<T>, key: T -> Option<string>, amount: T -> real)
    ensures SumReal(Grouped(xs, key, amount), Amount) == SumReal(Keep(xs, HasKey(key)), amount)
  {
    if xs != [] {
      var init, x := xs[..|xs| - 1], xs[|xs| - 1];
      var m := Grouped(init, key, amount);
      GroupedSum(init, key, amount);
      GroupedDistinct(init, key, amount);
      KeepLast(xs, HasKey(key), amount);
      match key(x)
      case None =>
      case Some(k) => SumPut(m, k, Lookup(m, k).GetOr(0.0) + amount(x));
    }
  }

  // ---------------------------------------------------------------------
  // The two charts.

  /** The day key of a sale with a creation time (`format(created_at, 'MMM dd')`,
      given as `dayKey`); a sale without one is skipped. */
  function DayKey(dayKey: Timestamp -> string): Sale -> Option<string>
  {
    (s: Sale) => if Truthy(s.createdAt) then Some(dayKey(s.createdAt.value)) else None
  }

  function MethodKey(s: Sale): Option<string>
  {
    Some(s.record.paymentMethod)
  }

  function One(s: Sale): real
  {
    1.0
  }

  /** `dailySalesMap`, built by the first `forEach`. */
  method DailySalesMap(sales: seq<Sale>, dayKey: Timestamp -> string) returns (m: seq<(string, real)>)
    ensures m == Grouped(sales, DayKey(dayKey), SaleTotal)
  {
    m := [];
    var i := 0;
    while i < |sales|
      invariant 0 <= i <= |sales|
      invariant m == Grouped(sales[..i], DayKey(dayKey), SaleTotal)
    {
      var sale := sales[i];
      assert sales[..i + 1][..i] == sales[..i];
      assert Grouped(sales[..i + 1], DayKey(dayKey), SaleTotal) == AddTo(m, sale, DayKey(dayKey), SaleTotal);
      assert DayKey(dayKey)(sale) == if Truthy(sale.createdAt) then Some(dayKey(sale.createdAt.value)) else None;
      if Truthy(sale.createdAt) {
        var day := dayKey(sale.createdAt.value);
        m := Put(m, day, Lookup(m, day).GetOr(0.0) + sale.record.total);
      }
      i := i + 1;
    }
    assert sales[..|sales|] == sales;
  }

  /** `paymentMethodMap`, built by the second `forEach`. */
  method PaymentMethodMap(sales: seq<Sale>) returns (m: seq<(string, real)>)
    ensures m == Grouped(sales, MethodKey, One)
  {
    m := [];
    var i := 0;
    while i < |sales|
      invariant 0 <= i <= |sales|
      invariant m == Grouped(sales[..i], MethodKey, One)
    {
      assert sales[..i + 1][..i] == sales[..i];
      assert Grouped(sales[..i + 1], MethodKey, One) == AddTo(m, sales[i], MethodKey, One);
      var payment := sales[i].record.paymentMethod;
      m := Put(m, payment, Lookup(m, payment).GetOr(0.0) + 1.0);
      i := i + 1;
    }
    assert sales[..|sales|] == sales;
  }

  predicate Dated(s: Sale)
  {
    Truthy(s.createdAt)
  }

  /** The daily bars: one per day, each the total of that day's dated sales;
      together they make up the revenue of the dated sales. */
  lemma DailySales(sales: seq<Sale>, dayKey: Timestamp -> string, day: string)
    ensures DistinctKeys(Grouped(sales, DayKey(dayKey), SaleTotal))
    ensures Lookup(Grouped(sales, DayKey(dayKey), SaleTotal), day) ==
      if Keep(sales, KeyIs(DayKey(dayKey), day)) == [] then None
      else Some(Revenue(Keep(sales, KeyIs(DayKey(dayKey), day))))
    ensures SumReal(Grouped(sales, DayKey(dayKey), SaleTotal), Amount) == Revenue(Keep(sales, Dated))
  {
    GroupedDistinct(sales, DayKey(dayKey), SaleTotal);
    GroupedLookup(sales, DayKey(dayKey), SaleTotal, day);
    GroupedSum(sales, DayKey(dayKey), SaleTotal);
    KeepSame(sales, HasKey(DayKey(dayKey)), Dated);
  }

  lemma {:induction false} SumOnes(xs: seq<Sale>)
    ensures SumReal(xs, One) == |xs| as real
  {
    if xs != [] {
      SumOnes(xs[1..]);
    }
  }

  /** The pie slices: one per payment method, each counting that method's sales. */
  lemma PaymentCounts(sales: seq<Sale>, payment: string)
    ensures DistinctKeys(Grouped(sales, MethodKey, One))
    ensures Lookup(Grouped(sales, MethodKey, One), payment) ==
      if Keep(sales, KeyIs(MethodKey, payment)) == [] then None
      else Some(|Keep(sales, KeyIs(MethodKey, payment))| as real)
  {
    GroupedDistinct(sales, MethodKey, One);
    GroupedLookup(sales, MethodKey, One, payment);
    SumOnes(Keep(sales, KeyIs(MethodKey, payment)));
  }

  /** Every slice counts at least one sale. */
  lemma PaymentCountsPositive(sales: seq<Sale>)
    ensures forall i :: 0 <= i < |Grouped(sales, MethodKey, One)| ==> Grouped(sales, MethodKey, One)[i].1 >= 1.0
  {
    var m := Grouped(sales, MethodKey, One);
    forall i | 0 <= i < |m|
      ensures m[i].1 >= 1.0
    {
      PaymentCounts(sales, m[i].0);
      LookupUnique(m, m[i].0);
    }
  }

  /** The counts add up to the number of sales: every sale has a method. */
  lemma PaymentCountsSum(sales: seq<Sale>)
    ensures SumReal(Grouped(sales, MethodKey, One), Amount) == |sales| as real
  {
    GroupedSum(sales, MethodKey, One);
    EverySaleHasMethod(sales);
    SumOnes(sales);
  }

  lemma EverySaleHasMethod(sales: seq<Sale>)
    ensures Keep(sales, HasKey(MethodKey)) == sales
  {
    KeepAll(sales, HasKey(MethodKey));
  }

  /** A slice's name: the method with its first character upper-cased
      (`upper` is `toUpperCase`) and the rest unchanged. */
  function Capitalize(payment: string, upper: string -> string): (r: string)
    ensures payment == "" ==> r == ""
    ensures payment != "" ==> r == upper(payment[..1]) + payment[1..]
  {
    if payment == "" then "" else upper(payment[..1]) + payment[1..]
  }

  datatype Slice = Slice(name: string, value: real)

  /** `paymentMethodData`: the map's entries in insertion order. */
  function Slices(m: seq<(string, real)>, upper: string -> string): (r: seq<Slice>)
    ensures |r| == |m|
    ensures forall i :: 0 <= i < |m| ==> r[i] == Slice(Capitalize(m[i].0, upper), m[i].1)
  {
    seq(|m|, i requires 0 <= i < |m| => Slice(Capitalize(m[i].0, upper), m[i].1))
  }

  /** The two range queries the page runs. */
  datatype Request = SalesBetween(from: string, to: string) | ExpensesBetween(from: string, to: string)

  datatype Notice = LoadFailed

  class ReportsPage {
    var sales: seq<Sale>
    var expenses: seq<Expense>
    var startDate: string
    var endDate: string
    var requests: seq<Request>
    var notices: seq<Notice>

    /** The range starts a week before `today` and ends on it. */
    constructor(weekAgo: string, today: string)
      ensures sales == [] && expenses == [] && startDate == weekAgo && endDate == today
      ensures requests == [] && notices == []
    {
      sales := [];
      expenses := [];
      startDate := weekAgo;
      endDate := today;
      requests := [];
      notices := [];
    }

    /** `loadData`: both queries run together; the page keeps both answers, or
        on any failure neither. */
    method LoadData(salesData: Option<seq<Sale>>, expensesData: Option<seq<Expense>>)
      modifies this
      ensures requests == old(requests) +
        [SalesBetween(SalesRange(startDate, endDate).0, SalesRange(startDate, endDate).1),
         ExpensesBetween(startDate, endDate)]
      ensures salesData.Some? && expensesData.Some? ==>
        sales == salesData.value && expenses == expensesData.value && notices == old(notices)
      ensures !(salesData.Some? && expensesData.Some?) ==>
        sales == old(sales) && expenses == old(expenses) && notices == old(notices) + [LoadFailed]
      ensures startDate == old(startDate) && endDate == old(endDate)
    {
      var range := SalesRange(startDate, endDate);
      requests := requests + [SalesBetween(range.0, range.1), ExpensesBetween(startDate, endDate)];
      if salesData.Some? && expensesData.Some? {
        sales := salesData.value;
        expenses := expensesData.value;
      } else {
        notices := notices + [LoadFailed];
      }
    }
  }
}
