/**
 * The finance page: the spending totals, the monthly spending chart, the
 * entry form (new entry or edit of an existing one, with the total price
 * filled in from the selected item) and deletion of entries.
 *
 * "Today" and fresh ids come from the clock in the page; here they are
 * parameters. The item catalogue the form reads is a parameter as well.
 */
module FinancialSummary {
  import opened Common
  import opened Types
  import opened StableSort
  import DummyData

  // ---------------------------------------------------------------------
  // Totals

  function TxPrice(tx: FinancialTransaction): int
  {
    tx.totalPrice
  }

  /** `transactions.reduce((sum, t) => sum + t.totalPrice, 0)`. */
  function TotalSpent(txs: seq<FinancialTransaction>): int
  {
    SumOf(txs, TxPrice)
  }

  /** The transactions dated exactly `day` (string equality, no parsing). */
  function OnDate(day: string): FinancialTransaction -> bool
  {
    (tx: FinancialTransaction) => tx.date == day
  }

  function TotalSpentToday(txs: seq<FinancialTransaction>, today: string): int
  {
    SumOf(Filter(txs, OnDate(today)), TxPrice)
  }

  /** Recording one more transaction adds its price to the total. */
  lemma TotalSpentAppend(txs: seq<FinancialTransaction>, tx: FinancialTransaction)
    ensures TotalSpent(txs + [tx]) == TotalSpent(txs) + tx.totalPrice
  {
    assert (txs + [tx])[..|txs|] == txs;
  }

  /** Today's total counts a new transaction exactly when it is dated today. */
  lemma TotalSpentTodayAppend(txs: seq<FinancialTransaction>, tx: FinancialTransaction, today: string)
    ensures TotalSpentToday(txs + [tx], today)
            == TotalSpentToday(txs, today) + (if tx.date == today then tx.totalPrice else 0)
  {
    FilterSnoc(txs, tx, OnDate(today));
    SumOfAppend(Filter(txs, OnDate(today)), if tx.date == today then [tx] else [], TxPrice);
  }

  /** With non-negative prices, today's spending is part of the overall spending. */
  lemma {:induction false} TodayWithinTotal(txs: seq<FinancialTransaction>, today: string)
    requires forall i :: 0 <= i < |txs| ==> txs[i].totalPrice >= 0
    ensures 0 <= TotalSpentToday(txs, today) <= TotalSpent(txs)
  {
    if txs != [] {
      var n := |txs| - 1;
      TodayWithinTotal(txs[..n], today);
      assert txs == txs[..n] + [txs[n]];
      TotalSpentAppend(txs[..n], txs[n]);
      TotalSpentTodayAppend(txs[..n], txs[n], today);
    }
  }

  /** When every transaction is from today, both totals agree. */
  lemma AllToday(txs: seq<FinancialTransaction>, today: string)
    requires forall i :: 0 <= i < |txs| ==> txs[i].date == today
    ensures TotalSpentToday(txs, today) == TotalSpent(txs)
  {
    FilterAll(txs, OnDate(today));
  }

  // ---------------------------------------------------------------------
  // Months

  const MonthNames: seq<string> :=
    ["Jan", "Fev", "Mar", "Abr", "Mai", "Jun", "Jul", "Ago", "Set", "Out", "Nov", "Dez"]

  predicate IsDigit(c: char)
  {
    '0' <= c <= '9'
  }

  function DigitValue(c: char): int
  {
    c as int - '0' as int
  }

  /** A date of the form "YYYY-MM-DD" with a month 01..12 and a day 01..31. */
  predicate WellFormedDate(date: string)
  {
    && |date| == 10
    && date[4] == '-' && date[7] == '-'
    && IsDigit(date[0]) && IsDigit(date[1]) && IsDigit(date[2]) && IsDigit(date[3])
    && IsDigit(date[5]) && IsDigit(date[6]) && IsDigit(date[8]) && IsDigit(date[9])
    && 1 <= 10 * DigitValue(date[5]) + DigitValue(date[6]) <= 12
    && 1 <= 10 * DigitValue(date[8]) + DigitValue(date[9]) <= 31
  }

  /**
   * `new Date(date).getMonth()`: the zero-based month of a well-formed date,
   * and -1 for a date that does not parse (where the page gets NaN).
   */
  function MonthIndex(date: string): (m: int)
    ensures -1 <= m < 12
    ensures m == -1 <==> !WellFormedDate(date)
  {
    if WellFormedDate(date) then 10 * DigitValue(date[5]) + DigitValue(date[6]) - 1 else -1
  }

  /** `monthNames[date.getMonth()]`: None stands for `undefined`. */
  function MonthName(date: string): Option<string>
  {
    var m := MonthIndex(date);
    if m >= 0 then Some(MonthNames[m]) else None
  }

  /** `monthNames.indexOf(name)`: the first position of the name, or -1. */
  function NameIndex(names: seq<string>, name: Option<string>): (r: int)
    ensures -1 <= r < |names|
    ensures r == -1 <==> name.None? || name.value !in names
    ensures r >= 0 ==> name == Some(names[r]) && forall j :: 0 <= j < r ==> names[j] != name.value
  {
    if name.None? then -1
    else match FirstIndex(names, (n: string) => n == name.value)
      case None => -1
      case Some(k) => k
  }

  /** The chart orders its entries by this key. */
  function MonthOrder(e: ChartEntry): int
  {
    NameIndex(MonthNames, e.name)
  }

  /** The year plays no part: dates with the same month field share a month. */
  lemma YearIgnored(d1: string, d2: string)
    requires WellFormedDate(d1) && WellFormedDate(d2)
    requires d1[5..7] == d2[5..7]
    ensures MonthName(d1) == MonthName(d2)
  {
    assert d1[5] == d1[5..7][0] && d1[6] == d1[5..7][1];
  }

  lemma MonthNamesDistinct()
    ensures forall i, j :: 0 <= i < j < |MonthNames| ==> MonthNames[i] != MonthNames[j]
  {
  }

  /** Looking the month name up again gives back the month index. */
  lemma MonthRoundTrip(date: string)
    ensures NameIndex(MonthNames, MonthName(date)) == MonthIndex(date)
  {
    var m := MonthIndex(date);
    if m >= 0 {
      MonthNamesDistinct();
      var r := NameIndex(MonthNames, MonthName(date));
      assert MonthNames[m] in MonthNames;
      assert MonthNames[r] == MonthNames[m];
    }
  }

  // ---------------------------------------------------------------------
  // The monthly roll-up
  //
  // The reduce groups the transactions by a label (for the chart, the month
  // name of the date). The grouping is stated for any groupOf, so that its
  // proofs do not depend on how dates are parsed.

  datatype ChartEntry = ChartEntry(name: Option<string>, total: int)

  function EntryTotal(e: ChartEntry): int
  {
    e.total
  }

  /** The label the chart groups by: the month name of the transaction's date. */
  function TxMonth(tx: FinancialTransaction): Option<string>
  {
    MonthName(tx.date)
  }

  /** `acc.find(m => m.name === name)`, as the position of the entry found. */
  function FindEntry(acc: seq<ChartEntry>, name: Option<string>): Option<nat>
  {
    FirstIndex(acc, (e: ChartEntry) => e.name == name)
  }

  /** One step of the reduce: add to the entry of the groupOf, or push a new entry for it. */
  function Accumulate(acc: seq<ChartEntry>, name: Option<string>, price: int): seq<ChartEntry>
  {
    match FindEntry(acc, name)
      case Some(k) => acc[k := acc[k].(total := acc[k].total + price)]
      case None => acc + [ChartEntry(name, price)]
  }

  /** The entries in order of first appearance, before the sort. */
  function Rollup(txs: seq<FinancialTransaction>, groupOf: FinancialTransaction -> Option<string>): seq<ChartEntry>
  {
    if txs == [] then []
    else
      var tx := txs[|txs| - 1];
      Accumulate(Rollup(txs[..|txs| - 1], groupOf), groupOf(tx), tx.totalPrice)
  }

  /** The chart: the month roll-up sorted (stably) by calendar month. */
  function MonthlyChart(txs: seq<FinancialTransaction>): seq<ChartEntry>
  {
    SortByKey(Rollup(txs, TxMonth), MonthOrder)
  }

  /** The chart data as the page builds it: a reduce that updates or pushes, then an in-place sort. */
  method ChartData(txs: seq<FinancialTransaction>) returns (chart: seq<ChartEntry>)
    ensures chart == MonthlyChart(txs)
  {
    var acc: seq<ChartEntry> := [];
    var i := 0;
    while i < |txs|
      invariant 0 <= i <= |txs|
      invariant acc == Rollup(txs[..i], TxMonth)
    {
      var name := TxMonth(txs[i]);
      var k := FindIndex(acc, name);
      if k < |acc| {
        acc := acc[k := acc[k].(total := acc[k].total + txs[i].totalPrice)];
      } else {
        acc := acc + [ChartEntry(name, txs[i].totalPrice)];
      }
      assert txs[..i + 1][..i] == txs[..i];
      i := i + 1;
    }
    assert txs[..|txs|] == txs;
    var a := new ChartEntry[|acc|](j requires 0 <= j < |acc| => acc[j]);
    assert a[..] == acc;
    SortInPlace(a, MonthOrder);
    chart := a[..];
  }

  /** The scan behind `acc.find`: the position of the first entry named `name`, or `|acc|`. */
  method FindIndex(acc: seq<ChartEntry>, name: Option<string>) returns (k: nat)
    ensures k <= |acc|
    ensures k < |acc| ==> FindEntry(acc, name) == Some(k)
    ensures k == |acc| ==> FindEntry(acc, name) == None
  {
    k := 0;
    while k < |acc| && acc[k].name != name
      invariant k <= |acc|
      invariant forall j :: 0 <= j < k ==> acc[j].name != name
    {
      k := k + 1;
    }
  }

  /** The transactions carrying label `name`. */
  function Labelled(groupOf: FinancialTransaction -> Option<string>, name: Option<string>): FinancialTransaction -> bool
  {
    (tx: FinancialTransaction) => groupOf(tx) == name
  }

  /** What is spent under one groupOf: for the chart, in one month, over all years. */
  function LabelTotal(txs: seq<FinancialTransaction>, groupOf: FinancialTransaction -> Option<string>, name: Option<string>): int
  {
    SumOf(Filter(txs, Labelled(groupOf, name)), TxPrice)
  }

  /** At most one entry per label. */
  predicate DistinctNames(acc: seq<ChartEntry>)
  {
    forall i, j :: 0 <= i < j < |acc| ==> acc[i].name != acc[j].name
  }

  /** Every entry holds the total of its label. */
  predicate HoldsTotals(acc: seq<ChartEntry>, txs: seq<FinancialTransaction>, groupOf: FinancialTransaction -> Option<string>)
  {
    forall k :: 0 <= k < |acc| ==> acc[k].total == LabelTotal(txs, groupOf, acc[k].name)
  }

  /** The names of the entries. */
  function NamesOf(acc: seq<ChartEntry>): set<Option<string>>
  {
    set e | e in acc :: e.name
  }

  /** The labels that occur among the transactions. */
  function LabelsOf(txs: seq<FinancialTransaction>, groupOf: FinancialTransaction -> Option<string>): set<Option<string>>
  {
    set tx | tx in txs :: groupOf(tx)
  }

  lemma LabelTotalSnoc(txs: seq<FinancialTransaction>, tx: FinancialTransaction,
                       groupOf: FinancialTransaction -> Option<string>, name: Option<string>)
    ensures LabelTotal(txs + [tx], groupOf, name)
            == LabelTotal(txs, groupOf, name) + (if groupOf(tx) == name then tx.totalPrice else 0)
  {
    FilterSnoc(txs, tx, Labelled(groupOf, name));
    SumOfAppend(Filter(txs, Labelled(groupOf, name)), if groupOf(tx) == name then [tx] else [], TxPrice);
  }

  /** A label that no transaction carries totals 0. */
  lemma LabelTotalAbsent(txs: seq<FinancialTransaction>, groupOf: FinancialTransaction -> Option<string>, name: Option<string>)
    requires forall i :: 0 <= i < |txs| ==> groupOf(txs[i]) != name
    ensures LabelTotal(txs, groupOf, name) == 0
  {
    FilterNone(txs, Labelled(groupOf, name));
  }

  lemma AccumulateTotals(acc: seq<ChartEntry>, txs: seq<FinancialTransaction>,
                         groupOf: FinancialTransaction -> Option<string>, tx: FinancialTransaction)
    requires DistinctNames(acc) && HoldsTotals(acc, txs, groupOf) && NamesOf(acc) == LabelsOf(txs, groupOf)
    ensures HoldsTotals(Accumulate(acc, groupOf(tx), tx.totalPrice), txs + [tx], groupOf)
  {
    var name := groupOf(tx);
    var r := Accumulate(acc, name, tx.totalPrice);
    match FindEntry(acc, name)
      case Some(f) =>
        forall k | 0 <= k < |r| ensures r[k].total == LabelTotal(txs + [tx], groupOf, r[k].name) {
          LabelTotalSnoc(txs, tx, groupOf, r[k].name);
          if k != f {
            assert r[k] == acc[k] && acc[k].name != acc[f].name;
          }
        }
      case None =>
        forall k | 0 <= k < |r| ensures r[k].total == LabelTotal(txs + [tx], groupOf, r[k].name) {
          LabelTotalSnoc(txs, tx, groupOf, r[k].name);
          if k == |acc| {
            NewLabelAbsent(acc, txs, groupOf, name);
          }
        }
  }

  /** A label with no entry yet has total 0 so far. */
  lemma NewLabelAbsent(acc: seq<ChartEntry>, txs: seq<FinancialTransaction>,
                       groupOf: FinancialTransaction -> Option<string>, name: Option<string>)
    requires NamesOf(acc) == LabelsOf(txs, groupOf)
    requires forall k :: 0 <= k < |acc| ==> acc[k].name != name
    ensures LabelTotal(txs, groupOf, name) == 0
  {
    assert name !in NamesOf(acc);
    forall i | 0 <= i < |txs| ensures groupOf(txs[i]) != name {
      assert groupOf(txs[i]) in LabelsOf(txs, groupOf);
    }
    LabelTotalAbsent(txs, groupOf, name);
  }

  lemma AccumulateDistinct(acc: seq<ChartEntry>, name: Option<string>, price: int)
    requires DistinctNames(acc)
    ensures DistinctNames(Accumulate(acc, name, price))
  {
  }

  lemma AccumulateNames(acc: seq<ChartEntry>, name: Option<string>, price: int)
    ensures NamesOf(Accumulate(acc, name, price)) == NamesOf(acc) + {name}
  {
    var r := Accumulate(acc, name, price);
    match FindEntry(acc, name)
      case Some(k) =>
        forall e | e in r ensures e.name in NamesOf(acc) {
          var j :| 0 <= j < |r| && r[j] == e;
          assert e.name == acc[j].name;
        }
        forall n | n in NamesOf(acc) ensures n in NamesOf(r) {
          var e :| e in acc && e.name == n;
          var j :| 0 <= j < |acc| && acc[j] == e;
          assert r[j].name == n;
        }
      case None =>
  }

  lemma LabelsSnoc(txs: seq<FinancialTransaction>, groupOf: FinancialTransaction -> Option<string>, tx: FinancialTransaction)
    ensures LabelsOf(txs + [tx], groupOf) == LabelsOf(txs, groupOf) + {groupOf(tx)}
  {
  }

  /** The roll-up has one entry per label that occurs, each holding that label's total. */
  lemma {:induction false} RollupSummarises(txs: seq<FinancialTransaction>, groupOf: FinancialTransaction -> Option<string>)
    ensures var acc := Rollup(txs, groupOf);
      DistinctNames(acc) && HoldsTotals(acc, txs, groupOf) && NamesOf(acc) == LabelsOf(txs, groupOf)
  {
    if txs != [] {
      var n := |txs| - 1;
      var tx := txs[n];
      var acc := Rollup(txs[..n], groupOf);
      RollupSummarises(txs[..n], groupOf);
      assert txs == txs[..n] + [tx];
      AccumulateTotals(acc, txs[..n], groupOf, tx);
      AccumulateDistinct(acc, groupOf(tx), tx.totalPrice);
      AccumulateNames(acc, groupOf(tx), tx.totalPrice);
      LabelsSnoc(txs[..n], groupOf, tx);
    }
  }

  lemma AccumulateSum(acc: seq<ChartEntry>, name: Option<string>, price: int)
    ensures SumOf(Accumulate(acc, name, price), EntryTotal) == SumOf(acc, EntryTotal) + price
  {
    match FindEntry(acc, name)
      case Some(k) =>
        SumOfUpdate(acc, k, acc[k].(total := acc[k].total + price), EntryTotal);
      case None =>
        var e := ChartEntry(name, price);
        assert (acc + [e])[..|acc|] == acc;
  }

  /** The entries of the roll-up add up to the overall total. */
  lemma {:induction false} RollupSum(txs: seq<FinancialTransaction>, groupOf: FinancialTransaction -> Option<string>)
    ensures SumOf(Rollup(txs, groupOf), EntryTotal) == TotalSpent(txs)
  {
    if txs != [] {
      var n := |txs| - 1;
      RollupSum(txs[..n], groupOf);
      AccumulateSum(Rollup(txs[..n], groupOf), groupOf(txs[n]), txs[n].totalPrice);
    }
  }

  /** Entries for distinct months of real dates, and the undated entry, have distinct sort keys. */
  lemma RollupKeysDistinct(txs: seq<FinancialTransaction>)
    requires DistinctNames(Rollup(txs, TxMonth)) && NamesOf(Rollup(txs, TxMonth)) == LabelsOf(txs, TxMonth)
    ensures var acc := Rollup(txs, TxMonth);
      forall i, j :: 0 <= i < j < |acc| ==> MonthOrder(acc[i]) != MonthOrder(acc[j])
  {
    var acc := Rollup(txs, TxMonth);
    forall i, j | 0 <= i < j < |acc| ensures MonthOrder(acc[i]) != MonthOrder(acc[j]) {
      assert acc[i].name in LabelsOf(txs, TxMonth);
      assert acc[j].name in LabelsOf(txs, TxMonth);
      var a :| a in txs && TxMonth(a) == acc[i].name;
      var b :| b in txs && TxMonth(b) == acc[j].name;
      MonthRoundTrip(a.date);
      MonthRoundTrip(b.date);
    }
  }

  /** Sorting the roll-up keeps its entries. */
  lemma ChartEntries(txs: seq<FinancialTransaction>)
    ensures multiset(MonthlyChart(txs)) == multiset(Rollup(txs, TxMonth))
    ensures forall e :: e in MonthlyChart(txs) <==> e in Rollup(txs, TxMonth)
  {
    var acc := Rollup(txs, TxMonth);
    var c := MonthlyChart(txs);
    SortByKeySorted(acc, MonthOrder);
    forall e ensures e in c <==> e in acc {
      assert e in c <==> e in multiset(c);
      assert e in acc <==> e in multiset(acc);
    }
  }

  /** The chart runs in strictly ascending calendar order, whatever the order of the transactions. */
  lemma ChartOrdered(txs: seq<FinancialTransaction>)
    ensures var c := MonthlyChart(txs);
      forall i, j :: 0 <= i < j < |c| ==> MonthOrder(c[i]) < MonthOrder(c[j])
  {
    RollupSummarises(txs, TxMonth);
    RollupKeysDistinct(txs);
    SortByKeyStrict(Rollup(txs, TxMonth), MonthOrder);
  }

  /**
   * The chart has one entry per month in which something was spent (and one
   * for unparsable dates, if any); each holds that month's total over all years.
   */
  lemma ChartTotals(txs: seq<FinancialTransaction>)
    ensures HoldsTotals(MonthlyChart(txs), txs, TxMonth)
    ensures NamesOf(MonthlyChart(txs)) == LabelsOf(txs, TxMonth)
  {
    var acc := Rollup(txs, TxMonth);
    var c := MonthlyChart(txs);
    RollupSummarises(txs, TxMonth);
    ChartEntries(txs);
    SameEntries(c, acc, txs, TxMonth);
  }

  /** Two entry lists with the same elements have the same names and hold the same totals. */
  lemma SameEntries(c: seq<ChartEntry>, acc: seq<ChartEntry>, txs: seq<FinancialTransaction>,
                    groupOf: FinancialTransaction -> Option<string>)
    requires forall e :: e in c <==> e in acc
    requires HoldsTotals(acc, txs, groupOf)
    ensures HoldsTotals(c, txs, groupOf) && NamesOf(c) == NamesOf(acc)
  {
    forall k | 0 <= k < |c| ensures c[k].total == LabelTotal(txs, groupOf, c[k].name) {
      assert c[k] in acc;
      var j :| 0 <= j < |acc| && acc[j] == c[k];
    }
  }

  /** The chart's entries add up to the overall total. */
  lemma ChartSum(txs: seq<FinancialTransaction>)
    ensures SumOf(MonthlyChart(txs), EntryTotal) == TotalSpent(txs)
  {
    RollupSum(txs, TxMonth);
    ChartEntries(txs);
    SumOfPermutation(MonthlyChart(txs), Rollup(txs, TxMonth), EntryTotal);
  }

  /**
   * Two April transactions (R$ 100 and R$ 25) around a May one (R$ 50) chart
   * as April 125 followed by May 50.
   */
  lemma ChartExample(a: FinancialTransaction, b: FinancialTransaction, c: FinancialTransaction)
    requires a.date == "2023-04-15" && a.totalPrice == 10000
    requires b.date == "2023-05-01" && b.totalPrice == 5000
    requires c.date == "2023-04-20" && c.totalPrice == 2500
    ensures MonthlyChart([a, b, c]) == [ChartEntry(Some("Abr"), 12500), ChartEntry(Some("Mai"), 5000)]
  {
    ExampleMonths(a.date, b.date, c.date);
    MonthRoundTrip(a.date);
    MonthRoundTrip(b.date);
    ExampleRollup(a, b, c, TxMonth, MonthOrder);
  }

  lemma ExampleMonths(d1: string, d2: string, d3: string)
    requires d1 == "2023-04-15" && d2 == "2023-05-01" && d3 == "2023-04-20"
    ensures MonthIndex(d1) == 3 && MonthIndex(d2) == 4 && MonthIndex(d3) == 3
    ensures MonthName(d1) == Some("Abr") && MonthName(d2) == Some("Mai") && MonthName(d3) == Some("Abr")
  {
  }

  /** Grouping three transactions labelled x, y, x and sorting the groups by a key that puts x first. */
  lemma ExampleRollup(a: FinancialTransaction, b: FinancialTransaction, c: FinancialTransaction,
                      groupOf: FinancialTransaction -> Option<string>, key: ChartEntry -> int)
    requires groupOf(a) == Some("Abr") && groupOf(b) == Some("Mai") && groupOf(c) == Some("Abr")
    requires a.totalPrice == 10000 && b.totalPrice == 5000 && c.totalPrice == 2500
    requires key(ChartEntry(Some("Abr"), 12500)) < key(ChartEntry(Some("Mai"), 5000))
    ensures SortByKey(Rollup([a, b, c], groupOf), key) == [ChartEntry(Some("Abr"), 12500), ChartEntry(Some("Mai"), 5000)]
  {
    var april := ChartEntry(Some("Abr"), 12500);
    var may := ChartEntry(Some("Mai"), 5000);
    assert [a, b, c][..2] == [a, b] && [a, b][..1] == [a] && [a][..0] == [];
    assert Rollup([a], groupOf) == [ChartEntry(Some("Abr"), 10000)];
    assert Rollup([a, b], groupOf) == [ChartEntry(Some("Abr"), 10000), may];
    assert Rollup([a, b, c], groupOf) == [april, may];
    assert [april, may][..1] == [april] && [april][..0] == [];
  }

  /**
   * The page opens on the fixture ledger: 1602,50 spent, charted as
   * March 500,00 (coffee) before April 1102,50 (rice, beans, sugar).
   */
  lemma FixtureChart(txs: seq<FinancialTransaction>)
    requires txs == DummyData.Transactions
    ensures TotalSpent(txs) == 160250
    ensures MonthlyChart(txs) == [ChartEntry(Some("Mar"), 50000), ChartEntry(Some("Abr"), 110250)]
  {
    FixtureMonths(txs[0].date, txs[1].date, txs[2].date, txs[3].date);
    MonthRoundTrip(txs[0].date);
    MonthRoundTrip(txs[3].date);
    assert txs == [txs[0], txs[1], txs[2], txs[3]];
    FixtureRollup(txs[0], txs[1], txs[2], txs[3], TxMonth);
    SortTwo(ChartEntry(Some("Abr"), 110250), ChartEntry(Some("Mar"), 50000), MonthOrder);
  }

  lemma FixtureMonths(d1: string, d2: string, d3: string, d4: string)
    requires d1 == "2023-04-15" && d2 == "2023-04-20" && d3 == "2023-04-10" && d4 == "2023-03-30"
    ensures MonthIndex(d1) == 3 && MonthIndex(d4) == 2
    ensures MonthName(d1) == Some("Abr") && MonthName(d2) == Some("Abr")
    ensures MonthName(d3) == Some("Abr") && MonthName(d4) == Some("Mar")
  {
  }

  /** Grouping four transactions labelled x, x, x, y: one group for x, then one for y. */
  lemma FixtureRollup(a: FinancialTransaction, b: FinancialTransaction, c: FinancialTransaction, d: FinancialTransaction,
                      groupOf: FinancialTransaction -> Option<string>)
    requires groupOf(a) == Some("Abr") && groupOf(b) == Some("Abr") && groupOf(c) == Some("Abr")
    requires groupOf(d) == Some("Mar")
    requires a.totalPrice == 55000 && b.totalPrice == 36250 && c.totalPrice == 19000 && d.totalPrice == 50000
    ensures SumOf([a, b, c, d], TxPrice) == 160250
    ensures Rollup([a, b, c, d], groupOf) == [ChartEntry(Some("Abr"), 110250), ChartEntry(Some("Mar"), 50000)]
  {
    assert [a, b, c, d][..3] == [a, b, c];
    assert [a, b, c][..2] == [a, b];
    assert [a, b][..1] == [a];
    assert [a][..0] == [];
    assert Rollup([a], groupOf) == [ChartEntry(Some("Abr"), 55000)];
    assert Rollup([a, b], groupOf) == [ChartEntry(Some("Abr"), 91250)];
    assert Rollup([a, b, c], groupOf) == [ChartEntry(Some("Abr"), 110250)];
    assert SumOf([a], TxPrice) == 55000;
    assert SumOf([a, b], TxPrice) == 91250;
    assert SumOf([a, b, c], TxPrice) == 110250;
  }

  /** Two entries out of key order swap places. */
  lemma SortTwo(x: ChartEntry, y: ChartEntry, key: ChartEntry -> int)
    requires key(y) < key(x)
    ensures SortByKey([x, y], key) == [y, x]
  {
    assert [x, y][..1] == [x];
    assert [x][..0] == [];
    assert SortByKey([x], key) == [x];
    assert InsertBy(y, [x], key) == InsertBy(y, [], key) + [x];
  }

  // ---------------------------------------------------------------------
  // The entry form

  /** The form's initial contents: dated today, nothing else filled in. */
  function EmptyDraft(today: string): TransactionFields
  {
    TransactionFields(today, "", 0, 0, Some(""))
  }

  /** The save button's check: date and item chosen, quantity and total price non-zero. */
  predicate CanSave(d: TransactionFields)
  {
    d.date != "" && d.itemId != "" && d.quantity != 0 && d.totalPrice != 0
  }

  /** The form edits an existing entry only with edit mode on and a non-empty editing id. */
  predicate EditsExisting(isEditing: bool, editingId: Option<string>)
  {
    isEditing && editingId.Some? && editingId.value != ""
  }

  /** `transactions.map(t => t.id === id ? { ...t, ...draft, id } : t)`. */
  function EditTransactions(txs: seq<FinancialTransaction>, id: string, d: TransactionFields): (r: seq<FinancialTransaction>)
    ensures |r| == |txs|
    ensures forall k :: 0 <= k < |r| ==> r[k].id == txs[k].id
    ensures forall k :: 0 <= k < |r| ==> if txs[k].id == id then FieldsOf(r[k]) == d else r[k] == txs[k]
  {
    seq(|txs|, k requires 0 <= k < |txs| => if txs[k].id == id then WithId(d, id) else txs[k])
  }

  /** The transactions after the save button: unchanged, edited in place, or one longer. */
  function SaveTransaction(txs: seq<FinancialTransaction>, d: TransactionFields,
                           isEditing: bool, editingId: Option<string>, freshId: string): seq<FinancialTransaction>
  {
    if !CanSave(d) then txs
    else if EditsExisting(isEditing, editingId) then EditTransactions(txs, editingId.value, d)
    else txs + [WithId(d, freshId)]
  }

  /** `transactions.filter(t => t.id !== id)`. */
  function DeleteTransaction(txs: seq<FinancialTransaction>, id: string): (r: seq<FinancialTransaction>)
    ensures forall k :: 0 <= k < |r| ==> r[k].id != id
    ensures forall k :: 0 <= k < |txs| && txs[k].id != id ==> txs[k] in r
  {
    Filter(txs, (t: FinancialTransaction) => t.id != id)
  }

  /**
   * The total price the form fills in when the item or the quantity changes:
   * unit price times quantity when the item is in the catalogue and the
   * quantity is non-zero, and 0 otherwise.
   */
  function AutoTotalPrice(catalogue: seq<Item>, itemId: string, quantity: int): (r: int)
    ensures FindItem(catalogue, itemId).Some? && quantity != 0 ==> r == FindItem(catalogue, itemId).value.unitPrice * quantity
    ensures FindItem(catalogue, itemId).None? || quantity == 0 ==> r == 0
  {
    match FindItem(catalogue, itemId)
      case Some(item) => if quantity != 0 then item.unitPrice * quantity else 0
      case None => 0
  }

  /** A save with a form that fails the check changes nothing. */
  lemma SaveRejected(txs: seq<FinancialTransaction>, d: TransactionFields,
                     isEditing: bool, editingId: Option<string>, freshId: string)
    requires d.date == "" || d.itemId == "" || d.quantity == 0 || d.totalPrice == 0
    ensures SaveTransaction(txs, d, isEditing, editingId, freshId) == txs
  {
  }

  /** Outside edit mode a valid form appends exactly one transaction, with the fresh id, at the end. */
  lemma SaveAppends(txs: seq<FinancialTransaction>, d: TransactionFields,
                    isEditing: bool, editingId: Option<string>, freshId: string)
    requires CanSave(d) && !EditsExisting(isEditing, editingId)
    ensures var r := SaveTransaction(txs, d, isEditing, editingId, freshId);
      && |r| == |txs| + 1 && r[..|txs|] == txs
      && r[|txs|].id == freshId && FieldsOf(r[|txs|]) == d
      && TotalSpent(r) == TotalSpent(txs) + d.totalPrice
  {
    var r := SaveTransaction(txs, d, isEditing, editingId, freshId);
    assert r == txs + [WithId(d, freshId)];
    TotalSpentAppend(txs, WithId(d, freshId));
  }

  /**
   * In edit mode the entry with the editing id takes the form's fields and
   * keeps its id; with that id unique, the total moves by the price difference.
   */
  lemma SaveEdits(txs: seq<FinancialTransaction>, d: TransactionFields,
                  editingId: string, freshId: string, k: nat)
    requires CanSave(d) && editingId != ""
    requires k < |txs| && txs[k].id == editingId
    requires forall j :: 0 <= j < |txs| && j != k ==> txs[j].id != editingId
    ensures var r := SaveTransaction(txs, d, true, Some(editingId), freshId);
      && r == txs[k := WithId(d, editingId)]
      && TotalSpent(r) == TotalSpent(txs) - txs[k].totalPrice + d.totalPrice
  {
    var r := SaveTransaction(txs, d, true, Some(editingId), freshId);
    assert r == txs[k := WithId(d, editingId)];
    SumOfUpdate(txs, k, WithId(d, editingId), TxPrice);
  }

  /** Saving the same edit twice is the same as saving it once. */
  lemma EditIdempotent(txs: seq<FinancialTransaction>, id: string, d: TransactionFields)
    ensures EditTransactions(EditTransactions(txs, id, d), id, d) == EditTransactions(txs, id, d)
  {
  }

  /** Deleting keeps every other entry with its multiplicity and drops every entry with the id. */
  lemma DeleteExact(txs: seq<FinancialTransaction>, id: string, t: FinancialTransaction)
    ensures multiset(DeleteTransaction(txs, id))[t] == if t.id == id then 0 else multiset(txs)[t]
  {
    FilterCount(txs, (t: FinancialTransaction) => t.id != id, t);
  }

  /** Deleting an id that no entry carries changes nothing. */
  lemma DeleteAbsent(txs: seq<FinancialTransaction>, id: string)
    requires forall k :: 0 <= k < |txs| ==> txs[k].id != id
    ensures DeleteTransaction(txs, id) == txs
  {
    FilterAll(txs, (t: FinancialTransaction) => t.id != id);
  }

  /** The auto-filled price passes the save check exactly when item, quantity and unit price are all there. */
  lemma AutoPriceSavable(catalogue: seq<Item>, itemId: string, quantity: int)
    ensures AutoTotalPrice(catalogue, itemId, quantity) != 0
            <==> FindItem(catalogue, itemId).Some? && quantity != 0 && FindItem(catalogue, itemId).value.unitPrice != 0
  {
  }

  // ---------------------------------------------------------------------
  // The page state

  class FinancialSummaryPage {
    var transactions: seq<FinancialTransaction>
    var draft: TransactionFields
    var dialogOpen: bool
    var isEditing: bool
    var editingId: Option<string>

    constructor(initial: seq<FinancialTransaction>, today: string)
      ensures transactions == initial && draft == EmptyDraft(today)
      ensures !dialogOpen && !isEditing && editingId == None
    {
      transactions := initial;
      draft := EmptyDraft(today);
      dialogOpen := false;
      isEditing := false;
      editingId := None;
    }

    /** The save button: rejected with a message, or saved and the form reset and closed. */
    method HandleAddTransaction(freshId: string, today: string)
      modifies this
      ensures transactions == SaveTransaction(old(transactions), old(draft), old(isEditing), old(editingId), freshId)
      ensures CanSave(old(draft)) ==> draft == EmptyDraft(today) && !dialogOpen && !isEditing && editingId == None
      ensures !CanSave(old(draft)) ==> draft == old(draft) && dialogOpen == old(dialogOpen)
                                       && isEditing == old(isEditing) && editingId == old(editingId)
    {
      if !CanSave(draft) {
        return;
      }
      if isEditing && editingId.Some? && editingId.value != "" {
        transactions := EditTransactions(transactions, editingId.value, draft);
      } else {
        transactions := transactions + [WithId(draft, freshId)];
      }
      draft := EmptyDraft(today);
      dialogOpen := false;
      isEditing := false;
      editingId := None;
    }

    /** The edit button of a row: the form opens in edit mode holding that entry's fields. */
    method StartEdit(t: FinancialTransaction)
      modifies this
      ensures isEditing && editingId == Some(t.id) && draft == FieldsOf(t) && dialogOpen
      ensures transactions == old(transactions)
    {
      isEditing := true;
      editingId := Some(t.id);
      draft := FieldsOf(t);
      dialogOpen := true;
    }

    /** The delete button of a row; `confirmed` is the answer to the confirmation dialog. */
    method Delete(id: string, confirmed: bool)
      modifies this
      ensures transactions == if confirmed then DeleteTransaction(old(transactions), id) else old(transactions)
      ensures draft == old(draft) && dialogOpen == old(dialogOpen)
      ensures isEditing == old(isEditing) && editingId == old(editingId)
    {
      if confirmed {
        transactions := DeleteTransaction(transactions, id);
      }
    }

    /** Choosing an item refills the total price from the catalogue. */
    method SelectItem(catalogue: seq<Item>, itemId: string)
      modifies this
      ensures draft == old(draft).(itemId := itemId,
                                   totalPrice := AutoTotalPrice(catalogue, itemId, old(draft).quantity))
      ensures transactions == old(transactions) && dialogOpen == old(dialogOpen)
      ensures isEditing == old(isEditing) && editingId == old(editingId)
    {
      draft := draft.(itemId := itemId, totalPrice := AutoTotalPrice(catalogue, itemId, draft.quantity));
    }

    /** Typing a quantity refills the total price from the catalogue. */
    method SetQuantity(catalogue: seq<Item>, quantity: int)
      modifies this
      ensures draft == old(draft).(quantity := quantity,
                                   totalPrice := AutoTotalPrice(catalogue, old(draft).itemId, quantity))
      ensures transactions == old(transactions) && dialogOpen == old(dialogOpen)
      ensures isEditing == old(isEditing) && editingId == old(editingId)
    {
      draft := draft.(quantity := quantity, totalPrice := AutoTotalPrice(catalogue, draft.itemId, quantity));
    }

    /** Typing a total price overrides the filled-in one. */
    method SetTotalPrice(totalPrice: int)
      modifies this
      ensures draft == old(draft).(totalPrice := totalPrice)
      ensures transactions == old(transactions) && dialogOpen == old(dialogOpen)
      ensures isEditing == old(isEditing) && editingId == old(editingId)
    {
      draft := draft.(totalPrice := totalPrice);
    }
  }
}
