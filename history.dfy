/**
 * Transaction history for the bot's /history command
 * (app/services/transaction_services.py): the time window of a named
 * period, the query filter, and the text summary with totals and the last
 * five transactions. Dates are rendered by a calendar function outside the
 * model; amounts use Python's comma thousands grouping.
 */
module History {
  import opened Wrappers
  import opened Text

  const SecondsPerDay: int := 86400

  /** A row of the transaction table as the reporting code reads it. */
  datatype StoredTx = StoredTx(
    userId: int,
    intent: string,
    amount: int,
    category: string,
    note: Option<string>,
    txDate: Option<int>,
    createdAt: int)

  /** `tx.txDate or tx.createdAt` */
  function ShownDate(t: StoredTx): int {
    t.txDate.GetOr(t.createdAt)
  }

  /** A query window with its label. */
  datatype Window = Window(start: int, end: int, periodLabel: string)

  /** `_get_period_range`: any other period raises ValueError. */
  function PeriodRange(period: string, now: int): (r: Result<Window, string>)
    ensures r.Ok? <==> period in {"today", "week", "month", "year"}
    ensures r.Ok? ==> r.value.end == now && r.value.start <= now
    ensures period == "today" ==> r.value.start % SecondsPerDay == 0 && now - r.value.start < SecondsPerDay
    ensures period == "week" ==> r.value.start == now - 7 * SecondsPerDay
    ensures period == "month" ==> r.value.start == now - 30 * SecondsPerDay
    ensures period == "year" ==> r.value.start == now - 365 * SecondsPerDay
  {
    if period == "today" then Ok(Window(now - now % SecondsPerDay, now, "harian (hari ini)"))
    else if period == "week" then Ok(Window(now - 7 * SecondsPerDay, now, "mingguan (7 hari terakhir)"))
    else if period == "month" then Ok(Window(now - 30 * SecondsPerDay, now, "bulanan (30 hari terakhir)"))
    else if period == "year" then Ok(Window(now - 365 * SecondsPerDay, now, "tahunan (365 hari terakhir)"))
    else Err("Unknown period: " + period)
  }

  /** The `where` of `get_transactions_for_period`: the direction narrows only when it is income or expense. */
  predicate Selected(t: StoredTx, userId: int, r: Window, direction: Option<string>) {
    && t.userId == userId
    && r.start <= t.createdAt <= r.end
    && (direction.Some? && direction.value in {"income", "expense"} ==> t.intent == direction.value)
  }

  /** The rows of a table that `keep` accepts, in table order. */
  function Filter(table: seq<StoredTx>, keep: StoredTx -> bool): (rows: seq<StoredTx>)
    ensures forall t :: t in rows <==> t in table && keep(t)
    ensures |rows| <= |table|
  {
    if table == [] then []
    else
      var rest := Filter(table[1..], keep);
      if keep(table[0]) then [table[0]] + rest else rest
  }

  /** Filtering a table is filtering its two halves and joining the results: order and repeats are kept. */
  lemma {:induction false} FilterAppend(a: seq<StoredTx>, b: seq<StoredTx>, keep: StoredTx -> bool)
    ensures Filter(a + b, keep) == Filter(a, keep) + Filter(b, keep)
  {
    if a == [] {
      assert [] + b == b;
    } else {
      assert (a + b)[0] == a[0] && (a + b)[1..] == a[1..] + b;
      FilterAppend(a[1..], b, keep);
    }
  }

  /** Appending an accepted row appends it to the result. */
  lemma FilterKeeps(table: seq<StoredTx>, t: StoredTx, keep: StoredTx -> bool)
    requires keep(t)
    ensures Filter(table + [t], keep) == Filter(table, keep) + [t]
  {
    FilterAppend(table, [t], keep);
    assert Filter([t], keep) == [t] + Filter([t][1..], keep);
  }

  /** Appending a rejected row leaves the result unchanged. */
  lemma FilterSkips(table: seq<StoredTx>, t: StoredTx, keep: StoredTx -> bool)
    requires !keep(t)
    ensures Filter(table + [t], keep) == Filter(table, keep)
  {
    FilterAppend(table, [t], keep);
    assert Filter([t], keep) == Filter([t][1..], keep);
  }

  /** Two tests that agree on every row select the same rows. */
  lemma {:induction false} FilterAgree(table: seq<StoredTx>, k1: StoredTx -> bool, k2: StoredTx -> bool)
    requires forall t :: t in table ==> k1(t) == k2(t)
    ensures Filter(table, k1) == Filter(table, k2)
  {
    if table != [] {
      assert table[0] in table;
      FilterAgree(table[1..], k1, k2);
    }
  }

  /** The rows the query returns: the rows of the table it selects, in table (creation) order. */
  function Query(table: seq<StoredTx>, userId: int, r: Window, direction: Option<string>): (rows: seq<StoredTx>)
    ensures forall k :: 0 <= k < |rows| ==> Selected(rows[k], userId, r, direction)
    ensures forall k :: 0 <= k < |table| && Selected(table[k], userId, r, direction) ==> table[k] in rows
    ensures |rows| <= |table|
  {
    var rows := Filter(table, (t: StoredTx) => Selected(t, userId, r, direction));
    assert forall k :: 0 <= k < |rows| ==> rows[k] in rows;
    rows
  }

  /** Any direction other than income or expense returns the same rows as none. */
  lemma OtherDirectionIgnored(table: seq<StoredTx>, userId: int, r: Window, direction: string)
    requires direction !in {"income", "expense"}
    ensures Query(table, userId, r, Some(direction)) == Query(table, userId, r, None)
  {
    FilterAgree(table, (t: StoredTx) => Selected(t, userId, r, Some(direction)), (t: StoredTx) => Selected(t, userId, r, None));
  }

  /** The sum of the amounts of the transactions with this intent. */
  function SumIntent(txs: seq<StoredTx>, intent: string): int {
    if txs == [] then 0
    else SumIntent(txs[..|txs| - 1], intent) + (if txs[|txs| - 1].intent == intent then txs[|txs| - 1].amount else 0)
  }

  /** The sum of the amounts of the transactions that are neither income nor expense. */
  function SumOther(txs: seq<StoredTx>): int {
    if txs == [] then 0
    else SumOther(txs[..|txs| - 1]) + (if txs[|txs| - 1].intent !in {"income", "expense"} then txs[|txs| - 1].amount else 0)
  }

  /** The sum of all amounts. */
  function SumAll(txs: seq<StoredTx>): int {
    if txs == [] then 0 else SumAll(txs[..|txs| - 1]) + txs[|txs| - 1].amount
  }

  /** Income, expense and the rest partition the amounts. */
  lemma {:induction false} SumsPartition(txs: seq<StoredTx>)
    ensures SumIntent(txs, "income") + SumIntent(txs, "expense") + SumOther(txs) == SumAll(txs)
  {
    if txs != [] {
      SumsPartition(txs[..|txs| - 1]);
    }
  }

  /** Python's `f"{x:,.0f}"` on an integer amount. */
  function Money(x: int): string {
    Group(x, ",")
  }

  /** The 24-character rule under the title. */
  const Rule: string := "━━━━━━━━━━━━━━━━━━━━━━━━"

  /** The totals block and the heading of the recent list. */
  function Header(periodLabel: string, txs: seq<StoredTx>): seq<string> {
    var income := SumIntent(txs, "income");
    var expense := SumIntent(txs, "expense");
    [ "Ringkasan transaksi " + periodLabel + ":",
      Rule,
      "Jumlah transaksi: " + IntToString(|txs|),
      "Total Pemasukan: Rp " + Money(income),
      "Total Pengeluaran: Rp " + Money(expense),
      "Net: Rp " + Money(income - expense),
      "",
      "Transaksi terakhir:" ]
  }

  /** One listed transaction: "+" for income, "-" for anything else. */
  function TxLine(t: StoredTx, dateStr: int -> string): string {
    "  " + (if t.intent == "income" then "+" else "-") + " " + dateStr(ShownDate(t)) + ": Rp " + Money(t.amount) + " [" + t.category + "]"
  }

  /** How many transactions are listed: the last five at most. */
  function RecentCount(n: nat): (k: nat)
    ensures k <= n && k <= 5 && (k == n || k == 5)
  {
    if n < 5 then n else 5
  }

  /** `txs[-5:]` rendered. */
  function RecentLines(txs: seq<StoredTx>, dateStr: int -> string): (lines: seq<string>)
    ensures |lines| == RecentCount(|txs|)
    ensures forall i :: 0 <= i < |lines| ==> lines[i] == TxLine(txs[|txs| - |lines| + i], dateStr)
  {
    var k := RecentCount(|txs|);
    seq(k, i requires 0 <= i < k => TxLine(txs[|txs| - k + i], dateStr))
  }

  /** `build_history_summary` */
  function HistorySummary(periodLabel: string, txs: seq<StoredTx>, dateStr: int -> string): string {
    if txs == [] then "Tidak ada transaksi untuk periode " + periodLabel + "."
    else Join("\n", Header(periodLabel, txs) + RecentLines(txs, dateStr))
  }

  /** `build_history_summary`, appending the recent lines one by one. */
  method BuildHistorySummary(periodLabel: string, txs: seq<StoredTx>, dateStr: int -> string) returns (text: string)
    ensures text == HistorySummary(periodLabel, txs, dateStr)
  {
    if txs == [] {
      return "Tidak ada transaksi untuk periode " + periodLabel + ".";
    }
    var lines := Header(periodLabel, txs);
    lines := AppendRecent(lines, txs, dateStr);
    text := Join("\n", lines);
  }

  /** The `for tx in txs[-5:]` loop: one line per listed transaction after `head`. */
  method AppendRecent(head: seq<string>, txs: seq<StoredTx>, dateStr: int -> string) returns (lines: seq<string>)
    ensures lines == head + RecentLines(txs, dateStr)
  {
    lines := head;
    var start := |txs| - RecentCount(|txs|);
    for j := start to |txs|
      invariant lines == head + seq(j - start, i requires 0 <= i < j - start => TxLine(txs[start + i], dateStr))
    {
      lines := lines + [TxLine(txs[j], dateStr)];
    }
    assert lines == head + RecentLines(txs, dateStr);
  }

  /**
   * The summary lists exactly the last min(5, n) transactions, oldest
   * first, after eight lines of totals.
   */
  lemma HistoryListsRecent(periodLabel: string, txs: seq<StoredTx>, dateStr: int -> string, i: nat)
    requires txs != [] && i < RecentCount(|txs|)
    ensures HistorySummary(periodLabel, txs, dateStr) == Join("\n", Header(periodLabel, txs) + RecentLines(txs, dateStr))
    ensures |Header(periodLabel, txs) + RecentLines(txs, dateStr)| == 8 + RecentCount(|txs|)
    ensures (Header(periodLabel, txs) + RecentLines(txs, dateStr))[8 + i] == TxLine(txs[|txs| - RecentCount(|txs|) + i], dateStr)
  {
    var h, r := Header(periodLabel, txs), RecentLines(txs, dateStr);
    HeaderLength(periodLabel, txs);
    AfterHeader(h, r, i);
    assert r[i] == TxLine(txs[|txs| - RecentCount(|txs|) + i], dateStr);
  }

  lemma HeaderLength(periodLabel: string, txs: seq<StoredTx>)
    ensures |Header(periodLabel, txs)| == 8
  {
  }

  lemma AfterHeader(h: seq<string>, r: seq<string>, i: nat)
    requires |h| == 8 && i < |r|
    ensures |h + r| == 8 + |r| && (h + r)[8 + i] == r[i]
  {
  }

  /** A listed transaction is marked "+" exactly when it is income. */
  lemma IncomeMarked(t: StoredTx, dateStr: int -> string)
    ensures |TxLine(t, dateStr)| >= 3
    ensures TxLine(t, dateStr)[..3] == (if t.intent == "income" then "  +" else "  -")
    ensures TxLine(t, dateStr)[..3] == "  +" <==> t.intent == "income"
  {
    var line := TxLine(t, dateStr);
    var mark := if t.intent == "income" then "  +" else "  -";
    assert line[..3] == mark by {
      forall k | 0 <= k < 3 ensures line[k] == mark[k] { }
    }
    assert "  +"[2] != "  -"[2];
  }

  /** Net in the summary is income minus expense; a transaction with another intent counts in neither. */
  lemma HistoryTotals(periodLabel: string, txs: seq<StoredTx>, t: StoredTx)
    requires t.intent !in {"income", "expense"}
    ensures SumIntent(txs + [t], "income") == SumIntent(txs, "income")
    ensures SumIntent(txs + [t], "expense") == SumIntent(txs, "expense")
    ensures Header(periodLabel, txs + [t])[3..6] == Header(periodLabel, txs)[3..6]
  {
    assert (txs + [t])[..|txs|] == txs;
  }
}
