/**
  What the page derives from the ledger: the balance polarity that colours
  the balance (`updateBalance`) and the rows of the transaction list, newest
  first (`displayTransactions`). Rows are records here, not HTML.
*/
module View {
  import opened Transactions
  import opened Formatter

  /** The colour the balance is shown in. */
  datatype Polarity = Green | Red

  /** Green for a balance of zero or more, red below zero. */
  function BalancePolarity(balance: real): (p: Polarity)
    ensures p == Green <==> balance >= 0.0
    ensures p == Red <==> balance < 0.0
  {
    if balance >= 0.0 then Green else Red
  }

  /** An income with a positive amount never turns a green balance red. */
  lemma IncomeKeepsGreen(ts: seq<Transaction>, t: Transaction)
    requires SignMatchesType(t) && t.kind == Income
    requires BalancePolarity(CalculateBalance(ts)) == Green
    ensures BalancePolarity(CalculateBalance(ts + [t])) == Green
  {
    BalanceAppend(ts, t);
  }

  /** An expense with a negative amount never turns a red balance green. */
  lemma ExpenseKeepsRed(ts: seq<Transaction>, t: Transaction)
    requires SignMatchesType(t) && t.kind != Income
    requires BalancePolarity(CalculateBalance(ts)) == Red
    ensures BalancePolarity(CalculateBalance(ts + [t])) == Red
  {
    BalanceAppend(ts, t);
  }

  /**
    One row of the list: the icon, the category and date, the amount shown
    as a prefix, a magnitude and the currency symbol, the type (which picks
    the amount's colour), and the large-entry flag.
  */
  datatype Row = Row(
    icon: string,
    category: string,
    date: string,
    prefix: string,
    magnitude: real,
    currency: string,
    kind: string,
    large: bool)

  /** The row derived from one entry. */
  function RowOf(t: Transaction, currency: string): (row: Row)
    ensures row.magnitude >= 0.0
    ensures row.prefix == "+" <==> t.amount >= 0.0
    ensures row.large <==> row.magnitude >= LargeThreshold
    ensures row.icon == CategoryIcon(t.category)
    ensures row.category == t.category && row.date == t.date && row.kind == t.kind && row.currency == currency
  {
    Row(CategoryIcon(t.category), t.category, t.date, AmountPrefix(t.amount), Abs(t.amount),
        currency, t.kind, IsLarge(t.amount))
  }

  /** The signed amount a reader recovers from a row's prefix and magnitude. */
  function ShownAmount(row: Row): real
  {
    if row.prefix == "+" then row.magnitude else -row.magnitude
  }

  /** Prefix and magnitude together lose nothing: they give back the stored amount. */
  lemma RowShowsStoredAmount(t: Transaction, currency: string)
    ensures ShownAmount(RowOf(t, currency)) == t.amount
  {
  }

  /**
    For an entry whose sign matches its type, the `'+'` prefix marks exactly
    the incomes, so the missing minus sign on expenses loses nothing.
  */
  lemma RowPrefixMarksIncome(t: Transaction, currency: string)
    requires SignMatchesType(t)
    ensures RowOf(t, currency).prefix == "+" <==> t.kind == Income
  {
  }

  /** The `map` step: one row per entry, in ledger order. */
  function MapRows(ts: seq<Transaction>, currency: string): seq<Row>
  {
    seq(|ts|, i requires 0 <= i < |ts| => RowOf(ts[i], currency))
  }

  /** The `reverse` step: last element first. */
  function Reverse(rows: seq<Row>): seq<Row>
    decreases |rows|
  {
    if rows == [] then [] else [rows[|rows| - 1]] + Reverse(rows[..|rows| - 1])
  }

  lemma {:induction false} ReverseAt(rows: seq<Row>)
    ensures |Reverse(rows)| == |rows|
    ensures forall i :: 0 <= i < |rows| ==> Reverse(rows)[i] == rows[|rows| - 1 - i]
    decreases |rows|
  {
    if rows != [] {
      ReverseAt(rows[..|rows| - 1]);
    }
  }

  /** The rows of the transaction list, newest first. */
  function DisplayRows(ts: seq<Transaction>, currency: string): seq<Row>
  {
    Reverse(MapRows(ts, currency))
  }

  /**
    One row per entry, in reverse order: row `i` is derived from entry
    `n - 1 - i`, so the newest entry comes first.
  */
  lemma DisplayRowsNewestFirst(ts: seq<Transaction>, currency: string)
    ensures |DisplayRows(ts, currency)| == |ts|
    ensures forall i :: 0 <= i < |ts| ==> DisplayRows(ts, currency)[i] == RowOf(ts[|ts| - 1 - i], currency)
  {
    ReverseAt(MapRows(ts, currency));
  }

  /** After an append, the new entry's row heads the list and the old rows follow unchanged. */
  lemma DisplayRowsAfterAppend(ts: seq<Transaction>, t: Transaction, currency: string)
    ensures DisplayRows(ts + [t], currency) == [RowOf(t, currency)] + DisplayRows(ts, currency)
  {
    var rows := MapRows(ts + [t], currency);
    assert rows[..|rows| - 1] == MapRows(ts, currency);
  }

  /** The seed ledger: balance 28500 in green, the Food expense first, the Deposit income second. */
  lemma SeedLedgerView(currency: string)
    ensures CalculateBalance(SeedTransactions) == 28500.0
    ensures BalancePolarity(CalculateBalance(SeedTransactions)) == Green
    ensures var rows := DisplayRows(SeedTransactions, currency);
      && |rows| == 2
      && rows[0].category == "Food" && rows[0].prefix == "" && rows[0].magnitude == 1500.0 && !rows[0].large
      && rows[1].category == "Deposit" && rows[1].prefix == "+" && rows[1].magnitude == 30000.0 && rows[1].large
  {
    var deposit, food := SeedTransactions[0], SeedTransactions[1];
    assert [] + [deposit] == [deposit] && [deposit] + [food] == SeedTransactions;
    BalanceAppend([], deposit);
    BalanceAppend([deposit], food);
    DisplayRowsNewestFirst(SeedTransactions, currency);
  }
}
