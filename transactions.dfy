/**
  The transaction ledger of the finance tracker: what one entry holds, how
  `addTransaction` builds an entry from the form's inputs and appends it, and
  how `calculateBalance` folds the signed amounts into the balance.
*/
module Transactions {

  /** The type string the form submits for money coming in. */
  const Income: string := "income"
  /** The type string the form submits for money going out. */
  const Expense: string := "expense"

  /**
    One ledger entry. `kind` is the entry's type string and `amount` is signed
    by it: positive for income, negative for an expense. `id` and `date` come
    from the clock and the locale, so they are given, not computed.
  */
  datatype Transaction = Transaction(id: int, amount: real, category: string, kind: string, date: string)

  /** The two entries every fresh page starts with. */
  const SeedTransactions: seq<Transaction> := [
    Transaction(1, 30000.0, "Deposit", Income, "15/04/2025"),
    Transaction(2, -1500.0, "Food", Expense, "16/04/2025")
  ]

  /** The sign of the amount agrees with the type: income strictly above zero, anything else strictly below. */
  predicate SignMatchesType(t: Transaction)
  {
    if t.kind == Income then t.amount > 0.0 else t.amount < 0.0
  }

  predicate AllSignsMatch(ts: seq<Transaction>)
  {
    forall i :: 0 <= i < |ts| ==> SignMatchesType(ts[i])
  }

  /**
    The entry `addTransaction` builds: the amount is kept for an income and
    negated for any other type; every other field is copied.
  */
  function NewTransaction(amount: real, category: string, kind: string, id: int, date: string): Transaction
  {
    Transaction(id, if kind == Income then amount else -amount, category, kind, date)
  }

  /**
    For the positive amount the form is meant to supply, the new entry's sign
    is its type and its magnitude is the amount entered.
  */
  lemma NewTransactionSign(amount: real, category: string, kind: string, id: int, date: string)
    requires amount > 0.0
    ensures var t := NewTransaction(amount, category, kind, id, date);
      && SignMatchesType(t)
      && (t.amount > 0.0 <==> kind == Income)
      && (t.amount == amount || t.amount == -amount)
      && t.id == id && t.category == category && t.kind == kind && t.date == date
  {
  }

  /** `reduce((sum, t) => sum + t.amount, acc)`: a left fold from the oldest entry. */
  function FoldAmounts(acc: real, ts: seq<Transaction>): real
    decreases |ts|
  {
    if ts == [] then acc else FoldAmounts(acc + ts[0].amount, ts[1..])
  }

  /** The balance: the fold started from 0. */
  function CalculateBalance(ts: seq<Transaction>): real
  {
    FoldAmounts(0.0, ts)
  }

  /** Reference definition of the balance: the arithmetic sum of the signed amounts. */
  function SumAmounts(ts: seq<Transaction>): real
    decreases |ts|
  {
    if ts == [] then 0.0 else ts[0].amount + SumAmounts(ts[1..])
  }

  lemma {:induction false} FoldIsSum(acc: real, ts: seq<Transaction>)
    ensures FoldAmounts(acc, ts) == acc + SumAmounts(ts)
    decreases |ts|
  {
    if ts != [] {
      FoldIsSum(acc + ts[0].amount, ts[1..]);
    }
  }

  /** The balance is the sum of all stored amounts; an empty ledger balances to 0. */
  lemma CalculateBalanceIsSum(ts: seq<Transaction>)
    ensures CalculateBalance(ts) == SumAmounts(ts)
    ensures ts == [] ==> CalculateBalance(ts) == 0.0
  {
    FoldIsSum(0.0, ts);
  }

  lemma {:induction false} SumConcat(a: seq<Transaction>, b: seq<Transaction>)
    ensures SumAmounts(a + b) == SumAmounts(a) + SumAmounts(b)
    decreases |a|
  {
    if a != [] {
      assert (a + b)[1..] == a[1..] + b;
      SumConcat(a[1..], b);
    } else {
      assert a + b == b;
    }
  }

  /** Splitting the ledger anywhere splits the balance. */
  lemma BalanceConcat(a: seq<Transaction>, b: seq<Transaction>)
    ensures CalculateBalance(a + b) == CalculateBalance(a) + CalculateBalance(b)
  {
    CalculateBalanceIsSum(a + b);
    CalculateBalanceIsSum(a);
    CalculateBalanceIsSum(b);
    SumConcat(a, b);
  }

  /** Appending one entry moves the balance by exactly that entry's signed amount. */
  lemma BalanceAppend(ts: seq<Transaction>, t: Transaction)
    ensures CalculateBalance(ts + [t]) == CalculateBalance(ts) + t.amount
  {
    BalanceConcat(ts, [t]);
    assert [t][1..] == [];
    CalculateBalanceIsSum([t]);
  }

  lemma {:induction false} SumPermutation(a: seq<Transaction>, b: seq<Transaction>)
    requires multiset(a) == multiset(b)
    ensures SumAmounts(a) == SumAmounts(b)
    decreases |a|
  {
    if a == [] {
      assert |b| == |multiset(b)| == 0;
    } else {
      var x := a[0];
      assert a == [x] + a[1..];
      assert x in multiset(b);
      var j :| 0 <= j < |b| && b[j] == x;
      var rest := b[..j] + b[j + 1..];
      assert b == b[..j] + ([x] + b[j + 1..]);
      assert multiset(b) == multiset(b[..j]) + multiset{x} + multiset(b[j + 1..]);
      assert multiset(a) == multiset{x} + multiset(a[1..]);
      assert multiset(rest) == multiset(b[..j]) + multiset(b[j + 1..]);
      assert multiset(a[1..]) == multiset(a) - multiset{x};
      assert multiset(rest) == multiset(b) - multiset{x};
      SumPermutation(a[1..], rest);
      SumConcat(b[..j], [x] + b[j + 1..]);
      SumConcat(b[..j], b[j + 1..]);
    }
  }

  /** The balance does not depend on the order of the entries. */
  lemma BalancePermutation(a: seq<Transaction>, b: seq<Transaction>)
    requires multiset(a) == multiset(b)
    ensures CalculateBalance(a) == CalculateBalance(b)
  {
    CalculateBalanceIsSum(a);
    CalculateBalanceIsSum(b);
    SumPermutation(a, b);
  }

  /** The page-wide list of entries, changed only by appending. */
  class Ledger {
    var transactions: seq<Transaction>

    /** A fresh page holds the two seed entries, whose signs match their types. */
    constructor ()
      ensures transactions == SeedTransactions
      ensures AllSignsMatch(transactions)
    {
      transactions := SeedTransactions;
    }

    /**
      Builds the entry for the form's inputs and pushes it onto the end of the
      list; no earlier entry changes.
    */
    method AddTransaction(amount: real, category: string, kind: string, id: int, date: string)
      modifies this
      ensures |transactions| == |old(transactions)| + 1
      ensures transactions[..|old(transactions)|] == old(transactions)
      ensures transactions[|transactions| - 1] == NewTransaction(amount, category, kind, id, date)
      ensures CalculateBalance(transactions) == CalculateBalance(old(transactions)) + transactions[|transactions| - 1].amount
      ensures amount > 0.0 && AllSignsMatch(old(transactions)) ==> AllSignsMatch(transactions)
    {
      var t := NewTransaction(amount, category, kind, id, date);
      BalanceAppend(transactions, t);
      transactions := transactions + [t];
    }
  }
}
