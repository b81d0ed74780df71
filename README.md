# Personal finance tracker: ledger, balance, list rows and theme

This project models the logic inside a small browser finance tracker. The tracker keeps
a list of income and expense entries and shows a coloured balance. Below the balance it
lists the entries, newest first, and a button switches between a light and a dark theme.

- `transactions.dfy`, module `Transactions`, covers the ledger:
  - the `Transaction` record and the two-entry seed ledger;
  - how `addTransaction` signs the amount by the entry's type and appends the entry;
  - the balance as the left fold `reduce((sum, t) => sum + t.amount, 0)`;
  - a class `Ledger` standing for the page-wide `transactions` array, which the source
    changes in place.

  The fold is proved equal to a reference sum. The lemmas show that the balance moves by
  exactly the appended amount, splits over concatenation and does not depend on entry order.
- `formatter.dfy`, module `Formatter`, covers the per-entry rules:
  - the category icon switch, with its shared fallback;
  - the `'+'` prefix and the absolute magnitude of a displayed amount;
  - the inclusive large-entry threshold of 10000.
- `view.dfy`, module `View`, covers what the page derives from the ledger:
  - the balance colour, green at zero or above and red below;
  - the rows of the list, as `Row` records rather than HTML.

  The rows come from mapping each entry to a row and then reversing. The lemmas show that
  row `i` comes from entry `n - 1 - i` and that an appended entry's row goes to the head of
  the list. Another lemma shows that the prefix and magnitude together give back the
  stored signed amount.
- `settings.dfy`, module `Settings`, covers the `userSettings` object as a class. Its
  `SwitchTheme` method changes only the theme. Two toggles restore `light` or `dark`.

Amounts are exact `real` numbers. The source only adds, negates, compares and takes
absolute values of them. The entry id comes from the clock and the date from the locale,
so both are parameters of `AddTransaction`.

Two modelling choices follow the code as written:
- `kind` is a string because `addTransaction` keeps the amount only for exactly
  `"income"` and negates it for every other string (script.js:44).
- `Toggled` sends `light` to `dark` and every other string to `light` (script.js:94), so
  `ToggleTwice` restores `light` and `dark` but turns any other value into `dark`.

## Model

| member | source | states |
|---|---|---|
| `Transactions.NewTransactionSign` | script.js:42-48 | For a positive amount, the new entry's sign matches its type: it is positive exactly when the type is `income`. Its magnitude is the amount entered, and id, category, type and date are copied. |
| `Transactions.FoldIsSum` | script.js:53 | A left fold over the amounts from any starting value equals that value plus the sum of the amounts. |
| `Transactions.CalculateBalanceIsSum` | script.js:52-54 | The balance is the sum of all stored amounts, and an empty ledger balances to 0. |
| `Transactions.SumConcat` | script.js:53 | The sum over two ledgers joined together is the sum of their sums. |
| `Transactions.BalanceConcat` | script.js:52-54 | The balance of two joined ledgers is the sum of their balances. |
| `Transactions.BalanceAppend` | script.js:49-54 | Appending an entry moves the balance by exactly that entry's signed amount. |
| `Transactions.SumPermutation` | script.js:53 | Two ledgers holding the same entries, in any order, have the same sum. |
| `Transactions.BalancePermutation` | script.js:52-54 | The balance does not depend on the order of the entries. |
| `Transactions.Ledger.constructor` | script.js:1-4 | A fresh ledger holds exactly the two seed entries, in order, and every entry's sign matches its type, so the invariant that `AddTransaction` preserves holds from the start. |
| `Transactions.Ledger.AddTransaction` | script.js:41-50 | The length grows by one and all earlier entries stay unchanged. The last entry is the one built from the inputs. The balance moves by that entry's amount. With a positive amount, a ledger whose signs all match their types keeps that property. |
| `Formatter.CategoryIcon` | script.js:81-91 | Every category gets a non-empty icon. The fallback goes to exactly the categories outside the six named ones. |
| `Formatter.CategoryIconMatchesTable` | script.js:82-90 | Each of the six named categories gets its fixed symbol. Every other string gets the pushpin. |
| `Formatter.SameIconIffSameCategoryOrBothUnknown` | script.js:81-91 | Two categories share an icon exactly when they are the same named category or are both unrecognised. |
| `Formatter.Abs` | script.js:65 | The magnitude is never negative and equals the amount or its negation. |
| `Formatter.AmountPrefix` | script.js:65 | The prefix is `'+'` exactly when the amount is at least 0. Otherwise it is empty. |
| `Formatter.IsLarge` | script.js:68 | An amount is flagged large exactly when it is at least 10000 or at most -10000. |
| `Formatter.LargeBoundary` | script.js:68 | 10000 and -10000 are flagged. 9999.99, -9999.99 and 0 are not. |
| `View.BalancePolarity` | script.js:59 | The balance shows green exactly when it is at least 0, and red exactly when it is below 0. |
| `View.IncomeKeepsGreen` | script.js:52-59 | Appending a positive income never turns a green balance red. |
| `View.ExpenseKeepsRed` | script.js:52-59 | Appending a negative expense never turns a red balance green. |
| `View.RowOf` | script.js:63-77 | The row's icon is the category's icon. Its magnitude is non-negative. It has the `'+'` prefix exactly when the amount is at least 0, and its large flag is set exactly when the magnitude reaches 10000. Category, date, type and currency are carried over. |
| `View.RowShowsStoredAmount` | script.js:65 | The prefix and magnitude give back the stored signed amount, so nothing is lost. |
| `View.RowPrefixMarksIncome` | script.js:65-73 | For an entry whose sign matches its type, the `'+'` prefix marks exactly the incomes. |
| `View.ReverseAt` | script.js:78 | Reversing keeps the length and puts element `n - 1 - i` at position `i`. |
| `View.DisplayRowsNewestFirst` | script.js:63-78 | There is one row per entry, and row `i` comes from entry `n - 1 - i`, so the newest entry comes first. |
| `View.DisplayRowsAfterAppend` | script.js:49-78 | After an append, the new entry's row heads the list and the earlier rows follow unchanged. |
| `View.SeedLedgerView` | script.js:1-4 | The seed ledger balances to 28500 and shows green. Its first row is the Food expense: no prefix, magnitude 1500, not large. Its second row is the Deposit income: `'+'`, magnitude 30000, large. |
| `Settings.Toggled` | script.js:94 | A toggle always yields `light` or `dark`, and it yields `dark` exactly when the theme was `light`. |
| `Settings.ToggleTwice` | script.js:93-94 | Two toggles restore `light` or `dark`, and they turn any other value into `dark`. |
| `Settings.UserSettings.constructor` | script.js:6 | A fresh settings object has the `light` theme and the rupee currency. |
| `Settings.UserSettings.SwitchTheme` | script.js:93-96 | The theme becomes the toggled old theme, and the currency is unchanged. |

## Left out

- DOM lookups, event listeners and every write to the page are not modelled. This covers `innerHTML`, `textContent`, `style.color`, `className`, the row's HTML template and the `join('')` of the rows (script.js:8-12, 14-22, 29-39, 67-78, 98-100). Rows are records, and the balance colour is a value.
- The `localStorage` load and save and the JSON encoding they use are not modelled (script.js:24-27, 108-110). They are browser storage I/O. A loaded ledger can be any `seq<Transaction>`, so every lemma over sequences covers it.
- `Date.now()` and `toLocaleDateString('en-IN')` are not modelled (script.js:43, 47). They read the clock and the locale, so id and date are parameters, and the model does not capture that ids increase.
- `toLocaleString('en-IN')` digit grouping of the balance and of each amount is not modelled (script.js:58, 65). Only the sign prefix, the magnitude and the currency symbol are kept.
- `parseFloat`, NaN and floating-point rounding are not modelled (script.js:32, 53). Amounts are exact reals, so a NaN amount, which would break the sign/type correspondence, cannot arise. `AddTransaction` appends for any amount, as the source does. The sign/type guarantee is stated for positive amounts.
- `initApp`, `handleFormSubmit`, `updateApp`, `updateUI` and the form reset are not modelled (script.js:14-39, 98-106). They only sequence calls to the modelled pieces and do I/O.
