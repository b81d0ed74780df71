/**
  The per-entry formatting rules: the category icon, the sign prefix and
  magnitude of a displayed amount, and the large-entry threshold.
*/
module Formatter {

  /** The icon every category outside the named six gets (a pushpin). */
  const FallbackIcon: string := "\U{1F4CC}"

  /** The categories with an icon of their own, each paired with it. */
  const CategoryIcons: map<string, string> := map[
    "Food" := "\U{1F355}",                  // pizza
    "Transport" := "\U{1F697}",             // car
    "Deposit" := "\U{1F4B0}",               // money bag
    "Bills" := "\U{1F4A1}",                 // light bulb
    "Entertainment" := "\U{1F3AC}",         // clapper board
    "Shopping" := "\U{1F6CD}\U{FE0F}"       // shopping bags, emoji presentation
  ]

  /** Amounts whose magnitude reaches this are flagged as large. */
  const LargeThreshold: real := 10000.0

  /**
    `getCategoryIcon`: a switch over the six named categories with a shared
    default. Total: every string gets an icon, and the fallback is given
    exactly to the strings outside the named six.
  */
  function CategoryIcon(category: string): (icon: string)
    ensures icon != []
    ensures icon == FallbackIcon <==> category !in CategoryIcons
  {
    if category == "Food" then "\U{1F355}"
    else if category == "Transport" then "\U{1F697}"
    else if category == "Deposit" then "\U{1F4B0}"
    else if category == "Bills" then "\U{1F4A1}"
    else if category == "Entertainment" then "\U{1F3AC}"
    else if category == "Shopping" then "\U{1F6CD}\U{FE0F}"
    else FallbackIcon
  }

  /** The switch agrees with the icon table, entry for entry. */
  lemma CategoryIconMatchesTable(category: string)
    ensures category in CategoryIcons ==> CategoryIcon(category) == CategoryIcons[category]
    ensures category !in CategoryIcons ==> CategoryIcon(category) == FallbackIcon
  {
  }

  /**
    Two categories share an icon exactly when they are the same named
    category or both unrecognised.
  */
  lemma SameIconIffSameCategoryOrBothUnknown(c1: string, c2: string)
    ensures CategoryIcon(c1) == CategoryIcon(c2) <==>
      c1 == c2 || (c1 !in CategoryIcons && c2 !in CategoryIcons)
  {
  }

  /** `Math.abs`. */
  function Abs(x: real): (r: real)
    ensures r >= 0.0
    ensures r == x || r == -x
  {
    if x < 0.0 then -x else x
  }

  /** The text shown before the magnitude: `'+'` for a non-negative amount, nothing otherwise. */
  function AmountPrefix(amount: real): (prefix: string)
    ensures prefix == "+" <==> amount >= 0.0
    ensures prefix == "" <==> amount < 0.0
  {
    if amount >= 0.0 then "+" else ""
  }

  /** The large-entry flag: the magnitude reaches the threshold. */
  function IsLarge(amount: real): (large: bool)
    ensures large <==> amount >= LargeThreshold || amount <= -LargeThreshold
  {
    Abs(amount) >= LargeThreshold
  }

  /** The threshold is inclusive on both sides of zero and nothing below it is flagged. */
  lemma LargeBoundary()
    ensures IsLarge(10000.0) && IsLarge(-10000.0)
    ensures !IsLarge(9999.99) && !IsLarge(-9999.99) && !IsLarge(0.0)
  {
  }
}
