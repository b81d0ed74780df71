/**
  The page-wide display settings and the light/dark theme toggle
  (`switchTheme`).
*/
module Settings {

  const Light: string := "light"
  const Dark: string := "dark"
  /** The rupee sign shown after every amount. */
  const Rupee: string := "₹"

  /** `light` goes to `dark`; every other value, `dark` included, goes to `light`. */
  function Toggled(theme: string): (next: string)
    ensures next == Light || next == Dark
    ensures next == Dark <==> theme == Light
  {
    if theme == Light then Dark else Light
  }

  /**
    Toggling twice restores `light` or `dark`, and turns any other value into
    `dark`.
  */
  lemma ToggleTwice(theme: string)
    ensures theme == Light || theme == Dark ==> Toggled(Toggled(theme)) == theme
    ensures theme != Light ==> Toggled(Toggled(theme)) == Dark
  {
  }

  /** The settings object; only the theme is ever changed. */
  class UserSettings {
    var theme: string
    var currency: string

    /** A fresh page starts light, in rupees. */
    constructor ()
      ensures theme == Light && currency == Rupee
    {
      theme := Light;
      currency := Rupee;
    }

    /** Flips the theme; the currency stays as it was. */
    method SwitchTheme()
      modifies this`theme
      ensures theme == Toggled(old(theme))
      ensures currency == old(currency)
    {
      theme := Toggled(theme);
    }
  }
}
