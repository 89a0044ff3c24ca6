/**
  The general settings as the rest of the app reads them (`src/lib/utils.ts`):
  `getGeneralSettings` turns the stored `settings.general` object into a
  currency code (PHP or USD) and a timezone, and `formatCurrency` picks its
  locale from that currency.
*/
module GeneralSettings {
  import opened Common

  const DefaultTimezone := "Asia/Manila"

  datatype Currency = PHP | USD

  /** The result of `getGeneralSettings`. */
  datatype General = General(currency: Currency, timezone: string)

  /**
    The parsed `settings.general` object; a key is `None` when the object
    lacks it. The settings page writes all four keys, the reader here uses two.
  */
  datatype StoredGeneral = StoredGeneral(darkMode: Option<bool>, animations: Option<bool>, currency: Option<string>,
                                         timezone: Option<string>)

  const Defaults := General(PHP, DefaultTimezone)

  /**
    `getGeneralSettings`. `stored` is the parsed stored object, `None` when
    nothing is stored or the text does not parse to an object; then the
    defaults are returned. Otherwise the currency is USD exactly when the
    stored currency text contains "USD", and the timezone is the stored one
    unless that is missing or empty.
  */
  function GetGeneralSettings(stored: Option<StoredGeneral>): (g: General)
    ensures stored.None? ==> g == Defaults
    ensures stored.Some? ==> (g.currency == USD <==> stored.value.currency.Some? && Contains(stored.value.currency.value, "USD"))
    ensures stored.Some? ==> g.timezone == OrElse(stored.value.timezone, DefaultTimezone)
    ensures g.timezone != ""
  {
    match stored
    case None => Defaults
    case Some(p) =>
      General(if p.currency.Some? && Contains(p.currency.value, "USD") then USD else PHP,
              OrElse(p.timezone, DefaultTimezone))
  }

  /** The `Intl.NumberFormat` locale `formatCurrency` uses. */
  function Locale(c: Currency): (l: string)
    ensures l == "en-US" <==> c == USD
    ensures l == "en-PH" <==> c == PHP
  {
    assert "en-US"[3] != "en-PH"[3];
    match c
    case USD => "en-US"
    case PHP => "en-PH"
  }

  /** The two currency choices the settings page offers are read back as themselves. */
  lemma {:induction false} CurrencyChoicesReadBack(stored: StoredGeneral)
    requires stored.currency == Some("PHP") || stored.currency == Some("USD")
    ensures GetGeneralSettings(Some(stored)).currency == (if stored.currency == Some("USD") then USD else PHP)
  {
    if stored.currency == Some("USD") {
      assert StartsWith("USD", "USD");
    } else {
      PhpLacksUsd();
    }
  }

  lemma PhpLacksUsd()
    ensures !Contains("PHP", "USD")
  {
    forall i ensures !OccursAt("PHP", "USD", i) {
      if i == 0 {
        assert "PHP"[0] != "USD"[0];
      }
    }
    ContainsAt("PHP", "USD");
  }

  /** Any stored currency text mentioning USD, in any position, gives the en-US locale. */
  lemma UsdAnywhere(stored: StoredGeneral, before: string, after: string)
    requires stored.currency == Some(before + "USD" + after)
    ensures Locale(GetGeneralSettings(Some(stored)).currency) == "en-US"
  {
    var c := before + "USD" + after;
    assert OccursAt(c, "USD", |before|) by {
      assert c[|before|..|before| + 3] == "USD";
    }
    ContainsAt(c, "USD");
  }
}
