/**
  The Settings page (`src/pages/dashboard/Settings.tsx`): the general settings
  start as the defaults overridden by the stored copy, are overridden again by
  the copy in the database, are written back to storage and the theme after
  every change, and each control changes its own field only.
*/
module SettingsPage {
  import opened Common
  import opened GeneralSettings

  /** The page's `general` state. */
  datatype Settings = Settings(darkMode: bool, animations: bool, currency: string, timezone: string)

  const Defaults := Settings(true, true, "PHP", "Asia/Manila")

  /** An object with no keys. */
  const NoKeys := StoredGeneral(None, None, None, None)

  /** `{ ...prev, ...p }`: every key `p` has replaces that field of `prev`. */
  function Merge(prev: Settings, p: StoredGeneral): (r: Settings)
    ensures p.darkMode.Some? ==> r.darkMode == p.darkMode.value
    ensures p.darkMode.None? ==> r.darkMode == prev.darkMode
    ensures p.animations.Some? ==> r.animations == p.animations.value
    ensures p.animations.None? ==> r.animations == prev.animations
    ensures p.currency.Some? ==> r.currency == p.currency.value
    ensures p.currency.None? ==> r.currency == prev.currency
    ensures p.timezone.Some? ==> r.timezone == p.timezone.value
    ensures p.timezone.None? ==> r.timezone == prev.timezone
  {
    Settings(p.darkMode.GetOr(prev.darkMode), p.animations.GetOr(prev.animations),
             p.currency.GetOr(prev.currency), p.timezone.GetOr(prev.timezone))
  }

  /** The object `JSON.stringify(general)` stores: every key present. */
  function Encode(s: Settings): StoredGeneral {
    StoredGeneral(Some(s.darkMode), Some(s.animations), Some(s.currency), Some(s.timezone))
  }

  /** Later keys win: merging twice is merging once with the keys of both, the second taking precedence. */
  function Over(p: StoredGeneral, q: StoredGeneral): StoredGeneral {
    StoredGeneral(if q.darkMode.Some? then q.darkMode else p.darkMode,
                  if q.animations.Some? then q.animations else p.animations,
                  if q.currency.Some? then q.currency else p.currency,
                  if q.timezone.Some? then q.timezone else p.timezone)
  }

  /** Merging an object with no keys changes nothing; merging a full copy gives that copy. */
  lemma MergeLaws(s: Settings, t: Settings, p: StoredGeneral, q: StoredGeneral)
    ensures Merge(s, NoKeys) == s
    ensures Merge(s, Encode(t)) == t
    ensures Merge(Merge(s, p), p) == Merge(s, p)
    ensures Merge(Merge(s, p), q) == Merge(s, Over(p, q))
  {
  }

  /**
    The initial state. `stored` is the parsed `settings.general` entry, `None`
    when nothing is stored or it does not parse; then the defaults are used
    unchanged, otherwise the stored keys override them one by one.
  */
  function Initial(stored: Option<StoredGeneral>): (s: Settings)
    ensures stored.None? ==> s == Defaults
    ensures stored.Some? ==> s == Merge(Defaults, stored.value)
  {
    if stored.Some? then Merge(Defaults, stored.value) else Defaults
  }

  /** The theme follows the dark mode switch. */
  function Theme(darkMode: bool): (t: string)
    ensures t == "dark" <==> darkMode
    ensures t == "light" <==> !darkMode
  {
    if darkMode then "dark" else "light"
  }

  /** What reading `settings` from the database gave. */
  datatype RemoteRead = ReadFailed | Missing | Present(general: Option<StoredGeneral>)

  class Page {
    var general: Settings
    /** The parsed `settings.general` entry of local storage. */
    var stored: Option<StoredGeneral>
    var theme: string
    /** The `settings/general` node of the database. */
    var remote: Option<Settings>

    /** Storage and theme hold the current settings, as the effect on `general` leaves them. */
    predicate Synced()
      reads this
    {
      stored == Some(Encode(general)) && theme == Theme(general.darkMode)
    }

    /** The page opens: the initial state, then the effect writes storage and sets the theme. */
    constructor(stored0: Option<StoredGeneral>, remote0: Option<Settings>)
      ensures general == Initial(stored0) && remote == remote0
      ensures Synced()
    {
      general := Initial(stored0);
      remote := remote0;
      stored := Some(Encode(Initial(stored0)));
      theme := Theme(Initial(stored0).darkMode);
    }

    /** The effect on `general`: write storage and set the theme. */
    method Persist()
      modifies this
      ensures general == old(general) && remote == old(remote)
      ensures Synced()
    {
      stored := Some(Encode(general));
      theme := Theme(general.darkMode);
    }

    /**
      The load effect: a stored `general` node in the database overrides the
      keys it has; when the read fails, the storage copy `fallback` does the
      same; otherwise nothing changes.
    */
    method LoadRemote(read: RemoteRead, fallback: Option<StoredGeneral>)
      requires Synced()
      modifies this
      ensures remote == old(remote)
      ensures read.Present? && read.general.Some? ==> general == Merge(old(general), read.general.value)
      ensures read.ReadFailed? && fallback.Some? ==> general == Merge(old(general), fallback.value)
      ensures read.Missing? || (read.Present? && read.general.None?) || (read.ReadFailed? && fallback.None?) ==>
                general == old(general)
      ensures Synced()
    {
      match read {
        case Present(g) =>
          if g.Some? {
            general := Merge(general, g.value);
          }
        case Missing =>
        case ReadFailed =>
          if fallback.Some? {
            general := Merge(general, fallback.value);
          }
      }
      Persist();
    }

    /** The dark mode switch. */
    method SetDarkMode(v: bool)
      modifies this
      ensures general == old(general).(darkMode := v) && remote == old(remote)
      ensures Synced() && theme == (if v then "dark" else "light")
    {
      general := general.(darkMode := v);
      Persist();
    }

    /** The animations switch. */
    method SetAnimations(v: bool)
      modifies this
      ensures general == old(general).(animations := v) && remote == old(remote)
      ensures Synced()
    {
      general := general.(animations := v);
      Persist();
    }

    /** The currency select. */
    method SetCurrency(v: string)
      modifies this
      ensures general == old(general).(currency := v) && remote == old(remote)
      ensures Synced()
    {
      general := general.(currency := v);
      Persist();
    }

    /** The timezone select. */
    method SetTimezone(v: string)
      modifies this
      ensures general == old(general).(timezone := v) && remote == old(remote)
      ensures Synced()
    {
      general := general.(timezone := v);
      Persist();
    }

    /**
      `saveGeneral`: the settings go to the database, then to storage and the
      theme; a failed database write changes nothing.
    */
    method SaveGeneral(writeFails: bool) returns (toast: string)
      requires Synced()
      modifies this
      ensures general == old(general) && Synced()
      ensures !writeFails ==> remote == Some(general) && toast == "General settings saved"
      ensures writeFails ==> remote == old(remote) && toast == "Failed to save general settings"
    {
      if writeFails {
        return "Failed to save general settings";
      }
      remote := Some(general);
      Persist();
      toast := "General settings saved";
    }
  }

  /**
    What the page stores is what the rest of the app reads: a currency chosen
    on the page comes back as that currency, with the chosen timezone (the
    default one when it is empty).
  */
  lemma {:induction false} StoredSettingsReadBack(s: Settings)
    requires s.currency == "PHP" || s.currency == "USD"
    ensures GetGeneralSettings(Some(Encode(s))) ==
              General(if s.currency == "USD" then USD else PHP, if s.timezone == "" then DefaultTimezone else s.timezone)
  {
    CurrencyChoicesReadBack(Encode(s));
  }
}
