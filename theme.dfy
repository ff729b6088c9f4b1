/**
 * The colour theme of src/hooks/useTheme.ts: the theme read back from
 * storage, `toggle`, `setTheme`, `isDark`, and the effects that write the
 * theme to storage and set the document's "dark" class. The stored value is
 * cast, not checked, so the theme is any string; the OS preference
 * (`prefers-color-scheme: dark`, false where `matchMedia` is missing) is a
 * parameter.
 */
module Theme {
  import opened Common

  const StorageKey := "civiclens_theme"

  /** What `localStorage.getItem` gave: a value, nothing, or an exception. */
  datatype StorageRead = Stored(value: string) | NothingStored | Throws

  /** The state initialiser: the stored value, or "system" when there is none, it is "", or storage throws. */
  function InitialTheme(read: StorageRead): (t: string)
    ensures t != ""
    ensures read.Stored? && read.value != "" ==> t == read.value
    ensures !(read.Stored? && read.value != "") ==> t == "system"
  {
    if read.Stored? && read.value != "" then read.value else "system"
  }

  /** `toggle`: dark goes to light, anything else to dark. */
  function Toggled(prev: string): (t: string)
    ensures t == "light" || t == "dark"
    ensures t == "light" <==> prev == "dark"
  {
    if prev == "dark" then "light" else "dark"
  }

  /** Toggling twice from dark or light returns to it. */
  lemma ToggleTwiceRestores(t: string)
    requires t == "dark" || t == "light"
    ensures Toggled(Toggled(t)) == t
  {
  }

  /** From "system" two toggles go to dark, then light: "system" is never reached again by toggling. */
  lemma ToggleLeavesSystem(t: string)
    ensures Toggled(t) != "system" && Toggled(Toggled(t)) != "system"
    ensures t == "system" ==> Toggled(t) == "dark" && Toggled(Toggled(t)) == "light"
  {
  }

  /** `isDark`: dark, or system while the OS prefers dark. */
  predicate IsDark(theme: string, prefersDark: bool) {
    theme == "dark" || (theme == "system" && prefersDark)
  }

  /** `applyTheme`: whether the document gets the "dark" class. */
  function DarkClass(theme: string, prefersDark: bool): (dark: bool)
    ensures theme == "dark" ==> dark
    ensures theme == "light" ==> !dark
    ensures theme == "system" ==> dark == prefersDark
    ensures theme != "dark" && theme != "system" ==> !dark
  {
    if theme == "system" then prefersDark else theme == "dark"
  }

  /** The page's colours and the toggle's icon agree: the class is set exactly when `isDark` holds. */
  lemma ClassAgreesWithIsDark(theme: string, prefersDark: bool)
    ensures DarkClass(theme, prefersDark) <==> IsDark(theme, prefersDark)
  {
  }

  /** Toggling while "system" shows dark keeps the page dark: the first click changes nothing visible. */
  lemma ToggleFromDarkSystemLooksUnchanged(prefersDark: bool)
    requires prefersDark
    ensures IsDark("system", prefersDark) && IsDark(Toggled("system"), prefersDark)
  {
  }

  /** After a toggle, whether the page is dark no longer depends on the OS. */
  lemma ToggledIgnoresPreference(prev: string, a: bool, b: bool)
    ensures IsDark(Toggled(prev), a) == IsDark(Toggled(prev), b)
    ensures IsDark(Toggled(prev), a) == !IsDark(prev, false)
  {
  }

  /** A theme that was saved is read back as itself on the next load. */
  lemma SavedThemeReloads(t: string)
    requires t != ""
    ensures InitialTheme(Stored(t)) == t
  {
  }

  class ThemeState {
    /** Whether `localStorage` works; when it throws, writes are dropped. */
    const storageWorks: bool
    var theme: string
    /** The value under `StorageKey`. */
    var stored: Option<string>
    /** Whether `document.documentElement` has the "dark" class. */
    var darkClass: bool

    /** The theme follows the stored value, and the document follows the theme. */
    ghost predicate Valid(prefersDark: bool)
      reads this
    {
      && (storageWorks ==> stored == Some(theme))
      && darkClass == DarkClass(theme, prefersDark)
    }

    /** Mounting: read the stored theme, then the effect writes it back and applies it. */
    constructor (read: StorageRead, storageWorks: bool, prefersDark: bool)
      requires read.Throws? ==> !storageWorks
      ensures this.storageWorks == storageWorks
      ensures theme == InitialTheme(read)
      ensures storageWorks ==> stored == Some(theme)
      ensures !storageWorks ==> stored == (if read.Stored? then Some(read.value) else None)
      ensures Valid(prefersDark)
    {
      this.storageWorks := storageWorks;
      theme := InitialTheme(read);
      stored := if read.Stored? then Some(read.value) else None;
      new;
      Changed(prefersDark);
    }

    /** The effect on every theme change: persist when storage works, then apply. */
    method Changed(prefersDark: bool)
      modifies this`stored, this`darkClass
      ensures stored == if storageWorks then Some(theme) else old(stored)
      ensures darkClass == DarkClass(theme, prefersDark)
      ensures Valid(prefersDark)
    {
      if storageWorks {
        stored := Some(theme);
      }
      darkClass := DarkClass(theme, prefersDark);
    }

    /** `setTheme`. */
    method SetTheme(t: string, prefersDark: bool)
      modifies this`theme, this`stored, this`darkClass
      ensures theme == t
      ensures stored == if storageWorks then Some(t) else old(stored)
      ensures Valid(prefersDark)
    {
      theme := t;
      Changed(prefersDark);
    }

    /** `toggle`. */
    method Toggle(prefersDark: bool)
      modifies this`theme, this`stored, this`darkClass
      ensures theme == Toggled(old(theme))
      ensures stored == if storageWorks then Some(theme) else old(stored)
      ensures Valid(prefersDark)
    {
      theme := Toggled(theme);
      Changed(prefersDark);
    }

    /** The OS preference changed: the class is reapplied only while the theme is "system". */
    method PreferenceChanged(oldPreference: bool, prefersDark: bool)
      requires Valid(oldPreference)
      modifies this`darkClass
      ensures theme == "system" ==> darkClass == prefersDark
      ensures theme != "system" ==> darkClass == old(darkClass)
      ensures Valid(prefersDark)
    {
      if theme == "system" {
        darkClass := DarkClass(theme, prefersDark);
      }
    }

    /** `isDark` as the hook returns it. */
    function IsDarkNow(prefersDark: bool): (dark: bool)
      reads this
      ensures dark <==> theme == "dark" || (theme == "system" && prefersDark)
    {
      IsDark(theme, prefersDark)
    }
  }
}
