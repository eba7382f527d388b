/**
 * The day/night theme switch of the portfolio page (script.js, lines 17-40):
 * the `light-theme` class on the body, the `checked` state of the
 * `theme-toggle` checkbox, and the `theme` entry of local storage.
 */
module Theme {
  import opened Wrappers
  import opened Text

  const Light := "light"
  const Dark := "dark"

  /** `localStorage.getItem('theme') || 'dark'`: the theme startup applies. */
  function SavedTheme(stored: Option<string>): (theme: string)
    ensures theme != ""
    ensures !Truthy(stored) ==> theme == "dark"
    ensures theme == "light" <==> stored == Some("light")
    ensures Truthy(stored) ==> theme == stored.value
  {
    Or(stored, Dark)
  }

  /** The name the change handler stores for a toggle state. */
  function ThemeName(checked: bool): (theme: string)
    ensures theme == "light" <==> checked
    ensures theme in {"light", "dark"}
  {
    if checked then Light else Dark
  }

  class ThemeSwitch {
    /** Whether the page has a `theme-toggle` element at all. */
    const hasToggle: bool
    /** The body carries the `light-theme` class. */
    var lightClass: bool
    /** The toggle is checked; meaningless when there is no toggle. */
    var checked: bool
    /** The `theme` entry of local storage. */
    var stored: Option<string>

    /** A page as it is loaded, before the script runs. */
    constructor (hasToggle: bool, lightClass: bool, checked: bool, stored: Option<string>)
      ensures this.hasToggle == hasToggle && this.lightClass == lightClass
      ensures this.checked == checked && this.stored == stored
    {
      this.hasToggle := hasToggle;
      this.lightClass := lightClass;
      this.checked := checked;
      this.stored := stored;
    }

    /** applyTheme: exactly the value "light" turns the light class and the
        toggle on; every other value turns both off. Storage is not written. */
    method ApplyTheme(theme: string)
      modifies this
      ensures lightClass == (theme == "light")
      ensures checked == if hasToggle then theme == "light" else old(checked)
      ensures stored == old(stored)
    {
      if theme == Light {
        lightClass := true;
        if hasToggle { checked := true; }
      } else {
        lightClass := false;
        if hasToggle { checked := false; }
      }
    }

    /** The startup code: apply the saved theme, "dark" when none is saved. */
    method Startup()
      modifies this
      ensures lightClass == (old(stored) == Some("light"))
      ensures checked == if hasToggle then old(stored) == Some("light") else old(checked)
      ensures stored == old(stored)
    {
      var savedTheme := SavedTheme(stored);
      ApplyTheme(savedTheme);
    }

    /** The toggle's `change` handler, which exists only when the toggle does:
        the class follows the toggle and the storage records its theme. */
    method OnChange()
      requires hasToggle
      modifies this
      ensures lightClass == checked && checked == old(checked)
      ensures stored == Some(if checked then "light" else "dark")
      ensures stored == Some("light") <==> checked
    {
      var newTheme := ThemeName(checked);
      lightClass := checked;
      stored := Some(newTheme);
    }
  }

  /** A user sets the toggle to `on`, the change handler runs, and the page is
      reloaded with the same storage: whatever class and checkbox state either
      load starts from, the reloaded page shows the chosen theme on both the
      body and the toggle. */
  method ReloadRestoresTheme(on: bool, initiallyStored: Option<string>,
                             lightAtLoad: bool, checkedAtLoad: bool,
                             lightAtReload: bool, checkedAtReload: bool)
    returns (light: bool, toggled: bool)
    ensures light == on && toggled == on
  {
    var page := new ThemeSwitch(true, lightAtLoad, checkedAtLoad, initiallyStored);
    page.Startup();
    page.checked := on;
    page.OnChange();
    var reloaded := new ThemeSwitch(true, lightAtReload, checkedAtReload, page.stored);
    reloaded.Startup();
    light, toggled := reloaded.lightClass, reloaded.checked;
  }

  /** With nothing stored, startup leaves the page in the dark theme, as
      `applyTheme("dark")` does: the class is off, the toggle (when there is
      one) is unchecked, and without a toggle its state is left alone. */
  method StartupWithoutSavedTheme(hasToggle: bool, lightClass: bool, checked: bool)
    returns (light: bool, toggled: bool)
    ensures !light
    ensures hasToggle ==> !toggled
    ensures !hasToggle ==> toggled == checked
  {
    var page := new ThemeSwitch(hasToggle, lightClass, checked, None);
    page.Startup();
    light, toggled := page.lightClass, page.checked;
  }
}
