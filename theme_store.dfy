/** The dark/light theme toggle (src/stores/themeStore.ts). */
module ThemeStore {
  import opened Types

  /** `toggleTheme`'s choice: dark becomes light, anything else becomes dark. */
  function Toggled(mode: ThemeMode): (r: ThemeMode)
    ensures r != Auto
    ensures mode == Dark ==> r == Light
    ensures mode == Light || mode == Auto ==> r == Dark
  {
    if mode == Dark then Light else Dark
  }

  /** Toggling twice restores dark or light; `auto` does not come back. */
  lemma ToggleTwice(mode: ThemeMode)
    ensures mode != Auto ==> Toggled(Toggled(mode)) == mode
    ensures mode == Auto ==> Toggled(Toggled(mode)) == Light
  {
  }

  class Store {
    var themeMode: ThemeMode

    constructor ()
      ensures themeMode == Dark
    {
      themeMode := Dark;
    }

    method SetThemeMode(mode: ThemeMode)
      modifies this
      ensures themeMode == mode
    {
      themeMode := mode;
    }

    method ToggleTheme()
      modifies this
      ensures themeMode == Toggled(old(themeMode))
    {
      var currentMode := themeMode;
      themeMode := if currentMode == Dark then Light else Dark;
    }
  }
}
