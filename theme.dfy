/** The theme context of frontend/src/contexts/ThemeContext.js: a mode among
    light, dark and system, and the dark flag derived from it. The saved
    preference and the system colour scheme are parameters. */
module Theme {
  import opened Common

  const Modes: seq<string> := ["light", "dark", "system"]

  /** Array.prototype.indexOf: the first index holding `m`, or -1. */
  function IndexOf(modes: seq<string>, m: string): (i: int)
    ensures -1 <= i < |modes|
    ensures i == -1 <==> m !in modes
    ensures 0 <= i ==> modes[i] == m && forall j :: 0 <= j < i ==> modes[j] != m
  {
    if modes == [] then -1
    else if modes[0] == m then 0
    else
      var rest := IndexOf(modes[1..], m);
      if rest == -1 then -1 else rest + 1
  }

  /** The lazy initial state: a saved mode is kept only when it is one of
      the three modes. */
  function InitialMode(saved: Option<string>): (mode: string)
    ensures mode in Modes
    ensures Present(saved) && saved.value in Modes ==> mode == saved.value
    ensures !(Present(saved) && saved.value in Modes) ==> mode == "system"
  {
    if Present(saved) && saved.value in Modes then saved.value else "system"
  }

  /** toggleTheme's next mode: the one after the current in the list,
      wrapping round. */
  function Next(mode: string): (next: string)
    ensures next in Modes
  {
    Modes[(IndexOf(Modes, mode) + 1) % |Modes|]
  }

  /** The cycle is light, dark, system, light; three toggles are the
      identity on every valid mode. */
  lemma ToggleCycle(mode: string)
    requires mode in Modes
    ensures Next("light") == "dark" && Next("dark") == "system" && Next("system") == "light"
    ensures Next(Next(Next(mode))) == mode
    ensures Next(mode) != mode
  {
    assert IndexOf(Modes, "light") == 0;
    assert IndexOf(Modes, "dark") == 1;
    assert IndexOf(Modes, "system") == 2;
  }

  /** The dark flag the mode implies, given whether the system prefers a
      dark scheme. */
  function ActualDark(mode: string, systemDark: bool): (dark: bool)
    ensures mode != "system" ==> (dark <==> mode == "dark")
    ensures mode == "system" ==> dark == systemDark
  {
    if mode == "system" then systemDark else mode == "dark"
  }

  class ThemeState {
    var themeMode: string
    var isDarkMode: bool

    /** The mode is valid and, outside system mode, fixes the dark flag. */
    predicate Valid()
      reads this
    {
      themeMode in Modes && (themeMode != "system" ==> isDarkMode == (themeMode == "dark"))
    }

    /** `theme` in the context value. */
    function ThemeName(): (name: string)
      reads this
      ensures name == "dark" <==> isDarkMode
      ensures name == "light" <==> !isDarkMode
    {
      if isDarkMode then "dark" else "light"
    }

    constructor(saved: Option<string>, systemDark: bool)
      ensures Valid()
      ensures themeMode == InitialMode(saved)
      ensures isDarkMode == ActualDark(themeMode, systemDark)
    {
      themeMode := InitialMode(saved);
      isDarkMode := ActualDark(InitialMode(saved), systemDark);
    }

    /** toggleTheme, followed by the effect that re-derives the dark flag. */
    method Toggle(systemDark: bool)
      requires Valid()
      modifies this
      ensures Valid()
      ensures themeMode == Next(old(themeMode))
      ensures isDarkMode == ActualDark(themeMode, systemDark)
    {
      ToggleCycle(themeMode);
      themeMode := Next(themeMode);
      isDarkMode := ActualDark(themeMode, systemDark);
    }

    /** setTheme: an unknown mode is ignored; a known one that differs from
        the current mode is taken and the dark flag re-derived (the effect
        does not run again for the same mode). */
    method SetTheme(mode: string, systemDark: bool)
      requires Valid()
      modifies this
      ensures Valid()
      ensures mode !in Modes ==> themeMode == old(themeMode) && isDarkMode == old(isDarkMode)
      ensures mode in Modes ==> themeMode == mode
      ensures mode in Modes && mode != old(themeMode) ==> isDarkMode == ActualDark(mode, systemDark)
      ensures mode == old(themeMode) ==> isDarkMode == old(isDarkMode)
    {
      if mode in Modes && mode != themeMode {
        themeMode := mode;
        isDarkMode := ActualDark(mode, systemDark);
      }
    }

    /** The prefers-color-scheme listener, registered only in system mode. */
    method SystemChanged(matches: bool)
      requires Valid()
      modifies this
      ensures Valid()
      ensures themeMode == old(themeMode)
      ensures themeMode == "system" ==> isDarkMode == matches
      ensures themeMode != "system" ==> isDarkMode == old(isDarkMode)
    {
      if themeMode == "system" {
        isDarkMode := matches;
      }
    }
  }
}
