/** The site header: its menus and search overlay, and the light/dark theme kept in the browser's
    storage. The browser is passed in: whether the code runs in a browser, the stored theme and
    the system's colour-scheme preference are parameters, and the stored theme and the `dark`
    class of the document element are fields. Its links come from `Links.LinkUrl` and its
    initials from `Initials.UserInitials`. */
module Header {
  import opened Wrappers

  /** The theme a dark or light choice is stored as. */
  function ThemeValue(dark: bool): (t: string)
    ensures t == "dark" || t == "light"
    ensures (t == "dark") <==> dark
  {
    if dark then "dark" else "light"
  }

  /** `loadThemePreference()`'s choice: dark when stored so, or when nothing (or an empty value)
      is stored and the system prefers dark. */
  function DarkFromPreference(saved: Option<string>, prefersDark: bool): (dark: bool)
    ensures saved == Some("dark") ==> dark
    ensures saved.Some? && saved.value != "" && saved.value != "dark" ==> !dark
    ensures (saved.None? || saved == Some("")) ==> dark == prefersDark
  {
    saved == Some("dark") || ((saved.None? || saved == Some("")) && prefersDark)
  }

  /** A stored choice is read back as itself, whatever the system prefers. */
  lemma ThemeRoundTrip(dark: bool, prefersDark: bool)
    ensures DarkFromPreference(Some(ThemeValue(dark)), prefersDark) == dark
  {
  }

  class HeaderComponent {
    var showMobileMenu: bool
    var showUserMenu: bool
    var showSearch: bool
    var isDarkMode: bool
    /** The `theme` entry of the browser's storage. */
    var storedTheme: Option<string>
    /** Whether the document element carries the `dark` class. */
    var documentDark: bool
    /** The route of the last navigation, if any. */
    var navigatedTo: Option<string>

    constructor(storedTheme: Option<string>, documentDark: bool)
      ensures !showMobileMenu && !showUserMenu && !showSearch && !isDarkMode
      ensures this.storedTheme == storedTheme && this.documentDark == documentDark
      ensures navigatedTo.None?
    {
      showMobileMenu := false;
      showUserMenu := false;
      showSearch := false;
      isDarkMode := false;
      this.storedTheme := storedTheme;
      this.documentDark := documentDark;
      navigatedTo := None;
    }

    /** `loadThemePreference()`: in a browser, the theme read from storage and the system
        preference is shown and set on the document; outside one nothing changes. */
    method LoadThemePreference(isBrowser: bool, prefersDark: bool)
      modifies this
      ensures isBrowser ==> isDarkMode == DarkFromPreference(old(storedTheme), prefersDark) &&
                            documentDark == isDarkMode
      ensures !isBrowser ==> isDarkMode == old(isDarkMode) && documentDark == old(documentDark)
      ensures storedTheme == old(storedTheme) && navigatedTo == old(navigatedTo)
      ensures showMobileMenu == old(showMobileMenu) && showUserMenu == old(showUserMenu)
      ensures showSearch == old(showSearch)
    {
      if isBrowser {
        var dark := storedTheme == Some("dark") || ((storedTheme.None? || storedTheme == Some("")) && prefersDark);
        isDarkMode := dark;
        documentDark := dark;
      }
    }

    /** `toggleTheme()`: in a browser, the other theme is shown, set on the document and
        stored; outside one nothing changes. */
    method ToggleTheme(isBrowser: bool)
      modifies this
      ensures isBrowser ==> isDarkMode == !old(isDarkMode) && documentDark == isDarkMode &&
                            storedTheme == Some(ThemeValue(isDarkMode))
      ensures !isBrowser ==> isDarkMode == old(isDarkMode) && documentDark == old(documentDark) &&
                             storedTheme == old(storedTheme)
      ensures navigatedTo == old(navigatedTo) && showMobileMenu == old(showMobileMenu)
      ensures showUserMenu == old(showUserMenu) && showSearch == old(showSearch)
    {
      if isBrowser {
        var newTheme := !isDarkMode;
        isDarkMode := newTheme;
        documentDark := newTheme;
        if newTheme {
          storedTheme := Some("dark");
        } else {
          storedTheme := Some("light");
        }
      }
    }

    method ToggleMobileMenu()
      modifies this
      ensures showMobileMenu == !old(showMobileMenu)
      ensures showUserMenu == old(showUserMenu) && showSearch == old(showSearch)
      ensures isDarkMode == old(isDarkMode) && documentDark == old(documentDark)
      ensures storedTheme == old(storedTheme) && navigatedTo == old(navigatedTo)
    {
      showMobileMenu := !showMobileMenu;
    }

    /** `closeMobileMenu()`, run by every link of the mobile menu. */
    method CloseMobileMenu()
      modifies this
      ensures !showMobileMenu
      ensures showUserMenu == old(showUserMenu) && showSearch == old(showSearch)
      ensures isDarkMode == old(isDarkMode) && documentDark == old(documentDark)
      ensures storedTheme == old(storedTheme) && navigatedTo == old(navigatedTo)
    {
      showMobileMenu := false;
    }

    method ToggleUserMenu()
      modifies this
      ensures showUserMenu == !old(showUserMenu)
      ensures showMobileMenu == old(showMobileMenu) && showSearch == old(showSearch)
      ensures isDarkMode == old(isDarkMode) && documentDark == old(documentDark)
      ensures storedTheme == old(storedTheme) && navigatedTo == old(navigatedTo)
    {
      showUserMenu := !showUserMenu;
    }

    method ToggleSearch()
      modifies this
      ensures showSearch == !old(showSearch)
      ensures showMobileMenu == old(showMobileMenu) && showUserMenu == old(showUserMenu)
      ensures isDarkMode == old(isDarkMode) && documentDark == old(documentDark)
      ensures storedTheme == old(storedTheme) && navigatedTo == old(navigatedTo)
    {
      showSearch := !showSearch;
    }

    /** `closeSearch()`, run by the backdrop and by the modal's `close` event. */
    method CloseSearch()
      modifies this
      ensures !showSearch
      ensures showMobileMenu == old(showMobileMenu) && showUserMenu == old(showUserMenu)
      ensures isDarkMode == old(isDarkMode) && documentDark == old(documentDark)
      ensures storedTheme == old(storedTheme) && navigatedTo == old(navigatedTo)
    {
      showSearch := false;
    }

    /** The document click listener `ngOnInit` installs in a browser: a click outside both the
        user menu and its toggle button closes the user menu. */
    method OnDocumentClick(inUserMenu: bool, onUserMenuToggle: bool)
      modifies this
      ensures !inUserMenu && !onUserMenuToggle ==> !showUserMenu
      ensures inUserMenu || onUserMenuToggle ==> showUserMenu == old(showUserMenu)
      ensures showMobileMenu == old(showMobileMenu) && showSearch == old(showSearch)
      ensures isDarkMode == old(isDarkMode) && documentDark == old(documentDark)
      ensures storedTheme == old(storedTheme) && navigatedTo == old(navigatedTo)
    {
      if !inUserMenu && !onUserMenuToggle {
        showUserMenu := false;
      }
    }

    /** The success callback of `logout()`: the user menu closes and the home page opens. */
    method OnLoggedOut()
      modifies this
      ensures !showUserMenu && navigatedTo == Some("/")
      ensures showMobileMenu == old(showMobileMenu) && showSearch == old(showSearch)
      ensures isDarkMode == old(isDarkMode) && documentDark == old(documentDark)
      ensures storedTheme == old(storedTheme)
    {
      showUserMenu := false;
      navigatedTo := Some("/");
    }
  }

  /** Toggling the theme in a browser and loading the preference again (the next visit) shows
      the toggled theme, whatever the system prefers. */
  method ToggleThenReload(h: HeaderComponent, prefersDark: bool)
    modifies h
    ensures h.isDarkMode == !old(h.isDarkMode) && h.documentDark == h.isDarkMode
  {
    h.ToggleTheme(true);
    h.LoadThemePreference(true, prefersDark);
    ThemeRoundTrip(!old(h.isDarkMode), prefersDark);
  }
}
