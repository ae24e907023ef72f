/**
 * The navigator's two pure mappings: the bottom-tab icon for a route, and
 * the screens the root stack registers for a signed-in or signed-out user.
 */
module AppNavigator {

  /** `getTabIcon`'s icon name. */
  function TabIcon(routeName: string, focused: bool): (r: string)
    ensures r != ""
  {
    match routeName
    case "Home" => if focused then "home" else "home-outline"
    case "Search" => if focused then "search" else "search-outline"
    case "Library" => if focused then "document-text" else "document-text-outline"
    case "Profile" => if focused then "person" else "person-outline"
    case _ => "help-circle-outline"
  }

  /** The four tabs, in order. */
  const Tabs: seq<string> := ["Home", "Search", "Library", "Profile"]

  /** The icon each tab shows when it is focused. */
  lemma FocusedTabIcons()
    ensures TabIcon("Home", true) == "home" && TabIcon("Search", true) == "search"
    ensures TabIcon("Library", true) == "document-text" && TabIcon("Profile", true) == "person"
  {
  }

  /** Each tab's unfocused icon is its focused icon's `-outline` variant. */
  lemma OutlineWhenUnfocused(routeName: string)
    requires routeName in Tabs
    ensures TabIcon(routeName, false) == TabIcon(routeName, true) + "-outline"
    ensures TabIcon(routeName, true) != "help-circle-outline"
  {
  }

  /** Any other route gets the help icon, focused or not. */
  lemma UnknownRouteIgnoresFocus(routeName: string)
    requires routeName !in Tabs
    ensures TabIcon(routeName, true) == TabIcon(routeName, false) == "help-circle-outline"
  {
  }

  /** No two tabs share an icon, focused or not. */
  lemma TabIconsDistinct(a: string, b: string, fa: bool, fb: bool)
    requires a in Tabs && b in Tabs
    requires TabIcon(a, fa) == TabIcon(b, fb)
    ensures a == b && fa == fb
  {
  }

  /** The root stack's screens. */
  function Screens(isAuthenticated: bool): (r: seq<string>)
    ensures isAuthenticated ==> r == ["Root"]
    ensures !isAuthenticated ==> r == ["Login", "Register", "RegisterForm"]
  {
    if isAuthenticated then ["Root"] else ["Login", "Register", "RegisterForm"]
  }

  /** A signed-in user never sees a sign-in screen and a signed-out one never reaches the app. */
  lemma ScreenSetsDisjoint(name: string)
    ensures !(name in Screens(true) && name in Screens(false))
  {
  }
}
