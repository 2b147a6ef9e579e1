/**
 * The app shell: its own copy of the feed (with saving), the log-in flag and
 * the light/dark theme switch.
 */
module App {
  import opened Feed

  /** The twelve colour roles of a theme. */
  datatype Palette = Palette(
    primary: string, secondary: string, background: string, surface: string,
    text: string, textSecondary: string, border: string, like: string,
    story: string, success: string, warning: string, error: string)

  const LightColors := Palette(
    "#405DE6", "#C13584", "#FFFFFF", "#FFFFFF", "#262626", "#8E8E8E",
    "#DBDBDB", "#ED4956", "#405DE6", "#00C851", "#FF8800", "#FF3547")

  const DarkColors := Palette(
    "#00D4FF", "#FF00E5", "#000000", "#1A1A1A", "#FFFFFF", "#B0B0B0",
    "#333333", "#FF0066", "#00FF88", "#00FF88", "#FFAA00", "#FF3366")

  /** `themeColors`: the dark palette exactly when the dark theme is on. */
  function ThemeColors(isDarkTheme: bool): (p: Palette)
    ensures p == DarkColors <==> isDarkTheme
    ensures p == LightColors <==> !isDarkTheme
  {
    if isDarkTheme then DarkColors else LightColors
  }

  class AppShell {
    var isAuthenticated: bool
    var activeTab: string
    var isDarkTheme: bool
    var posts: seq<Post>

    /** The app starts logged out, on the home tab, in the light theme. */
    constructor (seedPosts: seq<Post>)
      ensures !isAuthenticated && activeTab == "home" && !isDarkTheme && posts == seedPosts
      ensures Colors() == LightColors
    {
      isAuthenticated, activeTab, isDarkTheme, posts := false, "home", false, seedPosts;
    }

    function Colors(): Palette
      reads this
    {
      ThemeColors(isDarkTheme)
    }

    /** The 'Log In' button. */
    method LogIn()
      modifies this`isAuthenticated
      ensures isAuthenticated
    {
      isAuthenticated := true;
    }

    /** The sun/moon button: the other palette becomes active. */
    method ToggleTheme()
      modifies this`isDarkTheme
      ensures isDarkTheme == !old(isDarkTheme)
      ensures Colors() == (if old(isDarkTheme) then LightColors else DarkColors)
    {
      isDarkTheme := !isDarkTheme;
    }

    method HandleLike(postId: int)
      modifies this`posts
      ensures posts == ToggleLike(old(posts), postId)
    {
      posts := ToggleLike(posts, postId);
    }

    method HandleSave(postId: int)
      modifies this`posts
      ensures posts == ToggleSave(old(posts), postId)
    {
      posts := ToggleSave(posts, postId);
    }
  }

  /** Every press of the theme button changes the palette: the two palettes differ. */
  lemma ThemeToggleChangesPalette(isDarkTheme: bool)
    ensures ThemeColors(!isDarkTheme) != ThemeColors(isDarkTheme)
  {
  }
}
