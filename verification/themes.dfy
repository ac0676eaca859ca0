/**
  The static colour table of update.py and `get_theme`, which looks a theme
  up by name and falls back to the "default" theme for any other name.
 */
module Themes {

  /** A named theme: background, foreground, four accents and the username colour. */
  datatype Theme = Theme(
    name: string,
    back: string,
    fore: string,
    green: string,
    purple: string,
    orange: string,
    cyan: string,
    username: string)

  const DefaultName: string := "default"

  /** `THEMES`: nine themes keyed by their own names. */
  const ThemeTable: map<string, Theme> := map[
    "ubuntu" := Theme("ubuntu", "#300a24", "#ffffff", "#ffffff", "#ffffff", "#ffffff", "#ffffff", "#5cbe09"),
    "default" := Theme("default", "#272822", "#f8f8f2", "#a6e22e", "#ae81ff", "#cc6633", "#8be9fd", "#f70202"),
    "dracula" := Theme("dracula", "#282A36", "#F8F8F2", "#50fa7b", "#bd93f9", "#ffb86c", "#8be9fd", "#E356A7"),
    "monokai" := Theme("monokai", "#2e2e2e", "#d6d6d6", "#b4d273", "#9e86c8", "#e87d3e", "#8be9fd", "#f92672"),
    "atom" := Theme("atom", "#161719", "#c5c8c6", "#94fa36", "#b9b6fc", "#f5ffa8", "#85befd", "#fd5ff1"),
    "github" := Theme("github", "#f4f4f4", "#3e3e3e", "#87d5a2", "#e94691", "#2e6cba", "#666666", "#de0000"),
    "googledark" := Theme("googledark", "#202124", "#E8EAED", "#34A853", "#A142F4", "#FBBC05", "#EA4335", "#4285F4"),
    "googlelight" := Theme("googlelight", "#FFFFFF", "#5F6368", "#34A853", "#A142F4", "#EA4335", "#24C1E0", "#4285F4"),
    "powershell" := Theme("powershell", "#052454", "#F6F6F7", "#1CFE3C", "#D33682", "#FEFE45", "#EF2929", "#F6F6F7")
  ]

  /** Every entry is filed under its own name. */
  predicate NamesMatchKeys(table: map<string, Theme>) {
    forall k :: k in table ==> table[k].name == k
  }

  predicate IsHexDigit(c: char) {
    '0' <= c <= '9' || 'a' <= c <= 'f' || 'A' <= c <= 'F'
  }

  /** An SVG colour `#rrggbb`: a hash and six hex digits. */
  predicate IsHexColour(s: string) {
    |s| == 7 && s[0] == '#' && forall i :: 1 <= i < 7 ==> IsHexDigit(s[i])
  }

  predicate WellColoured(t: Theme) {
    && IsHexColour(t.back) && IsHexColour(t.fore)
    && IsHexColour(t.green) && IsHexColour(t.purple)
    && IsHexColour(t.orange) && IsHexColour(t.cyan)
    && IsHexColour(t.username)
  }

  lemma TableShape()
    ensures ThemeTable.Keys == {"ubuntu", "default", "dracula", "monokai", "atom",
                                "github", "googledark", "googlelight", "powershell"}
    ensures DefaultName in ThemeTable
    ensures NamesMatchKeys(ThemeTable)
  {
  }

  /** Every colour of every theme is a `#rrggbb` hex colour, checked theme by theme. */
  lemma TableColours()
    ensures forall k :: k in ThemeTable ==> WellColoured(ThemeTable[k])
  {
    forall k | k in ThemeTable
      ensures WellColoured(ThemeTable[k])
    {
      TableShape();
      if k == "ubuntu" {
        UbuntuColoured();
      } else if k == "default" {
        DefaultColoured();
      } else if k == "dracula" {
        DraculaColoured();
      } else if k == "monokai" {
        MonokaiColoured();
      } else if k == "atom" {
        AtomColoured();
      } else if k == "github" {
        GithubColoured();
      } else if k == "googledark" {
        GoogleDarkColoured();
      } else if k == "googlelight" {
        GoogleLightColoured();
      } else {
        PowerShellColoured();
      }
    }
  }

  lemma UbuntuColoured()
    ensures WellColoured(ThemeTable["ubuntu"])
  {
  }

  lemma DefaultColoured()
    ensures WellColoured(ThemeTable["default"])
  {
  }

  lemma DraculaColoured()
    ensures WellColoured(ThemeTable["dracula"])
  {
  }

  lemma MonokaiColoured()
    ensures WellColoured(ThemeTable["monokai"])
  {
  }

  lemma AtomColoured()
    ensures WellColoured(ThemeTable["atom"])
  {
  }

  lemma GithubColoured()
    ensures WellColoured(ThemeTable["github"])
  {
  }

  lemma GoogleDarkColoured()
    ensures WellColoured(ThemeTable["googledark"])
  {
  }

  lemma GoogleLightColoured()
    ensures WellColoured(ThemeTable["googlelight"])
  {
  }

  lemma PowerShellColoured()
    ensures WellColoured(ThemeTable["powershell"])
  {
  }

  /**
    `get_theme(theme)`: the theme filed under `key`, or the "default" theme
    when no theme has that name.
   */
  function GetTheme(key: string): (t: Theme)
    ensures t.name in ThemeTable && ThemeTable[t.name] == t
    ensures t.name == key <==> key in ThemeTable
    ensures key !in ThemeTable ==> t.name == DefaultName
    ensures WellColoured(t)
  {
    TableShape();
    TableColours();
    if key in ThemeTable then ThemeTable[key] else ThemeTable[DefaultName]
  }

  /** Looking up the name of a looked-up theme finds the same theme. */
  lemma GetThemeStable(key: string)
    ensures GetTheme(GetTheme(key).name) == GetTheme(key)
  {
  }

  /** Dracula's background, and the fallback for an unknown name. */
  lemma GetThemeExamples()
    ensures GetTheme("dracula").back == "#282A36"
    ensures GetTheme("nonexistent") == GetTheme(DefaultName)
    ensures GetTheme("nonexistent").name == "default"
  {
    TableShape();
  }
}
