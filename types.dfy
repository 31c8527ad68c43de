/** The application's value types. */
module Types {

  datatype Option<+T> = None | Some(value: T)

  /** The four clock faces. */
  datatype AppMode = Digital | Flip | World | Timer

  /** A colour theme; immutable, picked from a fixed catalogue. */
  datatype Theme = Theme(id: string, name: string, gradient: string, accent: string, isDark: bool)

  /** The weather the AI service reports. Temperatures and humidity are kept as whole numbers. */
  datatype WeatherData = WeatherData(location: string, temp: int, condition: string,
                                     humidity: int, wind: string, icon: string)

  /** The short greeting / fact / advice triple shown once per session. */
  datatype SmartBrief = SmartBrief(greeting: string, fact: string, advice: string)
}

/** The static catalogues. */
module Constants {
  import opened Types

  const THEMES: seq<Theme> := [
    Theme("midnight", "Midnight", "from-slate-900 via-blue-900 to-black", "#3b82f6", true),
    Theme("aurora", "Aurora", "from-teal-900 via-purple-900 to-indigo-900", "#2dd4bf", true),
    Theme("crimson", "Crimson", "from-red-950 via-rose-900 to-black", "#f43f5e", true),
    Theme("golden", "Golden", "from-amber-950 via-yellow-900 to-stone-900", "#f59e0b", true),
    Theme("oled", "OLED", "from-black via-zinc-950 to-black", "#ffffff", true)
  ]

  /** No two catalogue entries share an id, so `theme.id === t.id` singles out one entry. */
  lemma ThemeIdsDistinct()
    ensures forall i, j :: 0 <= i < j < |THEMES| ==> THEMES[i].id != THEMES[j].id
  {
    assert THEMES[0].id[0] == 'm' && THEMES[1].id[0] == 'a' && THEMES[2].id[0] == 'c';
    assert THEMES[3].id[0] == 'g' && THEMES[4].id[0] == 'o';
  }
}
