/**
  The composition root (`App`). It holds the active clock face, the theme, the
  weather and brief fetched from the AI service, and the flags of the three
  overlays (theme sheet, chat panel, brief toast). The `window` key listener,
  the buttons and the geolocation callback become event methods; the clock's
  current time is a parameter of rendering.
*/
module App {
  import opened Types
  import opened Constants
  import Chatbot

  /** The face `renderMode` selects; the digital and flip faces receive the shared time. */
  datatype View = DigitalView(time: int) | FlipView(time: int) | WorldView | TimerView

  function ModeOf(v: View): AppMode {
    match v
    case DigitalView(_) => Digital
    case FlipView(_) => Flip
    case WorldView => World
    case TimerView => Timer
  }

  /** `renderMode`: every mode yields a face, and the face is the one for that mode. */
  function RenderMode(mode: AppMode, time: int): (v: View)
    ensures ModeOf(v) == mode
    ensures v.DigitalView? || v.FlipView? ==> v.time == time
  {
    match mode
    case Digital => DigitalView(time)
    case Flip => FlipView(time)
    case World => WorldView
    case Timer => TimerView
  }

  predicate IsThemeKey(key: string) {
    key == "t" || key == "T"
  }

  /** The shortcut table: keys `1`..`4` select the four faces, in navigation order. */
  function KeyMode(key: string): (m: Option<AppMode>)
    ensures m == Some(Digital) <==> key == "1"
    ensures m == Some(Flip) <==> key == "2"
    ensures m == Some(World) <==> key == "3"
    ensures m == Some(Timer) <==> key == "4"
    ensures m.Some? ==> !IsThemeKey(key)
  {
    if key == "1" then Some(Digital)
    else if key == "2" then Some(Flip)
    else if key == "3" then Some(World)
    else if key == "4" then Some(Timer)
    else None
  }

  /** The part of the root state the keyboard can change. */
  datatype Ui = Ui(mode: AppMode, isThemeOpen: bool)

  /** `handleKey` as the source writes it: a guard on the chat panel, then one `if` per key. */
  function HandleKey(chatOpen: bool, key: string, ui: Ui): (r: Ui)
    ensures chatOpen ==> r == ui
    ensures !chatOpen && IsThemeKey(key) ==> r == ui.(isThemeOpen := !ui.isThemeOpen)
    ensures !chatOpen && KeyMode(key).Some? ==> r == ui.(mode := KeyMode(key).value)
    ensures !IsThemeKey(key) && KeyMode(key).None? ==> r == ui
  {
    if chatOpen then ui
    else
      var u := if key == "t" || key == "T" then ui.(isThemeOpen := !ui.isThemeOpen) else ui;
      var u := if key == "1" then u.(mode := Digital) else u;
      var u := if key == "2" then u.(mode := Flip) else u;
      var u := if key == "3" then u.(mode := World) else u;
      if key == "4" then u.(mode := Timer) else u
  }

  /** Pressing the theme key twice gives back the original state. */
  lemma ThemeKeyTwice(chatOpen: bool, key: string, ui: Ui)
    requires IsThemeKey(key)
    ensures HandleKey(chatOpen, key, HandleKey(chatOpen, key, ui)) == ui
  {
  }

  /** Several key presses in a row, with the chat panel closed. */
  function PressKeys(ui: Ui, keys: seq<string>): Ui
    decreases |keys|
  {
    if keys == [] then ui else PressKeys(HandleKey(false, keys[0], ui), keys[1..])
  }

  /** How many of `keys` are theme keys. */
  function ThemeKeyCount(keys: seq<string>): nat {
    if keys == [] then 0 else ThemeKeyCount(keys[..|keys| - 1]) + (if IsThemeKey(keys[|keys| - 1]) then 1 else 0)
  }

  /** The face chosen by the last mode key in `keys`, or `m` when there is none. */
  function LastMode(keys: seq<string>, m: AppMode): AppMode {
    if keys == [] then m
    else match KeyMode(keys[|keys| - 1])
      case Some(k) => k
      case None => LastMode(keys[..|keys| - 1], m)
  }

  lemma {:induction false} PressKeysSnoc(ui: Ui, keys: seq<string>, key: string)
    ensures PressKeys(ui, keys + [key]) == HandleKey(false, key, PressKeys(ui, keys))
    decreases |keys|
  {
    if keys != [] {
      assert (keys + [key])[1..] == keys[1..] + [key];
      PressKeysSnoc(HandleKey(false, keys[0], ui), keys[1..], key);
    }
  }

  /**
    With the chat panel closed, a run of key presses leaves the face chosen by the last
    digit key, and the theme sheet toggled once per theme key.
  */
  lemma {:induction false} PressKeysOutcome(ui: Ui, keys: seq<string>)
    ensures PressKeys(ui, keys) ==
              Ui(LastMode(keys, ui.mode), ui.isThemeOpen != (ThemeKeyCount(keys) % 2 == 1))
    decreases |keys|
  {
    if keys != [] {
      var init, key := keys[..|keys| - 1], keys[|keys| - 1];
      assert keys == init + [key];
      PressKeysSnoc(ui, init, key);
      PressKeysOutcome(ui, init);
    }
  }

  /** Which theme buttons carry the "Active" mark: those whose id is the active theme's id. */
  function ActiveMarks(active: Theme): (marks: seq<bool>)
    requires active in THEMES
    ensures |marks| == |THEMES|
    ensures forall i :: 0 <= i < |THEMES| ==> (marks[i] <==> THEMES[i] == active)
  {
    ThemeIdsDistinct();
    seq(|THEMES|, i requires 0 <= i < |THEMES| => THEMES[i].id == active.id)
  }

  /**
    The geolocation-then-service result. The service parses the reply text without
    validating it, so either field may be missing (an empty reply gives neither).
  */
  datatype AiData = AiData(weather: Option<WeatherData>, brief: Option<SmartBrief>)

  class AppState {
    var mode: AppMode
    var theme: Theme
    var weather: Option<WeatherData>
    var brief: Option<SmartBrief>
    var isThemeOpen: bool
    var isChatOpen: bool
    var showBrief: bool
    const chat: Chatbot.ChatPanel

    function Keyboard(): Ui
      reads this
    {
      Ui(mode, isThemeOpen)
    }

    /** Exactly one catalogue theme is active. */
    ghost predicate Valid()
      reads this
    {
      theme in THEMES
    }

    constructor ()
      ensures Valid()
      ensures mode == Digital && theme == THEMES[0]
      ensures !isThemeOpen && !isChatOpen && !showBrief
      ensures weather == None && brief == None
      ensures fresh(chat) && chat.State() == Chatbot.Initial
    {
      mode := Digital;
      theme := THEMES[0];
      weather, brief := None, None;
      isThemeOpen, isChatOpen, showBrief := false, false, false;
      chat := new Chatbot.ChatPanel();
    }

    /** The `keydown` listener. */
    method OnKey(key: string)
      requires Valid()
      modifies this
      ensures Valid()
      ensures Keyboard() == HandleKey(old(isChatOpen), key, old(Keyboard()))
      ensures theme == old(theme) && weather == old(weather) && brief == old(brief)
      ensures isChatOpen == old(isChatOpen) && showBrief == old(showBrief)
    {
      if isChatOpen {
        return;
      }
      if key == "t" || key == "T" {
        isThemeOpen := !isThemeOpen;
      }
      if key == "1" {
        mode := Digital;
      }
      if key == "2" {
        mode := Flip;
      }
      if key == "3" {
        mode := World;
      }
      if key == "4" {
        mode := Timer;
      }
    }

    /** A navigation button selects a face. */
    method SetMode(m: AppMode)
      requires Valid()
      modifies this
      ensures Valid() && mode == m && isThemeOpen == old(isThemeOpen) && theme == old(theme)
      ensures isChatOpen == old(isChatOpen) && showBrief == old(showBrief)
      ensures weather == old(weather) && brief == old(brief)
    {
      mode := m;
    }

    /** Clicking a theme in the sheet: it becomes active and the sheet closes. Re-selecting the active theme only closes the sheet. */
    method SelectTheme(t: Theme)
      requires Valid() && t in THEMES
      modifies this
      ensures Valid() && theme == t && !isThemeOpen
      ensures old(theme) == t ==> Keyboard() == old(Keyboard()).(isThemeOpen := false)
      ensures mode == old(mode) && isChatOpen == old(isChatOpen) && showBrief == old(showBrief)
      ensures weather == old(weather) && brief == old(brief)
    {
      theme := t;
      isThemeOpen := false;
    }

    /** The palette button opens the theme sheet; its close button closes it. */
    method SetThemeOpen(open: bool)
      requires Valid()
      modifies this
      ensures Valid() && isThemeOpen == open && mode == old(mode) && theme == old(theme)
      ensures isChatOpen == old(isChatOpen) && showBrief == old(showBrief)
      ensures weather == old(weather) && brief == old(brief)
    {
      isThemeOpen := open;
    }

    /** The chat button opens the panel and its close button hides it; hiding it keeps the transcript. */
    method SetChatOpen(open: bool)
      requires Valid()
      modifies this
      ensures Valid() && isChatOpen == open && Keyboard() == old(Keyboard()) && theme == old(theme)
      ensures showBrief == old(showBrief) && weather == old(weather) && brief == old(brief)
      ensures chat.State() == old(chat.State())
    {
      isChatOpen := open;
    }

    /**
      The geolocation success path, once the service has answered: both fields are
      stored as they came, and `showBrief` is set even when the brief is missing.
    */
    method OnAiData(data: AiData)
      requires Valid()
      modifies this
      ensures Valid() && weather == data.weather && brief == data.brief && showBrief
      ensures Keyboard() == old(Keyboard()) && theme == old(theme) && isChatOpen == old(isChatOpen)
      ensures BriefToast() == data.brief
    {
      weather := data.weather;
      brief := data.brief;
      showBrief := true;
    }

    /** The toast's close button. */
    method DismissBrief()
      requires Valid()
      modifies this
      ensures Valid() && !showBrief && brief == old(brief) && weather == old(weather)
      ensures Keyboard() == old(Keyboard()) && theme == old(theme) && isChatOpen == old(isChatOpen)
    {
      showBrief := false;
    }

    /** The brief toast is shown only when `showBrief` is set and a brief has arrived. */
    function BriefToast(): (b: Option<SmartBrief>)
      reads this
      ensures b.Some? <==> showBrief && brief.Some?
      ensures b.Some? ==> b == brief
    {
      if showBrief && brief.Some? then brief else None
    }

    /** The main area shows the face for the current mode. */
    function Render(time: int): (v: View)
      reads this
      ensures ModeOf(v) == mode
    {
      RenderMode(mode, time)
    }

    /** The chat overlay: rendered only while open, always from the panel's own transcript. */
    function ChatOverlay(): (v: Option<Chatbot.ChatView>)
      reads this, chat
      ensures v.Some? <==> isChatOpen
      ensures v.Some? ==> v.value.bubbles == chat.messages
    {
      chat.View(isChatOpen)
    }
  }
}
