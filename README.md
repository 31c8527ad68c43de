# Desktop clock: verified model of its state machines

The application is a desktop-clock web page with four clock faces (digital,
flip-card, world clock, countdown), a theme picker, a weather/brief toast and
an AI chat panel. Almost all of it is rendering. This project models the four
pieces of sequential logic in it and proves what they do:

- **Countdown** (`TimerMode` in `components/ClockModes.tsx`), module
  `ClockModes`. The state is `timeLeft` and `isActive`. The one-second
  interval becomes the event `Tick`. The React effect on `[isActive, timeLeft]`
  runs after every event as `Settle` / `RunEffect`. `formatTime` is modelled as
  `FormatTime`.
- **Flip card** (`components/FlipUnit.tsx`), module `FlipUnit`. The state is
  `current`, `next`, `isFlipping`, the last prop `value`, and at most one
  pending 600 ms timeout (`pending`, the value it will show). The effect on
  `[value, current]` re-runs only when one of them changes. Before it re-runs,
  its cleanup cancels the pending timeout. Expiry of the timeout is the event
  `Fire` / `TimerFired`.
- **Chat panel** (`components/Chatbot.tsx`), module `Chatbot`. The state is
  the transcript, the input text and the loading flag. `handleSend` is split
  at its `await`. `Send` covers the part before the service call and returns
  the request it makes. `Complete` takes the service's answer as an input
  (`Text(s)`, `NoText` or `Failed`).
- **Composition root** (`App.tsx`), module `App`. This covers the keyboard
  shortcut reducer, theme selection, the overlay flags, the weather/brief
  toast and `renderMode`.

Module `Digits` holds the decimal rendering both clock faces use:
`toString()` followed by `padStart(2, '0')`. Modules `Types` and `Constants`
transcribe `types.ts` and the theme catalogue of `constants.ts`.

Each stateful component is modelled the same way. A value datatype describes
the state, and pure step functions describe the events. Lemmas about these
functions prove the properties. A class has the component's fields, and its
methods change them the way the source does. Where an event has a step
function (`TimerMode.Toggle`, `Tick` and `RunEffect`; every `FlipDigit`
method; `ChatPanel.Send` and `Complete`; `AppState.OnKey`), the method's
`ensures` ties the new state to that function applied to the old state. The
other methods (`TimerMode.Reset`, `SetInputMinutes`, and the `AppState` button
handlers) set one or two fields, and their `ensures` state the new value of
every field.

Three behaviours of the code are worth knowing:
- An empty minute field reads as `'0'` (`inputMinutes || '0'`). Other
  non-numeric text gives `NaN`, which is not modelled (see Left out).
- The chat panel has two fixed fallback replies. An empty or missing reply
  gives "I'm sorry, I couldn't process that.". A thrown error gives
  "An error occurred. Please try again later.".
- A new value that arrives mid-flip retargets the flip to the newest value.
  If the value returns to `current` mid-flip, the pending timeout is cancelled
  and none is armed, so the card stays flipping towards the stale `next`
  (`FlipUnit.RevertMidFlipStalls`).

## Model

| member | source | states |
|---|---|---|
| `Digits.NatToStringRoundTrip` | components/FlipUnit.tsx:28 | `n.toString()` reads back as `n` (the decimal numeral has no loss) |
| `Digits.NatToString` | components/ClockModes.tsx:100 | the numeral is non-empty, all digits, one character exactly below 10, at most two below 100, at least three from 100, no leading zero |
| `Digits.PadStart` | components/ClockModes.tsx:100 | `padStart(width, fill)` leaves strings of at least `width` alone, otherwise prefixes fill characters up to exactly `width` and keeps the original as the suffix |
| `Digits.PadTwoDigits` | components/FlipUnit.tsx:28 | for `n < 100`, `pad(n)` is exactly two characters, the tens and units digits, with a leading `'0'` when `n < 10` |
| `Digits.Pad` | components/FlipUnit.tsx:28 | `pad(n)` is the decimal numeral of `n`, preceded by `'0'`s up to two characters: two characters below 10, the numeral's own width from 10 on |
| `Digits.NumeralValue` | components/ClockModes.tsx:87 | a digit string that is the numeral of `k` reads as `k` |
| `Digits.PaddedNumeralValue` | components/ClockModes.tsx:87 | a numeral preceded by any number of `'0'`s reads as its number |
| `Digits.ZeroNumeral` | components/ClockModes.tsx:87 | a digit string denotes 0 exactly when all its digits are `'0'` |
| `Digits.PadWidth` | components/ClockModes.tsx:100 | the padded label is two characters exactly when `n < 100` and never shorter |
| `Digits.PadRoundTrip` | components/FlipUnit.tsx:28 | for every `n`, the padded label is all digits and reads back as `n` |
| `Constants.ThemeIdsDistinct` | constants.ts:4-40 | no two catalogue themes share an id |
| `ClockModes.Settle` | components/ClockModes.tsx:75-83 | the effect keeps `timeLeft`, stops the timer at zero, and leaves a running timer with time left untouched |
| `ClockModes.Minutes` | components/ClockModes.tsx:87 | `parseInt` of the minute field, or of `'0'` when it is empty, on a digit field: the empty field reads as 0, a numeral reads as its number, also after any leading `'0'`s (`"05"` reads as 5), and the result is 0 exactly when every digit is `'0'` |
| `ClockModes.ToggleStep` | components/ClockModes.tsx:85-90 | from idle, toggling seeds `60*m` and runs (or stays idle when `m = 0`); toggling a running timer pauses it with `timeLeft` unchanged; toggling a paused timer with time left resumes it without reseeding |
| `ClockModes.TickStep` | components/ClockModes.tsx:77-80 | a tick happens only while running with time left and lowers `timeLeft` by exactly 1, stopping exactly when it reaches 0; otherwise nothing changes |
| `ClockModes.IdleAbsorbsTicks` | components/ClockModes.tsx:77-81 | any number of ticks leaves an idle timer idle |
| `ClockModes.RunsDown` | components/ClockModes.tsx:75-83 | a timer running with `k` seconds shows `k - n` after `n ≤ k` ticks and is running exactly while `n < k` |
| `ClockModes.CountdownFromStart` | components/ClockModes.tsx:85-90 | starting from idle with `m` minutes, after `n < 60*m` ticks it shows `60*m - n` and runs; after exactly `60*m` ticks it is idle again |
| `ClockModes.PauseResume` | components/ClockModes.tsx:89 | pausing a running timer keeps `timeLeft`; pausing then resuming restores the exact state |
| `ClockModes.ClockRoundTrip` | components/ClockModes.tsx:97-101 | minutes, `':'` and seconds below 60, each padded, parse back to `60*m + s` |
| `ClockModes.ClockWidth` | components/ClockModes.tsx:97-101 | the joined label is 5 characters exactly when fewer than 100 minutes; then it spells the two digits of each field around `':'` |
| `ClockModes.FormatTime` | components/ClockModes.tsx:97-101 | `formatTime(s)` always has the form minutes, `':'`, two-digit seconds below 60, and parses back to `s` |
| `ClockModes.FormatTimeWidth` | components/ClockModes.tsx:97-101 | the label is 5 characters exactly when `s < 6000`; then the characters are the two digits of `s / 60`, `':'`, the two digits of `s % 60` |
| `ClockModes.TimerMode.constructor` | components/ClockModes.tsx:71-73 | the timer starts idle with minute field `"10"` |
| `ClockModes.TimerMode.SetInputMinutes` | components/ClockModes.tsx:110 | typing changes only the minute field |
| `ClockModes.TimerMode.RunEffect` | components/ClockModes.tsx:75-83 | the effect changes the fields as `Settle` says |
| `ClockModes.TimerMode.Toggle` | components/ClockModes.tsx:85-90 | the play/pause button moves the fields as `ToggleStep` with the minute field read as `'0'` when empty, and keeps the invariant that a running timer has time left |
| `ClockModes.TimerMode.Tick` | components/ClockModes.tsx:78 | one interval firing moves the fields as `TickStep` |
| `ClockModes.TimerMode.Reset` | components/ClockModes.tsx:92-95 | reset from any state yields `timeLeft = 0`, not running |
| `ClockModes.TimerMode.View` | components/ClockModes.tsx:105-133 | the minute field is shown exactly when `timeLeft == 0 && !isActive`; otherwise `formatTime(timeLeft)`, which parses back to `timeLeft`; the pause icon exactly while running |
| `FlipUnit.Mount` | components/FlipUnit.tsx:9-11 | initially mounted with prop `v` and `current == next == v`, not flipping, no timeout |
| `FlipUnit.Effect` | components/FlipUnit.tsx:14-26 | the effect keeps the prop and `current`, does nothing when they agree, and otherwise re-establishes the card invariant (flipping towards the prop with one timeout for it) |
| `FlipUnit.Receive` | components/FlipUnit.tsx:14-26 | a new prop `v != current` sets `next := v`, starts flipping, keeps `current` and leaves exactly one timeout targeting `v`; `v == current` cancels any timeout and arms none; an unchanged prop changes nothing |
| `FlipUnit.Fire` | components/FlipUnit.tsx:19-22 | expiry stops the flip on the timeout's target, after which `current == next` and nothing is pending; with nothing pending it changes nothing |
| `FlipUnit.Teardown` | components/FlipUnit.tsx:24 | unmounting cancels the pending timeout and keeps what is shown |
| `FlipUnit.SameValueIsNoop` | components/FlipUnit.tsx:15 | a card at rest given the value it shows starts no timeout and changes no state |
| `FlipUnit.FlipThenSettle` | components/FlipUnit.tsx:14-22 | for `a != b`: showing `a` and receiving `b` gives flipping `a → b` with one timeout for `b`; its expiry gives the card at rest on `b` |
| `FlipUnit.Feed` | components/FlipUnit.tsx:14-26 | any run of renders keeps the card's invariant (`isFlipping` exactly when `next != current`; one timeout exactly when the prop differs from `current`) |
| `FlipUnit.FeedTracksNewest` | components/FlipUnit.tsx:14-26 | after any run of new values, `current` is unchanged and the only timeout targets the newest value (none if it equals `current`) |
| `FlipUnit.NewestValueWins` | components/FlipUnit.tsx:19-26 | a flip interrupted by new values ends on the newest value |
| `FlipUnit.RevertMidFlipStalls` | components/FlipUnit.tsx:15-24 | if the prop reverts to `current` mid-flip, the timeout is cancelled, none is armed, and the card stays flipping with the stale `next` |
| `FlipUnit.NoUpdateAfterTeardown` | components/FlipUnit.tsx:24 | after teardown no render or timeout changes the state |
| `FlipUnit.Render` | components/FlipUnit.tsx:28-45 | top panel and leaf back are `pad(next)`, bottom panel and leaf front are `pad(current)`, reading back as `next` and `current`; at rest all show the same label, mid-flip the halves differ |
| `FlipUnit.FlipDigit.constructor` | components/FlipUnit.tsx:9-11 | the component's fields start as `Mount(value)` |
| `FlipUnit.FlipDigit.RunEffect` | components/FlipUnit.tsx:15-22 | the effect body starts a flip towards a differing prop and arms its timeout |
| `FlipUnit.FlipDigit.OnValue` | components/FlipUnit.tsx:14-26 | a render moves the fields as `Receive` and keeps the invariant |
| `FlipUnit.FlipDigit.TimerFired` | components/FlipUnit.tsx:19-22 | the timeout callback moves the fields as `Fire` |
| `FlipUnit.FlipDigit.Unmount` | components/FlipUnit.tsx:24 | teardown moves the fields as `Teardown` |
| `FlipUnit.FlipDigit.View` | components/FlipUnit.tsx:31-44 | the rendered panels are `Render` of the fields; at rest every panel shows `pad(current)` |
| `Chatbot.TrimStartSuffix` | components/Chatbot.tsx:26 | leading white space is dropped: the result is a suffix of the input that is empty or starts with a non-space, and everything dropped is white space |
| `Chatbot.TrimEndPrefix` | components/Chatbot.tsx:28 | trailing white space is dropped: the result is a prefix of the input that is empty or ends with a non-space, and everything dropped is white space |
| `Chatbot.TrimKeepsSlice` | components/Chatbot.tsx:28 | `trim()` keeps one contiguous slice of the input |
| `Chatbot.TrimDropsOnlySpace` | components/Chatbot.tsx:28 | everything before and after that slice is white space |
| `Chatbot.Trim` | components/Chatbot.tsx:26-28 | `trim()` is no longer than its input, and a non-empty result neither starts nor ends with white space |
| `Chatbot.TrimEmpty` | components/Chatbot.tsx:26 | `input.trim()` is empty exactly when the input is all white space |
| `Chatbot.TrimIdempotent` | components/Chatbot.tsx:28 | trimming the trimmed text changes nothing |
| `Chatbot.History` | components/Chatbot.tsx:34-37 | the history has the transcript's length and order, each turn with the message's role and one part holding its content |
| `Chatbot.HistoryRoundTrip` | components/Chatbot.tsx:34-37 | reading each turn's first part back gives exactly the transcript |
| `Chatbot.ReplyMessage` | components/Chatbot.tsx:39-41 | the appended message is a `model` message: a non-empty reply's text, the apology for an empty or missing reply, the error notice when the call failed |
| `Chatbot.CanSend` | components/Chatbot.tsx:26 | `handleSend` proceeds exactly when the input is not all white space and no request is in flight |
| `Chatbot.SendStep` | components/Chatbot.tsx:26-31 | blank input or a request in flight changes nothing; otherwise the input is cleared, exactly one `user` message with the trimmed text is appended, and loading is set |
| `Chatbot.Outgoing` | components/Chatbot.tsx:26-38 | a request is made exactly when the send proceeds; it carries the non-empty trimmed text and a history that reads back as the transcript before the new message |
| `Chatbot.CompleteStep` | components/Chatbot.tsx:39-44 | every outcome appends exactly one reply message and clears loading, leaving the input as it is |
| `Chatbot.SendThenComplete` | components/Chatbot.tsx:25-45 | a valid send and its completion add exactly the user message and one model reply, with loading cleared and the input empty |
| `Chatbot.AppendOnly` | components/Chatbot.tsx:30-41 | after any sequence of typing, sends and completions the old transcript is a prefix of the new one |
| `Chatbot.StepGrowth` | components/Chatbot.tsx:25-45 | each event adds at most one message, and typing adds none |
| `Chatbot.ChatPanel.constructor` | components/Chatbot.tsx:12-16 | the transcript starts as exactly one `model` greeting, with empty input and not loading |
| `Chatbot.ChatPanel.SetInput` | components/Chatbot.tsx:88 | typing changes only the input |
| `Chatbot.ChatPanel.Send` | components/Chatbot.tsx:25-38 | the handler up to the `await` moves the fields as `SendStep` and returns `Outgoing`, with the history built from the transcript before its own message |
| `Chatbot.ChatPanel.Complete` | components/Chatbot.tsx:39-44 | settling the call moves the fields as `CompleteStep` |
| `Chatbot.ChatPanel.View` | components/Chatbot.tsx:47-95 | a closed panel renders nothing; an open one shows the whole transcript, the "Thinking..." row and a disabled send button exactly while loading |
| `App.RenderMode` | App.tsx:61-67 | each of the four modes yields the face for that mode; the digital and flip faces get the shared time |
| `App.KeyMode` | App.tsx:33-36 | keys `'1'`–`'4'`, and only these, select Digital, Flip, World, Timer; none of them is a theme key |
| `App.HandleKey` | App.tsx:30-37 | with the chat open any key changes nothing; `'t'`/`'T'` toggles the theme sheet and keeps the mode; a digit key sets its mode and keeps the sheet flag; any other key changes nothing |
| `App.ThemeKeyTwice` | App.tsx:32 | pressing the theme key twice restores the original state |
| `App.PressKeysOutcome` | App.tsx:30-37 | with the chat closed, any run of key presses leaves the mode of the last digit key (or the old mode) and the sheet toggled once per theme key |
| `App.ActiveMarks` | App.tsx:133-139 | exactly one theme button is marked active: the one equal to the active theme |
| `App.AppState.constructor` | App.tsx:13-20 | initially mode Digital, theme `THEMES[0]`, sheet, chat and toast closed, weather and brief absent, and the chat panel at its initial transcript |
| `App.AppState.OnKey` | App.tsx:30-37 | the key listener moves mode and sheet flag as `HandleKey` with the current chat flag, and changes nothing else |
| `App.AppState.SetMode` | App.tsx:113 | a navigation button sets the mode only |
| `App.AppState.SelectTheme` | App.tsx:132 | selecting `t` makes `t` active and closes the sheet; re-selecting the active theme only closes the sheet |
| `App.AppState.SetThemeOpen` | App.tsx:114-124 | the palette and close buttons set only the sheet flag |
| `App.AppState.SetChatOpen` | App.tsx:115-148 | opening or hiding the chat panel sets only its flag and keeps the chat transcript |
| `App.AppState.OnAiData` | App.tsx:46-51 | on the geolocation success path weather and brief are stored as the reply gives them (either may be missing) and `showBrief` is set; the toast then shows exactly the reply's brief |
| `App.AppState.DismissBrief` | App.tsx:87 | dismissing the toast clears `showBrief` and keeps weather and brief |
| `App.AppState.BriefToast` | App.tsx:79 | the toast shows exactly when `showBrief` is set and a brief is present |
| `App.AppState.Render` | App.tsx:106 | the main area shows the face for the current mode |
| `App.AppState.ChatOverlay` | App.tsx:148 | the chat overlay renders exactly while the chat flag is set, from the panel's own transcript |

## Left out

- `ClockModes.TimerMode.SetInputMinutes`: requires the minute field to hold decimal digits only (the empty field is read as `'0'`). `parseInt` on other text is not modelled: signs, decimals, trailing junk, and `NaN` arithmetic on a non-numeric field.
- `ClockModes.Minutes` and `ClockModes.TimerMode.Toggle`: an empty field counts as 0 minutes only because `inputMinutes || '0'` says so. Any other invalid text is excluded by the requirement above.
- The AI service (`services/geminiService.ts`) is not part of this model, because it wraps a network client. Its chat answer is the `Reply` input of `Chatbot.ChatPanel.Complete`. The weather/brief result is the `AiData` input of `App.AppState.OnAiData`. The fallback payload and the fact that the chat call ignores its `history` argument are not modelled. The unvalidated `JSON.parse` is modelled only as far as either field may be missing; a present field with the wrong shape is not modelled.
- Geolocation denial only logs a message, so it has no event method: it changes no state.
- `DigitalMode`, `FlipMode`, `WorldMode` and `getCityTime` (components/ClockModes.tsx:8-68) are not modelled. They read `Date`, locale formatting and the IANA time-zone database. The flip card takes its values as plain naturals.
- Real time is not modelled: the one-second intervals, the 600 ms timeout and React's effect scheduling. They become the explicit events `Tick`, `TimerFired`/`Fire`, `OnValue`/`Receive` and `OnKey`. Each event is processed completely before the next.
- The `window` key listener's registration and removal are not modelled. `OnKey` reads the current chat flag, which is what re-registering the listener on `[isChatOpen]` achieves.
- `components/WeatherWidget.tsx` and `components/Navigation.tsx` are presentation only. Their callbacks appear as `App.AppState.SetMode`, `SetThemeOpen` and `SetChatOpen`.
- The city catalogue in `constants.ts` is used only by the world clock, so it is left out.
- Weather temperature and humidity are whole numbers here; the source uses floating-point numbers.
- CSS classes, icons, animations and the chat panel's auto-scroll effect are left out. They do not change any modelled state.
- The unused `prevValueRef` in the flip card is left out.
- Strings are sequences of Unicode scalar values, not UTF-16 code units. `trim` uses the same set of white-space and line-terminator characters as JavaScript.
- Numbers are unbounded naturals. The source uses JavaScript doubles: `parseInt(...) * 60`, `prev - 1` and `toString()` lose integer precision above 2^53 and print in exponent form from 1e21. The model does not capture this.
- The countdown's life cycle under `renderMode` is not modelled. Switching to another face unmounts `TimerMode`, which loses a running countdown. Coming back remounts it in its initial state (components/ClockModes.tsx:71-73). `App.AppState` holds no timer, and `ClockModes.TimerMode` is modelled on its own.
- `ClockModes.TimerMode.SetInputMinutes`: "typing changes only the minute field" holds inside the component. In the page, the `window` key listener (App.tsx:29-40) sees the same keystrokes, so typing `1`, `2` or `3` into the minute field also switches the face and unmounts the countdown. `App.AppState.OnKey` treats every key as global, which matches the listener, but the two components are not composed in this model.
