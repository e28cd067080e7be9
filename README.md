# EmulationStation widgets, scraper and network screen in Dafny

This project models five small pieces of the EmulationStation front end and
proves what each promises:

- **GamesDB scraper** (`GamesDbScraper`, `games_db_scraper.dfy`): the query
  path built from a search name, the reply turned into at most five
  `{name, desc}` records in document order, and the blocking call that waits
  for the request to settle. The transport is a status plus a body. The XML
  parser is a function from the body to a parse failure or an element tree.
- **Switch widget** (`Switches`, `switch_component.dfy`): a class whose state
  the "a" button flips. It is read and written as `"true"`/`"false"`, and its
  image follows the state.
- **Slider widget** (`Sliders`, `slider_component.dfy`): a class holding a
  clamped value, left/right steps, and the auto-repeat accumulator (500 ms
  delay, then one step per 40 ms).
- **Button widget** (`Buttons`, `button_component.dfy`): a class with the
  gated press action, the focus- and enabled-driven box look with theme
  fallbacks, the upper-cased caption, and the minimum width.
- **Network settings screen** (`GuiWifi`, `gui_wifi.dfy`): the line-by-line
  scraping of the `iwlist`, `ifconfig` and `wificonnect` output. It covers the
  scan loop writing fixed 24-slot arrays, the row loop with its carried
  signal colour, the current-network and Ethernet screens, the saved-network
  list and removal, and the Wi-Fi on/off switch.

Two support modules hold shared pieces. `CppString` (`cpp_string.dfy`) models
`std::string::find`/`substr` the way the source uses them: `npos` stored into
an `int` is -1, and a negative count passed to `substr` means "the rest". It
also models ASCII `toupper`, `atoi`, and the text one `fgets` call returns.
`GuiInput` (`gui_input.dfy`) is the input event: the set of action names it
is mapped to, and its value.

Each command's output is given as the sequence of texts the successive
`fgets` calls return. The current theme is passed as a parameter. Font
measurements are a function from text to extent.

## Model

| member | source | states |
|---|---|---|
| CppString.Find | es-app/src/guis/GuiWifi.cpp:147-148 | `find` as stored in an `int`: -1 exactly when the pattern occurs nowhere; otherwise an occurrence with none before it |
| CppString.Substr | es-app/src/guis/GuiWifi.cpp:150-152 | `substr(pos, count)`: `count` characters from `pos` when they fit; the rest of the string for a negative or overlong count |
| CppString.ToUpperHasNoLower | es-core/src/components/ButtonComponent.cpp:48 | the upper-cased caption holds no lower-case ASCII letter |
| CppString.ToUpperIdempotent | es-core/src/components/ButtonComponent.cpp:48 | upper-casing twice is upper-casing once |
| CppString.ToUpperFixesUpper | es-core/src/components/ButtonComponent.cpp:48 | a caption without lower-case ASCII letters is kept as it is |
| CppString.AtoiTwoDigits | es-app/src/guis/GuiWifi.cpp:193 | `atoi` of two decimal digits is their two-digit value |
| CppString.AtoiNoDigits | es-app/src/guis/GuiWifi.cpp:193 | `atoi` of a text that starts with neither blank, sign nor digit is 0 (so an empty quality slot reads 0) |
| CppString.FgetsChunk | es-app/src/guis/GuiWifi.cpp:36-38 | one `fgets` call returns a prefix of the stream of at most `size - 1` characters, with no newline except possibly the last |
| GamesDbScraper.SearchTerm | src/scrapers/GamesDBScraper.cpp:18-20 | the term is `nameOverride` when non-empty, else the game's base name |
| GamesDbScraper.MakeHttpReqCarriesTerm | src/scrapers/GamesDBScraper.cpp:14-26 | the request goes to `thegamesdb.net`, and its path is `/api/GetGame.php?name=` followed by the term, unencoded, so reading the term back gives it exactly |
| GamesDbScraper.MakeHttpReqInjective | src/scrapers/GamesDBScraper.cpp:16-25 | two searches produce the same request exactly when their terms are equal |
| GamesDbScraper.ParseReq | src/scrapers/GamesDBScraper.cpp:28-63 | the sibling-cursor loop yields exactly the first five `Game` children of `Data` as records, or nothing for a failed request or a malformed body |
| GamesDbScraper.GetResults | src/scrapers/GamesDBScraper.cpp:6-12 | issues `makeHttpReq`'s request, spins while the status is in progress, then parses under the first terminal status |
| GamesDbScraper.FailedRequestYieldsNothing | src/scrapers/GamesDBScraper.cpp:32-36 | a status other than success gives the empty list |
| GamesDbScraper.MalformedReplyYieldsNothing | src/scrapers/GamesDBScraper.cpp:38-44 | a body that does not parse gives the empty list |
| GamesDbScraper.ParsedReplyResults | src/scrapers/GamesDBScraper.cpp:50-60 | a parsed reply gives `min(5, number of Game children)` records; record i holds the i-th `Game`'s `GameTitle` and `Overview` texts |
| GamesDbScraper.ResultsAreCapped | src/scrapers/GamesDBScraper.cpp:52 | never more than five records |
| GamesDbScraper.OtherTagsDoNotCount | src/scrapers/GamesDBScraper.cpp:51-59 | a child with another tag neither appears nor counts toward the cap |
| GamesDbScraper.GamesAreGames | src/scrapers/GamesDBScraper.cpp:51-59 | only children named `Game`, all taken from the reply, are visited |
| GamesDbScraper.GamesKeepsAll | src/scrapers/GamesDBScraper.cpp:51-59 | when every child is a `Game`, every one of them is visited |
| GamesDbScraper.MissingFieldIsEmpty | src/scrapers/GamesDBScraper.cpp:56 | a `Game` without `Overview` gives an empty description |
| GamesDbScraper.SettledFailureYieldsNothing | src/scrapers/GamesDBScraper.cpp:9-11 | a request that settles in failure gives no results from the blocking call |
| GamesDbScraper.ThreeGamesScenario | src/scrapers/GamesDBScraper.cpp:46-60 | a three-game reply comes back as three title/overview pairs, in order |
| Switches.ValueRoundTrip | es-core/src/components/SwitchComponent.cpp:53-68 | writing back the text read restores the state |
| Switches.ValueStringRoundTrip | es-core/src/components/SwitchComponent.cpp:53-68 | reading back after a write reproduces the text exactly for `"true"` and `"false"` and for no other text |
| Switches.ImageFor | es-core/src/components/SwitchComponent.cpp:70-74 | the selected image exactly when the switch is on |
| Switches.SwitchComponent.constructor | es-core/src/components/SwitchComponent.cpp:7-14 | the initial state as given; the theme's plain image and colour, whatever the state |
| Switches.SwitchComponent.OnStateChanged | es-core/src/components/SwitchComponent.cpp:70-74 | the image becomes the one for the current state |
| Switches.SwitchComponent.Input | es-core/src/components/SwitchComponent.cpp:21-31 | consumed exactly for a press of "a", which flips the state and refreshes the image; anything else changes nothing |
| Switches.SwitchComponent.SetState | es-core/src/components/SwitchComponent.cpp:42-51 | `getState` afterwards returns the state set; the image follows |
| Switches.SwitchComponent.GetValue | es-core/src/components/SwitchComponent.cpp:53-56 | `"true"` or `"false"`, the text `setValue` reads back as the current state |
| Switches.SwitchComponent.SetValue | es-core/src/components/SwitchComponent.cpp:58-68 | on for exactly `"true"`, off for every other text; the image follows |
| Switches.PressTwice | es-core/src/components/SwitchComponent.cpp:23-27 | two presses of "a" restore the state and show its image |
| Switches.StoreOwnValue | es-core/src/components/SwitchComponent.cpp:53-68 | `setValue(getValue())` leaves the state unchanged |
| Sliders.ClampInRange | es-core/src/components/SliderComponent.cpp:91-97 | with min ≤ max the stored value lies in [min, max]; an in-range value is stored unchanged |
| Sliders.ClampIdempotent | es-core/src/components/SliderComponent.cpp:91-97 | clamping twice is clamping once |
| Sliders.Steps | es-core/src/components/SliderComponent.cpp:59-63 | the number of loop turns: the accumulator ends below 40, and was at least 40 before the last turn |
| Sliders.Advance | es-core/src/components/SliderComponent.cpp:54-64 | rate 0 changes nothing; otherwise the accumulator ends below 40, and the value lies in range once a step was taken |
| Sliders.AdvanceAdditive | es-core/src/components/SliderComponent.cpp:54-64 | two frames of dt1 and dt2 ms move the slider exactly as one frame of dt1 + dt2 |
| Sliders.FirstRepeatAfterDelay | es-core/src/components/SliderComponent.cpp:30-64 | after a press, no repeat step happens before 540 ms of holding; after that, one step per 40 ms |
| Sliders.SliderComponent.constructor | es-core/src/components/SliderComponent.cpp:12-28 | requires min ≠ max; starts at (max + min) / 2 with rate 0, inside [min, max] when min ≤ max |
| Sliders.SliderComponent.SetValue | es-core/src/components/SliderComponent.cpp:91-100 | stores the value clamped to [min, max] |
| Sliders.SliderComponent.GetValue | es-core/src/components/SliderComponent.cpp:102-105 | the stored value, which lies in [min, max] whenever min ≤ max, because the constructor, `setValue`, `input` and `update` all keep it there |
| Sliders.SliderComponent.Input | es-core/src/components/SliderComponent.cpp:30-52 | left/right are always consumed; a press steps by ∓/± increment, clamped; press and release set the rate to ±increment or 0 and the accumulator to -500; other input is delegated and changes nothing; the value stays in [min, max] when min ≤ max |
| Sliders.SliderComponent.Update | es-core/src/components/SliderComponent.cpp:54-67 | the loop's effect is `Advance`: one clamped step per 40 ms taken off the accumulator, which ends below 40; the value stays in [min, max] when min ≤ max |
| Sliders.TwoFrames | es-core/src/components/SliderComponent.cpp:54-64 | two successive updates equal one update of the summed time |
| Buttons.FilledPath | es-core/src/components/ButtonComponent.cpp:80-83 | the theme's focused image, or `:/button_filled.png` when the theme has none |
| Buttons.PlainPath | es-core/src/components/ButtonComponent.cpp:81-84 | the theme's image, or `:/button.png` when the theme has none |
| Buttons.LookCases | es-core/src/components/ButtonComponent.cpp:86-96 | disabled or without action: filled image, both colours 0x770000FF; otherwise both colours white and the image filled exactly when focused |
| Buttons.SizeFor | es-core/src/components/ButtonComponent.cpp:53-54 | width is `max(text width + 12, width of "DELETE" + 12)`, never below the "DELETE" minimum; height is the text height |
| Buttons.ButtonComponent.constructor | es-core/src/components/ButtonComponent.cpp:8-22 | not focused, enabled, caption upper-cased, box looked up for that state, text colours from the theme |
| Buttons.ButtonComponent.SetPressedFunc | es-core/src/components/ButtonComponent.cpp:29-32 | stores the action only; the box is not refreshed |
| Buttons.ButtonComponent.Input | es-core/src/components/ButtonComponent.cpp:34-44 | a press of "a" is always consumed and runs the action exactly when one is set and the button is enabled; other input is delegated |
| Buttons.ButtonComponent.SetText | es-core/src/components/ButtonComponent.cpp:46-57 | caption stored upper-cased, help text verbatim, size from the caption |
| Buttons.ButtonComponent.UpdateImage | es-core/src/components/ButtonComponent.cpp:77-97 | the box takes the look for the current enabled, action and focus flags |
| Buttons.ButtonComponent.OnFocusGained | es-core/src/components/ButtonComponent.cpp:59-63 | focused, box refreshed; only the focus flag and the box change |
| Buttons.ButtonComponent.OnFocusLost | es-core/src/components/ButtonComponent.cpp:65-69 | not focused, box refreshed; only the focus flag and the box change |
| Buttons.ButtonComponent.SetEnabled | es-core/src/components/ButtonComponent.cpp:71-75 | the enabled flag as given, box refreshed; nothing else changes |
| Buttons.ButtonComponent.CurTextColor | es-core/src/components/ButtonComponent.cpp:120-126 | the focused colour exactly when focused, else the unfocused one |
| Buttons.ButtonComponent.HelpPromptLabel | es-core/src/components/ButtonComponent.cpp:128-133 | the help text when non-empty, else the caption |
| Buttons.PromptAfterSetText | es-core/src/components/ButtonComponent.cpp:46-133 | with no help text the prompt is the upper-cased caption, and gaining focus leaves it alone |
| GuiWifi.WifiOffExactly | es-app/src/guis/GuiWifi.cpp:33-48 | the interface reads as off exactly when the flags text begins with `0x1002` |
| GuiWifi.WanCommand | es-app/src/guis/GuiWifi.cpp:50-65 | `sudo ifconfig wlan0 up` for on; `sudo ifconfig wlan0 down ` (with its trailing blank) for off |
| GuiWifi.OpenWifiToggle | es-app/src/guis/GuiWifi.cpp:464-469 | the "Wifi status" switch shows `getWifiState` and its image |
| GuiWifi.SaveWifiToggle | es-app/src/guis/GuiWifi.cpp:470 | saving runs the up command exactly when the switch is on |
| GuiWifi.ScanSsid | es-app/src/guis/GuiWifi.cpp:147-154 | the recorded network name is never empty or a single blank |
| GuiWifi.EssidOfQuotedName | es-app/src/guis/GuiWifi.cpp:147-154 | a line `…ESSID:"X"` ending in a newline yields X (also on the current-network screen, GuiWifi.cpp:271-276), or `[Hidden Network]` in the scan when X is empty or one blank |
| GuiWifi.ChannelOfLine | es-app/src/guis/GuiWifi.cpp:159-166 | a channel line shows what follows "Channel" and one separator, less its last character: `(Channel 11)` gives "11", `Channel:11` gives "1" |
| GuiWifi.QualityOfTwoDigits | es-app/src/guis/GuiWifi.cpp:171-193 | the quality is the two characters 29 past `Quality`; two digits there read as their value |
| GuiWifi.EncryptionOf | es-app/src/guis/GuiWifi.cpp:135-145 | `Encryption key:on` means encrypted; otherwise `Encryption key:off` means open; otherwise the line says nothing |
| GuiWifi.KindOf | es-app/src/guis/GuiWifi.cpp:147-180 | a line is an ESSID line if it mentions ESSID, else a channel line, else a quality line: the order of the `continue`s |
| GuiWifi.ScanLineFields | es-app/src/guis/GuiWifi.cpp:132-181 | each line adds an encryption flag when it mentions encryption, and independently adds to at most one of the SSID, channel and quality lists |
| GuiWifi.EssidTakesPriority | es-app/src/guis/GuiWifi.cpp:147-157 | a line with an ESSID is recorded as a name only, whatever else it mentions |
| GuiWifi.ScanCounts | es-app/src/guis/GuiWifi.cpp:118-181 | each counter equals the number of lines of its category, and the categories partition the lines |
| GuiWifi.ScanGrows | es-app/src/guis/GuiWifi.cpp:132-181 | counters only grow: what a prefix of the output records is a prefix of what the whole output records |
| GuiWifi.ScanLines | es-app/src/guis/GuiWifi.cpp:115-181 | the scan loop leaves each 24-slot array holding its category's values in line order, then the untouched slots; each counter is its list's length |
| GuiWifi.Bars | es-app/src/guis/GuiWifi.cpp:192-206 | ≥85 "\|", ≥75 "\| \|", ≥65 "\| \| \|", >10 "\| \| \| \|", otherwise "\|" |
| GuiWifi.TierColor | es-app/src/guis/GuiWifi.cpp:194-206 | ≥85 0xCE0000FF, ≥75 0xF24207FF, ≥65 0x33F207FF, >10 0x078DF2FF; no colour at 10 or below |
| GuiWifi.BuildRows | es-app/src/guis/GuiWifi.cpp:183-240 | the row loop yields one row per recorded network with the colour carried across rows, or the single "no networks" row |
| GuiWifi.ConnectToNewWifi | es-app/src/guis/GuiWifi.cpp:115-240 | the scan loop then the row loop give the network list of the scan output |
| GuiWifi.OneRowPerNetwork | es-app/src/guis/GuiWifi.cpp:188-240 | one row per network, in scan order, showing its name; exactly one "NO NETWORKS COULD BE FOUND." row when there is none |
| GuiWifi.NameColourFollowsEncryption | es-app/src/guis/GuiWifi.cpp:208-223 | an encrypted network is named in 0xFF7777FF, an open one in 0x77BB77FF, and its row carries the flag |
| GuiWifi.SignalFollowsQuality | es-app/src/guis/GuiWifi.cpp:186-217 | the bars follow the row's quality; the colour is its tier colour, or at 10 or below the previous row's colour (the menu colour for the first row) |
| GuiWifi.SavedName | es-app/src/guis/GuiWifi.cpp:418 | a listed line loses its last character; an empty line stays empty |
| GuiWifi.SavedNameDropsNewline | es-app/src/guis/GuiWifi.cpp:416-418 | a newline-terminated line lists exactly the name before the newline |
| GuiWifi.RemoveCommand | es-app/src/guis/GuiWifi.cpp:429 | `sudo <path> --remove "<name>"`: the prefix, the name as it is, and a closing quote, read back by position |
| GuiWifi.RemoveCommandNamesNetwork | es-app/src/guis/GuiWifi.cpp:429 | two names give the same remove command exactly when they are equal |
| GuiWifi.SavedNetworks | es-app/src/guis/GuiWifi.cpp:393-451 | the list command runs the helper under the home directory; without `wificonnect`, only the missing-helper message; otherwise one row per line of the list command's output, in order, with its name and the remove command for the same helper |
| GuiWifi.RemovalMessages | es-app/src/guis/GuiWifi.cpp:432-441 | one message per output line: success exactly when the line starts with '0' |
| GuiWifi.IpOfInetLine | es-app/src/guis/GuiWifi.cpp:352-358 | for `inet addr:A  Bcast…` with a dotted address A, the Ethernet screen shows A; the Wi-Fi screen (GuiWifi.cpp:301-307) cuts one character later and shows A plus one blank |
| GuiWifi.MacOfHwaddrLine | es-app/src/guis/GuiWifi.cpp:361-365 | for `HWaddr M…` with a 17-character M, the MAC shown is a blank followed by M |
| GuiWifi.TrafficOfBytesLine | es-app/src/guis/GuiWifi.cpp:367-374 | the received part loses its last character; the transmitted part starts at "TX" and loses the two characters before the newline |
| GuiWifi.LastWith | es-app/src/guis/GuiWifi.cpp:348-375 | the last line containing a pattern, or -1 when none does |
| GuiWifi.EthernetIpFromLastLine | es-app/src/guis/GuiWifi.cpp:352-359 | the address shown comes from the last `inet addr` line; empty when there is none |
| GuiWifi.EthernetMacFromLastLine | es-app/src/guis/GuiWifi.cpp:361-365 | the MAC shown comes from the last `HWaddr` line; empty when there is none |
| GuiWifi.EthernetTrafficFromLastLine | es-app/src/guis/GuiWifi.cpp:367-374 | the traffic shown comes from the last `RX bytes` line; empty when there is none |
| GuiWifi.EthernetDetails | es-app/src/guis/GuiWifi.cpp:329-391 | the `ifconfig eth0` loop computes each field as the fold over the lines, and the DATA label joins the received and transmitted texts of that fold |
| GuiWifi.CurrentSsidIsLastEssid | es-app/src/guis/GuiWifi.cpp:268-277 | the current network name comes from the last ESSID line, with no hidden-network substitution |
| GuiWifi.CurrentChannelIsLastChannel | es-app/src/guis/GuiWifi.cpp:279-285 | the channel shown comes from the last Channel line, and is empty when there is none |
| GuiWifi.CurrentQualityIsLastQuality | es-app/src/guis/GuiWifi.cpp:287-293 | the quality shown comes from the last Quality line, and is empty when there is none |
| GuiWifi.CurrentIpIsLastInet | es-app/src/guis/GuiWifi.cpp:297-309 | the address shown comes from the last `inet addr` line, and is empty when there is none |
| GuiWifi.CurrentWifiInfo | es-app/src/guis/GuiWifi.cpp:246-327 | the two loops compute name, channel and quality from the `iwlist` lines and the address from the `ifconfig` lines, every test running on every line |
| GuiWifi.CurrentIp | es-app/src/guis/GuiWifi.cpp:297-309 | the `ifconfig wlan0` loop shows the address of the last `inet addr` line with one trailing blank, or nothing when there is none |
| GuiWifi.MenuInput | es-app/src/guis/GuiWifi.cpp:511-523 | input the base component takes is delegated; otherwise a press of "b" or "start" closes the menu |
| GuiWifi.ClosePromptIsHonest | es-app/src/guis/GuiWifi.cpp:511-532 | the prompt that says a button closes the menu names a button that does close it |

## Left out

- Rendering: the `render` methods, transforms, text caches, nine-patch fitting and the slider knob geometry and its suffix text (`onSizeChanged`, `onValueChanged`).
- Floating point: slider values are `real`, without `float` rounding.
- The theme singleton and fonts are parameters. Font measurements are a function from text to extent.
- Colours are kept as their unsigned values. The network screen stores them in an `int`, where values above 0x7FFFFFFF become negative.
- Help prompts: only the button's prompt label and the network menu's prompt list are modelled. The switch's ("a", "change") and the slider's ("left/right", "change") are constants with nothing to prove.
- Process calls (`popen`, `system`, `sudo`) are not modelled. Their output is the sequence of texts `fgets` returns, at most 1034 bytes each. `boost::filesystem::exists` is a boolean parameter.
- GUI plumbing is not modelled: `pushGui`, `delete`, `GuiSettings`/`GuiMsgBox` construction, save functions, accept handlers, the `GuiWifiConnect` screen, and the menu's entries, arrows, footer and position.
- Logging and the unused reads are not modelled: the scraper's `baseImgUrl`, the `ifconfig wlan0` read at the start of a scan, and `netid`.
- The scan's channel list is recorded but never shown, because its display is commented out in the source.
- `HttpReq` networking, pugixml internals and the asynchronous `getResultsAsync` path are not modelled. Every terminal failure status is one `Failed` value.
- `MetaDataList` internals are not modelled: a result is a `{name, desc}` pair.
- Bytes are modelled as characters: the output of a process is a `string`, so the `fgets` bound, the last-byte cut in `SavedName` and the `find`/`substr` offsets count characters. For ASCII output, which these tools print, the two agree.
- CppString.Substr: requires `pos` within the string. In C++ a larger `pos` throws `out_of_range`, which the source never catches.
- GamesDbScraper.GetResults: requires `Settles(polls)`, that the status eventually leaves "in progress". The source spins forever on a request that never settles, and the model does not cover that case.
- GuiWifi.ScanLines: requires every line to be cut without that exception (`ScanCuttable`) and at most 24 entries per category. Beyond 24, the source writes past its arrays.
- GuiWifi.EthernetDetails: requires every `inet addr` line to be long enough to cut, and every `RX bytes` line to hold "TX" before its last two characters. Otherwise the source throws `out_of_range`.
- GuiWifi.CurrentWifiInfo: requires ESSID, Channel and `inet addr` lines long enough to cut, for the same reason.
- GuiWifi.ConnectToNewWifi: flag slots the scan never writes are uninitialised in the source, so they are a parameter (`stale`).
- GuiWifi.WifiOffExactly: when the flags file yields nothing, the source compares an uninitialised buffer. The model reads that case as the empty text, that is "on".
- GuiWifi.RemovalMessages: gives one message per output line. The source also deletes the list screen on every success line, which is a double delete when two lines start with '0'.
- GuiWifi.OpenWifiToggle: the switch is built in the "off" state before `setState`. The default state comes from a header that is not part of this model.
- Sliders.SliderComponent.constructor: leaves the repeat accumulator unset, as the source does. The slider only reads it after an input has set it.
- CppString.FgetsChunk: the contract bounds the chunk and places its only newline last. It does not state the exact length.
