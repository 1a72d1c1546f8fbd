# Small stateful parts of the LED-matrix firmware, in Dafny

This project models four pieces of an LED-matrix information display's firmware and proves properties of them:

- **The install command** (`WsCommand`). This is the websocket command that installs a plugin. `SetPar` collects the one parameter: the plugin name in quotes. It strips the first and last character and latches an error on a parameter shorter than two characters, or on a parameter that arrives after a non-empty name is stored (after `""` the name is still empty, so the next parameter is taken). `Execute` turns the error flag and the result of the plugin manager's `install` into the exact reply. The reply is `ACK;<slot id>;<uid>` or `NACK;"reason"`. On success it also enables the plugin and saves the installed plugins, and in every case where it replies it then resets itself. The plugin manager and the display manager are oracles (`Managers`). What `install` returns and which slot a plugin sits in are functions of the calls made so far, and every install, enable and save call is recorded, so the contracts can say which calls happen and in which order.
- **The millisecond timer** (`Timer.SimpleTimer`). It has `start`, `stop`, `restart`, `isTimerRunning` and `isTimeout`, and the current tick is an explicit `now`. Ticks are unsigned 32-bit values, and the elapsed time wraps around modulo 2^32.
- **The OpenWeather 32x8 view's state** (`OpenWeatherView`). It holds the view duration, the units, the weather-info bitmask, the cursor `weatherInfoId`, the current weather record and its "updated" flag, and it owns a view-duration timer. The setters behave differently:
  - A new view duration stops the timer.
  - A new bitmask resets the cursor to 0 and stops the timer.
  - A new weather record, one that differs in a compared field, is stored and sets the "updated" flag; it touches neither the cursor nor the timer.
  - For these three setters, writing an unchanged value does nothing.
  - `setUnits` stores its value without checking for a change.
- **Logging** (`Logging`). This covers four things:
  - the ordered levels INFO < WARNING < ERROR < FATAL and the severity filter;
  - the table of `MAX_SINKS` (2) sinks, with register, unregister and select-by-name;
  - the message handed to the selected sink, with its text bounded by `MESSAGE_BUFFER_SIZE`;
  - the reduction of a `__FILE__` path to its base name.

`ArduinoString` holds the fixed-width unsigned types. It also holds the decimal rendering that the Arduino `String` uses when a number is appended. `Split` is the client's view of a delimited reply, used to state what a reply carries.

Points where the model had to choose:

- The bodies of `SimpleTimer.hpp` and `Logging.cpp` are not part of this model. The timer follows every assertion of `test/TestSimpleTimer.cpp`. The sink table follows the declarations and comments of `lib/Utilities/Logging.h` and the assertions of `test/TestLogging.cpp`.
  - `registerSink` takes the first free entry and refuses a null sink.
  - `unregisterSink` empties every entry that holds the sink, and clears the selection if that sink was selected.
  - `selectSink` selects the first registered sink with the name and leaves the selection alone when there is none.
  - The object invariant `Valid()` states that only a registered sink can be selected. This is why nothing reaches a sink after it is unregistered.
- The command protocol is described as rejecting malformed quoting at once, without touching the plugin manager. The code of `setPar` does not check that the first and last characters are quotes; it only removes them. The model follows the code: `"clock` becomes `cloc` and is passed to `install`.
- The value-initialised weather record is not visible in the sources, so the view's constructor takes it as a parameter.
- Temperature, humidity, UV index and wind speed are treated as equality-comparable values (`Reading`).

## Model

| member | source | states |
|---|---|---|
| `ArduinoString.Decimal` | src/Web/WsCommand/WsCmdInstall.cpp:89-92 | appending a number appends at least one decimal digit, only digits, and a leading '0' exactly when the number is 0 |
| `ArduinoString.DecimalRoundTrip` | src/Web/WsCommand/WsCmdInstall.cpp:89-92 | reading the appended digits back gives the number |
| `ArduinoString.DecimalInjective` | src/Web/WsCommand/WsCmdInstall.cpp:89-92 | different slot ids or uids give different digit strings |
| `WsCommand.Unquote` | src/Web/WsCommand/WsCmdInstall.cpp:115-118 | the stored name is the parameter with exactly its first and last character removed, whatever those characters are |
| `WsCommand.UnquoteQuote` | src/Web/WsCommand/WsCmdInstall.cpp:111-118 | unquoting a name a client enclosed in quotes gives the name back |
| `WsCommand.AckReplyRoundTrip` | src/Web/WsCommand/WsCmdInstall.cpp:79-92 | the reply splits at ';' into exactly "ACK", the slot id and the uid, in that order, and both numbers read back exactly |
| `WsCommand.NackReplyFields` | src/Web/WsCommand/WsCmdInstall.cpp:75-85 | a negative reply splits at ';' into exactly "NACK" and the quoted reason |
| `WsCommand.NackRepliesAreNackReplies` | src/Web/WsCommand/WsCmdInstall.cpp:75-85 | the two literal replies are "NACK" followed by the quoted reasons "Parameter invalid." and "Plugin not found." |
| `WsCommand.Managers.Install` | src/Web/WsCommand/WsCmdInstall.cpp:81 | the plugin manager's install answers from its oracle and records the call |
| `WsCommand.Managers.GetSlotIdByPluginUid` | src/Web/WsCommand/WsCmdInstall.cpp:90 | the display manager's slot for the plugin's uid, answered from its oracle after the calls made so far, including the install |
| `WsCommand.Managers.Enable` | src/Web/WsCommand/WsCmdInstall.cpp:94 | enabling the installed plugin is recorded as one call |
| `WsCommand.Managers.Save` | src/Web/WsCommand/WsCmdInstall.cpp:97 | saving the installed plugins is recorded as one call |
| `WsCommand.WsCmdInstall.constructor` | src/Web/WsCommand/WsCmdInstall.cpp:103-104 | a new command has no error and no name, the state execute returns to |
| `WsCommand.WsCmdInstall.SetPar` | src/Web/WsCommand/WsCmdInstall.cpp:109-126 | with no name stored and at least 2 characters, stores the unquoted parameter and keeps the error flag; otherwise keeps the name and sets the error flag (a `""` parameter leaves the name empty, so a later parameter is still taken) |
| `WsCommand.WsCmdInstall.Execute` | src/Web/WsCommand/WsCmdInstall.cpp:64-107 | without a server or a client: no reply, no call, state kept. With the error flag: exactly `NACK;"Parameter invalid."` and no call. If install finds no plugin: exactly `NACK;"Plugin not found."` and only the install call. On success: `ACK;<slot>;<uid>`, then enable and exactly one save, in that order. After replying, the flag is false and the name empty |
| `Timer.SimpleTimer.constructor` | test/TestSimpleTimer.cpp:81-85 | a new timer is not running (so not timed out) and has duration 0 |
| `Timer.SimpleTimer.Start` | test/TestSimpleTimer.cpp:88-91 | the timer runs with the given duration counted from now |
| `Timer.SimpleTimer.Stop` | test/TestSimpleTimer.cpp:94-96 | the timer no longer runs; start tick and duration are kept |
| `Timer.SimpleTimer.Restart` | test/TestSimpleTimer.cpp:99-101 | the timer runs again from now with the last started duration |
| `Timer.SimpleTimer.IsTimeout` | test/TestSimpleTimer.cpp:84-107 | timed out exactly when running and the wrapped elapsed time reaches the duration; never when stopped; always when running with duration 0 |
| `Timer.SimpleTimer.IsTimerRunning` | test/TestSimpleTimer.cpp:84-100 | reports whether the timer is armed; a timer that is not armed does not time out at any tick |
| `Timer.TimeoutPersists` | test/TestSimpleTimer.cpp:88-91 | a timeout stays while time moves on and the timer is not touched |
| `Timer.NoTimeoutBeforeDuration` | test/TestSimpleTimer.cpp:104-107 | a running timer has not timed out before its duration has elapsed, so `start(100)` clears an earlier timeout |
| `Timer.TestSimpleTimer` | test/TestSimpleTimer.cpp:79-111 | the test's checks, in order, give exactly the values it asserts, whatever `millis()` reads at each call, provided only that the last query comes less than 100 ms after `start(100)` |
| `OpenWeatherView.OpenWeatherView32x8.constructor` | lib/Views/src/layouts/OpenWeatherView32x8.h:81-93 | view duration 0, units "metric", mask 0, cursor 0, not updated, and a stopped timer |
| `OpenWeatherView.OpenWeatherView32x8.SetViewDuration` | lib/Views/src/layouts/OpenWeatherView32x8.h:155-164 | stores the duration; only if it differs from the stored one, stops the timer; nothing else changes |
| `OpenWeatherView.OpenWeatherView32x8.SetUnits` | lib/Views/src/layouts/OpenWeatherView32x8.h:171-174 | stores the units and changes nothing else |
| `OpenWeatherView.OpenWeatherView32x8.GetWeatherInfo` | lib/Views/src/layouts/OpenWeatherView32x8.h:182-185 | gives the stored bitmask |
| `OpenWeatherView.OpenWeatherView32x8.SetWeatherInfo` | lib/Views/src/layouts/OpenWeatherView32x8.h:193-204 | afterwards GetWeatherInfo gives the new mask; a different mask also resets the cursor to 0 and stops the timer; the same mask changes nothing |
| `OpenWeatherView.OpenWeatherView32x8.RestartWeatherInfo` | lib/Views/src/layouts/OpenWeatherView32x8.h:210-216 | always sets the cursor to 0 and stops the timer, and touches nothing else |
| `OpenWeatherView.OpenWeatherView32x8.SetWeatherInfoCurrent` | lib/Views/src/layouts/OpenWeatherView32x8.h:223-234 | if iconId, temperature, humidity, uvIndex or windSpeed differ, stores the record and sets the updated flag; otherwise nothing changes, and in particular writing an equal record changes nothing |
| `OpenWeatherView.OpenWeatherView32x8.SetWeatherInfoForecast` | lib/Views/src/layouts/OpenWeatherView32x8.h:247-260 | touches neither the view nor its timer, and forecasts are not supported |
| `Logging.LevelsAreOrdered` | lib/Utilities/Logging.h:98-104 | INFO < WARNING < ERROR < FATAL |
| `Logging.SeverityTotal` | lib/Utilities/Logging.h:98-104 | of any two levels, one is at least the other, and both only if they are equal |
| `Logging.SeverityMonotone` | lib/Utilities/Logging.h:245-252 | what passes the filter passes at every higher level and at every lower threshold |
| `Logging.Logging.IsSeverityValid` | lib/Utilities/Logging.h:245-252 | a level passes exactly when it is at least the current level |
| `Logging.BaseNameFromPath` | lib/Utilities/Logging.h:254-261 | the result is a suffix of the path. If the path has a backslash, the result is whatever follows the last one. Otherwise, if it has a slash, whatever follows the last slash. Otherwise the whole path |
| `Logging.LastIndexOf` | test/TestLogging.cpp:89-98 | like `strrchr`: the last position holding the character, or none when it does not occur |
| `Logging.Truncate` | lib/Utilities/Logging.h:130-131 | the text kept is a prefix of the message: the whole message when it is shorter than MESSAGE_BUFFER_SIZE, otherwise exactly its first MESSAGE_BUFFER_SIZE - 1 characters |
| `Logging.LogSink.constructor` | lib/Utilities/Logging.h:313-318 | a sink keeps the name it is created with, which `getName` gives and select-by-name compares |
| `Logging.Logging.constructor` | lib/Utilities/Logging.h:266-277 | level ERROR, both of the MAX_SINKS entries empty, no sink selected |
| `Logging.Logging.RegisterSink` | lib/Utilities/Logging.h:145-152 | succeeds exactly when the sink is not null and an entry is free, and then fills the first free entry; the table keeps MAX_SINKS entries |
| `Logging.Logging.UnregisterSink` | lib/Utilities/Logging.h:154-159 | the sink leaves every entry, and the selection if it was selected |
| `Logging.Logging.SelectSink` | lib/Utilities/Logging.h:161-168 | succeeds exactly when a registered sink has the name, then selects the first such sink; otherwise the selection is kept |
| `Logging.Logging.GetSelectedSink` | lib/Utilities/Logging.h:170-175 | the selected sink, if any, is a registered one |
| `Logging.Logging.GetLogLevel` | lib/Utilities/Logging.h:184-189 | the current level: it passes the filter itself, and a level passes exactly when it is at least this one |
| `Logging.Logging.SetLogLevel` | lib/Utilities/Logging.h:177-189 | afterwards GetLogLevel gives the level just set; the selection is kept and the table invariant holds |
| `Logging.Logging.ProcessLogMessage` | lib/Utilities/Logging.h:191-216 | a message reaches a sink exactly when its level passes and a sink is selected. It reaches the selected sink, carrying the tick, level, base name of the file, line and text, and the text is shorter than MESSAGE_BUFFER_SIZE characters |
| `Logging.TestLogging` | test/TestLogging.cpp:84-169 | register and select of "test" succeed; the level starts at ERROR; after setting INFO the level reads INFO; an INFO message at ERROR is discarded; both ERROR messages reach "test" with the file's base name; after unregistering, an ERROR message reaches nothing |

## Left out

- The plugin slot scheduler, the plugin registry and the plugin manager's lifecycle and persistence are not among the modelled sources. `install`, `getSlotIdByPluginUID`, `enable` and `save` are oracles of the install command.
- `SimpleTimer.hpp` and `Logging.cpp` are not part of this model. Their behaviour is taken from the test assertions and the header's declarations and comments, as described above.
- `Timer.SimpleTimer`: the Arduino `millis()` clock is the parameter `now`.
- `Timer.TimeoutPersists`: it holds only while the wrapped elapsed time grows, that is, until the 32-bit tick counter passes the start tick again.
- `Logging.Logging.ProcessLogMessage`: formatting with `printf` and variable arguments is not modelled. The model takes the formatted text, and the timestamp is the parameter `now`. The text is cut to fewer than MESSAGE_BUFFER_SIZE characters, where the firmware's buffer holds fewer than MESSAGE_BUFFER_SIZE bytes; the two agree on ASCII text only.
- `Logging.Truncate`: lengths are counted in characters, where `vsnprintf` into the 80-byte buffer counts bytes of UTF-8. The two agree on ASCII text; 79 copies of 'ä' are kept whole here but cut to 79 bytes by the firmware.
- `WsCommand.WsCmdInstall.SetPar`: lengths and positions are counted in characters, where `strlen` and `String::substring` count bytes. The two agree on ASCII parameters; for "é" (two bytes) the firmware stores an empty name without error, while the model latches the error.
- The third overload of `processLogMessage`, the one with a timestamp and a logger name, is not modelled: its body is not shown, so it is unknown how the logger name and the line fill the message.
- `LogSink::send` and the printer sink's output format (column widths, timestamps) are foreign. The model returns the message and the sink it is handed to.
- The `getInstance` singletons, mutexes and the websocket transport are left out. The server and client arguments become the flags `hasServer` and `hasClient`, and the reply is returned instead of being sent with `text`.
- OpenWeatherView32x8: the bodies of `update`, `getWeatherInfoCount`, `nextWeatherInfo`, `getActiveWeatherInfo`, `updateWeatherInfoOnView`, `handleWeatherInfo`, `getIconPathByWeatherIconId` and `uvIndexToColor` are not shown. So are the per-info duration split from `VIEW_DURATION_DEFAULT` and `VIEW_DURATION_MIN`, the icon paths, and the drawing. None of these is modelled.
- OpenWeatherView32x8: `init`, `getFontType` and `setFontType` are widget and font glue and are not modelled.
- `OpenWeatherView.OpenWeatherView32x8.SetWeatherInfoCurrent`: the readings are floats in the firmware. The model compares them as exact values, so a NaN reading, which differs from itself and makes every call an update, is not modelled.
- `src/Hal/ClockDrv.cpp`, `data/js/rest.js`, `src/Plugin/Plugins/IconTextLampPlugin.h` and `lib/TempHumidPlugin/src/internal/View32x8.h` are platform, network, drawing and declaration-only code, and are not part of this model.
