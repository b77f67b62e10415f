# weather-station: a Dafny model of the refresh cycle

The firmware of an ESP32 e-paper weather dashboard fetches the current
weather for one city from OpenWeatherMap every ten minutes. It classifies the
condition code into one of nine icons and draws a fixed layout on a 200-pixel
e-paper panel: the date, the icon, the temperature, humidity, wind and a
signature band. This project models the core of that firmware, `src/weather.rs`
and `src/dashboard.rs`, and proves what the code promises about it.

Modules, one per file:

- `Wrappers` (`wrappers.dfy`): `Option`, with the failure-propagating `:-`.
- `Sequences` (`sequences.dfy`): regrouping lemmas for concatenation. They let
  traces and frame buffers be compared without unfolding their elements.
- `Heapless` (`heapless.dfy`): the bounded `heapless::String<N>`.
  - Its capacity counts UTF-8 bytes (`ByteLen`).
  - It is a class with a `text` field that `PushStr` and `Write` (the
    `write!` formatter) update in place.
  - `FormatInto` formats into a fresh buffer.
  - `DecodeVec` is the length- and element-checked decode of `heapless::Vec`.
- `Decimal` (`decimal.dfy`): Rust's `{}` rendering of an integer, its read-back,
  and its width for `i32` values.
- `Weather` (`weather.dfy`):
  - the 55-variant `ConditionCode` with its discriminants and the partial
    decode from an integer;
  - `icon`;
  - the bounded shape of a decoded `WeatherData`;
  - `WeatherApi::new`, which builds the request URL by two `push_str` calls
    into a `String<120>`.
- `Dashboard` (`dashboard.dfy`):
  - the draw operations;
  - `get_icon`;
  - the layout as functions (`DateOps` … `SignatureOps`, and `DrawPass` for
    the whole drawing pass);
  - the event trace of one `refresh` (`RefreshRun`) and of the `start` loop
    (`StartRun`);
  - the class `Dashboard`, whose methods update a rotation, a frame buffer
    (the draw operations since the last clear) and a trace of panel commands,
    fetches and timer waits.
- `DashboardProperties` (`dashboard_properties.dfy`):
  - when the drawing pass succeeds;
  - the centring of the signature label;
  - the order of panel commands and settle delays;
  - the panel's power-state cycle (sleeping, awake, cleared, displaying);
  - the spacing of the `start` loop;
  - a worked snapshot.

Every `unwrap` or `expect` in the source is a panic, and the firmware's panic
handler then loops forever. A panic is therefore modelled either as `None` or
as an `ok == false` result. The trace ends at that point.

Things that come from outside the two files are parameters of the model:

- the network fetch, as `Option<WeatherData>` (`None` means `access_website`
  panicked);
- the generated `ICONS` table;
- `f64` `Display` (`Platform.showF64`);
- `epd1in54_v2::WIDTH`;
- the glyph width of `PROFONT_24_POINT`;
- the compile-time `API_KEY`.

## Behaviour worth noting

- Code 504 (`ExtremeRain`) is drawn as `rainy_heavy.bmp`, like 500–503,
  520–522 and 531 (`ExtremeRainIsHeavy`).
- The temperature suffix is written `"Â°C"` in the source. That is five bytes
  of UTF-8. It is what the label contains and what counts against the 20-byte
  buffer (`DegreesCelsiusBytes`).
- An unknown condition code makes the JSON decode fail. `access_website`
  unwraps that failure, so the refresh panics after the fetch and before any
  panel command (`UnknownCodeStopsRefresh`).
- A failed fetch panics. Nothing re-arms the timer.
- Each refresh pushes a frame twice: the blank one from `clear_display`, then
  the drawn one. The power-state cycle (`PanelStep`) therefore lets a push
  follow a push.
- The first `wake_up` reaches a panel that `Epd1in54::new` has just
  initialised. A wake-up is therefore accepted when the panel is awake as well
  as when it is asleep.

## Model

| member | source | states |
|---|---|---|
| Heapless.HString.PushStr | src/weather.rs:36-38 | The append happens exactly when the old bytes plus the new ones fit the capacity. On failure the string is unchanged. |
| Heapless.HString.Write | src/dashboard.rs:188-189 | `write!` succeeds iff the old text plus all the pieces fit. Then the text is the old text followed by the pieces in order. |
| Heapless.FormatInto | src/dashboard.rs:132-133 | Formatting into a fresh `String<N>` succeeds iff the joined pieces take at most N bytes. The result is then exactly those pieces. |
| Heapless.DecodeVec | src/weather.rs:20 | A `Vec<T, N>` decodes iff there are at most N items and each decodes. The result keeps the order and length of the items. |
| Heapless.Utf8Width | src/weather.rs:25 | A character takes 1 to 4 bytes, and 1 exactly when it is ASCII. |
| Heapless.ByteLenAppend | src/weather.rs:36-38 | The byte length of a concatenation is the sum of the byte lengths. |
| Decimal.NatToDecimal | src/dashboard.rs:189 | The rendering is a non-empty string of decimal digits with no leading zero, except for 0 itself. |
| Decimal.IntToDecimalRoundTrip | src/dashboard.rs:151 | Reading back what `{}` printed for an integer gives that integer. |
| Decimal.NatToDecimalLength | src/dashboard.rs:189 | A natural number takes at most k digits exactly when it is below 10^k. |
| Decimal.I32DecimalFitsTen | src/dashboard.rs:150-151 | An `i32` rendering fits the 10-byte humidity buffer iff the value is greater than -1000000000. |
| Decimal.I32DecimalAtMostEleven | src/dashboard.rs:188-189 | Every `i32` renders in at most 11 bytes. |
| Weather.DecodeDomain | src/weather.rs:74-145 | An integer decodes iff it is one of the 55 listed discriminants. |
| Weather.DecodeSound | src/weather.rs:74-145 | The variant decoded from n has discriminant n. |
| Weather.DecodeCode | src/weather.rs:74-145 | Every variant's discriminant decodes back to that variant. |
| Weather.DecodeRejects | src/weather.rs:74-145 | An integer is rejected exactly when no variant carries it. |
| Weather.DecodeRejectsGaps | src/weather.rs:74-145 | 203, 505, 623, 805 and 999 are rejected, as is everything below 200 or above 804. |
| Weather.DecodeThunderstormCorrect | src/weather.rs:77-87 | The 2xx group decodes exactly 200–202, 210–212, 221 and 230–232, each to its own variant. |
| Weather.DecodeDrizzleCorrect | src/weather.rs:89-98 | The 3xx group decodes exactly 300–302, 310–314 and 321. |
| Weather.DecodeRainCorrect | src/weather.rs:100-110 | The 5xx group decodes exactly 500–504, 511, 520–522 and 531. |
| Weather.DecodeSnowCorrect | src/weather.rs:112-123 | The 6xx group decodes exactly 600–602, 611–613, 615, 616 and 620–622. |
| Weather.DecodeAtmosphereCorrect | src/weather.rs:125-135 | The 7xx group decodes exactly 701, 711, 721, 731, 741, 751, 761, 762, 771 and 781. |
| Weather.DecodeSkyCorrect | src/weather.rs:137-144 | The 8xx group decodes exactly 800–804. |
| Weather.Icon | src/weather.rs:148-219 | `icon` is total, and its result is always one of the nine icon file names. |
| Weather.IconGroups | src/weather.rs:150-217 | Each icon is chosen exactly by its discriminant range: storm 200–232, rainy 300–321, heavy rain 500–504 and 520–531, mix 511, snow 600–622, fog 701–771, cyclone 781, sun 800, cloud 801–804. |
| Weather.IconOfCode | src/weather.rs:148-219 | For every integer that decodes, the same iff per icon is stated on the integer itself. |
| Weather.ExtremeRainIsHeavy | src/weather.rs:178-182 | 504 decodes to `ExtremeRain`, which is drawn as `rainy_heavy.bmp`. |
| Weather.ClearSkyIsSunny | src/weather.rs:211 | 800 decodes to `ClearSky`, which is drawn as `sunny.bmp`. |
| Weather.DecodeWeather | src/weather.rs:222-225 | A `weather` entry decodes iff its id is one of the 55 known codes. The decoded entry's variant has that id as its discriminant. |
| Weather.DecodeWeatherData | src/weather.rs:18-26 | A response decodes iff all of these hold: at most 4 entries, all ids known, `i32` integers, a date with an `i32` year, a month in 1..12 and a day in 1..31, and a name of at most 20 bytes. That date check is a superset of the dates chrono yields. The result is well formed and keeps every field. |
| Weather.UrlPrefixLength | src/weather.rs:36 | The fixed URL prefix is 75 ASCII characters, so 75 bytes. |
| Weather.NewWeatherApi | src/weather.rs:34-40 | Building the client succeeds iff the key takes at most 45 bytes. The URL is then the prefix followed by the key. |
| Heapless.ByteLen | src/weather.rs:36-38 | The UTF-8 byte length `str::len` and `heapless` capacity count. `ByteLenBounds` bounds it between one and four bytes per character. `ByteLenAppend` makes it add over concatenation. |
| Heapless.ByteLenBounds | src/weather.rs:25 | A string takes at least one byte and at most four bytes per character. |
| Decimal.IntToDecimal | src/dashboard.rs:151 | What `{}` prints for an integer: a minus sign exactly for negative values, then decimal digits. `IntToDecimalRoundTrip` reads it back, and `I32DecimalFitsTen` gives its width. |
| Weather.Code | src/weather.rs:74-145 | The `u16` discriminant of each variant, in 200..804. `DecodeCode` and `DecodeSound` make it the inverse of `Decode`. |
| Weather.Decode | src/weather.rs:74-145 | The `Deserialize_repr` decode of an integer into a condition code. `DecodeDomain` says it accepts exactly the 55 listed discriminants. `DecodeCode` and `DecodeSound` make it a round trip with `Code`. |
| Dashboard.DivTrunc | src/dashboard.rs:229 | `i32` division by a positive divisor, truncating toward zero. The remainder takes the dividend's sign and is smaller than the divisor. |
| Dashboard.SignatureLayout | src/dashboard.rs:202-229 | The band and label geometry `draw_signature` computes. `SignatureCentred` states the band position and size and the centring of the label. |
| Dashboard.DateOps | src/dashboard.rs:185-199 | What `draw_date` adds, or `None` where its `write!` panics. `DateLabelFits` says it never panics on a decoded date. |
| Dashboard.IconOp | src/dashboard.rs:120-126 | What `draw_icon` adds, or `None` where `get_icon` misses. `DrawPassSucceeds` names the icons the pass needs. |
| Dashboard.TemperatureOps | src/dashboard.rs:128-143 | What `draw_temperature` adds, or `None` where its `write!` panics. `DrawPassSucceeds` gives the 15-byte condition on the rendering. |
| Dashboard.HumidityOps | src/dashboard.rs:145-161 | What `draw_humidity` adds, or `None` where an unwrap panics. `DrawPassSucceeds` and `I32DecimalFitsTen` say when that is. |
| Dashboard.WindOps | src/dashboard.rs:163-183 | What `draw_wind` adds, or `None` where an unwrap panics. `DrawPassSucceeds` gives the 10-byte condition on the speed. |
| Dashboard.SignatureOps | src/dashboard.rs:201-239 | What `draw_signature` adds: the filled band and the white label. `SignatureCentred` states their geometry. |
| Dashboard.DrawPass | src/dashboard.rs:85-93 | The whole drawing pass of `refresh`, or `None` at its first panic. `DrawPassSucceeds` and `DrawPassWithAllIcons` say exactly when it panics. `SunnySnapshot` works an example. |
| Dashboard.ConditionOps | src/dashboard.rs:87-91 | The icon, temperature, humidity and wind steps, with `weather[0]` panicking on an empty list. Its conditions are part of `DrawPassSucceeds`. |
| Dashboard.ReadingOps | src/dashboard.rs:90-91 | The humidity and wind steps. Its conditions are part of `DrawPassSucceeds`. |
| Dashboard.RefreshRun | src/dashboard.rs:75-101 | The events of one `refresh` for each fetch outcome. `RefreshPanelOrder`, `RefreshSettleDelays` and `RefreshPanelProtocol` state its command order, its waits and the panel states it passes through. |
| Dashboard.DrawnRun | src/dashboard.rs:80-101 | The events of a `refresh` whose fetch returned, for each outcome of the drawing pass. `DrawnPanelOrder`, `DrawnSettleDelays` and `DrawnPanelProtocol` state its properties. |
| Dashboard.StartRun | src/dashboard.rs:60-73 | The events of the `start` loop over successive fetch results, up to the first panic. `StartCompleted`, `StartRefreshSpacing` and `StartPanelProtocol` state its properties. |
| Dashboard.GetIcon | src/dashboard.rs:113-118 | The lookup returns the bytes of the first entry with that name, and `None` iff no entry has it. |
| Dashboard.AsU32 | src/dashboard.rs:218 | `as u32` yields a value in 0..2^32. It equals the input when the input is already in range, and a negative `i32` v becomes v + 2^32. |
| Dashboard.DatePiecesLabel | src/dashboard.rs:189 | The pieces `write!` pushes for the date join to `day/month/year`. |
| Dashboard.Dashboard.constructor | src/dashboard.rs:51-58 | A new dashboard has a default rotation, an empty buffer and nothing sent. |
| Dashboard.Dashboard.ClearDisplay | src/dashboard.rs:103-111 | It sends clear, pushes the buffer blanked to white, then waits 2 s. The buffer is left white. |
| Dashboard.Dashboard.DrawIcon | src/dashboard.rs:120-126 | It panics iff the name is not in the table. Otherwise it adds that entry's bitmap at the given point. |
| Dashboard.Dashboard.DrawDate | src/dashboard.rs:185-199 | It panics iff the date label exceeds 24 bytes. Otherwise it adds the label at (20,10) and the divider at y 45. |
| Dashboard.Dashboard.DrawTemperature | src/dashboard.rs:128-143 | It panics iff the rendering plus its suffix exceeds 20 bytes. Otherwise it adds the label and the divider at y 105. |
| Dashboard.Dashboard.DrawHumidity | src/dashboard.rs:145-161 | It adds the humidity icon, the decimal humidity and the vertical divider. It panics when the icon is missing or the text exceeds 10 bytes. |
| Dashboard.Dashboard.DrawWind | src/dashboard.rs:163-183 | It adds the wind icon, the speed and "m/s". It panics when the icon is missing or the speed exceeds 10 bytes. |
| Dashboard.Dashboard.DrawSignature | src/dashboard.rs:201-239 | It adds the filled band and the white "implRust" label at the computed geometry. |
| Dashboard.Dashboard.DrawLayout | src/dashboard.rs:85-93 | The drawing pass succeeds exactly when `DrawPass` does. The buffer then gains exactly `DrawPass`'s operations, in order. |
| Dashboard.Dashboard.DrawConditions | src/dashboard.rs:87-91 | The icon, temperature, humidity and wind steps, as `ConditionOps`. |
| Dashboard.Dashboard.DrawReadings | src/dashboard.rs:90-91 | The humidity and wind steps, as `ReadingOps`. |
| Dashboard.Dashboard.Refresh | src/dashboard.rs:75-101 | The trace grows by exactly `RefreshRun`'s events. The result says whether the refresh completed. The pushed frame is white followed by the drawing pass. |
| Dashboard.Dashboard.Start | src/dashboard.rs:60-73 | Rotation becomes 90°. An over-long key panics before any event. Otherwise the trace is exactly `StartRun` over the fetch results. |
| DashboardProperties.SignatureCentred | src/dashboard.rs:202-229 | The band is at (20,170), of size (WIDTH-40)×40. The label's margins differ by at most one pixel, and equal iff the slack is even. When the label fits, it lies inside the band. |
| DashboardProperties.DegreesCelsiusBytes | src/dashboard.rs:133 | The suffix takes 5 bytes. |
| DashboardProperties.DateLabelFits | src/dashboard.rs:185-189 | Every date with an `i32` year, a month in 1..12 and a day in 1..31 renders in at most 17 bytes, so `draw_date` never panics. |
| DashboardProperties.DrawPassSucceeds | src/dashboard.rs:85-93 | On a decoded snapshot the pass panics exactly when one of these holds: no entry, a missing icon, a temperature over 15 bytes, humidity ≤ -1000000000, or wind over 10 bytes. |
| DashboardProperties.DrawPassWithAllIcons | src/dashboard.rs:113-126 | With every icon in the table, only the three label widths decide. |
| DashboardProperties.RefreshPanelOrder | src/dashboard.rs:77-111 | The fetch comes first. A failed fetch sends no command. Otherwise the commands are wake-up, clear and the blank push, then, iff the pass succeeds, the drawn push and sleep. |
| DashboardProperties.DrawnPanelOrder | src/dashboard.rs:80-111 | The same, for a fetch that returned. |
| DashboardProperties.RefreshSettleDelays | src/dashboard.rs:80-110 | A 2 s wait follows the wake-up and every push. The fetch is the only fetch. A completed refresh ends with sleep, with no wait after it. A refresh contains no 600 s wait. |
| DashboardProperties.DrawnSettleDelays | src/dashboard.rs:80-110 | The same, for a fetch that returned. |
| DashboardProperties.RefreshPanelProtocol | src/dashboard.rs:80-100 | From a sleeping or awake panel, every command is accepted. The panel ends unchanged after a failed fetch, showing a frame after a draw panic, and asleep after a completed refresh. |
| DashboardProperties.DrawnPanelProtocol | src/dashboard.rs:80-100 | The same, for a fetch that returned. |
| DashboardProperties.StartCompleted | src/dashboard.rs:68-72 | The loop runs through all the fetch results iff no refresh panics. |
| DashboardProperties.StartRefreshSpacing | src/dashboard.rs:68-72 | The loop starts with a fetch, and every later fetch directly follows a 600 s wait. |
| DashboardProperties.StartWaitAfterSleep | src/dashboard.rs:68-72 | Conversely, every 600 s wait directly follows the sleep that ends a completed refresh. A loop whose refreshes all complete ends with that wait. With `StartRefreshSpacing`, refreshes and single waits alternate. |
| DashboardProperties.StartPanelProtocol | src/dashboard.rs:60-72 | Over the whole loop the panel accepts every command. It ends asleep when at least one refresh ran and none panicked. |
| DashboardProperties.UnknownCodeStopsRefresh | src/weather.rs:69 | A response with an unknown code leaves exactly the fetch event and an incomplete refresh. |
| DashboardProperties.SunnySnapshot | src/dashboard.rs:85-93 | Worked example: code 800, 5 March 2024, 40% humidity. It is drawn as "5/3/2024", the sun icon, the temperature, "40", the wind and "m/s", then the signature, each at its fixed point. |

## Left out

- `WeatherApi::access_website` is left out: DNS, TCP, TLS 1.2 with the pinned
  CA, and the HTTP request and body read are network I/O. Its result is a
  parameter of `refresh`, where `None` is a panic anywhere in it. Only the
  JSON decode's checks are modelled (`DecodeWeatherData`).
- The parsing of JSON text by `serde_json_core` is left out; the decode starts
  from the already-split fields. The conversion of the `dt` timestamp to a UTC
  calendar date by chrono is also left out: the date is given as
  (year, month, day) with an `i32` year.
- `Weather.DecodeWeatherData` does not model `ts_seconds` rejecting a
  timestamp outside chrono's range. Its date check (`ValidDate`) admits every
  `i32` year, and days 1..31 in every month. That is a superset of the
  calendar dates chrono yields, whose years lie in -262144..262143.
  `DateLabelFits` holds on the whole superset.
- `f64` formatting is a parameter (`Platform.showF64`), because floating-point
  printing is library code. The model says nothing about what it prints,
  only about its byte length.
- `f64` values (`temp`, `feels_like`, `temp_min`, `temp_max`, `speed`, `deg`,
  `gust`) are modelled as the `real`s they denote. Signed zero collapses:
  `-0.0` and `0.0` are the same real, although `{}` prints them as `"-0"` and
  `"0"`. So the model cannot give those two temperatures different labels.
  NaN and the infinities are not represented either.
- Rasterisation, fonts, BMP decoding and the `Display1in54` bit layout are
  left out. The frame buffer is the list of draw operations issued since the
  last clear. `Bmp::from_slice` and every `draw(...).unwrap()` are taken to
  succeed: a bitmap in the table is assumed well formed.
- Panel commands over SPI (`wake_up`, `clear_frame`, `update_and_display_frame`,
  `sleep`) are trace events, and their `unwrap`s are taken to succeed.
- `Tls::new(sha).expect(...)` and the hardware RSA set-up are taken to
  succeed, since they are peripheral initialisation.
- Timers and the async executor are left out. A delay is a `Wait(seconds)`
  event. The `info!` logging is left out.
- `Dashboard.Dashboard.Start` does not model the infinite loop itself. It runs
  the loop over a finite sequence of fetch results, one per cycle, and ends
  either after the last one or at the first panic.
- `Dashboard.SignatureLayout` does not model `i32` overflow. The arithmetic
  is on unbounded integers. For the panel's real width and glyph width the
  values are a few hundred, far from the bounds. The `as u32` casts are
  modelled (`AsU32`).
- `src/bin/main.rs` is not part of this model: it covers peripheral, SPI,
  Wi-Fi and heap bring-up, and the panic handler.
- `build.rs` is not part of this model: it generates the `ICONS` table and
  hooks linker errors. The table is the abstract `Registry`.
- The panel state machine (`PanelStep`) is not in the code. It is the panel's
  sleeping, awake, cleared and displaying power cycle. The code is proved to
  follow it.
