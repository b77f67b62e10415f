/**
 * The refresh cycle of the dashboard: it fetches a weather snapshot, wakes the
 * e-paper panel, clears it, draws a fixed layout into the in-memory frame
 * buffer, pushes that frame, and puts the panel back to sleep; `start` repeats
 * this every ten minutes. Panel commands, fetches and timer waits are recorded
 * as a trace of events; the frame buffer is recorded as the draw operations
 * applied to it since it was last cleared.
 */
module Dashboard {
  import opened Wrappers
  import opened Heapless
  import opened Sequences
  import opened Decimal
  import opened Weather

  newtype byte = b: int | 0 <= b < 256

  /** The generated `ICONS` table: (file name, bitmap bytes) pairs. */
  type Registry = seq<(string, seq<byte>)>

  /**
   * What the dashboard takes from code outside this model: the icon table,
   * the `Display` rendering of an `f64`, `epd1in54_v2::WIDTH` as an `i32`, and
   * the glyph width of `PROFONT_24_POINT`.
   */
  datatype Platform = Platform(icons: Registry, showF64: real -> string, displayWidth: int, charWidth: int)

  datatype Color = Black | White
  datatype Font = ProFont24 | ProFont18 | Font10x20
  datatype Rotation = Rotate0 | Rotate90 | Rotate180 | Rotate270

  /** One drawing call on the frame buffer; all text is drawn with a top baseline. */
  datatype DrawOp =
    | Fill(color: Color)
    | Bitmap(name: string, bytes: seq<byte>, x: int, y: int)
    | Label(text: string, x: int, y: int, font: Font, color: Color)
    | Stroke(x0: int, y0: int, x1: int, y1: int, thickness: nat)
    | FilledBox(x: int, y: int, width: int, height: int, border: nat)

  /** The frame buffer as handed to the panel. */
  datatype Frame = Frame(rotation: Rotation, ops: seq<DrawOp>)

  datatype Event =
    | FetchWeather
    | WakeUp
    | ClearFrame
    | UpdateAndDisplayFrame(frame: Frame)
    | Sleep
    | Wait(seconds: nat)

  /** `DISPLAY_REFRESH_DELAY`, in seconds. */
  const SettleDelay: nat := 2
  /** The wait between two refreshes in `start`, in seconds. */
  const RefreshInterval: nat := 60 * 10

  const DateCapacity: nat := 24
  const TemperatureCapacity: nat := 20
  const HumidityCapacity: nat := 10
  const WindCapacity: nat := 10

  const HumidityIcon: string := "humidity_percentage.bmp"
  const WindIcon: string := "air.bmp"
  /** The temperature suffix as the source spells it: five bytes of UTF-8. */
  const DegreesCelsius: string := "Â°C"
  const SignatureText: string := "implRust"

  // ----- Icon lookup -----

  /** `get_icon`: the bytes of the first entry named `name`, if any. */
  function GetIcon(icons: Registry, name: string): (r: Option<seq<byte>>)
    ensures r.None? <==> forall i :: 0 <= i < |icons| ==> icons[i].0 != name
    ensures r.Some? ==>
      exists i :: 0 <= i < |icons| && icons[i] == (name, r.value) && forall j :: 0 <= j < i ==> icons[j].0 != name
  {
    if icons == [] then None
    else if icons[0].0 == name then Some(icons[0].1)
    else GetIcon(icons[1..], name)
  }

  /** Every icon name the dashboard can ask for is in the table. */
  predicate HasAllIcons(icons: Registry)
  {
    forall name :: name in IconNames + {HumidityIcon, WindIcon} ==> GetIcon(icons, name).Some?
  }

  // ----- Layout -----

  /** Rust's `i32` division by a positive divisor: it truncates toward zero. */
  function DivTrunc(a: int, d: int): (q: int)
    requires d > 0
    ensures a >= 0 ==> 0 <= a - d * q < d
    ensures a < 0 ==> -d < a - d * q <= 0
  {
    if a >= 0 then a / d else -((-a) / d)
  }

  /** `as u32` on an `i32`: the two's-complement bit pattern read as unsigned. */
  function AsU32(v: int): (u: int)
    ensures 0 <= u < 0x1_0000_0000
    ensures 0 <= v < 0x1_0000_0000 ==> u == v
    ensures -0x8000_0000 <= v < 0 ==> u == v + 0x1_0000_0000
  {
    v % 0x1_0000_0000
  }

  datatype SignatureBox = SignatureBox(x: int, y: int, width: int, height: int, textX: int)

  /** The geometry `draw_signature` computes. */
  function SignatureLayout(displayWidth: int, charWidth: int): SignatureBox
  {
    var padding := 20;
    var width := displayWidth - 2 * padding;
    var textWidth := |SignatureText| * charWidth;
    SignatureBox(padding, 170, width, 40, padding + DivTrunc(width - textWidth, 2))
  }

  /** The pieces `write!(text, "{}/{}/{}", day, month, year)` pushes. */
  function DatePieces(d: Date): seq<string>
  {
    [IntToDecimal(d.day), "/", IntToDecimal(d.month), "/", IntToDecimal(d.year)]
  }

  function DateLabel(d: Date): string
  {
    IntToDecimal(d.day) + "/" + IntToDecimal(d.month) + "/" + IntToDecimal(d.year)
  }

  lemma DatePiecesLabel(d: Date)
    ensures Concat(DatePieces(d)) == DateLabel(d)
  {
    var day, month, year := IntToDecimal(d.day), IntToDecimal(d.month), IntToDecimal(d.year);
    var ps := DatePieces(d);
    assert ps[1..] == ["/", month, "/", year];
    assert ps[1..][1..] == [month, "/", year];
    assert ps[1..][1..][1..] == ["/", year];
    ConcatTwo("/", year);
    assert Concat(ps[1..][1..]) == month + "/" + year;
    assert Concat(ps[1..]) == "/" + month + "/" + year;
  }

  function DateOps(d: Date): Option<seq<DrawOp>>
  {
    var text := DateLabel(d);
    if ByteLen(text) > DateCapacity then None
    else Some([Label(text, 20, 10, ProFont24, Black), Stroke(0, 45, 200, 45, 5)])
  }

  function IconOp(p: Platform, name: string, x: int, y: int): Option<DrawOp>
  {
    var bytes :- GetIcon(p.icons, name);
    Some(Bitmap(name, bytes, x, y))
  }

  function TemperatureOps(p: Platform, t: real, x: int, y: int): Option<seq<DrawOp>>
  {
    var text := p.showF64(t) + DegreesCelsius;
    if ByteLen(text) > TemperatureCapacity then None
    else Some([Label(text, x, y, ProFont24, Black), Stroke(0, 105, 200, 105, 5)])
  }

  function HumidityOps(p: Platform, humidity: int): Option<seq<DrawOp>>
  {
    var icon :- IconOp(p, HumidityIcon, 5, 110);
    var text := IntToDecimal(humidity);
    if ByteLen(text) > HumidityCapacity then None
    else Some([icon, Label(text, 5 + 50, 120, ProFont18, Black), Stroke(5 + 85, 120, 5 + 85, 120 + 30, 5)])
  }

  function WindOps(p: Platform, speed: real): Option<seq<DrawOp>>
  {
    var icon :- IconOp(p, WindIcon, 100, 110);
    var text := p.showF64(speed);
    if ByteLen(text) > WindCapacity then None
    else Some([icon, Label(text, 100 + 50, 120, ProFont18, Black), Label("m/s", 100 + 50, 140, Font10x20, Black)])
  }

  function SignatureOps(p: Platform): seq<DrawOp>
  {
    var b := SignatureLayout(p.displayWidth, p.charWidth);
    [FilledBox(b.x, b.y, AsU32(b.width), AsU32(b.height), 3), Label(SignatureText, b.textX, b.y, ProFont24, White)]
  }

  /**
   * The drawing pass of `refresh`, after the buffer is cleared: date, condition
   * icon, temperature, humidity, wind, signature; `None` where the source panics.
   */
  function DrawPass(p: Platform, d: WeatherData): Option<seq<DrawOp>>
  {
    var date :- DateOps(d.dt);
    var conditions :- ConditionOps(p, d);
    Some(date + conditions + SignatureOps(p))
  }

  /** The middle of the drawing pass: condition icon, temperature, humidity and wind. */
  function ConditionOps(p: Platform, d: WeatherData): Option<seq<DrawOp>>
  {
    if |d.weather| == 0 then None
    else
      var icon :- IconOp(p, Icon(d.weather[0].id), 20, 50);
      var temperature :- TemperatureOps(p, d.main.temp, 20 + 70, 60);
      var readings :- ReadingOps(p, d);
      Some([icon] + temperature + readings)
  }

  /** The humidity and wind readings at the bottom of the drawing pass. */
  function ReadingOps(p: Platform, d: WeatherData): Option<seq<DrawOp>>
  {
    var humidity :- HumidityOps(p, d.main.humidity);
    var wind :- WindOps(p, d.wind.speed);
    Some(humidity + wind)
  }

  // ----- The event traces of `refresh` and `start` -----

  /** The events of a run and whether it got to its end without a panic. */
  datatype Run = Run(events: seq<Event>, completed: bool)

  function BlankFrame(rotation: Rotation): Frame
  {
    Frame(rotation, [Fill(White)])
  }

  /** The events of one `refresh`, given what the fetch returned (`None`: it panicked). */
  function RefreshRun(p: Platform, rotation: Rotation, fetched: Option<WeatherData>): Run
  {
    match fetched
    case None => Run([FetchWeather], false)
    case Some(d) => DrawnRun(rotation, DrawPass(p, d))
  }

  /** The events of a `refresh` whose fetch returned, given how its drawing pass ended. */
  function DrawnRun(rotation: Rotation, pass: Option<seq<DrawOp>>): Run
  {
    var woken := [FetchWeather, WakeUp, Wait(SettleDelay),
                  ClearFrame, UpdateAndDisplayFrame(BlankFrame(rotation)), Wait(SettleDelay)];
    match pass
    case None => Run(woken, false)
    case Some(ops) =>
      Run(woken + [UpdateAndDisplayFrame(Frame(rotation, [Fill(White)] + ops)), Wait(SettleDelay), Sleep], true)
  }

  /** The events of the `start` loop over successive fetch results, until the first panic. */
  function StartRun(p: Platform, rotation: Rotation, fetches: seq<Option<WeatherData>>): Run
    decreases |fetches|
  {
    if fetches == [] then Run([], true)
    else
      var first := RefreshRun(p, rotation, fetches[0]);
      if !first.completed then first
      else
        var rest := StartRun(p, rotation, fetches[1..]);
        Run(first.events + [Wait(RefreshInterval)] + rest.events, rest.completed)
  }

  // ----- The dashboard object -----

  class Dashboard {
    const platform: Platform
    var rotation: Rotation
    /** The frame buffer: the draw operations applied since it was last cleared. */
    var buffer: seq<DrawOp>
    /** Fetches, panel commands and timer waits, in the order they happened. */
    var events: seq<Event>

    /** `Dashboard::new`: a default (unrotated, blank) display and nothing sent yet. */
    constructor (platform: Platform)
      ensures this.platform == platform
      ensures rotation == Rotate0 && buffer == [] && events == []
    {
      this.platform := platform;
      rotation := Rotate0;
      buffer := [];
      events := [];
    }

    /** `clear_display`: clears the panel, blanks the buffer and pushes it. */
    method ClearDisplay()
      modifies this
      ensures buffer == [Fill(White)] && rotation == old(rotation)
      ensures events == old(events) + [ClearFrame, UpdateAndDisplayFrame(BlankFrame(rotation)), Wait(SettleDelay)]
    {
      events := events + [ClearFrame];
      buffer := [Fill(White)];
      events := events + [UpdateAndDisplayFrame(Frame(rotation, buffer))];
      events := events + [Wait(SettleDelay)];
    }

    /** `draw_icon`: blits the named bitmap; panics (`ok == false`) when it is not in the table. */
    method DrawIcon(name: string, x: int, y: int) returns (ok: bool)
      modifies this
      ensures ok == IconOp(platform, name, x, y).Some?
      ensures buffer == if ok then old(buffer) + [IconOp(platform, name, x, y).value] else old(buffer)
      ensures events == old(events) && rotation == old(rotation)
    {
      var bytes := GetIcon(platform.icons, name);
      if bytes.None? {
        return false;
      }
      buffer := buffer + [Bitmap(name, bytes.value, x, y)];
      ok := true;
    }

    method DrawDate(d: Date) returns (ok: bool)
      modifies this
      ensures ok == DateOps(d).Some?
      ensures ok ==> buffer == old(buffer) + DateOps(d).value
      ensures events == old(events) && rotation == old(rotation)
    {
      var text;
      ok, text := FormatInto(DateCapacity, DatePieces(d));
      DatePiecesLabel(d);
      if !ok {
        return;
      }
      assert text == DateLabel(d);
      buffer := buffer + [Label(text, 20, 10, ProFont24, Black)];
      buffer := buffer + [Stroke(0, 45, 200, 45, 5)];
    }

    method DrawTemperature(t: real, x: int, y: int) returns (ok: bool)
      modifies this
      ensures ok == TemperatureOps(platform, t, x, y).Some?
      ensures ok ==> buffer == old(buffer) + TemperatureOps(platform, t, x, y).value
      ensures events == old(events) && rotation == old(rotation)
    {
      var text;
      ok, text := FormatInto(TemperatureCapacity, [platform.showF64(t), DegreesCelsius]);
      ConcatTwo(platform.showF64(t), DegreesCelsius);
      if !ok {
        return;
      }
      assert text == platform.showF64(t) + DegreesCelsius;
      buffer := buffer + [Label(text, x, y, ProFont24, Black)];
      buffer := buffer + [Stroke(0, 105, 200, 105, 5)];
    }

    method DrawHumidity(humidity: int) returns (ok: bool)
      modifies this
      ensures ok == HumidityOps(platform, humidity).Some?
      ensures ok ==> buffer == old(buffer) + HumidityOps(platform, humidity).value
      ensures events == old(events) && rotation == old(rotation)
    {
      ok := DrawIcon(HumidityIcon, 5, 110);
      if !ok {
        return;
      }
      var text;
      ok, text := FormatInto(HumidityCapacity, [IntToDecimal(humidity)]);
      ConcatOne(IntToDecimal(humidity));
      if !ok {
        return;
      }
      assert text == IntToDecimal(humidity);
      buffer := buffer + [Label(text, 5 + 50, 120, ProFont18, Black)];
      buffer := buffer + [Stroke(5 + 85, 120, 5 + 85, 120 + 30, 5)];
    }

    method DrawWind(speed: real) returns (ok: bool)
      modifies this
      ensures ok == WindOps(platform, speed).Some?
      ensures ok ==> buffer == old(buffer) + WindOps(platform, speed).value
      ensures events == old(events) && rotation == old(rotation)
    {
      ok := DrawIcon(WindIcon, 100, 110);
      if !ok {
        return;
      }
      var text;
      ok, text := FormatInto(WindCapacity, [platform.showF64(speed)]);
      ConcatOne(platform.showF64(speed));
      if !ok {
        return;
      }
      assert text == platform.showF64(speed);
      buffer := buffer + [Label(text, 100 + 50, 120, ProFont18, Black)];
      buffer := buffer + [Label("m/s", 100 + 50, 140, Font10x20, Black)];
    }

    method DrawSignature()
      modifies this
      ensures buffer == old(buffer) + SignatureOps(platform)
      ensures events == old(events) && rotation == old(rotation)
    {
      var displayWidth := platform.displayWidth;
      var rectPadding := 20;
      var rectWidth := displayWidth - 2 * rectPadding;
      var rectHeight := 40;
      var rectX := rectPadding;
      var rectY := 170;
      buffer := buffer + [FilledBox(rectX, rectY, AsU32(rectWidth), AsU32(rectHeight), 3)];
      var textWidth := |SignatureText| * platform.charWidth;
      var textX := rectX + DivTrunc(rectWidth - textWidth, 2);
      buffer := buffer + [Label(SignatureText, textX, rectY, ProFont24, White)];
    }

    /** The drawing pass of `refresh` (date to signature) on the cleared buffer. */
    method DrawLayout(data: WeatherData) returns (ok: bool)
      modifies this
      ensures ok == DrawPass(platform, data).Some?
      ensures ok ==> buffer == old(buffer) + DrawPass(platform, data).value
      ensures events == old(events) && rotation == old(rotation)
    {
      ok := DrawDate(data.dt);
      if !ok {
        return;
      }
      ok := DrawConditions(data);
      if !ok {
        return;
      }
      DrawSignature();
      AppendThree(old(buffer), DateOps(data.dt).value, ConditionOps(platform, data).value, SignatureOps(platform));
    }

    method DrawConditions(data: WeatherData) returns (ok: bool)
      modifies this
      ensures ok == ConditionOps(platform, data).Some?
      ensures ok ==> buffer == old(buffer) + ConditionOps(platform, data).value
      ensures events == old(events) && rotation == old(rotation)
    {
      if |data.weather| == 0 {
        return false;
      }
      ok := DrawIcon(Icon(data.weather[0].id), 20, 50);
      if !ok {
        return;
      }
      ok := DrawTemperature(data.main.temp, 20 + 70, 60);
      if !ok {
        return;
      }
      ok := DrawReadings(data);
      if !ok {
        return;
      }
      AppendThree(old(buffer), [IconOp(platform, Icon(data.weather[0].id), 20, 50).value],
        TemperatureOps(platform, data.main.temp, 20 + 70, 60).value, ReadingOps(platform, data).value);
    }

    method DrawReadings(data: WeatherData) returns (ok: bool)
      modifies this
      ensures ok == ReadingOps(platform, data).Some?
      ensures ok ==> buffer == old(buffer) + ReadingOps(platform, data).value
      ensures events == old(events) && rotation == old(rotation)
    {
      ok := DrawHumidity(data.main.humidity);
      if !ok {
        return;
      }
      ok := DrawWind(data.wind.speed);
      if !ok {
        return;
      }
      assert buffer == old(buffer) + (HumidityOps(platform, data.main.humidity).value + WindOps(platform, data.wind.speed).value);
    }

    /**
     * `refresh`: `fetched` is what `access_website` returned (`None`: it
     * panicked). Returns false where the source panics.
     */
    method Refresh(fetched: Option<WeatherData>) returns (ok: bool)
      modifies this
      ensures var run := RefreshRun(platform, old(rotation), fetched);
        events == old(events) + run.events && ok == run.completed
      ensures ok ==> buffer == [Fill(White)] + DrawPass(platform, fetched.value).value
      ensures rotation == old(rotation)
    {
      events := events + [FetchWeather];
      if fetched.None? {
        return false;
      }
      var data := fetched.value;
      events := events + [WakeUp];
      events := events + [Wait(SettleDelay)];
      AppendSingles(old(events), FetchWeather, WakeUp, Wait(SettleDelay));
      ClearDisplay();
      JoinTriples(old(events), FetchWeather, WakeUp, Wait(SettleDelay),
        ClearFrame, UpdateAndDisplayFrame(BlankFrame(rotation)), Wait(SettleDelay));
      ghost var woken := [FetchWeather, WakeUp, Wait(SettleDelay),
                          ClearFrame, UpdateAndDisplayFrame(BlankFrame(rotation)), Wait(SettleDelay)];
      ok := DrawLayout(data);
      if !ok {
        return;
      }
      var frame := Frame(rotation, buffer);
      events := events + [UpdateAndDisplayFrame(frame)];
      events := events + [Wait(SettleDelay)];
      events := events + [Sleep];
      AppendSingles(old(events) + woken, UpdateAndDisplayFrame(frame), Wait(SettleDelay), Sleep);
      AppendAssoc(old(events), woken, [UpdateAndDisplayFrame(frame), Wait(SettleDelay), Sleep]);
    }

    /**
     * `start`, run over the results of successive fetches: rotates the display
     * a quarter turn, builds the client (which panics on an over-long key),
     * then alternates `refresh` with a ten-minute wait. Returns false once the
     * source has panicked, true while it is still running.
     */
    method Start(apiKey: string, fetches: seq<Option<WeatherData>>) returns (ok: bool)
      modifies this
      ensures rotation == Rotate90
      ensures ByteLen(apiKey) > UrlCapacity - 75 ==> !ok && events == old(events)
      ensures ByteLen(apiKey) <= UrlCapacity - 75 ==>
        var run := StartRun(platform, Rotate90, fetches);
        events == old(events) + run.events && ok == run.completed
    {
      rotation := Rotate90;
      var api := NewWeatherApi(apiKey);
      if api.None? {
        return false;
      }
      var rest := fetches;
      ghost var done: seq<Event> := [];
      while rest != []
        invariant rotation == Rotate90
        invariant events == old(events) + done
        invariant StartRun(platform, Rotate90, fetches).events == done + StartRun(platform, Rotate90, rest).events
        invariant StartRun(platform, Rotate90, fetches).completed == StartRun(platform, Rotate90, rest).completed
        decreases |rest|
      {
        ghost var run := RefreshRun(platform, Rotate90, rest[0]);
        ghost var later := StartRun(platform, Rotate90, rest[1..]);
        ok := Refresh(rest[0]);
        AppendAssoc(old(events), done, run.events);
        if !ok {
          return;
        }
        events := events + [Wait(RefreshInterval)];
        AppendThree(old(events), done, run.events, [Wait(RefreshInterval)]);
        AppendThree(done, run.events, [Wait(RefreshInterval)], later.events);
        done := done + run.events + [Wait(RefreshInterval)];
        rest := rest[1..];
      }
      ok := true;
    }
  }
}
