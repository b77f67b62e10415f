/**
 * What one refresh and the `start` loop promise: the drawing pass succeeds
 * exactly when its labels fit their buffers and its icons are in the table,
 * the signature label is centred in its band, and the trace drives the panel
 * through wake, clear, push and sleep with a settle delay after each step.
 */
module DashboardProperties {
  import opened Wrappers
  import opened Heapless
  import opened Sequences
  import opened Decimal
  import opened Weather
  import opened Dashboard

  // ----- Layout -----

  /**
   * The signature band sits at (20, 170) with width `WIDTH - 40` and height
   * 40; the label's left and right margins inside it differ by at most one
   * pixel (the one truncating division drops), and when the label is no
   * wider than the band it lies inside it, the right margin taking the odd pixel.
   */
  lemma SignatureCentred(displayWidth: int, charWidth: int)
    ensures var b := SignatureLayout(displayWidth, charWidth);
      && b.x == 20 && b.y == 170 && b.width == displayWidth - 40 && b.height == 40
    ensures var b := SignatureLayout(displayWidth, charWidth);
      var textWidth := |SignatureText| * charWidth;
      var left := b.textX - b.x;
      var right := (b.x + b.width) - (b.textX + textWidth);
      && -1 <= right - left <= 1
      && (right == left <==> (b.width - textWidth) % 2 == 0)
      && (0 <= textWidth <= b.width ==> 0 <= left <= right)
  {
    var b := SignatureLayout(displayWidth, charWidth);
    var gap := b.width - |SignatureText| * charWidth;
    assert b.textX - b.x == DivTrunc(gap, 2);
    if gap < 0 {
      assert DivTrunc(gap, 2) == -((-gap) / 2);
      assert gap - 2 * DivTrunc(gap, 2) == -((-gap) % 2);
    } else {
      assert gap - 2 * DivTrunc(gap, 2) == gap % 2;
    }
  }

  // ----- Text buffers -----

  /** The temperature suffix takes five of the twenty bytes. */
  lemma DegreesCelsiusBytes()
    ensures ByteLen(DegreesCelsius) == 5
  {
    assert DegreesCelsius[1..][1..] == "C";
    assert ByteLen("C") == 1;
  }

  lemma SmallDecimalBytes(n: int, k: nat)
    requires k >= 1 && 0 <= n < Pow10(k)
    ensures ByteLen(IntToDecimal(n)) <= k
  {
    IntToDecimalAscii(n);
    NatToDecimalLength(n, k);
  }

  /**
   * `draw_date` cannot panic on a date chrono produces: day and month take
   * at most two bytes each and an `i32` year at most eleven, so the label
   * takes at most 17 of the 24 bytes.
   */
  lemma DateLabelFits(d: Date)
    requires ValidDate(d)
    ensures ByteLen(DateLabel(d)) <= 17
    ensures DateOps(d).Some?
  {
    assert Pow10(2) == 100 by {
      assert Pow10(1) == 10;
    }
    var day, month, year := IntToDecimal(d.day), IntToDecimal(d.month), IntToDecimal(d.year);
    SmallDecimalBytes(d.day, 2);
    SmallDecimalBytes(d.month, 2);
    I32DecimalAtMostEleven(d.year);
    assert ByteLen("/") == 1;
    ByteLenAppend(day, "/");
    ByteLenAppend(day + "/", month);
    ByteLenAppend(day + "/" + month, "/");
    ByteLenAppend(day + "/" + month + "/", year);
  }

  /**
   * On a decoded snapshot the drawing pass panics only where the source
   * does: no `weather` entry, a missing icon, a temperature rendering over
   * 15 bytes, a ten-digit negative humidity, or a wind rendering over 10 bytes.
   */
  lemma DrawPassSucceeds(p: Platform, d: WeatherData)
    requires WellFormed(d)
    ensures DrawPass(p, d).Some? <==>
      && |d.weather| > 0
      && GetIcon(p.icons, Icon(d.weather[0].id)).Some?
      && ByteLen(p.showF64(d.main.temp)) <= TemperatureCapacity - 5
      && GetIcon(p.icons, HumidityIcon).Some?
      && d.main.humidity > -1_000_000_000
      && GetIcon(p.icons, WindIcon).Some?
      && ByteLen(p.showF64(d.wind.speed)) <= WindCapacity
  {
    DateLabelFits(d.dt);
    DegreesCelsiusBytes();
    ByteLenAppend(p.showF64(d.main.temp), DegreesCelsius);
    I32DecimalFitsTen(d.main.humidity);
  }

  /**
   * With every icon name in the table, the drawing pass of a decoded snapshot
   * with a `weather` entry depends only on the three labels fitting.
   */
  lemma DrawPassWithAllIcons(p: Platform, d: WeatherData)
    requires WellFormed(d) && HasAllIcons(p.icons) && |d.weather| > 0
    ensures DrawPass(p, d).Some? <==>
      && ByteLen(p.showF64(d.main.temp)) <= TemperatureCapacity - 5
      && d.main.humidity > -1_000_000_000
      && ByteLen(p.showF64(d.wind.speed)) <= WindCapacity
  {
    DrawPassSucceeds(p, d);
    var name := Icon(d.weather[0].id);
    assert name in IconNames + {HumidityIcon, WindIcon};
    assert HumidityIcon in IconNames + {HumidityIcon, WindIcon};
    assert WindIcon in IconNames + {HumidityIcon, WindIcon};
  }

  // ----- Panel commands -----

  /** The events that are commands to the panel, as opposed to fetches and waits. */
  predicate IsPanelCommand(e: Event)
  {
    e.WakeUp? || e.ClearFrame? || e.UpdateAndDisplayFrame? || e.Sleep?
  }

  /** The panel commands of a trace, in order. */
  function PanelCommands(events: seq<Event>): seq<Event>
  {
    if events == [] then []
    else (if IsPanelCommand(events[0]) then [events[0]] else []) + PanelCommands(events[1..])
  }

  lemma {:induction false} PanelCommandsAppend(a: seq<Event>, b: seq<Event>)
    ensures PanelCommands(a + b) == PanelCommands(a) + PanelCommands(b)
  {
    if a != [] {
      assert (a + b)[1..] == a[1..] + b;
      PanelCommandsAppend(a[1..], b);
    } else {
      assert a + b == b;
    }
  }

  /**
   * One `refresh` fetches before it sends the panel anything; a failed fetch
   * sends nothing; otherwise the panel sees wake-up, clear, the blank push,
   * and, when the drawing pass does not panic, the drawn push and sleep.
   */
  lemma RefreshPanelOrder(p: Platform, rotation: Rotation, fetched: Option<WeatherData>)
    ensures var run := RefreshRun(p, rotation, fetched);
      |run.events| > 0 && run.events[0] == FetchWeather
    ensures var run := RefreshRun(p, rotation, fetched);
      run.completed <==> fetched.Some? && DrawPass(p, fetched.value).Some?
    ensures var run := RefreshRun(p, rotation, fetched);
      fetched.None? <==> PanelCommands(run.events) == []
    ensures var run := RefreshRun(p, rotation, fetched);
      fetched.Some? && !run.completed ==>
        PanelCommands(run.events) == [WakeUp, ClearFrame, UpdateAndDisplayFrame(BlankFrame(rotation))]
    ensures var run := RefreshRun(p, rotation, fetched);
      run.completed ==>
        PanelCommands(run.events) ==
          [WakeUp, ClearFrame, UpdateAndDisplayFrame(BlankFrame(rotation)),
           UpdateAndDisplayFrame(Frame(rotation, [Fill(White)] + DrawPass(p, fetched.value).value)), Sleep]
  {
    assert PanelCommands([FetchWeather]) == [] by {
      assert [FetchWeather][1..] == [];
    }
    if fetched.Some? {
      DrawnPanelOrder(rotation, DrawPass(p, fetched.value));
    }
  }

  /** The panel commands of a refresh whose fetch returned, by how its drawing pass ended. */
  lemma DrawnPanelOrder(rotation: Rotation, pass: Option<seq<DrawOp>>)
    ensures var run := DrawnRun(rotation, pass);
      && run.events[0] == FetchWeather
      && run.completed == pass.Some?
      && PanelCommands(run.events) ==
        [WakeUp, ClearFrame, UpdateAndDisplayFrame(BlankFrame(rotation))]
        + (if pass.Some? then [UpdateAndDisplayFrame(Frame(rotation, [Fill(White)] + pass.value)), Sleep] else [])
  {
    var blank := UpdateAndDisplayFrame(BlankFrame(rotation));
    var first, second := [FetchWeather, WakeUp, Wait(SettleDelay)], [ClearFrame, blank, Wait(SettleDelay)];
    PanelCommandsSingles(FetchWeather, WakeUp, Wait(SettleDelay));
    PanelCommandsSingles(ClearFrame, blank, Wait(SettleDelay));
    PanelCommandsAppend(first, second);
    var woken := [FetchWeather, WakeUp, Wait(SettleDelay), ClearFrame, blank, Wait(SettleDelay)];
    JoinTriples([], FetchWeather, WakeUp, Wait(SettleDelay), ClearFrame, blank, Wait(SettleDelay));
    assert [] + first == first && [] + woken == woken;
    assert PanelCommands(woken) == [WakeUp, ClearFrame, blank];
    if pass.Some? {
      var drawn := UpdateAndDisplayFrame(Frame(rotation, [Fill(White)] + pass.value));
      PanelCommandsSingles(drawn, Wait(SettleDelay), Sleep);
      assert PanelCommands([drawn, Wait(SettleDelay), Sleep]) == [drawn, Sleep];
      PanelCommandsAppend(woken, [drawn, Wait(SettleDelay), Sleep]);
      assert DrawnRun(rotation, pass).events == woken + [drawn, Wait(SettleDelay), Sleep];
    }
  }

  lemma PanelCommandsSingles(x: Event, y: Event, z: Event)
    ensures PanelCommands([x, y, z]) ==
      (if IsPanelCommand(x) then [x] else []) + (if IsPanelCommand(y) then [y] else []) + (if IsPanelCommand(z) then [z] else [])
  {
    assert [x, y, z][1..] == [y, z];
    assert [y, z][1..] == [z];
    assert [z][1..] == [];
    var hy, hz := (if IsPanelCommand(y) then [y] else []), (if IsPanelCommand(z) then [z] else []);
    assert PanelCommands([z]) == hz + PanelCommands([]);
    assert PanelCommands([y, z]) == hy + PanelCommands([z]);
  }

  // ----- Settle delays -----

  /**
   * In one `refresh` the fetch is the first event and the only fetch, a
   * 2-second wait follows the wake-up and every push of the frame, and a
   * completed refresh ends with the sleep command, with no wait after it.
   */
  lemma RefreshSettleDelays(p: Platform, rotation: Rotation, fetched: Option<WeatherData>)
    ensures var ev := RefreshRun(p, rotation, fetched).events;
      forall i :: 0 <= i < |ev| ==> ev[i] != Wait(RefreshInterval)
    ensures var ev := RefreshRun(p, rotation, fetched).events;
      forall i :: 0 <= i < |ev| && (ev[i].WakeUp? || ev[i].UpdateAndDisplayFrame?) ==>
        i + 1 < |ev| && ev[i + 1] == Wait(SettleDelay)
    ensures var ev := RefreshRun(p, rotation, fetched).events;
      |ev| > 0 && ev[0] == FetchWeather && forall i :: 0 < i < |ev| ==> ev[i] != FetchWeather
    ensures var run := RefreshRun(p, rotation, fetched);
      run.completed ==> run.events[|run.events| - 1] == Sleep
  {
    if fetched.Some? {
      DrawnSettleDelays(rotation, DrawPass(p, fetched.value));
    }
  }

  lemma DrawnSettleDelays(rotation: Rotation, pass: Option<seq<DrawOp>>)
    ensures var ev := DrawnRun(rotation, pass).events;
      forall i :: 0 <= i < |ev| ==> ev[i] != Wait(RefreshInterval)
    ensures var ev := DrawnRun(rotation, pass).events;
      forall i :: 0 <= i < |ev| && (ev[i].WakeUp? || ev[i].UpdateAndDisplayFrame?) ==>
        i + 1 < |ev| && ev[i + 1] == Wait(SettleDelay)
    ensures var ev := DrawnRun(rotation, pass).events;
      |ev| > 0 && ev[0] == FetchWeather && forall i :: 0 < i < |ev| ==> ev[i] != FetchWeather
    ensures var run := DrawnRun(rotation, pass);
      run.completed ==> run.events[|run.events| - 1] == Sleep
  {
    var ev := DrawnRun(rotation, pass).events;
    assert |ev| == if pass.Some? then 9 else 6;
    assert ev[1] == WakeUp && ev[2] == Wait(SettleDelay) && ev[4].UpdateAndDisplayFrame? && ev[5] == Wait(SettleDelay);
    if pass.Some? {
      assert ev[6].UpdateAndDisplayFrame? && ev[7] == Wait(SettleDelay) && ev[8] == Sleep;
    }
  }

  // ----- The panel's power states -----

  /** The four states the panel goes through in a cycle. */
  datatype PanelState = Sleeping | Awake | Cleared | Displaying

  /**
   * The transitions the panel accepts: wake-up when asleep (or already awake,
   * as it is right after `Epd1in54::new`), clear when awake, a push when
   * cleared or already showing a frame, sleep when showing a frame; `None`
   * for any other command. Fetches and waits leave it as it is.
   */
  function PanelStep(s: PanelState, e: Event): Option<PanelState>
  {
    match e
    case WakeUp => if s == Sleeping || s == Awake then Some(Awake) else None
    case ClearFrame => if s == Awake then Some(Cleared) else None
    case UpdateAndDisplayFrame(_) => if s == Cleared || s == Displaying then Some(Displaying) else None
    case Sleep => if s == Displaying then Some(Sleeping) else None
    case FetchWeather => Some(s)
    case Wait(_) => Some(s)
  }

  /** The state after a trace, or `None` once a command is sent in the wrong state. */
  function RunPanel(s: PanelState, events: seq<Event>): Option<PanelState>
    decreases |events|
  {
    if events == [] then Some(s)
    else
      var t :- PanelStep(s, events[0]);
      RunPanel(t, events[1..])
  }

  lemma {:induction false} RunPanelAppend(s: PanelState, a: seq<Event>, b: seq<Event>)
    ensures RunPanel(s, a + b) == match RunPanel(s, a) case None => None case Some(t) => RunPanel(t, b)
    decreases |a|
  {
    if a == [] {
      assert a + b == b;
    } else {
      assert (a + b)[0] == a[0] && (a + b)[1..] == a[1..] + b;
      match PanelStep(s, a[0])
      case None =>
      case Some(t) => RunPanelAppend(t, a[1..], b);
    }
  }

  lemma RunPanelSingles(s: PanelState, x: Event, y: Event, z: Event)
    ensures RunPanel(s, [x, y, z]) ==
      match PanelStep(s, x)
      case None => None
      case Some(a) =>
        match PanelStep(a, y)
        case None => None
        case Some(b) => PanelStep(b, z)
  {
    assert [x, y, z][1..] == [y, z];
    assert [y, z][1..] == [z];
    assert [z][1..] == [];
    match PanelStep(s, x)
    case None =>
    case Some(a) =>
      assert RunPanel(s, [x, y, z]) == RunPanel(a, [y, z]);
      match PanelStep(a, y)
      case None =>
      case Some(b) =>
        assert RunPanel(a, [y, z]) == RunPanel(b, [z]);
        match PanelStep(b, z)
        case None =>
        case Some(c) =>
          assert RunPanel(b, [z]) == RunPanel(c, []);
  }

  /**
   * One `refresh` from a sleeping or awake panel follows the panel's
   * transitions: after a failed fetch it is untouched, after a panic in the
   * drawing pass it is left showing the blank frame, and after a completed
   * refresh it is asleep again.
   */
  lemma RefreshPanelProtocol(p: Platform, rotation: Rotation, fetched: Option<WeatherData>, s: PanelState)
    requires s == Sleeping || s == Awake
    ensures var run := RefreshRun(p, rotation, fetched);
      RunPanel(s, run.events) == Some(if fetched.None? then s else if run.completed then Sleeping else Displaying)
  {
    if fetched.Some? {
      DrawnPanelProtocol(rotation, DrawPass(p, fetched.value), s);
    } else {
      assert [FetchWeather][1..] == [];
    }
  }

  lemma DrawnPanelProtocol(rotation: Rotation, pass: Option<seq<DrawOp>>, s: PanelState)
    requires s == Sleeping || s == Awake
    ensures RunPanel(s, DrawnRun(rotation, pass).events) == Some(if pass.Some? then Sleeping else Displaying)
  {
    var blank := UpdateAndDisplayFrame(BlankFrame(rotation));
    var first, second := [FetchWeather, WakeUp, Wait(SettleDelay)], [ClearFrame, blank, Wait(SettleDelay)];
    var woken := [FetchWeather, WakeUp, Wait(SettleDelay), ClearFrame, blank, Wait(SettleDelay)];
    JoinTriples([], FetchWeather, WakeUp, Wait(SettleDelay), ClearFrame, blank, Wait(SettleDelay));
    assert [] + first == first && [] + woken == woken;
    RunPanelSingles(s, FetchWeather, WakeUp, Wait(SettleDelay));
    RunPanelSingles(Awake, ClearFrame, blank, Wait(SettleDelay));
    RunPanelAppend(s, first, second);
    assert RunPanel(s, woken) == Some(Displaying);
    if pass.Some? {
      var drawn := UpdateAndDisplayFrame(Frame(rotation, [Fill(White)] + pass.value));
      RunPanelSingles(Displaying, drawn, Wait(SettleDelay), Sleep);
      RunPanelAppend(s, woken, [drawn, Wait(SettleDelay), Sleep]);
      assert DrawnRun(rotation, pass).events == woken + [drawn, Wait(SettleDelay), Sleep];
    }
  }

  // ----- The `start` loop -----

  /** The loop runs to the end of the fetches exactly when no refresh panics. */
  lemma {:induction false} StartCompleted(p: Platform, rotation: Rotation, fetches: seq<Option<WeatherData>>)
    ensures StartRun(p, rotation, fetches).completed <==>
      forall i :: 0 <= i < |fetches| ==> RefreshRun(p, rotation, fetches[i]).completed
    decreases |fetches|
  {
    if fetches != [] {
      StartCompleted(p, rotation, fetches[1..]);
      assert forall i :: 1 <= i < |fetches| ==> fetches[i] == fetches[1..][i - 1];
    }
  }

  /**
   * The loop starts with a fetch, and every later fetch comes right after
   * the ten-minute wait.
   */
  lemma {:induction false} StartRefreshSpacing(p: Platform, rotation: Rotation, fetches: seq<Option<WeatherData>>)
    ensures var ev := StartRun(p, rotation, fetches).events;
      fetches != [] ==> |ev| > 0 && ev[0] == FetchWeather
    ensures var ev := StartRun(p, rotation, fetches).events;
      forall i :: 0 < i < |ev| && ev[i] == FetchWeather ==> ev[i - 1] == Wait(RefreshInterval)
    decreases |fetches|
  {
    if fetches != [] {
      var first := RefreshRun(p, rotation, fetches[0]);
      RefreshSettleDelays(p, rotation, fetches[0]);
      if first.completed {
        var rest := StartRun(p, rotation, fetches[1..]).events;
        StartRefreshSpacing(p, rotation, fetches[1..]);
        SpacingThroughWait(first.events, rest);
      }
    }
  }

  lemma SpacingThroughWait(first: seq<Event>, rest: seq<Event>)
    requires |first| > 0 && forall i :: 0 < i < |first| ==> first[i] != FetchWeather
    requires forall i :: 0 < i < |rest| && rest[i] == FetchWeather ==> rest[i - 1] == Wait(RefreshInterval)
    ensures var ev := first + [Wait(RefreshInterval)] + rest;
      && ev[0] == first[0]
      && forall i :: 0 < i < |ev| && ev[i] == FetchWeather ==> ev[i - 1] == Wait(RefreshInterval)
  {
    var ev := first + [Wait(RefreshInterval)] + rest;
    var n := |first|;
    forall i | 0 < i < |ev| && ev[i] == FetchWeather
      ensures ev[i - 1] == Wait(RefreshInterval)
    {
      if i > n + 1 {
        assert ev[i] == rest[i - n - 1] && ev[i - 1] == rest[i - n - 2];
      }
    }
  }

  /**
   * Conversely, every ten-minute wait comes right after the sleep that ends a
   * completed refresh, and a loop whose refreshes all complete ends waiting.
   */
  lemma {:induction false} StartWaitAfterSleep(p: Platform, rotation: Rotation, fetches: seq<Option<WeatherData>>)
    ensures var ev := StartRun(p, rotation, fetches).events;
      forall i :: 0 <= i < |ev| && ev[i] == Wait(RefreshInterval) ==> i > 0 && ev[i - 1] == Sleep
    ensures var run := StartRun(p, rotation, fetches);
      run.completed && fetches != [] ==> |run.events| > 0 && run.events[|run.events| - 1] == Wait(RefreshInterval)
    decreases |fetches|
  {
    if fetches != [] {
      var first := RefreshRun(p, rotation, fetches[0]);
      RefreshSettleDelays(p, rotation, fetches[0]);
      if first.completed {
        var rest := StartRun(p, rotation, fetches[1..]).events;
        StartWaitAfterSleep(p, rotation, fetches[1..]);
        WaitThroughSleep(first.events, rest);
      }
    }
  }

  lemma WaitThroughSleep(first: seq<Event>, rest: seq<Event>)
    requires |first| > 0 && first[|first| - 1] == Sleep
    requires forall i :: 0 <= i < |first| ==> first[i] != Wait(RefreshInterval)
    requires forall i :: 0 <= i < |rest| && rest[i] == Wait(RefreshInterval) ==> i > 0 && rest[i - 1] == Sleep
    ensures var ev := first + [Wait(RefreshInterval)] + rest;
      forall i :: 0 <= i < |ev| && ev[i] == Wait(RefreshInterval) ==> i > 0 && ev[i - 1] == Sleep
  {
    var ev := first + [Wait(RefreshInterval)] + rest;
    var n := |first|;
    forall i | 0 <= i < |ev| && ev[i] == Wait(RefreshInterval)
      ensures i > 0 && ev[i - 1] == Sleep
    {
      if i > n {
        assert ev[i] == rest[i - n - 1];
        assert ev[i - 1] == rest[i - n - 2];
      }
    }
  }

  /**
   * Over the whole loop the panel follows its transitions; when no refresh
   * panics and there was at least one, it ends asleep.
   */
  lemma {:induction false} StartPanelProtocol(p: Platform, rotation: Rotation, fetches: seq<Option<WeatherData>>, s: PanelState)
    requires s == Sleeping || s == Awake
    ensures var run := StartRun(p, rotation, fetches);
      RunPanel(s, run.events).Some?
    ensures var run := StartRun(p, rotation, fetches);
      run.completed ==> RunPanel(s, run.events) == Some(if fetches == [] then s else Sleeping)
    ensures var run := StartRun(p, rotation, fetches);
      !run.completed ==>
        var t := RunPanel(s, run.events).value;
        t == s || t == Sleeping || t == Displaying
    decreases |fetches|
  {
    if fetches != [] {
      var first := RefreshRun(p, rotation, fetches[0]);
      RefreshPanelProtocol(p, rotation, fetches[0], s);
      if first.completed {
        var rest := StartRun(p, rotation, fetches[1..]).events;
        StartPanelProtocol(p, rotation, fetches[1..], Sleeping);
        PanelThroughWait(s, first.events, rest);
      }
    }
  }

  lemma PanelThroughWait(s: PanelState, first: seq<Event>, rest: seq<Event>)
    requires RunPanel(s, first) == Some(Sleeping)
    ensures RunPanel(s, first + [Wait(RefreshInterval)] + rest) == RunPanel(Sleeping, rest)
  {
    assert RunPanel(Sleeping, [Wait(RefreshInterval)]) == Some(Sleeping) by {
      assert [Wait(RefreshInterval)][1..] == [];
    }
    RunPanelAppend(s, first, [Wait(RefreshInterval)]);
    RunPanelAppend(s, first + [Wait(RefreshInterval)], rest);
  }

  // ----- Decoding failures -----

  /**
   * A response whose `weather` array holds a code outside the 55 known ones
   * fails to decode; `access_website` unwraps that, so the refresh panics
   * after the fetch and before any panel command.
   */
  lemma UnknownCodeStopsRefresh(p: Platform, rotation: Rotation, ids: seq<int>, main: Main, wind: Wind, dt: Date, name: string, i: int)
    requires 0 <= i < |ids| && ids[i] !in KnownCodes
    ensures RefreshRun(p, rotation, DecodeWeatherData(ids, main, wind, dt, name)) == Run([FetchWeather], false)
  {
    DecodeDomain(ids[i]);
  }

  // ----- A worked snapshot -----

  /** A sunny reading (code 800) for 5 March 2024: 21.5 degrees, 40% humidity, 3.2 m/s wind. */
  const SunnyDay: WeatherData :=
    WeatherData([Weather(ClearSky)], Main(21.5, 21.0, 20.0, 23.0, 1013, 40, None, None),
                Wind(3.2, 180.0, None), Date(2024, 3, 5), "Tokyo")

  /**
   * The sunny reading is drawn as the label "5/3/2024", the sunny icon, the
   * temperature with the source's suffix, the humidity "40", the wind speed
   * with "m/s" below it, and the signature band, each at its fixed position.
   */
  lemma SunnySnapshot(p: Platform)
    requires GetIcon(p.icons, SunnyIcon).Some?
    requires GetIcon(p.icons, HumidityIcon).Some? && GetIcon(p.icons, WindIcon).Some?
    requires p.showF64(21.5) == "21.5" && p.showF64(3.2) == "3.2"
    ensures DrawPass(p, SunnyDay) == Some(
        [Label("5/3/2024", 20, 10, ProFont24, Black), Stroke(0, 45, 200, 45, 5)]
        + [Bitmap(SunnyIcon, GetIcon(p.icons, SunnyIcon).value, 20, 50)]
        + [Label("21.5" + DegreesCelsius, 90, 60, ProFont24, Black), Stroke(0, 105, 200, 105, 5)]
        + [Bitmap(HumidityIcon, GetIcon(p.icons, HumidityIcon).value, 5, 110),
           Label("40", 55, 120, ProFont18, Black), Stroke(90, 120, 90, 150, 5)]
        + [Bitmap(WindIcon, GetIcon(p.icons, WindIcon).value, 100, 110),
           Label("3.2", 150, 120, ProFont18, Black), Label("m/s", 150, 140, Font10x20, Black)]
        + SignatureOps(p))
  {
    var date := [Label("5/3/2024", 20, 10, ProFont24, Black), Stroke(0, 45, 200, 45, 5)];
    var sunny := Bitmap(SunnyIcon, GetIcon(p.icons, SunnyIcon).value, 20, 50);
    var temperature := [Label("21.5" + DegreesCelsius, 90, 60, ProFont24, Black), Stroke(0, 105, 200, 105, 5)];
    var humidity := [Bitmap(HumidityIcon, GetIcon(p.icons, HumidityIcon).value, 5, 110),
                     Label("40", 55, 120, ProFont18, Black), Stroke(90, 120, 90, 150, 5)];
    var wind := [Bitmap(WindIcon, GetIcon(p.icons, WindIcon).value, 100, 110),
                 Label("3.2", 150, 120, ProFont18, Black), Label("m/s", 150, 140, Font10x20, Black)];
    SunnyDate();
    SunnyConditions(p);
    assert DrawPass(p, SunnyDay) == Some(date + ([sunny] + temperature + (humidity + wind)) + SignatureOps(p));
    AppendNested(date, [sunny], temperature, humidity, wind, SignatureOps(p));
  }

  lemma SunnyDate()
    ensures DateOps(SunnyDay.dt) == Some([Label("5/3/2024", 20, 10, ProFont24, Black), Stroke(0, 45, 200, 45, 5)])
  {
    SunnyYear();
    assert DateLabel(SunnyDay.dt) == "5/3/2024";
    assert IsAscii("5/3/2024");
    AsciiByteLen("5/3/2024");
  }

  lemma SunnyYear()
    ensures IntToDecimal(2024) == "2024"
  {
    assert NatToDecimal(20) == NatToDecimal(2) + "0";
    assert NatToDecimal(202) == NatToDecimal(20) + "2";
    assert NatToDecimal(2024) == NatToDecimal(202) + "4";
  }

  lemma SunnyConditions(p: Platform)
    requires GetIcon(p.icons, SunnyIcon).Some?
    requires GetIcon(p.icons, HumidityIcon).Some? && GetIcon(p.icons, WindIcon).Some?
    requires p.showF64(21.5) == "21.5" && p.showF64(3.2) == "3.2"
    ensures ConditionOps(p, SunnyDay) == Some(
        [Bitmap(SunnyIcon, GetIcon(p.icons, SunnyIcon).value, 20, 50)]
        + [Label("21.5" + DegreesCelsius, 90, 60, ProFont24, Black), Stroke(0, 105, 200, 105, 5)]
        + ([Bitmap(HumidityIcon, GetIcon(p.icons, HumidityIcon).value, 5, 110),
            Label("40", 55, 120, ProFont18, Black), Stroke(90, 120, 90, 150, 5)]
           + [Bitmap(WindIcon, GetIcon(p.icons, WindIcon).value, 100, 110),
              Label("3.2", 150, 120, ProFont18, Black), Label("m/s", 150, 140, Font10x20, Black)]))
  {
    SunnyIconOp(p);
    SunnyTemperature(p);
    SunnyReadings(p);
  }

  lemma SunnyIconOp(p: Platform)
    requires GetIcon(p.icons, SunnyIcon).Some?
    ensures IconOp(p, Icon(SunnyDay.weather[0].id), 20, 50) == Some(Bitmap(SunnyIcon, GetIcon(p.icons, SunnyIcon).value, 20, 50))
  {
    ClearSkyIsSunny();
  }

  lemma SunnyTemperature(p: Platform)
    requires p.showF64(21.5) == "21.5"
    ensures TemperatureOps(p, 21.5, 20 + 70, 60) ==
      Some([Label("21.5" + DegreesCelsius, 90, 60, ProFont24, Black), Stroke(0, 105, 200, 105, 5)])
  {
    assert IsAscii("21.5");
    AsciiByteLen("21.5");
    DegreesCelsiusBytes();
    ByteLenAppend("21.5", DegreesCelsius);
  }

  lemma SunnyReadings(p: Platform)
    requires GetIcon(p.icons, HumidityIcon).Some? && GetIcon(p.icons, WindIcon).Some?
    requires p.showF64(3.2) == "3.2"
    ensures ReadingOps(p, SunnyDay) == Some(
        [Bitmap(HumidityIcon, GetIcon(p.icons, HumidityIcon).value, 5, 110),
         Label("40", 55, 120, ProFont18, Black), Stroke(90, 120, 90, 150, 5)]
        + [Bitmap(WindIcon, GetIcon(p.icons, WindIcon).value, 100, 110),
           Label("3.2", 150, 120, ProFont18, Black), Label("m/s", 150, 140, Font10x20, Black)])
  {
    assert NatToDecimal(40) == NatToDecimal(4) + "0";
    assert IntToDecimal(40) == "40";
    assert IsAscii("40") && IsAscii("3.2");
    AsciiByteLen("40");
    AsciiByteLen("3.2");
  }
}
