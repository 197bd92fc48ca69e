/** The display: the raw-value enumerations of its state, and the partial update sent to
    change brightness and screensaver settings. */
module DisplayModel {
  import opened Wrappers
  import opened Json

  // ---- raw-value enumerations ----

  datatype BrightnessMode = Auto | Manual

  datatype DisplayType = Monochrome | Grayscale | Color | Mixed | FullRgb

  datatype ScreensaverMode = WhenDark | TimeBased

  function BrightnessModeRaw(m: BrightnessMode): string {
    match m
    case Auto => "auto"
    case Manual => "manual"
  }

  function DisplayTypeRaw(t: DisplayType): string {
    match t
    case Monochrome => "monochrome"
    case Grayscale => "grayscale"
    case Color => "color"
    case Mixed => "mixed"
    case FullRgb => "full_rgb"
  }

  function ScreensaverModeRaw(m: ScreensaverMode): string {
    match m
    case WhenDark => "when_dark"
    case TimeBased => "time_based"
  }

  /** `BrightnessMode(rawValue:)` */
  function BrightnessModeFromRaw(s: string): (r: Option<BrightnessMode>)
    ensures r.Some? ==> BrightnessModeRaw(r.value) == s
  {
    match s
    case "auto" => Some(Auto)
    case "manual" => Some(Manual)
    case _ => None
  }

  /** `DisplayType(rawValue:)` */
  function DisplayTypeFromRaw(s: string): (r: Option<DisplayType>)
    ensures r.Some? ==> DisplayTypeRaw(r.value) == s
  {
    match s
    case "monochrome" => Some(Monochrome)
    case "grayscale" => Some(Grayscale)
    case "color" => Some(Color)
    case "mixed" => Some(Mixed)
    case "full_rgb" => Some(FullRgb)
    case _ => None
  }

  /** `ScreensaverMode(rawValue:)` */
  function ScreensaverModeFromRaw(s: string): (r: Option<ScreensaverMode>)
    ensures r.Some? ==> ScreensaverModeRaw(r.value) == s
  {
    match s
    case "when_dark" => Some(WhenDark)
    case "time_based" => Some(TimeBased)
    case _ => None
  }

  /** Each wire name reads back as its case, and a string is accepted exactly when it is
      the wire name of some case; the Swift case names themselves ("fullRGB",
      "whenDark", "timeBased") are not wire names. */
  lemma DisplayRawRoundTrip(b: BrightnessMode, t: DisplayType, m: ScreensaverMode, s: string)
    ensures BrightnessModeFromRaw(BrightnessModeRaw(b)) == Some(b)
    ensures DisplayTypeFromRaw(DisplayTypeRaw(t)) == Some(t)
    ensures ScreensaverModeFromRaw(ScreensaverModeRaw(m)) == Some(m)
    ensures DisplayTypeFromRaw("fullRGB").None? && ScreensaverModeFromRaw("whenDark").None? &&
            ScreensaverModeFromRaw("timeBased").None?
  {
  }

  /** Wire names are distinct within each enumeration. */
  lemma DisplayRawValuesInjective(a: BrightnessMode, b: BrightnessMode, s: DisplayType, t: DisplayType,
                                  m: ScreensaverMode, n: ScreensaverMode)
    ensures BrightnessModeRaw(a) == BrightnessModeRaw(b) ==> a == b
    ensures DisplayTypeRaw(s) == DisplayTypeRaw(t) ==> s == t
    ensures ScreensaverModeRaw(m) == ScreensaverModeRaw(n) ==> m == n
  {
    DisplayRawRoundTrip(a, s, m, "");
    DisplayRawRoundTrip(b, t, n, "");
  }

  // ---- the update ----

  /** `ScreensaverModeParams.init(enabled:startTime:endTime:)`, every field nil by default. */
  datatype ScreensaverModeParams = ScreensaverModeParams(enabled: Option<bool> := None,
                                                         startTime: Option<string> := None,
                                                         endTime: Option<string> := None)

  /** `ScreensaverUpdate.init(enabled:mode:modeParams:)`, every field nil by default. */
  datatype ScreensaverUpdate = ScreensaverUpdate(enabled: Option<bool> := None,
                                                 mode: Option<ScreensaverMode> := None,
                                                 modeParams: Option<ScreensaverModeParams> := None)

  /** `DisplayStateUpdate.init(brightness:brightnessMode:screensaver:)`, every field nil by default. */
  datatype DisplayStateUpdate = DisplayStateUpdate(brightness: Option<Int64> := None,
                                                   brightnessMode: Option<BrightnessMode> := None,
                                                   screensaver: Option<ScreensaverUpdate> := None)

  /** `ScreensaverUpdate.whenDark(enabled:)`: the screensaver itself is always switched
      on; the argument only enables or disables the when-dark mode. */
  function WhenDarkUpdate(enabled: bool): (u: ScreensaverUpdate)
    ensures u.enabled == Some(true) && u.mode == Some(WhenDark)
    ensures u.modeParams == Some(ScreensaverModeParams(enabled := Some(enabled)))
    ensures u.modeParams.value.startTime.None? && u.modeParams.value.endTime.None?
  {
    ScreensaverUpdate(Some(true), Some(WhenDark), Some(ScreensaverModeParams(enabled := Some(enabled))))
  }

  /** `ScreensaverUpdate.timeBased(enabled:startTime:endTime:)`: the screensaver is always
      switched on, and the three arguments go unchanged into the mode parameters. */
  function TimeBasedUpdate(enabled: bool, startTime: string, endTime: string): (u: ScreensaverUpdate)
    ensures u.enabled == Some(true) && u.mode == Some(TimeBased)
    ensures u.modeParams == Some(ScreensaverModeParams(Some(enabled), Some(startTime), Some(endTime)))
  {
    ScreensaverUpdate(Some(true), Some(TimeBased), Some(ScreensaverModeParams(Some(enabled), Some(startTime), Some(endTime))))
  }

  /** The synthesized encoder of the mode parameters: exactly the fields that are set. */
  function EncodeModeParams(p: ScreensaverModeParams): (j: Json)
    ensures j.JObj? && j.fields.Keys <= {"enabled", "startTime", "endTime"}
    ensures "enabled" in j.fields <==> p.enabled.Some?
    ensures "startTime" in j.fields <==> p.startTime.Some?
    ensures "endTime" in j.fields <==> p.endTime.Some?
    ensures p.enabled.Some? ==> j.fields["enabled"] == JBool(p.enabled.value)
    ensures p.startTime.Some? ==> j.fields["startTime"] == JStr(p.startTime.value)
    ensures p.endTime.Some? ==> j.fields["endTime"] == JStr(p.endTime.value)
  {
    var fields := PutIfPresent(map[], "enabled", p.enabled, b => JBool(b));
    var fields := PutIfPresent(fields, "startTime", p.startTime, Str);
    JObj(PutIfPresent(fields, "endTime", p.endTime, Str))
  }

  /** The synthesized decoder of the mode parameters: each field with `decodeIfPresent`,
      so an absent key and a null both give nil, and any other key is ignored. */
  function DecodeModeParams(j: Json): (r: Decoded<ScreensaverModeParams>)
    ensures r.Ok? ==> j.JObj?
    ensures r.Ok? ==> (r.value.enabled.Some? <==> "enabled" in j.fields && j.fields["enabled"] != JNull)
    ensures r.Ok? ==> (r.value.startTime.Some? <==> "startTime" in j.fields && j.fields["startTime"] != JNull)
    ensures r.Ok? ==> (r.value.endTime.Some? <==> "endTime" in j.fields && j.fields["endTime"] != JNull)
  {
    var fields :- Container(j);
    var enabled :- IfPresent(fields, "enabled", DecodeBool);
    var startTime :- IfPresent(fields, "startTime", DecodeString);
    var endTime :- IfPresent(fields, "endTime", DecodeString);
    Ok(ScreensaverModeParams(enabled, startTime, endTime))
  }

  /** Mode parameters read back as themselves. */
  lemma ModeParamsRoundTrip(p: ScreensaverModeParams)
    ensures DecodeModeParams(EncodeModeParams(p)) == Ok(p)
  {
  }

  function DecodeScreensaverMode(j: Json): Decoded<ScreensaverMode> {
    DecodeRaw(j, "ScreensaverMode", ScreensaverModeFromRaw)
  }

  function DecodeBrightnessMode(j: Json): Decoded<BrightnessMode> {
    DecodeRaw(j, "BrightnessMode", BrightnessModeFromRaw)
  }

  /** The synthesized encoder of a screensaver update: exactly the fields that are set. */
  function EncodeScreensaverUpdate(u: ScreensaverUpdate): (j: Json)
    ensures j.JObj? && j.fields.Keys <= {"enabled", "mode", "modeParams"}
    ensures "enabled" in j.fields <==> u.enabled.Some?
    ensures "mode" in j.fields <==> u.mode.Some?
    ensures "modeParams" in j.fields <==> u.modeParams.Some?
    ensures u.enabled.Some? ==> j.fields["enabled"] == JBool(u.enabled.value)
    ensures u.mode.Some? ==> j.fields["mode"] == JStr(ScreensaverModeRaw(u.mode.value))
    ensures u.modeParams.Some? ==> DecodeModeParams(j.fields["modeParams"]) == Ok(u.modeParams.value)
  {
    var fields := PutIfPresent(map[], "enabled", u.enabled, b => JBool(b));
    var fields := PutIfPresent(fields, "mode", u.mode, m => JStr(ScreensaverModeRaw(m)));
    ModeParamsRoundTrip(u.modeParams.OrElse(ScreensaverModeParams()));
    JObj(PutIfPresent(fields, "modeParams", u.modeParams, EncodeModeParams))
  }

  /** The synthesized decoder of a screensaver update. A mode that names no case is a
      data-corruption error. */
  function DecodeScreensaverUpdate(j: Json): (r: Decoded<ScreensaverUpdate>)
    ensures r.Ok? ==> j.JObj?
    ensures r.Ok? ==> (r.value.enabled.Some? <==> "enabled" in j.fields && j.fields["enabled"] != JNull)
    ensures r.Ok? ==> (r.value.mode.Some? <==> "mode" in j.fields && j.fields["mode"] != JNull)
    ensures r.Ok? && r.value.mode.Some? ==> j.fields["mode"] == JStr(ScreensaverModeRaw(r.value.mode.value))
    ensures r.Ok? ==> (r.value.modeParams.Some? <==> "modeParams" in j.fields && j.fields["modeParams"] != JNull)
    ensures (j.JObj? && "mode" in j.fields && j.fields["mode"].JStr? &&
             ScreensaverModeFromRaw(j.fields["mode"].s).None?) ==> r.Err?
  {
    var fields :- Container(j);
    var enabled :- IfPresent(fields, "enabled", DecodeBool);
    var mode :- IfPresent(fields, "mode", DecodeScreensaverMode);
    var modeParams :- IfPresent(fields, "modeParams", DecodeModeParams);
    Ok(ScreensaverUpdate(enabled, mode, modeParams))
  }

  /** Screensaver updates read back as themselves. */
  lemma ScreensaverUpdateRoundTrip(u: ScreensaverUpdate)
    ensures DecodeScreensaverUpdate(EncodeScreensaverUpdate(u)) == Ok(u)
  {
    DisplayRawRoundTrip(Auto, Color, u.mode.OrElse(WhenDark), "");
  }

  /** The synthesized encoder of the display update: exactly the fields that are set, so
      an update leaves every unmentioned setting of the device alone. */
  function EncodeDisplayStateUpdate(u: DisplayStateUpdate): (j: Json)
    ensures j.JObj? && j.fields.Keys <= {"brightness", "brightnessMode", "screensaver"}
    ensures "brightness" in j.fields <==> u.brightness.Some?
    ensures "brightnessMode" in j.fields <==> u.brightnessMode.Some?
    ensures "screensaver" in j.fields <==> u.screensaver.Some?
    ensures u.brightness.Some? ==> j.fields["brightness"] == JInt(u.brightness.value)
    ensures u.brightnessMode.Some? ==> j.fields["brightnessMode"] == JStr(BrightnessModeRaw(u.brightnessMode.value))
    ensures u.screensaver.Some? ==> DecodeScreensaverUpdate(j.fields["screensaver"]) == Ok(u.screensaver.value)
  {
    var fields := PutIfPresent(map[], "brightness", u.brightness, i => JInt(i));
    var fields := PutIfPresent(fields, "brightnessMode", u.brightnessMode, m => JStr(BrightnessModeRaw(m)));
    ScreensaverUpdateRoundTrip(u.screensaver.OrElse(ScreensaverUpdate()));
    JObj(PutIfPresent(fields, "screensaver", u.screensaver, EncodeScreensaverUpdate))
  }

  /** The synthesized decoder of the display update. */
  function DecodeDisplayStateUpdate(j: Json): (r: Decoded<DisplayStateUpdate>)
    ensures r.Ok? ==> j.JObj?
    ensures r.Ok? ==> (r.value.brightness.Some? <==> "brightness" in j.fields && j.fields["brightness"] != JNull)
    ensures r.Ok? && r.value.brightness.Some? ==> j.fields["brightness"] == JInt(r.value.brightness.value)
    ensures r.Ok? ==>
      (r.value.brightnessMode.Some? <==> "brightnessMode" in j.fields && j.fields["brightnessMode"] != JNull)
    ensures r.Ok? && r.value.brightnessMode.Some? ==>
      j.fields["brightnessMode"] == JStr(BrightnessModeRaw(r.value.brightnessMode.value))
    ensures r.Ok? ==> (r.value.screensaver.Some? <==> "screensaver" in j.fields && j.fields["screensaver"] != JNull)
  {
    var fields :- Container(j);
    var brightness :- IfPresent(fields, "brightness", DecodeInt);
    var brightnessMode :- IfPresent(fields, "brightnessMode", DecodeBrightnessMode);
    var screensaver :- IfPresent(fields, "screensaver", DecodeScreensaverUpdate);
    Ok(DisplayStateUpdate(brightness, brightnessMode, screensaver))
  }

  /** Display updates read back as themselves. */
  lemma DisplayStateUpdateRoundTrip(u: DisplayStateUpdate)
    ensures DecodeDisplayStateUpdate(EncodeDisplayStateUpdate(u)) == Ok(u)
  {
    DisplayRawRoundTrip(u.brightnessMode.OrElse(Auto), Color, WhenDark, "");
  }

  /** Built with no arguments, an update and its mode parameters are empty objects on the wire. */
  lemma EmptyUpdates()
    ensures DisplayStateUpdate() == DisplayStateUpdate(None, None, None)
    ensures ScreensaverModeParams() == ScreensaverModeParams(None, None, None)
    ensures EncodeDisplayStateUpdate(DisplayStateUpdate()) == JObj(map[])
    ensures EncodeModeParams(ScreensaverModeParams()) == JObj(map[])
  {
  }

  /** The wire forms of the two screensaver factories. */
  lemma ScreensaverUpdatesOnTheWire(enabled: bool, startTime: string, endTime: string)
    ensures EncodeScreensaverUpdate(WhenDarkUpdate(enabled)) ==
      JObj(map["enabled" := JBool(true), "mode" := JStr("when_dark"),
               "modeParams" := JObj(map["enabled" := JBool(enabled)])])
    ensures EncodeScreensaverUpdate(TimeBasedUpdate(enabled, startTime, endTime)) ==
      JObj(map["enabled" := JBool(true), "mode" := JStr("time_based"),
               "modeParams" := JObj(map["enabled" := JBool(enabled), "startTime" := JStr(startTime),
                                        "endTime" := JStr(endTime)])])
  {
  }
}
