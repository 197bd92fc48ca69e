/** A frame of a notification: a simple icon-and-text frame, a goal (progress) frame or
    a spike chart. The JSON form carries no tag; the decoder picks the case by which keys
    are present, chart data first, then goal data, then the simple fallback. */
module FrameModel {
  import opened Wrappers
  import opened Json

  datatype GoalData = GoalData(start: Int64, current: Int64, end: Int64, unit: string)

  datatype Frame =
    | Simple(icon: Option<string>, text: Option<string>)
    | Goal(icon: Option<string>, goalData: GoalData)
    | Chart(data: seq<Int64>)

  const ICON_KEY := "icon"
  const TEXT_KEY := "text"
  const GOAL_DATA_KEY := "goalData"
  const CHART_DATA_KEY := "chartData"

  // ---- convenience constructors ----

  /** `Frame.text(_:)` */
  function TextFrame(text: string): Frame {
    Simple(None, Some(text))
  }

  /** `Frame.icon(_:)` */
  function IconFrame(icon: string): Frame {
    Simple(Some(icon), None)
  }

  /** `Frame.iconAndText(icon:text:)` */
  function IconAndTextFrame(icon: string, text: string): Frame {
    Simple(Some(icon), Some(text))
  }

  /** `Frame.goal(icon:start:current:end:unit:)`, the icon defaulting to none. */
  function GoalFrame(icon: Option<string> := None, start: Int64, current: Int64, end: Int64, unit: string): Frame {
    Goal(icon, GoalData(start, current, end, unit))
  }

  // ---- GoalData, with the synthesized codec ----

  function EncodeGoalData(g: GoalData): Json {
    JObj(map["start" := JInt(g.start), "current" := JInt(g.current), "end" := JInt(g.end), "unit" := JStr(g.unit)])
  }

  /** The synthesized decoder: the four keys in declaration order, all required. */
  function DecodeGoalData(j: Json): (r: Decoded<GoalData>)
    ensures r.Ok? ==> j.JObj? && {"start", "current", "end", "unit"} <= j.fields.Keys
  {
    var fields :- Container(j);
    var start :- Required(fields, "start", DecodeInt);
    var current :- Required(fields, "current", DecodeInt);
    var end :- Required(fields, "end", DecodeInt);
    var unit :- Required(fields, "unit", DecodeString);
    Ok(GoalData(start, current, end, unit))
  }

  lemma GoalDataRoundTrip(g: GoalData)
    ensures DecodeGoalData(EncodeGoalData(g)) == Ok(g)
  {
  }

  // ---- Frame codec ----

  /** True when `decodeIfPresent` would find a value under `key`. */
  predicate Present(fields: map<string, Json>, key: string) {
    key in fields && fields[key] != JNull
  }

  /** `Frame.init(from:)`. */
  function DecodeFrame(j: Json): (r: Decoded<Frame>)
    ensures r.Ok? ==> j.JObj?
    // Chart data wins over everything else that is present.
    ensures j.JObj? && Present(j.fields, CHART_DATA_KEY) && DecodeIntArray(j.fields[CHART_DATA_KEY]).Ok? ==>
      r == Ok(Chart(DecodeIntArray(j.fields[CHART_DATA_KEY]).value))
    ensures r.Ok? ==> (r.value.Chart? <==> Present(j.fields, CHART_DATA_KEY))
    // Goal data is read only when there is no chart data; the text is then dropped.
    ensures r.Ok? ==> (r.value.Goal? <==> !Present(j.fields, CHART_DATA_KEY) && Present(j.fields, GOAL_DATA_KEY))
    ensures r.Ok? && r.value.Goal? ==> DecodeGoalData(j.fields[GOAL_DATA_KEY]) == Ok(r.value.goalData)
    ensures r.Ok? && !r.value.Chart? ==>
      (r.value.icon.Some? <==> Present(j.fields, ICON_KEY)) &&
      (r.value.icon.Some? ==> j.fields[ICON_KEY] == JStr(r.value.icon.value))
    ensures r.Ok? && r.value.Simple? ==>
      (r.value.text.Some? <==> Present(j.fields, TEXT_KEY)) &&
      (r.value.text.Some? ==> j.fields[TEXT_KEY] == JStr(r.value.text.value))
    // An object with none of the keys is an empty simple frame.
    ensures j.JObj? && !Present(j.fields, CHART_DATA_KEY) && !Present(j.fields, GOAL_DATA_KEY) &&
            !Present(j.fields, ICON_KEY) && !Present(j.fields, TEXT_KEY) ==>
      r == Ok(Simple(None, None))
  {
    var fields :- Container(j);
    var chartData :- IfPresent(fields, CHART_DATA_KEY, DecodeIntArray);
    if chartData.Some? then
      Ok(Chart(chartData.value))
    else
      var goalData :- IfPresent(fields, GOAL_DATA_KEY, DecodeGoalData);
      if goalData.Some? then
        var icon :- IfPresent(fields, ICON_KEY, DecodeString);
        Ok(Goal(icon, goalData.value))
      else
        var icon :- IfPresent(fields, ICON_KEY, DecodeString);
        var text :- IfPresent(fields, TEXT_KEY, DecodeString);
        Ok(Simple(icon, text))
  }

  /** The keys an optional string adds to an object. */
  function KeyIf(key: string, v: Option<string>): set<string> {
    if v.Some? then {key} else {}
  }

  /** `Frame.encode(to:)`: only the fields of the held case; absent icon and text are
      omitted, and a chart writes nothing but its data. */
  function EncodeFrame(f: Frame): (j: Json)
    ensures j.JObj?
    ensures f.Simple? ==> j.fields.Keys == KeyIf(ICON_KEY, f.icon) + KeyIf(TEXT_KEY, f.text)
    ensures f.Goal? ==> j.fields.Keys == KeyIf(ICON_KEY, f.icon) + {GOAL_DATA_KEY}
    ensures f.Chart? ==> j.fields.Keys == {CHART_DATA_KEY}
  {
    match f
    case Simple(icon, text) =>
      JObj(PutIfPresent(PutIfPresent(map[], ICON_KEY, icon, Str), TEXT_KEY, text, Str))
    case Goal(icon, goalData) =>
      JObj(PutIfPresent(map[], ICON_KEY, icon, Str)[GOAL_DATA_KEY := EncodeGoalData(goalData)])
    case Chart(data) =>
      JObj(map[CHART_DATA_KEY := EncodeIntArray(data)])
  }

  /** Every frame reads back as itself. */
  lemma {:induction false} FrameRoundTrip(f: Frame)
    ensures DecodeFrame(EncodeFrame(f)) == Ok(f)
  {
    match f
    case Simple(icon, text) =>
    case Goal(icon, goalData) =>
      GoalDataRoundTrip(goalData);
    case Chart(data) =>
      IntArrayRoundTrip(data);
  }

  /** The convenience constructors produce exactly the wire objects they name: a text
      frame writes only its text, an icon frame only its icon, and a goal frame its four
      goal values unchanged. */
  lemma ConvenienceFramesOnTheWire(icon: string, text: string, start: Int64, current: Int64, end: Int64, unit: string)
    ensures EncodeFrame(TextFrame(text)) == JObj(map[TEXT_KEY := JStr(text)])
    ensures EncodeFrame(IconFrame(icon)) == JObj(map[ICON_KEY := JStr(icon)])
    ensures EncodeFrame(IconAndTextFrame(icon, text)) == JObj(map[ICON_KEY := JStr(icon), TEXT_KEY := JStr(text)])
    ensures EncodeFrame(GoalFrame(start := start, current := current, end := end, unit := unit)) ==
      JObj(map[GOAL_DATA_KEY := JObj(map["start" := JInt(start), "current" := JInt(current), "end" := JInt(end),
                                          "unit" := JStr(unit)])])
  {
  }

  /** A payload with chart data decodes to that chart even when an icon, a text and goal
      data are present too. */
  lemma ChartDataWinsExample(icon: string, text: string, g: GoalData)
    ensures DecodeFrame(JObj(map[CHART_DATA_KEY := JArr([JInt(1), JInt(2), JInt(3)]), ICON_KEY := JStr(icon),
                                 TEXT_KEY := JStr(text), GOAL_DATA_KEY := EncodeGoalData(g)]))
      == Ok(Chart([1, 2, 3]))
  {
    var data := JArr([JInt(1), JInt(2), JInt(3)]);
    IntArrayRoundTrip([1, 2, 3]);
    assert EncodeIntArray([1, 2, 3]) == data;
  }

  // ---- notification priority and icon type (declared beside Frame) ----

  datatype Priority = Info | Warning | Critical

  datatype IconType = NoIcon | InfoIcon | AlertIcon

  function PriorityRaw(p: Priority): string {
    match p
    case Info => "info"
    case Warning => "warning"
    case Critical => "critical"
  }

  function IconTypeRaw(t: IconType): string {
    match t
    case NoIcon => "none"
    case InfoIcon => "info"
    case AlertIcon => "alert"
  }

  /** `Priority(rawValue:)` */
  function PriorityFromRaw(s: string): (r: Option<Priority>)
    ensures r.Some? ==> PriorityRaw(r.value) == s
  {
    match s
    case "info" => Some(Info)
    case "warning" => Some(Warning)
    case "critical" => Some(Critical)
    case _ => None
  }

  /** `IconType(rawValue:)` */
  function IconTypeFromRaw(s: string): (r: Option<IconType>)
    ensures r.Some? ==> IconTypeRaw(r.value) == s
  {
    match s
    case "none" => Some(NoIcon)
    case "info" => Some(InfoIcon)
    case "alert" => Some(AlertIcon)
    case _ => None
  }

  /** Each wire name reads back as its case. */
  lemma PriorityAndIconTypeRawRoundTrip(p: Priority, t: IconType)
    ensures PriorityFromRaw(PriorityRaw(p)) == Some(p)
    ensures IconTypeFromRaw(IconTypeRaw(t)) == Some(t)
  {
  }

  /** Wire names are distinct within each enumeration. */
  lemma PriorityAndIconTypeRawInjective(p: Priority, q: Priority, s: IconType, t: IconType)
    ensures PriorityRaw(p) == PriorityRaw(q) ==> p == q
    ensures IconTypeRaw(s) == IconTypeRaw(t) ==> s == t
  {
    PriorityAndIconTypeRawRoundTrip(p, s);
    PriorityAndIconTypeRawRoundTrip(q, t);
  }
}
