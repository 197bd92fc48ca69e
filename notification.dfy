/** A notification: a model of frames with an optional sound and cycle count, and the
    priority, icon type and lifetime that control how the device shows it. */
module NotificationModel {
  import opened Wrappers
  import opened Json
  import SoundModel
  import opened FrameModel

  /** `Model.init(frames:sound:cycles:)`: sound and cycles nil by default. */
  datatype Model = Model(frames: seq<Frame>, sound: Option<SoundModel.Sound> := None, cycles: Option<Int64> := None)

  /** `Notification.init(model:priority:iconType:lifetime:)`: no priority, icon type
      `none` and no lifetime by default. */
  datatype Notification = Notification(model: Model, priority: Option<Priority> := None,
                                       iconType: IconType := NoIcon, lifetime: Option<Int64> := None)

  /** `Notification.init(frames:sound:cycles:priority:iconType:lifetime:)`: the frames,
      sound and cycles become the model, the rest is kept as given. */
  function NotificationWithFrames(frames: seq<Frame>, sound: Option<SoundModel.Sound> := None, cycles: Option<Int64> := None,
                                  priority: Option<Priority> := None, iconType: IconType := NoIcon,
                                  lifetime: Option<Int64> := None): (n: Notification)
    ensures n.model.frames == frames && n.model.sound == sound && n.model.cycles == cycles
    ensures n.priority == priority && n.iconType == iconType && n.lifetime == lifetime
  {
    Notification(Model(frames, sound, cycles), priority, iconType, lifetime)
  }

  /** The frames initialiser is the primary one applied to a model of the same frames,
      sound and cycles; with only frames given, everything else takes its default. */
  lemma FramesInitializerDefaults(frames: seq<Frame>)
    ensures NotificationWithFrames(frames) == Notification(Model(frames))
    ensures NotificationWithFrames(frames).model.sound.None? && NotificationWithFrames(frames).model.cycles.None?
    ensures NotificationWithFrames(frames).priority.None? && NotificationWithFrames(frames).lifetime.None?
    ensures NotificationWithFrames(frames).iconType == NoIcon
  {
  }

  // ---- frames on the wire ----

  function EncodeFrames(frames: seq<Frame>): (j: Json)
    ensures j.JArr? && |j.items| == |frames|
    ensures forall k :: 0 <= k < |frames| ==> j.items[k] == EncodeFrame(frames[k])
  {
    JArr(seq(|frames|, k requires 0 <= k < |frames| => EncodeFrame(frames[k])))
  }

  /** `decode([Frame].self)` over the items of an array: every item must decode, and the
      first failure is the error. */
  function DecodeFrameItems(items: seq<Json>): (r: Decoded<seq<Frame>>)
    ensures r.Ok? <==> forall k :: 0 <= k < |items| ==> DecodeFrame(items[k]).Ok?
    ensures r.Ok? ==> |r.value| == |items| && forall k :: 0 <= k < |items| ==> DecodeFrame(items[k]) == Ok(r.value[k])
  {
    if items == [] then Ok([])
    else
      var first :- DecodeFrame(items[0]);
      var rest :- DecodeFrameItems(items[1..]);
      Ok([first] + rest)
  }

  function DecodeFrames(j: Json): (r: Decoded<seq<Frame>>)
    ensures r.Ok? ==> j.JArr? && |r.value| == |j.items|
  {
    if j.JArr? then DecodeFrameItems(j.items) else Err(TypeMismatch("Array<Frame>"))
  }

  /** Every list of frames reads back as itself, in the same order. */
  lemma {:induction false} FramesRoundTrip(frames: seq<Frame>)
    ensures DecodeFrames(EncodeFrames(frames)) == Ok(frames)
  {
    var items := EncodeFrames(frames).items;
    forall k | 0 <= k < |frames|
      ensures DecodeFrame(items[k]) == Ok(frames[k])
    {
      FrameRoundTrip(frames[k]);
    }
    var r := DecodeFrameItems(items);
    assert r.Ok?;
    assert r.value == frames;
    assert DecodeFrames(EncodeFrames(frames)) == r;
  }

  // ---- the model ----

  function EncodeModel(m: Model): (j: Json)
    ensures j.JObj? && "frames" in j.fields
    ensures "sound" in j.fields <==> m.sound.Some?
    ensures "cycles" in j.fields <==> m.cycles.Some?
  {
    var fields := map["frames" := EncodeFrames(m.frames)];
    var fields := PutIfPresent(fields, "sound", m.sound, SoundModel.EncodeSound);
    JObj(PutIfPresent(fields, "cycles", m.cycles, i => JInt(i)))
  }

  /** The synthesized decoder: frames required, sound and cycles optional. */
  function DecodeModel(j: Json): (r: Decoded<Model>)
    ensures r.Ok? ==> j.JObj? && "frames" in j.fields
  {
    var fields :- Container(j);
    var frames :- Required(fields, "frames", DecodeFrames);
    var sound :- IfPresent(fields, "sound", SoundModel.DecodeSound);
    var cycles :- IfPresent(fields, "cycles", DecodeInt);
    Ok(Model(frames, sound, cycles))
  }

  lemma {:induction false} ModelRoundTrip(m: Model)
    ensures DecodeModel(EncodeModel(m)) == Ok(m)
  {
    var fields := EncodeModel(m).fields;
    FramesRoundTrip(m.frames);
    assert fields["frames"] == EncodeFrames(m.frames);
    if m.sound.Some? {
      SoundModel.SoundRoundTrip(m.sound.value);
      assert fields["sound"] == SoundModel.EncodeSound(m.sound.value);
    }
    if m.cycles.Some? {
      assert fields["cycles"] == JInt(m.cycles.value);
    }
  }

  // ---- the notification ----

  /** The synthesized encoder: model and icon type always, priority and lifetime when set. */
  function EncodeNotification(n: Notification): (j: Json)
    ensures j.JObj? && "model" in j.fields && "iconType" in j.fields
    ensures j.fields["iconType"] == JStr(IconTypeRaw(n.iconType))
    ensures "priority" in j.fields <==> n.priority.Some?
    ensures "lifetime" in j.fields <==> n.lifetime.Some?
  {
    var fields := map["model" := EncodeModel(n.model)];
    var fields := PutIfPresent(fields, "priority", n.priority, p => JStr(PriorityRaw(p)));
    var fields := fields["iconType" := JStr(IconTypeRaw(n.iconType))];
    JObj(PutIfPresent(fields, "lifetime", n.lifetime, i => JInt(i)))
  }

  function DecodePriority(j: Json): Decoded<Priority> {
    DecodeRaw(j, "Priority", PriorityFromRaw)
  }

  function DecodeIconType(j: Json): Decoded<IconType> {
    DecodeRaw(j, "IconType", IconTypeFromRaw)
  }

  /** The synthesized decoder: the icon type is not optional, so it is required. */
  function DecodeNotification(j: Json): (r: Decoded<Notification>)
    ensures r.Ok? ==> j.JObj? && "model" in j.fields && "iconType" in j.fields
  {
    var fields :- Container(j);
    var model :- Required(fields, "model", DecodeModel);
    var priority :- IfPresent(fields, "priority", DecodePriority);
    var iconType :- Required(fields, "iconType", DecodeIconType);
    var lifetime :- IfPresent(fields, "lifetime", DecodeInt);
    Ok(Notification(model, priority, iconType, lifetime))
  }

  /** Every notification reads back as itself. */
  lemma {:induction false} NotificationRoundTrip(n: Notification)
    ensures DecodeNotification(EncodeNotification(n)) == Ok(n)
  {
    var fields := EncodeNotification(n).fields;
    ModelRoundTrip(n.model);
    assert fields["model"] == EncodeModel(n.model);
    PriorityAndIconTypeRawRoundTrip(if n.priority.Some? then n.priority.value else Info, n.iconType);
    if n.priority.Some? {
      assert fields["priority"] == JStr(PriorityRaw(n.priority.value));
    }
    if n.lifetime.Some? {
      assert fields["lifetime"] == JInt(n.lifetime.value);
    }
  }

  /** A one-frame text notification with priority info goes on the wire as its frame
      list, the priority and the default icon type, and nothing else. */
  lemma HelloNotificationOnTheWire()
    ensures EncodeNotification(NotificationWithFrames([TextFrame("Hello")], priority := Some(Info))) ==
      JObj(map["model" := JObj(map["frames" := JArr([JObj(map["text" := JStr("Hello")])])]),
               "priority" := JStr("info"), "iconType" := JStr("none")])
  {
    ConvenienceFramesOnTheWire("", "Hello", 0, 0, 0, "");
    assert EncodeFrames([TextFrame("Hello")]) == JArr([JObj(map["text" := JStr("Hello")])]);
  }
}
