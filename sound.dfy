/** The notification sound of a LaMetric notification: a built-in notification or alarm
    tone, or a custom MP3 with a built-in fallback. The JSON form carries no tag: a
    `url` key marks a custom sound, otherwise `category` and `id` name a built-in one. */
module SoundModel {
  import opened Wrappers
  import opened Json

  datatype SoundCategory = Notifications | Alarms

  datatype AudioType = Mp3

  datatype BuiltInSound =
    | BuiltInNotification(tone: NotificationSound)
    | BuiltInAlarm(alarm: AlarmSound)

  /** `repeatCount` defaults to 1 in the two built-in cases, as in the Swift enum. */
  datatype Sound =
    | Notification(tone: NotificationSound, repeatCount: Int64 := 1)
    | Alarm(alarm: AlarmSound, repeatCount: Int64 := 1)
    | Custom(url: string, audioType: AudioType := Mp3, fallback: BuiltInSound, repeatCount: Int64)

  // Coding keys of `Sound` and `BuiltInSound`; `repeatCount` is written as "repeat".
  const CATEGORY_KEY := "category"
  const ID_KEY := "id"
  const URL_KEY := "url"
  const TYPE_KEY := "type"
  const FALLBACK_KEY := "fallback"
  const REPEAT_KEY := "repeat"

  // ---- raw values ----

  function SoundCategoryRaw(c: SoundCategory): string {
    match c
    case Notifications => "notifications"
    case Alarms => "alarms"
  }

  function SoundCategoryFromRaw(raw: string): Option<SoundCategory> {
    if raw == "notifications" then Some(Notifications)
    else if raw == "alarms" then Some(Alarms)
    else None
  }

  function AudioTypeRaw(t: AudioType): string {
    match t
    case Mp3 => "mp3"
  }

  function AudioTypeFromRaw(raw: string): Option<AudioType> {
    if raw == "mp3" then Some(Mp3) else None
  }

  // NotificationSound: the 35 built-in notification tones.
  datatype NotificationSound =
    | Bicycle
    | Car
    | Cash
    | Cat
    | Dog
    | Dog2
    | Energy
    | KnockKnock
    | LetterEmail
    | Lose1
    | Lose2
    | Negative1
    | Negative2
    | Negative3
    | Negative4
    | Negative5
    | NotificationPlain
    | Notification2
    | Notification3
    | Notification4
    | OpenDoor
    | Positive1
    | Positive2
    | Positive3
    | Positive4
    | Positive5
    | Positive6
    | Statistic
    | Thunder
    | Water1
    | Water2
    | Win
    | Win2
    | Wind
    | WindShort

  function NotificationSoundRaw(s: NotificationSound): string {
    match s
    case Bicycle => "bicycle"
    case Car => "car"
    case Cash => "cash"
    case Cat => "cat"
    case Dog => "dog"
    case Dog2 => "dog2"
    case Energy => "energy"
    case KnockKnock => "knock-knock"
    case LetterEmail => "letter_email"
    case Lose1 => "lose1"
    case Lose2 => "lose2"
    case Negative1 => "negative1"
    case Negative2 => "negative2"
    case Negative3 => "negative3"
    case Negative4 => "negative4"
    case Negative5 => "negative5"
    case NotificationPlain => "notification"
    case Notification2 => "notification2"
    case Notification3 => "notification3"
    case Notification4 => "notification4"
    case OpenDoor => "open_door"
    case Positive1 => "positive1"
    case Positive2 => "positive2"
    case Positive3 => "positive3"
    case Positive4 => "positive4"
    case Positive5 => "positive5"
    case Positive6 => "positive6"
    case Statistic => "statistic"
    case Thunder => "thunder"
    case Water1 => "water1"
    case Water2 => "water2"
    case Win => "win"
    case Win2 => "win2"
    case Wind => "wind"
    case WindShort => "wind_short"
  }

  /** `NotificationSound(rawValue:)`: the lookup is split on the first letter of the
      name so that each part stays small. */
  function NotificationSoundFromRaw(raw: string): Option<NotificationSound> {
    if raw == [] then None
    else if raw[0] < 'n' then NotificationSoundFromRawBToL(raw)
    else if raw[0] == 'n' then NotificationSoundFromRawN(raw)
    else if raw[0] < 'q' then NotificationSoundFromRawOToP(raw)
    else if raw[0] < 'w' then NotificationSoundFromRawSToT(raw)
    else NotificationSoundFromRawW(raw)
  }

  /** Tones whose names start with b to l. */
  function NotificationSoundFromRawBToL(raw: string): Option<NotificationSound> {
    if raw == "bicycle" then Some(Bicycle) else
    if raw == "car" then Some(Car) else
    if raw == "cash" then Some(Cash) else
    if raw == "cat" then Some(Cat) else
    if raw == "dog" then Some(Dog) else
    if raw == "dog2" then Some(Dog2) else
    if raw == "energy" then Some(Energy) else
    if raw == "knock-knock" then Some(KnockKnock) else
    if raw == "letter_email" then Some(LetterEmail) else
    if raw == "lose1" then Some(Lose1) else
    if raw == "lose2" then Some(Lose2) else
    None
  }

  /** Tones whose names start with n. */
  function NotificationSoundFromRawN(raw: string): Option<NotificationSound> {
    if raw == "negative1" then Some(Negative1) else
    if raw == "negative2" then Some(Negative2) else
    if raw == "negative3" then Some(Negative3) else
    if raw == "negative4" then Some(Negative4) else
    if raw == "negative5" then Some(Negative5) else
    if raw == "notification" then Some(NotificationPlain) else
    if raw == "notification2" then Some(Notification2) else
    if raw == "notification3" then Some(Notification3) else
    if raw == "notification4" then Some(Notification4) else
    None
  }

  /** Tones whose names start with o or p. */
  function NotificationSoundFromRawOToP(raw: string): Option<NotificationSound> {
    if raw == "open_door" then Some(OpenDoor) else
    if raw == "positive1" then Some(Positive1) else
    if raw == "positive2" then Some(Positive2) else
    if raw == "positive3" then Some(Positive3) else
    if raw == "positive4" then Some(Positive4) else
    if raw == "positive5" then Some(Positive5) else
    if raw == "positive6" then Some(Positive6) else
    None
  }

  /** Tones whose names start with s or t. */
  function NotificationSoundFromRawSToT(raw: string): Option<NotificationSound> {
    if raw == "statistic" then Some(Statistic) else
    if raw == "thunder" then Some(Thunder) else
    None
  }

  /** Tones whose names start with w. */
  function NotificationSoundFromRawW(raw: string): Option<NotificationSound> {
    if raw == "water1" then Some(Water1) else
    if raw == "water2" then Some(Water2) else
    if raw == "win" then Some(Win) else
    if raw == "win2" then Some(Win2) else
    if raw == "wind" then Some(Wind) else
    if raw == "wind_short" then Some(WindShort) else
    None
  }

  // AlarmSound: the 13 built-in alarm tones.
  datatype AlarmSound =
    | Alarm1
    | Alarm2
    | Alarm3
    | Alarm4
    | Alarm5
    | Alarm6
    | Alarm7
    | Alarm8
    | Alarm9
    | Alarm10
    | Alarm11
    | Alarm12
    | Alarm13

  function AlarmSoundRaw(s: AlarmSound): string {
    match s
    case Alarm1 => "alarm1"
    case Alarm2 => "alarm2"
    case Alarm3 => "alarm3"
    case Alarm4 => "alarm4"
    case Alarm5 => "alarm5"
    case Alarm6 => "alarm6"
    case Alarm7 => "alarm7"
    case Alarm8 => "alarm8"
    case Alarm9 => "alarm9"
    case Alarm10 => "alarm10"
    case Alarm11 => "alarm11"
    case Alarm12 => "alarm12"
    case Alarm13 => "alarm13"
  }

  function AlarmSoundFromRaw(raw: string): Option<AlarmSound> {
    if raw == "alarm1" then Some(Alarm1) else
    if raw == "alarm2" then Some(Alarm2) else
    if raw == "alarm3" then Some(Alarm3) else
    if raw == "alarm4" then Some(Alarm4) else
    if raw == "alarm5" then Some(Alarm5) else
    if raw == "alarm6" then Some(Alarm6) else
    if raw == "alarm7" then Some(Alarm7) else
    if raw == "alarm8" then Some(Alarm8) else
    if raw == "alarm9" then Some(Alarm9) else
    if raw == "alarm10" then Some(Alarm10) else
    if raw == "alarm11" then Some(Alarm11) else
    if raw == "alarm12" then Some(Alarm12) else
    if raw == "alarm13" then Some(Alarm13) else
    None
  }

  /** Every notification tone is read back from its wire name, and a wire name is read
      as a tone only if it is that tone's name. */
  lemma NotificationSoundRawRoundTrip(s: NotificationSound, raw: string)
    ensures NotificationSoundFromRaw(NotificationSoundRaw(s)) == Some(s)
    ensures NotificationSoundFromRaw(raw) == Some(s) ==> NotificationSoundRaw(s) == raw
  {
    NotificationSoundFromRawSound(raw);
    NotificationSoundRawFound(s);
  }

  lemma NotificationSoundFromRawSound(raw: string)
    ensures NotificationSoundFromRaw(raw).Some? ==> NotificationSoundRaw(NotificationSoundFromRaw(raw).value) == raw
  {
    if raw == [] {
    } else if raw[0] < 'n' {
      NotificationSoundFromRawBToLSound(raw);
    } else if raw[0] == 'n' {
      NotificationSoundFromRawNSound(raw);
    } else if raw[0] < 'q' {
      NotificationSoundFromRawOToPSound(raw);
    } else if raw[0] < 'w' {
      NotificationSoundFromRawSToTSound(raw);
    } else {
      NotificationSoundFromRawWSound(raw);
    }
  }

  lemma NotificationSoundFromRawBToLSound(raw: string)
    ensures NotificationSoundFromRawBToL(raw).Some? ==> NotificationSoundRaw(NotificationSoundFromRawBToL(raw).value) == raw
  {
  }

  lemma NotificationSoundFromRawNSound(raw: string)
    ensures NotificationSoundFromRawN(raw).Some? ==> NotificationSoundRaw(NotificationSoundFromRawN(raw).value) == raw
  {
  }

  lemma NotificationSoundFromRawOToPSound(raw: string)
    ensures NotificationSoundFromRawOToP(raw).Some? ==> NotificationSoundRaw(NotificationSoundFromRawOToP(raw).value) == raw
  {
  }

  lemma NotificationSoundFromRawSToTSound(raw: string)
    ensures NotificationSoundFromRawSToT(raw).Some? ==> NotificationSoundRaw(NotificationSoundFromRawSToT(raw).value) == raw
  {
  }

  lemma NotificationSoundFromRawWSound(raw: string)
    ensures NotificationSoundFromRawW(raw).Some? ==> NotificationSoundRaw(NotificationSoundFromRawW(raw).value) == raw
  {
  }

  lemma NotificationSoundRawFound(s: NotificationSound)
    ensures NotificationSoundFromRaw(NotificationSoundRaw(s)) == Some(s)
  {
  }

  /** Every alarm tone is read back from its wire name, and only from it. */
  lemma AlarmSoundRawRoundTrip(s: AlarmSound, raw: string)
    ensures AlarmSoundFromRaw(AlarmSoundRaw(s)) == Some(s)
    ensures AlarmSoundFromRaw(raw) == Some(s) ==> AlarmSoundRaw(s) == raw
  {
  }

  /** Distinct tones have distinct wire names, and the renamed ones are spelled as on
      the device. */
  lemma {:induction false} SoundRawValuesInjective(a: NotificationSound, b: NotificationSound, x: AlarmSound, y: AlarmSound)
    ensures NotificationSoundRaw(a) == NotificationSoundRaw(b) ==> a == b
    ensures AlarmSoundRaw(x) == AlarmSoundRaw(y) ==> x == y
    ensures NotificationSoundRaw(KnockKnock) == "knock-knock"
    ensures NotificationSoundRaw(LetterEmail) == "letter_email"
    ensures NotificationSoundRaw(OpenDoor) == "open_door"
    ensures NotificationSoundRaw(WindShort) == "wind_short"
  {
    NotificationSoundRawRoundTrip(a, "");
    NotificationSoundRawRoundTrip(b, "");
    AlarmSoundRawRoundTrip(x, "");
    AlarmSoundRawRoundTrip(y, "");
  }

  // ---- decoding ----

  function DecodeCategory(j: Json): Decoded<SoundCategory> {
    DecodeRaw(j, "SoundCategory", SoundCategoryFromRaw)
  }

  function DecodeAudioType(j: Json): Decoded<AudioType> {
    DecodeRaw(j, "AudioType", AudioTypeFromRaw)
  }

  /** The id of a built-in tone, resolved against its category's closed enumeration.
      An unknown id is a data-corruption error; the other category is never tried. */
  function ResolveTone(category: SoundCategory, id: string): (r: Decoded<BuiltInSound>)
    ensures category == Notifications ==>
      (r.Ok? <==> NotificationSoundFromRaw(id).Some?) &&
      (r.Ok? ==> r.value == BuiltInNotification(NotificationSoundFromRaw(id).value))
    ensures category == Alarms ==>
      (r.Ok? <==> AlarmSoundFromRaw(id).Some?) &&
      (r.Ok? ==> r.value == BuiltInAlarm(AlarmSoundFromRaw(id).value))
    ensures r.Err? ==> r.error.DataCorrupted?
  {
    match category
    case Notifications =>
      (match NotificationSoundFromRaw(id)
       case Some(n) => Ok(BuiltInNotification(n))
       case None => Err(DataCorrupted("Unknown notification sound: " + id)))
    case Alarms =>
      (match AlarmSoundFromRaw(id)
       case Some(a) => Ok(BuiltInAlarm(a))
       case None => Err(DataCorrupted("Unknown alarm sound: " + id)))
  }

  /** `BuiltInSound.init(from:)`: category first, then id, then the lookup. */
  function DecodeBuiltInSound(j: Json): (r: Decoded<BuiltInSound>)
    ensures r.Ok? ==> j.JObj? && CATEGORY_KEY in j.fields && ID_KEY in j.fields
    ensures j.JObj? && CATEGORY_KEY !in j.fields ==> r == Err(KeyNotFound(CATEGORY_KEY))
    ensures r.Ok? && r.value.BuiltInNotification? ==>
      j.fields[CATEGORY_KEY] == JStr("notifications") && j.fields[ID_KEY] == JStr(NotificationSoundRaw(r.value.tone))
    ensures r.Ok? && r.value.BuiltInAlarm? ==>
      j.fields[CATEGORY_KEY] == JStr("alarms") && j.fields[ID_KEY] == JStr(AlarmSoundRaw(r.value.alarm))
  {
    var fields :- Container(j);
    var category :- Required(fields, CATEGORY_KEY, DecodeCategory);
    var id :- Required(fields, ID_KEY, DecodeString);
    NotificationSoundRawRoundTrip(NotificationSoundFromRaw(id).OrElse(Bicycle), id);
    AlarmSoundRawRoundTrip(AlarmSoundFromRaw(id).OrElse(Alarm1), id);
    ResolveTone(category, id)
  }

  /** `Sound.init(from:)`. A non-null `url` selects the custom sound, whose `type`
      defaults to mp3, whose `repeat` defaults to 1 and whose `fallback` is required;
      otherwise `category` and `id` are required, `repeat` defaults to 1, and the id must
      name a tone of that category. */
  function DecodeSound(j: Json): (r: Decoded<Sound>)
    ensures r.Ok? ==> j.JObj?
    // The custom branch is taken exactly when a url string is present.
    ensures r.Ok? ==> (r.value.Custom? <==> URL_KEY in j.fields && j.fields[URL_KEY] != JNull)
    ensures r.Ok? && r.value.Custom? ==> j.fields[URL_KEY] == JStr(r.value.url)
    ensures r.Ok? && r.value.Custom? && (TYPE_KEY !in j.fields || j.fields[TYPE_KEY] == JNull) ==>
      r.value.audioType == Mp3
    ensures r.Ok? && (REPEAT_KEY !in j.fields || j.fields[REPEAT_KEY] == JNull) ==> r.value.repeatCount == 1
    ensures r.Ok? && REPEAT_KEY in j.fields && j.fields[REPEAT_KEY] != JNull ==>
      j.fields[REPEAT_KEY] == JInt(r.value.repeatCount)
    // A custom payload without a fallback never decodes.
    ensures j.JObj? && URL_KEY in j.fields && j.fields[URL_KEY] != JNull && FALLBACK_KEY !in j.fields ==> r.Err?
    // Built-in tones come from the named category's enumeration, and from nowhere else.
    ensures r.Ok? && r.value.Notification? ==>
      CATEGORY_KEY in j.fields && ID_KEY in j.fields &&
      j.fields[CATEGORY_KEY] == JStr("notifications") && j.fields[ID_KEY] == JStr(NotificationSoundRaw(r.value.tone))
    ensures r.Ok? && r.value.Alarm? ==>
      CATEGORY_KEY in j.fields && ID_KEY in j.fields &&
      j.fields[CATEGORY_KEY] == JStr("alarms") && j.fields[ID_KEY] == JStr(AlarmSoundRaw(r.value.alarm))
  {
    var fields :- Container(j);
    var url :- IfPresent(fields, URL_KEY, DecodeString);
    if url.Some? then
      var audioType :- IfPresent(fields, TYPE_KEY, DecodeAudioType);
      var repeatCount :- IfPresent(fields, REPEAT_KEY, DecodeInt);
      var fallback :- Required(fields, FALLBACK_KEY, DecodeBuiltInSound);
      Ok(Custom(url.value, audioType.OrElse(Mp3), fallback, repeatCount.OrElse(1)))
    else
      var category :- Required(fields, CATEGORY_KEY, DecodeCategory);
      var id :- Required(fields, ID_KEY, DecodeString);
      var repeatCount :- IfPresent(fields, REPEAT_KEY, DecodeInt);
      var tone :- ResolveTone(category, id);
      NotificationSoundRawRoundTrip(NotificationSoundFromRaw(id).OrElse(Bicycle), id);
      AlarmSoundRawRoundTrip(AlarmSoundFromRaw(id).OrElse(Alarm1), id);
      match tone
      case BuiltInNotification(n) => Ok(Notification(n, repeatCount.OrElse(1)))
      case BuiltInAlarm(a) => Ok(Alarm(a, repeatCount.OrElse(1)))
  }

  // ---- encoding ----

  /** `BuiltInSound.encode(to:)`: category and id only. */
  function EncodeBuiltInSound(b: BuiltInSound): (j: Json)
    ensures j.JObj? && j.fields.Keys == {CATEGORY_KEY, ID_KEY}
  {
    match b
    case BuiltInNotification(n) =>
      JObj(map[CATEGORY_KEY := JStr(SoundCategoryRaw(Notifications)), ID_KEY := JStr(NotificationSoundRaw(n))])
    case BuiltInAlarm(a) =>
      JObj(map[CATEGORY_KEY := JStr(SoundCategoryRaw(Alarms)), ID_KEY := JStr(AlarmSoundRaw(a))])
  }

  /** `Sound.encode(to:)`: the repeat count is always written; built-in tones write
      category and id and never a url; a custom sound writes url, type, fallback and
      repeat and nothing else. */
  function EncodeSound(s: Sound): (j: Json)
    ensures j.JObj? && j.fields.Keys == (if s.Custom? then {URL_KEY, TYPE_KEY, FALLBACK_KEY, REPEAT_KEY}
                                         else {CATEGORY_KEY, ID_KEY, REPEAT_KEY})
    ensures j.fields[REPEAT_KEY] == JInt(s.repeatCount)
  {
    match s
    case Notification(id, repeatCount) =>
      JObj(map[CATEGORY_KEY := JStr(SoundCategoryRaw(Notifications)), ID_KEY := JStr(NotificationSoundRaw(id)),
               REPEAT_KEY := JInt(repeatCount)])
    case Alarm(id, repeatCount) =>
      JObj(map[CATEGORY_KEY := JStr(SoundCategoryRaw(Alarms)), ID_KEY := JStr(AlarmSoundRaw(id)),
               REPEAT_KEY := JInt(repeatCount)])
    case Custom(url, audioType, fallback, repeatCount) =>
      JObj(map[URL_KEY := JStr(url), TYPE_KEY := JStr(AudioTypeRaw(audioType)),
               FALLBACK_KEY := EncodeBuiltInSound(fallback), REPEAT_KEY := JInt(repeatCount)])
  }

  // ---- round trips ----

  /** A built-in sound reads back as itself. */
  lemma {:induction false} BuiltInSoundRoundTrip(b: BuiltInSound)
    ensures DecodeBuiltInSound(EncodeBuiltInSound(b)) == Ok(b)
  {
    match b
    case BuiltInNotification(n) => NotificationSoundRawRoundTrip(n, "");
    case BuiltInAlarm(a) => AlarmSoundRawRoundTrip(a, "");
  }

  /** Every sound reads back as itself, repeat count included. */
  lemma {:induction false} SoundRoundTrip(s: Sound)
    ensures DecodeSound(EncodeSound(s)) == Ok(s)
  {
    var fields := EncodeSound(s).fields;
    match s
    case Notification(id, _) =>
      assert URL_KEY !in fields;
      NotificationSoundRawRoundTrip(id, "");
    case Alarm(id, _) =>
      assert URL_KEY !in fields;
      AlarmSoundRawRoundTrip(id, "");
    case Custom(url, audioType, fallback, _) =>
      assert fields[URL_KEY] == JStr(url);
      assert audioType == Mp3;
      assert fields[TYPE_KEY] == JStr(AudioTypeRaw(Mp3));
      assert fields[FALLBACK_KEY] == EncodeBuiltInSound(fallback);
      BuiltInSoundRoundTrip(fallback);
  }

  /** The defaults at work: a custom sound sent with only its url and fallback is an mp3
      played once, and a built-in tone sent with only its category and id is played once. */
  lemma {:induction false} MinimalSoundsDecode(url: string, fallback: BuiltInSound, n: NotificationSound, a: AlarmSound)
    ensures DecodeSound(JObj(map[URL_KEY := JStr(url), FALLBACK_KEY := EncodeBuiltInSound(fallback)])) ==
      Ok(Custom(url, Mp3, fallback, 1))
    ensures DecodeSound(JObj(map[CATEGORY_KEY := JStr("notifications"), ID_KEY := JStr(NotificationSoundRaw(n))])) ==
      Ok(Notification(n, 1))
    ensures DecodeSound(JObj(map[CATEGORY_KEY := JStr("alarms"), ID_KEY := JStr(AlarmSoundRaw(a))])) ==
      Ok(Alarm(a, 1))
  {
    BuiltInSoundRoundTrip(fallback);
    NotificationSoundRawRoundTrip(n, "");
    AlarmSoundRawRoundTrip(a, "");
    var custom := map[URL_KEY := JStr(url), FALLBACK_KEY := EncodeBuiltInSound(fallback)];
    assert TYPE_KEY !in custom && REPEAT_KEY !in custom;
    var notification := map[CATEGORY_KEY := JStr("notifications"), ID_KEY := JStr(NotificationSoundRaw(n))];
    assert URL_KEY !in notification && REPEAT_KEY !in notification;
    var alarm := map[CATEGORY_KEY := JStr("alarms"), ID_KEY := JStr(AlarmSoundRaw(a))];
    assert URL_KEY !in alarm && REPEAT_KEY !in alarm;
  }
}
