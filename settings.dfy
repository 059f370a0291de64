/**
  The accessibility settings record of the overlay, its defaults, the load that
  merges persisted keys over the defaults, the save that writes every key, and
  the two record updates the panel performs (toggle one boolean field, set one
  field to a value).
*/
module AccessibilitySettings {
  import opened Wrappers

  datatype ContrastMode = Normal | High | Higher
  datatype CursorMode = NormalCursor | LargeCursor | ExtraCursor

  /** The property names of the record (`keyof AccessibilitySettings`). */
  datatype Key =
    | Enabled | FontSize | Contrast | Brightness | Saturation | InvertColors | Grayscale
    | CursorSize | ClickAnimation | PauseAnimations
    | ReadingGuide | FocusMode | SimplifyContent
    | SoundEnabled | TextToSpeech | TtsOnHover | TtsOnFocus | TtsDelayMs
    | TtsRate | TtsPitch | TtsVolume | TtsVoice
    | KeyboardNavigation | SkipLinks

  /** A property value as it is stored in the persisted JSON object. */
  datatype Value =
    | BoolValue(b: bool)
    | IntValue(i: int)
    | RealValue(x: real)
    | StringValue(s: string)
    | ContrastValue(c: ContrastMode)
    | CursorValue(m: CursorMode)

  predicate IsBoolKey(k: Key) {
    !(k.FontSize? || k.Contrast? || k.Brightness? || k.Saturation? || k.CursorSize?
      || k.TtsDelayMs? || k.TtsRate? || k.TtsPitch? || k.TtsVolume? || k.TtsVoice?)
  }

  /** Whether `v` has the type the record declares for property `k`. */
  predicate Fits(k: Key, v: Value) {
    match k
    case FontSize | Brightness | Saturation | TtsDelayMs => v.IntValue?
    case TtsRate | TtsPitch | TtsVolume => v.RealValue?
    case TtsVoice => v.StringValue?
    case Contrast => v.ContrastValue?
    case CursorSize => v.CursorValue?
    case _ => v.BoolValue?
  }

  /**
    The settings record (`AccessibilitySettings`) as the object it is: a map from
    property names to values. The state the component keeps is `WellTyped`.
  */
  type Settings = map<Key, Value>

  /** Every property present, each with a value of its declared type. */
  predicate WellTyped(s: Settings) {
    forall k :: k in s && Fits(k, s[k])
  }

  /** Whatever properties are present have a value of their declared type (a stored copy). */
  predicate PartlyTyped(m: map<Key, Value>) {
    forall k :: k in m ==> Fits(k, m[k])
  }

  /** A boolean property of the record, such as `settings.enabled`. */
  function Flag(s: Settings, k: Key): bool
    requires WellTyped(s) && IsBoolKey(k)
  {
    s[k].b
  }

  /** A whole-number property of the record, such as `settings.fontSize`. */
  function Number(s: Settings, k: Key): int
    requires WellTyped(s) && (k.FontSize? || k.Brightness? || k.Saturation? || k.TtsDelayMs?)
  {
    s[k].i
  }

  function ContrastOf(s: Settings): ContrastMode
    requires WellTyped(s)
  {
    s[Contrast].c
  }

  function CursorOf(s: Settings): CursorMode
    requires WellTyped(s)
  {
    s[CursorSize].m
  }

  function VoiceOf(s: Settings): string
    requires WellTyped(s)
  {
    s[TtsVoice].s
  }

  /**
    `updateSetting(key, value)`: property `k` becomes `v`, every other property
    keeps its value, and the record stays well typed.
  */
  function Update(s: Settings, k: Key, v: Value): (r: Settings)
    requires WellTyped(s) && Fits(k, v)
    ensures WellTyped(r)
    ensures r[k] == v
    ensures forall k' :: k' != k ==> r[k'] == s[k']
  {
    s[k := v]
  }

  /** `toggleSetting(key)` on a boolean property: it is negated, every other property keeps its value. */
  function Toggle(s: Settings, k: Key): (r: Settings)
    requires WellTyped(s) && IsBoolKey(k)
    ensures WellTyped(r)
    ensures Flag(r, k) == !Flag(s, k)
    ensures forall k' :: k' != k ==> r[k'] == s[k']
  {
    Update(s, k, BoolValue(!Flag(s, k)))
  }

  /** Toggling the same boolean property twice gives back the record. */
  lemma ToggleTwice(s: Settings, k: Key)
    requires WellTyped(s) && IsBoolKey(k)
    ensures Toggle(Toggle(s, k), k) == s
  {
    assert s[k] == BoolValue(Flag(s, k));
  }

  /** The default value of each property, written out twice in the source (initial state and reset) with the same values. */
  function DefaultOf(k: Key): (v: Value)
    ensures Fits(k, v)
  {
    match k
    case Enabled => BoolValue(false)
    case FontSize => IntValue(100)
    case Contrast => ContrastValue(Normal)
    case Brightness => IntValue(100)
    case Saturation => IntValue(100)
    case InvertColors => BoolValue(false)
    case Grayscale => BoolValue(false)
    case CursorSize => CursorValue(NormalCursor)
    case ClickAnimation => BoolValue(false)
    case PauseAnimations => BoolValue(false)
    case ReadingGuide => BoolValue(false)
    case FocusMode => BoolValue(false)
    case SimplifyContent => BoolValue(false)
    case SoundEnabled => BoolValue(true)
    case TextToSpeech => BoolValue(false)
    case TtsOnHover => BoolValue(true)
    case TtsOnFocus => BoolValue(true)
    case TtsDelayMs => IntValue(120)
    case TtsRate => RealValue(0.95)
    case TtsPitch => RealValue(1.0)
    case TtsVolume => RealValue(0.9)
    case TtsVoice => StringValue("")
    case KeyboardNavigation => BoolValue(true)
    case SkipLinks => BoolValue(true)
  }

  /** The default record: every property with its default value. */
  const Defaults: Settings := map k: Key :: DefaultOf(k)

  lemma DefaultsWellTyped()
    ensures WellTyped(Defaults)
    ensures forall k :: Defaults[k] == DefaultOf(k)
  {
  }

  /**
    The initial state of the overlay, `{ ...defaultSettings, ...parsed }`: with
    nothing stored (or a stored copy that could not be read or parsed, `None`),
    the defaults; otherwise the defaults overridden by exactly the keys the
    stored object holds. A stored copy whose values have their declared types
    gives a well-typed record.
  */
  function Load(p: Option<map<Key, Value>>): (r: Settings)
    ensures forall k :: k in r && r[k] == if p.Some? && k in p.value then p.value[k] else DefaultOf(k)
    ensures p.None? ==> r == Defaults
    ensures (p.None? || PartlyTyped(p.value)) ==> WellTyped(r)
  {
    match p
    case None => Defaults
    case Some(m) => (map k: Key :: if k in m then m[k] else DefaultOf(k))
  }

  /** What `JSON.stringify(settings)` stores: every property with its value. */
  function Encode(s: Settings): (m: map<Key, Value>)
    requires WellTyped(s)
    ensures PartlyTyped(m)
    ensures forall k :: k in m && m[k] == s[k]
  {
    s
  }

  /** Saving and loading again gives back the record (the stored copy converges with the state). */
  lemma LoadEncode(s: Settings)
    requires WellTyped(s)
    ensures Load(Some(Encode(s))) == s
  {
    var r := Load(Some(Encode(s)));
    assert r.Keys == s.Keys;
  }

  /** After a reset the stored copy is either gone or the saved defaults; either way a load gives the defaults. */
  lemma LoadAfterReset(p: Option<map<Key, Value>>)
    requires p == None || p == Some(Encode(Defaults))
    ensures Load(p) == Defaults
  {
    DefaultsWellTyped();
    if p.Some? { LoadEncode(Defaults); }
  }
}
