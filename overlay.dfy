/**
  The overlay component as a whole: the settings state, the stored copy in
  local storage, the document surface, the route-change watch and the deferred
  cleanup of a reset. Each user action changes the settings and then runs the
  effects a re-render runs (save, apply, and the route watch when `enabled` or
  `textToSpeech` changed); the timers and document events are methods of their
  own.
*/
module Overlay {
  import opened Wrappers
  import opened AccessibilitySettings
  import opened DocumentSurface
  import opened VoiceChoice
  import opened RouteChange
  import opened SpeechControl

  /** The component's state as a value. */
  datatype Ov = Ov(
    settings: Settings,
    listenerSettings: Settings,        // what `enableTextToSpeech` closed over: the first render's settings
    voices: seq<Voice>,                // `availableVoices`: the list the last `loadVoices` read
    queuedVoice: Option<string>,       // a `setSettings` of the voice effect, queued for the next render
    stored: Option<map<Key, Value>>,   // the `accessibility-settings` entry of local storage
    doc: Doc,
    watching: bool,                    // the popstate listener and the mutation observer are installed
    deferredClears: nat,               // pending `setTimeout(clearAllEffects, 100)` calls of a reset
    mounted: bool)

  /** Whether a change of settings re-runs the route effect, whose cleanup clears the re-init timer. */
  predicate RouteDepsChanged(prev: Settings, s: Settings)
    requires WellTyped(prev) && WellTyped(s)
  {
    Flag(prev, Enabled) != Flag(s, Enabled) || Flag(prev, TextToSpeech) != Flag(s, TextToSpeech)
  }

  /**
    Whether a render re-runs the voice effect (its dependency `ttsVoice`
    changed) and that run queues a voice: the name became empty while voices
    are loaded.
  */
  predicate VoiceReloads(prev: Settings, o: Ov)
    requires WellTyped(prev) && WellTyped(o.settings)
  {
    VoiceOf(prev) != VoiceOf(o.settings) && VoiceOf(o.settings) == "" && o.voices != []
  }

  /** What the voice effect leaves queued: the preferred voice's name if it ran and found the name empty. */
  function VoiceQueue(prev: Settings, o: Ov): Option<string>
    requires WellTyped(prev) && WellTyped(o.settings)
  {
    if VoiceReloads(prev, o) then Some(Preferred(o.voices).value.name) else o.queuedVoice
  }

  /**
    The document effects of a render whose settings replaced `prev`: the
    route effect's cleanup (if its dependencies changed), then the save, the
    apply effect and the route effect's set-up.
  */
  function DocEffects(prev: Settings, o: Ov): Ov
    requires WellTyped(prev) && WellTyped(o.settings)
  {
    var d := if RouteDepsChanged(prev, o.settings) then o.doc.(reinitPending := false) else o.doc;
    o.(stored := Some(Encode(o.settings)), doc := ApplySpec(d, o.settings),
       watching := Flag(o.settings, Enabled) && Flag(o.settings, TextToSpeech))
  }

  /**
    The effects of a render whose settings replaced `prev`: the voice effect
    when `ttsVoice` changed, then the document effects. The voice effect's
    `setSettings` with the preferred voice's name is queued: it takes effect
    in the next render (`VoiceUpdateStep`).
  */
  function Commit(prev: Settings, o: Ov): Ov
    requires WellTyped(prev) && WellTyped(o.settings)
  {
    DocEffects(prev, o.(queuedVoice := VoiceQueue(prev, o)))
  }

  /** `setSettings(next)` followed by the re-render. */
  function SetTo(o: Ov, next: Settings): Ov
    requires WellTyped(o.settings) && WellTyped(next)
  {
    Commit(o.settings, o.(settings := next))
  }

  /**
    The first render: the loaded settings and every effect's first run.
    `enableTextToSpeech` is memoised with no dependencies, so every listener
    set it ever attaches reads the settings of this render.
  */
  function Mount(saved: Option<map<Key, Value>>): Ov
    requires saved.None? || PartlyTyped(saved.value)
  {
    var s := Load(saved);
    Commit(s, Ov(s, s, [], None, saved, Empty, false, 0, true))
  }

  function ToggleStep(o: Ov, k: Key): Ov
    requires WellTyped(o.settings) && IsBoolKey(k)
  {
    SetTo(o, Toggle(o.settings, k))
  }

  function UpdateStep(o: Ov, k: Key, v: Value): Ov
    requires WellTyped(o.settings) && Fits(k, v)
  {
    SetTo(o, Update(o.settings, k, v))
  }

  /**
    `resetSettings`: clear everything at once, set the defaults, remove the
    stored copy, schedule one more clear; then the re-render saves the
    defaults again and applies them.
  */
  function ResetStep(o: Ov): Ov
    requires WellTyped(o.settings)
  {
    DefaultsWellTyped();
    SetTo(o.(doc := Clear(o.doc), stored := None, deferredClears := o.deferredClears + 1), Defaults)
  }

  /**
    `loadVoices` runs (at mount or on `voiceschanged`) and reads the list `vs`:
    the list is kept, a default voice may be stored, and then the component
    re-renders.
  */
  function VoicesStep(o: Ov, vs: seq<Voice>): Ov
    requires WellTyped(o.settings)
  {
    var l := o.(voices := vs);
    if vs != [] && VoiceOf(o.settings) == "" then SetTo(l, OnVoicesLoaded(o.settings, vs)) else l
  }

  /**
    The render that processes the voice effect's queued `setSettings(prev =>
    ({ ...prev, ttsVoice: name }))`, with its effects.
  */
  function VoiceUpdateStep(o: Ov): Ov
    requires WellTyped(o.settings) && o.queuedVoice.Some?
  {
    SetTo(o.(queuedVoice := None), Update(o.settings, TtsVoice, StringValue(o.queuedVoice.value)))
  }

  /** A `popstate` event, or a batch of mutations that passes the significance test: the re-init is (re)scheduled. */
  function RouteStep(o: Ov, significant: bool): Ov
    requires WellTyped(o.settings)
  {
    if o.watching && significant && Flag(o.settings, TextToSpeech) && Flag(o.settings, Enabled)
    then o.(doc := o.doc.(reinitPending := true))
    else o
  }

  function MutationsStep(o: Ov, ms: seq<Mutation>): Ov
    requires WellTyped(o.settings)
  {
    RouteStep(o, HasSignificantChanges(ms))
  }

  function ReinitStep(o: Ov): Ov
    requires o.doc.reinitPending
  {
    o.(doc := FireReinit(o.doc))
  }

  function EnableTimerStep(o: Ov, id: nat): Ov
    requires id in o.doc.enableTimers
  {
    o.(doc := FireEnable(o.doc, id))
  }

  function DeferredClearStep(o: Ov): Ov
    requires o.deferredClears > 0
  {
    o.(doc := Clear(o.doc), deferredClears := o.deferredClears - 1)
  }

  /** The unmount: every effect's cleanup, which together amount to one more clear. */
  function UnmountStep(o: Ov): Ov {
    o.(doc := Clear(o.doc), watching := false, mounted := false)
  }

  /**
    What holds between events: the settings are well typed and always saved;
    the surface accounts for what it installed; with the overlay disabled the
    document is cleared; the route watch is on exactly when enabled with
    text-to-speech, and no re-init is pending without it.
  */
  predicate Inv(o: Ov) {
    && WellTyped(o.settings)
    && WellTyped(o.listenerSettings)
    && o.stored == Some(Encode(o.settings))
    && Valid(o.doc)
    && (!Flag(o.settings, Enabled) || !o.mounted ==> Cleared(o.doc))
    && o.watching == (o.mounted && Flag(o.settings, Enabled) && Flag(o.settings, TextToSpeech))
    && (!o.watching ==> !o.doc.reinitPending)
  }

  /** The enabled overlay shows exactly its settings' style and guide. */
  predicate Shown(o: Ov)
    requires WellTyped(o.settings)
  {
    Flag(o.settings, Enabled) ==> o.doc.root == StyleFor(o.settings) && o.doc.guide == Flag(o.settings, ReadingGuide)
  }

  /**
    Every re-render keeps the invariant and shows the settings; it keeps them
    and queues the preferred voice exactly when the voice name was emptied
    while voices are loaded.
  */
  lemma CommitInv(prev: Settings, o: Ov)
    requires WellTyped(prev) && WellTyped(o.settings) && WellTyped(o.listenerSettings) && Valid(o.doc) && o.mounted
    requires !(Flag(prev, Enabled) && Flag(prev, TextToSpeech)) ==> !o.doc.reinitPending
    ensures Inv(Commit(prev, o)) && Shown(Commit(prev, o))
    ensures Commit(prev, o).settings == o.settings
    ensures Commit(prev, o).queuedVoice == if VoiceReloads(prev, o) then Some(Preferred(o.voices).value.name) else o.queuedVoice
  {
    var d := if RouteDepsChanged(prev, o.settings) then o.doc.(reinitPending := false) else o.doc;
    ApplyValid(d, o.settings);
    if Flag(o.settings, Enabled) {
      ApplyStyle(d, o.settings);
    } else {
      ApplyDisabled(d, o.settings);
    }
  }

  /** The first render satisfies the invariant, with the loaded settings saved back. */
  lemma MountInv(saved: Option<map<Key, Value>>)
    requires saved.None? || PartlyTyped(saved.value)
    ensures Inv(Mount(saved)) && Shown(Mount(saved))
    ensures Mount(saved).settings == Load(saved) && Mount(saved).deferredClears == 0
    ensures Mount(saved).listenerSettings == Load(saved) && Mount(saved).voices == [] && Mount(saved).queuedVoice.None?
  {
    var s := Load(saved);
    CommitInv(s, Ov(s, s, [], None, saved, Empty, false, 0, true));
  }

  lemma ToggleInv(o: Ov, k: Key)
    requires Inv(o) && o.mounted && IsBoolKey(k)
    ensures Inv(ToggleStep(o, k)) && Shown(ToggleStep(o, k))
    ensures ToggleStep(o, k).settings == Toggle(o.settings, k)
  {
    CommitInv(o.settings, o.(settings := Toggle(o.settings, k)));
  }

  /**
    An update keeps the invariant and shows the updated settings; emptying
    the voice name while voices are loaded queues the preferred voice.
  */
  lemma UpdateInv(o: Ov, k: Key, v: Value)
    requires Inv(o) && o.mounted && Fits(k, v)
    ensures Inv(UpdateStep(o, k, v)) && Shown(UpdateStep(o, k, v))
    ensures UpdateStep(o, k, v).settings == Update(o.settings, k, v)
    ensures UpdateStep(o, k, v).queuedVoice
      == if VoiceOf(Update(o.settings, k, v)) == "" && VoiceOf(o.settings) != "" && o.voices != []
         then Some(Preferred(o.voices).value.name) else o.queuedVoice
  {
    CommitInv(o.settings, o.(settings := Update(o.settings, k, v)));
  }

  /**
    After a reset the settings are the defaults, the document is cleared, the
    stored copy loads as the defaults, and one more clear is pending. The
    reset empties the voice name; if it was set and voices are loaded, the
    voice effect queues the preferred voice for the next render.
  */
  lemma ResetInv(o: Ov)
    requires Inv(o) && o.mounted
    ensures var r := ResetStep(o);
      && Inv(r) && r.settings == Defaults && Cleared(r.doc) && Load(r.stored) == Defaults
      && r.deferredClears == o.deferredClears + 1 && !r.watching && !r.doc.reinitPending
      && r.queuedVoice == if VoiceOf(o.settings) != "" && o.voices != [] then Some(Preferred(o.voices).value.name) else o.queuedVoice
  {
    DefaultsWellTyped();
    var c := o.(doc := Clear(o.doc), stored := None, deferredClears := o.deferredClears + 1);
    ClearClears(o.doc);
    assert VoiceOf(Defaults) == "";
    CommitInv(o.settings, c.(settings := Defaults));
    LoadAfterReset(ResetStep(o).stored);
  }

  /** The queued voice update keeps the invariant, names that voice, and queues nothing more unless the name is empty. */
  lemma VoiceUpdateInv(o: Ov)
    requires Inv(o) && o.mounted && o.queuedVoice.Some?
    ensures var r := VoiceUpdateStep(o);
      && Inv(r) && Shown(r) && r.settings == Update(o.settings, TtsVoice, StringValue(o.queuedVoice.value))
      && VoiceOf(r.settings) == o.queuedVoice.value
      && (o.queuedVoice.value != "" ==> r.queuedVoice.None?)
  {
    var n := Update(o.settings, TtsVoice, StringValue(o.queuedVoice.value));
    CommitInv(o.settings, o.(queuedVoice := None, settings := n));
  }

  /**
    A reset while a voice is named and voices are loaded does not settle at
    the defaults: the render of the voice effect's update stores the
    preferred voice's name, and a reload restores it.
  */
  lemma ResetRestoresPreferredVoice(o: Ov)
    requires Inv(o) && o.mounted && VoiceOf(o.settings) != "" && o.voices != []
    ensures var r := VoiceUpdateStep(ResetStep(o));
      && Inv(r) && r.settings == Update(Defaults, TtsVoice, StringValue(Preferred(o.voices).value.name))
      && Load(r.stored) == r.settings
      && (Preferred(o.voices).value.name != "" ==> r.settings != Defaults && r.queuedVoice.None?)
  {
    ResetInv(o);
    VoiceUpdateInv(ResetStep(o));
    var r := VoiceUpdateStep(ResetStep(o));
    ReloadKeepsSettings(r);
    DefaultsWellTyped();
    var n := Preferred(o.voices).value.name;
    if n != "" {
      assert VoiceOf(r.settings) == n;
    }
  }

  lemma VoicesInv(o: Ov, vs: seq<Voice>)
    requires Inv(o) && o.mounted
    ensures Inv(VoicesStep(o, vs))
    ensures VoicesStep(o, vs).settings == OnVoicesLoaded(o.settings, vs) && VoicesStep(o, vs).voices == vs
    ensures VoicesStep(o, vs).queuedVoice == o.queuedVoice
    ensures forall k :: k != TtsVoice ==> VoicesStep(o, vs).settings[k] == o.settings[k]
  {
    if vs != [] && VoiceOf(o.settings) == "" {
      CommitInv(o.settings, o.(voices := vs, settings := OnVoicesLoaded(o.settings, vs)));
    }
  }

  lemma RouteInv(o: Ov, ms: seq<Mutation>)
    requires Inv(o)
    ensures Inv(MutationsStep(o, ms)) && Inv(RouteStep(o, true))
    ensures MutationsStep(o, ms).doc.reinitPending == (o.doc.reinitPending || (o.watching && HasSignificantChanges(ms)))
  {
  }

  lemma TimersInv(o: Ov, id: nat)
    requires Inv(o)
    ensures o.doc.reinitPending ==> Inv(ReinitStep(o))
    ensures id in o.doc.enableTimers ==> Inv(EnableTimerStep(o, id))
  {
    if o.doc.reinitPending {
      FireReinitValid(o.doc);
    }
    if id in o.doc.enableTimers {
      FireEnableValid(o.doc, id);
    }
  }

  lemma DeferredClearInv(o: Ov)
    requires Inv(o) && o.deferredClears > 0
    ensures Inv(DeferredClearStep(o)) && Cleared(DeferredClearStep(o).doc)
  {
    ClearClears(o.doc);
  }

  lemma UnmountInv(o: Ov)
    requires Inv(o)
    ensures Inv(UnmountStep(o)) && Cleared(UnmountStep(o).doc)
  {
    ClearClears(o.doc);
  }

  /** Reloading the page at any point between events gives back the current settings. */
  lemma ReloadKeepsSettings(o: Ov)
    requires Inv(o)
    ensures Load(o.stored) == o.settings
  {
    LoadEncode(o.settings);
  }

  /**
    The deferred clear of a reset does not look at the settings: if the
    overlay is enabled again before it fires, it removes the effects of the
    enabled settings, which then stay removed until the next change.
  */
  lemma ResetRace(o: Ov)
    requires Inv(o) && o.mounted
    ensures var r := DeferredClearStep(ToggleStep(ResetStep(o), Enabled));
      Flag(r.settings, Enabled) && Cleared(r.doc)
  {
    ResetInv(o);
    DefaultsWellTyped();
    var t := ToggleStep(ResetStep(o), Enabled);
    ToggleInv(ResetStep(o), Enabled);
    DeferredClearInv(t);
  }

  /** A re-render keeps the settings the listener sets read. */
  lemma SetToKeepsListenerSettings(o: Ov, next: Settings)
    requires WellTyped(o.settings) && WellTyped(next)
    ensures SetTo(o, next).listenerSettings == o.listenerSettings
  {
  }

  /** A reset's render keeps the settings the listener sets read. */
  lemma ResetKeepsListenerSettings(o: Ov)
    requires WellTyped(o.settings)
    ensures ResetStep(o).listenerSettings == o.listenerSettings
  {
    DefaultsWellTyped();
    var cleared := o.(doc := Clear(o.doc), stored := None, deferredClears := o.deferredClears + 1);
    SetToKeepsListenerSettings(cleared, Defaults);
  }

  /** No panel action alters the settings the listener sets read: they stay those of the first render. */
  lemma ListenerSettingsFixed(o: Ov, k: Key, v: Value)
    requires WellTyped(o.settings)
    ensures IsBoolKey(k) ==> ToggleStep(o, k).listenerSettings == o.listenerSettings
    ensures Fits(k, v) ==> UpdateStep(o, k, v).listenerSettings == o.listenerSettings
    ensures ResetStep(o).listenerSettings == o.listenerSettings
  {
    if IsBoolKey(k) {
      SetToKeepsListenerSettings(o, Toggle(o.settings, k));
    }
    if Fits(k, v) {
      SetToKeepsListenerSettings(o, Update(o.settings, k, v));
    }
    ResetKeepsListenerSettings(o);
  }

  /** Nor does a voice list arriving, or the voice update it may queue. */
  lemma ListenerSettingsFixedByVoices(o: Ov, vs: seq<Voice>)
    requires WellTyped(o.settings)
    ensures VoicesStep(o, vs).listenerSettings == o.listenerSettings
    ensures o.queuedVoice.Some? ==> VoiceUpdateStep(o).listenerSettings == o.listenerSettings
  {
    if vs != [] && VoiceOf(o.settings) == "" {
      SetToKeepsListenerSettings(o.(voices := vs), OnVoicesLoaded(o.settings, vs));
    }
    if o.queuedVoice.Some? {
      SetToKeepsListenerSettings(o.(queuedVoice := None), Update(o.settings, TtsVoice, StringValue(o.queuedVoice.value)));
    }
  }

  /** Nor does any document event or timer. */
  lemma ListenerSettingsFixedByEvents(o: Ov, ms: seq<Mutation>, id: nat)
    requires WellTyped(o.settings)
    ensures MutationsStep(o, ms).listenerSettings == o.listenerSettings
    ensures RouteStep(o, true).listenerSettings == o.listenerSettings
    ensures o.doc.reinitPending ==> ReinitStep(o).listenerSettings == o.listenerSettings
    ensures id in o.doc.enableTimers ==> EnableTimerStep(o, id).listenerSettings == o.listenerSettings
    ensures o.deferredClears > 0 ==> DeferredClearStep(o).listenerSettings == o.listenerSettings
    ensures UnmountStep(o).listenerSettings == o.listenerSettings
  {
  }

  /**
    Turning sound off after the first render silences the panel's own
    `speakText`, which reads the current settings, but not hover speech: a
    listener set of the first render whose timer fires still speaks, with the
    first render's voice and tuning values.
  */
  lemma SoundOffStillSpeaksOnHover(o: Ov, st: Tts, text: string, vs: seq<Voice>)
    requires Inv(o) && o.mounted && Flag(o.settings, SoundEnabled) && Flag(o.listenerSettings, SoundEnabled)
    requires st.pending.Some? && st.last != Some(st.pending.value.target)
    ensures var r := ToggleStep(o, SoundEnabled);
      && Inv(r) && !Flag(r.settings, SoundEnabled) && r.listenerSettings == o.listenerSettings
      && SpeakText(r.settings, st, text, vs) == st
      && FireStep(r.listenerSettings, st, vs).log == st.log + [Utter(o.listenerSettings, st.pending.value.text, vs)]
  {
    ToggleInv(o, SoundEnabled);
    var r := ToggleStep(o, SoundEnabled);
    assert !Flag(r.settings, SoundEnabled);
    SpeakTextGuard(r.settings, st, text, vs);
    FireSpeaks(o.listenerSettings, st, vs);
  }

  /**
    With the overlay, the reading guide and text-to-speech on, every settings
    change strips the guide and appends it again; the observer on the body
    sees that DIV, schedules a re-initialisation, and its timer attaches one
    more listener set.
  */
  lemma GuideReappendReinits(o: Ov, k: Key, v: Value)
    requires Inv(o) && o.mounted && Fits(k, v)
    requires Flag(o.settings, Enabled) && Flag(o.settings, TextToSpeech)
    requires var s := Update(o.settings, k, v);
      Flag(s, Enabled) && Flag(s, TextToSpeech) && Flag(s, ReadingGuide)
    ensures var r := UpdateStep(o, k, v);
      var m := MutationsStep(r, [Mutation(ChildList, [ElementNode("DIV")])]);
      && r.doc.guide && m.doc.reinitPending && Inv(m)
      && ReinitStep(m).doc.speechListenerSets == r.doc.speechListenerSets + 1
  {
    UpdateInv(o, k, v);
    var r := UpdateStep(o, k, v);
    GuideInsertionIsSignificant();
    RouteInv(r, [Mutation(ChildList, [ElementNode("DIV")])]);
  }

  /**
    A change that switches the watch on (enabled or text-to-speech turned on)
    re-runs the route effect after the apply effect: the new observer connects
    only once the guide is appended, so the append schedules nothing. The
    change leaves the guide in place exactly when it is on, the watch on, and
    no re-init pending.
  */
  lemma WatchStartsAfterGuide(o: Ov, k: Key, v: Value)
    requires Inv(o) && o.mounted && Fits(k, v)
    requires !(Flag(o.settings, Enabled) && Flag(o.settings, TextToSpeech))
    requires var s := Update(o.settings, k, v); Flag(s, Enabled) && Flag(s, TextToSpeech)
    ensures var r := UpdateStep(o, k, v);
      && r.watching && !r.doc.reinitPending && Inv(r)
      && (r.doc.guide <==> Flag(r.settings, ReadingGuide))
  {
    UpdateInv(o, k, v);
  }

  /** The component, performing the same steps on its fields and on the document surface. */
  class Component {
    var settings: Settings
    const listenerSettings: Settings
    var voices: seq<Voice>
    var queuedVoice: Option<string>
    var stored: Option<map<Key, Value>>
    var watching: bool
    var deferredClears: nat
    var mounted: bool
    const surface: Surface

    function Model(): Ov
      reads this, surface
    {
      Ov(settings, listenerSettings, voices, queuedVoice, stored, surface.State(), watching, deferredClears, mounted)
    }

    /** The first render: load, then the effects. */
    constructor(saved: Option<map<Key, Value>>)
      requires saved.None? || PartlyTyped(saved.value)
      ensures Model() == Mount(saved) && fresh(surface)
    {
      var s := Load(saved);
      settings, listenerSettings, voices, queuedVoice := s, s, [], None;
      stored, watching, deferredClears, mounted := saved, false, 0, true;
      surface := new Surface();
      new;
      RunEffects(s);
    }

    /** The voice effect, re-run when `ttsVoice` changed: it may queue the preferred voice. */
    method RunVoiceEffect(prev: Settings)
      requires WellTyped(prev) && WellTyped(settings)
      modifies this`queuedVoice
      ensures Model() == old(Model()).(queuedVoice := VoiceQueue(prev, old(Model())))
    {
      if VoiceOf(prev) != VoiceOf(settings) && VoiceOf(settings) == "" && voices != [] {
        queuedVoice := Some(Preferred(voices).value.name);
      }
    }

    /** The document effects of a render whose previous settings were `prev`. */
    method RunDocEffects(prev: Settings)
      requires WellTyped(prev) && WellTyped(settings)
      modifies this`stored, this`watching, surface
      ensures Model() == DocEffects(prev, old(Model()))
    {
      var s := settings;
      var changed := RouteDepsChanged(prev, s);
      var watch := Flag(s, Enabled) && Flag(s, TextToSpeech);
      ghost var d := if changed then surface.State().(reinitPending := false) else surface.State();
      if changed {
        surface.CancelReinit();
      }
      assert surface.State() == d;
      stored := Some(Encode(s));
      surface.Apply(s);
      assert surface.State() == ApplySpec(d, s);
      watching := watch;
      assert Model() == old(Model()).(stored := Some(Encode(s)), doc := ApplySpec(d, s), watching := watch);
    }

    /** The effects of a render whose previous settings were `prev`; the voice effect and the document effects touch disjoint state. */
    method RunEffects(prev: Settings)
      requires WellTyped(prev) && WellTyped(settings)
      modifies this`stored, this`watching, this`queuedVoice, surface
      ensures Model() == Commit(prev, old(Model()))
    {
      RunVoiceEffect(prev);
      RunDocEffects(prev);
    }

    /** `toggleSetting(key)` and the re-render. */
    method ToggleSetting(k: Key)
      requires WellTyped(settings) && IsBoolKey(k)
      modifies this, surface
      ensures Model() == ToggleStep(old(Model()), k)
    {
      var prev := settings;
      settings := Toggle(settings, k);
      RunEffects(prev);
    }

    /** `updateSetting(key, value)` and the re-render. */
    method UpdateSetting(k: Key, v: Value)
      requires WellTyped(settings) && Fits(k, v)
      modifies this, surface
      ensures Model() == UpdateStep(old(Model()), k, v)
    {
      var prev := settings;
      settings := Update(settings, k, v);
      RunEffects(prev);
    }

    method ResetSettings()
      requires WellTyped(settings)
      modifies this, surface
      ensures Model() == ResetStep(old(Model()))
    {
      DefaultsWellTyped();
      surface.ClearAll();
      var prev := settings;
      settings := Defaults;
      stored := None;
      deferredClears := deferredClears + 1;
      RunEffects(prev);
    }

    /** `loadVoices` with the list `getVoices` returns. */
    method LoadVoices(vs: seq<Voice>)
      requires WellTyped(settings)
      modifies this, surface
      ensures Model() == VoicesStep(old(Model()), vs)
    {
      voices := vs;
      if vs != [] && VoiceOf(settings) == "" {
        var prev := settings;
        settings := OnVoicesLoaded(settings, vs);
        RunEffects(prev);
      }
    }

    /** The next render processes the voice effect's queued update. */
    method OnVoiceUpdate()
      requires WellTyped(settings) && queuedVoice.Some?
      modifies this, surface
      ensures Model() == VoiceUpdateStep(old(Model()))
    {
      var prev := settings;
      settings := Update(settings, TtsVoice, StringValue(queuedVoice.value));
      queuedVoice := None;
      RunEffects(prev);
    }

    /** `handleRouteChange` on `popstate`. */
    method OnPopState()
      requires WellTyped(settings)
      modifies surface
      ensures Model() == RouteStep(old(Model()), true)
    {
      if watching && Flag(settings, TextToSpeech) && Flag(settings, Enabled) {
        surface.ScheduleReinit();
      }
    }

    /** The mutation observer's callback. */
    method OnMutations(ms: seq<Mutation>)
      requires WellTyped(settings)
      modifies surface
      ensures Model() == MutationsStep(old(Model()), ms)
    {
      var significant := HasSignificantChanges(ms);
      if watching && significant && Flag(settings, TextToSpeech) && Flag(settings, Enabled) {
        surface.ScheduleReinit();
      }
    }

    /** The re-init timer fires: `enableTextToSpeech()` attaches one more listener set, reading the first render's settings. */
    method OnReinitTimer() returns (listeners: SpeechController)
      requires surface.reinitPending && WellTyped(listenerSettings)
      modifies surface
      ensures Model() == ReinitStep(old(Model()))
      ensures fresh(listeners) && listeners.settings == listenerSettings && listeners.State() == Start
    {
      surface.FireReinitTimer();
      listeners := new SpeechController(listenerSettings);
    }

    /** The delayed start fires: `enableTextToSpeech()` attaches a listener set, reading the first render's settings. */
    method OnEnableTimer(id: nat) returns (listeners: SpeechController)
      requires id in surface.enableTimers && WellTyped(listenerSettings)
      modifies surface
      ensures Model() == EnableTimerStep(old(Model()), id)
      ensures fresh(listeners) && listeners.settings == listenerSettings && listeners.State() == Start
    {
      surface.FireEnableTimer(id);
      listeners := new SpeechController(listenerSettings);
    }

    /** The `setTimeout(clearAllEffects, 100)` of a reset fires. */
    method OnDeferredClear()
      requires deferredClears > 0
      modifies this, surface
      ensures Model() == DeferredClearStep(old(Model()))
    {
      surface.ClearAll();
      deferredClears := deferredClears - 1;
    }

    method Unmount()
      modifies this, surface
      ensures Model() == UnmountStep(old(Model()))
    {
      surface.ClearAll();
      watching, mounted := false, false;
    }
  }
}
