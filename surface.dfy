/**
  What the overlay does to the document: the four custom properties on the
  root element, the root `filter`, the `focus-mode` class, the reading-guide
  element, and the cleanup registry (`cleanupFunctionsRef.current`) whose
  teardowns remove the listeners and timers the overlay installed.

  `Doc` is the abstract state and `Clear`, `ApplySpec` say what the two effect
  routines do to it; the class `Surface` performs them step by step.
*/
module DocumentSurface {
  import opened Wrappers
  import opened Text
  import opened AccessibilitySettings
  import opened VisualFilter

  /** A function pushed onto the cleanup registry. */
  datatype Teardown =
    | RemoveReadingGuide          // the cleanup `addReadingGuide` returns: the mousemove listener and the guide element go
    | CancelEnableTimer(id: nat)  // `clearTimeout` of the delayed text-to-speech start
    | RemoveSpeechListeners       // the cleanup `enableTextToSpeech` returns: one set of speech listeners goes

  /**
    The root element's inline style and class list as the overlay sets them.
    Custom properties are `None` when removed.
  */
  datatype RootStyle = RootStyle(
    fontScale: Option<int>,            // `--accessibility-font-scale`, as the percentage it is computed from
    cursorScale: Option<string>,       // `--cursor-scale`
    animationDuration: Option<string>, // `--animation-duration`
    transitionDuration: Option<string>,// `--transition-duration`
    filter: string,                    // `root.style.filter`
    focusMode: bool)                   // the `focus-mode` class

  /** No custom property, no filter, no class. */
  const Bare := RootStyle(None, None, None, None, "", false)

  /** The document as the overlay sees it. */
  datatype Doc = Doc(
    root: RootStyle,
    guide: bool,                       // the `#reading-guide` element is in the document
    guideListeners: nat,               // installed reading-guide mousemove listeners
    speechListenerSets: nat,           // installed sets of text-to-speech listeners
    enableTimers: set<nat>,            // pending delayed text-to-speech starts, by timer id
    nextTimer: nat,                    // the id the next timer gets
    reinitPending: bool,               // `reinitTimeoutRef.current` holds a pending timer
    registry: seq<Teardown>,           // `cleanupFunctionsRef.current`
    ran: seq<Teardown>)                // every teardown run so far, in order

  /** Running one teardown. */
  function RunOne(d: Doc, t: Teardown): (r: Doc)
    ensures r.registry == d.registry && r.ran == d.ran + [t]
  {
    match t
    case RemoveReadingGuide =>
      d.(guide := false, guideListeners := if d.guideListeners > 0 then d.guideListeners - 1 else 0, ran := d.ran + [t])
    case CancelEnableTimer(id) =>
      d.(enableTimers := d.enableTimers - {id}, ran := d.ran + [t])
    case RemoveSpeechListeners =>
      d.(speechListenerSets := if d.speechListenerSets > 0 then d.speechListenerSets - 1 else 0, ran := d.ran + [t])
  }

  /**
    `forEach(cleanup => cleanup())`: the teardowns run in order, each is logged,
    pending start timers are cancelled by id, and only the guide and the
    listener counts change besides.
  */
  function RunAll(d: Doc, ts: seq<Teardown>): (r: Doc)
    ensures r.ran == d.ran + ts
    ensures r.enableTimers == d.enableTimers - CancelIds(ts)
    ensures !d.guide ==> !r.guide
    ensures r == d.(guide := r.guide, guideListeners := r.guideListeners, speechListenerSets := r.speechListenerSets,
                    enableTimers := r.enableTimers, ran := r.ran)
    decreases |ts|
  {
    if ts == [] then d
    else
      assert ts[..|ts| - 1] + [ts[|ts| - 1]] == ts;
      RunOne(RunAll(d, ts[..|ts| - 1]), ts[|ts| - 1])
  }

  function CountGuide(ts: seq<Teardown>): nat
    decreases |ts|
  {
    if ts == [] then 0 else CountGuide(ts[..|ts| - 1]) + (if ts[|ts| - 1].RemoveReadingGuide? then 1 else 0)
  }

  function CountSpeech(ts: seq<Teardown>): nat
    decreases |ts|
  {
    if ts == [] then 0 else CountSpeech(ts[..|ts| - 1]) + (if ts[|ts| - 1].RemoveSpeechListeners? then 1 else 0)
  }

  function CancelIds(ts: seq<Teardown>): set<nat>
    decreases |ts|
  {
    if ts == [] then {}
    else CancelIds(ts[..|ts| - 1]) + (if ts[|ts| - 1].CancelEnableTimer? then {ts[|ts| - 1].id} else {})
  }

  /**
    The registry accounts for everything the overlay installed: one teardown
    per installed listener, a cancel for every pending start timer, and timer
    ids that were handed out before.
  */
  predicate Valid(d: Doc) {
    && d.guideListeners == CountGuide(d.registry)
    && d.speechListenerSets == CountSpeech(d.registry)
    && d.enableTimers <= CancelIds(d.registry)
    && forall id :: id in CancelIds(d.registry) ==> id < d.nextTimer
  }

  /** Removing the custom properties, the filter, the class and the guide element. */
  function Strip(d: Doc): Doc {
    d.(root := Bare, guide := false)
  }

  /** Running every registered teardown, then emptying the registry. */
  function Drain(d: Doc): Doc {
    RunAll(d, d.registry).(registry := [])
  }

  /** `clearAllEffects`: strip the styles, drain the registry and cancel the re-init timer. */
  function Clear(d: Doc): Doc {
    Drain(Strip(d)).(reinitPending := false)
  }

  function FontScaleFor(s: Settings): Option<int>
    requires WellTyped(s)
  {
    if Number(s, FontSize) != 100 then Some(Number(s, FontSize)) else None
  }

  function CursorScaleFor(m: CursorMode): Option<string> {
    match m
    case NormalCursor => None
    case LargeCursor => Some("2")
    case ExtraCursor => Some("3")
  }

  function DurationFor(s: Settings): Option<string>
    requires WellTyped(s)
  {
    if Flag(s, PauseAnimations) then Some("0s") else None
  }

  /** The root style the enabled branch of the apply effect leaves. */
  function StyleFor(s: Settings): RootStyle
    requires WellTyped(s)
  {
    RootStyle(FontScaleFor(s), CursorScaleFor(CursorOf(s)), DurationFor(s), DurationFor(s),
              Compose(VisualOf(s)), Flag(s, FocusMode))
  }

  /** `addReadingGuide`: the guide element (created if absent), one mousemove listener, and its teardown. */
  function WithGuide(d: Doc): Doc {
    d.(guide := true, guideListeners := d.guideListeners + 1, registry := d.registry + [RemoveReadingGuide])
  }

  /** The delayed text-to-speech start: a fresh timer id, pending, with its `clearTimeout` teardown. */
  function WithSpeechTimer(d: Doc): Doc {
    d.(enableTimers := d.enableTimers + {d.nextTimer}, nextTimer := d.nextTimer + 1,
       registry := d.registry + [CancelEnableTimer(d.nextTimer)])
  }

  /**
    What the enabled branch of the apply effect does to a stripped, drained
    document, in the source's order: the style properties, the reading guide,
    the focus-mode class, the delayed text-to-speech start.
  */
  function Project(c: Doc, s: Settings): Doc
    requires WellTyped(s)
  {
    var styled := c.(root := StyleFor(s).(focusMode := false));
    var guided := if Flag(s, ReadingGuide) then WithGuide(styled) else styled;
    var focused := guided.(root := guided.root.(focusMode := Flag(s, FocusMode)));
    if Flag(s, TextToSpeech) then WithSpeechTimer(focused) else focused
  }

  /** The apply effect: always strip and drain; when enabled, install each setting's effect. */
  function ApplySpec(d: Doc, s: Settings): Doc
    requires WellTyped(s)
  {
    var c := Drain(Strip(d));
    if Flag(s, Enabled) then Project(c, s) else c
  }

  /** The delayed text-to-speech start fires: a listener set is installed and its teardown registered. */
  function FireEnable(d: Doc, id: nat): Doc {
    d.(enableTimers := d.enableTimers - {id},
       speechListenerSets := d.speechListenerSets + 1,
       registry := d.registry + [RemoveSpeechListeners])
  }

  /**
    The route-change re-init timer fires: as in the source, another listener
    set is installed and registered without removing the sets already there.
  */
  function FireReinit(d: Doc): Doc {
    d.(reinitPending := false,
       speechListenerSets := d.speechListenerSets + 1,
       registry := d.registry + [RemoveSpeechListeners])
  }

  /** No custom property, no filter, no class, no guide element, nothing registered. */
  predicate Cleared(d: Doc) {
    d.root == Bare && !d.guide && d.registry == []
  }

  /** An empty document: nothing applied, nothing installed. */
  const Empty := Doc(Bare, false, 0, 0, {}, 0, false, [], [])

  // ---------------------------------------------------------------------------
  // What running the registry does

  /** Each teardown removes one listener of its kind, so a registry that accounts for them removes them all. */
  lemma {:induction false} RunAllCounts(d: Doc, ts: seq<Teardown>)
    requires CountGuide(ts) <= d.guideListeners && CountSpeech(ts) <= d.speechListenerSets
    ensures RunAll(d, ts).guideListeners == d.guideListeners - CountGuide(ts)
    ensures RunAll(d, ts).speechListenerSets == d.speechListenerSets - CountSpeech(ts)
    decreases |ts|
  {
    if ts != [] {
      RunAllCounts(d, ts[..|ts| - 1]);
    }
  }

  /** Draining a valid document removes every listener and every pending start timer the registry accounts for. */
  lemma DrainValid(d: Doc)
    requires Valid(d)
    ensures var r := Drain(d);
      && r.guideListeners == 0 && r.speechListenerSets == 0 && r.enableTimers == {}
      && r.registry == [] && r.ran == d.ran + d.registry
      && r == d.(guide := r.guide, guideListeners := 0, speechListenerSets := 0, enableTimers := {},
                 registry := [], ran := r.ran)
  {
    RunAllCounts(d, d.registry);
  }

  lemma StripValid(d: Doc)
    requires Valid(d)
    ensures Valid(Strip(d)) && Strip(d).registry == d.registry
  {
  }

  // ---------------------------------------------------------------------------
  // Properties of the two effect routines

  /** `clearAllEffects` leaves the cleared state and runs the whole registry once, in order. */
  lemma ClearClears(d: Doc)
    requires Valid(d)
    ensures Cleared(Clear(d)) && Valid(Clear(d))
    ensures Clear(d).ran == d.ran + d.registry && !Clear(d).reinitPending
    ensures Clear(d).guideListeners == 0 && Clear(d).speechListenerSets == 0 && Clear(d).enableTimers == {}
  {
    StripValid(d);
    DrainValid(Strip(d));
  }

  /** Clearing twice is clearing once: the second clear finds nothing to run. */
  lemma ClearIdempotent(d: Doc)
    requires Valid(d)
    ensures Clear(Clear(d)) == Clear(d)
  {
    ClearClears(d);
  }

  /** Clearing a document with nothing registered runs nothing and only strips the styles. */
  lemma ClearEmptyRegistry(d: Doc)
    requires d.registry == []
    ensures Clear(d) == Strip(d).(reinitPending := false)
  {
  }

  lemma ClearEmpty()
    ensures Clear(Empty) == Empty
  {
  }

  /** With the overlay disabled the apply effect leaves the cleared state and installs nothing. */
  lemma ApplyDisabled(d: Doc, s: Settings)
    requires Valid(d) && WellTyped(s) && !Flag(s, Enabled)
    ensures Cleared(ApplySpec(d, s)) && Valid(ApplySpec(d, s))
    ensures ApplySpec(d, s) == Clear(d).(reinitPending := d.reinitPending)
    ensures ApplySpec(d, s).speechListenerSets == 0 && ApplySpec(d, s).guideListeners == 0
  {
    ClearClears(d);
  }

  /** The enabled branch leaves exactly the root style the settings call for. */
  lemma ApplyStyle(d: Doc, s: Settings)
    requires WellTyped(s) && Flag(s, Enabled)
    ensures ApplySpec(d, s).root == StyleFor(s)
    ensures ApplySpec(d, s).guide == Flag(s, ReadingGuide)
  {
  }

  /**
    The property mapping of the enabled branch: the font scale only for a size
    other than 100, the filter from the visual settings (which it determines),
    the cursor scale "2" or "3" and none for the normal cursor, both durations
    "0s" when animations are paused, and the focus-mode class.
  */
  lemma StyleProperties(s: Settings)
    requires WellTyped(s)
    ensures var r := StyleFor(s);
      && (r.fontScale.Some? <==> Number(s, FontSize) != 100)
      && (r.fontScale.Some? ==> r.fontScale.value == Number(s, FontSize))
      && Decode(r.filter) == VisualOf(s)
      && (r.filter == "" <==> VisualOf(s) == Neutral)
      && (r.cursorScale == None <==> CursorOf(s) == NormalCursor)
      && (CursorOf(s) == LargeCursor ==> r.cursorScale == Some("2"))
      && (CursorOf(s) == ExtraCursor ==> r.cursorScale == Some("3"))
      && (Flag(s, PauseAnimations) ==> r.animationDuration == Some("0s") && r.transitionDuration == Some("0s"))
      && (!Flag(s, PauseAnimations) ==> r.animationDuration.None? && r.transitionDuration.None?)
      && r.focusMode == Flag(s, FocusMode)
  {
    DecodeCompose(VisualOf(s));
  }

  lemma WithGuideValid(d: Doc)
    requires Valid(d)
    ensures Valid(WithGuide(d))
  {
    var r := WithGuide(d);
    assert r.registry[..|r.registry| - 1] == d.registry;
  }

  lemma WithSpeechTimerValid(d: Doc)
    requires Valid(d)
    ensures Valid(WithSpeechTimer(d))
  {
    var r := WithSpeechTimer(d);
    assert r.registry[..|r.registry| - 1] == d.registry;
  }

  /** The apply effect keeps the registry accounting for everything it installed. */
  lemma ApplyValid(d: Doc, s: Settings)
    requires Valid(d) && WellTyped(s)
    ensures Valid(ApplySpec(d, s))
  {
    StripValid(d);
    DrainValid(Strip(d));
    var c := Drain(Strip(d));
    if Flag(s, Enabled) {
      var styled := c.(root := StyleFor(s).(focusMode := false));
      var guided := if Flag(s, ReadingGuide) then WithGuide(styled) else styled;
      if Flag(s, ReadingGuide) { WithGuideValid(styled); }
      var focused := guided.(root := guided.root.(focusMode := Flag(s, FocusMode)));
      if Flag(s, TextToSpeech) { WithSpeechTimerValid(focused); }
    }
  }

  /**
    The apply effect on a valid document first runs every registered teardown
    in order, then registers exactly one reading-guide teardown if the guide is
    on and one timer cancel if text-to-speech is on; no speech listener set is
    left installed.
  */
  lemma ApplyRegistry(d: Doc, s: Settings)
    requires Valid(d) && WellTyped(s)
    ensures var r := ApplySpec(d, s);
      var on := Flag(s, Enabled);
      && r.ran == d.ran + d.registry
      && r.registry == Installed(s, d.nextTimer)
      && r.guideListeners == (if on && Flag(s, ReadingGuide) then 1 else 0)
      && r.speechListenerSets == 0
      && r.enableTimers == (if on && Flag(s, TextToSpeech) then {d.nextTimer} else {})
      && r.nextTimer == (if on && Flag(s, TextToSpeech) then d.nextTimer + 1 else d.nextTimer)
      && r.reinitPending == d.reinitPending
  {
    StripValid(d);
    DrainValid(Strip(d));
  }

  /** The teardowns one apply registers, given the next timer id. */
  function Installed(s: Settings, timer: nat): seq<Teardown>
    requires WellTyped(s)
  {
    var on := Flag(s, Enabled);
    (if on && Flag(s, ReadingGuide) then [RemoveReadingGuide] else [])
    + (if on && Flag(s, TextToSpeech) then [CancelEnableTimer(timer)] else [])
  }

  lemma InstalledErase(s: Settings, t1: nat, t2: nat)
    requires WellTyped(s)
    ensures |Installed(s, t1)| == |Installed(s, t2)|
    ensures forall i :: 0 <= i < |Installed(s, t1)| ==> Erase(Installed(s, t1)[i]) == Erase(Installed(s, t2)[i])
  {
  }

  /** Timer ids aside, the teardowns match. */
  function Erase(t: Teardown): Teardown {
    if t.CancelEnableTimer? then CancelEnableTimer(0) else t
  }

  /** Two documents a user cannot tell apart: they differ at most in timer ids and in the log. */
  predicate SameObserved(a: Doc, b: Doc) {
    && a.root == b.root && a.guide == b.guide
    && a.guideListeners == b.guideListeners && a.speechListenerSets == b.speechListenerSets
    && |a.enableTimers| == |b.enableTimers| && a.reinitPending == b.reinitPending
    && |a.registry| == |b.registry|
    && forall i :: 0 <= i < |a.registry| ==> Erase(a.registry[i]) == Erase(b.registry[i])
  }

  /** Applying the same settings twice gives what applying once gives, up to the id of the start timer. */
  lemma ApplyTwice(d: Doc, s: Settings)
    requires Valid(d) && WellTyped(s)
    ensures SameObserved(ApplySpec(ApplySpec(d, s), s), ApplySpec(d, s))
  {
    ApplyValid(d, s);
    RegistryTwice(d, s);
    if Flag(s, Enabled) {
      ApplyStyle(d, s);
      ApplyStyle(ApplySpec(d, s), s);
    } else {
      ApplyDisabled(d, s);
      ApplyDisabled(ApplySpec(d, s), s);
    }
  }

  /** The registry and the counts after a second apply match those after the first, timer ids aside. */
  lemma RegistryTwice(d: Doc, s: Settings)
    requires WellTyped(s) && Valid(d) && Valid(ApplySpec(d, s))
    ensures var r1 := ApplySpec(d, s);
      var r2 := ApplySpec(r1, s);
      && r2.guideListeners == r1.guideListeners && r2.speechListenerSets == r1.speechListenerSets
      && |r2.enableTimers| == |r1.enableTimers| && r2.reinitPending == r1.reinitPending
      && |r2.registry| == |r1.registry|
      && forall i :: 0 <= i < |r1.registry| ==> Erase(r2.registry[i]) == Erase(r1.registry[i])
  {
    ApplyRegistry(d, s);
    ApplyRegistry(ApplySpec(d, s), s);
    InstalledErase(s, ApplySpec(d, s).nextTimer, d.nextTimer);
  }

  /**
    Nothing in the source prevents two text-to-speech listener sets from being
    installed at once: the delayed start fires, then a route change re-inits
    before any apply runs.
  */
  lemma TwoListenerSets(d: Doc, s: Settings)
    requires Valid(d) && WellTyped(s) && Flag(s, Enabled) && Flag(s, TextToSpeech)
    ensures var r := ApplySpec(d, s);
      var twice := FireReinit(FireEnable(r, d.nextTimer).(reinitPending := true));
      twice.speechListenerSets == 2 && Valid(twice)
  {
    ApplyRegistry(d, s);
    ApplyValid(d, s);
    var r := ApplySpec(d, s);
    FireEnableValid(r, d.nextTimer);
    FireReinitValid(FireEnable(r, d.nextTimer).(reinitPending := true));
  }

  /** Both timers keep the registry accounting for everything. */
  lemma FireEnableValid(d: Doc, id: nat)
    requires Valid(d)
    ensures Valid(FireEnable(d, id))
  {
    var r := FireEnable(d, id);
    assert r.registry[..|r.registry| - 1] == d.registry;
  }

  lemma FireReinitValid(d: Doc)
    requires Valid(d)
    ensures Valid(FireReinit(d))
  {
    var r := FireReinit(d);
    assert r.registry[..|r.registry| - 1] == d.registry;
  }

  // ---------------------------------------------------------------------------
  // The document, updated in place

  class Surface {
    var root: RootStyle
    var guide: bool
    var guideListeners: nat
    var speechListenerSets: nat
    var enableTimers: set<nat>
    var nextTimer: nat
    var reinitPending: bool
    var registry: seq<Teardown>
    var ran: seq<Teardown>

    function State(): Doc
      reads this
    {
      Doc(root, guide, guideListeners, speechListenerSets, enableTimers, nextTimer, reinitPending, registry, ran)
    }

    constructor ()
      ensures State() == Empty
    {
      root, guide := Bare, false;
      guideListeners, speechListenerSets := 0, 0;
      enableTimers, nextTimer, reinitPending := {}, 0, false;
      registry, ran := [], [];
    }

    /** The style half of both effect routines: the four properties, the filter, the class and the guide element go. */
    method StripStyles()
      modifies this`root, this`guide
      ensures State() == Strip(old(State()))
    {
      root := root.(fontScale := None, cursorScale := None, animationDuration := None, transitionDuration := None,
                    filter := "", focusMode := false);
      guide := false;
    }

    method RunTeardown(t: Teardown)
      modifies this`guide, this`guideListeners, this`enableTimers, this`speechListenerSets, this`ran
      ensures State() == RunOne(old(State()), t)
    {
      ran := ran + [t];
      match t
      case RemoveReadingGuide =>
        if guideListeners > 0 { guideListeners := guideListeners - 1; }
        guide := false;
      case CancelEnableTimer(id) =>
        enableTimers := enableTimers - {id};
      case RemoveSpeechListeners =>
        if speechListenerSets > 0 { speechListenerSets := speechListenerSets - 1; }
    }

    /** `cleanupFunctionsRef.current.forEach(cleanup => cleanup()); cleanupFunctionsRef.current = []`. */
    method DrainRegistry()
      modifies this
      ensures State() == Drain(old(State()))
    {
      var ts := registry;
      ghost var start := State();
      for i := 0 to |ts|
        invariant registry == ts
        invariant State() == RunAll(start, ts[..i])
      {
        assert ts[..i + 1][..i] == ts[..i];
        RunTeardown(ts[i]);
      }
      assert ts[..|ts|] == ts;
      registry := [];
    }

    /** `clearAllEffects`. */
    method ClearAll()
      modifies this
      ensures State() == Clear(old(State()))
    {
      StripStyles();
      DrainRegistry();
      reinitPending := false;
    }

    /** The apply effect, run whenever the settings change. */
    method Apply(s: Settings)
      requires WellTyped(s)
      modifies this
      ensures State() == ApplySpec(old(State()), s)
    {
      StripStyles();
      DrainRegistry();
      if !Flag(s, Enabled) {
        return;
      }
      assert root == Bare;
      SetStyleProperties(s);
      if Flag(s, ReadingGuide) {
        AddReadingGuide();
      }
      if Flag(s, FocusMode) {
        root := root.(focusMode := true);
      }
      if Flag(s, TextToSpeech) {
        StartSpeechTimer();
      }
    }

    /** Font scale, filter, cursor scale and the two durations, each set only when it differs from neutral. */
    method SetStyleProperties(s: Settings)
      requires WellTyped(s) && root == Bare
      modifies this`root
      ensures State() == old(State()).(root := StyleFor(s).(focusMode := false))
    {
      var style := root;
      if Number(s, FontSize) != 100 {
        style := style.(fontScale := Some(Number(s, FontSize)));
      }
      assert style == Bare.(fontScale := FontScaleFor(s));
      var terms := Terms(VisualOf(s));
      if |terms| > 0 {
        style := style.(filter := Join(terms, " "));
      }
      assert style == Bare.(fontScale := FontScaleFor(s), filter := Compose(VisualOf(s)));
      if CursorOf(s) != NormalCursor {
        style := style.(cursorScale := Some(if CursorOf(s) == LargeCursor then "2" else "3"));
      }
      assert style.cursorScale == CursorScaleFor(CursorOf(s));
      if Flag(s, PauseAnimations) {
        style := style.(animationDuration := Some("0s"), transitionDuration := Some("0s"));
      }
      root := style;
    }

    /** `addReadingGuide`: the guide element (created if absent), one mousemove listener, and its teardown. */
    method AddReadingGuide()
      modifies this`guide, this`guideListeners, this`registry
      ensures State() == WithGuide(old(State()))
    {
      guide := true;
      guideListeners := guideListeners + 1;
      registry := registry + [RemoveReadingGuide];
    }

    /** `setTimeout(…, 500)` for the text-to-speech start, and the `clearTimeout` teardown for it. */
    method StartSpeechTimer()
      modifies this`nextTimer, this`enableTimers, this`registry
      ensures State() == WithSpeechTimer(old(State()))
    {
      var id := nextTimer;
      nextTimer := nextTimer + 1;
      enableTimers := enableTimers + {id};
      registry := registry + [CancelEnableTimer(id)];
    }

    /** The 500 ms start timer `id` fires. */
    method FireEnableTimer(id: nat)
      requires id in enableTimers
      modifies this`enableTimers, this`speechListenerSets, this`registry
      ensures State() == FireEnable(old(State()), id)
    {
      enableTimers := enableTimers - {id};
      speechListenerSets := speechListenerSets + 1;
      registry := registry + [RemoveSpeechListeners];
    }

    /** A route change or a significant mutation: the re-init timer is (re)started. */
    method ScheduleReinit()
      modifies this`reinitPending
      ensures State() == old(State()).(reinitPending := true)
    {
      reinitPending := true;
    }

    /** The route-change effect's cleanup clears the re-init timer. */
    method CancelReinit()
      modifies this`reinitPending
      ensures State() == old(State()).(reinitPending := false)
    {
      reinitPending := false;
    }

    /** The 1000 ms re-init timer fires. */
    method FireReinitTimer()
      requires reinitPending
      modifies this`reinitPending, this`speechListenerSets, this`registry
      ensures State() == FireReinit(old(State()))
    {
      reinitPending := false;
      speechListenerSets := speechListenerSets + 1;
      registry := registry + [RemoveSpeechListeners];
    }
  }
}
