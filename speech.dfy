/**
  The hover / focus text-to-speech controller: the variables the listener
  closures share (the pending hover timer, the last spoken target) and the
  speech engine's state and utterance log, driven by the events the document
  delivers. The settings are those the closures were created with, which in
  the component are always the first render's (`Overlay.Component.OnEnableTimer`).
*/
module SpeechControl {
  import opened Wrappers
  import opened AccessibilitySettings
  import opened SpeechText
  import opened VoiceChoice

  /** The engine's state as `speechSynthesis.speaking` / `.paused` report it. */
  datatype Speech = Idle | Speaking | Paused

  /** A scheduled hover timer: which element it will speak for, and what it will say. */
  datatype Pending = Pending(target: nat, text: string)

  /** An utterance handed to the engine; the tuning values are stored, not interpreted. */
  datatype Utterance = Utterance(text: string, voice: Option<Voice>, rate: real, pitch: real, volume: real)

  /** An event target: its identity, the element, and whether it lies inside the overlay panel. */
  datatype Target = Target(id: nat, element: Element, inOverlay: bool)

  /** The controller's state as a value. */
  datatype Tts = Tts(pending: Option<Pending>, last: Option<nat>, speech: Speech, log: seq<Utterance>, listening: bool)

  /** The state right after the listeners are attached. */
  const Start := Tts(None, None, Idle, [], true)

  /**
    What `queueSpeakFromEvent` schedules for a target, if anything: nothing
    when both hover and focus reading are off, for a target in the overlay, for
    BODY and HTML, and for a target with nothing to read.
  */
  function Queued(s: Settings, t: Target): (r: Option<Pending>)
    requires WellTyped(s)
    ensures r.Some? ==> r.value.target == t.id && r.value.text == TextOf(t.element) && r.value.text != ""
    ensures r.Some? ==> Flag(s, TtsOnHover) || Flag(s, TtsOnFocus)
    ensures t.inOverlay || t.element.tag == "BODY" || t.element.tag == "HTML" ==> r == None
    ensures (r == None && (Flag(s, TtsOnHover) || Flag(s, TtsOnFocus)) && !t.inOverlay
      && t.element.tag != "BODY" && t.element.tag != "HTML") ==> TextOf(t.element) == ""
  {
    if !Flag(s, TtsOnHover) && !Flag(s, TtsOnFocus) then None
    else if t.inOverlay then None
    else if t.element.tag == "BODY" || t.element.tag == "HTML" then None
    else if TextOf(t.element) == "" then None
    else Some(Pending(t.id, TextOf(t.element)))
  }

  /** The state after `queueSpeakFromEvent(t)`: a scheduled timer replaces the previous one. */
  function QueueOn(s: Settings, st: Tts, t: Target): Tts
    requires WellTyped(s)
  {
    match Queued(s, t)
    case None => st
    case Some(p) => st.(pending := Some(p))
  }

  function MouseOverStep(s: Settings, st: Tts, t: Target): Tts
    requires WellTyped(s)
  {
    if !st.listening || !Flag(s, TtsOnHover) then st else QueueOn(s, st, t)
  }

  function FocusInStep(s: Settings, st: Tts, t: Target): Tts
    requires WellTyped(s)
  {
    if !st.listening || !Flag(s, TtsOnFocus) then st else QueueOn(s, st, t)
  }

  function MouseOutStep(st: Tts): Tts {
    if !st.listening then st else st.(pending := None)
  }

  /** The utterance `speakWithSettings` builds for a text, with the voice chosen from the list offered. */
  function Utter(s: Settings, text: string, vs: seq<Voice>): Utterance
    requires WellTyped(s)
  {
    Utterance(text, SelectVoice(vs, VoiceOf(s)), s[TtsRate].x, s[TtsPitch].x, s[TtsVolume].x)
  }

  /** `speakWithSettings`: nothing with sound off; otherwise the engine is cancelled and speaks the new utterance. */
  function SpeakStep(s: Settings, st: Tts, text: string, vs: seq<Voice>): Tts
    requires WellTyped(s)
  {
    if !Flag(s, SoundEnabled) then st
    else st.(speech := Speaking, log := st.log + [Utter(s, text, vs)])
  }

  /** The pending timer fires: its target is spoken unless it is the target spoken last. */
  function FireStep(s: Settings, st: Tts, vs: seq<Voice>): Tts
    requires WellTyped(s) && st.pending.Some?
  {
    var p := st.pending.value;
    var fired := st.(pending := None);
    if st.last == Some(p.target) then fired
    else SpeakStep(s, fired.(last := Some(p.target)), p.text, vs)
  }

  /** Space pauses or resumes what is being spoken; Escape cancels it. */
  function KeyDownStep(st: Tts, key: string): Tts {
    if !st.listening then st
    else if key == " " then
      match st.speech
      case Idle => st
      case Speaking => st.(speech := Paused)
      case Paused => st.(speech := Speaking)
    else if key == "Escape" then st.(speech := Idle)
    else st
  }

  /** The engine reaches the end of the utterance. */
  function SpeechEndStep(st: Tts): Tts {
    if st.speech == Speaking then st.(speech := Idle) else st
  }

  /** The teardown: listeners removed, the timer cleared, speech cancelled, the last target forgotten. */
  function TeardownStep(st: Tts): Tts {
    st.(pending := None, last := None, speech := Idle, listening := false)
  }

  /**
    What holds throughout: a pending timer always has something to say and
    exists only while listening; everything spoken was non-empty; with sound
    off nothing is ever spoken; after the teardown nothing is pending or
    speaking.
  */
  predicate Inv(s: Settings, st: Tts)
    requires WellTyped(s)
  {
    && (st.pending.Some? ==> st.listening && st.pending.value.text != "")
    && (forall i :: 0 <= i < |st.log| ==> st.log[i].text != "")
    && (!Flag(s, SoundEnabled) ==> st.log == [] && st.speech == Idle)
    && (!st.listening ==> st.pending == None && st.speech == Idle)
  }

  lemma StartInv(s: Settings)
    requires WellTyped(s)
    ensures Inv(s, Start)
  {
  }

  lemma QueueInv(s: Settings, st: Tts, t: Target)
    requires WellTyped(s) && Inv(s, st)
    ensures Inv(s, MouseOverStep(s, st, t)) && Inv(s, FocusInStep(s, st, t))
  {
  }

  lemma FireInv(s: Settings, st: Tts, vs: seq<Voice>)
    requires WellTyped(s) && Inv(s, st) && st.pending.Some?
    ensures Inv(s, FireStep(s, st, vs))
  {
  }

  lemma OtherStepsInv(s: Settings, st: Tts, key: string)
    requires WellTyped(s) && Inv(s, st)
    ensures Inv(s, MouseOutStep(st)) && Inv(s, KeyDownStep(st, key))
    ensures Inv(s, SpeechEndStep(st)) && Inv(s, TeardownStep(st))
  {
  }

  /** Queuing a target that schedules something overwrites whatever was pending: a later target wins. */
  lemma LatestTargetWins(s: Settings, st: Tts, a: Target, b: Target)
    requires WellTyped(s) && Queued(s, b).Some?
    ensures QueueOn(s, QueueOn(s, st, a), b) == QueueOn(s, st, b)
    ensures QueueOn(s, st, b).pending == Some(Pending(b.id, TextOf(b.element)))
  {
  }

  /** So when the timer fires after two hovers, only the second target's text can be spoken. */
  lemma OnlyLatestSpoken(s: Settings, st: Tts, a: Target, b: Target, vs: seq<Voice>)
    requires WellTyped(s) && st.listening && Flag(s, TtsOnHover)
    requires Queued(s, a).Some? && Queued(s, b).Some?
    ensures var r := FireStep(s, MouseOverStep(s, MouseOverStep(s, st, a), b), vs);
      r.log == st.log || r.log == st.log + [Utter(s, TextOf(b.element), vs)]
  {
    LatestTargetWins(s, st, a, b);
  }

  /** Leaving the element before the delay cancels the timer, so nothing is spoken for it. */
  lemma MouseOutCancels(s: Settings, st: Tts, t: Target)
    requires WellTyped(s) && st.listening
    ensures MouseOutStep(MouseOverStep(s, st, t)).pending == None
    ensures MouseOutStep(MouseOverStep(s, st, t)).log == st.log
  {
  }

  /** A timer for the target spoken last says nothing again. */
  lemma NoRespeak(s: Settings, st: Tts, vs: seq<Voice>)
    requires WellTyped(s) && st.pending.Some? && st.last == Some(st.pending.value.target)
    ensures FireStep(s, st, vs).log == st.log && FireStep(s, st, vs).speech == st.speech
  {
  }

  /** A timer for a new target with sound on speaks exactly its text, with the selected voice. */
  lemma FireSpeaks(s: Settings, st: Tts, vs: seq<Voice>)
    requires WellTyped(s) && Flag(s, SoundEnabled) && st.pending.Some? && st.last != Some(st.pending.value.target)
    ensures FireStep(s, st, vs).log == st.log + [Utter(s, st.pending.value.text, vs)]
    ensures FireStep(s, st, vs).speech == Speaking && FireStep(s, st, vs).last == Some(st.pending.value.target)
  {
  }

  /** Events on the overlay itself, on BODY or on HTML change nothing. */
  lemma IgnoredTargets(s: Settings, st: Tts, t: Target)
    requires WellTyped(s) && (t.inOverlay || t.element.tag == "BODY" || t.element.tag == "HTML")
    ensures MouseOverStep(s, st, t) == st && FocusInStep(s, st, t) == st
  {
  }

  /** Space twice gives back the engine state; from idle it does nothing. */
  lemma SpaceTwice(st: Tts)
    ensures KeyDownStep(KeyDownStep(st, " "), " ") == st
    ensures st.speech == Idle ==> KeyDownStep(st, " ") == st
  {
  }

  /**
    `speakText`, which the panel's own controls call on hover: it reads the
    current settings rather than the snapshot, and speaks only with the
    overlay, text-to-speech and sound all on.
  */
  function SpeakText(s: Settings, st: Tts, text: string, vs: seq<Voice>): Tts
    requires WellTyped(s)
  {
    if !Flag(s, Enabled) || !Flag(s, TextToSpeech) || !Flag(s, SoundEnabled) then st
    else st.(speech := Speaking, log := st.log + [Utter(s, text, vs)])
  }

  /** `speakText` speaks exactly when all three switches are on, and then says what the hover path would say for the same text. */
  lemma SpeakTextGuard(s: Settings, st: Tts, text: string, vs: seq<Voice>)
    requires WellTyped(s)
    ensures SpeakText(s, st, text, vs).log != st.log <==> Flag(s, Enabled) && Flag(s, TextToSpeech) && Flag(s, SoundEnabled)
    ensures Flag(s, Enabled) && Flag(s, TextToSpeech) ==> SpeakText(s, st, text, vs) == SpeakStep(s, st, text, vs)
    ensures !Flag(s, Enabled) || !Flag(s, TextToSpeech) ==> SpeakText(s, st, text, vs) == st
  {
    if Flag(s, Enabled) && Flag(s, TextToSpeech) && Flag(s, SoundEnabled) {
      assert |SpeakText(s, st, text, vs).log| == |st.log| + 1;
    }
  }

  /** The listener closures and their shared variables. */
  class SpeechController {
    const settings: Settings
    var pending: Option<Pending>
    var last: Option<nat>
    var speech: Speech
    var log: seq<Utterance>
    var listening: bool

    function State(): Tts
      reads this
    {
      Tts(pending, last, speech, log, listening)
    }

    /** `enableTextToSpeech()`: the listeners are attached, nothing is pending or spoken. */
    constructor(s: Settings)
      requires WellTyped(s)
      ensures settings == s && State() == Start
    {
      settings := s;
      pending, last, speech, log, listening := None, None, Idle, [], true;
    }

    /** `queueSpeakFromEvent`: the early returns, then the text, then the timer replacing any earlier one. */
    method QueueSpeakFromEvent(t: Target)
      requires WellTyped(settings)
      modifies this`pending
      ensures State() == QueueOn(settings, old(State()), t)
    {
      if !Flag(settings, TtsOnHover) && !Flag(settings, TtsOnFocus) {
        return;
      }
      if t.inOverlay {
        return;
      }
      if t.element.tag == "BODY" || t.element.tag == "HTML" {
        return;
      }
      var text := GetTextFromElement(t.element);
      if text == "" {
        return;
      }
      pending := Some(Pending(t.id, text));
    }

    method OnMouseOver(t: Target)
      requires WellTyped(settings)
      modifies this`pending
      ensures State() == MouseOverStep(settings, old(State()), t)
    {
      if !listening || !Flag(settings, TtsOnHover) {
        return;
      }
      QueueSpeakFromEvent(t);
    }

    method OnFocusIn(t: Target)
      requires WellTyped(settings)
      modifies this`pending
      ensures State() == FocusInStep(settings, old(State()), t)
    {
      if !listening || !Flag(settings, TtsOnFocus) {
        return;
      }
      QueueSpeakFromEvent(t);
    }

    method OnMouseOut()
      modifies this`pending
      ensures State() == MouseOutStep(old(State()))
    {
      if listening {
        pending := None;
      }
    }

    /** The hover timer fires, with the voices the engine offers at that moment. */
    method OnTimer(voices: seq<Voice>)
      requires WellTyped(settings) && pending.Some?
      modifies this
      ensures State() == FireStep(settings, old(State()), voices)
    {
      var p := pending.value;
      pending := None;
      if last != Some(p.target) {
        last := Some(p.target);
        SpeakWithSettings(p.text, voices);
      }
    }

    method SpeakWithSettings(text: string, voices: seq<Voice>)
      requires WellTyped(settings)
      modifies this`speech, this`log
      ensures State() == SpeakStep(settings, old(State()), text, voices)
    {
      if !Flag(settings, SoundEnabled) {
        return;
      }
      var u := Utterance(text, SelectVoice(voices, VoiceOf(settings)), settings[TtsRate].x, settings[TtsPitch].x, settings[TtsVolume].x);
      speech := Speaking;
      log := log + [u];
    }

    method OnKeyDown(key: string)
      modifies this`speech
      ensures State() == KeyDownStep(old(State()), key)
    {
      if !listening {
        return;
      }
      if key == " " {
        if speech == Speaking {
          speech := Paused;
        } else if speech == Paused {
          speech := Speaking;
        }
      } else if key == "Escape" {
        speech := Idle;
      }
    }

    method OnSpeechEnd()
      modifies this`speech
      ensures State() == SpeechEndStep(old(State()))
    {
      if speech == Speaking {
        speech := Idle;
      }
    }

    /** The cleanup function `enableTextToSpeech` returns. */
    method Teardown()
      modifies this
      ensures State() == TeardownStep(old(State()))
    {
      pending, last, speech, listening := None, None, Idle, false;
    }
  }
}
