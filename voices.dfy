/**
  The choice of a speech voice from the list the browser offers: the voice
  named in the settings, else the first Indonesian one, else the first English
  one, else the first voice at all; and the default the overlay stores when the
  voice list arrives and the settings name none.
*/
module VoiceChoice {
  import opened Wrappers
  import opened Text
  import opened AccessibilitySettings

  /** A `SpeechSynthesisVoice`, reduced to the two fields the overlay reads. */
  datatype Voice = Voice(name: string, lang: string)

  /** The position of the first voice satisfying `p` (`Array.prototype.find`). */
  function FindFirst(vs: seq<Voice>, p: Voice -> bool): (r: Option<nat>)
    ensures r.Some? ==> r.value < |vs| && p(vs[r.value]) && forall j :: 0 <= j < r.value ==> !p(vs[j])
    ensures r.None? <==> forall j :: 0 <= j < |vs| ==> !p(vs[j])
  {
    if vs == [] then None
    else if p(vs[0]) then Some(0)
    else match FindFirst(vs[1..], p)
      case None => None
      case Some(k) => Some(k + 1)
  }

  /** `v.lang && v.lang.toLowerCase().startsWith(prefix)`, for a lower-case ASCII prefix. */
  predicate LangStarts(v: Voice, prefix: string) {
    v.lang != "" && |prefix| <= |v.lang| && forall i :: 0 <= i < |prefix| ==> LowerAscii(v.lang[i]) == prefix[i]
  }

  function WithName(name: string): Voice -> bool {
    (v: Voice) => v.name == name
  }

  function WithLang(prefix: string): Voice -> bool {
    (v: Voice) => LangStarts(v, prefix)
  }

  /** `vs[k]` is the first voice of `vs` whose language starts with `prefix`. */
  predicate FirstWithLang(vs: seq<Voice>, k: nat, prefix: string) {
    k < |vs| && LangStarts(vs[k], prefix) && forall j :: 0 <= j < k ==> !LangStarts(vs[j], prefix)
  }

  /** The language fallback shared by both chains: the first Indonesian voice, the first English one, then the first voice. */
  function Preferred(vs: seq<Voice>): (r: Option<Voice>)
    ensures r.None? <==> vs == []
    ensures r.Some? ==> r.value in vs
    ensures (exists j :: 0 <= j < |vs| && LangStarts(vs[j], "id"))
      ==> exists k: nat :: FirstWithLang(vs, k, "id") && r == Some(vs[k])
    ensures (forall j :: 0 <= j < |vs| ==> !LangStarts(vs[j], "id")) && (exists j :: 0 <= j < |vs| && LangStarts(vs[j], "en"))
      ==> exists k: nat :: FirstWithLang(vs, k, "en") && r == Some(vs[k])
    ensures (forall j :: 0 <= j < |vs| ==> !LangStarts(vs[j], "id") && !LangStarts(vs[j], "en")) && vs != []
      ==> r == Some(vs[0])
  {
    match FindFirst(vs, WithLang("id"))
    case Some(k) => assert FirstWithLang(vs, k, "id"); Some(vs[k])
    case None =>
      match FindFirst(vs, WithLang("en"))
      case Some(k) => assert FirstWithLang(vs, k, "en"); Some(vs[k])
      case None => if vs == [] then None else Some(vs[0])
  }

  /**
    The voice an utterance gets: with a voice name in the settings, the first
    voice of that name if there is one; otherwise the language fallback. No
    voice at all only when the list is empty.
  */
  function SelectVoice(vs: seq<Voice>, wanted: string): (r: Option<Voice>)
    ensures r.None? <==> vs == []
    ensures r.Some? ==> r.value in vs
    ensures wanted != "" && (exists j :: 0 <= j < |vs| && vs[j].name == wanted)
      ==> exists k :: 0 <= k < |vs| && r == Some(vs[k]) && vs[k].name == wanted
            && forall j :: 0 <= j < k ==> vs[j].name != wanted
    ensures (wanted == "" || forall j :: 0 <= j < |vs| ==> vs[j].name != wanted) ==> r == Preferred(vs)
  {
    var byName := if wanted != "" then FindFirst(vs, WithName(wanted)) else None;
    match byName
    case Some(k) => Some(vs[k])
    case None => Preferred(vs)
  }

  /**
    The settings after the voice list arrives: when the list is non-empty and no
    voice is named, the preferred voice's name is stored; otherwise the
    settings stay as they are.
  */
  function OnVoicesLoaded(s: Settings, vs: seq<Voice>): (r: Settings)
    requires WellTyped(s)
    ensures WellTyped(r)
    ensures forall k :: k != TtsVoice ==> r[k] == s[k]
    ensures VoiceOf(s) != "" || vs == [] ==> r == s
    ensures VoiceOf(s) == "" && vs != [] ==> exists j :: 0 <= j < |vs| && VoiceOf(r) == vs[j].name
    ensures VoiceOf(s) == "" && vs != [] ==> VoiceOf(r) == Preferred(vs).value.name
  {
    if vs != [] && VoiceOf(s) == "" then Update(s, TtsVoice, StringValue(Preferred(vs).value.name)) else s
  }

  /**
    Once a default is stored, speaking selects a voice of that very name: the
    stored name and the voice used agree, unless the preferred voice has an
    empty name, which both chains then treat alike.
  */
  lemma StoredDefaultIsUsed(s: Settings, vs: seq<Voice>)
    requires WellTyped(s) && VoiceOf(s) == "" && vs != []
    ensures SelectVoice(vs, VoiceOf(OnVoicesLoaded(s, vs))).value.name == Preferred(vs).value.name
  {
    var v := Preferred(vs).value;
    if v.name != "" {
      var j :| 0 <= j < |vs| && vs[j] == v;
      assert vs[j].name == v.name;
    }
  }
}
