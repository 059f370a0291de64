# Accessibility overlay and landing page: a Dafny model

This project models the core of a Next.js job portal front end in Dafny and proves properties of that model. It covers two parts.

**The accessibility overlay** (`src/components/fitur/AccessibilityOverlay.tsx`) is a floating panel. A user switches on visual, motor, cognitive and audio aids with it. The model covers:

- the settings record: defaults, the merge with the copy in local storage, the save, toggling a field, setting a field, and reset;
- the effect that clears the document and applies the settings to it: custom properties on the root element, the CSS filter string, the focus-mode class, the reading guide, the cleanup registry and the delayed text-to-speech start;
- the re-initialisation of text-to-speech on route changes, and the mutation test that triggers it;
- the text read aloud for an element;
- the choice of a speech voice;
- the hover/focus speech controller, with its pending timer and its last spoken target.

**The landing page** (`src/app/page.tsx`). The model covers:

- the transformation of company profiles from the API;
- the company logo URL;
- the status label and badge;
- the message shown for a failed fetch;
- the testimonial carousel index;
- the pagination guards;
- the projection of a vacancy onto a job card.

Modules, one per file:

| file | module | flavour |
|---|---|---|
| `wrappers.dfy` | `Wrappers` | `Option` |
| `text.dfy` | `Text` | the string functions the source uses, as functions: `trim`, `substring`, `startsWith`, `split`, `join`, number formatting |
| `settings.dfy` | `AccessibilitySettings` | the settings record as a map from property names to values; load, save, toggle, update |
| `filter.dfy` | `VisualFilter` | the filter string and a decoder for it |
| `surface.dfy` | `DocumentSurface` | the document the effects mutate, as the class `Surface`, specified by functions on a `Doc` value |
| `extraction.dfy` | `SpeechText` | `getTextFromElement`: a method with the source's two loops, specified by functions |
| `voices.dfy` | `VoiceChoice` | voice fallback and the stored default voice |
| `speech.dfy` | `SpeechControl` | the listener closures' shared variables, as the class `SpeechController` |
| `route_change.dfy` | `RouteChange` | the mutation-significance predicate |
| `overlay.dfy` | `Overlay` | the component: settings state, storage, voice list and queued voice update, surface, route watch, deferred clears, as the class `Component` |
| `landing.dfy` | `LandingPage` | the landing-page helpers, as functions |

Each imperative operation is a method whose `ensures` ties the new state to a specification function of the old state. The properties are lemmas about those functions, and some invariants are preserved by every step.

Behaviour of the code that the model keeps as it is, although a reader might expect otherwise:

- BUTTON and A elements read their text content before `aria-label`. For BUTTON the order is text, aria-label, title. For A it is text, title, aria-label. Only other elements check `aria-label` first (`SpeechText.AriaLabelOrder`).
- An `aria-label` on a generic element is returned whole. Only the text collected from child nodes and descendants is trimmed and cut to 200 characters.
- A route-change re-initialisation registers another listener set without removing the one already installed. After the delayed start and one re-init, two listener sets are attached (`DocumentSurface.TwoListenerSets`).
- Appending the reading guide is itself a significant mutation (`RouteChange.GuideInsertionIsSignificant`). With the guide on, every settings change that keeps the overlay and text-to-speech on strips the guide and appends it again, so the observer schedules a re-initialisation that attaches one more listener set (`Overlay.GuideReappendReinits`). A change that switches the overlay or text-to-speech on connects a new observer only after the guide is appended, and schedules nothing (`Overlay.WatchStartsAfterGuide`).
- The hover controller never sees a settings change. `enableTextToSpeech` is memoised with no dependencies, so every listener set it attaches, from the delayed start or from a re-initialisation, reads the settings of the first render: the ones loaded at mount. Turning sound, hover or focus reading off later, or choosing another voice, rate, pitch, volume or delay, does not reach hover and focus speech; only the panel's own `speakText` sees the current settings (`Overlay.ListenerSettingsFixed`, `Overlay.ListenerSettingsFixedByVoices`, `Overlay.SoundOffStillSpeaksOnHover`).
- A reset schedules a second `clearAllEffects` 100 ms later. If the user enables the overlay before that timer fires, the overlay ends up enabled on a cleared document (`Overlay.ResetRace`).
- `fetchCompanies` ignores the page it is asked for. After "next" or "previous" the page fields are whatever a successful response reports, so when it reports the same page again neither button moves; a failed or unexpected response keeps them (`LandingPage.PageButtonsFollowResponse`).
- A reset does not settle at the defaults once voices are loaded. It empties `ttsVoice`; if a voice was named, the voice effect runs again and queues the preferred voice's name, so the next render stores and saves the defaults with that voice (`Overlay.ResetRestoresPreferredVoice`). Emptying the voice name in any other way does the same (`Overlay.UpdateInv`).
- The contrast type allows `higher`, and the filter gives it `contrast(200%)`. The panel's dropdown offers only `normal` and `high`, and the model takes whatever value the settings hold.

## Model

| member | source | states |
|---|---|---|
| AccessibilitySettings.Update | src/components/fitur/AccessibilityOverlay.tsx:682-690 | setting a property stores the value under that key, keeps the record well typed, and leaves every other property unchanged |
| AccessibilitySettings.Toggle | src/components/fitur/AccessibilityOverlay.tsx:675-680 | toggling a boolean property negates it and leaves every other property unchanged |
| AccessibilitySettings.ToggleTwice | src/components/fitur/AccessibilityOverlay.tsx:675-680 | toggling the same property twice restores the settings |
| AccessibilitySettings.DefaultOf | src/components/fitur/AccessibilityOverlay.tsx:92-117 | each default value has the type declared for its property |
| AccessibilitySettings.DefaultsWellTyped | src/components/fitur/AccessibilityOverlay.tsx:92-117 | the default record has every property, with the listed default values |
| AccessibilitySettings.Load | src/components/fitur/AccessibilityOverlay.tsx:119-133 | each property is the stored value when the stored object has that key, else the default; with nothing stored (missing or unreadable entry) the result is the defaults |
| AccessibilitySettings.Encode | src/components/fitur/AccessibilityOverlay.tsx:136-145 | the saved object holds every property with its current value |
| AccessibilitySettings.LoadEncode | src/components/fitur/AccessibilityOverlay.tsx:122-140 | loading what was saved gives back the settings (a reload keeps them) |
| AccessibilitySettings.LoadAfterReset | src/components/fitur/AccessibilityOverlay.tsx:658-663 | after the stored entry is removed, or holds the saved defaults, a load yields the defaults |
| VisualFilter.Percent | src/components/fitur/AccessibilityOverlay.tsx:266-267 | a percentage term starts with its function name and holds no space |
| VisualFilter.Term | src/components/fitur/AccessibilityOverlay.tsx:263-269 | a conditional push adds the term exactly when its condition holds |
| VisualFilter.TermsClean | src/components/fitur/AccessibilityOverlay.tsx:263-269 | every pushed filter term is non-empty and free of spaces |
| VisualFilter.TermsLength | src/components/fitur/AccessibilityOverlay.tsx:263-269 | at most five terms are pushed, since the two contrast terms exclude each other |
| VisualFilter.TermsEmpty | src/components/fitur/AccessibilityOverlay.tsx:263-271 | no term is pushed exactly when contrast is normal, brightness and saturation are 100 and neither invert nor grayscale is on |
| VisualFilter.Compose | src/components/fitur/AccessibilityOverlay.tsx:262-273 | the filter string stays "" exactly for the neutral visual settings |
| VisualFilter.JoinNonEmpty | src/components/fitur/AccessibilityOverlay.tsx:271-272 | joining non-empty terms gives "" only for no terms |
| VisualFilter.PercentRoundTrip | src/components/fitur/AccessibilityOverlay.tsx:266-267 | the number in a percentage term reads back as the setting's value |
| VisualFilter.DecodeCompose | src/components/fitur/AccessibilityOverlay.tsx:262-273 | decoding the filter string gives back the contrast, brightness, saturation, invert and grayscale settings |
| VisualFilter.StepAllTerms | src/components/fitur/AccessibilityOverlay.tsx:263-269 | reading the terms in push order reconstructs the visual settings |
| VisualFilter.StepContrast | src/components/fitur/AccessibilityOverlay.tsx:264-265 | the contrast terms encode the contrast mode: none for normal, 150% for high, 200% for higher |
| VisualFilter.StepBrightness | src/components/fitur/AccessibilityOverlay.tsx:266 | the brightness term appears only when brightness is not 100, and reads back as that value |
| VisualFilter.StepSaturation | src/components/fitur/AccessibilityOverlay.tsx:267 | the saturate term appears only when saturation is not 100, and reads back as that value |
| VisualFilter.ComposeInjective | src/components/fitur/AccessibilityOverlay.tsx:262-273 | different visual settings give different filter strings |
| VisualFilter.ComposeExample | src/components/fitur/AccessibilityOverlay.tsx:264-272 | higher contrast, brightness 120 and grayscale give "contrast(200%) brightness(120%) grayscale(1)" |
| DocumentSurface.RunOne | src/components/fitur/AccessibilityOverlay.tsx:453-459 | running one teardown logs it and keeps the registry as it is |
| DocumentSurface.RunAll | src/components/fitur/AccessibilityOverlay.tsx:242-243 | running the registry in order logs each teardown, cancels exactly the start timers it names, and touches only guide, listeners and timers |
| DocumentSurface.RunAllCounts | src/components/fitur/AccessibilityOverlay.tsx:198 | each teardown removes one listener of its kind, so the counts drop by the registered numbers |
| DocumentSurface.DrainValid | src/components/fitur/AccessibilityOverlay.tsx:241-243 | draining a consistent registry removes every listener and start timer, and runs every teardown in order, before emptying it |
| DocumentSurface.StripValid | src/components/fitur/AccessibilityOverlay.tsx:228-239 | removing the properties, filter, class and guide keeps the registry and its accounting |
| DocumentSurface.Clear | src/components/fitur/AccessibilityOverlay.tsx:174-220 | `clearAllEffects`: strip the styles, run and drop every teardown, no pending re-init; properties in `DocumentSurface.ClearClears` and `DocumentSurface.ClearIdempotent` |
| DocumentSurface.ApplySpec | src/components/fitur/AccessibilityOverlay.tsx:223-314 | the apply effect: clear, then, when enabled, the style projection with guide and speech timer; properties in `DocumentSurface.ApplyDisabled`, `DocumentSurface.ApplyStyle` and `DocumentSurface.ApplyTwice` |
| DocumentSurface.ClearClears | src/components/fitur/AccessibilityOverlay.tsx:174-220 | `clearAllEffects` leaves no custom property, an empty filter, no class, no guide, an empty registry, no listener, no timer and no pending re-init |
| DocumentSurface.ClearIdempotent | src/components/fitur/AccessibilityOverlay.tsx:174-220 | clearing twice is clearing once |
| DocumentSurface.ClearEmptyRegistry | src/components/fitur/AccessibilityOverlay.tsx:198-199 | with nothing registered, clearing only strips the styles and cancels the re-init |
| DocumentSurface.ClearEmpty | src/components/fitur/AccessibilityOverlay.tsx:174-220 | clearing an untouched document changes nothing |
| DocumentSurface.ApplyDisabled | src/components/fitur/AccessibilityOverlay.tsx:226-253 | applying disabled settings leaves the cleared document: nothing set, nothing registered, no listener |
| DocumentSurface.ApplyStyle | src/components/fitur/AccessibilityOverlay.tsx:255-300 | applying enabled settings sets the style the settings call for, and the guide exactly when the reading guide is on |
| DocumentSurface.StyleProperties | src/components/fitur/AccessibilityOverlay.tsx:257-289 | the font scale is set only when the size is not 100; the filter decodes to the visual settings; the cursor scale is none, "2" or "3"; paused animations set both durations to "0s"; focus mode sets the class |
| DocumentSurface.WithGuideValid | src/components/fitur/AccessibilityOverlay.tsx:292-295 | adding the guide registers its teardown with its listener |
| DocumentSurface.WithSpeechTimerValid | src/components/fitur/AccessibilityOverlay.tsx:303-313 | the delayed start registers a `clearTimeout` for its fresh timer |
| DocumentSurface.ApplyValid | src/components/fitur/AccessibilityOverlay.tsx:223-314 | after the apply effect, the registry accounts for every listener and pending timer |
| DocumentSurface.ApplyRegistry | src/components/fitur/AccessibilityOverlay.tsx:241-313 | the apply effect first runs every previous teardown in order; then it registers the guide teardown if the guide is on and the timer cancel if speech is on, and nothing else |
| DocumentSurface.InstalledErase | src/components/fitur/AccessibilityOverlay.tsx:292-312 | what is registered depends on the settings alone, up to the timer id |
| DocumentSurface.ApplyTwice | src/components/fitur/AccessibilityOverlay.tsx:223-314 | applying the same settings twice gives what applying once gives, up to the start timer's id |
| DocumentSurface.RegistryTwice | src/components/fitur/AccessibilityOverlay.tsx:241-313 | a second apply registers the same teardowns and keeps the same listener and timer counts |
| DocumentSurface.TwoListenerSets | src/components/fitur/AccessibilityOverlay.tsx:305-331 | after the delayed start and one route re-init, two speech listener sets are attached |
| DocumentSurface.FireEnableValid | src/components/fitur/AccessibilityOverlay.tsx:305-310 | the delayed start installs one listener set and registers its teardown |
| DocumentSurface.FireReinitValid | src/components/fitur/AccessibilityOverlay.tsx:327-331 | the re-init installs one listener set and registers its teardown |
| DocumentSurface.Surface.constructor | src/components/fitur/AccessibilityOverlay.tsx:84-86 | a new document has nothing applied, registered or pending |
| DocumentSurface.Surface.StripStyles | src/components/fitur/AccessibilityOverlay.tsx:228-239 | removes the four properties, the filter, the class and the guide element |
| DocumentSurface.Surface.RunTeardown | src/components/fitur/AccessibilityOverlay.tsx:453-459 | runs one teardown: guide removal, timer cancel or listener removal |
| DocumentSurface.Surface.DrainRegistry | src/components/fitur/AccessibilityOverlay.tsx:242-243 | runs the registered teardowns in order, then empties the registry |
| DocumentSurface.Surface.ClearAll | src/components/fitur/AccessibilityOverlay.tsx:174-220 | the document afterwards is `Clear` of the document before |
| DocumentSurface.Surface.Apply | src/components/fitur/AccessibilityOverlay.tsx:223-314 | the document afterwards is the apply effect's specification of the document before |
| DocumentSurface.Surface.SetStyleProperties | src/components/fitur/AccessibilityOverlay.tsx:257-289 | sets the font scale, filter, cursor scale and durations the settings call for |
| DocumentSurface.Surface.AddReadingGuide | src/components/fitur/AccessibilityOverlay.tsx:423-460 | appends the guide, attaches its listener and registers its teardown |
| DocumentSurface.Surface.StartSpeechTimer | src/components/fitur/AccessibilityOverlay.tsx:303-313 | schedules the delayed start under a fresh id and registers its cancel |
| DocumentSurface.Surface.FireEnableTimer | src/components/fitur/AccessibilityOverlay.tsx:305-310 | the timer fires: one listener set is attached and its teardown registered |
| DocumentSurface.Surface.ScheduleReinit | src/components/fitur/AccessibilityOverlay.tsx:324-332 | a re-init timer replaces any pending one |
| DocumentSurface.Surface.CancelReinit | src/components/fitur/AccessibilityOverlay.tsx:378-381 | the pending re-init is cancelled |
| DocumentSurface.Surface.FireReinitTimer | src/components/fitur/AccessibilityOverlay.tsx:327-331 | the re-init fires: another listener set is attached without removing the existing ones |
| SpeechText.Or | src/components/fitur/AccessibilityOverlay.tsx:474 | `a \|\| b` on strings: `a` unless it is empty |
| SpeechText.Pieces | src/components/fitur/AccessibilityOverlay.tsx:516-525 | every piece read from the direct text nodes is non-empty and trimmed |
| SpeechText.DescPieces | src/components/fitur/AccessibilityOverlay.tsx:529-536 | every piece read from the descendants is non-empty, trimmed and under 100 characters |
| SpeechText.FirstThree | src/components/fitur/AccessibilityOverlay.tsx:530 | at most the first three matched descendants are looked at |
| SpeechText.TextOf | src/components/fitur/AccessibilityOverlay.tsx:470-540 | the reading rule per tag: IMG, INPUT, BUTTON, A and SELECT with their fallbacks, the generic rule for the rest; properties in `SpeechText.SpecialNeverEmpty`, `SpeechText.SelectReading` and `SpeechText.AriaLabelOrder` |
| SpeechText.GenericText | src/components/fitur/AccessibilityOverlay.tsx:506-539 | the generic rule: `aria-label` when non-empty, else the collected text trimmed and cut to 200 characters; properties in `SpeechText.GenericSilent` and `SpeechText.GenericBounded` |
| SpeechText.GetTextFromElement | src/components/fitur/AccessibilityOverlay.tsx:470-540 | the text read for an element is `TextOf`, the per-tag reading rules |
| SpeechText.CollectTextNodes | src/components/fitur/AccessibilityOverlay.tsx:516-525 | the first loop accumulates each non-blank text node, trimmed, with a space |
| SpeechText.CollectDescendants | src/components/fitur/AccessibilityOverlay.tsx:528-537 | the second loop accumulates each short non-blank text among the first three, with ". " |
| SpeechText.DirectTextJoin | src/components/fitur/AccessibilityOverlay.tsx:516-525 | the direct text is the pieces joined by spaces, plus a trailing space |
| SpeechText.DescTextJoin | src/components/fitur/AccessibilityOverlay.tsx:529-536 | the descendant text is the read pieces joined by ". ", plus a trailing ". " |
| SpeechText.SpecialNeverEmpty | src/components/fitur/AccessibilityOverlay.tsx:472-504 | IMG, INPUT, BUTTON, A and SELECT always read something, thanks to their fixed fallbacks |
| SpeechText.SelectReading | src/components/fitur/AccessibilityOverlay.tsx:500-504 | a SELECT reads "Pilihan: " and the selected text, or "Tidak ada pilihan" |
| SpeechText.AriaLabelOrder | src/components/fitur/AccessibilityOverlay.tsx:486-513 | a BUTTON with text reads its trimmed text in spite of an `aria-label`, while a generic element reads the `aria-label` |
| SpeechText.GenericReadsTextNodes | src/components/fitur/AccessibilityOverlay.tsx:515-539 | with direct text, a generic element reads its text nodes joined by spaces, cut to 200 characters |
| SpeechText.GenericReadsDescendants | src/components/fitur/AccessibilityOverlay.tsx:527-539 | without direct text, it reads the short descendant texts joined by ". " with a final ".", cut to 200 characters |
| SpeechText.CollectedFromDescendants | src/components/fitur/AccessibilityOverlay.tsx:527-537 | without direct text nodes, the collected text is the descendant text alone |
| SpeechText.TrimDescText | src/components/fitur/AccessibilityOverlay.tsx:539 | the trimmed descendant text is its pieces joined by ". " with a final ".", or "" without pieces |
| SpeechText.PiecesEmpty | src/components/fitur/AccessibilityOverlay.tsx:516-525 | no piece exactly when every child node is a non-text node or blank |
| SpeechText.DescPiecesEmpty | src/components/fitur/AccessibilityOverlay.tsx:529-536 | no descendant piece exactly when each is blank or 100 characters or longer |
| SpeechText.GenericSilent | src/components/fitur/AccessibilityOverlay.tsx:506-539 | a generic element without `aria-label` reads "" exactly when its text nodes are blank and its first three descendants are all skipped |
| SpeechText.GenericBounded | src/components/fitur/AccessibilityOverlay.tsx:539 | what a generic element without `aria-label` reads is at most 200 characters |
| VoiceChoice.FindFirst | src/components/fitur/AccessibilityOverlay.tsx:154 | `find` gives the first match, and nothing exactly when no voice matches |
| VoiceChoice.Preferred | src/components/fitur/AccessibilityOverlay.tsx:154-156 | the first voice with bahasa Indonesia as its language if there is one, else the first English voice, else the first voice; none only for an empty list |
| VoiceChoice.SelectVoice | src/components/fitur/AccessibilityOverlay.tsx:550-555 | the first voice with the wanted name when one is named and exists, else the language fallback; none only for an empty list |
| VoiceChoice.OnVoicesLoaded | src/components/fitur/AccessibilityOverlay.tsx:150-160 | with voices and no voice named, stores the preferred voice's name (Indonesian, then English, then the first voice); otherwise changes nothing; no other property changes |
| VoiceChoice.StoredDefaultIsUsed | src/components/fitur/AccessibilityOverlay.tsx:153-158 | after the default is stored, speaking selects a voice with the preferred voice's name |
| SpeechControl.Queued | src/components/fitur/AccessibilityOverlay.tsx:560-565 | a timer is queued only with hover or focus reading on in the listener set's settings, for a target outside the overlay, BODY and HTML, with its non-empty text |
| SpeechControl.StartInv | src/components/fitur/AccessibilityOverlay.tsx:466-468 | attaching the listeners starts with nothing pending or spoken |
| SpeechControl.QueueInv | src/components/fitur/AccessibilityOverlay.tsx:577-590 | mouseover and focusin keep the invariant: a pending timer has text and exists only while listening |
| SpeechControl.FireInv | src/components/fitur/AccessibilityOverlay.tsx:568-574 | the timer firing keeps the invariant: nothing empty is spoken, and nothing at all with sound off in the listener set's settings |
| SpeechControl.OtherStepsInv | src/components/fitur/AccessibilityOverlay.tsx:581-623 | mouseout, keys, the end of speech and the teardown keep the invariant |
| SpeechControl.LatestTargetWins | src/components/fitur/AccessibilityOverlay.tsx:566-568 | queuing a new target replaces the pending timer |
| SpeechControl.OnlyLatestSpoken | src/components/fitur/AccessibilityOverlay.tsx:566-574 | after two hovers, only the second target's text can be spoken |
| SpeechControl.MouseOutCancels | src/components/fitur/AccessibilityOverlay.tsx:581-586 | leaving the element cancels the pending timer, so nothing is spoken for it |
| SpeechControl.NoRespeak | src/components/fitur/AccessibilityOverlay.tsx:569-573 | a timer for the last spoken target says nothing |
| SpeechControl.FireSpeaks | src/components/fitur/AccessibilityOverlay.tsx:568-574 | a timer for a new target, with sound on in the listener set's settings, speaks exactly its text with the voice and tuning values of those settings |
| SpeechControl.IgnoredTargets | src/components/fitur/AccessibilityOverlay.tsx:562-563 | events on the overlay, BODY or HTML change nothing |
| SpeechControl.SpaceTwice | src/components/fitur/AccessibilityOverlay.tsx:593-598 | space pauses and resumes, so pressing it twice restores the state; from idle it does nothing |
| SpeechControl.SpeakTextGuard | src/components/fitur/AccessibilityOverlay.tsx:692-710 | the panel's own speech, on the current settings, speaks only with the overlay, text-to-speech and sound all on, and then says what a listener set holding those same settings would say |
| SpeechControl.SpeechController.constructor | src/components/fitur/AccessibilityOverlay.tsx:463-468 | attaching the listeners: the controller keeps the settings it is given, with nothing pending, no last target and the engine idle |
| SpeechControl.SpeechController.QueueSpeakFromEvent | src/components/fitur/AccessibilityOverlay.tsx:560-575 | the state afterwards is the queue step of the state before |
| SpeechControl.SpeechController.OnMouseOver | src/components/fitur/AccessibilityOverlay.tsx:577-580 | queues only with hover reading on in the listener set's settings |
| SpeechControl.SpeechController.OnFocusIn | src/components/fitur/AccessibilityOverlay.tsx:587-590 | queues only with focus reading on in the listener set's settings |
| SpeechControl.SpeechController.OnMouseOut | src/components/fitur/AccessibilityOverlay.tsx:581-586 | clears the pending timer |
| SpeechControl.SpeechController.OnTimer | src/components/fitur/AccessibilityOverlay.tsx:568-574 | the pending timer fires: its target is spoken unless it was spoken last |
| SpeechControl.SpeechController.SpeakWithSettings | src/components/fitur/AccessibilityOverlay.tsx:542-558 | with sound on in the listener set's settings, cancels and speaks the text with the voice and tuning values of those settings |
| SpeechControl.SpeechController.OnKeyDown | src/components/fitur/AccessibilityOverlay.tsx:591-602 | space toggles pause and resume while speaking; Escape cancels |
| SpeechControl.SpeechController.OnSpeechEnd | src/components/fitur/AccessibilityOverlay.tsx:595-597 | the engine finishing makes it idle, as `speechSynthesis.speaking` reports it |
| SpeechControl.SpeechController.Teardown | src/components/fitur/AccessibilityOverlay.tsx:610-623 | removes the listeners, clears the timer, cancels speech and forgets the last target |
| RouteChange.AnyVisible | src/components/fitur/AccessibilityOverlay.tsx:344-348 | some added node is an element other than SCRIPT and STYLE |
| RouteChange.HasSignificantChanges | src/components/fitur/AccessibilityOverlay.tsx:341-349 | some record of the batch is significant |
| RouteChange.SignificantMeans | src/components/fitur/AccessibilityOverlay.tsx:342-348 | a record is significant exactly when it is a childList change that added a visible element |
| RouteChange.SignificantAppend | src/components/fitur/AccessibilityOverlay.tsx:341-349 | two batches are significant together exactly when one of them is |
| RouteChange.GuideInsertionIsSignificant | src/components/fitur/AccessibilityOverlay.tsx:428-442 | appending the reading guide's DIV is a significant change |
| RouteChange.ScriptsAndTextAreIgnored | src/components/fitur/AccessibilityOverlay.tsx:345-347 | batches adding only scripts, styles and non-element nodes never trigger a re-init |
| Overlay.Commit | src/components/fitur/AccessibilityOverlay.tsx:136-383 | a re-render's effects: the voice effect, which queues the preferred voice when the name became empty while voices are loaded; then the route effect's cleanup when enabled or text-to-speech changed (dropping a pending re-init), the save, the apply effect, and the route watch on exactly when enabled with text-to-speech; properties in `Overlay.CommitInv` |
| Overlay.DocEffects | src/components/fitur/AccessibilityOverlay.tsx:136-383 | the save, the apply effect and the route effect of a render, without the voice effect; properties in `Overlay.CommitInv` |
| Overlay.VoiceQueue | src/components/fitur/AccessibilityOverlay.tsx:148-171 | what the voice effect leaves queued: the preferred voice's name when `ttsVoice` changed to empty with voices loaded, else what was queued; properties in `Overlay.CommitInv` |
| Overlay.Mount | src/components/fitur/AccessibilityOverlay.tsx:90-134 | the first render: the loaded settings, also as the listener sets' settings, no voice list yet and nothing queued, then the effects; properties in `Overlay.MountInv` |
| Overlay.ToggleStep | src/components/fitur/AccessibilityOverlay.tsx:675-680 | `toggleSetting` and the re-render; properties in `Overlay.ToggleInv` |
| Overlay.UpdateStep | src/components/fitur/AccessibilityOverlay.tsx:682-690 | `updateSetting` and the re-render; properties in `Overlay.UpdateInv` |
| Overlay.ResetStep | src/components/fitur/AccessibilityOverlay.tsx:627-673 | `resetSettings`: clear, remove the stored entry, one more deferred clear, the defaults, then the re-render, whose voice effect may queue the preferred voice; properties in `Overlay.ResetInv` and `Overlay.ResetRestoresPreferredVoice` |
| Overlay.VoicesStep | src/components/fitur/AccessibilityOverlay.tsx:148-171 | `loadVoices` reads a list: the list is kept, the default voice is stored when none is named, then the re-render; properties in `Overlay.VoicesInv` |
| Overlay.VoiceUpdateStep | src/components/fitur/AccessibilityOverlay.tsx:153-158 | the render of the voice effect's queued `setSettings`, which sets `ttsVoice` to the queued name; properties in `Overlay.VoiceUpdateInv` |
| Overlay.RouteStep | src/components/fitur/AccessibilityOverlay.tsx:321-334 | a route change schedules a re-init only with the watch on; properties in `Overlay.RouteInv` |
| Overlay.MutationsStep | src/components/fitur/AccessibilityOverlay.tsx:340-363 | a mutation batch schedules a re-init only with the watch on and a significant batch; properties in `Overlay.RouteInv` |
| Overlay.ReinitStep | src/components/fitur/AccessibilityOverlay.tsx:356-361 | the re-init timer fires and attaches one more listener set; properties in `Overlay.TimersInv` |
| Overlay.UnmountStep | src/components/fitur/AccessibilityOverlay.tsx:386-421 | every cleanup at unmount: a clear, and the watch off; properties in `Overlay.UnmountInv` |
| Overlay.CommitInv | src/components/fitur/AccessibilityOverlay.tsx:136-314 | after any settings change and its effects, the settings are kept and saved, the document shows them, the route watch matches enabled and text-to-speech, and the preferred voice is queued exactly when the voice name was emptied with voices loaded |
| Overlay.MountInv | src/components/fitur/AccessibilityOverlay.tsx:90-134 | mounting loads the settings, gives the listener sets those same settings, has no voice list and nothing queued, and establishes the invariant |
| Overlay.ToggleInv | src/components/fitur/AccessibilityOverlay.tsx:675-680 | a toggle keeps the invariant and the state shows the toggled settings |
| Overlay.UpdateInv | src/components/fitur/AccessibilityOverlay.tsx:682-690 | an update keeps the invariant and the state shows the updated settings; emptying a named voice while voices are loaded queues the preferred voice |
| Overlay.ResetInv | src/components/fitur/AccessibilityOverlay.tsx:627-673 | the reset's render gives the defaults, a cleared document, no route watch, one more deferred clear and a stored copy that loads as the defaults; when a voice was named and voices are loaded, the preferred voice is queued |
| Overlay.VoiceUpdateInv | src/components/fitur/AccessibilityOverlay.tsx:148-171 | the queued voice update keeps the invariant, names the queued voice, and queues nothing more unless that name is empty |
| Overlay.ResetRestoresPreferredVoice | src/components/fitur/AccessibilityOverlay.tsx:148-171 | with a voice named and voices loaded, a reset followed by the voice effect's update ends at the defaults with the preferred voice's name, saved so that a reload restores it; not the defaults when that name is non-empty |
| Overlay.VoicesInv | src/components/fitur/AccessibilityOverlay.tsx:148-171 | loading voices keeps the invariant, keeps the list, gives `OnVoicesLoaded` of the settings and changes no property but the voice |
| Overlay.RouteInv | src/components/fitur/AccessibilityOverlay.tsx:340-362 | after a mutation batch a re-init is pending exactly when one already was, or the watch is on and the batch is significant; a route change keeps the invariant |
| Overlay.TimersInv | src/components/fitur/AccessibilityOverlay.tsx:305-361 | the start and re-init timers firing keep the invariant |
| Overlay.DeferredClearInv | src/components/fitur/AccessibilityOverlay.tsx:669-672 | the deferred clear of a reset leaves a cleared document |
| Overlay.UnmountInv | src/components/fitur/AccessibilityOverlay.tsx:386-421 | unmounting leaves a cleared document |
| Overlay.ReloadKeepsSettings | src/components/fitur/AccessibilityOverlay.tsx:119-145 | between events, loading the stored copy gives the current settings |
| Overlay.ResetRace | src/components/fitur/AccessibilityOverlay.tsx:669-672 | a reset, an enable, then the deferred clear give an enabled overlay on a cleared document |
| Overlay.ListenerSettingsFixed | src/components/fitur/AccessibilityOverlay.tsx:463-624 | no toggle, update or reset changes the settings the listener sets read |
| Overlay.ListenerSettingsFixedByVoices | src/components/fitur/AccessibilityOverlay.tsx:148-171 | no voice load and no queued voice update changes the settings the listener sets read |
| Overlay.ListenerSettingsFixedByEvents | src/components/fitur/AccessibilityOverlay.tsx:305-361 | no mutation batch, route change, timer or unmount changes them either |
| Overlay.SoundOffStillSpeaksOnHover | src/components/fitur/AccessibilityOverlay.tsx:542-710 | after sound is turned off, `speakText` says nothing, while a first-render listener set whose timer fires still speaks with the first render's settings |
| Overlay.GuideReappendReinits | src/components/fitur/AccessibilityOverlay.tsx:228-368 | when the overlay and text-to-speech are on both before and after a settings change and the guide is on after it, the change re-appends the guide, its DIV schedules a re-init, and the re-init adds one listener set |
| Overlay.WatchStartsAfterGuide | src/components/fitur/AccessibilityOverlay.tsx:223-383 | a change that switches the overlay or text-to-speech on leaves the watch on and no re-init pending: the apply effect appends the guide (when on) before the route effect connects the observer |
| Overlay.Component.constructor | src/components/fitur/AccessibilityOverlay.tsx:90-134 | the component starts in the mounted state for the stored entry |
| Overlay.Component.RunEffects | src/components/fitur/AccessibilityOverlay.tsx:136-383 | the voice effect, then the save, the apply effect and, when enabled or speech changed, the route effect's cleanup and set-up |
| Overlay.Component.RunVoiceEffect | src/components/fitur/AccessibilityOverlay.tsx:148-171 | queues the preferred voice exactly as `Overlay.VoiceQueue` says |
| Overlay.Component.RunDocEffects | src/components/fitur/AccessibilityOverlay.tsx:136-383 | the new state is `Overlay.DocEffects` of the old one |
| Overlay.Component.ToggleSetting | src/components/fitur/AccessibilityOverlay.tsx:675-680 | toggles the property, then runs the effects |
| Overlay.Component.UpdateSetting | src/components/fitur/AccessibilityOverlay.tsx:682-690 | sets the property, then runs the effects |
| Overlay.Component.ResetSettings | src/components/fitur/AccessibilityOverlay.tsx:627-673 | clears, removes the stored entry, schedules the deferred clear, sets the defaults and runs the effects |
| Overlay.Component.LoadVoices | src/components/fitur/AccessibilityOverlay.tsx:150-160 | keeps the list, stores the default voice when none is named, then runs the effects |
| Overlay.Component.OnVoiceUpdate | src/components/fitur/AccessibilityOverlay.tsx:153-158 | the new state is `Overlay.VoiceUpdateStep` of the old one |
| Overlay.Component.OnPopState | src/components/fitur/AccessibilityOverlay.tsx:321-334 | with the watch on, schedules a re-init that replaces any pending one |
| Overlay.Component.OnMutations | src/components/fitur/AccessibilityOverlay.tsx:340-363 | with the watch on and a significant batch, schedules a re-init |
| Overlay.Component.OnReinitTimer | src/components/fitur/AccessibilityOverlay.tsx:356-361 | the re-init fires on the surface and returns a new listener set holding the first render's settings |
| Overlay.Component.OnEnableTimer | src/components/fitur/AccessibilityOverlay.tsx:305-310 | the delayed start fires on the surface and returns a new listener set holding the first render's settings |
| Overlay.Component.OnDeferredClear | src/components/fitur/AccessibilityOverlay.tsx:670-672 | the reset's deferred `clearAllEffects` runs |
| Overlay.Component.Unmount | src/components/fitur/AccessibilityOverlay.tsx:386-421 | clears the document and stops the route watch |
| Text.Trim | src/components/fitur/AccessibilityOverlay.tsx:480 | `trim`: no longer than the input, and not starting or ending with white space |
| Text.TrimSlice | src/components/fitur/AccessibilityOverlay.tsx:520 | the trimmed text is the input without its leading and trailing white space; it is empty exactly for an all-space input |
| Text.Take | src/components/fitur/AccessibilityOverlay.tsx:539 | `substring(0, n)`: the first `n` characters, or all of a shorter string |
| Text.Split | src/app/page.tsx:867 | `split`: at least one part, none holding the separator |
| Text.JoinSplit | src/app/page.tsx:867 | joining the parts of a split with the separator gives back the string |
| Text.IntToString | src/app/page.tsx:859 | the decimal form of a number: non-empty, with a minus sign exactly for negatives |
| Text.IntToStringRoundTrip | src/app/page.tsx:859 | the decimal form reads back as the number |
| Text.IntToStringInjective | src/app/page.tsx:859 | different numbers have different decimal forms |
| LandingPage.OrDefault | src/app/page.tsx:256-259 | `a \|\| b`: the value when present and non-empty, else the default |
| LandingPage.Nullish | src/app/page.tsx:860 | `a ?? b`: the value when present, even if empty, else the default |
| LandingPage.StatusOf | src/app/page.tsx:262-266 | `terverifikasi` gives active, `ditolak` inactive, anything else pending; stated in `LandingPage.CompanyFields` |
| LandingPage.ToCompany | src/app/page.tsx:254-275 | one profile as a company, with the fallbacks for missing fields; stated in `LandingPage.CompanyFields` |
| LandingPage.TransformCompanies | src/app/page.tsx:251-276 | one company per profile, in order |
| LandingPage.TransformKeepsIds | src/app/page.tsx:254-255 | the transformation keeps the length and every id |
| LandingPage.CompanyFields | src/app/page.tsx:256-273 | "terverifikasi" becomes active, "ditolak" inactive, anything else pending; an empty name becomes "Tidak Diketahui"; the logo is `logo_url`, else `logo`; the date is formatted only when present |
| LandingPage.StatusLabel | src/app/page.tsx:542-553 | every status has a non-empty label |
| LandingPage.LabelsDistinct | src/app/page.tsx:542-553 | active, inactive and pending each have a label of their own: no other status string shares it |
| LandingPage.CompanyLabelKnown | src/app/page.tsx:262-266 | a company from the API never reads "Tidak Diketahui", and reads "Terverifikasi" exactly when verified |
| LandingPage.StatusBadge | src/app/page.tsx:527-539 | every badge starts with the shared base classes and a space |
| LandingPage.BadgesDistinct | src/app/page.tsx:527-539 | the three company statuses have three different badges, all different from the fallback badge |
| LandingPage.ColourLengths | src/app/page.tsx:530-537 | the colour classes of the four badges have different lengths |
| LandingPage.LogoUrl | src/app/page.tsx:279-288 | a non-blank logo starting with "http" is returned unchanged; another non-blank logo is put under the image base URL; otherwise the avatar URL with the encoded name and "&length=2" |
| LandingPage.LogoUrlIsAbsolute | src/app/page.tsx:279-288 | every logo URL starts with "http" |
| LandingPage.LogoUrlIdempotent | src/app/page.tsx:279-288 | a URL the helper built comes back unchanged from the helper |
| LandingPage.ErrorMessage | src/app/page.tsx:440-457 | every failed fetch has a non-empty message |
| LandingPage.ErrorMessagesShared | src/app/page.tsx:490-507 | the job and company fetches give the same message for every failure but a 404 |
| LandingPage.QuotedStatusRoundTrip | src/app/page.tsx:453-454 | the message for an unlisted status quotes exactly that status |
| LandingPage.FixedMessagesQuoteNothing | src/app/page.tsx:440-457 | the fixed messages quote no status |
| LandingPage.UnlistedMessageIdentifies | src/app/page.tsx:440-457 | no other failure gives the same message as an unlisted status |
| LandingPage.JsRem | src/app/page.tsx:584-590 | JavaScript `%` for a positive divisor: strictly between `-n` and `n`, and the Euclidean remainder for a non-negative dividend |
| LandingPage.NextIndex | src/app/page.tsx:584-586 | `nextTestimonial`: the index plus one, wrapped with JavaScript's `%`; NaN without testimonials; properties in `LandingPage.CarouselSteps` |
| LandingPage.PrevIndex | src/app/page.tsx:588-590 | `prevTestimonial`: the index minus one plus the count, wrapped; properties in `LandingPage.CarouselSteps` |
| LandingPage.CarouselSteps | src/app/page.tsx:584-590 | with testimonials, next and prev keep the index in range and undo each other; without testimonials the index becomes NaN |
| LandingPage.AutoSlide | src/app/page.tsx:593-596 | starting from the first testimonial, after `k` ticks the carousel shows testimonial `k mod n` |
| LandingPage.OrOne | src/app/page.tsx:482-483 | `x \|\| 1` is never 0 |
| LandingPage.PagesFrom | src/app/page.tsx:482-483 | without pagination data both page fields are 1 |
| LandingPage.PageGuards | src/app/page.tsx:514-524 | next requests `current + 1` only when `current < last`; previous requests `current - 1` only when `current > 1` |
| LandingPage.NoPaginationNoRequests | src/app/page.tsx:246-247 | with the default page fields neither button requests a page |
| LandingPage.NextPage | src/app/page.tsx:464-518 | `handleNextPage` and the fetch it starts: with a page to go to, the state `fetchCompanies` leaves for the response; properties in `LandingPage.PageButtonsFollowResponse` |
| LandingPage.FetchCompanies | src/app/page.tsx:464-510 | loading ends and the error is reset whatever happens; a successful array response replaces the companies and the page fields; any other response empties the list and keeps the page fields; a thrown error keeps both and sets its message |
| LandingPage.PrevPage | src/app/page.tsx:464-524 | `handlePrevPage` and the fetch it starts; properties in `LandingPage.PageButtonsFollowResponse` |
| LandingPage.PageButtonsFollowResponse | src/app/page.tsx:464-524 | after next or previous the page fields are those a successful response reports, not `current + 1` or `current - 1`; a successful response reporting the current page leaves them unchanged; a failed or unexpected response keeps the page fields, and a failed one the companies too |
| LandingPage.Cards | src/app/page.tsx:857 | at most six cards, one per job in order |
| LandingPage.ToCard | src/app/page.tsx:859-873 | one job as a card, with its fallbacks; stated in `LandingPage.CardFields` and `LandingPage.CardIdsDistinct` |
| LandingPage.CardFields | src/app/page.tsx:859-873 | the salary defaults to "Kompetitif"; the company defaults to "Unknown Company" only when missing; the requirements are the lines of the text; accessibility is the categories joined by ", " exactly when there are some; the detail link ends in the id, which reads back as the job's id |
| LandingPage.CardIdsDistinct | src/app/page.tsx:857-875 | jobs with distinct ids give cards with distinct ids and distinct detail links |
| LandingPage.JobsSection | src/app/page.tsx:846-880 | six skeletons while loading; the empty state on an error or no jobs; otherwise, and only then, the grid of the first six jobs' cards |

## Left out

- SpeechControl.SpeechController: its members read the settings the controller was created with. That these are the first render's settings is stated where the component creates the controllers (`Overlay.Component.OnEnableTimer`, `Overlay.Component.OnReinitTimer`, `Overlay.ListenerSettingsFixed`). The `Surface` counts attached listener sets but holds no controller.
- Queued: tests hover and focus reading in the controller's settings; those are the first render's settings, not the current ones.
- FireInv: rules out speech with sound off in the controller's settings; those are the first render's settings, not the current ones.
- FireSpeaks: speaks with the sound switch, voice and tuning values of the controller's settings; those are the first render's settings, not the current ones.
- OnMouseOver: tests hover reading in the controller's settings; those are the first render's settings, not the current ones.
- OnFocusIn: tests focus reading in the controller's settings; those are the first render's settings, not the current ones.
- SpeakWithSettings: uses the sound switch, voice and tuning values of the controller's settings; those are the first render's settings, not the current ones.
- SpeakTextGuard: relates `speakText` to a listener set holding the current settings. The listener sets actually attached hold the first render's settings, so the two agree only while the settings are unchanged since mount.
- constructor: `SpeechControl.SpeechController.constructor` accepts any well-typed settings. The component passes it the first render's settings only.
- Overlay.Commit: a re-render does not itself pass the guide's DIV insertion to the mutation observer; batches are inputs of `Overlay.Component.OnMutations`, and `Overlay.GuideReappendReinits` composes the guide's batch with a settings change that keeps the watch on. When a change switches the watch on, the source's observer connects after the guide is appended and never sees that insertion; `Overlay.MutationsStep` applied to that batch would still count it, so the batch must not be fed in that case (`Overlay.WatchStartsAfterGuide` states the state the change itself leaves).
- Rendering is not modelled: the JSX markup, the Tailwind classes, the global CSS of the overlay, the `SettingButton` and `SliderControl` components, the theme toggle and its `matchMedia` initialisation.
- Browser storage and JSON are not modelled. The stored entry is an `Option` of a map from property names to values; a missing entry and an entry that fails to read or parse are both `None`.
- AccessibilitySettings.Load: is proved well typed only when every stored value has its declared type. A stored object with undeclared keys or wrongly typed values is outside the model.
- AccessibilitySettings.Toggle: requires a boolean property. The panel toggles only those; in the source, negating any other property would turn it into a boolean.
- The rate, pitch and volume of speech are copied into the utterance as stored values. They are not interpreted, and floating point is not modelled.
- The speech engine is a three-state value (`Idle`, `Speaking`, `Paused`) plus a log of utterances. The browser's voice list is a parameter. `speechSynthesis.cancel` inside `clearAllEffects` and the apply effect is not tracked by `DocumentSurface`; the surface counts attached listener sets, while `SpeechControl` models what one set does. Each `SpeechControl.SpeechController` has an engine state of its own, whereas the page has one `speechSynthesis`: with two listener sets attached, the model does not say what one keydown or hover does to the shared engine (both sets' handlers act on it).
- Timer delays are not modelled (120 ms hover, 500 ms start, 1000 ms re-init, 100 ms deferred clear, and the 1000 ms carousel interval). Each timer is pending state that a method fires or cancels.
- The clone-and-replace removal of `data-accessibility-listener` elements is not modelled. It depends on DOM identity and does not affect the state modelled here.
- The pixel transform of the reading guide on `mousemove` is not modelled. The MutationObserver and `popstate` wiring is modelled only through the significance predicate and the re-init timer.
- The font scale is kept as the integer percentage. The decimal `fontSize / 100` written into the property is not modelled.
- Unmounting is modelled as `clearAllEffects` and stopping the route watch. The unmount cleanup does the same steps in a different order, and the order makes no difference to the state modelled.
- `SpeechText.TextOf` compares tag names as given. The upper-case names the DOM reports are assumed, and case folding is not modelled beyond the ASCII lower-casing of voice languages in `VoiceChoice`. Strings are sequences of characters here, not the UTF-16 code units that `substring` and `length` count.
- LandingPage.ErrorMessagesShared: compares the two mappings as written. In `fetchJobs` each endpoint request catches its own error, so an axios error never reaches the outer mapping, and a failed jobs fetch shows the dummy vacancies rather than a message.
- LandingPage.NameArgument: a missing name gives "undefined". A name the API sends as JSON `null` would give "null", and the model does not tell `null` from a missing field.
- Fetching is not modelled: axios, the endpoint loop of `fetchJobs`, and the dummy vacancies used when every endpoint fails. The outcome of the companies request (a successful array response with its profiles and pagination object, a response of another shape, or a thrown error) is an input of `LandingPage.FetchCompanies`; a fetch error (an axios error with or without a response status, or any other exception) is an input of `LandingPage.ErrorMessage`.
- Overlay.VoiceUpdateStep: the voice effect's `setSettings` is processed as a step of its own after the render that queued it. React schedules that render at once; the model lets other steps come in between, and `Overlay.ResetRestoresPreferredVoice` composes the reset with it directly.
- Overlay.Mount: the `loadVoices` call of the first render is `Overlay.VoicesStep` right after the mount, with whatever list `getVoices` returns then (often empty until `voiceschanged`); `onvoiceschanged` handlers are not tracked, only the list each call reads.
- `encodeURIComponent` and `toLocaleDateString("id-ID")` are not implemented. They are function parameters, so every property holds whatever they compute.
- The testimonials, and the testimonial card that shows the current index, are not modelled; only the index arithmetic is.
- `page.tsx` reads `item.user?.email`, but its profile type declares no `user` field. The model gives the profile an optional e-mail field that the API may or may not send.
