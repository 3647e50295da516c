# ecozenmindfulness — a Dafny model of the session flow

EcoZen Mindfulness is a Next.js application. The user picks a plant "avatar"
and up to two emotional characteristics, and a server endpoint composes a
Spanish narration script and has a text-to-speech service voice it. The
result plays in a dialog over a looping background track. A separate page
plays three fixed guided sessions. This project models the four pieces of
logic behind that flow and proves what they promise:

- **The session endpoint** (`GenerateAudio`, with `ScriptTemplate` and
  `Text`). It validates the body and looks up the plant's script. It maps each
  characteristic to its instruction and joins them with `". "`, then fills the
  fixed template. Finally it maps every outcome to a status code. The
  text-to-speech call is a function parameter `tts`, so "no call was made"
  becomes "the response does not depend on `tts`".
- **The session dialog** (`AudioModal`). This is a class `Controller` that
  drives two tracks, the narration and the looping background. The background
  is "ducked": it plays at the slider level while the session is generated
  and at 30% of it once the narration is there. The React effects become the
  events `Open`, `Close`, `StartLoading` and `Resolve`. The click, slider and
  media handlers are methods. Alongside the class sit the pure display rules:
  the characteristic names line, the three panels and the progress bar.
- **The avatar page** (`AvatarPage`). `Toggle` is the bounded, duplicate-free
  selection update. The class `Page` holds the ordered validation of the start
  button and the settling of the request.
- **The meditation page** (`MeditationPage`). This is a single-track player
  class with fixed session durations.

Shared pieces:

- `Clock` is `formatTime`, which both players share, together with the
  progress width.
- `Media.Track` is what the players use of an HTML audio element: position,
  volume and paused. A new element starts at position 0, volume 1, paused. A
  new `src` rewinds and pauses it and keeps its volume.
- Volumes are exact `real`s (`v / 100`, `v / 100 * 0.3`).

Facts about the code that the model keeps:

- There is no language-model stage before synthesis. The template is filled
  directly.
- There is one voice for all plants: `ELEVENLABS_VOICE_ID` or a default.
- The object URL of a session is never revoked.
- A characteristic the endpoint does not know is not dropped. It leaves an
  empty segment between separators (`UnknownCharacteristicLeavesEmptySegment`).
- The avatar page offers "ceibo", which the endpoint's table lacks, so such a
  request always ends in a 500 (`CeiboAlwaysFails`).
- The page offers the ids "gratitude", "compassion", "joy" and "hope", which
  neither the endpoint nor the dialog's label table knows. The label table is
  keyed "gratitud", "compasion", "alegria" and "esperanza".
- A narration element the dialog creates starts at volume 1, whatever the
  slider shows. Only the background is set on loading and on resolution.
- A failed generation closes the dialog in the same update that ends loading,
  so the close effect stops and rewinds both tracks right after the effect of
  the end of loading. After an earlier session in the same dialog, that effect
  briefly restarts the old narration and ducks the background. Nothing stays
  audible, and the background is left at the ducked level
  (`FailedGenerationAfterSession`). Without an earlier session the background
  is left at the loading level (`FailedFirstGeneration`).
- The background loops on after the narration ends.
- Picking a session card on the meditation page while a session plays leaves
  the recording sounding from the start behind a "play" button, because the
  card uses the page's `resetAudio`, which does not pause (see Findings).

## Model

| member | source | states |
|---|---|---|
| GenerateAudio.Instruction | app/api/generate-audio/route.ts:44-58 | a known characteristic contributes its instruction; an unknown one contributes the empty string, as `join` renders `undefined` |
| GenerateAudio.Instructions | app/api/generate-audio/route.ts:57-58 | one segment per requested characteristic, in request order |
| GenerateAudio.CharacteristicInstructions | app/api/generate-audio/route.ts:57-59 | the segments joined with `". "`; its length, the place of each segment and the separators between them are stated by `InstructionsLength`, `InstructionAt` and `SeparatorBetween` |
| GenerateAudio.InstructionAt | app/api/generate-audio/route.ts:57-59 | the instruction of the i-th requested characteristic stands at its offset in the joined instructions, so they appear in request order |
| GenerateAudio.SeparatorBetween | app/api/generate-audio/route.ts:57-59 | exactly `". "` stands between the instructions of neighbouring characteristics |
| GenerateAudio.InstructionsLength | app/api/generate-audio/route.ts:57-59 | for n characteristics the joined instructions are the segments plus exactly n - 1 separators `". "` |
| GenerateAudio.UnknownCharacteristicLeavesEmptySegment | app/api/generate-audio/route.ts:44-59 | `["sad", "joy"]` joins to the "sad" instruction followed by a dangling `". "`, which differs from `["sad"]` |
| GenerateAudio.FullScript | app/api/generate-audio/route.ts:61-65 | the template filled with the plant's script, the lead, the joined instructions and the closing; its layout is stated by `FullScriptFrame` |
| GenerateAudio.FullScriptFrame | app/api/generate-audio/route.ts:61-65 | the composed script is the plant's script, then " Instrucciones adicionales: " after the template's line breaks, then the joined instructions, then the final "." and the return-to-present sentence, and nothing else |
| GenerateAudio.ValidRequest | app/api/generate-audio/route.ts:7 | the negation of the guard: a truthy plant and a present, non-empty characteristics list; `Prepare` answers 400 exactly when it fails |
| GenerateAudio.VoiceId | app/api/generate-audio/route.ts:69 | the configured voice id when it is non-empty, else the default; never empty |
| GenerateAudio.Prepare | app/api/generate-audio/route.ts:5-73 | the handler's checks in order: a body that fails to parse gives 500; 400 "required" exactly for a body failing validation; an unknown plant gives the generic 500; a missing key gives the "not configured" 500; the call to the service happens exactly when all pass, and it carries the composed script, the voice id and the key |
| GenerateAudio.Finish | app/api/generate-audio/route.ts:94-108 | a failed service call gives the generic 500 without the upstream status; success gives 200 with the service's bytes unchanged, `audio/mpeg`, and a `Content-Length` that reads back as their number |
| GenerateAudio.Post | app/api/generate-audio/route.ts:3-110 | the whole handler: the early answers of `Prepare`, else the response `Finish` makes of the service's outcome; its statuses are stated by `StatusCodes`, `NoCallWhenAnsweredEarly` and `SuccessCarriesServiceAudio` |
| GenerateAudio.NoCallWhenAnsweredEarly | app/api/generate-audio/route.ts:7-73 | a response decided before the call does not depend on the service |
| GenerateAudio.StatusCodes | app/api/generate-audio/route.ts:7-108 | 400 exactly for invalid bodies; 200 exactly for a valid body with a known plant, a key and a successful call; every response is 400, 200 or 500 |
| GenerateAudio.SuccessCarriesServiceAudio | app/api/generate-audio/route.ts:98-105 | an audio response means all checks passed and carries exactly what the service returned for the composed request, with its length as `Content-Length` |
| GenerateAudio.CeiboAlwaysFails | app/api/generate-audio/route.ts:56-65 | a valid request for "ceibo" ends in the generic 500 whatever the environment and the service do |
| ScriptTemplate.TemplateFrame | app/api/generate-audio/route.ts:61-65 | the template literal's four pieces each stand in their own slice, in order, and nothing else; `FullScriptFrame` applies it to the endpoint's lead and closing |
| ScriptTemplate.TemplatePieceAt | app/api/generate-audio/route.ts:61-65 | a piece of the joined instructions stands at the same offset after the script and the lead in the composed script |
| Text.Join | app/api/generate-audio/route.ts:59 | `Array.prototype.join`: the parts in order with the separator between neighbours; stated by `JoinLength`, `JoinPart` and `JoinSeparator` |
| Text.JoinLength | app/api/generate-audio/route.ts:57-59 | a join of n parts is their total length plus n - 1 separators |
| Text.JoinPart | app/api/generate-audio/route.ts:57-59 | part i of a join appears at its offset, so the parts appear in order |
| Text.JoinSeparator | app/api/generate-audio/route.ts:57-59 | between part i and part i + 1 of a join stands exactly the separator |
| Text.DecimalString | components/audio-modal.tsx:176-178 | `toString` of a non-negative integer: at least one digit, a single digit exactly below 10, no leading zero |
| Text.DecimalRoundTrip | app/api/generate-audio/route.ts:103 | reading a rendered number back gives the number |
| Text.PadStart | components/audio-modal.tsx:178 | `padStart` reaches the width, ends with the input and fills only in front |
| Media.SliderVolume | components/audio-modal.tsx:184 | the slider value v as element volume v / 100, within [0, 1] |
| Clock.FormatTime | components/audio-modal.tsx:175-179 | the clock has at least four characters with the colon third from the end |
| Clock.ClockFields | components/audio-modal.tsx:176-177 | the minutes field is non-negative, the seconds field lies in [0, 59], and minutes * 60 + seconds is the whole number of seconds |
| Clock.TwoDigits | components/audio-modal.tsx:178 | the seconds field pads to exactly two digits, tens then units |
| Clock.FormatTimeOf | components/audio-modal.tsx:175-179 | with known fields, the clock is the minutes, a colon and the two digits of the seconds |
| Clock.FormatTimeReadsBack | components/audio-modal.tsx:175-179 | reading the clock back gives the quotient and remainder by 60 of the whole seconds: only the fraction is lost |
| Clock.ProgressPercent | app/meditation/page.tsx:155 | the width times the duration is the position times 100, and it lies in [0, 100] while the position is within the duration |
| AudioModal.Labels | components/audio-modal.tsx:196-197 | one label per selected id, in selection order |
| AudioModal.CharacteristicNames | components/audio-modal.tsx:196-198 | the labels joined with `", "`; when it is empty is stated by `AdaptedLineShown` |
| AudioModal.AdaptedLineShown | components/audio-modal.tsx:196-228 | the "Adaptado para:" line shows exactly for two or more ids, or for one id with a label |
| AudioModal.AvatarIdsWithoutLabel | components/audio-modal.tsx:47-58 | the four ids the avatar page uses for gratitude, compassion, joy and hope have no label; `["sad", "joy"]` shows "Triste, " and `["hope"]` shows nothing |
| AudioModal.VisiblePanel | components/audio-modal.tsx:233-271 | the loading, error and controls panels each show exactly under their markup condition, so exactly one shows |
| AudioModal.ProgressWidth | components/audio-modal.tsx:283 | 0 before the duration is known; otherwise position / duration * 100, within [0, 100] while the position is within the duration |
| AudioModal.BackgroundLevel | components/audio-modal.tsx:187-191 | the background level is v / 100 while loading and 3v / 1000 afterwards, within [0, 1] |
| AudioModal.DefaultLevels | components/audio-modal.tsx:83-99 | at the initial slider value 80 the background plays at 0.8 while loading and 0.24 afterwards |
| AudioModal.Controller.Panel | components/audio-modal.tsx:271 | the controls show exactly when not loading and with no error from the caller or from playback |
| AudioModal.Controller.constructor | components/audio-modal.tsx:60-75 | the dialog mounts closed and idle at slider value 80, with a fresh background element exactly when the plant is in the table |
| AudioModal.Controller.Open | components/audio-modal.tsx:77-81 | opening clears a previous playback error |
| AudioModal.Controller.Close | components/audio-modal.tsx:126-139 | closing stops playback, zeroes the clock, and pauses and rewinds both tracks with their volumes kept |
| AudioModal.Controller.StartLoading | components/audio-modal.tsx:83-88 | loading sets the background to the slider level and plays it |
| AudioModal.Controller.Resolve | components/audio-modal.tsx:90-99 | a new URL gives a fresh or reloaded narration at position 0; then, when loading ended or the URL changed, the narration plays, `isPlaying` is set and the background is ducked to 30% and plays; otherwise the narration, the flag and the background stay as they were; a failure keeps the old URL |
| AudioModal.Controller.TogglePlayPause | components/audio-modal.tsx:141-158 | without a narration nothing changes; otherwise the flag flips and both tracks pause or play together |
| AudioModal.Controller.Restart | components/audio-modal.tsx:160-173 | both tracks rewind and play, the clock is 0 and `isPlaying` is set; volumes are unchanged |
| AudioModal.Controller.SetVolume | components/audio-modal.tsx:181-193 | the narration goes to v / 100 and the background to the ducking level of the current phase |
| AudioModal.Controller.TimeUpdate | components/audio-modal.tsx:105 | the clock shows the narration's position |
| AudioModal.Controller.LoadedMetadata | components/audio-modal.tsx:107 | the duration becomes the narration's length |
| AudioModal.Controller.Ended | components/audio-modal.tsx:106 | the narration stops and `isPlaying` is cleared |
| AudioModal.Controller.MediaError | components/audio-modal.tsx:108-111 | a playback error sets `hasError`, clears `isPlaying` and hides the controls |
| AudioModal.FailedGenerationAfterSession | app/avatar/page.tsx:164-170 | a failed generation after an earlier session (loading ends and the dialog closes in one update, so the end-of-loading effect and the close effect run back to back): nothing plays, both tracks are paused, and the background is left at the ducked level 0.24 |
| AudioModal.FailedFirstGeneration | app/avatar/page.tsx:164-170 | a failed first generation: no narration, the background paused and rewound at the loading level 0.8 |
| AvatarPage.RemoveAll | app/avatar/page.tsx:109 | the filtered list lacks the id, keeps every other member, and is shorter when the id was there |
| AvatarPage.RemoveAllNoDup | app/avatar/page.tsx:109 | filtering keeps a list free of repeats |
| AvatarPage.RemoveAllAt | app/avatar/page.tsx:107-109 | in a list without repeats, filtering an id out cuts exactly its one place |
| AvatarPage.Toggle | app/avatar/page.tsx:105-118 | a selected id is removed; an unselected one is appended while fewer than two are selected; otherwise nothing changes |
| AvatarPage.ToggleRemovesInPlace | app/avatar/page.tsx:107-109 | deselecting keeps the other ids in their order |
| AvatarPage.TogglePreservesSelection | app/avatar/page.tsx:105-118 | every toggle keeps at most two ids, none twice |
| AvatarPage.ClicksKeepSelection | app/avatar/page.tsx:96-118 | from the empty selection, any sequence of clicks keeps at most two ids, none twice |
| AvatarPage.ToggleTwice | app/avatar/page.tsx:105-114 | adding an id and toggling it again restores the selection |
| AvatarPage.Disabled | app/avatar/page.tsx:235 | a characteristic button is disabled when two are selected and it is not one of them; `DisabledExactlyWhenNoEffect` states what that means |
| AvatarPage.DisabledExactlyWhenNoEffect | app/avatar/page.tsx:235 | a button is disabled exactly when a click on it would change nothing |
| AvatarPage.CanProceed | app/avatar/page.tsx:126 | a truthy plant and at least one characteristic; `StartMeditation` sends a request exactly when it holds |
| AvatarPage.SentRequestsAreValid | app/avatar/page.tsx:126-154 | every request the page sends passes the endpoint's validation |
| AvatarPage.OfferedPlantsAgainstEndpoint | app/avatar/page.tsx:13-79 | of the offered plants, exactly "ceibo" is missing from the endpoint's table |
| AvatarPage.OfferedCharacteristicsAgainstEndpoint | app/avatar/page.tsx:81-92 | of the offered characteristics, exactly gratitude, compassion, joy and hope have no instruction at the endpoint |
| AvatarPage.Page.constructor | app/avatar/page.tsx:95-103 | nothing selected, nothing generating, no dialog, no error toasts |
| AvatarPage.Page.SelectPlant | app/avatar/page.tsx:197 | a click on a plant card selects it |
| AvatarPage.Page.ToggleCharacteristic | app/avatar/page.tsx:234 | a click on a characteristic applies `Toggle` and keeps the selection valid |
| AvatarPage.Page.StartMeditation | app/avatar/page.tsx:128-154 | the plant is checked first and only its toast raised; then the characteristics, with only theirs; a request goes out, with generating and dialog on, exactly when `canProceed` holds, and it is valid for the endpoint |
| AvatarPage.Page.Settle | app/avatar/page.tsx:156-170 | generating ends either way; success stores the URL; failure closes the dialog and keeps the previous URL |
| AvatarPage.Page.CloseModal | app/avatar/page.tsx:290 | the dialog closes |
| MeditationPage.SessionClocks | app/meditation/page.tsx:10-32 | the three sessions show "5:00", "10:00" and "8:00" on their cards |
| MeditationPage.SessionProgress | app/meditation/page.tsx:155 | every session has a positive duration, so the width needs no guard; it lies in [0, 100] while the position is within the duration |
| MeditationPage.Player.constructor | app/meditation/page.tsx:35-39 | the first session, not playing, clock at 0, slider at 80, a fresh element |
| MeditationPage.Player.TogglePlayPause | app/meditation/page.tsx:57-67 | the flag flips and the element plays or pauses accordingly |
| MeditationPage.Player.ResetAudioAsWritten | app/meditation/page.tsx:69-76 | the clock and the element go back to 0 and the flag is cleared, but a playing element is left playing |
| MeditationPage.Player.ResetAudio | app/meditation/page.tsx:69-76 | back to 0, flag cleared and element paused, so button and element agree |
| MeditationPage.Player.SelectSession | app/meditation/page.tsx:116-119 | the session is selected and the player reset with the page's `resetAudio`: position 0 and the flag cleared, but a playing element plays on |
| MeditationPage.Player.SelectSessionCorrected | app/meditation/page.tsx:116-119 | a card click with the corrected reset: position 0, not playing, element paused |
| MeditationPage.Player.SetVolume | app/meditation/page.tsx:84-89 | the value is stored and the element set to v / 100 |
| MeditationPage.Player.TimeUpdate | app/meditation/page.tsx:45 | the clock shows the element's position |
| MeditationPage.Player.Ended | app/meditation/page.tsx:46 | the element stops and the flag is cleared |
| MeditationPage.ResetWhilePlaying | app/meditation/page.tsx:57-76 | play, then the page's reset: the button offers "play" while the recording still sounds |
| MeditationPage.ResetWhilePlayingCorrected | app/meditation/page.tsx:69-76 | play, then the corrected reset: nothing sounds and the button offers "play" |
| MeditationPage.SelectWhilePlaying | app/meditation/page.tsx:116-119 | play, then pick another card: the button offers "play" while the recording still sounds |
| MeditationPage.SelectWhilePlayingCorrected | app/meditation/page.tsx:116-119 | play, then pick another card with the corrected reset: nothing sounds |

## Left out

- The network and the platform. The call to the speech service, the page's
  `fetch` of the endpoint, `response.blob()`, `URL.createObjectURL`,
  `process.env` and `request.json()` are not modelled. They appear as
  parameters: `tts`, `Env`, `RequestBody.Unparseable`, and the outcome passed
  to `Page.Settle` and `Controller.Resolve`.
- The exact request headers and the JSON encoding of the request body. The
  model keeps their content as fields of `TtsRequest`.
- GenerateAudio.StatusCodes: stated over the modelled body shapes only; other
  JSON shapes are left out. `RequestBody` holds a string plant and an array of
  string characteristics, or a body that does not parse. A JSON
  `null` body makes the destructuring throw, which gives 500. A
  `characteristics` that is a non-empty string or another truthy non-array
  passes the guard and makes `.map` throw, which gives 500. A plant that is
  not a string is not modelled either.
- The HTML audio element's internals: `play()` promises, decoding, buffering
  and the rate of `timeupdate`. Their effects arrive as events.
- JavaScript floating point. Volumes and progress are exact reals, with no
  claim of IEEE equivalence.
- React scheduling, state batching and effect dependencies. Each effect is an
  explicit event method. Radix dialog content that unmounts on close, and
  would make a new narration element when reopened, is not modelled. The
  controller keeps its elements.
- A change of the dialog's `selectedPlant` prop while it is mounted. The plant
  of a `Controller` is fixed, which the page ensures while the dialog is open.
- Overlapping generation requests and results that arrive after the dialog
  closed. The code has no guard against either.
- The three-second timers that hide the error toasts, and the failure
  `alert`.
- The meditation page's `if (!audio) return` in `togglePlayPause` and
  `resetAudio`. The page always renders its element, so the player always has
  a track.
- Clock.FormatTime: defined for non-negative input only. Both players pass
  positions and durations, which are never negative. NaN and Infinity are
  not modelled.
- Keys such as `constructor` that a JavaScript object inherits. The lookup
  tables are modelled as exactly their listed keys.
- The plant image and names shown in the dialog, and the quote card. They are
  display only.
- components/plant-info-modal.tsx and app/page.tsx are not part of this model.
  They are display only.

## Findings

| source | as written | input that shows it | evidently intended | confidence | as-written member | corrected member |
|---|---|---|---|---|---|---|
| app/meditation/page.tsx:69-76 | `resetAudio` rewinds the element and clears `isPlaying` but never pauses the element | press play, then reset | the element is paused too, so that the "play" button is not shown over a recording that keeps sounding | medium, not executed | MeditationPage.Player.ResetAudioAsWritten | MeditationPage.Player.ResetAudio |
| app/meditation/page.tsx:116-119 | a session card calls the same `resetAudio`, so picking a card while a session plays leaves the recording sounding from the start | press play, then pick another session card | the card stops the recording as well as selecting the session | medium, not executed | MeditationPage.Player.SelectSession | MeditationPage.Player.SelectSessionCorrected |
