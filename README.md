# Birthday cake: blow detection, candle layout and session updates

A Dafny model of the logic inside a birthday-cake web page (a Next.js/React app). The user
picks a cake and candles, then blows into the microphone to put the candles out. The model
covers five small pieces:

- **Band-energy blow detector** (`utils/blowDetection.ts`). It takes one frequency snapshot.
  It sums a low band and a mid band and averages each over its width. A frame is a blow when
  the low average is above the threshold and the mid average is below `lowAverage * midHighRatio`.
  A counter held in a caller-owned state object goes up by one on each blow frame and back to 0
  otherwise. The candles go out once the counter exceeds `blowRequiredDuration`.
  `BlowDetection.BlowDetectionState` is that state object, and its method `DetectBlow` runs the
  two summing loops as the source does. The pure `Detect` specifies it, and the lemmas are
  about `Detect`.
- **The page's own per-frame check** (`App.tsx`, `checkBlow`). It averages the first 20 bins,
  compares the average with 0.35, and puts the candles out on the 7th loud frame in a row,
  at which point it stops scheduling frames. It also reads the language from the URL hash
  and handles hash changes. `App.Page` holds the page's mutable parts. `App.FrameStep`
  specifies one frame and `App.RunFrames` a running loop.
- **Candle layout** (`components/CakeScene.tsx`). It picks the cake geometry: an id with the
  `custom-` prefix gets the fixed geometry (40, 50), any other id gets the matching built-in
  cake or else the first one. It then places either classic candles around an ellipse or one
  candle per digit.
- **Session store** (`store/useAppStore.ts`). It has a default record, a shallow-merge update
  and a full reset.
- **Control-panel payloads** (`components/Controls.tsx`). These are the digit sanitiser, the
  custom-cake upload, the relight button and the right-to-left flag.

The source's `undefined`, NaN and JavaScript built-ins are written out where they matter:

- `Text.ReplaceFirst` is `String.prototype.replace` with a string pattern. Only the first
  occurrence is removed.
- `Text.Decimal` is how a template literal prints a non-negative integer.
- `BlowDetection.Number` is a finite number or NaN. NaN is what a summing loop yields when it
  reads a typed array at a negative index.

Thresholds and averages are `real`.

Points where the code behaves in a way worth noting:

- Classic candles sit on one ellipse, with `Math.random` noise on each x position. There are
  no rings and there is no deterministic jitter.
- The degenerate-band guard in `detectBlow` catches a width of exactly 0 only. A band that
  starts past its end has a negative width and is classified as usual
  (`BlowDetection.NegativeWidthIsClassified`).
- Relighting does not reset the consecutive-frame count (see Findings). The count belongs to
  one listening session: relighting changes `state.isExtinguished`, so `initMic` is rebuilt
  and the effect at App.tsx:94-97 starts a new session. A count carried over from the
  previous session is evidently not meant.
- The store's record has three fields that `AppState` lacks: `configCompleted`,
  `blowingProgress` and `giverName`. `Store.StoreState` has all thirteen.

## Model

| member | source | states |
|---|---|---|
| `BlowDetection.BlowDetectionState.DetectBlow` | utils/blowDetection.ts:43-90 | the result and the new `blowDuration` are those of `Detect` on the old counter; the loop index checks show that no bin at or past the snapshot's end is read |
| `BlowDetection.BlowDetectionState.constructor` | utils/blowDetection.ts:32-34 | a fresh detector state starts with its counter at 0 |
| `BlowDetection.Detect` | utils/blowDetection.ts:64-89 | `isExtinguished` implies `isBlowing`; `isBlowing` iff the frame is a blow; a blow adds one to the counter, and it extinguishes iff the new count exceeds `blowRequiredDuration`; a non-blow frame resets the counter to 0, except that a zero-width band leaves it alone |
| `BlowDetection.BandSum` | utils/blowDetection.ts:56-62 | one summing loop, clipped to the snapshot, including the NaN of a read at a negative index; its shape is stated by `BlowDetection.BandSumShape` and `BlowDetection.BandSumConstant` |
| `BlowDetection.Blows` | utils/blowDetection.ts:76-78 | the blow classification; `BlowDetection.Detect` ties the result to it, and `BlowDetection.SilenceNeverBlows` and `BlowDetection.LoudBreathBlows` decide it for silence and for a loud low band |
| `BlowDetection.BandSumShape` | utils/blowDetection.ts:56-62 | for a band that ends inside the snapshot, the sum is NaN iff the band is non-empty and starts below 0 (a typed-array read at a negative index); otherwise it lies between 0 and 255 per bin |
| `BlowDetection.BandSumConstant` | utils/blowDetection.ts:56-62 | a band whose bins all hold `k` sums to `k` times its width |
| `BlowDetection.ZeroWidthIsInert` | utils/blowDetection.ts:64-70 | if either band width is 0, the result is `{false, false}` and the counter is unchanged |
| `BlowDetection.NegativeWidthIsClassified` | utils/blowDetection.ts:64-70 | a low band that starts past `min(length, lowFreqEnd)` has a negative width and a zero sum, so the zero-width guard does not catch it; with both widths negative and a negative threshold the frame is classified as a non-blow, which resets the counter to 0 where the guard would have kept it |
| `BlowDetection.BlowFrameCounts` | utils/blowDetection.ts:80-85 | a blow frame increases the counter by exactly 1 and reports blowing |
| `BlowDetection.NonBlowFrameResets` | utils/blowDetection.ts:86-89 | a non-blow frame with non-zero band widths sets the counter to 0 and reports both flags false, whatever the prior count |
| `BlowDetection.SilenceNeverBlows` | utils/blowDetection.ts:76-78 | an all-zero snapshot is never a blow when the threshold is not negative |
| `BlowDetection.Debounce` | utils/blowDetection.ts:80-85 | over consecutive blow frames from counter `d`, frame `j` reports blowing, and it reports extinguished iff `d + j + 1 > blowRequiredDuration` |
| `BlowDetection.DefaultDebounce` | utils/blowDetection.ts:15-23 | with the default configuration and a counter starting at 0, frames 1 to 20 of a blow leave the candles lit, and frame 21 onward extinguishes them |
| `BlowDetection.LoudBreathBlows` | utils/blowDetection.ts:72-78 | every 128-bin snapshot with full-scale bins 0-29 and silent bins 50-127 is a blow under the default configuration (low average 1, mid average 0) |
| `Spectrum.Sum` | App.tsx:70-71 | a sum of byte magnitudes lies between 0 and 255 per bin |
| `Session.ParseLanguage` | App.tsx:12-13 | a hash payload is recognised iff it is the code of one of the five languages, and the language it yields has that code |
| `Session.ParseLanguageOfCode` | App.tsx:12-13 | every language code parses back to its language |
| `Session.Merge` | App.tsx:28 | `{...prev, ...updates}` gives every field named in the update the update's value, and every other field keeps its value |
| `Session.MergeUnique` | App.tsx:28 | that field-by-field description determines the merge: any record satisfying it is the merge |
| `Session.MergeNoChange` | App.tsx:28 | merging `{}` is the identity |
| `Session.MergeIdempotent` | App.tsx:28 | merging the same update twice equals merging it once |
| `Session.MergeThen` | App.tsx:28 | two successive updates equal one update in which the later payload's fields win |
| `Text.IndexOfFrom` | App.tsx:11 | the index found is the first occurrence of the pattern at or after the start; none is found iff there is no occurrence |
| `Text.ReplaceFirst` | App.tsx:11 | a string without an occurrence of the pattern is returned unchanged; otherwise the first occurrence, and only it, is replaced: `s[..i] + rep + s[i + |pat|..]` for the first index `i` where the pattern occurs |
| `App.HashPayload` | App.tsx:11 | the hash with its first "#/" removed, and the hash itself when it has none (the same expression is at App.tsx:37) |
| `Text.ReplaceFirstOfPrefixed` | App.tsx:11 | removing the first "#/" from "#/" + `x` gives `x` |
| `Text.Decimal` | components/CakeScene.tsx:42 | the numeral is a non-empty string of digits without a leading zero |
| `Text.ParseDecimalOfDecimal` | components/CakeScene.tsx:42 | reading a numeral back gives the number it prints |
| `Text.DecimalInjective` | components/CakeScene.tsx:42 | distinct numbers print as distinct numerals |
| `App.InitialLanguage` | App.tsx:11-13 | the initial language is the one the hash names after the first "#/" is removed; if the hash names none, it is English |
| `App.InitialState` | App.tsx:14-25 | the page starts with that language, the strawberry cake, one classic candle, digits "23", lit, not blowing, no custom cakes and empty texts |
| `App.HashChange` | App.tsx:36-42 | an unrecognised hash leaves the state unchanged; a recognised one changes `lang` only, to that language |
| `App.ChangeLanguageRoundTrip` | App.tsx:47-50 | the hash written by `changeLanguage(l)` reads back as `l` at start-up, and the hash-change event it fires leaves the already-merged state unchanged |
| `App.FirstBinsAverage` | App.tsx:70-72 | the first-20-bin average lies in [0, 1] |
| `App.FrameStep` | App.tsx:67-87 | with no analyser, or with the candles already out, nothing changes and no frame is scheduled; otherwise a loud frame adds 1 to the counter and a quiet one resets it to 0; the candles go out iff the frame is loud and the new count exceeds 6, and then blowing is false and nothing more is scheduled; only `isBlowing` and `isExtinguished` change |
| `App.OnlyFirstBinsMatter` | App.tsx:71-72 | bins at index 20 and above never influence a step |
| `App.RunFrames` | App.tsx:67-88 | the self-rescheduling loop: a stopped loop stays as it is; only `isBlowing` and `isExtinguished` ever change; once the candles are out nothing changes; a loop that took a step and is still scheduled has the candles lit |
| `App.LoudStreak` | App.tsx:74-81 | a streak of loud frames from counter `d` counts up one per frame; the candles stay lit and blowing until the count reaches 7, when they go out, blowing stops and the loop ends |
| `App.SeventhLoudFrameExtinguishes` | App.tsx:77-80 | from a reset counter, one to six loud frames leave the candles lit; the 7th puts them out and stops the loop |
| `App.QuietFrameResets` | App.tsx:82-84 | a quiet frame resets the counter, clears `isBlowing` and schedules the next frame |
| `App.ExtinguishedIsFinal` | App.tsx:68 | once extinguished, the loop performs no further step and the state and counter stay as they are |
| `App.RelightAsWritten` | components/Controls.tsx:187 | relighting as written: `isExtinguished` becomes false, nothing else in the state changes, and the counter keeps its value |
| `App.RelightCorrected` | components/Controls.tsx:187 | the corrected relight: the same state change, with the counter reset to 0 |
| `App.RelightAsWrittenRefiresAtOnce` | App.tsx:74-81 | with relighting as written, the counter is still 7 after the candles go out, so if the first frame after relighting is loud, it puts them out again |
| `App.RelightAsWrittenQuietStart` | App.tsx:82-84 | with relighting as written, a quiet first frame after relighting resets the stale counter to 0, and six loud frames after it leave the candles lit |
| `App.RelightCorrectedRestartsDebounce` | App.tsx:74-81 | with the counter reset on relight, the restarted loop again needs seven loud frames |
| `App.Page.constructor` | App.tsx:10-33 | a new page has the initial state for its hash, a counter at 0 and no analyser |
| `App.Page.UpdateState` | App.tsx:28 | the state becomes the merge of the old state with the update; nothing else changes |
| `App.Page.HandleHashChange` | App.tsx:36-42 | the state becomes `HashChange` of the old state and the current hash |
| `App.Page.ChangeLanguage` | App.tsx:47-50 | the hash becomes "#/" + code and `lang` becomes `l` |
| `App.Page.InitMic` | App.tsx:52-66 | listening starts iff the candles are lit and access is granted; the state is untouched |
| `App.Page.CheckBlow` | App.tsx:67-87 | counter, state and the reschedule decision are those of `FrameStep` on the old values |
| `App.Page.Relight` | components/Controls.tsx:187 | the relight payload is merged and the counter is reset to 0 (the corrected relight) |
| `CakeScene.FindCake` | components/CakeScene.tsx:21 | the cake found has the id and is the first entry with it; none is found iff no entry has the id |
| `CakeScene.SelectCake` | components/CakeScene.tsx:11-22 | an id with the "custom-" prefix selects a custom cake with geometry (40, 50); any other id selects the matching built-in cake, or the first built-in cake if none matches |
| `CakeScene.CustomCakeImage` | components/CakeScene.tsx:12-19 | a stored custom id shows the image stored under it |
| `CakeScene.ClassicCount` | components/CakeScene.tsx:29 | the count is `candleCount` clamped to [1, 100] |
| `CakeScene.ClusterFactor` | components/CakeScene.tsx:32 | for a count of at least 1, the cluster factor lies in [0.4, 1] and equals 1 iff the count is at least 7 |
| `CakeScene.ClassicCandle` | components/CakeScene.tsx:37-42 | one classic placement; its id and empty label are stated by `CakeScene.ClassicLayout` and its position bounds by `CakeScene.ClassicCandleBounds` |
| `CakeScene.ClassicCandles` | components/CakeScene.tsx:35-43 | classic mode yields exactly the clamped count of placements |
| `CakeScene.ClassicLayout` | components/CakeScene.tsx:29-43 | placement `i` has id "c-" + `i`; ids are pairwise distinct; all labels are empty |
| `CakeScene.ClassicBounds` | components/CakeScene.tsx:32-42 | with cosines and sines in [-1, 1] and random draws in [0, 1), every classic candle lies within one unit sideways of the ellipse of half-width `baseWidth * clusterFactor / 2` and within 8 vertically of `baseY` |
| `CakeScene.ClassicCandleBounds` | components/CakeScene.tsx:37-42 | the same bounds for one candle, from the ranges of the three values it draws |
| `CakeScene.NumberedIdsDistinct` | components/CakeScene.tsx:42 | ids built as prefix + index differ for different indices |
| `CakeScene.EffectiveDigits` | components/CakeScene.tsx:45 | a non-empty digit string is used as it is, and the empty string becomes "0", so the string used is never empty |
| `CakeScene.DigitX` | components/CakeScene.tsx:47 | the x position of digit `i`; its symmetry about 50 and its step of 12 are stated by `CakeScene.DigitSpacing` |
| `CakeScene.DigitCandles` | components/CakeScene.tsx:46-49 | digit mode yields one placement per character of the digit string used |
| `CakeScene.DigitLayout` | components/CakeScene.tsx:45-49 | placement `i` has id "d-" + `i`, label `D[i]` and `y = baseY`; ids are distinct; reading the labels in order gives back the digit string used, which is the state's digit string whenever that is non-empty |
| `CakeScene.DigitSpacing` | components/CakeScene.tsx:47 | `x_i + x_(L-1-i) = 100`, and adjacent candles are exactly 12 apart |
| `CakeScene.EmptyDigitsShowZero` | components/CakeScene.tsx:45-48 | an empty digit string shows a single candle "0" at x = 50 |
| `CakeScene.TwoDigitExample` | components/CakeScene.tsx:46-48 | digits "23" at base 40 give "2" at x 44, then "3" at x 56 |
| `CakeScene.DigitModeOnBaseLine` | components/CakeScene.tsx:24-50 | in digit mode every candle stands on the selected cake's `candleBaseY` |
| `CakeScene.Candles` | components/CakeScene.tsx:24-51 | classic mode gives the clamped count of candles, and digit mode one candle per character of the digit string used |
| `Controls.IsRtl` | components/Controls.tsx:14 | right-to-left iff the language code is "ar" |
| `Controls.SanitizeDigits` | components/Controls.tsx:137 | the output has only '0'..'9', is a subsequence of the input, and holds every digit as many times as the input does (so it is exactly the input's digits, in order) |
| `Controls.SanitizeKeepsDigitStrings` | components/Controls.tsx:137 | a string of digits is unchanged |
| `Controls.SanitizeIdempotent` | components/Controls.tsx:137 | sanitising twice equals sanitising once |
| `Controls.DigitsPatch` | components/Controls.tsx:137 | the digit field's payload names `digits` alone, and holds the sanitised input |
| `Controls.DigitsPatchEffect` | components/Controls.tsx:137 | typing in the digit field changes only `digits`, to the sanitised input |
| `Controls.CustomCakeId` | components/Controls.tsx:22 | a new custom id starts with "custom-", the prefix that the scene tests |
| `Controls.HandleFile` | components/Controls.tsx:17-29 | there is no payload iff the file type does not start with "image/" |
| `Controls.IsImage` | components/Controls.tsx:18 | the file-type test; `Controls.HandleFile` states that it alone decides whether a payload is built |
| `Controls.UploadSelectsCustomCake` | components/Controls.tsx:22-26 | the upload stores the data URL under the new id and keeps every other entry; it selects the new id and changes no other field; the scene then shows that image with the custom geometry (40, 50) |
| `Controls.NonImageIgnored` | components/Controls.tsx:18 | a file that is not an image produces no state change |
| `Controls.RelightEffect` | components/Controls.tsx:187 | the relight payload (the constant `Controls.RelightPatch`) changes only `isExtinguished`, to false |
| `Store.DefaultState` | store/useAppStore.ts:10-24 | the default record has the given language, the strawberry cake, classic candles, 18 candles, digits "18", is lit and not blowing, has configuration not completed, progress 0, no custom cakes and empty names and message |
| `Store.ResetState` | store/useAppStore.ts:31 | a reset gives exactly the default record for `l`, whatever the prior state (so `lang = l`, 18 candles, digits "18", lit, no custom cakes, and every other default) |
| `Store.ResetToEnglishRestoresInitial` | store/useAppStore.ts:27-31 | resetting to English restores the contents the store is created with |
| `Store.ResetIndependentAndIdempotent` | store/useAppStore.ts:31 | the result of a reset does not depend on the prior state, and resetting twice equals resetting once |
| `Store.UpdateState` | store/useAppStore.ts:29 | after an update every named field holds the update's value, and every other field keeps its value |
| `Store.UpdateUnique` | store/useAppStore.ts:29 | that field-by-field description determines the update: any record satisfying it is the updated record |
| `Store.UpdateEmptyIsIdentity` | store/useAppStore.ts:29 | `updateState({})` is the identity |
| `Store.UpdateIdempotent` | store/useAppStore.ts:29 | updating twice with the same payload equals updating once |
| `Store.FromAppPatch` | store/useAppStore.ts:5 | a `Partial<AppState>` payload names none of the three store-only fields |
| `Store.UpdateAgreesWithMerge` | store/useAppStore.ts:29 | on the `AppState` fields a store update is the page's merge, and the store-only fields are kept |

## Findings

| source | as written | input that shows it | evidently intended | confidence | as-written member | corrected member |
|---|---|---|---|---|---|---|
| App.tsx:74-84 | relighting (components/Controls.tsx:187) only sets `isExtinguished` to false; `blowDurationRef.current` is reset only by a quiet frame (App.tsx:83), so it is still 7 when the restarted loop begins | seven loud frames put the candles out; press relight; if the first frame of the new session is loud, it puts them out again at once (a quiet first frame resets the count instead, and the restarted loop reads its first frame right after the analyser is connected, App.tsx:60, :88, where silence is likely, which can hide the defect) | relighting resets the consecutive-frame counter to 0, so a new session again needs seven loud frames | not executed; follows from the code, visible only when the first frame after relighting is loud | `App.RelightAsWrittenRefiresAtOnce` | `App.RelightCorrectedRestartsDebounce` |

## Left out

- Microphone and Web Audio plumbing are not modelled, because they are foreign calls. This
  covers `getUserMedia`, `AudioContext`, the analyser graph, `getByteFrequencyData` and
  `requestAnimationFrame` (App.tsx:54-62, :69, :86). It also covers `audioContext.close()` and
  `cleanupAudioResources` (App.tsx:79, :96; utils/blowDetection.ts:48-50, :96-100). A snapshot
  parameter replaces each analyser read. Whether access is granted is a parameter of
  `App.Page.InitMic`. Whether a frame is scheduled is an output of `App.FrameStep`.
- Floating point is not modelled: thresholds, averages and positions are exact reals. IEEE
  rounding and `-0` are left out. NaN is modelled only where the detector can produce it.
- Fractional band bounds in the detector configuration are not modelled, because the model
  uses integer bounds.
- React closures and batching are not modelled, because they are scheduling rather than logic:
  - `checkBlow` reads `state.isExtinguished` as captured when `initMic` ran. The model reads
    the current state. The two agree because only `checkBlow` itself sets the flag to true,
    and it stops the loop when it does.
  - The two `updateState` calls of one frame are applied in sequence (`Session.MergeThen`).
- Classic-mode positions: `Math.cos`, `Math.sin` and `Math.random` are passed in as the
  `CakeScene.MathOracle` parameter, because Dafny has no trigonometry or randomness. The bounds
  in `CakeScene.ClassicBounds` hold only for a well-behaved oracle. The z-index styling
  (components/CakeScene.tsx:87) is presentation, so it is left out.
- `FileReader`, `Date.now()` and clipboard pasting are browser behaviour, so they are left out
  (components/Controls.tsx:19-21, :28, :31-36). The data URL and the clock reading are
  parameters of `Controls.HandleFile`.
- The HTML `maxLength` and slider bounds (components/Controls.tsx:122-124, :136) and `parseInt`
  of the slider value are browser behaviour, so they are left out.
- The one-field payloads of the other controls have no members of their own, because
  `Session.Merge` already covers what they do. These are the built-in and custom cake
  buttons, the candle-type buttons, the count slider and the name and message fields
  (components/Controls.tsx:67, :83, :101, :107, :126, :155, :167).
- The mobile "configuration complete" button (components/Controls.tsx:177) only dispatches a
  window event, so it is left out as browser plumbing.
- An update payload that carries a field explicitly set to `undefined` is not modelled: in the
  model a field is either absent or carries a value.
- Strings are sequences of characters, while JavaScript's `digits.split('')`
  (components/CakeScene.tsx:46) splits into UTF-16 code units. A character outside the Basic
  Multilingual Plane would make one candle in the model and two in the browser. The digit
  sanitiser lets only '0' to '9' through, so no such character reaches the layout from the
  digit field.
- zustand's `create` wrapper is library code, so it is left out. `Store.Initial` is the
  state the store starts with (`Store.ResetToEnglishRestoresInitial`).
- Other parts are not modelled because they hold no logic to verify: the confetti animation
  (components/Celebrate.tsx), the SVG artwork in constants.tsx (only the `CAKES` ids and
  geometry at constants.tsx:137-166 are used), the translation table (i18n.ts), routing and
  metadata (app/), and the styling configuration. The variant of the blow loop in
  app/[lang]/ClientPage.tsx is not part of this model.
