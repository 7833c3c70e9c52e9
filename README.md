# Sticker generator client: history log, page handlers and form rules

This project models the client-side logic of a single-page sticker, animation
and video generator and proves properties of it in Dafny.

The model covers three things.

- **The history log** (`Api`, `api.dfy`). It is a newest-first list of at most
  twenty items, stored under the fixed key `sticker-generator-history` in the
  browser's key-value store. The store is a class `LocalStorage` holding a
  `map<string, Stored>`. `Stored` says what reading the history gives for a
  stored string: `Empty` (the empty string), `Valid(items)` (a serialised
  list) or `Malformed` (anything that does not parse or is not a list).
  `GetHistory`, `AddToHistory` and `ClearHistory` follow `getHistory`,
  `addToHistory` and `clearHistory`. The fresh id and the current time are
  parameters.
- **The page** (`IndexPage`, `index_page.dfy`). The class `Index` has the
  page's state fields (`activeTab`, `isLoading`, `loadingMessage`,
  `previewUrl`, `previewType`, `currentBlob`, `taskId`, `history`). It also
  has an `effects` log of the remote calls it issues and the downloads it
  hands to the browser, and it shares the `LocalStorage` with the history
  log. There is one method per handler. Each method takes the settled outcome
  of its remote call (`Success(result)` or `Failure(message)`) as a
  parameter. Each method's postcondition ties the new state to a pure
  function of the old one. The generation handlers are split into `…Started`
  and `GenerationSettled`. This lets lemmas about overlapping calls be
  stated without adding anything the page does not have.
- **The forms** (`StickerForm`, `AnimationForm`, `PremiumVideoForm`,
  `ImageGenerationForm`). Every form shares the submit guard
  `prompt.trim().length >= 3`, modelled once in `Text`. `Text` models
  ECMAScript's exact set of trimmed code points and counts length in UTF-16
  code units. The sticker form keeps its animation within the list its
  generator offers. The animation form keeps its frame count within
  `2..maxFrames` of its generator. Both invariants are stated as `Valid()`
  and kept by every method.

The page has no request token, no cancellation, no per-slot result store and
no automatic fetch of the transparent version. It keeps one shared preview and
one loading flag, every handler writes them when its call completes, and no
`AbortSignal` is passed to any remote call (src/pages/Index.tsx:88, 125, 152,
193). The transparent version is fetched only when the user asks for it.
`IndexPage.LateResultAfterTabChange` and
`IndexPage.EarlierCallEndsLaterLoading` state the consequences.

Some other facts the model records as they are in the code.

- The page passes `onTypeChange={resetPreview}` to the sticker and animation
  forms. The forms do not declare or call that property, so switching a
  generator does not reset the preview.
- `handlePremiumGenerate` ignores the duration.
- The image form is never rendered by the page.
- The page renders `PremiumVideoForm` with only `onGenerate` and `isLoading`
  (src/pages/Index.tsx:230). The form's `prompt`, `setPrompt`, `duration` and
  `setDuration` are then undefined, so its `prompt.trim()` reads an undefined
  value. The premium handler is modelled on its own, as if a prompt reached it.

Each form is modelled on its own terms.

## Model

| member | source | states |
|---|---|---|
| `Text.TrimStart` | src/components/forms/StickerForm.tsx:52 | The result is the suffix left after removing the leading characters. Everything removed is trimmable. The result does not start with a trimmable character. |
| `Text.TrimEnd` | src/components/forms/StickerForm.tsx:52 | The result is the prefix left after removing the trailing characters. Everything removed is trimmable. The result does not end with a trimmable character. |
| `Text.Trim` | src/components/forms/StickerForm.tsx:52 | `trim()` gives a contiguous part of the input. Everything cut off on either side is trimmable. The result neither starts nor ends with a trimmable character. |
| `Text.IsTrimmable` | src/components/forms/StickerForm.tsx:52 | The characters `trim()` removes are ECMAScript's WhiteSpace and LineTerminator code points. Each is a single UTF-16 code unit, and no visible ASCII character is among them. |
| `Text.LongEnough` | src/components/forms/StickerForm.tsx:52 | The shared guard `prompt.trim().length >= 3`. Trimming a prompt first never changes whether it passes. |
| `Text.Utf16Length` | src/components/forms/StickerForm.tsx:52 | `length` counts UTF-16 code units: between one and two units per character in total, and zero only for the empty string. |
| `Text.Utf16LengthOfChar` | src/components/forms/StickerForm.tsx:52 | A single character is one code unit below U+10000 and two (a surrogate pair) from U+10000 on. |
| `Text.Utf16LengthConcat` | src/components/forms/StickerForm.tsx:52 | The code units of a concatenation are the sum of those of its parts, so the length of any prompt is the sum of its characters' units. |
| `Text.TrimEmptyIffBlank` | src/components/forms/StickerForm.tsx:52 | A prompt trims to nothing if and only if all of its characters are trimmable. |
| `Text.TrimIdempotent` | src/components/forms/StickerForm.tsx:52 | Trimming twice gives the same result as trimming once. |
| `Text.BlankIsNotLongEnough` | src/components/forms/StickerForm.tsx:52 | A blank prompt never passes the submit guard. |
| `Text.LongEnoughBounds` | src/components/forms/StickerForm.tsx:52 | Three trimmed characters always pass the guard. Fewer than two never do. |
| `Slider.Values` | src/components/forms/AnimationForm.tsx:99-107 | A slider with bounds `min`..`max` and step 1 reports `min + i` for each `i`, and has `max - min + 1` values. |
| `Slider.OfferedIff` | src/components/forms/AnimationForm.tsx:99-107 | A value is offered if and only if it lies within the bounds. |
| `Api.TaskIdFromHeader` | src/lib/api.ts:199 | The task id is none if and only if the `x-task-id` header is missing or empty. Otherwise it is the header's value. |
| `Api.PremiumVideoResult` | src/lib/api.ts:199-202 | The premium result keeps the blob and URL. It has a task id if and only if the header is non-empty, and then the task id is that header. |
| `Api.Present` | src/pages/Index.tsx:54 | A task id is truthy exactly when it is neither missing nor the empty string. The page sets its task id only then. |
| `Api.Encode` | src/lib/api.ts:249 | Serialising keeps the number of items. |
| `Api.Serialize` | src/lib/api.ts:249 | Writing one item keeps every field and writes the date so that reading the item back gives the item again. |
| `Api.Revive` | src/lib/api.ts:231-234 | Reading one item back keeps the id and task id and turns the stored time value into a date with that time value. |
| `Api.ReviveThenSerialize` | src/lib/api.ts:231-249 | A stored item that is read and then written again comes back unchanged. |
| `Api.GetHistory` | src/lib/api.ts:226-238 | A missing key, an empty string or a malformed value gives `[]`. A stored list gives a list of the same length and order, with the same ids and each date re-wrapped from its time value. Serialising that list again gives exactly what was stored. |
| `Api.ReadAfterWrite` | src/lib/api.ts:228-234 | Reading a history that was just written gives back that history. |
| `Api.NewItem` | src/lib/api.ts:242-246 | The new item has every supplied field unchanged. It adds only the given id and timestamp. |
| `Api.Prepend` | src/lib/api.ts:248 | The length is `min(old + 1, 20)`. The new item is first and the old items follow in order. When the history is full, its last item is dropped. Otherwise nothing is dropped. |
| `Api.AddedStore` | src/lib/api.ts:240-250 | Adding touches only the history key, and every other key keeps its value. Reading the history afterwards gives the new item prepended to what was read before. |
| `Api.ClearedStore` | src/lib/api.ts:252-254 | Clearing removes only the history key, and the history then reads as `[]`. |
| `Api.AddToHistory` | src/lib/api.ts:240-250 | The method leaves the store equal to `AddedStore` of the old store. |
| `Api.ClearHistory` | src/lib/api.ts:252-254 | The method leaves the store equal to `ClearedStore` of the old store. |
| `Api.AddToUnreadableStore` | src/lib/api.ts:241-248 | Adding to a missing, empty or malformed history gives exactly `[newItem]`. |
| `Api.AddAfterClear` | src/lib/api.ts:240-254 | Adding after a clear behaves the same as adding to an empty store. |
| `Api.FreshIdKeepsIdsDistinct` | src/lib/api.ts:244-248 | If the existing ids are distinct and the new id is fresh, the ids are still distinct after adding. |
| `Api.AddedInOrderNewestFirst` | src/lib/api.ts:248 | After any sequence of additions there are `min(old + n, 20)` items. The most recent additions come first, newest first, followed by the earlier history. |
| `Api.TwentyFiveAdditions` | src/lib/api.ts:224-248 | After 25 additions to an empty history it holds 20 items, and its first item is the 25th one added. |
| `StickerForm.GeneratorId` | src/components/forms/StickerForm.tsx:10-21 | The generator id is one of `free`, `replicate` or `gemini`. |
| `StickerForm.GeneratorIdInjective` | src/components/forms/StickerForm.tsx:17-21 | Different generators have different ids. |
| `StickerForm.Animations` | src/components/forms/StickerForm.tsx:23-33 | Replicate offers its own five styles, including `shake` and excluding `float`. The others offer the five free styles, including `float` and excluding `shake`. |
| `StickerForm.DefaultAnimation` | src/components/forms/StickerForm.tsx:69-72 | The style a generator card selects is in that generator's list. |
| `StickerForm.SubmitCall` | src/components/forms/StickerForm.tsx:50-54 | A call is made if and only if the trimmed prompt has at least 3 code units. The call carries the generator, the untrimmed prompt, the animation and the reference image. |
| `StickerForm.EnabledIffSubmits` | src/components/forms/StickerForm.tsx:142-148 | The submit button is enabled if and only if nothing is loading and a submit would call `onGenerate`. |
| `StickerForm.SubmitDisabled` | src/components/forms/StickerForm.tsx:147 | The button is disabled while loading and for a blank prompt. |
| `StickerForm.Form.constructor` | src/components/forms/StickerForm.tsx:27-31 | The initial state is `free`, an empty prompt, `float` and no image, and it satisfies the invariant. |
| `StickerForm.Form.Valid` | src/components/forms/StickerForm.tsx:23-33 | The selected animation is one its generator offers. So `shake` is only ever selected with Replicate, and `float` never with it. |
| `StickerForm.Form.SelectGenerator` | src/components/forms/StickerForm.tsx:69-72 | Selecting a generator sets the animation to `bounce` for Replicate and `float` otherwise. The invariant is kept. |
| `StickerForm.Form.ChooseAnimation` | src/components/forms/StickerForm.tsx:97-106 | Choosing a listed style sets it, and the invariant is kept. |
| `StickerForm.Form.SetPrompt` | src/components/forms/StickerForm.tsx:86 | Setting the prompt changes only the prompt. |
| `StickerForm.Form.ChooseImage` | src/components/forms/StickerForm.tsx:35-43 | Choosing a file sets the reference image. |
| `StickerForm.Form.ClearImage` | src/components/forms/StickerForm.tsx:45-48 | Clearing removes the reference image and its preview, and nothing else changes. |
| `StickerForm.Form.Submit` | src/components/forms/StickerForm.tsx:50-54 | Submitting makes the call `SubmitCall` describes for the current state. When a call is made, its animation is one its generator offers. |
| `StickerForm.ClearThenSubmit` | src/components/forms/StickerForm.tsx:45-53 | A submit after `clearImage` passes no reference image. |
| `AnimationForm.GeneratorId` | src/components/forms/AnimationForm.tsx:9-20 | The generator id is one of `free`, `replicate` or `gemini`. |
| `AnimationForm.GeneratorIdInjective` | src/components/forms/AnimationForm.tsx:16-20 | Different generators have different ids. |
| `AnimationForm.MaxFrames` | src/components/forms/AnimationForm.tsx:17-19 | `maxFrames` is 6 for Free and Replicate and 4 for Gemini, and never below 2. |
| `AnimationForm.ClampFrames` | src/components/forms/AnimationForm.tsx:68 | The clamped frame count is never above the old count or the new maximum. It is one of the two. |
| `AnimationForm.SliderOffers` | src/components/forms/AnimationForm.tsx:99-107 | The slider offers exactly the frame counts from 2 to the maximum. |
| `AnimationForm.SubmitCall` | src/components/forms/AnimationForm.tsx:47-51 | A call is made if and only if the trimmed concept has at least 3 code units. The call carries the generator, the concept, the frame count and the image, unchanged. |
| `AnimationForm.EnabledIffSubmits` | src/components/forms/AnimationForm.tsx:150 | The submit button is enabled if and only if nothing is loading and a submit would call `onGenerate`. |
| `AnimationForm.SubmitDisabled` | src/components/forms/AnimationForm.tsx:150 | The button is disabled while loading and for a blank concept. |
| `AnimationForm.Form.constructor` | src/components/forms/AnimationForm.tsx:23-27 | The initial state is `free`, an empty concept, 2 frames and no image, and it satisfies `2 <= frames <= maxFrames`. |
| `AnimationForm.Form.Valid` | src/components/forms/AnimationForm.tsx:99-107 | The frame count lies within `2..maxFrames` of the selected generator, so it is always a value the slider offers. |
| `AnimationForm.Form.SelectGenerator` | src/components/forms/AnimationForm.tsx:66-69 | Selecting a generator clamps the frame count to its maximum, never increases it, and keeps the invariant. |
| `AnimationForm.Form.MoveSlider` | src/components/forms/AnimationForm.tsx:99-107 | A value the slider reports becomes the frame count, and the invariant is kept. |
| `AnimationForm.Form.SetConcept` | src/components/forms/AnimationForm.tsx:83 | Setting the concept changes only the concept. |
| `AnimationForm.Form.ChooseImage` | src/components/forms/AnimationForm.tsx:32-40 | Choosing a file sets the reference image. |
| `AnimationForm.Form.ClearImage` | src/components/forms/AnimationForm.tsx:42-45 | Clearing removes the reference image and its preview. |
| `AnimationForm.Form.Submit` | src/components/forms/AnimationForm.tsx:47-51 | Submitting makes the call `SubmitCall` describes. Its frame count lies within its generator's bounds. |
| `PremiumVideoForm.SubmitCall` | src/components/forms/PremiumVideoForm.tsx:17-21 | A call is made if and only if the trimmed prompt has at least 3 code units. It passes the prompt and duration unchanged. |
| `PremiumVideoForm.EnabledIffSubmits` | src/components/forms/PremiumVideoForm.tsx:95 | The submit button is enabled if and only if nothing is loading and a submit would call `onGenerate`. |
| `PremiumVideoForm.SubmitDisabled` | src/components/forms/PremiumVideoForm.tsx:95 | The button is disabled while loading and for a blank prompt. |
| `PremiumVideoForm.DurationChoices` | src/components/forms/PremiumVideoForm.tsx:63-70 | The slider offers exactly the ten durations 1 to 10, in steps of 1. |
| `ImageGenerationForm.AspectRatiosDistinct` | src/components/forms/ImageGenerationForm.tsx:21-23 | The offered aspect ratios are 8 distinct values. |
| `ImageGenerationForm.SubmitCall` | src/components/forms/ImageGenerationForm.tsx:34-38 | A call is made if and only if the trimmed prompt has at least 3 code units. It passes the prompt and aspect ratio unchanged. |
| `ImageGenerationForm.EnabledIffSubmits` | src/components/forms/ImageGenerationForm.tsx:92 | The submit button is enabled if and only if nothing is loading and a submit would call `onGenerate`. |
| `ImageGenerationForm.SubmitDisabled` | src/components/forms/ImageGenerationForm.tsx:92 | The button is disabled while loading and for a blank prompt. |
| `IndexPage.Initial` | src/pages/Index.tsx:27-38 | After mounting: the stickers tab, nothing loading, `Generating...`, no preview, image preview type, no blob and no task id. The history is the one read from the store. |
| `IndexPage.StickerCall` | src/pages/Index.tsx:86-96 | The selected type picks the matching sticker generator. All three receive the prompt and animation, and only Gemini receives the reference image. |
| `IndexPage.AnimationCall` | src/pages/Index.tsx:123-133 | The selected type picks the matching animation generator. All three receive the concept and frames, and only Gemini receives the reference image. |
| `IndexPage.Reset` | src/pages/Index.tsx:44-49 | `resetPreview` clears the preview, the blob and the task id, and stops loading. It leaves the history, the preview type and the tab alone. |
| `IndexPage.TabChanged` | src/pages/Index.tsx:213-216 | A tab change sets the tab and then does everything `resetPreview` does. |
| `IndexPage.ResultFields` | src/pages/Index.tsx:57-64 | The recorded item has the given type, sub-type and prompt, uses the result's URL as both thumbnail and download link, and copies the result's task id. |
| `IndexPage.ResultHandled` | src/pages/Index.tsx:51-70 | The preview and blob become the result's. The task id is overwritten only when the result carries one. Exactly one item is prepended to the stored history, and the shown history is reloaded from the store. |
| `IndexPage.StickerStarted` | src/pages/Index.tsx:78-81 | Starting a sticker generation sets loading, the sticker message, image preview type and no task id, and issues the call. The preview and blob are kept. |
| `IndexPage.AnimationStarted` | src/pages/Index.tsx:115-118 | Starting an animation generation sets loading, the animation message, image preview type and no task id, and issues the call. The preview and blob are kept. |
| `IndexPage.PremiumStarted` | src/pages/Index.tsx:147-149 | Starting a premium generation sets loading, the premium message and video preview type, keeps the task id, and issues the call. |
| `IndexPage.GenerationSettled` | src/pages/Index.tsx:98-106 | Loading always ends. A failure changes nothing else. A success is handled as `handleResult` does. A shown history that matched the store still matches. |
| `IndexPage.StickerGenerated` | src/pages/Index.tsx:72-107 | Loading is off at the end. On failure the preview, blob and history keep their post-start values and there is no task id. On success the store is `AddedStore` of the old store with one new `('sticker', generator id)` item whose thumbnail and download URL equal the result's URL, and the shown history is that list. |
| `IndexPage.AnimationGenerated` | src/pages/Index.tsx:109-144 | Loading is off at the end. On failure the preview, blob and history keep their post-start values. On success the store is `AddedStore` of the old store with one new `('animation', generator id)` item, and the shown history is that list. |
| `IndexPage.PremiumGenerated` | src/pages/Index.tsx:146-178 | Loading is off at the end. On failure the preview, blob, task id and history are unchanged. On success the task id is replaced only when one comes back, and the store is `AddedStore` of the old store with one new `('video', 'premium')` item, which the shown history then lists. |
| `IndexPage.DownloadedCurrent` | src/pages/Index.tsx:180-184 | Without a blob nothing happens. Otherwise the blob is downloaded as `sticker_original.mp4` for a video preview and as `whatsapp_sticker.webp` otherwise. |
| `IndexPage.TransparentDownloaded` | src/pages/Index.tsx:186-204 | Without a task id nothing happens. Otherwise the transparent version is requested, downloaded as `sticker_transparent.webp` on success, and loading ends. The preview, task id and history never change. |
| `IndexPage.HistoryCleared` | src/components/HistorySection.tsx:18-21 | Clearing and then refreshing leaves an empty shown history and a store without the history key. |
| `IndexPage.LateResultAfterTabChange` | src/pages/Index.tsx:83-98 | A sticker result that arrives after a tab change still fills the preview and the history. |
| `IndexPage.EarlierCallEndsLaterLoading` | src/pages/Index.tsx:104-106 | After a sticker start, a switch to the premium tab and a premium start, the sticker call that settles first ends the loading state while the premium call is still pending. Its image result is then shown under the video preview type. |
| `IndexPage.PremiumTaskIdFromHeader` | src/lib/api.ts:199 | After a premium success, the page's task id is the non-empty `x-task-id` header, or the previous task id. The history item's task id is the normalised header. |
| `IndexPage.Index.constructor` | src/pages/Index.tsx:27-38 | The page starts in the state `Initial` describes for the store's contents. |
| `IndexPage.Index.ResetPreview` | src/pages/Index.tsx:44-49 | The method moves the page to `Reset` of its old state. |
| `IndexPage.Index.ChangeTab` | src/pages/Index.tsx:213-216 | The method moves the page to `TabChanged` of its old state. |
| `IndexPage.Index.HandleResult` | src/pages/Index.tsx:51-70 | The method moves the page and the store to `ResultHandled` of their old state. |
| `IndexPage.Index.HandleStickerGenerate` | src/pages/Index.tsx:72-107 | The method moves the page and the store to `StickerGenerated` of their old state. |
| `IndexPage.Index.HandleAnimationGenerate` | src/pages/Index.tsx:109-144 | The method moves the page and the store to `AnimationGenerated` of their old state. |
| `IndexPage.Index.HandlePremiumGenerate` | src/pages/Index.tsx:146-178 | The method moves the page and the store to `PremiumGenerated` of their old state. |
| `IndexPage.Index.HandleDownload` | src/pages/Index.tsx:180-184 | The method moves the page to `DownloadedCurrent` of its old state. |
| `IndexPage.Index.HandleDownloadTransparent` | src/pages/Index.tsx:186-204 | The method moves the page to `TransparentDownloaded` of its old state. |
| `IndexPage.Index.ClearHistory` | src/components/HistorySection.tsx:18-21 | The method moves the page and the store to `HistoryCleared` of their old state. |

## Left out

- The network generators (`generateFreeSticker` through `getTransparentVideo`, src/lib/api.ts:36-220). They are network I/O. Each handler receives the settled outcome of its call as a parameter, and the model records which generator was called with which arguments. Endpoints, query strings and form-data assembly are not modelled.
- Interleaving of concurrent handlers. Each handler method is one atomic step. The pure `…Started` and `GenerationSettled` functions let lemmas describe overlapping calls.
- `downloadBlob` (src/lib/api.ts:24-33). It is DOM and object-URL work, and the model records only a `Downloaded(blob, filename)` effect.
- Toasts and `console.error`. They are user-interface side effects with no effect on state.
- `JSON.parse` and `JSON.stringify`. The stored string is classified as `Empty`, `Valid(items)` or `Malformed`. A parsed array whose elements are not history items is not modelled. The code would map such elements to objects with missing fields, where the model reads them as `Malformed` or not at all.
- `crypto.randomUUID()` and `new Date()`. They are parameters `id` and `now`. Uniqueness of ids is stated as a lemma assuming the supplied id is fresh.
- An exception thrown by `localStorage.setItem` (for example, quota exceeded) inside `addToHistory`. In the code it would reach the handler's `catch`. The model treats the store as always writable.
- The `FileReader` data-URL preview set by `handleImageChange`. It is asynchronous browser I/O. The forms' `ChooseImage` sets only the reference image, and `imagePreview` changes only through `ClearImage`.
- Rendering components (`TabNavigation`, `PreviewArea`, `HistorySection` apart from its clear button, `GeneratorCard`, `Header`). They only render.
- Lone UTF-16 surrogates in a prompt. Dafny's `char` is a Unicode scalar value, so `Text.Utf16Length` counts code points above U+FFFF as two units but cannot represent an unpaired surrogate.
- `PremiumVideoForm` and `ImageGenerationForm` props `prompt`, `duration` and `aspectRatio`. They come from the caller, so their setters are not modelled as state. Only the submit guard, the disabled flag and the offered values are.
