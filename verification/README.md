# VPE-Studio production core in Dafny

VPE-Studio is a browser app for turning a voice-over script into a storyboard.
It splits the script into scenes, renders an image per scene, narrates the
script and composes a thumbnail. Everything that decides what the app shows
is local and sequential, and that is what this project models. The model
models two things: the service layer's local processing in
`services/geminiService.ts`, and the production page's state machine in `App.tsx`.

- `Wav` writes the 44-byte RIFF/WAVE header (`createWavHeader`, canonical PCM
  header of the Microsoft/IBM *Multimedia Programming Interface and Data
  Specifications 1.0*).
  - It is imperative: an `array<byte>` written field by field, with one
    `setUint8` per character.
  - It is specified by the pure function `WavHeader`.
  - A little-endian reader `ParseHeader` decodes the header back.
  - Lemmas prove that every field round-trips while the sizes fit 32 bits. They also show the sizes wrap once they do not.
- `Tts` holds the local half of `generateTTS`: the byte-copy loop and the header-then-samples payload.
- `DataUrl` holds the PNG/JPEG base64 data-URL prefix, its removal and its re-addition.
- `Text` models JavaScript `String.prototype.trim` and the `text?.trim() || input` fallback of
  `refineScript` and `enhancePrompt`.
- `Responses` models how a model response is checked:
  - the first inline-data part becomes an image, and a missing one is an error;
  - narration looks only at the first part.
- `Scenes` models the scene list and the pure list operations the handlers apply:
  - the per-scene `map` keyed on `scene_number`;
  - the wholesale replacement after segmentation;
  - the all-or-nothing positional batch of "enhance all";
  - the `filter` that gathers thumbnail inputs.
- `Studio` is a class whose fields are the page's `useState` slots.
  - Every asynchronous handler is split at its `await` into `Begin…` and `Finish…`.
  - `Begin…` runs the guard, raises the busy flag and returns the request for the service, or `None`.
  - `Finish…` receives the settled outcome as a `Result`.
  - Each method states the whole new state as an update of the ghost `State()` record.

The model follows the code, including where its behaviour may surprise:
- A failed single-prompt enhancement raises the page-wide error banner ("Prompt enhancement failed."). It does not set an error on the scene.
- A failed render sets only that scene's `error` ("Image failed"). It leaves the banner alone.
- A successful render does not clear an earlier scene error.
- "Enhance all" commits prompts onto the scene list as it was when the batch
  started. Anything that changed in between is overwritten (`FinishEnhanceAll` takes that snapshot).
- Narration is refused only for the empty script. A whitespace-only script is sent.
- A scene counts as imaged for the thumbnail only when `generatedImage` is
  truthy, so an empty string is skipped.

## Model

| member | source | states |
|---|---|---|
| Text.TrimStart | services/geminiService.ts:80 | the result is a suffix of the input, what was cut is all whitespace, and the result does not start with whitespace |
| Text.TrimEnd | services/geminiService.ts:80 | the result is a prefix of the input, what was cut is all whitespace, and the result does not end with whitespace |
| Text.Trim | services/geminiService.ts:80 | the trimmed text is no longer than the input and has no whitespace at either end |
| Text.TrimCutsOnlyWhitespace | services/geminiService.ts:80 | trim returns a contiguous slice of the input, and both removed ends consist only of whitespace |
| Text.TrimEmptyIffBlank | App.tsx:133 | `!s.trim()` holds exactly when every character of `s` is whitespace, in both directions |
| Text.TrimIdempotent | services/geminiService.ts:80 | trimming twice is trimming once |
| Text.TrimmedOr | services/geminiService.ts:80 | an absent or blank reply yields the fallback unchanged; otherwise the result is the trimmed reply, which is non-empty |
| Text.TrimmedOrIsTrimmedOrFallback | services/geminiService.ts:102 | the returned prompt is either exactly the prompt that was sent or a non-empty text that trim leaves as it is |
| DataUrl.StripImagePrefix | services/geminiService.ts:141 | a leading PNG or JPEG base64 data-URL prefix is removed (only that prefix), and any other string is returned unchanged |
| DataUrl.PngDataUrl | services/geminiService.ts:134 | the URL starts with the PNG base64 prefix and carries exactly the payload after it |
| DataUrl.StripPngDataUrl | services/geminiService.ts:141 | stripping a PNG URL the app built gives back its payload |
| DataUrl.PngDataUrlOfStripped | services/geminiService.ts:172 | re-prefixing the stripped form of a PNG data URL gives back the original URL |
| DataUrl.StripOnlyOnce | services/geminiService.ts:141 | the prefix is removed once, not repeatedly: a doubly-prefixed payload keeps its inner prefix |
| Responses.FirstInlineIndex | services/geminiService.ts:131 | the index `find` stops at: no earlier part has inline data, and the part there has it (or none exists) |
| Responses.FindInline | services/geminiService.ts:131 | nothing is found exactly when no part has inline data; otherwise the result is the first part's inline data |
| Responses.ImageFromResponse | services/geminiService.ts:131-134 | the call fails, with the given message, exactly when there are no parts or none carries inline data; otherwise the result is a PNG data URL whose payload is the data of the first inline part |
| Responses.AudioFromResponse | services/geminiService.ts:190-191 | audio is accepted exactly when the first part carries non-empty inline data, and then it is that data; otherwise it fails with "TTS generation failed" |
| Responses.ThumbnailImageParts | services/geminiService.ts:140-148 | one inline part per image, in order, each the image with its data-URL prefix stripped and labelled `image/png` |
| Responses.ThumbnailPartsOfGeneratedImages | services/geminiService.ts:141 | scene images built as PNG URLs reach the thumbnail request as exactly the payloads the image endpoint returned |
| Wav.DecodeU16LE | services/geminiService.ts:219-220 | a little-endian 16-bit read is below 2^16 |
| Wav.DecodeU32LE | services/geminiService.ts:215 | a little-endian 32-bit read is below 2^32 |
| Wav.U16RoundTrip | services/geminiService.ts:223-224 | reading back a stored 16-bit field gives the value modulo 2^16 |
| Wav.U32RoundTrip | services/geminiService.ts:226 | reading back a stored 32-bit field gives the value modulo 2^32 (`setUint32`'s wrap-around) |
| Wav.WavHeader | services/geminiService.ts:205 | the header is exactly 44 bytes |
| Wav.ParseHeader | services/geminiService.ts:214-226 | a header is accepted only with the RIFF, WAVE, `fmt ` and `data` tags at offsets 0, 8, 12 and 36, and the size fields it reads fit 32 bits |
| Wav.HeaderRoundTrip | services/geminiService.ts:204-229 | while `36 + dataLength` and the byte rate fit 32 bits, the header reads back as RIFF size `36 + dataLength`, PCM, mono, the given sample rate, byte rate twice that, block align 2, 16 bits, data length `dataLength`; byte rate = sample rate × block align and RIFF size = 44 − 8 + data length |
| Wav.HeaderSizeWraps | services/geminiService.ts:215 | once `36 + dataLength` reaches 2^32 the RIFF size field no longer holds it |
| Wav.ParseHeaderIgnoresPayload | services/geminiService.ts:200 | samples appended after the header do not change how the header reads |
| Wav.SpliceAdjacent | services/geminiService.ts:214-216 | two back-to-back writes equal one write of both pieces |
| Wav.WriteString | services/geminiService.ts:208-212 | the buffer gets one byte per character (the char code's low 8 bits) from `offset` on; every other byte is unchanged |
| Wav.SetUint16 | services/geminiService.ts:219 | the buffer gets the value's two little-endian bytes at `offset`; every other byte is unchanged |
| Wav.SetUint32 | services/geminiService.ts:215 | the buffer gets the value's four little-endian bytes (mod 2^32) at `offset`; every other byte is unchanged |
| Wav.WriteRiffHeader | services/geminiService.ts:214-216 | bytes 0-11 become `RIFF`, `36 + dataLength`, `WAVE`; bytes 12-43 are unchanged |
| Wav.WriteFormatChunk | services/geminiService.ts:217-224 | bytes 12-35 become the `fmt ` chunk (size 16, PCM, mono, rate, rate × 2, align 2, 16 bits); the rest is unchanged |
| Wav.WriteDataHeader | services/geminiService.ts:225-226 | bytes 36-43 become `data` and `dataLength`; bytes 0-35 are unchanged |
| Wav.CreateWavHeader | services/geminiService.ts:204-229 | a freshly allocated 44-byte buffer holding exactly the canonical header for the given length and rate |
| Tts.CopyBinaryString | services/geminiService.ts:193-197 | a freshly allocated byte array as long as the decoded string, byte i being the char code of character i taken to 8 bits |
| Tts.WavPayload | services/geminiService.ts:199-200 | the blob is 44 + N bytes: the header for N bytes at 24000 Hz, then the N copied bytes |
| Tts.PayloadSelfDescribing | services/geminiService.ts:199-200 | while it fits 32 bits, the narration file announces 24 kHz mono 16-bit PCM, a data chunk exactly as long as the samples after it, and a RIFF size of the file length minus 8 |
| Scenes.Apply | App.tsx:163-183 | every spread update keeps the segmentation fields; only prompt updates change the prompt; only a successful render sets the image, never clearing one; each busy flag moves only under its own operation; only a failed render sets the scene error; each patch writes what its handler writes: the edited or enhanced prompt, the raised or dropped flag, the image, or the "Image failed" error; image and flag (prompt and flag) are written together |
| Scenes.UpdateScene | App.tsx:163 | same length, and record i is patched exactly when its number is the target; every other record is unchanged in place |
| Scenes.UpdateKeepsNumbers | App.tsx:178 | a per-scene update never adds, removes or reorders scenes |
| Scenes.UpdateAbsentIsNoOp | App.tsx:176-177 | an update addressed to a number no scene carries leaves the list unchanged |
| Scenes.UpdateIdempotent | App.tsx:607 | repeating an update (the same edit, the same flag change) is the same as applying it once |
| Scenes.UpdatesOnDifferentScenesCommute | App.tsx:181 | updates to different scene numbers give the same list in either order |
| Scenes.RenderAndEnhanceCommute | App.tsx:162-185 | on one scene, a render step and an enhance step give the same record in either order |
| Scenes.EnhanceWhileOtherRenders | App.tsx:163-168 | a full enhance cycle on scene n leaves a rendering scene m exactly as it was, with its render flag still raised |
| Scenes.SceneNumbers | App.tsx:163 | the list of scene numbers, position by position |
| Scenes.Find | App.tsx:176 | nothing is found exactly when no scene has the number; otherwise the result is the first scene with it |
| Scenes.FromDrafts | App.tsx:139 | the analysed scenes in the order returned, each carrying all eight fields of its draft unchanged, with both flags down, no image and no error |
| Scenes.SegmentationNumbers | App.tsx:139 | after segmentation the scene numbers are exactly those of the analysis, in order |
| Scenes.JoinAll | App.tsx:204-207 | all-or-nothing: success exactly when every per-scene call succeeded, and then the values in scene order |
| Scenes.ReplacePrompts | App.tsx:204-208 | each snapshot scene with its prompt replaced positionally, every other field kept |
| Scenes.ReplacePromptsKeepsNumbers | App.tsx:208 | the batch keeps membership and order |
| Scenes.ThumbnailInputs | App.tsx:217 | the inputs are images of imaged scenes, no more than there are scenes, and none exactly when no scene is imaged |
| Scenes.ThumbnailInputsAppend | App.tsx:217 | the filter keeps scene order (inputs of a concatenation are the concatenated inputs) |
| Scenes.ThumbnailInputsCount | App.tsx:217 | there are exactly as many inputs as imaged scenes |
| Studio.Studio.constructor | App.tsx:39-66 | the initial slots: empty script and scenes, IDLE, no error, 16:9, voice Kore, the default thumbnail prompt, all flags down |
| Studio.Studio.BeginDirectorRun | App.tsx:132-135 | a blank script changes nothing and sends nothing; otherwise status ANALYZING, banner cleared, and the script with the style is sent |
| Studio.Studio.FinishDirectorRun | App.tsx:137-144 | success installs the analysed scenes and moves to PRODUCING; failure keeps the scene list exactly, moves to ERROR and sets "Production Analysis Failed." |
| Studio.Studio.BeginRefineScript | App.tsx:147-150 | nothing happens unless both script and instructions are non-blank; otherwise refining flag up, banner cleared, both sent |
| Studio.Studio.FinishRefineScript | App.tsx:151-159 | success replaces the script and clears the instructions; failure sets "Script refinement failed."; the flag drops either way |
| Studio.Studio.BeginEnhancePrompt | App.tsx:162-167 | the addressed scenes' enhance flag rises; a request (that scene's current prompt and the style) is sent exactly when the scene exists, and otherwise nothing changes |
| Studio.Studio.FinishEnhancePrompt | App.tsx:167-172 | success writes the prompt and drops the flag together; failure drops the flag, keeps the prompt and sets the global "Prompt enhancement failed." |
| Studio.Studio.BeginVisualize | App.tsx:175-178 | an unknown scene is a no-op; otherwise the render flag rises on the addressed scenes and the first one's prompt is sent with the aspect ratio |
| Studio.Studio.FinishVisualize | App.tsx:180-184 | success sets the image and drops the flag together; failure drops the flag and sets the scene error, keeping the image; nothing else changes |
| Studio.Studio.BeginGenerateFullAudio | App.tsx:187-191 | only the empty script is refused; otherwise the audio flag rises and the script with the selected voice is sent |
| Studio.Studio.FinishGenerateFullAudio | App.tsx:191-197 | success stores the audio URL; failure sets "TTS failed."; the flag drops either way |
| Studio.Studio.BeginEnhanceAll | App.tsx:200-205 | an empty production does nothing; otherwise the bulk flag rises and the current list is sent as the snapshot |
| Studio.Studio.FinishEnhanceAll | App.tsx:204-213 | if every call succeeded, the list becomes the snapshot with prompts replaced in order; if any failed, the list is untouched and "Bulk enhancement failed." is set; the bulk flag drops either way |
| Studio.Studio.BeginGenerateThumbnail | App.tsx:216-225 | with no imaged scene the only change is "Generate at least one scene image first." (no flag, no request); otherwise the flag rises, the banner clears and the images in scene order are sent |
| Studio.Studio.FinishGenerateThumbnail | App.tsx:225-231 | success stores the thumbnail; failure sets "Thumbnail generation failed."; the flag drops either way |
| Studio.Studio.EditScenePrompt | App.tsx:605-608 | only the prompt of the scenes with that number changes |

## Left out

- Rendering, styling, the sidebar resize effect and the playback-rate effect (`App.tsx` JSX and `useEffect`s): these are UI and DOM, with no state logic.
- The remote model calls and their prompt texts (`GoogleGenAI.generateContent`): these are foreign calls. Their settled outcome is a `Result` parameter of each `Finish…` method, and the request a `Begin…` method returns says what would be sent.
- The `Finish…` methods receive the service's value after local processing (`TrimmedOr`, `ImageFromResponse`, `AudioFromResponse`). The two are not chained in one method because the remote call sits between them.
- `JSON.parse` and the `data.scenes || []` default of `analyzeScript`: parsing is a library call. The segmentation outcome is the list of scene drafts directly. Extra JSON properties a reply might carry beyond the schema's fields are not modelled.
- `atob`, `Blob`, `URL.createObjectURL` and `FileReader`: these are browser services.
  - The narration input is the already decoded binary string.
  - The audio URL is an opaque string.
- Interleaving of concurrent promises, `Promise.all` included, is left out. Each handler's two halves are methods, and the settled results are a list folded by `JoinAll`. `UpdatesOnDifferentScenesCommute` and `RenderAndEnhanceCommute` say which orders make no difference.
- The closure capture of `scenes` in `handleEnhancePrompt`/`handleVisualize` (the lookup reads the rendered list, the update reads `prev`) is modelled as one list. The two agree when no other update lands between the click and the lookup.
- `handleFileUpload`, `handleManualStyleSearch` and `extractStyle`: the style-reference handlers are outside this model. The style prompt is a plain field.
- Plain setters bound directly to inputs (script, instructions, voice, aspect ratio, thumbnail prompt, speed) and the banner's dismiss button. Each sets one slot.
- Text is modelled as sequences of Unicode code points, not UTF-16 code units. `charCodeAt` therefore agrees only for characters below U+10000, which covers the header's ASCII tags and every character `atob` produces.
- Wav.ParseHeader: this is a reader of the canonical header only. It checks the four tags and the `fmt ` size, and does not accept the optional chunks a general WAV reader would skip.
- Responses.ImageFromResponse: two response shapes are not told apart.
  - A first candidate whose `content` has no `parts` array makes `parts.find` throw a `TypeError` in the source. The model reports it as the missing-parts case, with the given failure message.
  - An inline part whose `data` is absent yields the URL `data:image/png;base64,undefined` in the source. In the model, inline data always carries a string.
