# Character studio: service and handler logic in Dafny

This project models the logic in a browser front-end that turns a character
portrait, a dialect and a set of behavioural actions into a script, speech
and a video. It models these parts:

- **WAV container encoder** (`addWavHeader`, `writeString`). This wraps the
  raw 16-bit PCM that the speech model returns in a 44-byte RIFF/WAVE header
  for linear PCM. The DataView writes are little-endian, and each number is
  stored modulo 2^8, 2^16 or 2^32 (modules `Uint` and `Wav`).
- **Response handling** in the service layer. `editCharacterImage` and
  `generateCharacterImage` scan the parts of a response for the first inline
  image. `generateSpeech` takes the audio of the first part and wraps it in
  WAV. `generateDialectScript` falls back to the original text (module `GenAi`).
- **Video job poller** of `generateCharacterVideo` (module `VideoPoller`).
  After the job is submitted, it sleeps 10 s and re-reads the operation until
  the operation is done. Then it fetches the video URI with the API key
  appended, or fails when there is no URI. The remote service is a mock: the
  result of the submission and the sequence of status-check replies. What the
  poller does to the outside world is a trace of `Sleep`, `StatusCheck` and
  `Fetch` events.
- **App rules** (module `App`):
  - the `toggleAction` selection toggle;
  - the not-found classification of `handleError`;
  - the guards of `handleGenerateVideo` and `handleGenerateAudio`;
  - the char-code loop of `handleGenerateImage`/`handleEditImage`;
  - a small `AppModel` class holding the component state those handlers update.

JavaScript's falsy "missing or empty string" is the empty string here. A
field that can be absent as a whole (a candidate list, a part list, the
nullable `base64Image`) is an `Option`.

`generateSpeech` throws `No audio generated` before any decoding when the
first part carries no audio (services/geminiService.ts:96-97), and lets the
exception of `window.atob` on malformed base64 escape
(services/geminiService.ts:99); `GenAi.GenerateSpeech` models both.

## Model

| member | source | states |
|---|---|---|
| `Uint.LE16RoundTrip` | services/geminiService.ts:34-39 | reading back the two bytes setUint16 writes gives the value modulo 2^16 |
| `Uint.LE32RoundTrip` | services/geminiService.ts:30-41 | reading back the four bytes setUint32 writes gives the value modulo 2^32 |
| `Uint.DecodeLE16Inverse` | services/geminiService.ts:34-39 | any two bytes are exactly what setUint16 writes for the number they encode |
| `Uint.DecodeLE32Inverse` | services/geminiService.ts:30-41 | any four bytes are exactly what setUint32 writes for the number they encode |
| `Uint.Uint8Codes` | services/geminiService.ts:49-53 | one byte per character, each the character code modulo 2^8 (what setUint8 / a Uint8Array keeps) |
| `Wav.WavBytes` | services/geminiService.ts:23-46 | the buffer is exactly 44 + \|pcm\| bytes long, including 44 for empty PCM, and from offset 44 on it is the PCM verbatim |
| `Wav.WavLayout` | services/geminiService.ts:29-44 | byte-offset layout: "RIFF" at 0, 36+len at 4, "WAVE" at 8, "fmt " at 12, then 16, 1, channels, sample rate, rate·channels·2, channels·2 and 16 at 16..35, "data" at 36, len at 40, PCM from 44 |
| `Wav.ParseEncoded` | services/geminiService.ts:23-41 | round trip: when the fields fit their widths, parsing the header recovers channel count, sample rate and \|pcm\| |
| `Wav.ParsedHeaderIsCanonical` | services/geminiService.ts:29-41 | the reverse direction: any header the parser accepts is byte for byte the header addWavHeader writes for that format |
| `Wav.FourByteMonoExample` | services/geminiService.ts:23-46 | PCM [1,2,3,4] at 24000 Hz mono gives the 48 bytes listed field by field |
| `Wav.EmptyPayload` | services/geminiService.ts:24-41 | an empty payload gives a 44-byte buffer whose size field reads 36 and whose data length reads 0 |
| `Wav.SetUint32` | services/geminiService.ts:30 | a 32-bit write sets bytes offset..offset+3 to the little-endian value and leaves every other byte unchanged |
| `Wav.SetUint16` | services/geminiService.ts:34 | a 16-bit write sets bytes offset..offset+1 to the little-endian value and leaves every other byte unchanged |
| `Wav.WriteString` | services/geminiService.ts:49-53 | exactly bytes offset..offset+\|s\|-1 become the character codes of s; no other byte changes |
| `Wav.SetFrom` | services/geminiService.ts:43-44 | `uint8View.set(pcm, 44)` copies the PCM in order at offset 44 and changes nothing else |
| `Wav.WriteRiffHeader` | services/geminiService.ts:29-31 | bytes 0..11 become "RIFF", 36 + len and "WAVE"; bytes from 12 on are untouched |
| `Wav.WriteFmtChunk` | services/geminiService.ts:32-39 | bytes 12..35 become the `fmt ` chunk for the given rate and channels; every other byte is untouched |
| `Wav.WriteDataHeader` | services/geminiService.ts:40-41 | bytes 36..43 become "data" and len; every other byte is untouched |
| `Wav.AddWavHeader` | services/geminiService.ts:23-47 | a freshly allocated buffer, so never the PCM array, whose contents equal `WavBytes(pcm, sampleRate, numChannels)` |
| `GenAi.FirstInline` | services/geminiService.ts:133-136 | the index found carries inline data and no earlier part does; none is found exactly when no part carries any |
| `GenAi.EditOutcome` | services/geminiService.ts:127-146 | editCharacterImage's result: a success always carries non-empty data |
| `GenAi.GenerateOutcome` | services/geminiService.ts:163-172 | generateCharacterImage's result: a success always carries non-empty data |
| `GenAi.EditCharacterImage` | services/geminiService.ts:127-146 | the scan that accumulates text parts returns or throws exactly `EditOutcome` |
| `GenAi.GenerateCharacterImage` | services/geminiService.ts:163-172 | the scan returns or throws exactly `GenerateOutcome`, including the TypeError when the first candidate has no parts |
| `GenAi.EditOutcomeCharacterised` | services/geminiService.ts:131-146 | for any response with at least one candidate, taking the first candidate's parts, the edit succeeds iff some part has inline data, then with the first such part's data; otherwise the error quotes all text parts concatenated, or is the fixed message when there is no text |
| `GenAi.ScansAgree` | services/geminiService.ts:127-172 | when the first candidate has parts, both image scans succeed together and with the same data |
| `GenAi.TextsEmpty` | services/geminiService.ts:137-146 | the accumulated reason is empty exactly when every text part is empty, so only then the fallback message is used |
| `GenAi.BinaryStringToBytes` | services/geminiService.ts:99-103 | a freshly allocated Uint8Array with one byte per character: the character code modulo 2^8 |
| `GenAi.GenerateSpeech` | services/geminiService.ts:96-106 | fails exactly when the first part has no audio or `atob` rejects it; no audio throws "No audio generated" before any decoding, malformed base64 throws atob's InvalidCharacterError; otherwise the result is a fresh 24 kHz mono WAV of the decoded bytes |
| `GenAi.ScriptOrOriginal` | services/geminiService.ts:77 | the script is the model's text when it has any, else the original text; it is empty only when both are |
| `VideoPoller.GenerateCharacterVideo` | services/geminiService.ts:191-219 | the loop's outcome and its trace of sleeps, status checks and fetch equal `VideoOutcome` and `Trace` |
| `VideoPoller.StopsAtFirstDone` | services/geminiService.ts:206-211 | the loop ends with k checks and operation op exactly when op is the first done state (k = 0 when the submitted job was already done) |
| `VideoPoller.ThreeChecksScenario` | services/geminiService.ts:205-219 | not-done, not-done, done-with-URI: exactly three sleep-then-check rounds, then one fetch of uri&key=… |
| `VideoPoller.SubmissionFailureSkipsLoop` | services/geminiService.ts:191-206 | a failed submission fails at once with no sleep, no status check and no fetch |
| `VideoPoller.NoUriNoFetch` | services/geminiService.ts:213-214 | a completed job without a URI fails with the no-link error and the trace holds no fetch |
| `VideoPoller.RoundsShape` | services/geminiService.ts:206-211 | round j of the loop is a 10 000 ms sleep followed by a status check, and rounds hold nothing else |
| `VideoPoller.CheckAfterSleep` | services/geminiService.ts:206-217 | every status check directly follows a 10 000 ms sleep, and a fetch can only be the last event |
| `App.Toggle` | App.tsx:66-74 | a selected action is gone afterwards; an unselected one is appended: length + 1, old list as prefix, the action last |
| `App.WithoutRemovesAll` | App.tsx:70 | the filter leaves no occurrence of the action |
| `App.WithoutKeepsCounts` | App.tsx:70 | the filter keeps every other action exactly as many times as before |
| `App.WithoutKeepsOrder` | App.tsx:70 | the filter's result is a subsequence of the old selection (original order kept) |
| `App.WithoutAbsent` | App.tsx:70 | filtering an absent action changes nothing |
| `App.WithoutAppend` | App.tsx:70 | filtering distributes over concatenation |
| `App.ToggleSelected` | App.tsx:68-70 | toggling a selected action removes all its occurrences, keeps the others' counts and order, and shrinks the list by its count |
| `App.ToggleTwiceRestores` | App.tsx:66-74 | toggling an absent action twice restores the original list |
| `App.ToggleTwiceMovesToEnd` | App.tsx:66-74 | toggling a selected action twice leaves one copy of it, at the end |
| `App.IncludesIsContains` | App.tsx:80 | the left-to-right `includes` search succeeds exactly when the substring occurs at some index |
| `App.ClassifyError` | App.tsx:77-86 | key reselection happens iff the message includes one of the three not-found markers; it then shows the 404 message, otherwise the caller's default |
| `App.ClassifyByOccurrence` | App.tsx:79-85 | any occurrence of "Requested entity was not found", "404" or "NOT_FOUND" gives the 404 message with reselection; otherwise the default without it |
| `App.VideoGuard` | App.tsx:176-184 | video starts iff there is a non-empty image and at least one action; a missing image is reported first, regardless of the actions |
| `App.RefusalsDistinct` | App.tsx:177-184 | the two refusal messages differ |
| `App.AudioGuard` | App.tsx:158-160 | speaks the script if non-empty, else the prompt; nothing when both are empty |
| `App.CharCodes` | App.tsx:94-98 | the array is as long as the decoded string, and element i is its i-th character code |
| `App.ImageBytesMatchSpeechBytes` | App.tsx:94-99 | the image path's char codes turned into a Uint8Array equal the speech path's bytes for the same string |
| `App.AppModel.constructor` | App.tsx:9-28 | the initial selection is [Speaking], with no image, no error and no generation running |
| `App.AppModel.ToggleAction` | App.tsx:66-75 | the selection becomes `Toggle(old selection, action)` and nothing else changes |
| `App.AppModel.HandleError` | App.tsx:77-86 | the error shown and the reselection flag are those of `ClassifyError` |
| `App.AppModel.BeginGenerateVideo` | App.tsx:176-186 | a refusal sets its message and issues no request; otherwise the error is cleared, the video flag set and the request issued with the image and actions |
| `App.AppModel.BeginGenerateAudio` | App.tsx:158-162 | no text: nothing changes; otherwise the error is cleared, the audio flag set and the text to speak returned |

## Left out

- SDK calls are inputs, not modelled calls: `generateContent`, `generateVideos` and `getVideosOperation`. Their results are `Response` values or the mock `submit`/`replies` sequences.
- `fetch`, `Blob` and `URL.createObjectURL` are not modelled. The video path ends in a `Fetch(url)` event, and the speech path returns the WAV bytes instead of an object URL.
- `atob` (base64 decoding) is a parameter of `GenAi.GenerateSpeech` that returns None where `window.atob` throws; which strings it rejects is not modelled. The image handlers' char-code loop is modelled on the already decoded string.
- Timers and async scheduling are not modelled. The 10 s wait is a `Sleep(10000)` event. A mock that runs out of replies before a done state gives `StillRunning`, which stands for the source's unbounded loop.
- Character codes are Dafny `char` values (Unicode scalar values). Lone UTF-16 surrogates, which `charCodeAt` can return, cannot be represented. The base64-decoded strings this code handles never contain them.
- The prompt strings of `generateDialectScript`, `editCharacterImage` and `generateCharacterVideo` are free text, so they are not modelled.
- `blobToBase64`, `getAiClient`, the API-key reading and `window.aistudio` are environment plumbing and are not modelled. `handleOpenSelectKey` is reduced to the `reselectKey` flag of `App.ClassifyError`.
- Rendering and styling are not modelled. This covers the JSX, components/Logo.tsx and components/FileUpload.tsx.
- The asynchronous completion of each handler is not modelled. This covers storing the result and clearing the busy flag after the await. `AppModel` keeps only the state the modelled steps touch.
- The other handlers are not modelled: `handleGenerateImage`, `handleEditImage` and `handleGenerateScript`. Only their char-code loop and error path (`HandleError`) are. Their guards are plain non-empty checks.
- `console.error` logging is not modelled.
- `Wav.AddWavHeader` takes the sample rate and channel count as required arguments: the defaults of `addWavHeader` (`sampleRate = 24000`, `numChannels = 1`, services/geminiService.ts:23) are dropped because the only caller, `generateSpeech`, passes both.
- types.ts and constants.ts are not modelled beyond the `CharacterAction` datatype.
