# VirtualSnap core logic in Dafny

VirtualSnap is a browser app. The user uploads two photos, a vendor
image-generation model analyses them, and the model composes a new image
from a scenario's prompt. This project models the app's sequential logic
and proves properties of it:

- **The AI service** (`ai_service.dfy`, module `AiService`, class `AIService`).
  - API-key precedence: a non-blank build-time key beats the key in
    `localStorage`, which beats none.
  - The `setApiKey` guard and trimming.
  - When a vendor client exists.
  - Scenario lookup, and filling a prompt template with the two analyses.
  - The "not initialized" guards of `analyzeImage` and `generateImage`.
  - How a model reply becomes a `data:` URL or an error.
  - How a failed key validation is classified.

  The vendor SDK is an oracle, `Sdk = (Client, Request) -> Reply`. A call
  returns the request it sent, so "throws before any request" is part of a
  contract.
- **JavaScript string semantics** (`js_strings.dfy`, module `JsStrings`):
  - `trim`, with ECMAScript's whitespace and line terminators;
  - `indexOf`, `includes` and `split(',')[1]`;
  - `replace` with a string pattern. Only the first occurrence is replaced,
    and the `$$`, `$&`, `` $` `` and `$'` patterns of the replacement
    string are expanded (GetSubstitution, section 22.1.3.19.1 of
    ECMAScript 2024).
- **`localStorage`** (`browser_storage.dfy`): a class over a string map.
- **Toasts** (`use_toast.dfy`, class `ToastList`). It holds the id counter,
  the toast list, and the pending 4000 ms expiry timers. All timers have
  the same delay, so they fire in the order they were set. `Expire` is the
  event of the oldest timer firing.
- **Upload previews** (`use_file_upload.dfy`, class `Previews`): two
  preview slots.
- **The cached availability flag** (`use_api_key.dfy`, class
  `ApiKeyStatus`). This object is the module instance, so every
  `useApiKey()` caller shares its one flag. `Coherent()` states that the
  flag agrees with the service.

## Model

| member | source | states |
|---|---|---|
| `AiService.ResolveApiKey` | src/services/aiService.js:11-25 | A non-blank environment key is returned untrimmed, whatever is stored. Otherwise a stored key is returned exactly when it is non-empty. Otherwise the result is null. A resolved key is never empty. |
| `AiService.AIService.GetApiKey` | src/services/aiService.js:11-25 | Read against the storage: the environment key when it is not blank, otherwise the `gemini_api_key` entry exactly when it exists and is non-empty, otherwise none. |
| `AiService.AIService.IsApiKeyAvailable` | src/services/aiService.js:27-30 | True iff the environment key or the stored `gemini_api_key` entry has a non-whitespace character. |
| `AiService.AIService.HasEnvironmentApiKey` | src/services/aiService.js:32-35 | True iff the build-time key is present and has a non-whitespace character. |
| `AiService.AvailabilityCharacterised` | src/services/aiService.js:27-35 | A key is available iff the environment key or the stored key has a non-whitespace character. A usable environment key always makes a key available. |
| `AiService.ClientFor` | src/services/aiService.js:49-61 | A client exists iff a non-empty key resolved. The client is built with that key. |
| `AiService.AIService.constructor` | src/services/aiService.js:5-9 | Keeps the environment key, the storage and the catalogue. Initialises the client from the resolved key. |
| `AiService.AIService.InitializeAI` | src/services/aiService.js:49-61 | Afterwards the client exists iff `getApiKey` gives a key, and it is built with that key. |
| `AiService.AIService.SetApiKey` | src/services/aiService.js:37-47 | Empty or non-string input throws 'Invalid API key provided' and changes neither the storage nor the client. Any other input stores exactly `trim(key)` under `gemini_api_key` and re-initialises. The client then exists iff a key is available. A whitespace-only key passes the guard and leaves a key available iff the environment has one. |
| `AiService.TrimmedKeyResolvesIffAvailable` | src/services/aiService.js:43-56 | Once a trimmed key is stored, "a client exists" and "a key is available" are the same condition. |
| `AiService.BlankStoredKeyStillMakesClient` | src/services/aiService.js:19-29 | With no usable environment key, any non-empty whitespace-only key put in storage by other means still resolves and makes a client with that key, although `isApiKeyAvailable` is false. |
| `AiService.ScenarioIndex` | src/services/aiService.js:88 | `find` stops at the first scenario with an equal id, or runs past the end when none matches. |
| `AiService.GetScenarioById` | src/services/aiService.js:87-89 | Gives nothing iff no scenario has the id. Otherwise gives the first scenario with that id. |
| `AiService.FillTemplate` | src/services/aiService.js:136 | A template holding neither placeholder passes through unchanged. Its filled form is given by `FillTemplateSubstitutes`. |
| `AiService.CreateFinalPrompt` | src/services/aiService.js:130-137 | An omitted scenario id means 'car_selfie'. Throws "Scenario with id '<id>' not found" iff no scenario has the id. Otherwise fills that scenario's main prompt. |
| `AiService.FillTemplateSubstitutes` | src/services/aiService.js:136 | Applies to a template whose only `{` characters open one `{analysis1}` and one `{analysis2}`, and to analyses without `$` where the first also has no `{`. The two placeholders do not overlap, and each is replaced by its analysis in place, whichever comes first. |
| `AiService.FillTemplateKeepsAnalyses` | src/services/aiService.js:136 | Under the same conditions, the final prompt contains both analyses. |
| `AiService.PlaceholdersApart` | src/services/aiService.js:136 | The two placeholders of such a template start at least 11 characters apart. |
| `AiService.FirstPlaceholder1` | src/services/aiService.js:136 | The first `{analysis1}` that `replace` finds is the template's own. |
| `AiService.FillFirstBeforeSecond` | src/services/aiService.js:136 | Gives the filled text when `{analysis1}` comes first. |
| `AiService.FillSecondBeforeFirst` | src/services/aiService.js:136 | Gives the filled text when `{analysis2}` comes first. |
| `JsStrings.ReplaceFirst` | src/services/aiService.js:136 | With no occurrence, the string is unchanged. With a `$`-free replacement, exactly the first occurrence is replaced by it. |
| `JsStrings.GetSubstitution` | src/services/aiService.js:136 | A replacement without `$` is inserted literally. |
| `JsStrings.DollarAmpersandInsertsMatch` | src/services/aiService.js:136 | For every string that contains the pattern, replacing with `$&` gives back the string unchanged: `$&` re-inserts the match, so a replacement containing `$` is not copied literally. |
| `JsStrings.IndexOf` | src/services/aiService.js:136 | Gives the first index where the pattern occurs, or nothing iff the pattern never occurs. |
| `JsStrings.IndexFrom` | src/services/aiService.js:136 | Gives the first occurrence at or after the start index, or nothing iff there is none from there. |
| `JsStrings.Includes` | src/services/aiService.js:107 | True iff the pattern occurs somewhere. |
| `JsStrings.TrimStart` | src/services/aiService.js:43 | Drops exactly the leading whitespace. The result is a suffix that does not start with whitespace. |
| `JsStrings.TrimEnd` | src/services/aiService.js:43 | Drops exactly the trailing whitespace. The result is a prefix that does not end with whitespace. |
| `JsStrings.Trim` | src/services/aiService.js:43 | The result is no longer than the input and neither starts nor ends with whitespace. |
| `JsStrings.TrimEmptyIffBlank` | src/services/aiService.js:29 | `trim().length > 0` iff the string has a non-whitespace character. |
| `JsStrings.TrimIdempotent` | src/services/aiService.js:43 | Trimming a trimmed key changes nothing. |
| `JsStrings.TrimPadded` | src/services/__tests__/aiService.spec.js:30-39 | Trimming whitespace padding around a core that is not itself padded gives back exactly that core. |
| `JsStrings.StartTrimsPrefix` | src/services/aiService.js:43 | `trimStart` removes a whitespace prefix and stops at the first non-whitespace character. |
| `JsStrings.EndTrimsSuffix` | src/services/aiService.js:43 | `trimEnd` removes a whitespace suffix and stops at the last non-whitespace character. |
| `JsStrings.SecondCommaField` | src/services/aiService.js:70 | Gives undefined iff the string has no comma. Otherwise the field is exactly the text that starts right after the first comma and runs to the next comma or the end, and it has no comma. |
| `JsStrings.IsAtChar` | src/services/aiService.js:70 | A one-character pattern occurs at i iff that character is at i. |
| `AiService.DataUrlRoundTrip` | src/services/aiService.js:70 | Reading the `data:<mime>;base64,<data>` URL built at line 167 back as `fileToGenerativePart` does returns the payload, when neither the payload nor the MIME type has a comma. The MIME type is not read from the URL: it is the file's own `type` (line 71), here given as the same value. |
| `AiService.GenerativePart` | src/services/aiService.js:63-81 | The part carries inline data and no text. Its MIME type is the file's `type`. Its payload is undefined iff the reader's data URL has no comma. Otherwise the payload is the text after the first comma, up to any second comma. |
| `AiService.AnalysisPrompt` | src/services/aiService.js:119-120 | Uses the scenario's own analysis prompt, or the first scenario's for an unknown id. It fails with a TypeError iff the catalogue is empty. |
| `AiService.AIService.AnalyzeImage` | src/services/aiService.js:114-128 | With no client it throws 'AI service not initialized. Please provide a valid API key.' and sends nothing. Otherwise it sends a request iff the catalogue is non-empty. The request carries the image and the analysis prompt of the given scenario, of 'car_selfie' when the id is omitted, or of the first scenario for an unknown id, and goes to `gemini-2.5-flash`. It returns the response text or passes a rejection on. |
| `AiService.ImagePrompt` | src/services/aiService.js:151 | A non-empty custom prompt wins, even for an unknown scenario id. Otherwise the prompt is `createFinalPrompt`'s result or its error, for the given id or 'car_selfie' when it is omitted. |
| `AiService.FirstInlineIndex` | src/services/aiService.js:162-170 | The loop stops at the first part carrying inline data, and at no earlier part. |
| `AiService.ResponseParts` | src/services/aiService.js:162 | Gives the first candidate's parts iff there is a first candidate with content and parts, and undefined otherwise. |
| `AiService.DataUrl` | src/services/aiService.js:167 | The URL is `data:`, then the rendered MIME type, then `;base64,`, then the rendered payload, and nothing else. |
| `AiService.NoImageError` | src/services/aiService.js:172 | The thrown message is never empty. It is the trimmed response text when that has a non-whitespace character, and 'Model did not return an image.' otherwise. |
| `AiService.ImageFromReply` | src/services/aiService.js:162-172 | The reply yields an image iff some part carries inline data. The image is the `data:` URL of the first such part. With no such part, the error is the one above. A rejection passes through. |
| `AiService.AIService.GenerateImage` | src/services/aiService.js:139-173 | With no client it throws before any request. A prompt error is thrown before any request. An omitted scenario id means 'car_selfie'. Otherwise it sends both images and the prompt to the image model, and the result is `ImageFromReply` of the reply. The scan loop is proved against that function. |
| `AiService.AIService.GenerateCarSelfie` | src/services/aiService.js:176-178 | Behaves as `generateImage` with scenario 'car_selfie'. |
| `AiService.ValidateApiKey` | src/services/aiService.js:91-112 | Gives `{valid: true}` iff the test request succeeds. Gives 'Invalid API key' iff the rejection message contains 'API_KEY_INVALID'. Any other failure gives 'Failed to validate API key'. |
| `UseToast.Without` | src/composables/useToast.js:18 | A toast is kept iff it was in the list and its id differs. The list never grows. |
| `UseToast.WithoutConcat` | src/composables/useToast.js:18 | Filtering splits over concatenation, so the kept toasts stay in their original order. |
| `UseToast.WithoutAbsent` | src/composables/useToast.js:18 | Removing an id no toast has leaves the list unchanged. |
| `UseToast.WithoutIdempotent` | src/composables/useToast.js:18 | Removing an id twice is the same as removing it once. |
| `UseToast.WithoutCommutes` | src/composables/useToast.js:12-19 | Removals of two ids, manual or by timer, commute. |
| `UseToast.WithoutKeepsIncreasing` | src/composables/useToast.js:18 | Filtering keeps ids strictly increasing along the list. |
| `UseToast.ShowThenRemove` | src/composables/useToast.js:7-19 | Showing a toast and removing it by its fresh id restores the previous list. |
| `UseToast.ShowKeepsConsistent` | src/composables/useToast.js:5-10 | The new id is above every id issued before, so ids never repeat. Appending the toast and its timer keeps the invariant. |
| `UseToast.RemoveKeepsConsistent` | src/composables/useToast.js:17-19 | Manual removal keeps the invariant. |
| `UseToast.ExpireKeepsConsistent` | src/composables/useToast.js:12-14 | The oldest timer firing keeps the invariant. When it was the last pending timer, no toast is left. |
| `UseToast.ToastList.constructor` | src/composables/useToast.js:3-5 | Starts with an empty list, a counter at 0 and no timers. |
| `UseToast.ToastList.ShowToast` | src/composables/useToast.js:7-15 | The counter goes up by one, and that value is the new id. Exactly one record `{id, message, type}` is appended, with type defaulting to 'error'. Its timer is scheduled, and earlier toasts are unchanged. |
| `UseToast.ToastList.RemoveToast` | src/composables/useToast.js:17-19 | The list becomes its filter by id. The counter and the timers are untouched. |
| `UseToast.ToastList.Expire` | src/composables/useToast.js:12-14 | Firing has the same effect on the list as `removeToast` of the timer's id. It is a no-op when that toast was already removed. Once no timer is pending, the list is empty. |
| `UseFileUpload.Previews.constructor` | src/composables/useFileUpload.js:4-5 | Both previews start as null. |
| `UseFileUpload.Previews.HandleImageUpload` | src/composables/useFileUpload.js:7-20 | An empty selection changes nothing. Otherwise only the first file is read. Image number 1 writes only `preview1`, and any other number writes only `preview2`. |
| `UseFileUpload.Previews.ResetPreviews` | src/composables/useFileUpload.js:22-25 | Both previews become null. |
| `UseApiKey.ApiKeyStatus.constructor` | src/composables/useApiKey.js:4 | The flag starts equal to the service's availability. |
| `UseApiKey.ApiKeyStatus.IsApiKeyAvailable` | src/composables/useApiKey.js:15 | Gives the cached flag. While the flag is coherent, that is the service's own availability. |
| `UseApiKey.ApiKeyStatus.HasEnvironmentApiKey` | src/composables/useApiKey.js:16 | Read from the service each time: true iff the build-time key has a non-whitespace character. |
| `UseApiKey.ApiKeyStatus.UpdateApiKeyStatus` | src/composables/useApiKey.js:18-20 | The flag becomes the service's availability. It then depends only on unchanged service state, so the update is idempotent. |
| `UseApiKey.ApiKeyStatus.SetApiKey` | src/composables/useApiKey.js:22-25 | If the service throws, the flag, the storage and the client are untouched. Otherwise the trimmed key is stored, and the client is re-initialised from the newly resolved key. The flag is coherent, and it is true iff a client exists. |
| `UseApiKey.ApiKeyStatus.ValidateApiKey` | src/composables/useApiKey.js:27-29 | Returns the service's validation result unchanged and changes no state. |
| `UseApiKey.ApiKeyStatus.ClearApiKey` | src/composables/useApiKey.js:31-35 | Removes the stored key and re-initialises the client. The flag becomes coherent, and it is true iff an environment key exists. |

## Left out

- The vendor SDK and its network calls (aiService.js lines 53, 94-100, 122-125 and 153-160) are an oracle. Its answers and rejections are inputs, and so is whether `new GoogleGenAI` throws in `validateApiKey`.
- The `catch` branch of `initializeAI` (lines 57-59) is not modelled. It runs when `getApiKey()` throws, because `localStorage.getItem` throws when storage access is blocked. It also runs when the vendor constructor throws. The model treats both calls as total.
- `localStorage` is total in the model: `getItem`, `setItem` and `removeItem` never throw. In a browser they can throw a security error when storage is blocked, and `setItem` can also throw a quota error.
- AiService.AIService.SetApiKey: promises that a valid key is always stored. The source's `setItem` (line 43) is outside any `try`, and when it throws, `initializeAI` does not run. That path is not modelled.
- UseApiKey.ApiKeyStatus.ClearApiKey: promises that the key is always removed. A throwing `removeItem` (useApiKey.js line 32) is not modelled.
- The random `seed` of the image request (line 158) is not modelled. `Request` records the model, the parts and the response modalities.
- `FileReader` and asynchrony are not modelled. `fileToGenerativePart` is modelled from the reader's data-URL result (`GenerativePart`). A preview upload reads through the function parameter `readAsDataUrl`, and its load completes before the next operation. No interleaving of awaits with other operations is modelled.
- The image preprocessing functions that the service tests mention (`calculateTargetDimensions`, `getOutputMimeType`, `applyMicroNoise`, `preprocessImage`, `blobToDataUrl`) do not exist in src/services/aiService.js, so they are not part of this model. The model follows the code of `fileToGenerativePart`, which reads the file directly.
- The scenario catalogue (src/prompts/scenarios.json) is not part of this model. The constructor takes it as a parameter.
- `getScenarios` is the constant field `scenarios` itself.
- The `window` 'storage' listener (useApiKey.js lines 6-12) is event plumbing and is not modelled. `Coherent()` holds after each composable operation. A write to `localStorage` from elsewhere can break it until the next update.
- Real timers are not modelled. `Expire` fires the oldest pending timer and requires one to be pending, because the runtime fires only timers that were set.
- `isApiKeyAvailable` and `hasEnvironmentApiKey` return the JavaScript value of `key && ...`, which is null, undefined, "" or a boolean. The model uses its truth value.
- `Option` stands for undefined, and the model has no separate null value. Default parameters apply only to undefined, so an explicit null `scenarioId` is not modelled. It reaches `getScenarioById(null)`, which finds nothing. `analyzeImage` then uses the first scenario, and `createFinalPrompt` throws "Scenario with id 'null' not found". A null `customPrompt` behaves like an omitted one (line 151), and the model covers it.
- UseToast.ToastList.ShowToast: an explicit null type stays null in JavaScript (defaults apply only to undefined, useToast.js line 7). The model gives 'error' for a missing type and has no null toast type.
- AiService.DataUrl: a null `mimeType` or `data` renders as "null" in the template literal of line 167. The model renders a missing field as "undefined", as for an absent property.
- The analyses passed to `createFinalPrompt` and `generateImage` are strings. `analyzeImage` can return an undefined text, and `replace('{analysis1}', undefined)` inserts the text "undefined". An undefined analysis therefore behaves as the string `Show(None)`, which is "undefined".
- A non-string `setApiKey` argument is collapsed into `NotAString`. `imageNumber` and toast ids are integers, without JavaScript's number precision limits.
- Vue reactivity (`ref`, `computed`), the components and views, `console.error`, and the build and test configuration are not modelled.
- AiService.FillTemplateSubstitutes: proved only for templates whose only `{` characters open the two placeholders, and for analyses without `$` where the first also has no `{`. Otherwise a replacement can form a new placeholder across a boundary (`"{analy{analysis1}2}"` with analysis `"sis"`), or a `$` pattern can expand. `ReplaceFirst` models both cases.
- AiService.FillTemplateKeepsAnalyses: carries the same conditions, for the same reason.
