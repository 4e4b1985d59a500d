# Zodiac Aura Portrait Generator: a Dafny model of its decision rules

The application lets a visitor enter a birth date, a gender, a "vibe" style and
a photo. The page script (`public/script.js`) derives a zodiac sign and an age,
builds a text prompt, and calls two endpoints of a small proxy server
(`server.js`). The server relays the photo to an image host (ImgBB) and then
sends the prompt and the hosted photo to an image-inference API (Hugging Face).
The page shows the generated image or an error.

This project models the parts of that code that decide something:

- `zodiac.dfy` (module `Zodiac`): `getZodiac` as a twelve-range table with a
  fallback, and `calculateAge`. Dates are integer (year, month, day) triples.
  Months run from 1 to 12. Today's date is a parameter.
- `prompt.dfy` (module `Prompt`): the vibe table with its default, the
  `finalPrompt` template and the `auraDescription` sentence.
- `client.dfy` (module `Client`): `displayResult`, `displayError` and
  `generateAura`, as methods of a class `AuraPage`. Its fields are the parts of
  the page the script writes: button label and disabled flag, loading overlay,
  loading text, error text and visibility, result section, image source and
  visibility, zodiac text and description text. The two requests to the proxy
  server are inputs. Each one is either rejected with a message or answered
  with an `ok` flag, a status text and the parsed JSON body. Each run returns
  the requests the page sent, in order.
- `server.dfy` (module `Server`): the two POST handlers as methods. Each takes
  the request body and the outcomes of its upstream `fetch` calls. It returns
  the status and JSON body it sends, with the upstream calls it made in order.
  The module also holds the data-URI prefix strip (with a model of
  `String.prototype.split`), the two error-detail rules and the result data
  URI.
- `js.dfy` (module `Js`): the JavaScript semantics these rules depend on. It
  covers values as JSON parsing produces them, truthiness, `||`, property reads
  that throw a TypeError on `null`/`undefined`, and `String()` as template
  literals apply it. It also has the decimal text of integers and reading it
  back.

`JSON.parse`, base64 encoding and reading a response body as text are library
calls. The server model receives them as the functions of a `Lib` value.

The code is followed where it departs from its own comments. The
two validation returns in `generateAura` (public/script.js:184-193) come
before the `try` that starts at public/script.js:216. So the `finally` block
does not run on those paths. The button stays disabled with the label
"Generating..." and the loading overlay stays visible, although the comments
at public/script.js:186 and :191 expect the `finally` block to reset them.
`GenerateAura` models this as written. `GenerateAuraWithCleanup` is the
intended flow, with the validation inside the `try` (see Findings).

The inference handler also departs from its comment. When the error body is
not JSON, the details stay "Unknown Hugging Face API error"
(server.js:139-145). The upload handler keeps the raw text in the same case.
Both rules are modelled as written.

## Model

| member | source | states |
|---|---|---|
| `Zodiac.GetZodiac` | public/script.js:94-112 | "Unknown Zodiac" comes out exactly when the month is outside 1..12, so every day of every month 1..12 gets one of the twelve signs |
| `Zodiac.SignRange` | public/script.js:99-110 | a date falls in a sign's range exactly when it is on or after the sign's start date in the start month, or in the next sign's start month before that sign's start day; both ends are inclusive |
| `Zodiac.MonthSplitsAtOneCusp` | public/script.js:99-110 | in each month, the days from one threshold on get the sign that starts that month, and the earlier days get the sign before it in zodiac order |
| `Zodiac.NoReturnWithinMonth` | public/script.js:99-110 | within a month, a sign that has given way to another does not come back later in the month (the single change point itself is `MonthSplitsAtOneCusp`) |
| `Zodiac.InclusiveBoundaries` | public/script.js:99-110 | Jan 20 and Feb 18 are Aquarius, Jan 19 and Dec 22 are Capricorn, Feb 19 and Feb 29 are Pisces, Jul 4 is Cancer |
| `Zodiac.CalculateAge` | public/script.js:115-126 | the age is the year difference minus one exactly when today's (month, day) comes before the birth (month, day); on the birthday itself there is no decrement |
| `Zodiac.AgeCountsBirthdaysReached` | public/script.js:119-125 | the age counts the birthdays reached: the birthday `age` years after birth is on or before today, and the next one is not |
| `Zodiac.AgeNonNegative` | public/script.js:119-125 | a birth date on or before today gives an age of at least 0 |
| `Prompt.VibeDescriptor` | public/script.js:202-212 | the vibe switch: one fixed style phrase per known tag, "magical aura, glowing colors" otherwise (its property is `DefaultExactlyForUnknownVibes`) |
| `Prompt.DefaultExactlyForUnknownVibes` | public/script.js:202-212 | the default phrase "magical aura, glowing colors" comes out exactly for strings other than the eight vibe tags |
| `Prompt.FinalPrompt` | public/script.js:214 | the `finalPrompt` template filled with the age, gender, zodiac and chosen style phrase (its properties are `PromptLayout`, `PromptFrame`, `PromptEndsWithStyle` and `PromptStatesAge`) |
| `Prompt.PromptLayout` | public/script.js:214 | the prompt holds, one after the other and at computed offsets, the opening words, the age's decimal text, "-year-old ", the gender, ", ", the zodiac, " aura, ", the style phrase and the closing words |
| `Prompt.PromptFrame` | public/script.js:214 | the prompt opens with "portrait of a " and ends with ", high detail, intricate, digital art", whatever the four inserted texts are |
| `Prompt.PromptEndsWithStyle` | public/script.js:214 | the style phrase the vibe switch chose is the text just before the closing words |
| `Prompt.PromptStatesAge` | public/script.js:214 | the integer written after the opening words of the prompt reads back as the age, whatever the gender, zodiac and style texts are |
| `Js.ReadLeadingIntBack` | public/script.js:214 | the decimal text `${age}` produces for an integer, followed by text that does not start with a digit, reads back as the integer from the front |
| `Prompt.AuraDescription` | public/script.js:249 | the sentence shown beside the result, naming the zodiac and the vibe tag |
| `Js.Prop` | public/script.js:243 | reading a property throws exactly when the value is null or undefined; an object property read gives the stored value |
| `Client.PromptForStatesAge` | public/script.js:196-214 | the prompt built from a birth date and today states the age computed for them |
| `Client.CelestialJulyFourth` | public/script.js:196-214 | a 4 July birth date is Cancer, and a celestial prompt is the template filled with "Cancer" and "cosmic stardust, swirling galaxy, nebulae colors" |
| `Client.UploadResult` | public/script.js:135-153 | the upload settles with `data.imageUrl` after an ok response; a rejected request throws its message; a non-ok response throws, with the TypeError of reading `details` from a null body, otherwise with a message that starts "Server-side image upload failed: " |
| `Client.UploadDetailsReachPage` | public/script.js:143-145 | a refused upload whose JSON has a non-empty string `details` fails the generation with "Server-side image upload failed: " followed by exactly that text |
| `Client.UploadStatusTextWithoutDetails` | public/script.js:143-145 | without `details` in the refusal, the status text follows the prefix instead |
| `Client.AcceptOutput` | public/script.js:243-246 | the proxy's JSON is accepted exactly when `error` is falsy, `output` is truthy and its length is not 0; then the result is `output[0]` |
| `Client.AcceptArrayOutput` | public/script.js:243-246 | for an array `output`: accepted exactly when `error` is falsy and the array is non-empty, and the result is its first element |
| `Client.EmptyOutputRefused` | public/script.js:243-244 | an empty output array with no details is refused with "AI generation failed: No image output from AI." |
| `Client.AuraResult` | public/script.js:226-246 | the generation request throws its message when rejected; a non-ok answer throws, with the TypeError of reading `details` from a null body, otherwise with a message that starts "AI generation failed: "; an ok answer goes through the acceptance rule |
| `Client.GenerationDetailsReachPage` | public/script.js:235-238 | after a successful upload, a refused generation whose JSON has a non-empty string `details` fails with "AI generation failed: " followed by exactly that text |
| `Client.AuraPage.DisplayResult` | public/script.js:24-62 | the error is always cleared; a truthy image URL shows the result with that image, zodiac and description; a falsy one hides the result and empties the image source; the button and overlay are untouched |
| `Client.AuraPage.DisplayError` | public/script.js:64-91 | the result is always hidden with an empty image source; a non-empty message is shown, an empty one hidden |
| `Client.AuraPage.StartGeneration` | public/script.js:162-175 | result and error cleared, button disabled with "Generating...", overlay shown, loading text "Starting generation..." |
| `Client.AuraPage.CheckInputs` | public/script.js:184-193 | passes exactly when both date and photo are present; a missing date is reported before the photo is checked |
| `Client.AuraPage.TryGenerate` | public/script.js:216-254 | the generation request is sent only after a successful upload, with the computed prompt and the uploaded URL; a failure in either step hides the result and shows "Ouch! An error occurred: " + message + ". Please try again."; success shows `output[0]`, the zodiac and the description |
| `Client.AuraPage.FinishGeneration` | public/script.js:255-265 | the overlay is hidden and the button re-enabled with "Generate Aura"; nothing else changes |
| `Client.AuraPage.GenerateAura` | public/script.js:161-266 | on either validation failure: no request, the message shown, the page still busy; otherwise the requests, the displayed outcome and an idle page |
| `Client.AuraPage.GenerateAuraWithCleanup` | public/script.js:161-266 | the intended flow: the same outcomes, and the page idle on every path |
| `Client.FailureResetsPage` | public/script.js:252-265 | after a failed upload or generation the page is idle, the result hidden and the apology with the message shown |
| `Client.MissingBirthdayLeavesPageBusy` | public/script.js:184-188 | without a birth date no request is sent and the button stays disabled behind a visible overlay |
| `Server.SplitJoin` | server.js:48 | joining the pieces of `split` with the separator gives back the string |
| `Server.SplitPiecesLackSeparator` | server.js:48 | no piece of `split` contains the separator |
| `Server.Split` | server.js:48 | `String.prototype.split` on one character: always at least one piece (its properties are `SplitJoin` and `SplitPiecesLackSeparator`) |
| `Server.StripPrefix` | server.js:48 | the result is the input itself or a non-empty text without a comma |
| `Server.StripPrefixWithoutComma` | server.js:48 | input without a comma is returned unchanged |
| `Server.StripPrefixBetweenCommas` | server.js:48 | with a comma, the result is the text between the first comma and the next one (or the end), or the whole input when that text is empty |
| `Server.StripDataUri` | server.js:48 | stripping a data URI with a comma-free type and a non-empty comma-free payload gives the payload |
| `Server.MimeType` | server.js:152 | a present, non-empty content type is used; an absent or empty one gives "image/png" |
| `Server.ResultDataUri` | server.js:152-153 | the data URI `data:<type>;base64,<encoding>` sent back (its property is `ResultDataUriRecoversEncoding`) |
| `Server.ResultDataUriRecoversEncoding` | server.js:152-155 | the result data URI strips back to the encoding, and declares "image/png" when no content type, or an empty one, came back |
| `Server.UploadErrorDetails` | server.js:56-66 | details are `error.message` of the JSON body when that read succeeds and is truthy, otherwise the raw body text |
| `Server.InferenceErrorDetails` | server.js:136-146 | details are the JSON body's truthy `error`, else the raw text; for a non-JSON body (or JSON null) they are "Unknown Hugging Face API error" |
| `Server.NonJsonErrorBodies` | server.js:139-145 | for a body that is not JSON, the upload rule keeps the raw text and the inference rule keeps the fixed unknown-error text |
| `Server.StringErrorField` | server.js:139-145 | for `{"error": m}` the inference rule reports m while the upload rule reports the raw text |
| `Server.HandleUpload` | server.js:39-88 | a falsy `imageData` gives 400 "No image data provided." and no upstream call; otherwise the stripped payload is uploaded once; 200 with `{imageUrl: data.url}` exactly when the host accepts; a falsy `success` gives 500 "Failed to upload image to ImgBB" with the message or "Unknown ImgBB error"; a non-string `imageData`, a rejected or non-ok upload, a 2xx body that is not JSON and each property read that throws give a 500 internal error whose details are stated path by path |
| `Server.ImageFetchError` | server.js:104-107 | the image fetch fails exactly when it is rejected or answered non-ok; a rejection keeps its message, a non-ok answer gives "Failed to fetch image from ImgBB: " followed by the status text |
| `Server.HandleGenerate` | server.js:91-164 | a falsy prompt or image URL gives 400 "Missing prompt or image URL" and no call; a failed image fetch gives 500 "Failed to process uploaded image (for Hugging Face)" and no inference call; 200 with exactly one output, the result data URI, exactly when both upstream calls succeed; inference failures give 500 "Failed to generate aura" with the message |

## Left out

- Reading the photo with `FileReader` (public/script.js:129-158 apart from the request itself) is not modelled. The upload request takes the photo bytes, and its `onerror` path is not modelled.
- `new Date(string)` parsing and time zones (public/script.js:95-97, 116-117) are not modelled. A date string that does not parse, or a UTC date read with local getters, can shift or lose the month and day. The model receives integer months and days directly.
- Calendar validity of a day is not checked, as in the source. Feb 30 classifies like any other February day.
- The page's initial state comes from `index.html`, which is not part of this model. The `AuraPage` constructor assumes a ready button, no overlay and nothing shown.
- The `if (element)` null guards of the page script are not modelled: every element is assumed present.
- `console.*` logging, Express setup and middleware, static file serving, `app.listen`, and environment variables with the API keys they carry (server.js:1-36, 166-171) are not modelled.
- Actual network traffic is not modelled. Each `fetch` outcome is an input. The request records keep the values the decisions depend on, not the full HTTP requests. `encodeURIComponent` and the float `strength: 0.3` parameter are not modelled.
- JavaScript numbers are integers here: no fractions, NaN or -0. Arrays and strings answer only `length` and index `0`, the only built-in properties the code reads. `String()` of any object is "[object Object]".
- TypeError messages use V8's wording ("Cannot read properties of undefined (reading 'url')"). Other engines word them differently.
- JSON serialization of response bodies is not modelled, except that a `data.url` that is undefined is left out of `{imageUrl}`.
- `Client.UploadResult`: a `response.json()` that throws (on the non-ok or on the ok response) is folded into the rejected case, with the parser's message.
- `Client.AuraResult`: the same holds for its two `proxyResponse.json()` calls: a body that does not parse counts as a rejected request.
- The wording of the error that `response.json()` raises for a body that is not JSON belongs to the fetch library, which is not part of this model: it is the message the `parse` function of `Lib` returns.
- Concurrent users and overlapping clicks are not modelled. The server is stateless, and the disabled button is what the page relies on.

## Findings

| source | as written | input that shows it | evidently intended | confidence | as-written member | corrected member |
|---|---|---|---|---|---|---|
| public/script.js:184-193 | the validation `return`s run before the `try` block, so its `finally` (public/script.js:255-265) is skipped | a form with an empty birth date (or no photo) | the button is reset and the overlay hidden, as the comments at lines 186 and 191 say | high (not executed) | `Client.MissingBirthdayLeavesPageBusy` | `Client.AuraPage.GenerateAuraWithCleanup` |
