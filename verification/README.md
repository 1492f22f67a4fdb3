# CD Finder core, modelled in Dafny

CD Finder is a single-screen lookup tool for vintage CD players. It loads the
`cdp_models` table page by page and merges it with AI-generated records from
the current session. It filters the result by a fuzzy, normalised label match.
When a photo is identified as a model the cloud table does not hold, it asks
Gemini for the DAC and laser specifications.

This project models that logic as pure functions over immutable datatypes,
plus one imperative paging loop:

- `JsText`: the ECMAScript string primitives the screen uses: `trim` with the
  exact WhiteSpace/LineTerminator set, `includes`, ASCII `toUpperCase`, and
  the label ordering.
- `Labels`: `normalize` and the bidirectional containment match.
- `Catalog`: rows, records, and `combinedData`, a stable sort by `model` of
  cloud rows followed by session AI rows, without deduplication.
- `Search`: `filteredResults`.
- `CloudLoader`: the paging loop of `fetchAllCloudData`, run against an
  in-memory store. The store is a sequence of rows plus the offsets whose
  request fails.
- `Gemini`: base64/MIME extraction, answer cleaning, the `NOT_FOUND`
  sentinel, and the null-on-missing-key / null-on-error behaviour of both
  service functions. The provider is an oracle: a function from request to reply.
- `Session`: the screen state and its transitions: mount, refresh,
  `handleAISearch`, the escalation decision in `processImage`, and the
  "Use Gemini AI" button condition.

Some behaviours of the code are easy to misread. They are modelled as the code behaves:

- `combinedData` does not deduplicate by normalised label. Records with
  equal labels all appear, cloud ones first.
- `filteredResults` searches only `model`, never `dac` or `laser`.
- Nothing prevents a second identification, AI search or refresh from
  starting while one is in flight.
- A parsed spec object is accepted without checking that `dac` and `laser`
  are present.

## Model

| member | source | states |
|---|---|---|
| JsText.Trim | geminiService.ts:31 | The result is one contiguous piece of the input; everything cut from either end is ECMAScript whitespace or a line terminator, and the result neither starts nor ends with one. |
| JsText.IsBlank | App.tsx:93 | `!searchTerm.trim()` holds exactly when every code point of the term is whitespace or a line terminator. |
| JsText.IncludesIff | App.tsx:98 | `a.includes(b)` holds exactly when `b` occurs in `a` at some offset (both directions). |
| JsText.IncludesChar | geminiService.ts:11 | `includes(',')` on a one-character needle is plain membership of that character. |
| JsText.ToUpperAscii | App.tsx:110 | Upper-casing keeps the length and maps each code point independently. |
| Labels.Fold | App.tsx:85 | One code point contributes at most one ASCII letter or digit. `a-z` and `0-9` are kept. Every code point that does not lower-case to an ASCII letter or digit is deleted, and only those are. |
| Labels.Normalize | App.tsx:85 | The normalised label contains only ASCII `a-z` and `0-9` and is never longer than the input. |
| Labels.NormalizeEmptyIff | App.tsx:85 | A text normalises to "" exactly when none of its code points lower-cases to an ASCII letter or digit (both directions). |
| Labels.DashesNormalizeEmpty | App.tsx:85 | "---" normalises to "". |
| Labels.NormalizeKey | App.tsx:85 | A string already made of `a-z`/`0-9`, such as "sonycdp227esd", is its own normal form. |
| Labels.NormalizeIdempotent | App.tsx:85 | `normalize(normalize(x)) == normalize(x)` for every `x`. |
| Labels.NormalizeConcat | App.tsx:85 | Normalisation distributes over concatenation, so each code point is handled on its own. |
| Labels.NormalizeUpper | App.tsx:110 | ASCII upper-casing does not change a text's normal form. Full Unicode upper-casing can (see Left out). |
| Labels.MatchesSymmetric | App.tsx:97-98 | The bidirectional match of two texts, each normalised, does not depend on which one is the label. |
| Labels.EmptyTermMatchesAll | App.tsx:94-98 | A term that normalises to "" matches every label. |
| Labels.EmptyKeyMatchesAll | App.tsx:97-98 | A label that normalises to "" matches every term. |
| Labels.MatchesOwnText | App.tsx:96-98 | A label, and its ASCII upper-cased form, matches its own normalised text. |
| Catalog.TagCloud | App.tsx:69 | Each fetched row becomes, in order, a record with the same fields and source `cloud`. |
| Catalog.Insert | App.tsx:89 | Inserting one record yields a permutation of the old sequence plus that record. |
| Catalog.SortByModel | App.tsx:89 | The sort returns a permutation of its input. |
| Catalog.SortSorted | App.tsx:89 | The sorted sequence is ordered by `model`. |
| Catalog.SortStable | App.tsx:89 | The sort is stable: for every label, the records carrying it appear in their input order. |
| Catalog.CombinedData | App.tsx:87-90 | The view is a permutation of `cloudData ++ sessionAiData` with no record dropped or merged. It is sorted by `model`. Among equal labels the cloud records come first, each group in its own order. |
| Catalog.WithModelMembers | App.tsx:89 | The records picked out under a label are exactly the members carrying that label. |
| Catalog.SortedUnique | App.tsx:89 | Two label-sorted sequences with the same records, in the same order, under every label are equal. |
| Catalog.CombinedDataUnique | App.tsx:87-90 | `combinedData` is the only sequence that is sorted by label and lists, per label, the cloud records and then the session records in their own order. |
| Catalog.SortsOutOfOrderPair | App.tsx:89 | Two records given out of label order come back swapped, whatever the input order. |
| Search.KeepMatching | App.tsx:96-99 | The filtered records form a subsequence of the view, and every one of them matches the term. |
| Search.KeepMatchingComplete | App.tsx:96-99 | No matching record is lost: each occurs in the result exactly as often as in the view. |
| Search.FilterResults | App.tsx:92-100 | A blank term returns the view unchanged. Otherwise the result is exactly the in-order subsequence of matching records. |
| Search.KeepAllForEmptyKey | App.tsx:94-99 | Filtering by the empty normalised term keeps the whole view. |
| Search.PunctuationOnlyShowsAll | App.tsx:93-99 | A term with no letters or digits, such as "---", shows the whole view even though it is not blank. |
| Search.DashesShowAll | App.tsx:93-99 | The search text "---" shows the whole view. |
| Search.EmptyKeyAlwaysShown | App.tsx:96-98 | A record whose label normalises to "" is shown for every search term. |
| Search.SubsequenceMembers | App.tsx:96 | A filter result never contains a record that is not in the view, and is never longer than the view. |
| CloudLoader.RangeQuery | App.tsx:60-64 | A request fails exactly at a failing offset. Otherwise it returns at most 1000 consecutive rows starting at the offset, and fewer only when the store ends. |
| CloudLoader.FetchAllPages | App.tsx:55-76 | On success the result is every row, in store order, tagged `cloud`. It took exactly `n / 1000 + 1` requests at offsets 0, 1000, 2000, …. Success holds exactly when none of those requests fails. On failure the requests stop at the first failing one and nothing is returned. |
| CloudLoader.RequestCountExamples | App.tsx:71-72 | 2500 rows take 3 requests, 1000 rows take 2 and an empty store takes 1. |
| Gemini.ExtractBase64 | geminiService.ts:11 | With a comma, the payload is the text between the first comma and the next comma or the end. Without one, it is the whole input. |
| Gemini.MimeType | geminiService.ts:12 | The MIME type is `image/png` exactly when "image/png" occurs in the input, otherwise `image/jpeg`. |
| Gemini.StripQuotes | geminiService.ts:31 | The text changes exactly when it is at least two characters long, starts and ends with `"`, and holds no line terminator. It then loses exactly that one enclosing pair. |
| Gemini.IdentifyModelFromImage | geminiService.ts:4-37 | Without a truthy key nothing is sent and the answer is null. Otherwise one request carries the extracted payload and MIME type. The answer is the cleaned text exactly when the call returned text whose cleaned form is non-empty and has no "NOT_FOUND"; otherwise it is null. |
| Gemini.FetchSpecsWithAI | geminiService.ts:39-67 | The provider is asked exactly when the key is truthy. Specs come back exactly when the reply parsed to a truthy value, unchanged and without checking `dac`/`laser`. A throw, a parse failure or a falsy value reads as null. |
| Session.AiStatusIff | App.tsx:40-42 | After mount the status is never `checking`. It is `ready` exactly when the key has more than 10 code points, which makes the other two tests redundant. A ready status implies the key is truthy, so the service functions will contact the provider when given that same key. |
| Session.ReadySearchReachesProvider | App.tsx:102-116 | When the status was decided from the services' own key (both read `process.env.API_KEY`), an AI search changes the state exactly when the query is non-empty, AI is ready and the reply parsed to a truthy value. |
| Session.KeyAgreementPreserved | App.tsx:102-156 | Neither handler changes the AI status, so a state whose status matches the services' key keeps matching it. |
| Session.FetchAllCloudData | App.tsx:46-83 | Loading ends on every path and only `cloudData` can change. With no client nothing is requested. A complete load replaces `cloudData` with all rows. A failed page leaves `cloudData` exactly as it was. |
| Session.Mount | App.tsx:40-44 | After mount the AI status is decided from the key, nothing is loading, and `cloudData` is either the whole table or, after a failure, still empty. |
| Session.HandleAISearch | App.tsx:102-127 | With an empty query or AI not ready, nothing happens. Otherwise exactly one lookup runs. The state changes exactly when specs come back, and then gains one front record (upper-cased query, source `ai`, AI-generated) and takes the raw query as search term. Cloud data never changes. |
| Session.ProcessImage | App.tsx:129-156 | The image flow never changes `cloudData`, the AI status or the loading flag, and runs at most one lookup. Without a lookup the session records are untouched. When they change, one lookup of the new search term ran and one `ai` record with the upper-cased term was put in front. |
| Session.ProcessImageDecision | App.tsx:133-150 | With no identification there is no change and no lookup. With one, the search term becomes the non-empty detected text, and exactly one lookup of it runs iff no cloud record matches and AI is ready. Without a lookup only the search term changes. With one, the outcome is exactly `handleAISearch(detected)` on the updated state. |
| Session.CloudMatchIffResults | App.tsx:139-142 | Some cloud record matches the detected text exactly when filtering `cloudData` by that text gives a non-empty result, blank texts included. |
| Session.BlankNormalizesEmpty | App.tsx:93 | A blank text normalises to "". |
| Session.EscalatesIffNoCloudResults | App.tsx:138-147 | After an identification, a lookup runs exactly when the cloud-only results for the detected text are empty and AI is ready. |
| Session.KnownModelNeverEscalates | App.tsx:138-147 | If a cloud record's label normalises to the same key as the detected text, no lookup runs. |
| Session.SessionDataNotConsulted | App.tsx:139 | The escalation decision is the same whatever `sessionAiData` holds. |
| Session.EmptyKeyDetectionNeverEscalates | App.tsx:138-145 | A detected text that normalises to "" counts as a match whenever `cloudData` is non-empty, so no lookup runs. |
| Session.NewAiRecordIsShown | App.tsx:109-117 | After a successful AI search, the combined view is the old view plus the new record, and, with ASCII upper-casing, that record is among the results shown for the new search term (see Left out). |
| Session.AiButtonLooksUpTerm | App.tsx:296-307 | When the "Use Gemini AI" button is shown, the results are empty and pressing it runs exactly one lookup of the current term. |

## Left out

- Rendering, toasts and their timers, icons and styling (App.tsx:195-351) are presentation. Only the "Use Gemini AI" visibility condition is modelled.
- Camera, canvas and FileReader handling (`captureImage`, `openCamera`, `closeCamera`, the file input) are device I/O. Releasing the camera stream is not guaranteed on every path of the code, and no such claim is made.
- The busy flags `isProcessingImage`, `isSearchingAI`, `isCameraActive` and `isListening` are left out. Each handler runs to completion here. The code never checks the flags before starting another call, so no mutual exclusion is modelled.
- The voice button is a stub that only shows a notice.
- Supabase client construction (supabaseClient.ts) is a foreign library. The client is a parameter that may be absent. With the built-in fallback URL and key it is never null in practice.
- The network is replaced by an in-memory store. The server's `order('model')` is assumed: the store's rows are given already in that order. A page with `data` null and no error is not distinguished from an empty page.
- The handlers read the current state. The code reads the `cloudData` and `aiStatus` captured by the render that created the handler, which may be older.
- Gemini prompts, the model name, the SDK and `console.error` logging are foreign calls. The providers are oracles over the request.
- JSON parsing is summarised by four reply kinds: throw, parse failure, falsy value, truthy value. A truthy value whose `dac`/`laser` are not strings is not distinguished from one where they are absent.
- Gemini.FetchSpecsWithAI: a falsy parsed value (`null`, `false`, `0`, `""`) is returned by the code as that value. It is modelled as null, because its only caller tests truthiness.
- Catalog.CombinedData: labels are ordered by code point, not by `localeCompare`. Locale collation depends on the runtime. Ties are broken stably as in the code.
- JsText.ToUpperAscii: only ASCII letters are upper-cased. Unicode `toUpperCase` can expand some characters (German sharp s to "SS"), which the model does not follow.
- Session: the key is a field of the services and the AI status is part of the state. The program reads both from `process.env.API_KEY`. Lemmas that depend on the two agreeing require `KeyAgrees`.
- Labels.NormalizeUpper: holds only for ASCII upper-casing. In the program `"straße".toUpperCase()` is `"STRASSE"`, which normalises to "strasse" while "straße" normalises to "strae".
- Labels.MatchesOwnText: the upper-cased half holds only for ASCII upper-casing. Neither of "strasse" and "strae" includes the other, so `"STRASSE"` does not match the term "strae".
- Session.NewAiRecordIsShown: holds only for ASCII upper-casing. `handleAISearch("straße")` stores model `"STRASSE"` (App.tsx:110) and sets the term to "straße". The filter (App.tsx:94-98) then compares "strasse" with "strae", so the new record is not shown.
- Session.AiStatusIff: the length test counts code points. The code counts UTF-16 code units, so keys with astral characters can differ.
- Labels.Normalize: lower-casing is modelled only as far as it can produce `a-z`. That covers ASCII letters, KELVIN SIGN (to `k`) and LATIN CAPITAL LETTER I WITH DOT ABOVE (to `i`). Every other code point is deleted either way.
- data.ts is a static table the screen never imports. types.ts is mirrored by `Row` and `Record`. A numeric `id` is modelled as a string.
