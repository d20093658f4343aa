# AI 취재 디렉터 (AI newsroom director): its deterministic core, in Dafny

The system helps field reporters. A reporter types a situation. A FastAPI
backend asks a language model for reporting directions, a deep dive, or the
situation seen from another perspective. A Next.js page shows the answers.
Around the model calls sits a small amount of deterministic logic, and this
project models it and proves properties about it:

- **Keyword and similar-case search** (`DataUtils`, data_utils.py). Table terms
  are found in the lower-cased situation. CSV rows are scanned for at least two
  of those terms. Title and body are truncated, and the search stops at five
  records. The CSV directory is an input: a map from file name to what reading
  the file yields. This part is imperative: nested loops with breaks, proved
  against specification functions.
- **Extracting JSON from model output** (`OpenAiUtils`, openai_utils.py). This
  covers the fence / brace / whole-text choice of the candidate and the fallback
  records of `get_directing`. The fence search is proved to pick exactly the
  match Python's regex engine returns for ```` ```json\s*(.*?)\s*``` ````,
  with `\s` read as the whitespace set of `Text.IsSpace` (see "Left out").
- **Cleaning and validating Gemini replies** (`GeminiUtils`, gemini_utils.py).
  This covers fence removal and stripping, and the required-field checks of
  deep-dive and perspective answers. The checks follow Python's `in` on every
  kind of decoded value, including the `TypeError` cases. All three helpers
  wrap their failures in the same way.
- **The HTTP routes** (`Api`, api.py). This covers the input checks and how
  exceptions become status codes. It includes the deep-dive 400 that turns
  into a 500 and the perspective failures that carry their prefix twice.
- **The situation form** (`SituationInput`, SituationInput.tsx): the trim guard
  of the submit handler and the disabled and counter rules.
- **The page state machine** (`Page`, page.tsx):
  - every handler is a begin step (up to its `await`) and a complete step
    (success or failure);
  - the rendering conditions of each banner and panel;
  - an invariant that every reachable sequence of steps keeps.

Shared pieces:

- `Text` models the Python and JavaScript string operations the code relies on:
  `in`, `find`, `rfind`, `strip`/`trim`, `lower`, `replace` with an empty
  replacement, slicing and truncation.
- `Json` models decoded JSON values, Python truthiness and the `in` operator.
  The decoder `json.loads` is a parameter `Parser`, a total function that
  returns a value or a decode error.
- The model's reply, the chat-completion outcome and the connection probe are
  parameters as well.

The page keeps one shared error message. It is cleared only when a
directing request starts (frontend/src/app/page.tsx:58) or a perspective
request starts (page.tsx:98). `handleDeepDive` (page.tsx:79-91) never clears
it, so an earlier error stays on screen after a successful deep dive. The
model follows these lines.

## Model

| member | source | states |
|---|---|---|
| Text.ContainsIff | backend/app/data_utils.py:24 | Python's `term in text` holds exactly when the term occurs at some position of the text |
| Text.FindFrom | backend/app/openai_utils.py:32 | `find` gives the first position of the pattern at or after the start, or -1 when there is none |
| Text.FindLastBelow | backend/app/openai_utils.py:33 | `rfind` gives the last position of the pattern, or -1 when there is none |
| Text.Lower | backend/app/data_utils.py:20 | lower-casing keeps the length and maps each character separately |
| Text.StripSpec | backend/app/gemini_utils.py:16 | `strip` keeps one contiguous slice and drops only whitespace around it; a non-empty result has non-space ends |
| Text.StripEmptyIff | frontend/src/components/SituationInput.tsx:15 | the stripped text is empty exactly when the text is all whitespace |
| Text.StripIdempotent | backend/app/gemini_utils.py:16 | stripping twice gives the same as stripping once |
| Text.Truncate | backend/app/data_utils.py:62-63 | a text of length at most n is kept; a longer one becomes its first n characters followed by `...` |
| Text.Prefix | backend/app/openai_utils.py:118 | `content[:100]` is the first min(100, length) characters |
| Text.RemoveFenceLeavesNone | backend/app/gemini_utils.py:16 | after every ```` ``` ```` is removed, no ```` ``` ```` is left, even where removals bring backticks together |
| Text.RemoveAllIsSubsequence | backend/app/gemini_utils.py:16 | removing a pattern leaves a subsequence of the original |
| Json.PyIn | backend/app/gemini_utils.py:81 | `key in v` is a key test on a dict, an element test on a list and a substring test on a str; it raises `TypeError` on exactly `None`, bools, ints and floats |
| DataUtils.ExtractKeywords | backend/app/data_utils.py:8-27 | returns exactly the table terms that occur in the lower-cased situation, in table order |
| DataUtils.ScanCategories | backend/app/data_utils.py:22-25 | the nested loop over categories and their terms keeps, in scanning order, exactly the terms that occur in the text |
| DataUtils.TableDistinct | backend/app/data_utils.py:13-18 | the keyword table holds 22 terms, no two alike |
| DataUtils.MatchingTermsSpec | backend/app/data_utils.py:22-25 | a term is kept iff it is listed and occurs in the text; the kept terms are a subsequence of the list, at most as many, and distinct when the list is |
| DataUtils.KeywordsSpec | backend/app/data_utils.py:13-25 | extracted keywords are table terms in table order, each at most once; a term is extracted iff it occurs in the lower-cased situation; at most 22 |
| DataUtils.MatchCount | backend/app/data_utils.py:53-56 | a row's match count never exceeds the number of keywords |
| DataUtils.CountMatches | backend/app/data_utils.py:53-56 | the counting loop yields the number of keywords found in the lower-cased title or body |
| DataUtils.TwoMatchesAreDistinct | backend/app/data_utils.py:53-59 | a count of two or more means two different keyword positions both match the row |
| DataUtils.RowCasesPrefix | backend/app/data_utils.py:48-65 | the records of the first k rows are a prefix of the records of all rows: row order is kept |
| DataUtils.AllCasesPrefix | backend/app/data_utils.py:39-76 | the records of the first k files are a prefix of the records of all files: file order is kept |
| DataUtils.TakeOfPrefix | backend/app/data_utils.py:78 | once five records are gathered, records found later do not change the first five |
| DataUtils.CollectRows | backend/app/data_utils.py:48-69 | the row loop appends the matching rows' records in row order and breaks at five: the first five of what was kept plus this file's records |
| DataUtils.SearchSimilarCases | backend/app/data_utils.py:29-78 | the whole search returns the first five records over the files in list order, rows in file order |
| DataUtils.SearchFiles | backend/app/data_utils.py:39-78 | the file loop, with its two breaks, returns the first five records of the files in the given order |
| DataUtils.SimilarCasesBound | backend/app/data_utils.py:78 | at most five records come back |
| DataUtils.FewKeywordsNoCases | backend/app/data_utils.py:53-59 | a situation with fewer than two table terms yields no record |
| DataUtils.SimilarCasesProvenance | backend/app/data_utils.py:36-65 | every record comes from a row of one of the eight files that has two distinct keywords; its title and summary are that row's title and body truncated to 100 and 200 characters; its date is the row's date or `날짜 불명` when the file has no date column; its source is the file |
| DataUtils.StopsAtFive | backend/app/data_utils.py:67-76 | once the first k files give five records, the result is those five and later files are never looked at |
| DataUtils.SkippedFileIrrelevant | backend/app/data_utils.py:42-47 | an unreadable file, or one without a `title` or `body_prep` column, contributes nothing: dropping it changes nothing |
| OpenAiUtils.FenceGroupIsRegexMatch | backend/app/openai_utils.py:25-29 | the fence search finds a group exactly when the regex matches. The group starts at the leftmost opener, the `\s*` after it is greedy and the `.*?` is lazy up to the first closing fence |
| OpenAiUtils.FenceGroup | backend/app/openai_utils.py:25-29 | no opener means no group; a group lies after the first opener and within the text |
| OpenAiUtils.Slice | backend/app/openai_utils.py:35 | a Python slice is empty when its end is not after its start; otherwise it is exactly the characters from start up to end, and its length is their difference |
| OpenAiUtils.CandidateIsSlice | backend/app/openai_utils.py:28-37 | the candidate is always a contiguous substring of the text |
| OpenAiUtils.Candidate | backend/app/openai_utils.py:21-37 | the candidate handed to `json.loads` is never longer than the reply |
| OpenAiUtils.CandidateInFence | backend/app/openai_utils.py:28-29 | with a fence, the candidate is exactly the text between the group bounds: it starts after the opener and the whitespace that follows it, and ends before the whitespace in front of the first closing fence; its ends are not whitespace and it holds no fence |
| OpenAiUtils.CandidateBetweenBraces | backend/app/openai_utils.py:31-35 | with no fence and both braces present, the candidate runs from the first `{` to the last `}`; it is empty when the last `}` comes first |
| OpenAiUtils.CandidateWithoutBraces | backend/app/openai_utils.py:36-37 | with no fence and a brace missing, the candidate is the whole text |
| OpenAiUtils.ExtractJson | backend/app/openai_utils.py:21-42 | extraction never fails: a decode error gives `None`, and otherwise the decoded candidate comes back |
| OpenAiUtils.ReversedBracesYieldNone | backend/app/openai_utils.py:32-42 | when the last `}` precedes the first `{`, the empty slice fails to decode and the result is `None` |
| OpenAiUtils.DirectorRecord | backend/app/openai_utils.py:47-55 | a fallback record has exactly the six director fields |
| OpenAiUtils.DirectingReturnsTruthyParse | backend/app/openai_utils.py:105-124 | the decoded reply is returned exactly when it is truthy; `None` and an empty object give the parse-failure record |
| OpenAiUtils.FallbacksHaveAllFields | backend/app/openai_utils.py:44-135 | whenever `get_directing` falls back (no client, a failed call, a reply that does not decode to a truthy value), the record has exactly the six director fields |
| OpenAiUtils.ParseFailureIssue | backend/app/openai_utils.py:116-120 | the parse-failure issue is exactly the fixed prefix, then the first min(100, length) characters of the stripped reply, then `...` |
| OpenAiUtils.GetDirecting | backend/app/openai_utils.py:44-135 | the result is always truthy: a truthy decoded reply from a ready client is returned as it is; without a client the no-client record comes back, and a failed call gives the call-failure record carrying its message |
| GeminiUtils.CleanTextShape | backend/app/gemini_utils.py:16 | the cleaned text has no ```` ``` ```` and no whitespace at either end |
| GeminiUtils.CleanText | backend/app/gemini_utils.py:16 | cleaning never lengthens the reply |
| GeminiUtils.CleanTextIdempotent | backend/app/gemini_utils.py:16 | cleaning an already-cleaned text changes nothing |
| GeminiUtils.CleanTextIsSubsequence | backend/app/gemini_utils.py:16 | cleaning only deletes characters |
| GeminiUtils.CleanJsonResponse | backend/app/gemini_utils.py:12-20 | the result is a value exactly when the cleaned text decodes; otherwise it is a `ValueError` with the `JSON 파싱 오류: ` prefix and no partial value |
| GeminiUtils.GetDirecting | backend/app/gemini_utils.py:22-54 | success iff the model produced text and the cleaned text decodes, and the decoded value is returned with no field check; a call failure gives `Gemini API 오류: ` and its message, a decode error gives `Gemini API 오류: JSON 파싱 오류: ` and the decoder's message; an `init_gemini` failure passes through unwrapped |
| GeminiUtils.FirstMissing | backend/app/gemini_utils.py:79-82 | the field loop raises exactly when `in` raises on the value; it passes iff every field tests present; otherwise it names the first field that tests absent |
| GeminiUtils.FirstMissingOnObject | backend/app/gemini_utils.py:79-82 | on a dict the loop never raises; it passes iff all fields are keys, and otherwise names the first missing key |
| GeminiUtils.DeepDiveCheck | backend/app/gemini_utils.py:79-82 | the check passes iff `in` holds for each of the four fields; it raises `TypeError` iff the value is `None`, a bool or a number; a string passes iff it contains the four field names as substrings |
| GeminiUtils.DeepDiveCheckOnObject | backend/app/gemini_utils.py:79-82 | a dict passes the deep-dive check iff it has `background`, `keyPoints`, `analysis` and `implications`; otherwise the error names the first missing one in that order |
| GeminiUtils.CheckPerspectiveItems | backend/app/gemini_utils.py:127-131 | the list of perspectives passes iff every element tests positive for all four fields under `in` |
| GeminiUtils.PerspectiveCheck | backend/app/gemini_utils.py:121-131 | only a dict whose `perspectives` is a list can pass; a list or string always fails, with `TypeError` iff it tests positive for `perspectives`; `None`, a bool or a number fails with `TypeError` |
| GeminiUtils.PerspectiveCheckOnObject | backend/app/gemini_utils.py:121-131 | a dict passes iff `perspectives` is a key holding a list whose elements pass; a missing key or a non-list value gives its fixed error |
| GeminiUtils.PerspectiveItemsOfObjects | backend/app/gemini_utils.py:127-131 | a list of dicts passes iff each has `viewpoint`, `issues`, `questions` and `implications` |
| GeminiUtils.GetDeepDive | backend/app/gemini_utils.py:56-88 | success iff the reply is non-empty, decodes and passes the check, and the value is then the decoded one; an `init_gemini()` failure passes unchanged; otherwise the failure is the deep-dive prefix followed by the call's message, the empty-reply message, the prefixed decode error, or the check's message naming the first missing field |
| GeminiUtils.GetPerspective | backend/app/gemini_utils.py:90-137 | success iff the reply is non-empty, decodes and passes the perspective check, and the value is then the decoded one; an `init_gemini()` failure passes unchanged; otherwise the failure is the perspective prefix followed by the call's message, the empty-reply message, the prefixed decode error, or the perspective check's message |
| GeminiUtils.EmptyTextNotDecoded | backend/app/gemini_utils.py:72-73 | an empty reply is refused before decoding: the result does not depend on the decoder |
| Api.Health | backend/app/api.py:25-31 | the health record always has the three fixed fields, status `healthy` and version `1.0.0` |
| Api.BadRequestText | backend/app/api.py:78-83 | the text of a 400 `HTTPException` is `400: ` followed by its detail |
| Api.Direct | backend/app/api.py:49-53 | success iff the helper succeeds, with its value unchanged; any failure is a 500 whose detail is the exception's text |
| Api.DeepDive | backend/app/api.py:65-83 | an empty topic gives 500 with detail `400: 분석할 주제를 입력해주세요.`; otherwise the helper decides; the route never answers 400 |
| Api.Perspective | backend/app/api.py:100-120 | 400 `상황 설명을 입력해주세요.` iff the stripped situation is shorter than 5; otherwise success iff the helper succeeds, and a failure is a 500 whose detail adds the route prefix to the helper's message |
| Api.PerspectiveRejectsBeforeHelper | backend/app/api.py:103-107 | a rejected situation gets the same answer whatever the model and decoder would do |
| Api.DeepDiveRejectsBeforeHelper | backend/app/api.py:68-74 | an empty topic gets the same answer whatever the model and decoder would do |
| Api.PerspectivePrefixRepeated | backend/app/api.py:115-120 | a helper failure inside its `try` reaches the client with `관점 확장 처리 중 오류가 발생했습니다: ` twice |
| SituationInput.SubmitArgument | frontend/src/components/SituationInput.tsx:13-18 | nothing is submitted iff the text is all whitespace; otherwise the trimmed text is submitted, non-empty and with non-space ends |
| SituationInput.SubmitDisabledIff | frontend/src/components/SituationInput.tsx:60 | the button is disabled iff loading or the text is all whitespace, that is iff loading or a submit would pass nothing on |
| SituationInput.LoadingLocksForm | frontend/src/components/SituationInput.tsx:50-60 | while loading, both the textarea and the button are disabled; otherwise the textarea is enabled and the button is disabled iff the text is all whitespace |
| SituationInput.SubmitIgnoresSurroundingSpace | frontend/src/components/SituationInput.tsx:15-16 | whitespace added around the text does not change what is submitted |
| SituationInput.Utf16Length | frontend/src/components/SituationInput.tsx:54 | JavaScript's `length` counts one code unit per character of the Basic Multilingual Plane and two above it; it equals the character count iff no character lies above it |
| SituationInput.Counter | frontend/src/components/SituationInput.tsx:54 | the counter's figure is the untrimmed text's `length` in UTF-16 code units, between the character count and twice it; its bound is the fixed 1000 |
| SituationInput.SituationForm.constructor | frontend/src/components/SituationInput.tsx:11 | the field starts empty |
| SituationInput.SituationForm.Change | frontend/src/components/SituationInput.tsx:47 | the field takes the new value as it is, however long |
| SituationInput.SituationForm.Submit | frontend/src/components/SituationInput.tsx:13-18 | the handler passes on what `SubmitArgument` gives for the current field |
| Page.ErrorText | frontend/src/app/page.tsx:72 | an `Error` contributes its message; anything else gives the default text |
| Page.Home.constructor | frontend/src/app/page.tsx:14-29 | the initial state is the `useState` defaults, and it satisfies the invariant |
| Page.Home.BeginApiTest | frontend/src/app/page.tsx:32-34 | only the status changes, to `checking` |
| Page.Home.CompleteApiTest | frontend/src/app/page.tsx:34-37 | the probe result is stored, and the status is `online` iff it succeeded and `offline` otherwise |
| Page.Home.BeginDirecting | frontend/src/app/page.tsx:47-67 | offline, only the offline error is set and nothing is sent; otherwise loading starts, the error clears, the situation is recorded, all three slots empty, and the situation is sent |
| Page.Home.CompleteDirecting | frontend/src/app/page.tsx:66-75 | success stores the response, failure stores the error text; loading ends in both cases |
| Page.Home.BeginDeepDive | frontend/src/app/page.tsx:79-82 | only the deep-dive loading flag changes, and the topic is sent |
| Page.Home.CompleteDeepDive | frontend/src/app/page.tsx:82-90 | success stores the deep-dive response, failure the error text; the flag goes back to false |
| Page.Home.BeginPerspective | frontend/src/app/page.tsx:94-102 | without a situation, or offline, nothing changes and nothing is sent; otherwise loading starts, the error clears, and the recorded situation is sent with the perspective |
| Page.Home.CompletePerspective | frontend/src/app/page.tsx:102-108 | success stores the perspective response, failure the error text; the flag goes back to false |
| Page.TransitionsKeepValid | frontend/src/app/page.tsx:14-108 | every step keeps the invariant: no director response while directing loads, and probe details are present once the status is not `checking` |
| Page.ReachableStatesValid | frontend/src/app/page.tsx:14-108 | every state reached by any sequence of begin and complete steps satisfies the invariant |
| Page.ReachableOfflineBanner | frontend/src/app/page.tsx:172 | in every reachable state the offline banner shows exactly when the status is `offline` |
| Page.ReachableRendering | frontend/src/app/page.tsx:158-250 | in every reachable state neither the director panel nor the notes show while the form shows directing as loading |
| Page.RenderingAlwaysConsistent | frontend/src/app/page.tsx:158-250 | in any state, from the render conditions alone, the director panel and the notes show together, and the offline banner never shows while the test button is disabled |
| Page.FailureShowsErrorBanner | frontend/src/app/page.tsx:195 | after a failed directing, deep-dive or perspective request (which set the error at lines 72, 87 and 105) the error banner shows unless an `Error` with an empty message was thrown |
| Page.OfflineBannerIffOffline | frontend/src/app/page.tsx:172 | under the invariant the banner's `connectionDetails` test is always met once offline |
| Page.ApiTestOutcome | frontend/src/app/page.tsx:32-37 | during a test the button is disabled and the offline banner is hidden; afterwards the status is `online` iff the probe succeeded and the banner shows iff it failed; nothing else changes |
| Page.OfflineDirectingOnlySetsError | frontend/src/app/page.tsx:52-55 | offline, directing only sets the offline message, which the error banner shows |
| Page.DirectingStartsClean | frontend/src/app/page.tsx:57-64 | otherwise directing starts with no panel, no notes and no error banner, with the form locked and the situation recorded; nothing else changes |
| Page.DirectingOutcome | frontend/src/app/page.tsx:66-75 | after directing completes, the form is unlocked, and the director panel and notes show iff it succeeded; on failure the error holds the message |
| Page.DeepDiveFrame | frontend/src/app/page.tsx:79-91 | a deep dive neither checks the status nor clears the error; beside its flag it writes only its slot or, on failure, the error |
| Page.PerspectiveFrame | frontend/src/app/page.tsx:94-108 | a blocked perspective request changes nothing; otherwise it clears the error and, beside its flag and the error, writes only its own slot; success stores the slot and leaves the error clear, failure keeps the slot and sets the error to the thrown message or the handler's default |

## Left out

- Calls to language models and other services are parameters of the model and are not modelled: `init_gemini`, `generate_content`, `client.chat.completions.create`, the MCP and Naver/Notion scripts and the prompt text.
- `json.loads` has no model of its own: it is a parameter that returns a value or a decode error for each text. Errors other than `JSONDecodeError`, such as a recursion limit, are not modelled.
- Json.Float: a Python `float` is a real number, with no IEEE 754 arithmetic. Rounding is up to the decoder parameter, which yields the value Python would hold (`1e-400` decodes to `0.0`). `NaN` and `Infinity`, which `json.loads` also accepts, have no real counterpart. The modelled code only reads a float's type name and whether it is zero, and a decoder can represent those two with a non-zero real.
- Reading files and the environment is not modelled. The CSV map stands for `os.path.exists` and `pd.read_csv`. A cell is given as the string `str(...)` of it, so pandas' `nan` for an empty cell is not modelled separately. A date cell is taken to be a string. backend/app/config.py is not part of this model.
- `get_statistics_summary` (backend/app/data_utils.py:84-109) only summarises files and is not modelled.
- DataUtils.SearchSimilarCases: the outer `except` that returns `[]` cannot fire on the typed inputs of the model, so that path is absent.
- DataUtils.ExtractKeywords: `lower` maps only ASCII letters. The table terms are Hangul, which has no case, so other characters are never lower-cased.
- Text.IsSpace: whitespace is the set Python's `strip` and JavaScript's `trim` share. The Python-only characters U+001C–U+001F and U+0085, and JavaScript's U+FEFF, are not treated as whitespace. The same set stands for the regex `\s` in OpenAiUtils.FenceGroup, so FenceGroup, like `strip`, differs from Python on a reply that has U+001C–U+001F or U+0085 next to a fence.
- SituationInput.Utf16Length: a string is a sequence of Unicode scalar values, so a lone surrogate, which a JavaScript string can hold, is not modelled.
- GeminiUtils.GetDirecting, GeminiUtils.GetDeepDive, GeminiUtils.GetPerspective: an empty or missing `response` object and a `response.text` that raises are folded into the call-failure case.
- OpenAiUtils.GetDirecting: a reply whose content is `None`, where `.strip()` raises, is folded into the call-failure case. The OpenAI module is modelled on its own; the routes use the Gemini helpers, and the OpenAI module's missing `AZURE_OPENAI_API_KEY` import is not modelled.
- The OpenAI `get_deep_dive` and `get_perspective` return fixed records from data the routes never use. Like the news-search flow, which has client wrappers only, they are not modelled.
- FastAPI's request parsing and `response_model` checks are not modelled. A body without a required field is answered with 422 before the route body runs, and a returned value of the wrong shape becomes a 500 after it. Logging is not modelled either.
- backend/app/main.py (application and CORS setup) is not part of this model.
- frontend/src/lib/api.ts (request wrappers and the connection probe's URL loop) is not part of this model. The probe's result and each request's outcome are inputs of the complete steps.
- The 30-second polling timer is not modelled, and neither are overlapping requests as such. Any interleaving of begin and complete steps is covered, but a completion is not tied to the begin step that started it.
- The presentation components (DirectorOutput, DeepDiveOutput, PerspectiveOutput, Notes) are not modelled; only the page's conditions for rendering them are. frontend/next.config.js is not modelled either.
- backend/app/models.py, frontend/src/types.ts and frontend/src/types/index.ts only shape the Dafny datatypes.
